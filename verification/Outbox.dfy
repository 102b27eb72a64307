/** Which rows an outbox claim takes, and how fast a lone dispatcher empties the table. */
module Outbox {
  import opened Basics
  import opened Tables

  /** A row of `rows` that no other row of `rows` is older than. */
  lemma {:induction false} Oldest(db: Db, rows: set<Id>) returns (e: Id)
    requires rows != {} && rows <= db.outbox.Keys
    ensures e in rows && forall r :: r in rows ==> db.outbox[e].createdAt <= db.outbox[r].createdAt
    decreases rows
  {
    e :| e in rows;
    if rows != {e} {
      var f := Oldest(db, rows - {e});
      if db.outbox[f].createdAt < db.outbox[e].createdAt {
        e := f;
      }
      assert forall r :: r in rows ==> r == e || r in rows - {e} || db.outbox[e].createdAt <= db.outbox[r].createdAt;
    }
  }

  /** The database can always make a selection. */
  lemma {:induction false} BatchExists(db: Db, skipped: set<Id>, limit: nat, now: Time, lease: int) returns (batch: set<Id>)
    ensures IsBatch(db, batch, skipped, limit, now, lease)
    decreases limit
  {
    var free := ClaimableRows(db, now, lease) - skipped;
    if limit == 0 {
      batch := {};
    } else {
      var fewer := BatchExists(db, skipped, limit - 1, now, lease);
      if fewer == free {
        batch := fewer;
      } else {
        assert free == fewer + (free - fewer);
        var e := Oldest(db, free - fewer);
        batch := fewer + {e};
        SubsetBound(fewer, free);
        SubsetBound(batch, free);
      }
    }
  }

  /** While the earlier claim is fresh, a later claim takes none of its rows. */
  lemma BatchesDisjoint(db: Db, first: set<Id>, skipped: set<Id>, second: set<Id>, locked: set<Id>, limit: nat, token: Id,
                        now: Time, later: Time, lease: int)
    requires IsBatch(db, first, skipped, limit, now, lease)
    requires IsBatch(ClaimEvents(db, first, token, now), second, locked, limit, later, lease)
    requires later <= now + lease
    ensures first !! second
    ensures forall e :: e in first ==> HoldsRow(ClaimEvents(db, first, token, now), e, token)
  {
  }

  /* ---- a lone dispatcher ---- */

  /** Every row of the batch is sent and marked. */
  function PublishAll(db: Db, batch: set<Id>, now: Time): Db {
    db.(outbox := map e | e in db.outbox ::
          if e in batch then
            db.outbox[e].(status := OutPublished, publishedAt := Some(now), updatedAt := now, lastError := None,
                          lockedAt := None, claimToken := None)
          else db.outbox[e])
  }

  /** One failure-free call of `dispatch_outbox` at `now`, with no rows locked elsewhere. */
  function DispatchCall(db: Db, batch: set<Id>, token: Id, now: Time): Db {
    PublishAll(ClaimEvents(db, batch, token, now), batch, now)
  }

  // The rows one call selected, and its claim token.
  datatype Call = Call(batch: set<Id>, token: Id)

  predicate ValidCalls(db: Db, calls: seq<Call>, limit: nat, now: Time, lease: int)
    decreases |calls|
  {
    calls == [] ||
    (IsBatch(db, calls[0].batch, {}, limit, now, lease) &&
     ValidCalls(DispatchCall(db, calls[0].batch, calls[0].token, now), calls[1..], limit, now, lease))
  }

  function AfterCalls(db: Db, calls: seq<Call>, now: Time): Db
    decreases |calls|
  {
    if calls == [] then db else AfterCalls(DispatchCall(db, calls[0].batch, calls[0].token, now), calls[1..], now)
  }

  lemma CallTakes(db: Db, batch: set<Id>, token: Id, limit: nat, now: Time, lease: int)
    requires IsBatch(db, batch, {}, limit, now, lease)
    ensures ClaimableRows(DispatchCall(db, batch, token, now), now, lease) == ClaimableRows(db, now, lease) - batch
    ensures |ClaimableRows(DispatchCall(db, batch, token, now), now, lease)| ==
            |ClaimableRows(db, now, lease)| - Min(limit, |ClaimableRows(db, now, lease)|)
  {
    var free := ClaimableRows(db, now, lease);
    assert free - {} == free;
    var after := ClaimableRows(DispatchCall(db, batch, token, now), now, lease);
    forall e | e in free ensures e in after <==> e !in batch {}
    assert after == free - batch;
    assert free == after + batch;
  }

  /** After k calls, whatever rows each selected, exactly max(0, n - k * limit) claimable rows are left. */
  lemma {:induction false} DrainRate(db: Db, calls: seq<Call>, limit: nat, now: Time, lease: int)
    requires ValidCalls(db, calls, limit, now, lease)
    ensures var n := |ClaimableRows(db, now, lease)|;
            |ClaimableRows(AfterCalls(db, calls, now), now, lease)| == n - Min(|calls| * limit, n)
    decreases |calls|
  {
    hide IsBatch, DispatchCall, ClaimableRows;
    if calls == [] {
    } else {
      CallTakes(db, calls[0].batch, calls[0].token, limit, now, lease);
      DrainRate(DispatchCall(db, calls[0].batch, calls[0].token, now), calls[1..], limit, now, lease);
      assert |calls| * limit == (|calls| - 1) * limit + limit;
    }
  }

  /** How many calls take n rows, `limit` at a time. */
  function CallsNeeded(n: nat, limit: nat): nat
    requires 0 < limit
  {
    if n == 0 then 0 else 1 + CallsNeeded(n - Min(limit, n), limit)
  }

  lemma {:induction false} CallsNeededIsCeiling(n: nat, limit: nat)
    requires 0 < limit
    ensures CallsNeeded(n, limit) == (n + limit - 1) / limit
    decreases n
  {
    if n > limit {
      CallsNeededIsCeiling(n - limit, limit);
      OneMoreCall(n - 1, limit);
      assert n - limit + limit - 1 == n - 1;
    } else if n > 0 {
      assert CallsNeeded(n - Min(limit, n), limit) == 0;
      assert n + limit - 1 == 1 * limit + (n - 1);
    }
  }

  lemma OneMoreCall(x: nat, limit: nat)
    requires 0 < limit
    ensures (x + limit) / limit == x / limit + 1
  {
    var q, r := x / limit, x % limit;
    assert x == q * limit + r;
    assert x + limit == (q + 1) * limit + r;
    QuotientIs(x + limit, q + 1, r, limit);
  }

  lemma QuotientIs(a: nat, q: nat, r: nat, limit: nat)
    requires r < limit && a == q * limit + r
    ensures a / limit == q
  {
    var d := a / limit - q;
    assert a == (a / limit) * limit + a % limit;
    assert d * limit == (a / limit) * limit - q * limit;
    AtLeastOne(d, limit);
  }

  lemma AtLeastOne(d: int, limit: nat)
    ensures 0 < d ==> limit <= d * limit
    ensures d < 0 ==> d * limit + limit <= 0
  {
  }

  /** So the table is empty after exactly ceil(n / limit) calls, and not before. */
  lemma {:induction false} DrainedExactly(db: Db, calls: seq<Call>, limit: nat, now: Time, lease: int)
    requires ValidCalls(db, calls, limit, now, lease) && 0 < limit
    ensures ClaimableRows(AfterCalls(db, calls, now), now, lease) == {} <==>
            CallsNeeded(|ClaimableRows(db, now, lease)|, limit) <= |calls|
    decreases |calls|
  {
    hide IsBatch, DispatchCall, ClaimableRows;
    if calls == [] {
    } else {
      CallTakes(db, calls[0].batch, calls[0].token, limit, now, lease);
      DrainedExactly(DispatchCall(db, calls[0].batch, calls[0].token, now), calls[1..], limit, now, lease);
      if |ClaimableRows(db, now, lease)| == 0 {
        assert CallsNeeded(0, limit) == 0;
      }
    }
  }
}
