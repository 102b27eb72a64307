/** `run_migrations`: each SQL file is applied once, in name order, under one lock, all files or none. */
module Migrations {
  import opened Basics

  // A migration directory: file names and what they contain.
  type Directory = map<string, string>

  // The rows of schema_migrations in insertion order, None before the table exists, and the scripts executed so far.
  datatype Schema = Schema(tracked: Option<seq<string>>, executed: seq<string>)

  const BLANK := Schema(None, [])

  function History(s: Schema): seq<string> {
    if s.tracked.Some? then s.tracked.value else []
  }

  function Names(history: seq<string>): set<string> {
    set n | n in history
  }

  /* ---- the order of file names ---- */

  /** Code point by code point, a prefix first. */
  predicate Before(a: string, b: string) {
    if b == "" then false
    else if a == "" then true
    else a[0] < b[0] || (a[0] == b[0] && Before(a[1..], b[1..]))
  }

  /** `i` is where the two names part: they agree up to it, and there the first has the smaller code point. */
  predicate PartsAt(a: string, b: string, i: int) {
    0 <= i < |a| && i < |b| && a[..i] == b[..i] && a[i] < b[i]
  }

  /** The order of strings: a proper prefix comes before, and else the first difference decides. */
  lemma {:induction false} BeforeIs(a: string, b: string)
    ensures Before(a, b) <==> (|a| < |b| && a == b[..|a|]) || exists i :: PartsAt(a, b, i)
    decreases |a|
  {
    if a == "" {
      assert b[..0] == a;
    } else if b != "" && a[0] == b[0] {
      BeforeIs(a[1..], b[1..]);
      assert a == [a[0]] + a[1..] && b == [b[0]] + b[1..];
      assert |a| < |b| ==> b[..|a|] == [b[0]] + b[1..][..|a| - 1];
      forall i | 1 <= i < |a| && i < |b| ensures PartsAt(a, b, i) <==> PartsAt(a[1..], b[1..], i - 1) {
        assert a[..i] == [a[0]] + a[1..][..i - 1] && b[..i] == [b[0]] + b[1..][..i - 1];
      }
      assert !PartsAt(a, b, 0);
      assert forall i :: PartsAt(a[1..], b[1..], i) ==> PartsAt(a, b, i + 1);
    } else if b != "" {
      assert PartsAt(a, b, 0) <==> a[0] < b[0];
      assert forall i :: 0 < i < |a| && i < |b| ==> a[..i][0] != b[..i][0];
    }
  }

  lemma {:induction false} BeforeTransitive(a: string, b: string, c: string)
    requires Before(a, b) && Before(b, c)
    ensures Before(a, c)
  {
    if a != "" && a[0] == b[0] && b[0] == c[0] {
      BeforeTransitive(a[1..], b[1..], c[1..]);
    }
  }

  lemma {:induction false} BeforeTotal(a: string, b: string)
    ensures Before(a, b) || Before(b, a) || a == b
    ensures !(Before(a, b) && Before(b, a))
    ensures !Before(a, a)
  {
    if a != "" {
      if b != "" {
        BeforeTotal(a[1..], b[1..]);
        assert a[0] == b[0] && a[1..] == b[1..] ==> a == [a[0]] + a[1..] == b;
      } else {
        BeforeTotal(a[1..], a[1..]);
      }
    }
  }

  predicate Ascending(names: seq<string>) {
    forall i, k :: 0 <= i < k < |names| ==> Before(names[i], names[k])
  }

  predicate Distinct(names: seq<string>) {
    forall i, k :: 0 <= i < k < |names| ==> names[i] != names[k]
  }

  lemma AscendingDistinct(names: seq<string>)
    requires Ascending(names)
    ensures Distinct(names)
  {
    forall i, k | 0 <= i < k < |names| ensures names[i] != names[k] {
      BeforeTotal(names[i], names[k]);
    }
  }

  /** A name that no other comes before. */
  lemma {:induction false} Earliest(names: set<string>) returns (first: string)
    requires names != {}
    ensures first in names && forall n :: n in names && n != first ==> Before(first, n)
    decreases names
  {
    first :| first in names;
    if names != {first} {
      var other := Earliest(names - {first});
      BeforeTotal(first, other);
      if Before(other, first) {
        first := other;
      } else {
        forall n | n in names && n != first ensures Before(first, n) {
          if n != other {
            BeforeTransitive(first, other, n);
          }
        }
      }
    }
  }

  /** `sorted(...)`: there is only one ascending list of a set of names. */
  lemma {:induction false} OneListing(a: seq<string>, b: seq<string>)
    requires Ascending(a) && Ascending(b) && Names(a) == Names(b)
    ensures a == b
    decreases |a|
  {
    if a == [] {
      NoNames(b);
    } else {
      assert a[0] in Names(b);
      var k :| 0 <= k < |b| && b[k] == a[0];
      assert b[0] in Names(a);
      var i :| 0 <= i < |a| && a[i] == b[0];
      if 0 < k && 0 < i {
        BeforeTotal(a[0], b[0]);
      }
      BeforeTotal(a[0], a[0]);
      assert a[0] == b[0];
      RestNames(a);
      RestNames(b);
      OneListing(a[1..], b[1..]);
      assert a == [a[0]] + a[1..] && b == [b[0]] + b[1..];
    }
  }

  lemma NoNames(b: seq<string>)
    requires Names(b) == Names([])
    ensures b == []
  {
    if b != [] {
      SomeName(b);
    }
  }

  lemma SomeName(b: seq<string>)
    requires b != []
    ensures Names(b) != {}
  {
    assert b[0] in Names(b);
  }

  lemma RestNames(a: seq<string>)
    requires a != [] && Ascending(a)
    ensures Names(a[1..]) == Names(a) - {a[0]} && Ascending(a[1..])
  {
    AscendingDistinct(a);
    forall n | n in a && n != a[0] ensures n in a[1..] {
      var i :| 0 <= i < |a| && a[i] == n;
      assert a[1..][i - 1] == n;
    }
  }

  method Sorted(files: Directory) returns (names: seq<string>)
    ensures Ascending(names) && Names(names) == files.Keys
  {
    names := [];
    var rest := files.Keys;
    while rest != {}
      invariant Ascending(names) && Names(names) == files.Keys - rest && rest <= files.Keys
      invariant forall n, r :: n in names && r in rest ==> Before(n, r)
      decreases rest
    {
      ghost var earliest := Earliest(rest);
      var next :| next in rest && forall n :: n in rest && n != next ==> Before(next, n);
      assert Names(names + [next]) == Names(names) + {next};
      names, rest := names + [next], rest - {next};
    }
  }

  /* ---- one transaction ---- */

  /** Executing one file and recording it. */
  function ApplyFile(s: Schema, files: Directory, name: string): Schema
    requires name in files
  {
    Schema(Some(History(s) + [name]), s.executed + [files[name]])
  }

  /** The loop over the sorted names, skipping what `applied` holds. */
  function ApplyAll(s: Schema, files: Directory, names: seq<string>, applied: set<string>): Schema
    requires forall n :: n in names ==> n in files
    decreases |names|
  {
    if names == [] then s
    else ApplyAll(if names[0] in applied then s else ApplyFile(s, files, names[0]), files, names[1..], applied)
  }

  function Pending(names: seq<string>, applied: set<string>): seq<string> {
    if names == [] then [] else (if names[0] in applied then [] else [names[0]]) + Pending(names[1..], applied)
  }

  function Texts(files: Directory, names: seq<string>): seq<string>
    requires forall n :: n in names ==> n in files
  {
    seq(|names|, i requires 0 <= i < |names| => files[names[i]])
  }

  lemma {:induction false} PendingIs(names: seq<string>, applied: set<string>)
    requires Ascending(names)
    ensures Ascending(Pending(names, applied)) && Names(Pending(names, applied)) == Names(names) - applied
  {
    if names != [] {
      RestNames(names);
      PendingIs(names[1..], applied);
      var p := Pending(names[1..], applied);
      forall n | n in p ensures Before(names[0], n) {
        assert n in Names(p);
        var i :| 0 <= i < |names[1..]| && names[1..][i] == n;
        assert names[i + 1] == n;
      }
      assert Names([names[0]] + p) == {names[0]} + Names(p);
      assert [] + p == p;
      assert Names(names) == {names[0]} + Names(names[1..]);
    }
  }

  lemma {:induction false} ApplyAllIs(s: Schema, files: Directory, names: seq<string>, applied: set<string>)
    requires s.tracked.Some? && forall n :: n in names ==> n in files
    ensures forall n :: n in Pending(names, applied) ==> n in files
    ensures ApplyAll(s, files, names, applied).tracked == Some(History(s) + Pending(names, applied))
    ensures ApplyAll(s, files, names, applied).executed == s.executed + Texts(files, Pending(names, applied))
    decreases |names|
  {
    if names == [] {
      assert History(s) + [] == History(s) && s.executed + Texts(files, []) == s.executed;
    } else {
      var next := if names[0] in applied then s else ApplyFile(s, files, names[0]);
      ApplyAllIs(next, files, names[1..], applied);
      var p := Pending(names[1..], applied);
      if names[0] in applied {
        assert [] + p == p;
      } else {
        assert History(s) + ([names[0]] + p) == History(next) + p;
        assert s.executed + Texts(files, [names[0]] + p) == next.executed + Texts(files, p);
      }
    }
  }

  /** What a run that commits leaves behind. */
  ghost predicate Migrated(before: Schema, files: Directory, after: Schema) {
    exists added :: Adds(before, files, added, after)
  }

  /** The files not yet applied, in name order, each executed and recorded. */
  predicate Adds(before: Schema, files: Directory, added: seq<string>, after: Schema) {
    && Ascending(added) && Names(added) == files.Keys - Names(History(before))
    && (forall n :: n in added ==> n in files)
    && after == Schema(Some(History(before) + added), before.executed + Texts(files, added))
  }

  lemma ApplyAllMigrates(s: Schema, files: Directory, names: seq<string>)
    requires Ascending(names) && Names(names) == files.Keys
    ensures forall n :: n in names ==> n in files
    ensures Migrated(s, files, ApplyAll(s.(tracked := Some(History(s))), files, names, Names(History(s))))
  {
    assert forall n :: n in names ==> n in Names(names);
    var applied := Names(History(s));
    ApplyAllIs(s.(tracked := Some(History(s))), files, names, applied);
    PendingIs(names, applied);
    var added := Pending(names, applied);
    assert forall n :: n in added ==> n in Names(added);
    assert Adds(s, files, added, ApplyAll(s.(tracked := Some(History(s))), files, names, applied));
  }

  class MigrationDatabase {
    var schema: Schema

    constructor ()
      ensures schema == BLANK
    {
      schema := BLANK;
    }

    /**
     True if the run returns. An exception from a file rolls everything back; one from the commit may come before or after it
     took effect, and then either everything was applied or nothing.
     */
    method RunMigrations(files: Directory, failing: set<string>, commit: Outcome) returns (done: bool, ghost added: seq<string>)
      modifies this
      ensures forall n :: n in added <==> n in files && !(old(schema).tracked.Some? && n in old(schema).tracked.value)
      ensures forall i, k :: 0 <= i < k < |added| ==> Before(added[i], added[k])
      ensures (forall n :: n in added ==> n !in failing) && !commit.NotDone? ==>
                && schema.tracked == Some((if old(schema).tracked.Some? then old(schema).tracked.value else []) + added)
                && |schema.executed| == |old(schema).executed| + |added|
                && schema.executed[..|old(schema).executed|] == old(schema).executed
                && forall i :: 0 <= i < |added| ==> schema.executed[|old(schema).executed| + i] == files[added[i]]
      ensures var reaches := failing !! (files.Keys - Names(History(old(schema))));
              && (done <==> reaches && commit.Done?)
              && if reaches && !commit.NotDone? then Migrated(old(schema), files, schema) else schema == old(schema)
    {
      var saved := schema;
      schema := schema.(tracked := Some(History(schema)));
      var applied := Names(History(schema));
      var names := Sorted(files);
      assert forall n :: n in names <==> n in Names(names);
      ApplyAllMigrates(saved, files, names);
      ghost var start := schema;
      added :| Adds(saved, files, added, ApplyAll(start, files, names, applied));
      assert forall n :: n in added <==> n in Names(added);
      for i := 0 to |names|
        invariant ApplyAll(schema, files, names[i..], applied) == ApplyAll(start, files, names, applied)
        invariant forall k :: 0 <= k < i ==> names[k] in applied || names[k] !in failing
      {
        assert names[i..][1..] == names[i + 1..];
        if names[i] in applied {
          continue;
        }
        if names[i] in failing {
          schema := saved;
          assert names[i] in Names(names);
          assert names[i] in added;
          return false, added;
        }
        schema := ApplyFile(schema, files, names[i]);
      }
      if commit.NotDone? {
        schema := saved;
      }
      done := commit.Done?;
    }
  }

  /** A second run changes nothing. */
  lemma RerunChangesNothing(before: Schema, files: Directory, once: Schema, twice: Schema)
    requires Migrated(before, files, once) && Migrated(once, files, twice)
    ensures twice == once
    ensures Names(History(once)) == Names(History(before)) + files.Keys
  {
    var added :| Adds(once, files, added, twice);
    MigratedNames(before, files, once);
    NoNames(added);
    assert History(once) + [] == History(once) && once.executed + Texts(files, []) == once.executed;
  }

  lemma MigratedNames(before: Schema, files: Directory, after: Schema)
    requires Migrated(before, files, after)
    ensures Names(History(after)) == Names(History(before)) + files.Keys
    ensures Distinct(History(before)) ==> Distinct(History(after))
    ensures |after.executed| - |before.executed| == |History(after)| - |History(before)|
  {
    var added :| Adds(before, files, added, after);
    var past := History(before);
    assert Names(past + added) == Names(past) + Names(added);
    AscendingDistinct(added);
    if Distinct(past) {
      forall i, k | 0 <= i < k < |past + added| ensures (past + added)[i] != (past + added)[k] {
        if i < |past| && |past| <= k {
          assert past[i] in Names(past) && added[k - |past|] in Names(added);
        }
      }
    }
  }

  /** The result of a run is determined. */
  lemma MigratedOnce(before: Schema, files: Directory, a: Schema, b: Schema)
    requires Migrated(before, files, a) && Migrated(before, files, b)
    ensures a == b
  {
    var x :| Adds(before, files, x, a);
    var y :| Adds(before, files, y, b);
    OneListing(x, y);
  }

  /** The history stays the sorted list exactly when every new file sorts after every applied one. */
  lemma SortedExactlyIfNewFilesSortLast(before: Schema, files: Directory, after: Schema)
    requires Migrated(before, files, after)
    ensures Ascending(History(after)) <==>
            && Ascending(History(before))
            && forall o, n :: o in History(before) && n in files && n !in History(before) ==> Before(o, n)
  {
    var added :| Adds(before, files, added, after);
    var past := History(before);
    var all := past + added;
    if Ascending(all) {
      forall i, k | 0 <= i < k < |past| ensures Before(past[i], past[k]) {
        assert all[i] == past[i] && all[k] == past[k];
      }
      forall o, n | o in past && n in files && n !in past ensures Before(o, n) {
        assert n in Names(added);
        var i :| 0 <= i < |past| && past[i] == o;
        var k :| 0 <= k < |added| && added[k] == n;
        assert all[i] == o && all[|past| + k] == n;
      }
    }
    if Ascending(past) && forall o, n :: o in past && n in files && n !in past ==> Before(o, n) {
      forall i, k | 0 <= i < k < |all| ensures Before(all[i], all[k]) {
        if i < |past| && |past| <= k {
          assert added[k - |past|] in Names(added);
          assert past[i] in Names(past);
        }
      }
    }
  }

  /* ---- runs that overlap, fail and crash ---- */

  ghost predicate IsEarliest(names: set<string>, first: string) {
    first in names && forall n :: n in names && n != first ==> Before(first, n)
  }

  lemma EarliestExists(names: set<string>)
    requires names != {}
    ensures exists first :: IsEarliest(names, first)
  {
    var first := Earliest(names);
    assert IsEarliest(names, first);
  }

  ghost function Listing(names: set<string>): (list: seq<string>)
    ensures Ascending(list) && Names(list) == names
  {
    if names == {} then []
    else
      EarliestExists(names);
      var first :| IsEarliest(names, first);
      var rest := Listing(names - {first});
      assert forall n :: n in rest ==> n in Names(rest);
      assert Names([first] + rest) == {first} + Names(rest);
      [first] + rest
  }

  // One run: waiting for the advisory lock, or inside its transaction with a private copy of the tables.
  datatype Runner =
    | Waiting(files: Directory)
    | Inside(files: Directory, base: Schema, left: seq<string>, work: Schema)

  datatype Deployment = Deployment(committed: Schema, runners: map<Id, Runner>)

  // A commit whose reply is lost is a commit; whoever waits for the reply is gone either way.
  datatype Move = Arrive(r: Id, files: Directory) | Lock(r: Id) | Execute(r: Id) | Commit(r: Id) | Abort(r: Id)

  predicate LockFree(d: Deployment) {
    forall r :: r in d.runners ==> d.runners[r].Waiting?
  }

  predicate CanMove(d: Deployment, m: Move) {
    match m
    case Arrive(r, _) => r !in d.runners
    case Lock(r) => r in d.runners && d.runners[r].Waiting? && LockFree(d)
    case Execute(r) => r in d.runners && d.runners[r].Inside? && d.runners[r].left != [] && d.runners[r].left[0] in d.runners[r].files
    case Commit(r) => r in d.runners && d.runners[r].Inside? && d.runners[r].left == []
    // An exception or a crash; the lock goes with the transaction.
    case Abort(r) => r in d.runners
  }

  ghost function Moved(d: Deployment, m: Move): Deployment
    requires CanMove(d, m)
  {
    match m
    case Arrive(r, files) => d.(runners := d.runners[r := Waiting(files)])
    case Lock(r) =>
      var files := d.runners[r].files;
      d.(runners := d.runners[r := Inside(files, d.committed, Listing(files.Keys),
                                          d.committed.(tracked := Some(History(d.committed))))])
    case Execute(r) =>
      var runner := d.runners[r];
      var name := runner.left[0];
      var work := if name in Names(History(runner.base)) then runner.work else ApplyFile(runner.work, runner.files, name);
      d.(runners := d.runners[r := runner.(left := runner.left[1..], work := work)])
    case Commit(r) => Deployment(d.runners[r].work, d.runners - {r})
    case Abort(r) => d.(runners := d.runners - {r})
  }

  /** The private copy is the committed tables with a prefix of the files applied. */
  ghost predicate InsideOk(d: Deployment, r: Id)
    requires r in d.runners && d.runners[r].Inside?
  {
    var runner := d.runners[r];
    && runner.base == d.committed
    && (forall n :: n in runner.left ==> n in runner.files)
    && (forall n :: n in Listing(runner.files.Keys) ==> n in runner.files)
    && var applied := Names(History(runner.base));
       ApplyAll(runner.work, runner.files, runner.left, applied) ==
       ApplyAll(runner.base.(tracked := Some(History(runner.base))), runner.files, Listing(runner.files.Keys), applied)
  }

  ghost predicate LockHeldOnce(d: Deployment) {
    && (forall r, q :: r in d.runners && q in d.runners && d.runners[r].Inside? && d.runners[q].Inside? ==> r == q)
    && (forall r :: r in d.runners && d.runners[r].Inside? ==> InsideOk(d, r))
  }

  lemma MoveKeepsLock(d: Deployment, m: Move)
    requires LockHeldOnce(d) && CanMove(d, m)
    ensures LockHeldOnce(Moved(d, m))
    ensures if m.Commit? then Migrated(d.committed, d.runners[m.r].files, Moved(d, m).committed)
            else Moved(d, m).committed == d.committed
  {
    hide Ascending;
    if m.Lock? {
      var files := d.runners[m.r].files;
      assert forall n :: n in Listing(files.Keys) ==> n in Names(Listing(files.Keys));
    } else if m.Commit? {
      var runner := d.runners[m.r];
      assert InsideOk(d, m.r);
      ApplyAllMigrates(d.committed, runner.files, Listing(runner.files.Keys));
    } else if m.Execute? {
      assert InsideOk(d, m.r);
      assert forall r :: r in Moved(d, m).runners && Moved(d, m).runners[r].Inside? ==> r == m.r;
    }
  }

  ghost predicate ValidMoves(d: Deployment, moves: seq<Move>)
    decreases |moves|
  {
    moves == [] || (CanMove(d, moves[0]) && ValidMoves(Moved(d, moves[0]), moves[1..]))
  }

  ghost function AfterMoves(d: Deployment, moves: seq<Move>): Deployment
    requires ValidMoves(d, moves)
    decreases |moves|
  {
    if moves == [] then d else AfterMoves(Moved(d, moves[0]), moves[1..])
  }

  /** The directories of the runs that committed, in the order they did. */
  ghost function CommittedRuns(d: Deployment, moves: seq<Move>): seq<Directory>
    requires ValidMoves(d, moves)
    decreases |moves|
  {
    if moves == [] then []
    else (if moves[0].Commit? then [d.runners[moves[0].r].files] else []) + CommittedRuns(Moved(d, moves[0]), moves[1..])
  }

  /** The runs one after another. */
  ghost predicate OneByOne(before: Schema, runs: seq<Directory>, after: Schema)
    decreases |runs|
  {
    if runs == [] then after == before
    else exists mid :: Migrated(before, runs[0], mid) && OneByOne(mid, runs[1..], after)
  }

  /** However runs overlap, fail and crash, the tables are those of the committed runs made one after another. */
  lemma {:induction false} RunsAreSerial(d: Deployment, moves: seq<Move>)
    requires LockHeldOnce(d) && ValidMoves(d, moves)
    ensures OneByOne(d.committed, CommittedRuns(d, moves), AfterMoves(d, moves).committed)
    decreases |moves|
  {
    hide LockHeldOnce, CanMove, Moved, Migrated;
    if moves != [] {
      MoveKeepsLock(d, moves[0]);
      var next := Moved(d, moves[0]);
      RunsAreSerial(next, moves[1..]);
      var rest := CommittedRuns(next, moves[1..]);
      if moves[0].Commit? {
        CommitNames(d, moves[0]);
        var runs := [d.runners[moves[0].r].files] + rest;
        assert runs[1..] == rest;
        assert Migrated(d.committed, runs[0], next.committed) && OneByOne(next.committed, runs[1..], AfterMoves(d, moves).committed);
      } else {
        assert [] + rest == rest;
      }
    }
  }

  lemma CommitNames(d: Deployment, m: Move)
    requires CanMove(d, m) && m.Commit?
    ensures m.r in d.runners
  {
  }

  /** So over any such history each file was executed at most once, and every file of a committed run was. */
  lemma {:induction false} AppliedOnce(before: Schema, runs: seq<Directory>, after: Schema)
    requires OneByOne(before, runs, after) && Distinct(History(before)) && |before.executed| == |History(before)|
    ensures Distinct(History(after)) && |after.executed| == |History(after)|
    ensures Names(History(before)) <= Names(History(after))
    ensures forall i :: 0 <= i < |runs| ==> runs[i].Keys <= Names(History(after))
    decreases |runs|
  {
    hide Migrated, Distinct, Names;
    if runs != [] {
      var mid :| Migrated(before, runs[0], mid) && OneByOne(mid, runs[1..], after);
      MigratedNames(before, runs[0], mid);
      AppliedOnce(mid, runs[1..], after);
      forall i | 0 <= i < |runs| ensures runs[i].Keys <= Names(History(after)) {
        if 0 < i {
          assert runs[i] == runs[1..][i - 1];
        }
      }
    }
  }

  /** Every run brings only files that sort after all those applied before it. */
  predicate NewFilesSortLast(applied: set<string>, runs: seq<Directory>)
    decreases |runs|
  {
    runs == [] ||
    ((forall o, n :: o in applied && n in runs[0] && n !in applied ==> Before(o, n)) &&
     NewFilesSortLast(applied + runs[0].Keys, runs[1..]))
  }

  lemma MigratedExtends(before: Schema, files: Directory, after: Schema)
    requires Migrated(before, files, after)
    ensures History(before) <= History(after)
  {
  }

  /** The history is the sorted list of all files exactly when new files have always sorted last. */
  lemma {:induction false} SortedHistory(before: Schema, runs: seq<Directory>, after: Schema)
    requires OneByOne(before, runs, after)
    ensures History(before) <= History(after)
    ensures Ascending(History(after)) <==> Ascending(History(before)) && NewFilesSortLast(Names(History(before)), runs)
    ensures Ascending(History(after)) ==> History(after) == Listing(Names(History(after)))
    decreases |runs|
  {
    hide Migrated, Before;
    if runs != [] {
      var mid :| Migrated(before, runs[0], mid) && OneByOne(mid, runs[1..], after);
      MigratedNames(before, runs[0], mid);
      MigratedExtends(before, runs[0], mid);
      SortedExactlyIfNewFilesSortLast(before, runs[0], mid);
      SortedHistory(mid, runs[1..], after);
      assert forall n :: n in History(before) <==> n in Names(History(before));
    }
    if Ascending(History(after)) {
      OneListing(History(after), Listing(Names(History(after))));
    }
  }

  /** From an empty database, for any overlapping runs. */
  lemma MigrationsSafe(moves: seq<Move>)
    requires ValidMoves(Deployment(BLANK, map[]), moves)
    ensures var runs := CommittedRuns(Deployment(BLANK, map[]), moves);
            var after := AfterMoves(Deployment(BLANK, map[]), moves).committed;
            && OneByOne(BLANK, runs, after)
            && Distinct(History(after)) && |after.executed| == |History(after)|
            && (forall i :: 0 <= i < |runs| ==> runs[i].Keys <= Names(History(after)))
            && (NewFilesSortLast({}, runs) <==> Ascending(History(after)))
            && (NewFilesSortLast({}, runs) ==> History(after) == Listing(Names(History(after))))
  {
    hide ValidMoves, AfterMoves, CommittedRuns, OneByOne, NewFilesSortLast;
    var d := Deployment(BLANK, map[]);
    RunsAreSerial(d, moves);
    AppliedOnce(BLANK, CommittedRuns(d, moves), AfterMoves(d, moves).committed);
    SortedHistory(BLANK, CommittedRuns(d, moves), AfterMoves(d, moves).committed);
    assert Names([]) == {};
  }
}
