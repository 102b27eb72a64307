/** Shared vocabulary: identifiers, time, optional values, and counting by injection. */
module Basics {
  datatype Option<+T> = None | Some(value: T)

  // A uuid4 value. Draws never repeat (see State.issued), which is what the code relies on.
  type Id = nat

  // A database or queue clock reading, in the unit of the leases.
  type Time = int

  // How a call ends: done; done but the reply is lost; not done. The caller of the last two sees an exception.
  datatype Outcome = Done | DoneNoReply | NotDone

  // What a reader made of the head of a text, and the text after it.
  datatype Read<+T> = Read(value: T, rest: string)

  function Min(a: nat, b: nat): nat {
    if a <= b then a else b
  }

  /** A set that maps one-to-one into another is no larger. */
  lemma {:induction false} InjectionBound<A, B>(xs: set<A>, ys: set<B>, f: map<A, B>)
    requires f.Keys == xs
    requires forall x :: x in xs ==> f[x] in ys
    requires forall x, y :: x in xs && y in xs && x != y ==> f[x] != f[y]
    ensures |xs| <= |ys|
    decreases xs
  {
    if xs == {} {
    } else {
      var x :| x in xs;
      InjectionBound(xs - {x}, ys - {f[x]}, map y | y in xs - {x} :: f[y]);
    }
  }

  lemma SubsetBound<A>(xs: set<A>, ys: set<A>)
    requires xs <= ys
    ensures |xs| <= |ys|
    ensures |xs| == |ys| ==> xs == ys
  {
    assert ys == xs + (ys - xs);
  }

  /** A number above all those given. */
  method Unused(ids: set<Id>) returns (id: Id)
    ensures id !in ids
  {
    id := 0;
    var rest := ids;
    while rest != {}
      invariant rest <= ids && forall i :: i in ids && i !in rest ==> i < id
      decreases rest
    {
      var i :| i in rest;
      rest := rest - {i};
      if id <= i {
        id := i + 1;
      }
    }
  }
}
