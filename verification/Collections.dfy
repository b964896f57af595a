/** Small things the models share. */
module Collections {
  datatype Option<T> = None | Some(value: T)

  predicate Ascending(s: seq<nat>) {
    forall i, j :: 0 <= i < j < |s| ==> s[i] < s[j]
  }

  predicate IsLeast(m: nat, s: set<nat>) {
    m in s && forall n :: n in s ==> m <= n
  }

  function Least(s: set<nat>): (m: nat)
    requires s != {}
    ensures IsLeast(m, s)
  {
    LeastExists(s);
    var m :| m in s && IsLeast(m, s);
    m
  }

  lemma {:induction false} LeastExists(s: set<nat>)
    requires s != {}
    ensures exists m :: m in s && IsLeast(m, s)
  {
    var x :| x in s;
    if s == {x} {
      assert IsLeast(x, s);
    } else {
      var rest := s - {x};
      LeastExists(rest);
      var y :| y in rest && IsLeast(y, rest);
      assert forall n :: n in s ==> n == x || n in rest;
      assert IsLeast(if x < y then x else y, s);
    }
  }

  /** The members of a set in ascending order. */
  function Sorted(s: set<nat>): (r: seq<nat>)
    ensures Ascending(r)
    ensures forall n :: n in r <==> n in s
  {
    if s == {} then []
    else
      var m := Least(s);
      var rest := Sorted(s - {m});
      assert forall j :: 0 <= j < |rest| ==> rest[j] in rest;
      [m] + rest
  }
}
