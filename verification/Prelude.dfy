/** Small definitions shared by the other modules. */
module Prelude {

  datatype Option<+T> = None | Some(value: T) {
    function GetOr(default: T): T {
      if Some? then value else default
    }
  }

  datatype Result<+T, +E> = Ok(value: T) | Err(error: E)

  ghost predicate Distinct<T>(xs: seq<T>) {
    forall i, j :: 0 <= i < j < |xs| ==> xs[i] != xs[j]
  }

  /** The elements of a list of lists, counted with multiplicity. */
  ghost function Flat<T>(xss: seq<seq<T>>): multiset<T> {
    if xss == [] then multiset{} else multiset(xss[0]) + Flat(xss[1..])
  }

  lemma {:induction false} FlatUpdate<T>(xss: seq<seq<T>>, i: nat, xs: seq<T>)
    requires i < |xss|
    ensures Flat(xss[i := xs]) == Flat(xss) - multiset(xss[i]) + multiset(xs)
    ensures multiset(xss[i]) <= Flat(xss)
  {
    var yss, head, tail := xss[i := xs], multiset(xss[0]), xss[1..];
    if i == 0 {
      assert yss[1..] == tail;
    } else {
      FlatUpdate(tail, i - 1, xs);
      assert yss[1..] == tail[i - 1 := xs];
      MultisetSwap(head, Flat(tail), multiset(xss[i]), multiset(xs));
    }
  }

  lemma MultisetSwap<T>(head: multiset<T>, tail: multiset<T>, removed: multiset<T>, added: multiset<T>)
    requires removed <= tail
    ensures head + (tail - removed + added) == head + tail - removed + added
  {
  }

  lemma {:induction false} FlatEmpty<T>(xss: seq<seq<T>>)
    requires forall i :: 0 <= i < |xss| ==> xss[i] == []
    ensures Flat(xss) == multiset{}
  {
    if xss != [] {
      FlatEmpty(xss[1..]);
    }
  }

  lemma {:induction false} FlatContains<T>(xss: seq<seq<T>>, i: nat, x: T)
    requires i < |xss| && x in xss[i]
    ensures x in Flat(xss)
  {
    if i != 0 {
      FlatContains(xss[1..], i - 1, x);
    }
  }

  lemma {:induction false} FlatAppend<T>(xss: seq<seq<T>>, yss: seq<seq<T>>)
    ensures Flat(xss + yss) == Flat(xss) + Flat(yss)
  {
    if xss == [] {
      assert xss + yss == yss;
    } else {
      assert (xss + yss)[1..] == xss[1..] + yss;
      FlatAppend(xss[1..], yss);
    }
  }

  lemma FlatSnoc<T>(xss: seq<seq<T>>, xs: seq<T>)
    ensures Flat(xss + [xs]) == Flat(xss) + multiset(xs)
  {
    FlatAppend(xss, [xs]);
    assert [xs][1..] == [];
  }
}
