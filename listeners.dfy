/**
 * The listener list both sliders keep: `bind` pushes a callback, `unbind` splices out the
 * first occurrence found by `indexOf`, and `update` calls every callback in list order with
 * the current value and normal.
 *
 * A callback is an opaque value of an equality type `L`; calling it is recorded as a `Call`.
 */
module Listeners {

  /** One callback invocation, `listener.call(ctl, value, normal)`. */
  datatype Call<L> = Call(listener: L, value: real, normal: real)

  /** `Array.prototype.indexOf`: the first position holding x, or -1. */
  function IndexOf<L(==)>(s: seq<L>, x: L): (i: int)
    ensures -1 <= i < |s|
    ensures i == -1 <==> x !in s
    ensures 0 <= i ==> s[i] == x && x !in s[..i]
  {
    if |s| == 0 then -1
    else if s[0] == x then 0
    else
      var j := IndexOf(s[1..], x);
      if j == -1 then -1
      else
        assert s[..j + 1] == [s[0]] + s[1..][..j];
        j + 1
  }

  /** `bind`: the callback goes to the end of the list. */
  function Bound<L>(s: seq<L>, x: L): (r: seq<L>)
    ensures |r| == |s| + 1 && r[|s|] == x && r[..|s|] == s
  {
    s + [x]
  }

  /** `unbind`: `splice(indexOf(x), 1)` when x is present, otherwise nothing. Exactly the
      first occurrence goes: everything before it stays in place, everything after it moves
      up by one. */
  function Unbound<L(==)>(s: seq<L>, x: L): (r: seq<L>)
    ensures x !in s ==> r == s
    ensures x in s ==> |r| == |s| - 1
    ensures x in s ==> multiset(r) == multiset(s) - multiset{x}
    ensures x in s ==> forall j :: 0 <= j < IndexOf(s, x) ==> r[j] == s[j] && r[j] != x
    ensures x in s ==> forall j :: IndexOf(s, x) <= j < |r| ==> r[j] == s[j + 1]
  {
    var i := IndexOf(s, x);
    if i > -1 then
      SpliceOut(s, i);
      s[..i] + s[i + 1..]
    else s
  }

  /** Splicing out position i removes one copy of s[i] and keeps the rest in order. */
  lemma SpliceOut<L>(s: seq<L>, i: int)
    requires 0 <= i < |s|
    ensures multiset(s[..i] + s[i + 1..]) == multiset(s) - multiset{s[i]}
  {
    assert s == s[..i] + [s[i]] + s[i + 1..];
  }

  /** Binding a callback that was not bound and unbinding it again restores the list. */
  lemma UnbindUndoesBind<L>(s: seq<L>, x: L)
    requires x !in s
    ensures Unbound(Bound(s, x), x) == s
  {
    var b := Bound(s, x);
    assert IndexOf(b, x) == |s| by {
      assert b[..|s|] == s;
    }
  }

  /** A callback bound twice is still bound once after one unbind. */
  lemma UnbindRemovesOne<L>(s: seq<L>, x: L)
    ensures x in Unbound(Bound(Bound(s, x), x), x)
  {
    var r := Unbound(Bound(Bound(s, x), x), x);
    assert multiset(r)[x] == multiset(s)[x] + 1;
  }

  /** What `update` does with the list: each callback once, in list order, with the current
      value and normal. */
  function Calls<L>(s: seq<L>, value: real, normal: real): (r: seq<Call<L>>)
    ensures |r| == |s|
    ensures forall i :: 0 <= i < |s| ==> r[i] == Call(s[i], value, normal)
  {
    seq(|s|, i requires 0 <= i < |s| => Call(s[i], value, normal))
  }

  /** The loop in `update`: calls the listeners one after the other. */
  method Notify<L>(s: seq<L>, value: real, normal: real) returns (calls: seq<Call<L>>)
    ensures calls == Calls(s, value, normal)
  {
    calls := [];
    var i := 0;
    while i < |s|
      invariant 0 <= i <= |s|
      invariant |calls| == i
      invariant forall j :: 0 <= j < i ==> calls[j] == Call(s[j], value, normal)
    {
      calls := calls + [Call(s[i], value, normal)];
      i := i + 1;
    }
  }
}
