/**
 * Operations on the id lists the store keeps: the `pull` of a Mongoose
 * array, reversal (for "newest first"), and strict id order.
 */
module Sequences {

  /** `array.pull(x)` on a list of ids: every occurrence of `x` removed, the rest kept in order. */
  function Pull(s: seq<nat>, x: nat): (r: seq<nat>)
    ensures |r| <= |s|
    ensures x !in r
    ensures forall y :: y in r <==> y in s && y != x
    ensures x !in s ==> r == s
  {
    if s == [] then []
    else if s[0] == x then Pull(s[1..], x)
    else [s[0]] + Pull(s[1..], x)
  }

  /** Occurrences of `y` in `s`. */
  function Count(s: seq<nat>, y: nat): (n: nat) {
    if s == [] then 0 else (if s[0] == y then 1 else 0) + Count(s[1..], y)
  }

  /** Pulling `x` keeps every other element as often as it occurred. */
  lemma {:induction false} PullKeepsOthers(s: seq<nat>, x: nat, y: nat)
    requires y != x
    ensures Count(Pull(s, x), y) == Count(s, y)
  {
    if s != [] {
      PullKeepsOthers(s[1..], x, y);
      if s[0] != x {
        assert ([s[0]] + Pull(s[1..], x))[1..] == Pull(s[1..], x);
      }
    }
  }

  /** Strictly increasing: the order in which fresh ids are handed out. */
  predicate Increasing(s: seq<nat>) {
    forall i, j :: 0 <= i < j < |s| ==> s[i] < s[j]
  }

  predicate Decreasing(s: seq<nat>) {
    forall i, j :: 0 <= i < j < |s| ==> s[i] > s[j]
  }

  function Reverse<T>(s: seq<T>): (r: seq<T>)
    ensures |r| == |s|
    ensures forall i :: 0 <= i < |s| ==> r[i] == s[|s| - 1 - i]
  {
    if s == [] then [] else Reverse(s[1..]) + [s[0]]
  }

  /** Reversing an increasing list gives a decreasing one with the same elements. */
  lemma ReverseIncreasing(s: seq<nat>)
    requires Increasing(s)
    ensures Decreasing(Reverse(s))
    ensures forall y :: y in Reverse(s) <==> y in s
  {
    var r := Reverse(s);
    forall y | y in s ensures y in r {
      var i :| 0 <= i < |s| && s[i] == y;
      assert r[|s| - 1 - i] == y;
    }
  }

  /** Pulling an element keeps a list increasing. */
  lemma {:induction false} PullIncreasing(s: seq<nat>, x: nat)
    requires Increasing(s)
    ensures Increasing(Pull(s, x))
  {
    if s != [] {
      PullIncreasing(s[1..], x);
      var t := Pull(s[1..], x);
      if s[0] != x {
        forall j | 0 < j < |[s[0]] + t| ensures ([s[0]] + t)[0] < ([s[0]] + t)[j] {
          assert t[j - 1] in s[1..];
        }
      }
    }
  }
}
