/**
 Shared values: options, units of time in nanoseconds, machine-width counters, usage keys, and totals of a weight
 over a sequence.
 */
module Basics {

  datatype Option<+T> = None | Some(value: T) {
    function GetOr(default: T): T {
      match this
      case Some(v) => v
      case None => default
    }

    function Or(other: Option<T>): Option<T> {
      if this.Some? then this else other
    }
  }

  const SECOND: int := 1_000_000_000
  const MILLI: int := 1_000_000

  const U32_MAX: nat := 0xFFFF_FFFF
  const U64_MAX: nat := 0xFFFF_FFFF_FFFF_FFFF

  /** `saturating_add(1)` on 32 bits. */
  function SatAdd(n: nat): nat { if n < U32_MAX then n + 1 else n }

  /** `saturating_sub` on any width. */
  function SatSub(n: nat, d: nat): nat { if n < d then 0 else n - d }

  /** `fetch_add` on 64 bits. */
  function WrapAdd(n: nat, d: nat): nat { (n + d) % (U64_MAX + 1) }

  function Max(a: nat, b: nat): nat { if a < b then b else a }
  function Min(a: nat, b: nat): nat { if a < b then a else b }

  /** The usage key: a model and, for brands with several accounts, the API key. */
  datatype Bucket = Bucket(model: nat, key: Option<nat>)

  /** The sum of `w` over the elements of `s`. */
  ghost function Total<T(!new)>(s: seq<T>, w: T -> nat): nat {
    if s == [] then 0 else w(s[0]) + Total(s[1..], w)
  }

  lemma {:induction false} TotalConcat<T(!new)>(s: seq<T>, t: seq<T>, w: T -> nat)
    ensures Total(s + t, w) == Total(s, w) + Total(t, w)
  {
    if s == [] {
      assert s + t == t;
    } else {
      assert (s + t)[1..] == s[1..] + t;
      TotalConcat(s[1..], t, w);
    }
  }

  /** A sequence splits around any of its positions. */
  lemma TotalAt<T(!new)>(s: seq<T>, i: nat, w: T -> nat)
    requires i < |s|
    ensures Total(s, w) == Total(s[..i], w) + w(s[i]) + Total(s[i + 1..], w)
  {
    assert s == s[..i] + ([s[i]] + s[i + 1..]);
    TotalConcat(s[..i], [s[i]] + s[i + 1..], w);
    TotalConcat([s[i]], s[i + 1..], w);
  }

  lemma TotalUpdate<T(!new)>(s: seq<T>, i: nat, x: T, w: T -> nat)
    requires i < |s|
    ensures Total(s[i := x], w) + w(s[i]) == Total(s, w) + w(x)
    ensures w(s[i]) <= Total(s, w)
  {
    TotalAt(s, i, w);
    var t := s[i := x];
    TotalAt(t, i, w);
    assert t[..i] == s[..i] && t[i + 1..] == s[i + 1..];
  }

  lemma TotalAppend<T(!new)>(s: seq<T>, x: T, w: T -> nat)
    ensures Total(s + [x], w) == Total(s, w) + w(x)
  {
    TotalConcat(s, [x], w);
  }

  lemma TotalRemove<T(!new)>(s: seq<T>, i: nat, w: T -> nat)
    requires i < |s|
    ensures Total(s[..i] + s[i + 1..], w) + w(s[i]) == Total(s, w)
  {
    TotalAt(s, i, w);
    TotalConcat(s[..i], s[i + 1..], w);
  }

  lemma {:induction false} TotalBound<T(!new)>(s: seq<T>, w: T -> nat, m: nat)
    requires forall x :: x in s ==> w(x) <= m
    ensures Total(s, w) <= |s| * m
  {
    if s != [] {
      TotalBound(s[1..], w, m);
      assert |s| * m == m + (|s| - 1) * m;
    }
  }

  lemma {:induction false} TotalZero<T(!new)>(s: seq<T>, w: T -> nat)
    requires forall x :: x in s ==> w(x) == 0
    ensures Total(s, w) == 0
  {
    if s != [] {
      TotalZero(s[1..], w);
    }
  }
}
