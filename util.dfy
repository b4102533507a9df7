/** Value types and sequence, set and string helpers shared by the game model. */
module Util {

  datatype Option<+T> = None | Some(value: T)

  datatype Result<+T, +E> = Ok(value: T) | Err(error: E)

  /** The elements of a sequence, as a set. */
  function Elems<T>(s: seq<T>): set<T>
  {
    set x | x in s
  }

  lemma ElemsConcat<T>(a: seq<T>, b: seq<T>)
    ensures Elems(a + b) == Elems(a) + Elems(b)
  {
    assert forall x :: x in a + b <==> x in a || x in b;
  }

  /** No element occurs twice. */
  predicate Distinct<T(==)>(s: seq<T>)
  {
    forall i, j :: 0 <= i < j < |s| ==> s[i] != s[j]
  }

  /** Strictly ascending, so in particular Distinct. */
  predicate Increasing(s: seq<int>)
  {
    forall i, j :: 0 <= i < j < |s| ==> s[i] < s[j]
  }

  /** A duplicate-free sequence has as many distinct elements as positions. */
  lemma {:induction false} DistinctCard<T>(s: seq<T>)
    requires Distinct(s)
    ensures |Elems(s)| == |s|
  {
    if s != [] {
      var t := s[..|s| - 1];
      assert Elems(s) == Elems(t) + {s[|s| - 1]};
      assert s[|s| - 1] !in Elems(t);
      DistinctCard(t);
    }
  }

  /** The number of iterations of `range(n)`. */
  function Count(n: int): nat
  {
    if n > 0 then n else 0
  }

  /** A set of at least two elements keeps one after any single removal. */
  lemma LeavesOne<T>(s: set<T>, x: T)
    requires |s| >= 2
    ensures s - {x} != {}
  {
    var a := AnyOf(s);
    assert |s - {a}| == |s| - 1;
    var b := AnyOf(s - {a});
    if a != x {
      assert a in s - {x};
    } else {
      assert b in s - {x};
    }
  }

  /** The player identifiers 1..n, the population of `range(1, n + 1)`. */
  function Players(n: int): set<int>
  {
    Elems(Range(1, n + 1))
  }

  /** `list(range(lo, hi))`: the integers lo, lo + 1, ..., hi - 1. */
  function Range(lo: int, hi: int): (r: seq<int>)
    ensures |r| == if hi > lo then hi - lo else 0
    ensures forall i :: 0 <= i < |r| ==> r[i] == lo + i
    decreases hi - lo
  {
    if hi <= lo then [] else Range(lo, hi - 1) + [hi - 1]
  }

  lemma RangeElems(lo: int, hi: int)
    ensures forall p :: p in Elems(Range(lo, hi)) <==> lo <= p < hi
    ensures Increasing(Range(lo, hi))
  {
    var r := Range(lo, hi);
    forall p | lo <= p < hi ensures p in Elems(r) {
      assert r[p - lo] == p;
    }
  }

  /** Some element of a non-empty set (a proof device: the choice is not specified). */
  ghost function AnyOf<T>(s: set<T>): (x: T)
    requires s != {}
    ensures x in s
  {
    var x :| x in s;
    x
  }

  lemma MinExists(s: set<int>)
    requires s != {}
    ensures exists m :: m in s && forall y :: y in s ==> m <= y
  {
    var m := MinWitness(s);
  }

  lemma MinWitness(s: set<int>) returns (m: int)
    requires s != {}
    ensures m in s && forall y :: y in s ==> m <= y
    decreases |s|
  {
    var x := AnyOf(s);
    if s == {x} {
      m := x;
    } else {
      var m' := MinWitness(s - {x});
      m := if x < m' then x else m';
      forall y | y in s ensures m <= y {
        if y != x {
          assert y in s - {x};
        }
      }
    }
  }

  /** The least element of a non-empty set of ids. */
  function Min(s: set<int>): (m: int)
    requires s != {}
    ensures m in s && forall y :: y in s ==> m <= y
  {
    MinExists(s);
    var m :| m in s && forall y :: y in s ==> m <= y;
    m
  }

  /** `sorted(s)` for a set of ids: every element once, in ascending order. */
  function Sorted(s: set<int>): (r: seq<int>)
    ensures |r| == |s| && Elems(r) == s && Increasing(r)
    decreases |s|
  {
    if s == {} then []
    else
      var m := Min(s);
      var rest := Sorted(s - {m});
      SortedCons(s, m, rest);
      [m] + rest
  }

  lemma SortedCons(s: set<int>, m: int, rest: seq<int>)
    requires m in s && forall y :: y in s ==> m <= y
    requires |rest| == |s - {m}| && Elems(rest) == s - {m} && Increasing(rest)
    ensures |[m] + rest| == |s| && Elems([m] + rest) == s && Increasing([m] + rest)
  {
    ElemsConcat([m], rest);
    forall k | 0 <= k < |rest| ensures m < rest[k] {
      assert rest[k] in Elems(rest);
    }
    AboveIncreasing(m, rest);
  }

  /** A value below every element of an ascending sequence extends it at the front. */
  lemma AboveIncreasing(m: int, rest: seq<int>)
    requires Increasing(rest) && forall k :: 0 <= k < |rest| ==> m < rest[k]
    ensures Increasing([m] + rest)
  {
    var r := [m] + rest;
    forall i, j | 0 <= i < j < |r| ensures r[i] < r[j] {
      assert r[j] == rest[j - 1];
    }
  }

  lemma IncreasingDistinct(s: seq<int>)
    requires Increasing(s)
    ensures Distinct(s)
  {
  }

  /** `[x for x in s if x != v]`. */
  function Without(s: seq<int>, v: int): (r: seq<int>)
    ensures Elems(r) == Elems(s) - {v}
    ensures |r| <= |s|
  {
    if s == [] then []
    else
      var init := s[..|s| - 1];
      ElemsConcat(init, [s[|s| - 1]]);
      if s[|s| - 1] == v then Without(init, v)
      else
        var r := Without(init, v);
        ElemsConcat(r, [s[|s| - 1]]);
        r + [s[|s| - 1]]
  }

  /** `[x for x in s if x not in t]`. */
  function Outside(s: seq<int>, t: set<int>): (r: seq<int>)
    ensures Elems(r) == Elems(s) - t
  {
    if s == [] then []
    else
      var init := s[..|s| - 1];
      ElemsConcat(init, [s[|s| - 1]]);
      if s[|s| - 1] in t then Outside(init, t)
      else
        var r := Outside(init, t);
        ElemsConcat(r, [s[|s| - 1]]);
        r + [s[|s| - 1]]
  }

  /** Python's `s[:n]`; a negative n counts from the end. */
  function PyHead<T>(s: seq<T>, n: int): (r: seq<T>)
    ensures r <= s
    ensures 0 <= n ==> |r| == if n < |s| then n else |s|
  {
    if 0 <= n then (if n < |s| then s[..n] else s)
    else if 0 < |s| + n then s[..|s| + n]
    else []
  }

  /** Python's `s[-n:]` for n >= 0; note that `s[-0:]` is the whole of s. */
  function PyLast<T>(s: seq<T>, n: nat): (r: seq<T>)
    ensures 0 < n ==> |r| == if n < |s| then n else |s|
    ensures |r| <= |s| && r == s[|s| - |r|..]
  {
    if n == 0 || |s| <= n then s else s[|s| - n..]
  }

  /** The characters Python's `str.isspace` accepts, and so `str.strip` removes. */
  predicate IsSpace(c: char)
  {
    var n := c as int;
    n == 32 || 9 <= n <= 13 || 28 <= n <= 31 || n == 0x85 || n == 0xA0 || n == 0x1680
    || 0x2000 <= n <= 0x200A || n == 0x2028 || n == 0x2029 || n == 0x202F || n == 0x205F
    || n == 0x3000
  }

  /** How many of the first n characters of s remain once trailing whitespace is cut. */
  function KeptRight(s: string, n: nat): (k: nat)
    requires n <= |s|
    ensures k <= n
  {
    if n > 0 && IsSpace(s[n - 1]) then KeptRight(s, n - 1) else n
  }

  /** The cut lands after a non-space character, and everything cut is whitespace. */
  lemma {:induction false} KeptRightMeaning(s: string, n: nat)
    requires n <= |s|
    ensures var k := KeptRight(s, n); (k == 0 || !IsSpace(s[k - 1])) && forall i :: k <= i < n ==> IsSpace(s[i])
  {
    if n > 0 && IsSpace(s[n - 1]) {
      KeptRightMeaning(s, n - 1);
    }
  }

  /** `s.rstrip()`. */
  function RStrip(s: string): string
  {
    s[..KeptRight(s, |s|)]
  }

  /** `rstrip` keeps a prefix and removes exactly the trailing whitespace. */
  lemma RStripMeaning(s: string)
    ensures var r := RStrip(s);
      r <= s && (r == [] || !IsSpace(r[|r| - 1])) && forall i :: |r| <= i < |s| ==> IsSpace(s[i])
  {
    KeptRightMeaning(s, |s|);
  }

  /** Where leading whitespace ends in s, looking from position n. */
  function SkippedLeft(s: string, n: nat): (k: nat)
    requires n <= |s|
    ensures n <= k <= |s|
    decreases |s| - n
  {
    if n < |s| && IsSpace(s[n]) then SkippedLeft(s, n + 1) else n
  }

  /** The skip stops at a non-space character or the end, and everything skipped is whitespace. */
  lemma {:induction false} SkippedLeftMeaning(s: string, n: nat)
    requires n <= |s|
    ensures var k := SkippedLeft(s, n); (k == |s| || !IsSpace(s[k])) && forall i :: n <= i < k ==> IsSpace(s[i])
    decreases |s| - n
  {
    if n < |s| && IsSpace(s[n]) {
      SkippedLeftMeaning(s, n + 1);
    }
  }

  /** `s.lstrip()`. */
  function LStrip(s: string): string
  {
    s[SkippedLeft(s, 0)..]
  }

  /** `lstrip` keeps a suffix and removes exactly the leading whitespace. */
  lemma LStripMeaning(s: string)
    ensures var r := LStrip(s);
      |r| <= |s| && r == s[|s| - |r|..] && (r == [] || !IsSpace(r[0]))
      && forall i :: 0 <= i < |s| - |r| ==> IsSpace(s[i])
  {
    SkippedLeftMeaning(s, 0);
  }

  /** `s.strip()`. */
  function Strip(s: string): string
  {
    RStrip(LStrip(s))
  }

  /** `strip` never lengthens its input and leaves no whitespace at either end. */
  lemma StripMeaning(s: string)
    ensures var r := Strip(s); |r| <= |s| && (r == [] || (!IsSpace(r[0]) && !IsSpace(r[|r| - 1])))
  {
    var l := LStrip(s);
    LStripMeaning(s);
    RStripMeaning(l);
    var r := RStrip(l);
    if r != [] {
      assert r[0] == l[0];
    }
  }

  function DigitChar(d: nat): char
    requires d < 10
  {
    ('0' as int + d) as char
  }

  predicate IsDigit(c: char)
  {
    '0' <= c <= '9'
  }

  /** `str(n)` for a natural number: its decimal digits, no leading zero. */
  function ShowNat(n: nat): (r: string)
    ensures 0 < |r| && forall i :: 0 <= i < |r| ==> IsDigit(r[i])
    decreases n
  {
    if n < 10 then [DigitChar(n)] else ShowNat(n / 10) + [DigitChar(n % 10)]
  }

  /** `str(i)` for an integer. */
  function ShowInt(i: int): string
  {
    if i < 0 then "-" + ShowNat(-i) else ShowNat(i)
  }
}
