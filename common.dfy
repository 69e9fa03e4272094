/** The JavaScript semantics the trip planner relies on: an optional value,
    numbers with their special values (what `/`, `Math.min`, `>` and `||`
    do with them), the string methods `trim`, `endsWith`, `toLowerCase` and
    `split`, and the array methods `findIndex` and `filter`. */
module Common {

  datatype Option<T> = None | Some(value: T)

  /** Identifiers of routes, waypoints, categories and expenses. The source
      mixes numbers and strings and compares them with loose `==`; with one
      identifier type that comparison is plain equality. */
  type Id = string

  // ---------------------------------------------------------------------------
  // Numbers
  // ---------------------------------------------------------------------------

  /** A JavaScript number: an exact finite value or one of the special values
      that division by zero and failed parsing produce. Rounding of finite
      values is not modelled: `Finite` holds the exact real. */
  datatype Num = Finite(v: real) | PosInf | NegInf | NaN

  /** `a / b` for two finite operands: a zero divisor gives an infinity of
      the dividend's sign, or NaN for `0 / 0`. */
  function Divide(a: real, b: real): (r: Num)
    ensures r.Finite? <==> b != 0.0
    ensures r.Finite? ==> r.v * b == a
    ensures r == NaN <==> a == 0.0 && b == 0.0
    ensures b == 0.0 && a > 0.0 ==> r == PosInf
    ensures b == 0.0 && a < 0.0 ==> r == NegInf
  {
    if b != 0.0 then Finite(a / b)
    else if a > 0.0 then PosInf
    else if a < 0.0 then NegInf
    else NaN
  }

  /** `x * k` for a positive finite constant `k`. */
  function Scale(x: Num, k: real): Num
    requires k > 0.0
  {
    match x
    case Finite(v) => Finite(v * k)
    case _ => x
  }

  /** `Math.min(x, m)` for a finite `m`: NaN wins, +Infinity loses. */
  function Min(x: Num, m: real): (r: Num)
    ensures x.Finite? || x == PosInf ==> r.Finite? && r.v <= m
    ensures x.Finite? && x.v <= m ==> r == x
    ensures x == NaN <==> r == NaN
    ensures (x.Finite? && x.v > m) || x == PosInf ==> r == Finite(m)
    ensures x == NegInf ==> r == NegInf
  {
    match x
    case Finite(v) => if v <= m then x else Finite(m)
    case PosInf => Finite(m)
    case _ => x
  }

  /** `x > t` for a finite `t`: false whenever `x` is NaN. */
  predicate Greater(x: Num, t: real) {
    match x
    case Finite(v) => v > t
    case PosInf => true
    case _ => false
  }

  /** JavaScript truthiness of a number: everything but 0 and NaN. */
  predicate Truthy(x: Num) {
    x != Finite(0.0) && x != NaN
  }

  // ---------------------------------------------------------------------------
  // Strings
  // ---------------------------------------------------------------------------

  /** The characters `String.prototype.trim` removes: the ECMAScript
      WhiteSpace and LineTerminator code points. */
  const WhiteSpace: set<char> := {
    '\t', '\n', '\U{000B}', '\U{000C}', '\r', ' ', '\U{00A0}', '\U{1680}',
    '\U{2000}', '\U{2001}', '\U{2002}', '\U{2003}', '\U{2004}', '\U{2005}',
    '\U{2006}', '\U{2007}', '\U{2008}', '\U{2009}', '\U{200A}',
    '\U{2028}', '\U{2029}', '\U{202F}', '\U{205F}', '\U{3000}', '\U{FEFF}'
  }

  predicate IsSpace(c: char) {
    c in WhiteSpace
  }

  predicate AllSpace(s: string) {
    forall i :: 0 <= i < |s| ==> IsSpace(s[i])
  }

  /** `s` without its leading white space. */
  function TrimStart(s: string): string {
    if |s| > 0 && IsSpace(s[0]) then TrimStart(s[1..]) else s
  }

  /** `s` without its trailing white space. */
  function TrimEnd(s: string): string {
    if |s| > 0 && IsSpace(s[|s| - 1]) then TrimEnd(s[..|s| - 1]) else s
  }

  /** `s.trim()`; what it keeps and removes is stated by `TrimIsCore`. */
  function Trim(s: string): string {
    TrimEnd(TrimStart(s))
  }

  /** Only a white-space prefix is removed, and all of it. */
  lemma {:induction false} TrimStartRemovesPrefix(s: string)
    ensures var r := TrimStart(s);
      |r| <= |s| && r == s[|s| - |r|..] && AllSpace(s[..|s| - |r|]) &&
      (r == [] || !IsSpace(r[0]))
  {
    if |s| > 0 && IsSpace(s[0]) {
      TrimStartRemovesPrefix(s[1..]);
      var r := TrimStart(s[1..]);
      assert s[..|s| - |r|] == [s[0]] + s[1..][..|s| - 1 - |r|];
    }
  }

  /** Only a white-space suffix is removed, and all of it. */
  lemma {:induction false} TrimEndRemovesSuffix(s: string)
    ensures var r := TrimEnd(s);
      |r| <= |s| && r == s[..|r|] && AllSpace(s[|r|..]) &&
      (r == [] || !IsSpace(r[|r| - 1]))
  {
    if |s| > 0 && IsSpace(s[|s| - 1]) {
      var init := s[..|s| - 1];
      TrimEndRemovesSuffix(init);
      var r := TrimEnd(init);
      assert s[|r|..] == init[|r|..] + [s[|s| - 1]];
    }
  }

  /** `s.trim()` is `s` with its white-space ends removed: a slice of `s`
      between two white-space runs, empty exactly when `s` is all white
      space, and otherwise starting and ending with a character that is not
      white space. */
  lemma TrimIsCore(s: string)
    ensures var r := Trim(s);
      (exists i :: 0 <= i <= i + |r| <= |s| && r == s[i..i + |r|] &&
         AllSpace(s[..i]) && AllSpace(s[i + |r|..])) &&
      (r == [] <==> AllSpace(s)) &&
      (r != [] ==> !IsSpace(r[0]) && !IsSpace(r[|r| - 1]))
  {
    var t := TrimStart(s);
    TrimStartRemovesPrefix(s);
    TrimEndRemovesSuffix(t);
    var r := TrimEnd(t);
    var i := |s| - |t|;
    assert r == s[i..i + |r|];
    assert s[i + |r|..] == t[|r|..];
    if r == [] {
      assert t == [];
      assert s[..i] == s;
    } else {
      assert r[0] == t[0];
      assert !IsSpace(s[i]);
    }
  }

  /** `s.endsWith(suffix)`. */
  predicate EndsWith(s: string, suffix: string) {
    |suffix| <= |s| && s[|s| - |suffix|..] == suffix
  }

  /** `c.toLowerCase()` for the ASCII letters; every other character is kept. */
  function LowerChar(c: char): char {
    if 'A' <= c <= 'Z' then (c as int - 'A' as int + 'a' as int) as char else c
  }

  /** `s.toLowerCase()` restricted to ASCII case mapping. */
  function ToLower(s: string): (r: string)
    ensures |r| == |s|
    ensures forall i :: 0 <= i < |s| ==> r[i] == LowerChar(s[i])
  {
    seq(|s|, i requires 0 <= i < |s| => LowerChar(s[i]))
  }

  /** Lower-casing keeps suffixes: a string ending with `suffix` ends, once
      lower-cased, with the lower-cased suffix. */
  lemma EndsWithAfterLower(s: string, suffix: string)
    requires EndsWith(s, suffix)
    ensures EndsWith(ToLower(s), ToLower(suffix))
  {
    var k := |s| - |suffix|;
    forall i | 0 <= i < |suffix|
      ensures ToLower(s)[k..][i] == ToLower(suffix)[i]
    {
      assert s[k..][i] == suffix[i];
    }
  }

  /** `s.split(d)` for a one-character separator: the fields between the
      occurrences of `d`, in order; always at least one field. */
  function Split(s: string, d: char): (r: seq<string>)
    ensures |r| >= 1
  {
    if |s| == 0 then [""]
    else
      var rest := Split(s[1..], d);
      if s[0] == d then [""] + rest else [[s[0]] + rest[0]] + rest[1..]
  }

  /** `fields.join(d)`. */
  function Join(fields: seq<string>, d: char): string {
    if |fields| == 0 then ""
    else if |fields| == 1 then fields[0]
    else fields[0] + [d] + Join(fields[1..], d)
  }

  /** Splitting loses nothing: joining the fields back gives the string. */
  lemma {:induction false} JoinSplit(s: string, d: char)
    ensures Join(Split(s, d), d) == s
  {
    if |s| > 0 {
      var rest := Split(s[1..], d);
      JoinSplit(s[1..], d);
      if s[0] == d {
        assert Split(s, d) == [""] + rest;
        assert s == [d] + s[1..];
      } else {
        var r := Split(s, d);
        assert r == [[s[0]] + rest[0]] + rest[1..];
        if |rest| == 1 {
          assert Join(r, d) == [s[0]] + rest[0];
        } else {
          assert Join(rest, d) == rest[0] + [d] + Join(rest[1..], d);
          assert r[1..] == rest[1..];
          assert Join(r, d) == [s[0]] + rest[0] + [d] + Join(rest[1..], d);
        }
        assert s == [s[0]] + s[1..];
      }
    }
  }

  /** No field holds the separator, and there is one more field than there
      are separators. */
  lemma {:induction false} SplitFields(s: string, d: char)
    ensures forall k :: 0 <= k < |Split(s, d)| ==> d !in Split(s, d)[k]
    ensures |Split(s, d)| == multiset(s)[d] + 1
  {
    if |s| > 0 {
      SplitFields(s[1..], d);
      assert s == [s[0]] + s[1..];
      assert multiset(s) == multiset{s[0]} + multiset(s[1..]);
      var rest := Split(s[1..], d);
      if s[0] != d {
        var r := Split(s, d);
        forall k | 0 <= k < |r| ensures d !in r[k] {
          if k == 0 {
            assert r[0] == [s[0]] + rest[0];
            assert d !in rest[0];
          } else {
            assert r[k] == rest[k];
          }
        }
      }
    }
  }

  // ---------------------------------------------------------------------------
  // Arrays
  // ---------------------------------------------------------------------------

  /** `s.findIndex(p)`: the first position whose element satisfies `p`, or -1. */
  function FindIndex<T>(s: seq<T>, p: T -> bool): (k: int)
    ensures -1 <= k < |s|
    ensures k == -1 <==> forall j :: 0 <= j < |s| ==> !p(s[j])
    ensures k >= 0 ==> p(s[k]) && forall j :: 0 <= j < k ==> !p(s[j])
  {
    if |s| == 0 then -1
    else if p(s[0]) then 0
    else
      var k := FindIndex(s[1..], p);
      if k == -1 then -1 else k + 1
  }

  /** `s.filter(p)`: the elements that satisfy `p`, and only those. */
  function Filter<T>(s: seq<T>, p: T -> bool): (r: seq<T>)
    ensures |r| <= |s|
    ensures forall j :: 0 <= j < |r| ==> r[j] in s && p(r[j])
    ensures forall j :: 0 <= j < |s| && p(s[j]) ==> s[j] in r
  {
    if |s| == 0 then []
    else (if p(s[0]) then [s[0]] else []) + Filter(s[1..], p)
  }

  /** Filtering keeps order: it distributes over concatenation. */
  lemma {:induction false} FilterAppend<T>(a: seq<T>, b: seq<T>, p: T -> bool)
    ensures Filter(a + b, p) == Filter(a, p) + Filter(b, p)
  {
    if |a| > 0 {
      FilterAppend(a[1..], b, p);
      assert (a + b)[0] == a[0];
      assert (a + b)[1..] == a[1..] + b;
    } else {
      assert a + b == b;
    }
  }

  /** Filtering splits the input: what is kept and what is dropped together
      make up every element, counted with multiplicity. */
  lemma {:induction false} FilterPartition<T>(s: seq<T>, p: T -> bool)
    ensures multiset(Filter(s, p)) + multiset(Filter(s, x => !p(x))) == multiset(s)
  {
    if |s| > 0 {
      var q := x => !p(x);
      var x, rest := s[0], s[1..];
      FilterPartition(rest, p);
      var kept, dropped := Filter(rest, p), Filter(rest, q);
      assert s == [x] + rest;
      assert multiset(s) == multiset{x} + multiset(rest);
      if p(x) {
        assert Filter(s, p) == [x] + kept;
        assert multiset(Filter(s, p)) == multiset{x} + multiset(kept);
        assert Filter(s, q) == dropped;
      } else {
        assert Filter(s, p) == kept;
        assert Filter(s, q) == [x] + dropped;
        assert multiset(Filter(s, q)) == multiset{x} + multiset(dropped);
      }
    }
  }

  /** Filtering one more element at the end adds it when it passes. */
  lemma FilterSnoc<T>(s: seq<T>, x: T, p: T -> bool)
    ensures Filter(s + [x], p) == Filter(s, p) + (if p(x) then [x] else [])
  {
    FilterAppend(s, [x], p);
    assert Filter([x], p) == (if p(x) then [x] else []) + Filter([x][1..], p);
  }

  /** A filter that keeps every element is the identity. */
  lemma {:induction false} FilterKeepsAll<T>(s: seq<T>, p: T -> bool)
    requires forall j :: 0 <= j < |s| ==> p(s[j])
    ensures Filter(s, p) == s
  {
    if |s| > 0 {
      FilterKeepsAll(s[1..], p);
      assert s == [s[0]] + s[1..];
    }
  }
}
