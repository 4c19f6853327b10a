/** Shared vocabulary for the dashboard model: optional values, the parts of
    JavaScript's string and array semantics the components rely on, and the
    `{ ...prev, [key]: !prev[key] }` toggle used by every expandable list. */
module Common {

  /** A value that may be absent: `null`/`undefined` in the source. */
  datatype Option<T> = None | Some(value: T) {
    function GetOr(default: T): T {
      match this
      case Some(v) => v
      case None => default
    }
  }

  /** A successful value or an error the component reports (a toast) instead
      of calling the backend. */
  datatype Result<T, E> = Ok(value: T) | Err(error: E)

  // ---------------------------------------------------------------------
  // Strings
  // ---------------------------------------------------------------------

  predicate StartsWith(s: string, p: string) {
    |p| <= |s| && s[..|p|] == p
  }

  /** `s.includes(t)`: `t` occurs in `s` at some position. */
  predicate Contains(s: string, t: string)
    decreases |s|
  {
    StartsWith(s, t) || (|s| > 0 && Contains(s[1..], t))
  }

  lemma ContainsEmpty(s: string)
    ensures Contains(s, "")
  {
    assert StartsWith(s, "");
  }

  /** A pattern longer than the text never occurs in it. */
  lemma {:induction false} NotContainsLonger(s: string, t: string)
    requires |t| > |s|
    ensures !Contains(s, t)
  {
    if |s| > 0 {
      NotContainsLonger(s[1..], t);
    }
  }

  /** A text that contains `t + u` contains `t`: typing more into a search
      box can only narrow what it matches. */
  lemma {:induction false} ContainsPrefix(s: string, t: string, u: string)
    requires Contains(s, t + u)
    ensures Contains(s, t)
    decreases |s|
  {
    if StartsWith(s, t + u) {
      assert s[..|t|] == s[..|t + u|][..|t|];
      assert (t + u)[..|t|] == t;
    } else {
      ContainsPrefix(s[1..], t, u);
    }
  }

  /** Capitals whose small letter is the next code point: the even code
      points of the Latin Extended-A pairs Ā/ā … į, Ĳ/ĳ … ķ and Ŋ/ŋ … ŷ,
      and the odd ones of Ĺ/ĺ … ň and Ź/ź … ž. */
  predicate PairedCapital(n: int) {
    || ((0x100 <= n <= 0x12F || 0x132 <= n <= 0x137 || 0x14A <= n <= 0x177) && n % 2 == 0)
    || ((0x139 <= n <= 0x148 || 0x179 <= n <= 0x17E) && n % 2 == 1)
  }

  /** `toLowerCase` on one character, for the letters whose small form is a
      single character: ASCII, Latin-1 (À … Þ except ×), the Latin
      Extended-A pairs, and Ÿ, whose small form ÿ lies in Latin-1. */
  function LowerChar(c: char): char {
    if c < '\U{0080}' then (if 'A' <= c <= 'Z' then (c as int + 32) as char else c)
    else if '\U{00C0}' <= c <= '\U{00DE}' && c != '\U{00D7}' then (c as int + 32) as char
    else if PairedCapital(c as int) then (c as int + 1) as char
    else if c == '\U{0178}' then '\U{00FF}'
    else c
  }

  /** `toUpperCase` on one character, for the same letters in the other
      direction, plus the dotless ı, the long s and the micro sign, whose
      capitals are I, S and the Greek Μ. */
  function UpperChar(c: char): char {
    if c < '\U{0080}' then (if 'a' <= c <= 'z' then (c as int - 32) as char else c)
    else if '\U{00E0}' <= c <= '\U{00FE}' && c != '\U{00F7}' then (c as int - 32) as char
    else if PairedCapital(c as int - 1) then (c as int - 1) as char
    else if c == '\U{00FF}' then '\U{0178}'
    else if c == '\U{0131}' then 'I'
    else if c == '\U{017F}' then 'S'
    else if c == '\U{00B5}' then '\U{039C}'
    else c
  }

  /** Every capital `LowerChar` changes comes back under `UpperChar`, and
      every small letter `UpperChar` changes comes back under `LowerChar`,
      except the three whose capital is shared with another letter. */
  lemma CaseRoundTrip(c: char)
    ensures LowerChar(c) != c ==> UpperChar(LowerChar(c)) == c
    ensures UpperChar(c) != c && c !in {'\U{0131}', '\U{017F}', '\U{00B5}'} ==> LowerChar(UpperChar(c)) == c
  {
  }

  /** The Turkish capitals map to their small letters, as `toLowerCase`
      does without a locale. */
  lemma TurkishCapitals()
    ensures Lower("ÇĞÖŞÜ") == "çğöşü"
  {
    assert Lower("ÇĞÖŞÜ") == [LowerChar('Ç'), LowerChar('Ğ'), LowerChar('Ö'), LowerChar('Ş'), LowerChar('Ü')];
  }

  function Lower(s: string): (r: string)
    ensures |r| == |s|
  {
    seq(|s|, i requires 0 <= i < |s| => LowerChar(s[i]))
  }

  function Upper(s: string): (r: string)
    ensures |r| == |s|
  {
    seq(|s|, i requires 0 <= i < |s| => UpperChar(s[i]))
  }

  lemma LowerAppend(t: string, u: string)
    ensures Lower(t + u) == Lower(t) + Lower(u)
  {
  }

  /** ECMAScript WhiteSpace and LineTerminator code points: what `trim`
      removes. */
  predicate IsSpace(c: char) {
    || c == ' ' || c == '\t' || c == '\n' || c == '\r'
    || c == '\U{000B}' || c == '\U{000C}' || c == '\U{00A0}'
    || c == '\U{1680}' || ('\U{2000}' <= c <= '\U{200A}')
    || c == '\U{2028}' || c == '\U{2029}' || c == '\U{202F}'
    || c == '\U{205F}' || c == '\U{3000}' || c == '\U{FEFF}'
  }

  predicate AllSpace(s: string) {
    forall i :: 0 <= i < |s| ==> IsSpace(s[i])
  }

  /** Drops the leading white space: the result is the longest suffix that
      does not start with white space. */
  function TrimStart(s: string): (r: string)
    ensures |r| <= |s| && r == s[|s| - |r|..]
    ensures AllSpace(s[..|s| - |r|])
    ensures r == [] || !IsSpace(r[0])
    decreases |s|
  {
    if |s| > 0 && IsSpace(s[0]) then TrimStart(s[1..]) else s
  }

  /** Drops the trailing white space: the result is the longest prefix that
      does not end with white space. */
  function TrimEnd(s: string): (r: string)
    ensures |r| <= |s| && r == s[..|r|]
    ensures AllSpace(s[|r|..])
    ensures r == [] || !IsSpace(r[|r| - 1])
    ensures r == [] <==> AllSpace(s)
    decreases |s|
  {
    if |s| > 0 && IsSpace(s[|s| - 1]) then TrimEnd(s[..|s| - 1]) else s
  }

  /** `s.trim()`. */
  function Trim(s: string): string {
    TrimEnd(TrimStart(s))
  }

  /** `!s.trim()`: the string is empty or white space only. */
  predicate IsBlank(s: string) {
    Trim(s) == ""
  }

  /** A string trims to nothing exactly when every character is white space. */
  lemma BlankIffAllSpace(s: string)
    ensures IsBlank(s) <==> AllSpace(s)
  {
    var u := TrimStart(s);
    assert u == [] <==> AllSpace(u);
    if u == [] {
      assert s[..|s|] == s;
    } else {
      assert s[|s| - |u|] == u[0];
    }
  }

  /** Trimming twice is trimming once. */
  lemma TrimIdempotent(s: string)
    ensures Trim(Trim(s)) == Trim(s)
  {
    var t := Trim(s);
    var u := TrimStart(s);
    if t != [] {
      assert t[0] == u[0];
      assert TrimStart(t) == t;
    } else {
      assert TrimStart(t) == t;
    }
  }

  // ---------------------------------------------------------------------
  // Sequences
  // ---------------------------------------------------------------------

  /** `a` is `b` with some elements left out, the rest in their order. */
  predicate IsSubseq<T(==)>(a: seq<T>, b: seq<T>)
    decreases |b|
  {
    |a| == 0 ||
    (|b| > 0 && if a[0] == b[0] then IsSubseq(a[1..], b[1..]) else IsSubseq(a, b[1..]))
  }

  /** `xs.filter(p)`: the order-preserving subsequence of the elements that
      satisfy `p`. */
  function Filter<T(==,!new)>(xs: seq<T>, p: T -> bool): (r: seq<T>)
    ensures |r| <= |xs|
    ensures forall x :: x in r <==> x in xs && p(x)
    ensures forall x :: multiset(r)[x] == (if p(x) then multiset(xs)[x] else 0)
    ensures IsSubseq(r, xs)
    decreases |xs|
  {
    if |xs| == 0 then []
    else
      assert xs == [xs[0]] + xs[1..];
      if p(xs[0]) then [xs[0]] + Filter(xs[1..], p)
      else Filter(xs[1..], p)
  }

  /** A filter every element passes keeps the whole list. */
  lemma {:induction false} FilterKeepsAll<T(!new)>(xs: seq<T>, p: T -> bool)
    requires forall i :: 0 <= i < |xs| ==> p(xs[i])
    ensures Filter(xs, p) == xs
    decreases |xs|
  {
    if |xs| > 0 {
      FilterKeepsAll(xs[1..], p);
    }
  }

  /** Filtering by a conjunction is filtering twice. */
  lemma {:induction false} FilterFuse<T(!new)>(xs: seq<T>, p: T -> bool, q: T -> bool, pq: T -> bool)
    requires forall x :: pq(x) == (p(x) && q(x))
    ensures Filter(xs, pq) == Filter(Filter(xs, p), q)
    decreases |xs|
  {
    if |xs| > 0 {
      FilterFuse(xs[1..], p, q, pq);
      if p(xs[0]) {
        assert Filter(xs, p) == [xs[0]] + Filter(xs[1..], p);
        assert Filter(xs, p)[1..] == Filter(xs[1..], p);
      }
    }
  }

  /** Filtering by a stronger condition keeps an order-preserving part of
      what a weaker one keeps. */
  lemma FilterNarrows<T(!new)>(xs: seq<T>, p: T -> bool, q: T -> bool)
    requires forall x :: p(x) ==> q(x)
    ensures Filter(xs, p) == Filter(Filter(xs, q), p)
    ensures IsSubseq(Filter(xs, p), Filter(xs, q))
  {
    FilterFuse(xs, q, p, p);
  }

  /** Filtering is idempotent. */
  lemma {:induction false} FilterIdempotent<T(!new)>(xs: seq<T>, p: T -> bool)
    ensures Filter(Filter(xs, p), p) == Filter(xs, p)
  {
    var r := Filter(xs, p);
    FilterKeepsAll(r, p);
  }

  // ---------------------------------------------------------------------
  // Expansion flags
  // ---------------------------------------------------------------------

  /** `!!state[key]` on a plain object: a key never set reads as false. */
  predicate IsOn<K>(m: map<K, bool>, k: K) {
    k in m && m[k]
  }

  /** `setState(prev => ({ ...prev, [k]: !prev[k] }))`. */
  function Toggle<K>(m: map<K, bool>, k: K): (r: map<K, bool>)
    ensures IsOn(r, k) <==> !IsOn(m, k)
    ensures r.Keys == m.Keys + {k}
    ensures forall j :: j in m && j != k ==> r[j] == m[j]
  {
    m[k := !IsOn(m, k)]
  }

  /** Toggling the same key twice restores every flag as the UI reads it. */
  lemma ToggleTwice<K>(m: map<K, bool>, k: K, j: K)
    ensures IsOn(Toggle(Toggle(m, k), k), j) <==> IsOn(m, j)
  {
  }
}
