/**
  The JavaScript built-ins the food-catalog client leans on, stated as pure
  functions over values: optional values (`undefined`/`null`), truthiness of
  strings, `||` and `??` chains, `String.prototype.trim`,
  `String.prototype.replace` with a one-character pattern, `Array.prototype.reverse`,
  `Number(...)` and `parseFloat(...)` on decimal text, and reading the message
  of a thrown value.
 */
module Js {

  /** `None` stands for JavaScript `undefined` or `null`. */
  datatype Option<+T> = None | Some(value: T) {

    /** The wrapped value, or `default` for `undefined`/`null`. */
    function GetOr(default: T): T {
      match this
      case Some(v) => v
      case None => default
    }
  }

  /** A thrown value: an `Error` object carries a message, anything else does not. */
  datatype Thrown = ErrorObject(message: string) | OtherValue

  /** How an awaited promise settled: with a value, or with what was thrown. */
  datatype Settled<+T> = Fulfilled(value: T) | Rejected(reason: Thrown)

  /** `err instanceof Error ? err.message : fallback` */
  function MessageOr(err: Thrown, fallback: string): string {
    match err
    case ErrorObject(msg) => msg
    case OtherValue => fallback
  }

  // ---------------------------------------------------------------------------
  // Truthiness and fallback chains

  /** Truthiness of an optional string: `undefined`, `null` and `""` are falsy. */
  predicate Truthy(x: Option<string>) {
    x.Some? && x.value != ""
  }

  /** `a || b`: the left operand when it is truthy, otherwise the right one as it is. */
  function Or(a: Option<string>, b: Option<string>): Option<string> {
    if Truthy(a) then a else b
  }

  /** Position `i` holds the first truthy operand of `xs`. */
  ghost predicate FirstTruthyAt(xs: seq<Option<string>>, i: int) {
    0 <= i < |xs| && Truthy(xs[i]) && forall j :: 0 <= j < i ==> !Truthy(xs[j])
  }

  /**
    An `||` chain reduced to what the client observes of it: the first truthy
    operand, or `None` when every operand is falsy. This is the chain's value
    whenever the chain is only tested for truthiness, compared with a non-empty
    literal, or ends in a literal fallback.
   */
  function FirstNonEmpty(xs: seq<Option<string>>): (r: Option<string>)
    ensures r.Some? <==> exists i :: 0 <= i < |xs| && Truthy(xs[i])
    ensures r.Some? ==> Truthy(r) && exists i :: FirstTruthyAt(xs, i) && xs[i] == r
  {
    if |xs| == 0 then None
    else if Truthy(xs[0]) then (assert FirstTruthyAt(xs, 0); xs[0])
    else
      var r := FirstNonEmpty(xs[1..]);
      assert forall i :: 1 <= i < |xs| ==> xs[i] == xs[1..][i - 1];
      assert r.Some? ==> exists i :: FirstTruthyAt(xs, i) && xs[i] == r by {
        if r.Some? {
          var k :| FirstTruthyAt(xs[1..], k) && xs[1..][k] == r;
          assert FirstTruthyAt(xs, k + 1);
        }
      }
      r
  }

  /** Position `i` holds the first operand of `xs` that is neither `undefined` nor `null`. */
  ghost predicate FirstPresentAt<T>(xs: seq<Option<T>>, i: int) {
    0 <= i < |xs| && xs[i].Some? && forall j :: 0 <= j < i ==> xs[j].None?
  }

  /** A `??` chain: the first operand that is neither `undefined` nor `null`; `""` counts as present. */
  function FirstPresent<T>(xs: seq<Option<T>>): (r: Option<T>)
    ensures r.Some? <==> exists i :: 0 <= i < |xs| && xs[i].Some?
    ensures r.Some? ==> exists i :: FirstPresentAt(xs, i) && xs[i] == r
  {
    if |xs| == 0 then None
    else if xs[0].Some? then (assert FirstPresentAt(xs, 0); xs[0])
    else
      var r := FirstPresent(xs[1..]);
      assert forall i :: 1 <= i < |xs| ==> xs[i] == xs[1..][i - 1];
      assert r.Some? ==> exists i :: FirstPresentAt(xs, i) && xs[i] == r by {
        if r.Some? {
          var k :| FirstPresentAt(xs[1..], k) && xs[1..][k] == r;
          assert FirstPresentAt(xs, k + 1);
        }
      }
      r
  }

  /** A two-operand `||` chain unfolds to its first truthy operand. */
  lemma FirstNonEmptyOfTwo(a: Option<string>, b: Option<string>)
    ensures FirstNonEmpty([a, b]) == if Truthy(a) then a else if Truthy(b) then b else None
  {
    assert [a, b][1..] == [b];
    assert [b][1..] == [];
  }

  /** A three-operand `||` chain unfolds to its first truthy operand. */
  lemma FirstNonEmptyOfThree(a: Option<string>, b: Option<string>, c: Option<string>)
    ensures FirstNonEmpty([a, b, c])
         == if Truthy(a) then a else if Truthy(b) then b else if Truthy(c) then c else None
  {
    assert [a, b, c][1..] == [b, c];
    FirstNonEmptyOfTwo(b, c);
  }

  /** A two-operand `??` chain unfolds to its first present operand. */
  lemma FirstPresentOfTwo<T>(a: Option<T>, b: Option<T>)
    ensures FirstPresent([a, b]) == if a.Some? then a else b
  {
    assert [a, b][1..] == [b];
    assert [b][1..] == [];
  }

  // ---------------------------------------------------------------------------
  // Arrays

  /** `Array.prototype.reverse` on the array's contents. */
  function Reverse<T>(s: seq<T>): (r: seq<T>)
    ensures |r| == |s|
    ensures forall i :: 0 <= i < |s| ==> r[i] == s[|s| - 1 - i]
  {
    if |s| == 0 then [] else Reverse(s[1..]) + [s[0]]
  }

  // ---------------------------------------------------------------------------
  // Strings

  /** The ECMAScript WhiteSpace and LineTerminator code points, which `trim` strips. */
  predicate IsWhiteSpace(c: char) {
    || c in {'\t', '\n', '\U{B}', '\U{C}', '\r', ' ', '\U{A0}', '\U{1680}'}
    || ('\U{2000}' <= c <= '\U{200A}')
    || c in {'\U{2028}', '\U{2029}', '\U{202F}', '\U{205F}', '\U{3000}', '\U{FEFF}'}
  }

  /** `s.trimStart()` */
  function TrimStart(s: string): (r: string)
    ensures |r| <= |s| && r == s[|s| - |r|..]
    ensures forall i :: 0 <= i < |s| - |r| ==> IsWhiteSpace(s[i])
    ensures r == [] || !IsWhiteSpace(r[0])
  {
    if |s| > 0 && IsWhiteSpace(s[0]) then TrimStart(s[1..]) else s
  }

  /** `s.trimEnd()` */
  function TrimEnd(s: string): (r: string)
    ensures |r| <= |s| && r == s[..|r|]
    ensures forall i :: |r| <= i < |s| ==> IsWhiteSpace(s[i])
    ensures r == [] || !IsWhiteSpace(r[|r| - 1])
  {
    if |s| > 0 && IsWhiteSpace(s[|s| - 1]) then TrimEnd(s[..|s| - 1]) else s
  }

  /** `s.trim()` */
  function Trim(s: string): string {
    TrimEnd(TrimStart(s))
  }

  /** `!s.trim()`: the text has nothing but white space. */
  predicate IsBlank(s: string) {
    Trim(s) == ""
  }

  /** Text is blank exactly when every character of it is white space. */
  lemma BlankIffAllWhiteSpace(s: string)
    ensures IsBlank(s) <==> forall i :: 0 <= i < |s| ==> IsWhiteSpace(s[i])
  {
    var t := TrimStart(s);
    if IsBlank(s) {
      assert |t| == 0;
    }
  }

  /** `s.indexOf(c)`, with `|s|` in place of -1. */
  function IndexOf(s: string, c: char): (i: nat)
    ensures i <= |s|
    ensures i < |s| <==> c in s
    ensures i < |s| ==> s[i] == c
  {
    if |s| == 0 then 0
    else if s[0] == c then 0
    else
      assert s == [s[0]] + s[1..];
      IndexOf(s[1..], c) + 1
  }

  /** No `c` comes before the position `IndexOf` finds. */
  lemma {:induction false} IndexOfIsFirst(s: string, c: char)
    ensures c !in s[..IndexOf(s, c)]
  {
    if |s| > 0 && s[0] != c {
      var t := s[1..];
      IndexOfIsFirst(t, c);
      var k := IndexOf(t, c);
      assert s == [s[0]] + t;
      assert s[..k + 1] == [s[0]] + t[..k];
    }
  }

  /** `s.replace(c, "")` for a one-character string pattern: only the first occurrence of `c` goes. */
  function RemoveFirst(s: string, c: char): (r: string)
    ensures c !in s ==> r == s
    ensures |s| > 0 && s[0] == c ==> r == s[1..]
  {
    if |s| == 0 then s
    else if s[0] == c then s[1..]
    else
      assert c !in s ==> c !in s[1..];
      [s[0]] + RemoveFirst(s[1..], c)
  }

  /** Removing the first `c` from text that contains one joins the text before it and after it. */
  lemma {:induction false} RemoveFirstSplit(s: string, c: char)
    requires c in s
    ensures RemoveFirst(s, c) == s[..IndexOf(s, c)] + s[IndexOf(s, c) + 1..]
  {
    if s[0] != c {
      var t := s[1..];
      assert s == [s[0]] + t;
      assert c in t;
      RemoveFirstSplit(t, c);
      var k := IndexOf(t, c);
      assert IndexOf(s, c) == k + 1;
      assert RemoveFirst(s, c) == [s[0]] + RemoveFirst(t, c);
      ConsSplit(s[0], t, k);
    }
  }

  /** Cutting out position `k + 1` of `[x] + t` is cutting out position `k` of `t`, after `x`. */
  lemma ConsSplit(x: char, t: string, k: nat)
    requires k < |t|
    ensures ([x] + t)[..k + 1] + ([x] + t)[k + 2..] == [x] + (t[..k] + t[k + 1..])
  {
    var s := [x] + t;
    assert s[..k + 1] == [x] + t[..k];
    assert s[k + 2..] == t[k + 1..];
  }

  /** Removing the first `c` from text that contains one drops one `c` and keeps every other character. */
  lemma {:induction false} RemoveFirstCount(s: string, c: char)
    requires c in s
    ensures |RemoveFirst(s, c)| == |s| - 1
    ensures multiset(RemoveFirst(s, c)) == multiset(s) - multiset{c}
  {
    assert s == [s[0]] + s[1..];
    if s[0] != c {
      assert c in s[1..];
      RemoveFirstCount(s[1..], c);
      assert multiset(s) == multiset{s[0]} + multiset(s[1..]);
    }
  }

  /** Everything the lemmas above say about removing the first `c` from `s`, in one place. */
  lemma RemoveFirstFacts(s: string, c: char)
    ensures c !in s ==> RemoveFirst(s, c) == s
    ensures |s| > 0 && s[0] == c ==> RemoveFirst(s, c) == s[1..]
    ensures c in s ==>
      && RemoveFirst(s, c) == s[..IndexOf(s, c)] + s[IndexOf(s, c) + 1..]
      && multiset(RemoveFirst(s, c)) == multiset(s) - multiset{c}
  {
    if c in s {
      RemoveFirstSplit(s, c);
      RemoveFirstCount(s, c);
    }
  }

  /** Text that starts with `c` loses exactly that leading character. */
  lemma RemoveFirstLeading(c: char, t: string)
    ensures RemoveFirst([c] + t, c) == t
  {
    assert ([c] + t)[1..] == t;
  }

  // ---------------------------------------------------------------------------
  // Decimal numbers

  predicate IsDigit(c: char) {
    '0' <= c <= '9'
  }

  /** The numeric value of a decimal digit (0 for any other character). */
  function DigitValue(c: char): nat {
    if IsDigit(c) then c as int - '0' as int else 0
  }

  /** The length of the run of decimal digits that starts at position `i` of `s`. */
  function DigitRun(s: string, i: nat): (n: nat)
    requires i <= |s|
    ensures i + n <= |s|
    ensures i + n == |s| || !IsDigit(s[i + n])
    decreases |s| - i
  {
    if i < |s| && IsDigit(s[i]) then 1 + DigitRun(s, i + 1) else 0
  }

  /** Every character of the run is a digit, and the run stops at the first non-digit. */
  lemma {:induction false} DigitRunIsRun(s: string, i: nat)
    requires i <= |s|
    ensures forall j :: i <= j < i + DigitRun(s, i) ==> IsDigit(s[j])
    decreases |s| - i
  {
    if i < |s| && IsDigit(s[i]) {
      DigitRunIsRun(s, i + 1);
    }
  }

  /** The natural number written by the digits `s[lo..hi]`. */
  function DigitsValue(s: string, lo: nat, hi: nat): nat
    requires lo <= hi <= |s|
    decreases hi - lo
  {
    if hi == lo then 0 else 10 * DigitsValue(s, lo, hi - 1) + DigitValue(s[hi - 1])
  }

  /** The value of the digits `s[lo..hi]` written after a decimal point: each weighs a tenth of the one before. */
  function FractionValue(s: string, lo: nat, hi: nat): real
    requires lo <= hi <= |s|
    decreases hi - lo
  {
    if hi == lo then 0.0 else (DigitValue(s[lo]) as real + FractionValue(s, lo + 1, hi)) / 10.0
  }

  /** A decimal literal found in some text: its value and how many characters it spans. */
  datatype Scan = Scan(value: real, length: nat)

  /** The longest literal of the form `d+(.d*)?` or `.d+` that starts at position `k` of `s`. */
  function ScanUnsigned(s: string, k: nat): (r: Option<Scan>)
    requires k <= |s|
    ensures r.Some? ==> 0 < r.value.length <= |s| - k
  {
    var p := k + DigitRun(s, k);
    if p < |s| && s[p] == '.' then
      var q := p + 1 + DigitRun(s, p + 1);
      if p == k && q == p + 1 then None
      else Some(Scan(DigitsValue(s, k, p) as real + FractionValue(s, p + 1, q), q - k))
    else if p == k then None
    else Some(Scan(DigitsValue(s, k, p) as real, p - k))
  }

  /** The length of an optional leading sign. */
  function SignLength(s: string): (k: nat)
    ensures k <= |s|
  {
    if |s| > 0 && (s[0] == '+' || s[0] == '-') then 1 else 0
  }

  /**
    The longest prefix of `s` that is a decimal literal `[+-]?(d+(.d*)?|.d+)`,
    with its value; `None` when `s` does not start with one.
   */
  function ScanDecimal(s: string): (r: Option<Scan>)
    ensures r.Some? ==> 0 < r.value.length <= |s|
  {
    var k := SignLength(s);
    match ScanUnsigned(s, k)
    case None => None
    case Some(sc) => Some(Scan(if k == 1 && s[0] == '-' then -sc.value else sc.value, k + sc.length))
  }

  /**
    `Number(s)`, with `None` for NaN: blank text is 0, otherwise the trimmed
    text must be exactly one decimal literal.
   */
  function ToNumber(s: string): (r: Option<real>)
    ensures IsBlank(s) ==> r == Some(0.0)
    ensures r.Some? && !IsBlank(s) ==> ParseFloat(s) == r
  {
    var u := TrimStart(s);
    var t := TrimEnd(u);
    if t == "" then Some(0.0)
    else match ScanDecimal(t)
      case Some(sc) =>
        if sc.length == |t| then
          TrimEndSplits(u);
          ScanDecimalStops(t, u[|t|..]);
          Some(sc.value)
        else None
      case None => None
  }

  /**
    `parseFloat(s)`, with `None` for NaN: the longest decimal literal after
    leading white space. Unlike `Number`, blank text is NaN, and so is text
    whose first non-space character cannot start a number.
   */
  function ParseFloat(s: string): (r: Option<real>)
    ensures IsBlank(s) ==> r.None?
    ensures TrimStart(s) != [] && !IsNumberChar(TrimStart(s)[0]) ==> r.None?
  {
    var u := TrimStart(s);
    if u == [] then None
    else if !IsNumberChar(u[0]) then
      ScanDecimalNone(u);
      None
    else
      match ScanDecimal(u)
      case Some(sc) => Some(sc.value)
      case None => None
  }

  /** A lone digit is a literal of length one. */
  lemma ScanOneDigit(a: char)
    requires IsDigit(a)
    ensures ScanDecimal([a]) == Some(Scan(DigitValue(a) as real, 1))
  {
    assert DigitRun([a], 0) == 1;
  }

  /** Digit, point, digit is a literal of length three. */
  lemma ScanDigitPointDigit(a: char, b: char)
    requires IsDigit(a) && IsDigit(b)
    ensures ScanDecimal([a, '.', b]) == Some(Scan(DigitValue(a) as real + DigitValue(b) as real / 10.0, 3))
  {
    var s := [a, '.', b];
    assert DigitRun(s, 0) == 1;
    assert DigitRun(s, 2) == 1;
  }

  /** Text with no white space at either end is its own trim. */
  lemma TrimUnpadded(s: string)
    requires s == [] || (!IsWhiteSpace(s[0]) && !IsWhiteSpace(s[|s| - 1]))
    ensures Trim(s) == s
  {
    assert TrimStart(s) == s;
  }

  /** Text that is its own trim and exactly one literal reads as that literal's value. */
  lemma NumberOfLiteral(s: string, v: real)
    requires s != [] && Trim(s) == s
    requires ScanDecimal(s) == Some(Scan(v, |s|))
    ensures ToNumber(s) == Some(v)
  {
  }

  /** `Number` reads digit, point, digit as that decimal. */
  lemma NumberOfDigitPointDigit(a: char, b: char)
    requires IsDigit(a) && IsDigit(b)
    ensures ToNumber([a, '.', b]) == Some(DigitValue(a) as real + DigitValue(b) as real / 10.0)
  {
    var s := [a, '.', b];
    assert !IsWhiteSpace(s[0]) && !IsWhiteSpace(s[2]);
    TrimUnpadded(s);
    ScanDigitPointDigit(a, b);
    NumberOfLiteral(s, DigitValue(a) as real + DigitValue(b) as real / 10.0);
  }

  /** `Number` reads a lone digit as its value. */
  lemma NumberOfOneDigit(a: char)
    requires IsDigit(a)
    ensures ToNumber([a]) == Some(DigitValue(a) as real)
  {
    var s := [a];
    assert !IsWhiteSpace(s[0]);
    TrimUnpadded(s);
    ScanOneDigit(a);
    NumberOfLiteral(s, DigitValue(a) as real);
  }

  /** Text that starts with anything but a sign, a digit or a point holds no literal at its start. */
  lemma ScanDecimalNone(s: string)
    requires |s| > 0 && !IsDigit(s[0]) && s[0] !in {'+', '-', '.'}
    ensures ScanDecimal(s).None?
  {
    assert DigitRun(s, 0) == 0;
  }

  /** White space is never a digit or a point. */
  lemma WhiteSpaceIsNotDigit(c: char)
    requires IsWhiteSpace(c)
    ensures !IsDigit(c) && c != '.'
  {
  }

  /** Appending text that does not start with a digit leaves every run of digits inside `b` as it was. */
  lemma {:induction false} DigitRunStops(b: string, w: string, i: nat)
    requires i <= |b|
    requires w == [] || !IsDigit(w[0])
    ensures DigitRun(b + w, i) == DigitRun(b, i)
    decreases |b| - i
  {
    if i < |b| && IsDigit(b[i]) {
      assert (b + w)[i] == b[i];
      DigitRunStops(b, w, i + 1);
    } else if i < |b| {
      assert (b + w)[i] == b[i];
    } else if w != [] {
      assert (b + w)[i] == w[0];
    }
  }

  /** Appending text leaves the value of digits inside `b` as it was. */
  lemma {:induction false} DigitsValueOfPrefix(b: string, w: string, lo: nat, hi: nat)
    requires lo <= hi <= |b|
    ensures DigitsValue(b + w, lo, hi) == DigitsValue(b, lo, hi)
    decreases hi - lo
  {
    if hi > lo {
      assert (b + w)[hi - 1] == b[hi - 1];
      DigitsValueOfPrefix(b, w, lo, hi - 1);
    }
  }

  /** Appending text leaves the value of fraction digits inside `b` as it was. */
  lemma {:induction false} FractionValueOfPrefix(b: string, w: string, lo: nat, hi: nat)
    requires lo <= hi <= |b|
    ensures FractionValue(b + w, lo, hi) == FractionValue(b, lo, hi)
    decreases hi - lo
  {
    if hi > lo {
      assert (b + w)[lo] == b[lo];
      FractionValueOfPrefix(b, w, lo + 1, hi);
    }
  }

  /** Text after a complete unsigned literal that starts with neither a digit nor a point does not extend it. */
  lemma ScanUnsignedStops(b: string, w: string, k: nat)
    requires k <= |b| && ScanUnsigned(b, k).Some? && k + ScanUnsigned(b, k).value.length == |b|
    requires w == [] || (!IsDigit(w[0]) && w[0] != '.')
    ensures ScanUnsigned(b + w, k) == ScanUnsigned(b, k)
  {
    var p := k + DigitRun(b, k);
    DigitRunStops(b, w, k);
    DigitsValueOfPrefix(b, w, k, p);
    if p < |b| {
      PointStops(b, w, k, p);
    } else {
      if w != [] {
        assert (b + w)[p] == w[0];
      }
      assert ScanUnsigned(b + w, k) == Some(Scan(DigitsValue(b, k, p) as real, p - k));
    }
  }

  /** `ScanUnsignedStops` when the literal in `b` has a point. */
  lemma PointStops(b: string, w: string, k: nat, p: nat)
    requires k <= p < |b| && p == k + DigitRun(b, k)
    requires ScanUnsigned(b, k).Some? && k + ScanUnsigned(b, k).value.length == |b|
    requires w == [] || (!IsDigit(w[0]) && w[0] != '.')
    requires DigitRun(b + w, k) == DigitRun(b, k) && DigitsValue(b + w, k, p) == DigitsValue(b, k, p)
    ensures ScanUnsigned(b + w, k) == ScanUnsigned(b, k)
  {
    FractionStops(b, w, k, p);
    var sc := Scan(DigitsValue(b, k, p) as real + FractionValue(b, p + 1, |b|), |b| - k);
    assert ScanUnsigned(b, k) == Some(sc);
    assert ScanUnsigned(b + w, k) == Some(sc);
  }

  /** The part of `ScanUnsignedStops` after a point inside `b`. */
  lemma FractionStops(b: string, w: string, k: nat, p: nat)
    requires k <= p < |b| && p == k + DigitRun(b, k)
    requires ScanUnsigned(b, k).Some? && k + ScanUnsigned(b, k).value.length == |b|
    requires w == [] || !IsDigit(w[0])
    ensures b[p] == '.' && (b + w)[p] == '.'
    ensures DigitRun(b + w, p + 1) == DigitRun(b, p + 1) == |b| - p - 1
    ensures FractionValue(b + w, p + 1, |b|) == FractionValue(b, p + 1, |b|)
  {
    assert (b + w)[p] == b[p];
    DigitRunStops(b, w, p + 1);
    FractionValueOfPrefix(b, w, p + 1, |b|);
  }

  /** Text after a complete literal that starts with white space does not extend it. */
  lemma ScanDecimalStops(t: string, w: string)
    requires ScanDecimal(t).Some? && ScanDecimal(t).value.length == |t|
    requires w == [] || IsWhiteSpace(w[0])
    ensures ScanDecimal(t + w) == ScanDecimal(t)
  {
    if w != [] {
      WhiteSpaceIsNotDigit(w[0]);
    }
    var k := SignLength(t);
    assert SignLength(t + w) == k;
    if k == 1 {
      assert (t + w)[0] == t[0];
    }
    ScanUnsignedStops(t, w, k);
  }

  /**
    Where `Number(s)` gives a number for text that is not blank, `parseFloat(s)`
    gives the same number: the two readings agree on every text the validator
    lets through as numeric.
   */
  lemma ToNumberAgreesWithParseFloat(s: string)
    requires !IsBlank(s) && ToNumber(s).Some?
    ensures ParseFloat(s) == ToNumber(s)
  {
    var u := TrimStart(s);
    var t := TrimEnd(u);
    TrimEndSplits(u);
    ScanDecimalStops(t, u[|t|..]);
  }

  /** What `trimEnd` removes is a tail that starts with white space. */
  lemma TrimEndSplits(u: string)
    ensures var t := TrimEnd(u); u == t + u[|t|..] && (|t| == |u| || IsWhiteSpace(u[|t|]))
  {
  }

  /** A character that can appear in text `Number` reads as a number. */
  predicate IsNumberChar(c: char) {
    IsDigit(c) || c == '+' || c == '-' || c == '.' || IsWhiteSpace(c)
  }

  /** An unsigned literal consists of digits and points. */
  lemma ScanUnsignedChars(s: string, k: nat)
    requires k <= |s| && ScanUnsigned(s, k).Some?
    ensures forall j :: k <= j < k + ScanUnsigned(s, k).value.length ==> IsDigit(s[j]) || s[j] == '.'
  {
    var p := k + DigitRun(s, k);
    DigitRunIsRun(s, k);
    if p < |s| && s[p] == '.' {
      DigitRunIsRun(s, p + 1);
    }
  }

  /** A literal of the whole text consists of a sign, digits and points. */
  lemma ScanDecimalChars(t: string)
    requires ScanDecimal(t).Some? && ScanDecimal(t).value.length == |t|
    ensures forall j :: 0 <= j < |t| ==> IsNumberChar(t[j])
  {
    var k := SignLength(t);
    ScanUnsignedChars(t, k);
  }

  /** Every character of `s` is white space trimmed off or a character of `Trim(s)`, at the same offset. */
  lemma TrimParts(s: string)
    ensures var a := |s| - |TrimStart(s)|;
      forall i :: 0 <= i < |s| ==>
        IsWhiteSpace(s[i]) || (a <= i < a + |Trim(s)| && s[i] == Trim(s)[i - a])
  {
    var u := TrimStart(s);
    var t := TrimEnd(u);
    forall i | 0 <= i < |s| && !IsWhiteSpace(s[i])
      ensures |s| - |u| <= i < |s| - |u| + |t| && s[i] == t[i - (|s| - |u|)]
    {
      PaddedAt(s, u, t, i);
    }
  }

  /**
    A non-space character of `s` lies inside `t`, where `u` is `s` without a
    leading run of white space and `t` is `u` without a trailing one.
   */
  lemma PaddedAt(s: string, u: string, t: string, i: int)
    requires |u| <= |s| && u == s[|s| - |u|..]
    requires forall k :: 0 <= k < |s| - |u| ==> IsWhiteSpace(s[k])
    requires |t| <= |u| && t == u[..|t|]
    requires forall k :: |t| <= k < |u| ==> IsWhiteSpace(u[k])
    requires 0 <= i < |s| && !IsWhiteSpace(s[i])
    ensures |s| - |u| <= i < |s| - |u| + |t| && s[i] == t[i - (|s| - |u|)]
  {
    var a := |s| - |u|;
    assert s[i] == u[i - a];
  }

  /** Text `Number` reads as a number holds nothing but signs, digits, points and white space. */
  lemma NumberTextChars(s: string)
    requires ToNumber(s).Some?
    ensures forall i :: 0 <= i < |s| ==> IsNumberChar(s[i])
  {
    var t := Trim(s);
    if t != "" {
      ScanDecimalChars(t);
    }
    TrimParts(s);
  }

  /** In particular, text `Number` reads as a number holds no '$'. */
  lemma NumberTextHasNoDollar(s: string)
    requires ToNumber(s).Some?
    ensures '$' !in s
  {
    NumberTextChars(s);
  }
}
