/**
 * The JavaScript built-ins the dashboard, the fetch pipeline and the
 * calculators rely on, stated over Dafny strings and reals:
 * `String.prototype.trim`, a global `replace(/p/g, '')`, a first-match
 * `replace(c, '')`, `includes`, `toLowerCase` (ASCII letters only),
 * `Array.prototype.filter`, `parseFloat` (sign, digits and a fraction),
 * `Number.prototype.toFixed` and `Math.round`.
 */
module JsBuiltins {
  import opened Wrappers

  // ------------------------------------------------------------------ white space

  /** ECMAScript WhiteSpace or LineTerminator: what `trim` strips, what the
      regular-expression class `\s` matches and what `parseFloat` skips. */
  predicate IsSpace(c: char) {
    ('\t' <= c <= '\r') || c == ' ' || ('\U{00A0}' <= c && IsWideSpace(c))
  }

  /** The white space characters outside ASCII. */
  predicate IsWideSpace(c: char) {
    || c == '\U{00A0}' || c == '\U{1680}'
    || ('\U{2000}' <= c <= '\U{200A}')
    || c == '\U{2028}' || c == '\U{2029}' || c == '\U{202F}' || c == '\U{205F}'
    || c == '\U{3000}' || c == '\U{FEFF}'
  }

  ghost predicate AllSpace(s: string) {
    forall i :: 0 <= i < |s| ==> IsSpace(s[i])
  }

  /** Drops leading white space; what is left is a suffix of `s`. */
  function TrimStart(s: string): (r: string)
    ensures |r| <= |s| && r == s[|s| - |r|..]
    ensures AllSpace(s[..|s| - |r|])
    ensures r == [] || !IsSpace(r[0])
  {
    if s != [] && IsSpace(s[0]) then
      var r := TrimStart(s[1..]);
      assert s[..|s| - |r|] == [s[0]] + s[1..][..|s| - 1 - |r|];
      r
    else
      s
  }

  /** Drops trailing white space; what is left is a prefix of `s`. */
  function TrimEnd(s: string): (r: string)
    ensures r <= s
    ensures AllSpace(s[|r|..])
    ensures r == [] || !IsSpace(r[|r| - 1])
  {
    if s != [] && IsSpace(s[|s| - 1]) then
      var r := TrimEnd(s[..|s| - 1]);
      assert s[|r|..] == s[..|s| - 1][|r|..] + [s[|s| - 1]];
      r
    else
      s
  }

  /** `r` sits at index `i` of `s` with nothing but white space around it. */
  ghost predicate SpaceAround(s: string, r: string, i: int) {
    0 <= i <= |s| - |r| && r == s[i..i + |r|] && AllSpace(s[..i]) && AllSpace(s[i + |r|..])
  }

  /** `s.trim()`: white space cut from both ends of `s`. */
  function Trim(s: string): (r: string)
    ensures r == [] || (!IsSpace(r[0]) && !IsSpace(r[|r| - 1]))
  {
    TrimEnd(TrimStart(s))
  }

  /** What `Trim` leaves is an infix of `s` with only white space around it. */
  lemma TrimIsInfix(s: string)
    ensures exists i :: SpaceAround(s, Trim(s), i)
  {
    var t := TrimStart(s);
    var r := TrimEnd(t);
    var i := |s| - |t|;
    assert r == Trim(s) && AllSpace(s[..i]);
    SliceOfSuffix(s, t, r, i);
    assert AllSpace(s[i + |r|..]);
    assert SpaceAround(s, r, i);
  }

  /** A prefix `r` of the suffix `t` of `s` from `i` sits at `i` in `s`. */
  lemma SliceOfSuffix(s: string, t: string, r: string, i: int)
    requires 0 <= i <= |s| && t == s[i..] && r <= t
    ensures i + |r| <= |s| && r == s[i..i + |r|] && s[i + |r|..] == t[|r|..]
  {
  }

  /** Trimming again changes nothing. */
  lemma {:induction false} TrimIdempotent(s: string)
    ensures Trim(Trim(s)) == Trim(s)
  {
    var r := Trim(s);
    TrimUnchanged(r);
  }

  /** A string with no white space at either end is its own trim. */
  lemma {:induction false} TrimUnchanged(s: string)
    requires s == [] || (!IsSpace(s[0]) && !IsSpace(s[|s| - 1]))
    ensures Trim(s) == s
  {
    assert TrimStart(s) == s;
    assert TrimEnd(s) == s;
  }

  // ------------------------------------------------------------------ substrings

  /** `s.includes(sub)`. */
  predicate Includes(s: string, sub: string)
    decreases |s|
  {
    sub <= s || (s != [] && Includes(s[1..], sub))
  }

  /** `sub` occurs in `s` starting at index `i`. */
  ghost predicate OccursAt(s: string, sub: string, i: int) {
    0 <= i && i + |sub| <= |s| && s[i..i + |sub|] == sub
  }

  /** `Includes` agrees with the definition by a position of occurrence. */
  lemma {:induction false} IncludesIff(s: string, sub: string)
    ensures Includes(s, sub) <==> exists i :: OccursAt(s, sub, i)
    decreases |s|
  {
    if sub <= s {
      assert OccursAt(s, sub, 0);
    } else if s == [] {
      assert forall i :: !OccursAt(s, sub, i);
    } else {
      IncludesIff(s[1..], sub);
      forall i | 0 < i ensures OccursAt(s, sub, i) == OccursAt(s[1..], sub, i - 1) {
        if i + |sub| <= |s| {
          var u, w := s[1..][i - 1..i - 1 + |sub|], s[i..i + |sub|];
          assert forall k :: 0 <= k < |sub| ==> u[k] == w[k];
          assert u == w;
        }
      }
      assert !OccursAt(s, sub, 0);
      if Includes(s[1..], sub) {
        var i :| OccursAt(s[1..], sub, i);
        assert OccursAt(s, sub, i + 1);
      }
    }
  }

  /** Text that contains `p + q` contains `p`. */
  lemma IncludesPrefixOf(s: string, p: string, q: string)
    requires Includes(s, p + q)
    ensures Includes(s, p)
  {
    IncludesIff(s, p + q);
    var i :| OccursAt(s, p + q, i);
    assert s[i..i + |p|] == s[i..i + |p + q|][..|p|];
    assert OccursAt(s, p, i);
    IncludesIff(s, p);
  }

  /** Text without the first character of `sub` does not contain `sub`. */
  lemma {:induction false} NotIncludes(s: string, sub: string)
    requires sub != [] && forall i | 0 <= i < |s| :: s[i] != sub[0]
    ensures !Includes(s, sub)
    decreases |s|
  {
    if s != [] {
      assert s[0] != sub[0];
      NotIncludes(s[1..], sub);
    }
  }

  /** The empty string is included in every string. */
  lemma IncludesEmpty(s: string)
    ensures Includes(s, "")
  {
  }

  /** `s.replace(/p/g, '')`: one left-to-right pass deleting the non-overlapping
      occurrences of `p`; text that closes up around a deletion is not rescanned. */
  function RemoveAll(s: string, p: string): (r: string)
    requires p != []
    ensures |r| <= |s|
    decreases |s|
  {
    if s == [] then []
    else if p <= s then RemoveAll(s[|p|..], p)
    else [s[0]] + RemoveAll(s[1..], p)
  }

  /** The pass changes the text exactly when the pattern occurs in it. */
  lemma {:induction false} RemoveAllUnchangedIff(s: string, p: string)
    requires p != []
    ensures RemoveAll(s, p) == s <==> !Includes(s, p)
    decreases |s|
  {
    if s == [] {
    } else if p <= s {
      assert |RemoveAll(s[|p|..], p)| <= |s| - |p|;
    } else {
      RemoveAllUnchangedIff(s[1..], p);
      assert RemoveAll(s, p) == [s[0]] + RemoveAll(s[1..], p);
      if RemoveAll(s, p) == s {
        assert RemoveAll(s[1..], p) == s[1..];
      }
    }
  }

  /** Text in which the first character of `p` never appears passes through
      unchanged, and the pass continues on what follows it. */
  lemma {:induction false} RemoveAllSkips(a: string, t: string, p: string)
    requires p != []
    requires forall i :: 0 <= i < |a| ==> a[i] != p[0]
    ensures RemoveAll(a + t, p) == a + RemoveAll(t, p)
    decreases |a|
  {
    if a == [] {
      assert a + t == t;
    } else {
      assert !(p <= a + t) by { assert (a + t)[0] == a[0]; }
      assert (a + t)[1..] == a[1..] + t;
      RemoveAllSkips(a[1..], t, p);
    }
  }

  /** An occurrence at the front is deleted and the pass resumes after it. */
  lemma RemoveAllFront(p: string, t: string)
    requires p != []
    ensures RemoveAll(p + t, p) == RemoveAll(t, p)
  {
    assert (p + t)[|p|..] == t;
  }

  /** `s.replace(c, '')` with a one-character string pattern: only the first
      occurrence of `c` is deleted. */
  function RemoveFirst(s: string, c: char): (r: string)
    ensures c !in s ==> r == s
    ensures c in s ==> |r| == |s| - 1
  {
    if s == [] then []
    else if s[0] == c then s[1..]
    else
      assert s == [s[0]] + s[1..];
      [s[0]] + RemoveFirst(s[1..], c)
  }

  /** Only the first `c` goes: the text before it, which has no `c`, and
      everything after it are kept. */
  lemma {:induction false} RemoveFirstSplit(a: string, c: char, b: string)
    requires c !in a
    ensures RemoveFirst(a + [c] + b, c) == a + b
  {
    if a == [] {
      assert a + [c] + b == [c] + b;
    } else {
      var t := a[1..];
      assert c !in t && a[0] != c;
      assert a + [c] + b == [a[0]] + (t + [c] + b);
      RemoveFirstSplit(t, c, b);
      assert a + b == [a[0]] + (t + b);
    }
  }



  // ------------------------------------------------------------------ case

  /** `toLowerCase` on one character, restricted to the ASCII letters. */
  function LowerChar(c: char): char {
    if 'A' <= c <= 'Z' then (c as int - 'A' as int + 'a' as int) as char else c
  }

  /** `s.toLowerCase()` restricted to the ASCII letters. */
  function ToLowerCase(s: string): (r: string)
    ensures |r| == |s|
    ensures forall i :: 0 <= i < |s| ==> r[i] == LowerChar(s[i]) && !('A' <= r[i] <= 'Z')
  {
    seq(|s|, i requires 0 <= i < |s| => LowerChar(s[i]))
  }

  /** Lowering twice is lowering once. */
  lemma ToLowerCaseIdempotent(s: string)
    ensures ToLowerCase(ToLowerCase(s)) == ToLowerCase(s)
  {
  }

  // ------------------------------------------------------------------ arrays

  /** `xs.filter(keep)`: the elements satisfying `keep`, in their original order. */
  function Filter<T(!new)>(xs: seq<T>, keep: T -> bool): (r: seq<T>)
    ensures |r| <= |xs|
    ensures forall x :: x in r <==> x in xs && keep(x)
  {
    if xs == [] then []
    else if keep(xs[0]) then [xs[0]] + Filter(xs[1..], keep)
    else Filter(xs[1..], keep)
  }

  /** `sub` is `xs` with some elements deleted and the rest left in order. */
  ghost predicate IsSubsequence<T>(sub: seq<T>, xs: seq<T>)
    decreases |xs|
  {
    if sub == [] then true
    else if xs == [] then false
    else (sub[0] == xs[0] && IsSubsequence(sub[1..], xs[1..])) || IsSubsequence(sub, xs[1..])
  }

  /** Filtering keeps order: its result is a subsequence of its input. */
  lemma {:induction false} FilterIsSubsequence<T(!new)>(xs: seq<T>, keep: T -> bool)
    ensures IsSubsequence(Filter(xs, keep), xs)
  {
    if xs != [] {
      FilterIsSubsequence(xs[1..], keep);
      if keep(xs[0]) {
        assert Filter(xs, keep)[1..] == Filter(xs[1..], keep);
      }
    }
  }

  /** Filtering with a test every element passes returns the input unchanged. */
  lemma {:induction false} FilterAll<T(!new)>(xs: seq<T>, keep: T -> bool)
    requires forall i :: 0 <= i < |xs| ==> keep(xs[i])
    ensures Filter(xs, keep) == xs
  {
    if xs != [] {
      FilterAll(xs[1..], keep);
    }
  }

  /** Filtering a concatenation filters each part. */
  lemma {:induction false} FilterAppend<T(!new)>(xs: seq<T>, ys: seq<T>, keep: T -> bool)
    ensures Filter(xs + ys, keep) == Filter(xs, keep) + Filter(ys, keep)
  {
    if xs == [] {
      assert xs + ys == ys;
    } else {
      assert (xs + ys)[1..] == xs[1..] + ys;
      FilterAppend(xs[1..], ys, keep);
    }
  }

  /** Filtering with two tests that agree everywhere gives the same result. */
  lemma {:induction false} FilterSame<T(!new)>(xs: seq<T>, p: T -> bool, q: T -> bool)
    requires forall x :: p(x) == q(x)
    ensures Filter(xs, p) == Filter(xs, q)
  {
    if xs != [] {
      FilterSame(xs[1..], p, q);
    }
  }

  /** Filtering twice is filtering once with both tests. */
  lemma {:induction false} FilterFilter<T(!new)>(xs: seq<T>, p: T -> bool, q: T -> bool, pq: T -> bool)
    requires forall x :: pq(x) == (p(x) && q(x))
    ensures Filter(Filter(xs, p), q) == Filter(xs, pq)
  {
    if xs != [] {
      FilterFilter(xs[1..], p, q, pq);
    }
  }

  // ------------------------------------------------------------------ numbers

  predicate IsDigit(c: char) {
    '0' <= c <= '9'
  }

  ghost predicate AllDigits(s: string) {
    forall i :: 0 <= i < |s| ==> IsDigit(s[i])
  }

  function DigitValue(c: char): nat
    requires IsDigit(c)
  {
    c as int - '0' as int
  }

  function DigitChar(d: nat): (c: char)
    requires d < 10
    ensures IsDigit(c) && DigitValue(c) == d
  {
    ('0' as int + d) as char
  }

  function Pow10(d: nat): (r: nat)
    ensures r >= 1
  {
    if d == 0 then 1 else 10 * Pow10(d - 1)
  }

  /** The longest prefix of `s` made of decimal digits. */
  function LeadingDigits(s: string): (r: string)
    ensures r <= s && AllDigits(r)
    ensures |r| == |s| || !IsDigit(s[|r|])
  {
    if s != [] && IsDigit(s[0]) then [s[0]] + LeadingDigits(s[1..]) else []
  }

  /** The value of a digit string read as a whole number. */
  function DigitsValue(ds: string): nat
    requires AllDigits(ds)
  {
    if ds == [] then 0 else DigitsValue(ds[..|ds| - 1]) * 10 + DigitValue(ds[|ds| - 1])
  }

  /** The digits after a leading '.', if `rest` starts with one. */
  function FractionDigits(rest: string): (r: string)
    ensures AllDigits(r)
  {
    if rest != [] && rest[0] == '.' then LeadingDigits(rest[1..]) else []
  }

  /** `parseFloat` past the sign: integer digits, then an optional point and
      fraction digits; at least one digit must be present. The value is that of
      all the digits read as one whole number, shifted right by the number of
      fraction digits. */
  function ParseUnsigned(u: string): Option<real> {
    var whole := LeadingDigits(u);
    var frac := FractionDigits(u[|whole|..]);
    if whole == [] && frac == [] then None
    else Some(Shift(DigitsValue(whole + frac) as real, |frac|))
  }

  /** `parseFloat(s)` for an optional sign, integer digits and fraction digits,
      after leading white space; `None` stands for `NaN`, which is the answer
      exactly when no digit starts the number (a lone '.' is not one). */
  function ParseFloat(s: string): (r: Option<real>)
    ensures var t := TrimStart(s);
      var u := if t != [] && (t[0] == '-' || t[0] == '+') then t[1..] else t;
      r.None? <==> !StartsNumber(u)
  {
    var t := TrimStart(s);
    var signed := t != [] && (t[0] == '-' || t[0] == '+');
    var u := if signed then t[1..] else t;
    ParseUnsignedNone(u);
    match ParseUnsigned(u)
    case None => None
    case Some(m) => Some(if signed && t[0] == '-' then -m else m)
  }

  /** `u` starts with a digit, or with a '.' followed by a digit. */
  predicate StartsNumber(u: string) {
    (u != [] && IsDigit(u[0])) || (|u| >= 2 && u[0] == '.' && IsDigit(u[1]))
  }

  /** `parseFloat` past the sign finds no number exactly when no digit starts one. */
  lemma ParseUnsignedNone(u: string)
    ensures ParseUnsigned(u).None? <==> !StartsNumber(u)
  {
    var whole := LeadingDigits(u);
    if u != [] && IsDigit(u[0]) {
      assert whole != [];
    } else {
      assert whole == [] && u[|whole|..] == u;
      if |u| >= 2 && u[0] == '.' && IsDigit(u[1]) {
        assert LeadingDigits(u[1..]) != [];
      }
    }
  }

  /** The decimal digits of `n`, without leading zeros. */
  function NatText(n: nat): (r: string)
    ensures |r| >= 1 && AllDigits(r) && DigitsValue(r) == n
    decreases n
  {
    if n < 10 then [DigitChar(n)]
    else
      var r := NatText(n / 10) + [DigitChar(n % 10)];
      assert r[..|r| - 1] == NatText(n / 10);
      r
  }

  /** `ds` with zeros put in front until it is `width` long. */
  function ZeroPad(ds: string, width: nat): (r: string)
    ensures |r| == if |ds| >= width then |ds| else width
  {
    if |ds| >= width then ds else seq(width - |ds|, _ => '0') + ds
  }

  /** The whole number `x` rounds to under `Math.round`: halves go up. */
  function Round(x: real): (r: int)
    ensures -0.5 < r as real - x <= 0.5
  {
    (x + 0.5).Floor
  }

  /** `v * 10^d`. */
  function Unshift(v: real, d: nat): (r: real)
    ensures v >= 0.0 ==> r >= 0.0
  {
    if d == 0 then v else Unshift(v, d - 1) * 10.0
  }

  /** `v / 10^d`: the decimal point moved `d` places to the left. */
  function Shift(v: real, d: nat): real
    decreases d
  {
    if d == 0 then v else Shift(v / 10.0, d - 1)
  }

  /** `m * 10^d` rounded to a whole number, ties upwards. */
  function ScaledRound(m: real, d: nat): nat
    requires m >= 0.0
  {
    (Unshift(m, d) + 0.5).Floor
  }

  /** A digit string with a '.' put before its last `d` digits (none when `d` is 0). */
  function InsertPoint(digits: string, d: nat): string
    requires |digits| > d
  {
    if d == 0 then digits else digits[..|digits| - d] + ("." + digits[|digits| - d..])
  }

  /** `x.toFixed(d)`: `d` digits after the point, at least one before it; a tie
      in the last digit goes to the larger magnitude, and a negative `x` gets a
      leading '-'. */
  function ToFixed(x: real, d: nat): (r: string)
    ensures r != []
  {
    var neg := x < 0.0;
    var n := ScaledRound(if neg then -x else x, d);
    (if neg then "-" else "") + InsertPoint(ZeroPad(NatText(n), d + 1), d)
  }

  /** A run of decimal digits as a number is printed: at least one, and no
      leading zero unless it is the only digit. */
  ghost predicate Canonical(w: string) {
    w != [] && AllDigits(w) && (|w| == 1 || w[0] != '0')
  }

  /** The digits `toFixed` prints before the point for `n / 10^d`. */
  function FixedWhole(n: nat, d: nat): string {
    var P := ZeroPad(NatText(n), d + 1);
    P[..|P| - d]
  }

  /** The `d` digits `toFixed` prints after the point for `n / 10^d`. */
  function FixedFraction(n: nat, d: nat): string {
    var P := ZeroPad(NatText(n), d + 1);
    P[|P| - d..]
  }

  /** The layout of `ToFixed(x, d)`: a '-' exactly when `x` is negative, the
      canonical digits of the whole part, then (when `d > 0`) a '.' and exactly
      `d` digits; read together the two digit runs spell `n`, which is
      `|x| * 10^d` rounded, so the first is `n / 10^d` and the second `n mod 10^d`. */
  lemma ToFixedForm(x: real, d: nat)
    ensures var n := ScaledRound(if x < 0.0 then -x else x, d);
      var w, f := FixedWhole(n, d), FixedFraction(n, d);
      ToFixed(x, d) == (if x < 0.0 then "-" else "") + w + (if d > 0 then "." else "") + f
      && Canonical(w) && AllDigits(f) && |f| == d
      && DigitsValue(w) * Pow10(d) + DigitsValue(f) == n && DigitsValue(f) < Pow10(d)
  {
    var n := ScaledRound(if x < 0.0 then -x else x, d);
    var sign := if x < 0.0 then "-" else "";
    assert ToFixed(x, d) == sign + InsertPoint(ZeroPad(NatText(n), d + 1), d);
    FixedLayout(sign, n, d);
    FixedDigits(n, d);
  }

  /** The sign, then the digits of `n` with the point inserted, is the sign,
      the whole digits, the point and the fraction digits. */
  lemma FixedLayout(sign: string, n: nat, d: nat)
    ensures sign + InsertPoint(ZeroPad(NatText(n), d + 1), d)
      == sign + FixedWhole(n, d) + (if d > 0 then "." else "") + FixedFraction(n, d)
  {
    var P := ZeroPad(NatText(n), d + 1);
    assert FixedWhole(n, d) == P[..|P| - d] && FixedFraction(n, d) == P[|P| - d..];
    SignedSplit(sign, P, d);
  }

  /** The sign and the digits with the point inserted, as four parts. */
  lemma SignedSplit(sign: string, P: string, d: nat)
    requires |P| > d
    ensures sign + InsertPoint(P, d) == sign + P[..|P| - d] + (if d > 0 then "." else "") + P[|P| - d..]
  {
    var w, dot, f := P[..|P| - d], (if d > 0 then "." else ""), P[|P| - d..];
    InsertPointSplit(P, d);
    assert sign + (w + dot + f) == sign + w + dot + f;
  }

  /** With `d > 0` the text ends in a '.' and `d` digits, and has a digit
      before the point. */
  lemma FixedTail(x: real, d: nat)
    requires d > 0
    ensures var r := ToFixed(x, d);
      |r| >= d + 2 && r[|r| - d - 1] == '.' && IsDigit(r[|r| - d - 2])
      && forall i | |r| - d <= i < |r| :: IsDigit(r[i])
  {
    ToFixedForm(x, d);
    var n := ScaledRound(if x < 0.0 then -x else x, d);
    PointTail(if x < 0.0 then "-" else "", FixedWhole(n, d), FixedFraction(n, d));
  }

  /** A number that is not negative prints with a digit first. */
  lemma FixedUnsigned(x: real, d: nat)
    requires x >= 0.0
    ensures IsDigit(ToFixed(x, d)[0])
  {
    ToFixedForm(x, d);
    var n := ScaledRound(if x < 0.0 then -x else x, d);
    LeadDigit(if x < 0.0 then "-" else "", FixedWhole(n, d), if d > 0 then "." else "", FixedFraction(n, d));
  }

  /** Canonical digits with no sign in front lead the text with a digit. */
  lemma LeadDigit(sign: string, w: string, dot: string, f: string)
    requires sign == [] && Canonical(w)
    ensures IsDigit((sign + w + dot + f)[0])
  {
    assert (sign + w + dot + f)[0] == w[0];
  }

  /** A sign, digits, a '.' and more digits end in the point and those digits. */
  lemma PointTail(sign: string, w: string, f: string)
    requires w != [] && IsDigit(w[|w| - 1]) && AllDigits(f)
    ensures var r := sign + w + "." + f;
      |r| >= |f| + 2 && r[|r| - |f| - 1] == '.' && IsDigit(r[|r| - |f| - 2])
      && forall i | |r| - |f| <= i < |r| :: IsDigit(r[i])
  {
    var r := sign + w + "." + f;
    assert r[|r| - |f| - 2] == w[|w| - 1];
    assert forall i | |r| - |f| <= i < |r| :: r[i] == f[i - (|r| - |f|)];
  }

  /** Inserting the point cuts the digits before their last `d`. */
  lemma InsertPointSplit(digits: string, d: nat)
    requires |digits| > d
    ensures InsertPoint(digits, d)
      == digits[..|digits| - d] + (if d > 0 then "." else "") + digits[|digits| - d..]
  {
    if d == 0 {
      assert digits[..|digits|] == digits && digits[|digits|..] == [];
    }
  }

  /** The whole digits are canonical, the fraction has `d` digits, and
      together they spell `n`. */
  lemma FixedDigits(n: nat, d: nat)
    ensures var w, f := FixedWhole(n, d), FixedFraction(n, d);
      Canonical(w) && AllDigits(f) && |f| == d
      && DigitsValue(w) * Pow10(d) + DigitsValue(f) == n && DigitsValue(f) < Pow10(d)
  {
    PaddedLead(n, d);
    PaddedValue(n, d);
  }

  /** The digits of `n` padded to `d + 1` places, cut before the last `d`,
      leave a canonical front. */
  lemma PaddedLead(n: nat, d: nat)
    ensures var P := ZeroPad(NatText(n), d + 1);
      |P| > d && Canonical(P[..|P| - d])
  {
    var P := ZeroPad(NatText(n), d + 1);
    ZeroPadValue(NatText(n), d + 1);
    if |P| - d >= 2 {
      assert P == NatText(n);
      NatTextLead(n);
    }
  }

  /** The same cut splits the value of `n` into `10^d`s and a remainder. */
  lemma PaddedValue(n: nat, d: nat)
    ensures var P := ZeroPad(NatText(n), d + 1);
      |P| > d && AllDigits(P[..|P| - d]) && AllDigits(P[|P| - d..])
      && DigitsValue(P[..|P| - d]) * Pow10(d) + DigitsValue(P[|P| - d..]) == n
      && DigitsValue(P[|P| - d..]) < Pow10(d)
  {
    var P := ZeroPad(NatText(n), d + 1);
    ZeroPadValue(NatText(n), d + 1);
    CutValue(P, d);
  }

  /** Cutting a digit string before its last `d` digits splits its value into
      `10^d`s and a remainder below `10^d`. */
  lemma CutValue(P: string, d: nat)
    requires AllDigits(P) && |P| > d
    ensures AllDigits(P[..|P| - d]) && AllDigits(P[|P| - d..])
    ensures DigitsValue(P[..|P| - d]) * Pow10(d) + DigitsValue(P[|P| - d..]) == DigitsValue(P)
    ensures DigitsValue(P[|P| - d..]) < Pow10(d)
  {
    var W, F := P[..|P| - d], P[|P| - d..];
    assert W + F == P;
    DigitsValueAppend(W, F);
    DigitsValueBound(F);
  }

  /** The digits of a positive number do not start with a zero. */
  lemma {:induction false} NatTextLead(n: nat)
    requires n >= 1
    ensures NatText(n)[0] != '0'
  {
    if n >= 10 {
      NatTextLead(n / 10);
      assert NatText(n)[0] == NatText(n / 10)[0];
    }
  }

  /** A run of `k` digits is worth less than `10^k`. */
  lemma {:induction false} DigitsValueBound(ds: string)
    requires AllDigits(ds)
    ensures DigitsValue(ds) < Pow10(|ds|)
  {
    if ds != [] {
      var a := ds[..|ds| - 1];
      DigitsValueBound(a);
      assert DigitsValue(ds) <= (Pow10(|a|) - 1) * 10 + 9;
    }
  }

  /** The number `ToFixed(x, d)` denotes. */
  function Rounded(x: real, d: nat): real {
    var v := Shift(ScaledRound(if x < 0.0 then -x else x, d) as real, d);
    if x < 0.0 then -v else v
  }

  /** What `toFixed` prints reads back under `parseFloat` as `Rounded(x, d)`,
      and that is within half a unit of the last printed digit of `x`
      (`Shift(0.5, d)` is `0.5 / 10^d`). */
  lemma ToFixedRoundTrip(x: real, d: nat)
    ensures ParseFloat(ToFixed(x, d)) == Some(Rounded(x, d))
    ensures -Shift(0.5, d) <= Rounded(x, d) - x <= Shift(0.5, d)
  {
    ToFixedParses(x, d);
    RoundedClose(x, d);
  }

  /** `parseFloat` reads `ToFixed(x, d)` back as `Rounded(x, d)`. */
  lemma ToFixedParses(x: real, d: nat)
    ensures ParseFloat(ToFixed(x, d)) == Some(Rounded(x, d))
  {
    var neg := x < 0.0;
    var n := ScaledRound(if neg then -x else x, d);
    var v := Shift(n as real, d);
    var body := InsertPoint(ZeroPad(NatText(n), d + 1), d);
    FixedBodyParses(n, d);
    assert ToFixed(x, d) == (if neg then "-" else "") + body;
    assert Rounded(x, d) == if neg then -v else v;
    SignedParse(neg, body, v);
  }

  /** The unsigned part of `toFixed`'s output reads back as `n / 10^d`. */
  lemma FixedBodyParses(n: nat, d: nat)
    ensures var body := InsertPoint(ZeroPad(NatText(n), d + 1), d);
      body != [] && IsDigit(body[0]) && ParseUnsigned(body) == Some(Shift(n as real, d))
  {
    var digits := ZeroPad(NatText(n), d + 1);
    ZeroPadValue(NatText(n), d + 1);
    InsertPointParses(digits, d);
  }

  /** `Rounded(x, d)` is within half a unit of the last digit of `x`. */
  lemma RoundedClose(x: real, d: nat)
    ensures -Shift(0.5, d) <= Rounded(x, d) - x <= Shift(0.5, d)
  {
    var m := if x < 0.0 then -x else x;
    var n := ScaledRound(m, d);
    RoundingError(m, d, n);
    var v := Shift(n as real, d);
    if x < 0.0 {
      assert Rounded(x, d) - x == -(v - m);
    } else {
      assert Rounded(x, d) - x == v - m;
    }
  }

  /** Rounding `m * 10^d` to the nearest whole `n` puts `n / 10^d` within
      `0.5 / 10^d` of `m`. */
  lemma RoundingError(m: real, d: nat, n: int)
    requires n as real <= Unshift(m, d) + 0.5 < n as real + 1.0
    ensures -Shift(0.5, d) <= Shift(n as real, d) - m <= Shift(0.5, d)
  {
    var u := Unshift(m, d);
    ShiftUnshift(m, d);
    ShiftSub(n as real, u, d);
    ShiftMono(n as real - u, 0.5, d);
    ShiftMono(-0.5, n as real - u, d);
    ShiftSub(0.0, 0.5, d);
    ShiftZero(d);
  }

  /** Moving the point left undoes moving it right. */
  lemma {:induction false} ShiftUnshift(v: real, d: nat)
    ensures Shift(Unshift(v, d), d) == v
  {
    if d > 0 {
      ShiftUnshift(v, d - 1);
      assert Unshift(v, d) / 10.0 == Unshift(v, d - 1);
    }
  }

  /** Moving the point distributes over a difference. */
  lemma {:induction false} ShiftSub(a: real, b: real, d: nat)
    ensures Shift(a - b, d) == Shift(a, d) - Shift(b, d)
    decreases d
  {
    if d > 0 {
      ShiftSub(a / 10.0, b / 10.0, d - 1);
      assert (a - b) / 10.0 == a / 10.0 - b / 10.0;
    }
  }

  /** Moving the point keeps the order. */
  lemma {:induction false} ShiftMono(a: real, b: real, d: nat)
    requires a <= b
    ensures Shift(a, d) <= Shift(b, d)
    decreases d
  {
    if d > 0 {
      ShiftMono(a / 10.0, b / 10.0, d - 1);
    }
  }

  /** Moving the point keeps a positive number positive. */
  lemma {:induction false} ShiftPositive(v: real, d: nat)
    requires v > 0.0
    ensures Shift(v, d) > 0.0
    decreases d
  {
    if d > 0 {
      ShiftPositive(v / 10.0, d - 1);
    }
  }

  lemma {:induction false} ShiftZero(d: nat)
    ensures Shift(0.0, d) == 0.0
  {
    if d > 0 {
      ShiftZero(d - 1);
    }
  }

  /** Zero padding does not change the value of a digit string. */
  lemma {:induction false} ZeroPadValue(ds: string, width: nat)
    requires AllDigits(ds)
    ensures AllDigits(ZeroPad(ds, width)) && DigitsValue(ZeroPad(ds, width)) == DigitsValue(ds)
  {
    if |ds| < width {
      var z := seq(width - |ds|, _ => '0');
      ZerosValue(z);
      DigitsValueAppend(z, ds);
    }
  }

  lemma {:induction false} ZerosValue(z: string)
    requires forall i :: 0 <= i < |z| ==> z[i] == '0'
    ensures AllDigits(z) && DigitsValue(z) == 0
  {
    if z != [] {
      ZerosValue(z[..|z| - 1]);
    }
  }

  /** Reading `a + b` is reading `a` shifted by the length of `b`, plus `b`. */
  lemma {:induction false} DigitsValueAppend(a: string, b: string)
    requires AllDigits(a) && AllDigits(b)
    ensures AllDigits(a + b)
    ensures DigitsValue(a + b) == DigitsValue(a) * Pow10(|b|) + DigitsValue(b)
    decreases |b|
  {
    if b == [] {
      assert a + b == a;
    } else {
      var b' := b[..|b| - 1];
      var last := DigitValue(b[|b| - 1]);
      assert (a + b)[..|a + b| - 1] == a + b';
      DigitsValueAppend(a, b');
      var va, vb', q := DigitsValue(a), DigitsValue(b'), Pow10(|b'|);
      assert DigitsValue(a + b) == (va * q + vb') * 10 + last;
      assert DigitsValue(b) == vb' * 10 + last;
      assert Pow10(|b|) == q * 10;
      ShiftDigits(va, q, vb', last);
    }
  }

  /** Appending one digit to `a*q + v` scales `a`'s share by ten. */
  lemma ShiftDigits(a: int, q: int, v: int, last: int)
    ensures (a * q + v) * 10 + last == a * (q * 10) + (v * 10 + last)
  {
    calc {
      (a * q + v) * 10 + last;
      (a * q) * 10 + v * 10 + last;
      a * (q * 10) + (v * 10 + last);
    }
  }

  /** Leading digits stop at the first non-digit. */
  lemma {:induction false} LeadingDigitsOf(a: string, t: string)
    requires AllDigits(a)
    requires t == [] || !IsDigit(t[0])
    ensures LeadingDigits(a + t) == a
    decreases |a|
  {
    if a == [] {
      assert a + t == t;
    } else {
      assert (a + t)[1..] == a[1..] + t;
      LeadingDigitsOf(a[1..], t);
      assert a == [a[0]] + a[1..];
    }
  }

  /** A digit string with its point inserted reads back as its value over `10^d`. */
  lemma InsertPointParses(digits: string, d: nat)
    requires AllDigits(digits) && |digits| > d
    ensures IsDigit(InsertPoint(digits, d)[0])
    ensures ParseUnsigned(InsertPoint(digits, d)) == Some(Shift(DigitsValue(digits) as real, d))
  {
    if d == 0 {
      WholeParses(digits);
    } else {
      var k := |digits| - d;
      var a, b := digits[..k], digits[k..];
      assert digits == a + b;
      assert InsertPoint(digits, d) == a + ("." + b);
      assert |b| == d;
      SplitParses(a, b);
    }
  }

  /** A digit string with no point reads back as its whole-number value. */
  lemma WholeParses(digits: string)
    requires AllDigits(digits) && digits != []
    ensures IsDigit(digits[0])
    ensures ParseUnsigned(digits) == Some(Shift(DigitsValue(digits) as real, 0))
  {
    assert digits + [] == digits;
    ParseUnsignedOf(digits, digits, [], []);
  }

  /** Whole digits `a`, a point, then fraction digits `b` read back as `(a ++ b) / 10^|b|`. */
  lemma SplitParses(a: string, b: string)
    requires AllDigits(a) && AllDigits(b) && a != []
    ensures IsDigit((a + ("." + b))[0])
    ensures ParseUnsigned(a + ("." + b)) == Some(Shift(DigitsValue(a + b) as real, |b|))
  {
    assert ("." + b)[1..] == b;
    LeadingDigitsOf(b, []);
    assert b + [] == b;
    ParseUnsignedOf(a + ("." + b), a, "." + b, b);
  }

  /** `parseFloat` past the sign, on a digit run followed by something that is
      not a digit and whose fraction digits are `frac`. */
  lemma ParseUnsignedOf(u: string, whole: string, rest: string, frac: string)
    requires AllDigits(whole) && whole != [] && u == whole + rest
    requires rest == [] || !IsDigit(rest[0])
    requires FractionDigits(rest) == frac
    ensures IsDigit(u[0])
    ensures AllDigits(whole + frac)
    ensures ParseUnsigned(u) == Some(Shift(DigitsValue(whole + frac) as real, |frac|))
  {
    LeadingDigitsOf(whole, rest);
    assert u[|whole|..] == rest;
  }

  /** A digit-led body, read with an optional leading minus. */
  lemma SignedParse(neg: bool, body: string, v: real)
    requires body != [] && IsDigit(body[0])
    requires ParseUnsigned(body) == Some(v)
    ensures ParseFloat((if neg then "-" else "") + body) == Some(if neg then -v else v)
  {
    if neg {
      NegativeParse(body, v);
    } else {
      assert "" + body == body;
      PositiveParse(body, v);
    }
  }

  /** A digit-led body with no sign reads back as it is. */
  lemma PositiveParse(body: string, v: real)
    requires body != [] && IsDigit(body[0])
    requires ParseUnsigned(body) == Some(v)
    ensures ParseFloat(body) == Some(v)
  {
    TrimStartNoSpace(body);
    assert !(body[0] == '-' || body[0] == '+');
    assert ParseFloat(body) == ParseUnsigned(body);
  }

  /** A digit-led body after a plus sign reads back as it is. */
  lemma PlusParse(body: string, v: real)
    requires body != [] && IsDigit(body[0])
    requires ParseUnsigned(body) == Some(v)
    ensures ParseFloat("+" + body) == Some(v)
  {
    var s := "+" + body;
    assert s[0] == '+' && s[1..] == body;
    TrimStartNoSpace(s);
    assert ParseUnsigned(s[1..]) == Some(v);
  }

  /** A digit-led body after a minus sign reads back negated. */
  lemma NegativeParse(body: string, v: real)
    requires body != [] && IsDigit(body[0])
    requires ParseUnsigned(body) == Some(v)
    ensures ParseFloat("-" + body) == Some(-v)
  {
    var s := "-" + body;
    assert s[0] == '-' && s[1..] == body;
    TrimStartNoSpace(s);
    assert ParseUnsigned(s[1..]) == Some(v);
  }

  /** A string that does not start with white space is its own `TrimStart`. */
  lemma TrimStartNoSpace(s: string)
    requires s != [] && !IsSpace(s[0])
    ensures TrimStart(s) == s
  {
  }
}
