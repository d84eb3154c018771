// JavaScript value conventions shared by every page and store of the client:
// optional values, truthiness, `||` / `??` chains, String.prototype.trim,
// ASCII case mapping, `replace(/\D/g, "")`, the e-mail pattern the forms use,
// and the decimal form of integers that template strings produce.

module Js {

  /** A value that may be null or undefined. */
  datatype Option<T> = None | Some(value: T)

  /** A number as `Number(...)` yields it: NaN, or a finite value. */
  datatype JsNumber = NaN | Num(value: real)

  /** What `new URL(...)` exposes, once it has parsed a string. */
  datatype Url = Url(protocol: string, origin: string, pathname: string,
                     search: string, hash: string, query: map<string, string>)

  /** `new URL(s)`: None when the constructor throws. */
  type UrlParser = string -> Option<Url>

  // ---------------------------------------------------------------- truthiness

  /** JavaScript truthiness of an optional string: null, undefined and "" are falsy. */
  predicate Truthy(o: Option<string>) {
    o.Some? && o.value != ""
  }

  /** `a || b` on optional strings. */
  function Or(a: Option<string>, b: Option<string>): Option<string> {
    if Truthy(a) then a else b
  }

  /** `a || d` where `d` is a string literal. */
  function OrElse(a: Option<string>, d: string): string {
    if Truthy(a) then a.value else d
  }

  /** `a ?? b`: only null and undefined fall through. */
  function Coalesce<T>(a: Option<T>, b: Option<T>): Option<T> {
    if a.Some? then a else b
  }

  /** `String(v ?? "")` / `v || ""` for an optional string. */
  function Str(o: Option<string>): string {
    if o.Some? then o.value else ""
  }

  // ---------------------------------------------------------------- whitespace and trim

  /** The characters JavaScript's `\s` and `trim` treat as white space. */
  predicate IsSpace(c: char) {
    c == ' ' || c == '\t' || c == '\n' || c == '\r' || c == '\U{000B}' || c == '\U{000C}'
    || c == '\U{00A0}' || c == '\U{1680}' || ('\U{2000}' <= c <= '\U{200A}')
    || c == '\U{2028}' || c == '\U{2029}' || c == '\U{202F}' || c == '\U{205F}'
    || c == '\U{3000}' || c == '\U{FEFF}'
  }

  predicate NoSpace(s: string) {
    forall i :: 0 <= i < |s| ==> !IsSpace(s[i])
  }

  /** `s` does not begin or end with white space. */
  predicate Trimmed(s: string) {
    s == [] || (!IsSpace(s[0]) && !IsSpace(s[|s| - 1]))
  }

  /** Drops the leading white space; what is dropped is all white space. */
  function TrimStart(s: string): string {
    if s != [] && IsSpace(s[0]) then TrimStart(s[1..]) else s
  }

  lemma {:induction false} TrimStartDrops(s: string)
    ensures var r := TrimStart(s);
            |r| <= |s| && r == s[|s| - |r|..] && (r == [] || !IsSpace(r[0]))
            && forall i :: 0 <= i < |s| - |r| ==> IsSpace(s[i])
  {
    if s != [] && IsSpace(s[0]) {
      TrimStartDrops(s[1..]);
    }
  }

  /** Drops the trailing white space; what is dropped is all white space. */
  function TrimEnd(s: string): string {
    if s != [] && IsSpace(s[|s| - 1]) then TrimEnd(s[..|s| - 1]) else s
  }

  lemma {:induction false} TrimEndDrops(s: string)
    ensures var r := TrimEnd(s);
            |r| <= |s| && r == s[..|r|] && (r == [] || !IsSpace(r[|r| - 1]))
            && forall i :: |r| <= i < |s| ==> IsSpace(s[i])
  {
    if s != [] && IsSpace(s[|s| - 1]) {
      TrimEndDrops(s[..|s| - 1]);
    }
  }

  /** `String.prototype.trim`. */
  function Trim(s: string): string {
    TrimEnd(TrimStart(s))
  }

  /** Trim yields a slice of its input with white space, and only white space, removed at both ends. */
  lemma TrimIsSlice(s: string)
    ensures Trimmed(Trim(s))
    ensures exists a, b ::
              (0 <= a <= b <= |s| && Trim(s) == s[a..b]
               && (forall i :: 0 <= i < a ==> IsSpace(s[i]))
               && (forall i :: b <= i < |s| ==> IsSpace(s[i])))
  {
    var t := TrimStart(s);
    var r := TrimEnd(t);
    TrimStartDrops(s);
    TrimEndDrops(t);
    var a := |s| - |t|;
    assert r == s[a..a + |r|];
    if r != [] {
      assert r[0] == t[0];
    }
  }

  /** Trimming an already trimmed string changes nothing. */
  lemma {:induction false} TrimNoop(s: string)
    requires Trimmed(s)
    ensures Trim(s) == s
  {
    assert TrimStart(s) == s;
  }

  lemma TrimIdempotent(s: string)
    ensures Trim(Trim(s)) == Trim(s)
  {
    TrimIsSlice(s);
    TrimNoop(Trim(s));
  }

  // ---------------------------------------------------------------- case

  function LowerChar(c: char): char {
    if 'A' <= c <= 'Z' then (c as int + 32) as char else c
  }

  function UpperChar(c: char): char {
    if 'a' <= c <= 'z' then (c as int - 32) as char else c
  }

  /** `toLowerCase`, on the ASCII letters. */
  function ToLower(s: string): (r: string)
    ensures |r| == |s|
    ensures forall i :: 0 <= i < |s| ==> r[i] == LowerChar(s[i])
  {
    seq(|s|, i requires 0 <= i < |s| => LowerChar(s[i]))
  }

  /** `toUpperCase`, on the ASCII letters. */
  function ToUpper(s: string): (r: string)
    ensures |r| == |s|
    ensures forall i :: 0 <= i < |s| ==> r[i] == UpperChar(s[i])
  {
    seq(|s|, i requires 0 <= i < |s| => UpperChar(s[i]))
  }

  lemma ToLowerIdempotent(s: string)
    ensures ToLower(ToLower(s)) == ToLower(s)
  {
  }

  /** Lower-casing keeps white space where it was, so it commutes with trim. */
  lemma {:induction false} ToLowerKeepsSpace(s: string)
    ensures forall i :: 0 <= i < |s| ==> (IsSpace(ToLower(s)[i]) <==> IsSpace(s[i]))
  {
    forall i | 0 <= i < |s|
      ensures IsSpace(ToLower(s)[i]) <==> IsSpace(s[i])
    {
      assert ToLower(s)[i] == LowerChar(s[i]);
    }
  }

  /** `String(x).trim().toLowerCase()`, the e-mail normalisation the forms and the auth store share. */
  function NormalizeEmail(s: string): string {
    ToLower(Trim(s))
  }

  /** A normalised address is a fixed point: trimming or lower-casing it again changes nothing. */
  lemma NormalizeEmailFixed(s: string)
    ensures Trim(NormalizeEmail(s)) == NormalizeEmail(s)
    ensures ToLower(NormalizeEmail(s)) == NormalizeEmail(s)
    ensures NormalizeEmail(NormalizeEmail(s)) == NormalizeEmail(s)
  {
    var t := Trim(s);
    TrimIsSlice(s);
    ToLowerKeepsSpace(t);
    assert Trimmed(ToLower(t));
    TrimNoop(ToLower(t));
    ToLowerIdempotent(t);
  }

  // ---------------------------------------------------------------- prefixes

  predicate StartsWith(s: string, p: string) {
    |p| <= |s| && s[..|p|] == p
  }

  predicate EndsWith(s: string, p: string) {
    |p| <= |s| && s[|s| - |p|..] == p
  }

  predicate Contains(s: string, c: char) {
    exists i :: 0 <= i < |s| && s[i] == c
  }

  /** `/^https?:\/\//i.test(s)`. */
  predicate IsHttpUrl(s: string) {
    StartsWithIgnoringCase(s, "http://") || StartsWithIgnoringCase(s, "https://")
  }

  /** The test ignores case: it holds exactly when the lower-cased text starts with "http://" or "https://". */
  lemma IsHttpUrlIgnoresCase(s: string)
    ensures IsHttpUrl(s) <==> StartsWith(ToLower(s), "http://") || StartsWith(ToLower(s), "https://")
  {
  }

  /** `s` begins with the lower-case `p`, compared after lower-casing `s`. */
  predicate StartsWithIgnoringCase(s: string, p: string) {
    |p| <= |s| && forall i :: 0 <= i < |p| ==> LowerChar(s[i]) == p[i]
  }

  /** `/^https?:$/.test(url.protocol)`. */
  predicate HttpProtocol(u: Url) {
    u.protocol == "http:" || u.protocol == "https:"
  }

  // ---------------------------------------------------------------- digits

  predicate IsDigit(c: char) {
    '0' <= c <= '9'
  }

  predicate AllDigits(s: string) {
    forall i :: 0 <= i < |s| ==> IsDigit(s[i])
  }

  /** `String(v).replace(/\D/g, "")`: the digits of `s`, in order. */
  function DigitsOnly(s: string): (r: string)
    ensures AllDigits(r)
    ensures |r| <= |s|
  {
    if s == [] then []
    else (if IsDigit(s[0]) then [s[0]] else []) + DigitsOnly(s[1..])
  }

  /** `digitsOnly`: null and undefined become "". */
  function DigitsOf(v: Option<string>): string {
    if v.None? then "" else DigitsOnly(v.value)
  }

  /** Keeping the digits of a string that is only digits changes nothing; so `digitsOnly` is idempotent. */
  lemma {:induction false} DigitsOnlyKeepsDigits(s: string)
    ensures DigitsOnly(s) == s <==> AllDigits(s)
  {
    if s != [] {
      DigitsOnlyKeepsDigits(s[1..]);
      if !IsDigit(s[0]) {
        assert |DigitsOnly(s)| <= |s[1..]| < |s|;
      }
    }
  }

  lemma DigitsOnlyIdempotent(s: string)
    ensures DigitsOnly(DigitsOnly(s)) == DigitsOnly(s)
  {
    DigitsOnlyKeepsDigits(DigitsOnly(s));
  }

  /** `digitsOnly` is empty exactly when `s` holds no digit. */
  lemma {:induction false} DigitsOnlyEmpty(s: string)
    ensures DigitsOnly(s) == [] <==> forall i :: 0 <= i < |s| ==> !IsDigit(s[i])
  {
    if s != [] {
      DigitsOnlyEmpty(s[1..]);
      assert forall i :: 1 <= i < |s| ==> s[i] == s[1..][i - 1];
    }
  }

  /** `/^[0-9]{10,15}$/` on a digits-only string. */
  predicate PhoneLength(d: string) {
    AllDigits(d) && 10 <= |d| <= 15
  }

  // ---------------------------------------------------------------- searching

  /** The first index at or after `from` holding `c`. */
  function FirstIndex(s: string, c: char, from: nat): (r: Option<nat>)
    ensures r.Some? ==> from <= r.value < |s| && s[r.value] == c
                        && forall k :: from <= k < r.value ==> s[k] != c
    ensures r.None? ==> forall k :: from <= k < |s| ==> s[k] != c
    decreases |s| - from
  {
    if from >= |s| then None
    else if s[from] == c then Some(from)
    else FirstIndex(s, c, from + 1)
  }

  /** The last index below `bound` holding `c`. */
  function LastIndexBelow(s: string, c: char, bound: nat): (r: Option<nat>)
    requires bound <= |s|
    ensures r.Some? ==> r.value < bound && s[r.value] == c
                        && forall k :: r.value < k < bound ==> s[k] != c
    ensures r.None? ==> forall k :: 0 <= k < bound ==> s[k] != c
  {
    if bound == 0 then None
    else if s[bound - 1] == c then Some(bound - 1)
    else LastIndexBelow(s, c, bound - 1)
  }

  // ---------------------------------------------------------------- e-mail pattern

  /** What `/^\S+@\S+\.\S+$/` accepts: some non-blank text, an "@", some, a ".", some. */
  ghost predicate EmailShaped(s: string) {
    NoSpace(s) &&
    exists i, j :: 1 <= i && i + 2 <= j <= |s| - 2 && s[i] == '@' && s[j] == '.'
  }

  /** The pattern test, computed from the first "@" and the last "." that leaves a character after it. */
  predicate ValidEmail(s: string) {
    NoSpace(s) && |s| >= 1 &&
    var at := FirstIndex(s, '@', 1);
    var dot := LastIndexBelow(s, '.', |s| - 1);
    at.Some? && dot.Some? && at.value + 2 <= dot.value
  }

  lemma ValidEmailMatchesPattern(s: string)
    ensures ValidEmail(s) <==> EmailShaped(s)
  {
    if ValidEmail(s) {
      var i := FirstIndex(s, '@', 1).value;
      var j := LastIndexBelow(s, '.', |s| - 1).value;
      assert 1 <= i && i + 2 <= j <= |s| - 2 && s[i] == '@' && s[j] == '.';
    }
    if EmailShaped(s) {
      var i, j :| 1 <= i && i + 2 <= j <= |s| - 2 && s[i] == '@' && s[j] == '.';
      var at := FirstIndex(s, '@', 1);
      var dot := LastIndexBelow(s, '.', |s| - 1);
      assert at.Some? && at.value <= i;
      assert dot.Some? && dot.value >= j;
    }
  }

  // ---------------------------------------------------------------- decimal strings

  function DigitChar(d: nat): char
    requires d < 10
  {
    ('0' as int + d) as char
  }

  /** `String(n)` for a natural number. */
  function NatToString(n: nat): (r: string)
    ensures |r| >= 1 && AllDigits(r)
    decreases n
  {
    if n < 10 then [DigitChar(n)] else NatToString(n / 10) + [DigitChar(n % 10)]
  }

  /** `String(n)` for an integer. */
  function IntToString(n: int): string {
    if n < 0 then "-" + NatToString(-n) else NatToString(n)
  }

  /** The value of a string of decimal digits. */
  function ParseDigits(s: string): nat
    requires AllDigits(s)
  {
    if s == [] then 0 else 10 * ParseDigits(s[..|s| - 1]) + (s[|s| - 1] as int - '0' as int)
  }

  /** Reading back the decimal form of `n` gives `n`. */
  lemma {:induction false} NatToStringRoundTrip(n: nat)
    ensures ParseDigits(NatToString(n)) == n
    decreases n
  {
    var r := NatToString(n);
    if n >= 10 {
      NatToStringRoundTrip(n / 10);
      assert r[..|r| - 1] == NatToString(n / 10);
    }
  }

  /** A non-zero number never prints with a leading zero, so distinct numbers print differently. */
  lemma NatToStringInjective(m: nat, n: nat)
    requires NatToString(m) == NatToString(n)
    ensures m == n
  {
    NatToStringRoundTrip(m);
    NatToStringRoundTrip(n);
  }

  /** Two digit strings, each followed by text that opens with a non-digit, split the same way. */
  lemma DigitsThenRest(a: string, x: string, b: string, z: string)
    requires AllDigits(a) && AllDigits(b) && x != [] && z != [] && !IsDigit(x[0]) && !IsDigit(z[0])
    requires a + x == b + z
    ensures a == b && x == z
  {
    LeadingDigitsOf(a, x);
    LeadingDigitsOf(b, z);
    assert a == (a + x)[..|a|] && b == (b + z)[..|b|];
    assert x == (a + x)[|a|..] && z == (b + z)[|b|..];
  }

  /** The length of the run of digits `s` opens with. */
  function LeadingDigits(s: string): nat {
    if s != [] && IsDigit(s[0]) then 1 + LeadingDigits(s[1..]) else 0
  }

  lemma {:induction false} LeadingDigitsOf(a: string, x: string)
    requires AllDigits(a) && x != [] && !IsDigit(x[0])
    ensures LeadingDigits(a + x) == |a|
  {
    if a != [] {
      assert (a + x)[1..] == a[1..] + x;
      LeadingDigitsOf(a[1..], x);
    }
  }

  // ---------------------------------------------------------------- length

  /** `s.length`: JavaScript counts UTF-16 code units, so a character beyond U+FFFF counts twice. */
  function JsLength(s: string): (r: nat)
    ensures |s| <= r <= 2 * |s|
  {
    if s == [] then 0 else JsLength(s[..|s| - 1]) + (if s[|s| - 1] as int > 0xFFFF then 2 else 1)
  }

  /** A string of characters from the Basic Multilingual Plane has as many code units as characters. */
  lemma {:induction false} JsLengthOfBmp(s: string)
    requires forall i :: 0 <= i < |s| ==> s[i] as int <= 0xFFFF
    ensures JsLength(s) == |s|
  {
    if s != [] {
      JsLengthOfBmp(s[..|s| - 1]);
    }
  }
}
