/** The JavaScript string operations the core relies on: the emptiness test
    `s.trim() === ""`, ASCII `toLowerCase`, `includes`, `parseInt` and the
    decimal rendering of an id that a `<select>` option carries. */
module Text {
  import opened Common

  /** The characters `String.prototype.trim` removes: white space and line
      terminators as ECMAScript defines them. */
  predicate IsSpace(c: char) {
    c == ' ' || c == '\t' || c == '\n' || c == '\r' || c == '\U{B}' || c == '\U{C}'
    || c == '\U{A0}' || c == '\U{FEFF}' || c == '\U{1680}'
    || ('\U{2000}' <= c <= '\U{200A}')
    || c == '\U{2028}' || c == '\U{2029}' || c == '\U{202F}' || c == '\U{205F}' || c == '\U{3000}'
  }

  /** `s.trim()` is the empty string, i.e. `!s.trim()` holds. */
  predicate Blank(s: string) {
    forall i :: 0 <= i < |s| ==> IsSpace(s[i])
  }

  /** `s.trimStart()`: `s` without its leading white space. */
  function TrimStart(s: string): (r: string)
    ensures |r| <= |s| && r == s[|s| - |r|..]
    ensures r != "" ==> !IsSpace(r[0])
    ensures r == "" <==> Blank(s)
  {
    if s != [] && IsSpace(s[0]) then TrimStart(s[1..]) else s
  }

  /** ASCII lower-casing of one character. */
  function LowerChar(c: char): char {
    if 'A' <= c <= 'Z' then (c as int + 32) as char else c
  }

  /** `s.toLowerCase()`, restricted to ASCII letters. */
  function Lower(s: string): (r: string)
    ensures |r| == |s|
    ensures forall i :: 0 <= i < |s| ==> r[i] == LowerChar(s[i])
  {
    seq(|s|, i requires 0 <= i < |s| => LowerChar(s[i]))
  }

  /** `s.startsWith(q)`. */
  predicate StartsWith(s: string, q: string) {
    |q| <= |s| && s[..|q|] == q
  }

  /** `s.includes(q)`: `q` occurs in `s` at some position. */
  predicate Contains(s: string, q: string)
    decreases |s|
  {
    StartsWith(s, q) || (s != [] && Contains(s[1..], q))
  }

  /** `Contains` means an occurrence at some index. */
  lemma {:induction false} ContainsAt(s: string, q: string, k: nat)
    requires k + |q| <= |s| && s[k..k + |q|] == q
    ensures Contains(s, q)
  {
    if k > 0 {
      ContainsAt(s[1..], q, k - 1);
      assert s[1..][k - 1..k - 1 + |q|] == s[k..k + |q|];
    }
  }

  /** An occurrence of a non-empty `q` starts with a character of `s`. */
  lemma {:induction false} ContainsFirstChar(s: string, q: string)
    requires q != [] && Contains(s, q)
    ensures q[0] in s
    decreases |s|
  {
    if !StartsWith(s, q) {
      ContainsFirstChar(s[1..], q);
    }
  }

  // ---------------------------------------------------------------------
  // parseInt and decimal rendering

  /** The value of a digit character in bases up to 36; 36 for any other
      character, which is a digit in no base. */
  function DigitValue(c: char): (v: int)
    ensures 0 <= v <= 36
  {
    if '0' <= c <= '9' then c as int - '0' as int
    else if 'a' <= c <= 'z' then c as int - 'a' as int + 10
    else if 'A' <= c <= 'Z' then c as int - 'A' as int + 10
    else 36
  }

  predicate IsDigit(c: char, radix: int) {
    DigitValue(c) < radix
  }

  /** The longest prefix of `s` made of digits in `radix`. */
  function LeadingDigits(s: string, radix: int): (r: string)
    ensures |r| <= |s| && r == s[..|r|]
    ensures forall i :: 0 <= i < |r| ==> IsDigit(r[i], radix)
    ensures |r| < |s| ==> !IsDigit(s[|r|], radix)
  {
    if s != [] && IsDigit(s[0], radix) then [s[0]] + LeadingDigits(s[1..], radix) else []
  }

  /** The value of a digit string, most significant digit first. */
  function DigitsValue(ds: string, radix: int): (v: int)
    ensures radix >= 0 ==> v >= 0
    decreases |ds|
  {
    if ds == [] then 0
    else DigitsValue(ds[..|ds| - 1], radix) * radix + DigitValue(ds[|ds| - 1])
  }

  /** `parseInt(s)` with no radix argument: leading white space is skipped,
      one sign is read, a `0x`/`0X` prefix selects base 16, and the longest
      run of digits that follows is the value; no digits at all is `NaN`,
      here `None`. */
  function ParseInt(s: string): (r: Option<int>)
    ensures Blank(s) ==> r.None?
    ensures r.Some? && r.value < 0 ==> TrimStart(s)[0] == '-'
  {
    var t := TrimStart(s);
    var negative := t != [] && t[0] == '-';
    var u := if t != [] && (t[0] == '-' || t[0] == '+') then t[1..] else t;
    var hex := |u| >= 2 && u[0] == '0' && (u[1] == 'x' || u[1] == 'X');
    var radix := if hex then 16 else 10;
    var ds := LeadingDigits(if hex then u[2..] else u, radix);
    if ds == [] then None
    else if negative then Some(-DigitsValue(ds, radix))
    else Some(DigitsValue(ds, radix))
  }

  function DecimalDigit(d: nat): (c: char)
    requires d < 10
    ensures IsDigit(c, 10) && DigitValue(c) == d
  {
    ['0', '1', '2', '3', '4', '5', '6', '7', '8', '9'][d]
  }

  /** `String(n)` for a natural number: its decimal digits, no sign, no
      leading zero. */
  function ShowNat(n: nat): (s: string)
    ensures s != [] && forall i :: 0 <= i < |s| ==> IsDigit(s[i], 10)
    ensures s[0] == '0' ==> n == 0
    decreases n
  {
    if n < 10 then [DecimalDigit(n)] else ShowNat(n / 10) + [DecimalDigit(n % 10)]
  }

  lemma {:induction false} ShowNatValue(n: nat)
    ensures DigitsValue(ShowNat(n), 10) == n
    decreases n
  {
    if n >= 10 {
      ShowNatValue(n / 10);
      var s := ShowNat(n);
      assert s[..|s| - 1] == ShowNat(n / 10);
    }
  }

  /** A digit string is its own longest digit prefix. */
  lemma {:induction false} LeadingDigitsAll(s: string, radix: int)
    requires forall i :: 0 <= i < |s| ==> IsDigit(s[i], radix)
    ensures LeadingDigits(s, radix) == s
  {
    if s != [] {
      LeadingDigitsAll(s[1..], radix);
    }
  }

  lemma DecimalIsNotSpace(c: char)
    requires IsDigit(c, 10)
    ensures '0' <= c <= '9' && !IsSpace(c)
  {
  }

  /** An id rendered as an option value is read back by `parseInt`
      unchanged. */
  lemma ParseShowNat(n: nat)
    ensures ParseInt(ShowNat(n)) == Some(n)
  {
    var s := ShowNat(n);
    DecimalIsNotSpace(s[0]);
    assert TrimStart(s) == s;
    assert !(s[0] == '-' || s[0] == '+');
    assert !(|s| >= 2 && s[0] == '0');
    LeadingDigitsAll(s, 10);
    ShowNatValue(n);
  }
}
