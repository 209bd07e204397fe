/** getInt and getLongLong: integer request fields given as JSON numbers or as decimal strings. */
module IntegerField {
  import opened Wrappers
  import opened Json

  // ---- strtol and strtoll with base 10, section 7.22.1.4 of ISO C11; long has 64 bits ----

  /** The bytes a C string function sees: everything before the first NUL. */
  function CString(s: string): string {
    if s == [] || s[0] == 0 as char then [] else [s[0]] + CString(s[1..])
  }

  predicate IsSpace(c: char) {
    c == ' ' || '\t' <= c <= '\r'
  }

  predicate IsDigit(c: char) {
    '0' <= c <= '9'
  }

  predicate IsSign(c: char) {
    c == '+' || c == '-'
  }

  function DigitValue(c: char): nat
    requires IsDigit(c)
  {
    (c as int) - ('0' as int)
  }

  /** Length of the longest prefix of white space. */
  function Spaces(s: string): (n: nat)
    ensures n <= |s|
  {
    if s != [] && IsSpace(s[0]) then 1 + Spaces(s[1..]) else 0
  }

  /** Length of the longest prefix of digits. */
  function Digits(s: string): (n: nat)
    ensures n <= |s| && AllDigits(s[..n])
    ensures n < |s| ==> !IsDigit(s[n])
  {
    if s != [] && IsDigit(s[0]) then
      var n := Digits(s[1..]);
      assert s[..1 + n] == [s[0]] + s[1..][..n];
      1 + n
    else 0
  }

  predicate AllDigits(s: string) {
    forall i :: 0 <= i < |s| ==> IsDigit(s[i])
  }

  function Magnitude(digits: string): nat
    requires AllDigits(digits)
  {
    if digits == [] then 0
    else 10 * Magnitude(digits[..|digits| - 1]) + DigitValue(digits[|digits| - 1])
  }

  /** end is the index of the first unread byte, 0 when nothing was converted. */
  datatype Conversion = Conversion(value: Int64, end: nat, rangeError: bool)

  function Signed(negative: bool, magnitude: int): int {
    if negative then -magnitude else magnitude
  }

  /** Where the digits start: after the white space and one optional sign. */
  function Start(s: string): (n: nat)
    ensures Spaces(s) <= n <= |s|
  {
    var p := Spaces(s);
    if p < |s| && IsSign(s[p]) then p + 1 else p
  }

  function DigitsFrom(s: string): (digits: string)
    ensures AllDigits(digits)
  {
    var rest := s[Start(s)..];
    rest[..Digits(rest)]
  }

  function Strtoll(s: string): (c: Conversion)
    ensures c.end <= |s|
  {
    var sign, start, digits := Spaces(s), Start(s), DigitsFrom(s);
    if digits == [] then Conversion(0, 0, false)
    else
      var n := Signed(start > sign && s[sign] == '-', Magnitude(digits));
      var end := start + |digits|;
      if n < INT64_MIN then Conversion(INT64_MIN, end, true)
      else if n > INT64_MAX then Conversion(INT64_MAX, end, true)
      else Conversion(n, end, false)
  }

  // ---- the two field readers ----

  function ReadText(raw: string): Option<Int64> {
    if raw == "" then None
    else
      var s := CString(raw);
      var c := Strtoll(s);
      if c.rangeError || c.end == 0 || c.end != |s| then None else Some(c.value)
  }

  function GetLongLong(js: Object, key: string): Option<Int64> {
    if key !in js then None
    else
      match js[key]
      case Number(n) => Some(n)
      case Text(raw) => ReadText(raw)
      case _ => None
  }

  function GetInt(js: Object, key: string): Option<int> {
    if key !in js then None
    else
      match js[key]
      case Number(n) => if n < INT32_MIN || n > INT32_MAX then None else Some(n)
      case Text(raw) =>
        (match ReadText(raw)
         case Some(n) => if n < INT32_MIN || n > INT32_MAX then None else Some(n)
         case None => None)
      case _ => None
  }

  // ---- which texts are accepted ----

  /** raw, up to its first NUL, is white space, an optional sign and one or more digits for n. */
  predicate Spells(raw: string, spaces: string, sign: string, digits: string, n: int) {
    && CString(raw) == spaces + sign + digits
    && (forall i :: 0 <= i < |spaces| ==> IsSpace(spaces[i]))
    && (sign == "" || sign == "+" || sign == "-")
    && digits != "" && AllDigits(digits)
    && n == Signed(sign == "-", Magnitude(digits))
  }

  lemma {:induction false} SpacesOfPrefix(spaces: string, rest: string)
    requires forall i :: 0 <= i < |spaces| ==> IsSpace(spaces[i])
    requires rest != [] && !IsSpace(rest[0])
    ensures Spaces(spaces + rest) == |spaces|
  {
    if spaces == [] {
      assert spaces + rest == rest;
    } else {
      assert (spaces + rest)[1..] == spaces[1..] + rest;
      SpacesOfPrefix(spaces[1..], rest);
    }
  }

  lemma {:induction false} DigitsOfAll(digits: string)
    requires AllDigits(digits)
    ensures Digits(digits) == |digits|
  {
    if digits != [] {
      DigitsOfAll(digits[1..]);
    }
  }

  lemma {:induction false} SpacesAreSpaces(s: string)
    ensures forall i :: 0 <= i < Spaces(s) ==> IsSpace(s[i])
  {
    if s != [] && IsSpace(s[0]) {
      SpacesAreSpaces(s[1..]);
      forall i | 0 <= i < Spaces(s) ensures IsSpace(s[i]) {
        if i > 0 { assert s[i] == s[1..][i - 1]; }
      }
    }
  }

  lemma SignOfSpelledText(s: string, spaces: string, sign: string, digits: string)
    requires s == spaces + sign + digits
    requires forall i :: 0 <= i < |spaces| ==> IsSpace(spaces[i])
    requires sign == "" || sign == "+" || sign == "-"
    requires digits != "" && AllDigits(digits)
    ensures Spaces(s) == |spaces| && Start(s) == |spaces| + |sign|
    ensures s[|spaces|] == if sign == "" then digits[0] else sign[0]
  {
    var rest := sign + digits;
    assert s == spaces + rest;
    assert rest[0] == if sign == "" then digits[0] else sign[0];
    SpacesOfPrefix(spaces, rest);
    assert s[|spaces|] == rest[0];
  }

  lemma PartsOfSpelledText(s: string, spaces: string, sign: string, digits: string)
    requires s == spaces + sign + digits
    requires forall i :: 0 <= i < |spaces| ==> IsSpace(spaces[i])
    requires sign == "" || sign == "+" || sign == "-"
    requires digits != "" && AllDigits(digits)
    ensures Spaces(s) == |spaces| && Start(s) == |spaces| + |sign| && DigitsFrom(s) == digits
    ensures sign != "" ==> s[|spaces|] == sign[0]
  {
    SignOfSpelledText(s, spaces, sign, digits);
    assert s[|spaces| + |sign|..] == digits;
    DigitsOfAll(digits);
    assert digits[..|digits|] == digits;
  }

  lemma SpelledTextConverts(raw: string, spaces: string, sign: string, digits: string, n: int)
    requires Spells(raw, spaces, sign, digits, n)
    ensures Strtoll(CString(raw)).end == |CString(raw)| > 0
    ensures Strtoll(CString(raw)).rangeError <==> !(INT64_MIN <= n <= INT64_MAX)
    ensures INT64_MIN <= n <= INT64_MAX ==> Strtoll(CString(raw)).value == n
  {
    PartsOfSpelledText(CString(raw), spaces, sign, digits);
  }

  lemma AcceptedTextIsSpelled(raw: string)
    requires ReadText(raw).Some?
    ensures exists spaces, sign, digits :: Spells(raw, spaces, sign, digits, ReadText(raw).value)
  {
    var s := CString(raw);
    var p, start, digits := Spaces(s), Start(s), DigitsFrom(s);
    SpacesAreSpaces(s);
    assert s == s[..p] + s[p..start] + digits;
    assert Spells(raw, s[..p], s[p..start], digits, ReadText(raw).value);
  }

  /** A text is accepted as n exactly when it spells n and n fits in 64 bits. */
  lemma TextAcceptedExactly(raw: string, n: int)
    ensures ReadText(raw) == Some(n) <==>
            INT64_MIN <= n <= INT64_MAX && exists spaces, sign, digits :: Spells(raw, spaces, sign, digits, n)
  {
    if ReadText(raw) == Some(n) {
      AcceptedTextIsSpelled(raw);
    }
    forall spaces, sign, digits | INT64_MIN <= n <= INT64_MAX && Spells(raw, spaces, sign, digits, n)
      ensures ReadText(raw) == Some(n)
    {
      SpelledTextConverts(raw, spaces, sign, digits, n);
    }
  }

  // ---- decimal round trip ----

  function DecimalDigits(n: nat): (s: string)
    ensures s != "" && AllDigits(s) && Magnitude(s) == n
  {
    var last := [(('0' as int) + n % 10) as char];
    if n < 10 then
      assert last[..0] == "" && Magnitude("") == 0;
      last
    else
      var front := DecimalDigits(n / 10);
      assert (front + last)[..|front + last| - 1] == front;
      front + last
  }

  function Decimal(n: int): string {
    if n < 0 then "-" + DecimalDigits(-n) else DecimalDigits(n)
  }

  lemma {:induction false} CStringWithoutNul(s: string)
    requires forall i :: 0 <= i < |s| ==> s[i] != 0 as char
    ensures CString(s) == s
  {
    if s != [] {
      CStringWithoutNul(s[1..]);
    }
  }

  lemma DecimalSpells(n: int)
    ensures Spells(Decimal(n), "", if n < 0 then "-" else "", DecimalDigits(if n < 0 then -n else n), n)
  {
    CStringWithoutNul(Decimal(n));
  }

  /** Every n written in decimal is read back by the field readers exactly when it fits. */
  lemma DecimalFieldRoundTrip(js: Object, key: string, n: int)
    requires key in js && js[key] == Text(Decimal(n))
    ensures GetLongLong(js, key) == if INT64_MIN <= n <= INT64_MAX then Some(n) else None
    ensures GetInt(js, key) == if INT32_MIN <= n <= INT32_MAX then Some(n) else None
  {
    var sign := if n < 0 then "-" else "";
    var digits := DecimalDigits(if n < 0 then -n else n);
    DecimalSpells(n);
    SpelledTextConverts(Decimal(n), "", sign, digits, n);
  }

  /** For every member: getInt reads exactly what getLongLong reads and fits 32 bits. */
  lemma GetIntIsSmallLongLong(js: Object, key: string)
    ensures forall n :: GetInt(js, key) == Some(n) <==> GetLongLong(js, key) == Some(n) && IsInt32(n)
    ensures GetLongLong(js, key).Some? ==> key in js && (js[key].Number? || js[key].Text?)
  {
  }

  /** A JSON number and its decimal string are the same field. */
  lemma NumberAndTextAgree(js: Object, js': Object, key: string, n: Int64)
    requires key in js && js[key] == Number(n)
    requires key in js' && js'[key] == Text(Decimal(n))
    ensures GetLongLong(js, key) == GetLongLong(js', key) == Some(n)
    ensures GetInt(js, key) == GetInt(js', key)
  {
    DecimalFieldRoundTrip(js', key, n);
  }
}
