/** Text as the program sees it: sequences of UTF-16 code units, with the trimming and bounding
    rules, decimal numerals, and the colon-separated identifiers built from them. */
module Texts {
  import opened Wrappers

  type CodeUnit = u: int | 0 <= u < 0x1_0000
  type Text = seq<CodeUnit>

  const COLON: CodeUnit := 58
  const SEPARATOR: CodeUnit := 0x1F  // the unit separator that joins digested parts

  /** An ASCII literal as code units. */
  function Ascii(s: string): (t: Text)
    ensures |t| == |s|
    ensures forall i {:trigger t[i]} :: 0 <= i < |t| ==> t[i] == UnitOf(s[i])
  {
    seq(|s|, i requires 0 <= i < |s| => UnitOf(s[i]))
  }

  function UnitOf(c: char): CodeUnit {
    if c <= '~' then c as int else 63
  }

  lemma AsciiHasNoColon(s: string)
    requires ':' !in s
    ensures COLON !in Ascii(s)
  {
    forall u | u in Ascii(s)
      ensures u != COLON
    {
      var i :| 0 <= i < |s| && Ascii(s)[i] == u;
      assert s[i] in s;
    }
  }

  lemma AsciiIsSafe(s: string)
    requires forall i :: 0 <= i < |s| ==> ' ' <= s[i] <= '~'
    ensures !HasUnsafeControl(Ascii(s))
  {
  }

  predicate IsSpace(u: CodeUnit) {
    || 9 <= u <= 13 || u == 0x20 || u == 0xA0 || u == 0x1680 || 0x2000 <= u <= 0x200A
    || u == 0x2028 || u == 0x2029 || u == 0x202F || u == 0x205F || u == 0x3000 || u == 0xFEFF
  }

  predicate IsUnsafeControl(u: CodeUnit) {
    u <= 8 || u == 11 || u == 12 || 14 <= u <= 31 || u == 127
  }

  predicate HasUnsafeControl(t: Text) {
    exists i :: 0 <= i < |t| && IsUnsafeControl(t[i])
  }

  predicate IsIdentifierUnit(u: CodeUnit) {
    || 48 <= u <= 57 || 65 <= u <= 90 || 97 <= u <= 122
    || u == 46 || u == 95 || u == 58 || u == 47 || u == 45
  }

  predicate IsIdentifier(t: Text) {
    1 <= |t| <= 256 && forall i :: 0 <= i < |t| ==> IsIdentifierUnit(t[i])
  }

  /** What randomUUID returns: 36 lower-case hexadecimal digits and dashes. */
  predicate IsUuid(t: Text) {
    |t| == 36 && forall i :: 0 <= i < |t| ==> 48 <= t[i] <= 57 || 97 <= t[i] <= 102 || t[i] == 45
  }
  type Uuid = t: Text | IsUuid(t) witness seq(36, _ => 48)

  /** What a SHA-256 hex digest is: 64 lower-case hexadecimal digits. */
  predicate IsDigest(t: Text) {
    |t| == 64 && forall i :: 0 <= i < |t| ==> 48 <= t[i] <= 57 || 97 <= t[i] <= 102
  }
  type Digest = t: Text | IsDigest(t) witness seq(64, _ => 48)

  function TrimStart(t: Text): Text {
    if t != [] && IsSpace(t[0]) then TrimStart(t[1..]) else t
  }

  function TrimEnd(t: Text): Text {
    if t != [] && IsSpace(t[|t| - 1]) then TrimEnd(t[..|t| - 1]) else t
  }

  function Trim(t: Text): Text {
    TrimEnd(TrimStart(t))
  }

  predicate Trimmed(t: Text) {
    t == [] || (!IsSpace(t[0]) && !IsSpace(t[|t| - 1]))
  }

  lemma TrimEndKeepsHead(t: Text)
    requires t == [] || !IsSpace(t[0])
    ensures TrimEnd(t) == [] || (!IsSpace(TrimEnd(t)[0]) && !IsSpace(TrimEnd(t)[|TrimEnd(t)| - 1]))
  {
  }

  lemma TrimStartHead(t: Text)
    ensures TrimStart(t) == [] || !IsSpace(TrimStart(t)[0])
  {
  }

  /** Trimming yields trimmed text and changes exactly the text that is not trimmed. */
  lemma TrimIsExact(t: Text)
    ensures Trimmed(Trim(t))
    ensures Trim(t) == t <==> Trimmed(t)
  {
    TrimStartHead(t);
    TrimEndKeepsHead(TrimStart(t));
  }

  lemma {:induction false} TrimStartIsPart(t: Text)
    ensures |TrimStart(t)| <= |t| && (HasUnsafeControl(TrimStart(t)) ==> HasUnsafeControl(t))
  {
    if t != [] && IsSpace(t[0]) {
      TrimStartIsPart(t[1..]);
      assert forall i :: 0 <= i < |t[1..]| ==> t[1..][i] == t[i + 1];
    }
  }

  lemma {:induction false} TrimEndIsPart(t: Text)
    ensures |TrimEnd(t)| <= |t| && (HasUnsafeControl(TrimEnd(t)) ==> HasUnsafeControl(t))
  {
    if t != [] && IsSpace(t[|t| - 1]) {
      TrimEndIsPart(t[..|t| - 1]);
      assert forall i :: 0 <= i < |t| - 1 ==> t[..|t| - 1][i] == t[i];
    }
  }

  /** Trimming makes a text no longer and brings no control character in. */
  lemma TrimIsSafe(t: Text)
    ensures |Trim(t)| <= |t| && (HasUnsafeControl(Trim(t)) ==> HasUnsafeControl(t))
  {
    TrimStartIsPart(t);
    TrimEndIsPart(TrimStart(t));
  }

  /** Bounded safe text: trimmed, not empty, within the bound and free of control characters. */
  function BoundedText<E>(value: Text, maximum: nat, failure: E): (r: Result<Text, E>)
    ensures r.Ok? ==> SafeText(r.value, maximum)
    ensures r.Ok? ==> r.value == Trim(value)
  {
    var text := Trim(value);
    if |text| == 0 || |text| > maximum || HasUnsafeControl(text) then Err(failure) else Ok(text)
  }

  predicate SafeText(t: Text, maximum: nat) {
    1 <= |t| <= maximum && !HasUnsafeControl(t)
  }

  lemma IdentifierIsTrimmed(t: Text)
    requires IsIdentifier(t)
    ensures Trim(t) == t && !HasUnsafeControl(t)
  {
    TrimIsExact(t);
  }

  lemma UuidIsIdentifier(t: Text)
    requires IsUuid(t)
    ensures IsIdentifier(t) && Trim(t) == t && !HasUnsafeControl(t)
  {
    IdentifierIsTrimmed(t);
  }

  function DropSpaces(t: Text): (r: Text)
    ensures |r| <= |t|
    ensures HasUnsafeControl(r) ==> HasUnsafeControl(t)
  {
    if t != [] && IsSpace(t[0]) then
      assert forall i :: 0 <= i < |t[1..]| ==> t[1..][i] == t[i + 1];
      DropSpaces(t[1..])
    else t
  }

  /** Every run of white space becomes one space. */
  function Collapse(t: Text): (r: Text)
    ensures |r| <= |t| && (t != [] ==> r != [])
    ensures HasUnsafeControl(r) ==> HasUnsafeControl(t)
    decreases |t|
  {
    if t == [] then [] else
      assert forall i :: 0 <= i < |t[1..]| ==> t[1..][i] == t[i + 1];
      var tail := Collapse(if IsSpace(t[0]) then DropSpaces(t[1..]) else t[1..]);
      var head: CodeUnit := if IsSpace(t[0]) then 0x20 else t[0];
      var r := [head] + tail;
      assert HasUnsafeControl(r) ==> IsUnsafeControl(head) || HasUnsafeControl(tail) by {
        forall i | 0 <= i < |r| && IsUnsafeControl(r[i])
          ensures IsUnsafeControl(head) || HasUnsafeControl(tail)
        {
          if i > 0 { assert IsUnsafeControl(tail[i - 1]); }
        }
      }
      r
  }

  /** Array.prototype.join. */
  function Join(parts: seq<Text>, separator: Text): Text {
    if |parts| == 0 then []
    else if |parts| == 1 then parts[0]
    else parts[0] + separator + Join(parts[1..], separator)
  }

  predicate StartsWith(t: Text, prefix: Text) {
    |prefix| <= |t| && t[..|prefix|] == prefix
  }

  // ----- decimal numerals and colon-separated identifiers -----

  predicate IsDigitUnit(u: CodeUnit) { 48 <= u <= 57 }

  function Decimal(n: nat): (t: Text)
    ensures |t| > 0 && forall i :: 0 <= i < |t| ==> IsDigitUnit(t[i])
  {
    if n < 10 then [48 + n] else Decimal(n / 10) + [48 + n % 10]
  }

  function DecimalValue(t: Text): nat
    requires forall i :: 0 <= i < |t| ==> IsDigitUnit(t[i])
  {
    if t == [] then 0 else
      assert IsDigitUnit(t[|t| - 1]);
      DecimalValue(t[..|t| - 1]) * 10 + (t[|t| - 1] as int - 48)
  }

  /** Reading a printed number gives the number back, so printing is injective. */
  lemma {:induction false} DecimalRoundTrip(n: nat)
    ensures DecimalValue(Decimal(n)) == n
  {
    if n < 10 {
      assert Decimal(n)[..0] == [];
    } else {
      DecimalRoundTrip(n / 10);
      assert Decimal(n)[..|Decimal(n)| - 1] == Decimal(n / 10);
    }
  }

  lemma DecimalInjective(m: nat, n: nat)
    requires Decimal(m) == Decimal(n)
    ensures m == n
  {
    DecimalRoundTrip(m);
    DecimalRoundTrip(n);
  }

  /** A text splits at its last colon in one way only. */
  lemma LastColonSplit(a: Text, b: Text, c: Text, d: Text)
    requires a + [COLON] + b == c + [COLON] + d
    requires COLON !in b && COLON !in d
    ensures a == c && b == d
  {
    var whole := a + [COLON] + b;
    assert whole[|a|] == COLON && whole[|c|] == COLON;
    assert forall i :: |a| < i < |whole| ==> whole[i] == b[i - |a| - 1];
    assert forall i :: |c| < i < |whole| ==> whole[i] == d[i - |c| - 1];
    assert a == whole[..|a|] && c == whole[..|c|];
    assert b == whole[|a| + 1..] && d == whole[|c| + 1..];
  }

  /** A text splits at its first colon in one way only. */
  lemma FirstColonSplit(a: Text, b: Text, c: Text, d: Text)
    requires a + [COLON] + b == c + [COLON] + d
    requires COLON !in a && COLON !in c
    ensures a == c && b == d
  {
    var whole := a + [COLON] + b;
    assert whole[|a|] == COLON && whole[|c|] == COLON;
    assert forall i :: 0 <= i < |a| ==> whole[i] == a[i];
    assert forall i :: 0 <= i < |c| ==> whole[i] == c[i];
    assert a == whole[..|a|] && c == whole[..|c|];
    assert b == whole[|a| + 1..] && d == whole[|c| + 1..];
  }
}
