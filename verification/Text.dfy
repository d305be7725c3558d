/** Text as Python sees it: a sequence of code points, surrogates included. */
module Text {
  type CodePoint = nat
  type Text = seq<CodePoint>

  const TAB: CodePoint := 9
  const NEWLINE: CodePoint := 10
  const CARRIAGE_RETURN: CodePoint := 13
  const SPACE: CodePoint := 32
  const BACKTICK: CodePoint := 96
  const TILDE: CodePoint := 126

  predicate IsSurrogate(c: CodePoint) {
    0xD800 <= c <= 0xDFFF
  }

  predicate IsAstral(c: CodePoint) {
    c > 0xFFFF
  }

  /** The characters Python's `str.isspace`, `str.strip` and `\s` agree on. */
  predicate IsSpace(c: CodePoint) {
    9 <= c <= 13 || 28 <= c <= 32 || c == 0x85 || c == 0xA0 || c == 0x1680 || 0x2000 <= c <= 0x200A
    || c == 0x2028 || c == 0x2029 || c == 0x202F || c == 0x205F || c == 0x3000
  }

  predicate IsBlank(s: Text) {
    forall i | 0 <= i < |s| :: IsSpace(s[i])
  }

  /** UTF-16 code units of one code point (section 2.1 of RFC 2781). */
  function CharUnits(c: CodePoint): (u: nat)
    ensures 1 <= u <= 2
  {
    if IsAstral(c) then 2 else 1
  }

  function Units(s: Text): (u: nat)
    ensures |s| <= u <= 2 * |s|
  {
    if s == [] then 0 else Units(s[..|s| - 1]) + CharUnits(s[|s| - 1])
  }

  lemma {:induction false} UnitsAppend(a: Text, b: Text)
    ensures Units(a + b) == Units(a) + Units(b)
  {
    if b == [] {
      assert a + b == a;
    } else {
      UnitsAppend(a, b[..|b| - 1]);
      assert (a + b)[..|a + b| - 1] == a + b[..|b| - 1];
    }
  }

  /** Code units of the slice `text[i..j]`, which the source reads off its table of offsets. */
  lemma UnitsSlice(text: Text, i: nat, j: nat)
    requires i <= j <= |text|
    ensures Units(text[..j]) == Units(text[..i]) + Units(text[i..j])
  {
    assert text[..j] == text[..i] + text[i..j];
    UnitsAppend(text[..i], text[i..j]);
  }

  function Concat(parts: seq<Text>): Text {
    if parts == [] then [] else parts[0] + Concat(parts[1..])
  }

  lemma {:induction false} ConcatAppend(parts: seq<Text>, last: Text)
    ensures Concat(parts + [last]) == Concat(parts) + last
  {
    if parts == [] {
      assert Concat([last]) == last + Concat([]);
    } else {
      ConcatAppend(parts[1..], last);
      assert (parts + [last])[1..] == parts[1..] + [last];
    }
  }
}
