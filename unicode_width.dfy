/** The display-width primitive that src/text.rs imports from the
    `unicode_width` crate (`UnicodeWidthStr::width`, the non-CJK variant).
    The crate measures a string as the sum of the widths of its characters,
    a character the table gives no width (a control character) counting 0. */
module UnicodeWidth {

  /** Number of terminal columns one character occupies: 0, 1 or 2.
      NUL, C0 and C1 controls are 0; the zero-width ranges and the wide
      East-Asian ranges below are an abbreviation of the crate's table;
      every other character is 1 column. */
  function CharWidth(c: char): (w: nat)
    ensures w <= 2
    ensures 0x20 <= c as int < 0x7F ==> w == 1
    ensures c as int < 0x20 || 0x7F <= c as int < 0xA0 ==> w == 0
  {
    var n := c as int;
    if n < 0x20 then 0
    else if n < 0x7F then 1
    else if n < 0xA0 then 0
    else if IsZeroWidth(n) then 0
    else if IsWide(n) then 2
    else 1
  }

  /** Combining marks and zero-width format characters (abbreviated). */
  predicate IsZeroWidth(n: int) {
    || 0x0300 <= n <= 0x036F   // combining diacritical marks
    || 0x0483 <= n <= 0x0489   // combining Cyrillic marks
    || 0x0591 <= n <= 0x05BD   // Hebrew points
    || 0x1160 <= n <= 0x11FF   // Hangul medial vowels and final consonants
    || 0x200B <= n <= 0x200F   // zero width space, (non-)joiners, direction marks
    || 0x302A <= n <= 0x302D   // ideographic tone marks
    || 0x3099 <= n <= 0x309A   // combining kana voiced sound marks
    || 0x20D0 <= n <= 0x20F0   // combining marks for symbols
    || 0xFE00 <= n <= 0xFE0F   // variation selectors
    || 0xFE20 <= n <= 0xFE2F   // combining half marks
  }

  /** Wide and full-width East-Asian characters (abbreviated). */
  predicate IsWide(n: int) {
    || 0x1100 <= n <= 0x115F   // Hangul leading consonants
    || 0x2E80 <= n <= 0x303E   // CJK radicals, punctuation
    || 0x3041 <= n <= 0x33FF   // kana, CJK symbols
    || 0x3400 <= n <= 0x4DBF   // CJK extension A
    || 0x4E00 <= n <= 0x9FFF   // CJK unified ideographs
    || 0xA000 <= n <= 0xA4CF   // Yi
    || 0xAC00 <= n <= 0xD7A3   // Hangul syllables
    || 0xF900 <= n <= 0xFAFF   // CJK compatibility ideographs
    || 0xFE30 <= n <= 0xFE4F   // CJK compatibility forms
    || 0xFF00 <= n <= 0xFF60   // full-width forms
    || 0xFFE0 <= n <= 0xFFE6   // full-width signs
    || IsWidePictograph(n)
    || 0x20000 <= n <= 0x2FFFD // CJK extensions B and later
    || 0x30000 <= n <= 0x3FFFD
  }

  /** The wide code points of the pictograph and emoticon blocks; the
      others there (thermometer, hot pepper, ...) are one column. */
  predicate IsWidePictograph(n: int) {
    || 0x1F300 <= n <= 0x1F320
    || 0x1F32D <= n <= 0x1F335
    || 0x1F337 <= n <= 0x1F37C
    || 0x1F37E <= n <= 0x1F393
    || 0x1F3A0 <= n <= 0x1F3CA
    || 0x1F3CF <= n <= 0x1F3D3
    || 0x1F3E0 <= n <= 0x1F3F0
    || n == 0x1F3F4
    || 0x1F3F8 <= n <= 0x1F43E
    || n == 0x1F440
    || 0x1F442 <= n <= 0x1F4FC
    || 0x1F4FF <= n <= 0x1F53D
    || 0x1F54B <= n <= 0x1F54E
    || 0x1F550 <= n <= 0x1F567
    || n == 0x1F57A
    || 0x1F595 <= n <= 0x1F596
    || n == 0x1F5A4
    || 0x1F5FB <= n <= 0x1F64F
  }

  /** Printable ASCII: every character one column wide. */
  predicate IsPrintableAscii(s: string) {
    forall i :: 0 <= i < |s| ==> 0x20 <= s[i] as int < 0x7F
  }

  /** `UnicodeWidthStr::width`: the sum of the character widths, so at most
      two columns per character, and exactly one per printable ASCII
      character. */
  function DisplayWidth(s: string): (w: nat)
    ensures w <= 2 * |s|
    ensures IsPrintableAscii(s) ==> w == |s|
  {
    if s == [] then 0 else CharWidth(s[0]) + DisplayWidth(s[1..])
  }

  /** Combining kana and ideographic tone marks take no column although
      they sit in wide blocks; neutral pictographs take one. */
  lemma MarksInWideBlocks()
    ensures CharWidth('\U{3099}') == 0 && CharWidth('\U{302A}') == 0
    ensures CharWidth('\U{1F321}') == 1 && CharWidth('\U{1F600}') == 2
  {
  }

  /** Measuring a concatenation is summing the measurements. */
  lemma {:induction false} DisplayWidthConcat(a: string, b: string)
    ensures DisplayWidth(a + b) == DisplayWidth(a) + DisplayWidth(b)
  {
    if a == [] {
      assert a + b == b;
    } else {
      assert (a + b)[1..] == a[1..] + b;
      DisplayWidthConcat(a[1..], b);
    }
  }
}
