/**
 * What a JSON string means (section 7 of RFC 8259), which strings the extractors read as meant, and what
 * becomes of texts spelled by the logger and by the writer of the generated configurations.
 */
module JsonMeaning {
  import opened JsonScan
  import opened JsonText

  // ---------------------------------------------------------------------------
  // Texts as UTF-16
  // ---------------------------------------------------------------------------

  /** The code units of a character: one, or a surrogate pair. */
  function Units16(c: char): seq<int> {
    if c as int < 0x10000 then [c as int]
    else [0xD800 + (c as int - 0x10000) / 0x400, 0xDC00 + (c as int - 0x10000) % 0x400]
  }

  function Utf16(s: string): seq<int> {
    if s == "" then [] else Units16(s[0]) + Utf16(s[1..])
  }

  lemma Utf16More(c: char, s: string)
    ensures Utf16([c] + s) == Units16(c) + Utf16(s)
  {
    assert ([c] + s)[1..] == s;
  }

  // ---------------------------------------------------------------------------
  // The grammar of strings and their meaning
  // ---------------------------------------------------------------------------

  predicate IsHexDigit(c: char) { '0' <= c <= '9' || 'a' <= c <= 'f' || 'A' <= c <= 'F' }

  function HexDigitValue(c: char): int
    requires IsHexDigit(c)
  {
    if c <= '9' then c as int - '0' as int
    else if c <= 'F' then c as int - 'A' as int + 10
    else c as int - 'a' as int + 10
  }

  predicate IsShortEscape(c: char) {
    c == '"' || c == '\\' || c == '/' || c == 'b' || c == 'f' || c == 'n' || c == 'r' || c == 't'
  }

  /** The code unit that a short escape stands for. */
  function ShortEscape(c: char): int {
    if c == 'b' then 0x08
    else if c == 'f' then 0x0C
    else if c == 'n' then 0x0A
    else if c == 'r' then 0x0D
    else if c == 't' then 0x09
    else c as int
  }

  predicate FourDigits(us: seq<Unit>) {
    |us| >= 4 && forall i :: 0 <= i < 4 ==> us[i].Plain? && IsHexDigit(us[i].c)
  }

  function CodeUnit(us: seq<Unit>): int
    requires FourDigits(us)
  {
    0x1000 * HexDigitValue(us[0].c) + 0x100 * HexDigitValue(us[1].c)
    + 0x10 * HexDigitValue(us[2].c) + HexDigitValue(us[3].c)
  }

  /** String elements as the grammar has them: no bare control characters, and only its own escapes. */
  predicate WellSpelled(us: seq<Unit>) {
    us == [] ||
    match us[0]
    case Plain(c) => c != '"' && c != '\\' && !IsControl(c) && WellSpelled(us[1..])
    case Escaped(c) =>
      if c == 'u' then FourDigits(us[1..]) && WellSpelled(us[5..]) else IsShortEscape(c) && WellSpelled(us[1..])
  }

  /** The code units that the string stands for. */
  function Meaning(us: seq<Unit>): seq<int>
    requires WellSpelled(us)
  {
    if us == [] then []
    else match us[0]
      case Plain(c) => Units16(c) + Meaning(us[1..])
      case Escaped(c) =>
        if c == 'u' then [CodeUnit(us[1..])] + Meaning(us[5..]) else [ShortEscape(c)] + Meaning(us[1..])
  }

  lemma {:induction false} WellSpelledIsValid(us: seq<Unit>)
    requires WellSpelled(us)
    ensures ValidUnits(us)
  {
    if us != [] {
      if us[0] == Escaped('u') {
        WellSpelledIsValid(us[5..]);
        assert us == [us[0]] + us[1..][..4] + us[5..];
      } else {
        WellSpelledIsValid(us[1..]);
        assert us == [us[0]] + us[1..];
      }
    }
  }

  lemma {:induction false} SpelledConcat(s: seq<Unit>, t: seq<Unit>)
    requires WellSpelled(s) && WellSpelled(t)
    ensures WellSpelled(s + t) && Meaning(s + t) == Meaning(s) + Meaning(t)
  {
    hide CodeUnit, ShortEscape, Units16, IsControl, IsShortEscape;
    if s == [] {
      assert s + t == t;
    } else if s[0] == Escaped('u') {
      assert (s + t)[1..][..4] == s[1..][..4] && (s + t)[5..] == s[5..] + t;
      SameDigits(s[1..], (s + t)[1..]);
      SpelledConcat(s[5..], t);
    } else {
      assert (s + t)[1..] == s[1..] + t;
      SpelledConcat(s[1..], t);
    }
  }

  lemma SameDigits(s: seq<Unit>, t: seq<Unit>)
    requires FourDigits(s) && |t| >= 4 && s[..4] == t[..4]
    ensures FourDigits(t) && CodeUnit(t) == CodeUnit(s)
  {
    assert forall i :: 0 <= i < 4 ==> t[i] == t[..4][i] == s[i];
  }

  // ---------------------------------------------------------------------------
  // Which strings are read as meant
  // ---------------------------------------------------------------------------

  /** An escape that the reader does not make the right character of; a code unit escape always is one. */
  predicate IsForeign(f: char -> char, u: Unit) {
    u.Escaped? && (u.c == 'u' || f(u.c) as int != ShortEscape(u.c))
  }

  predicate NoForeign(f: char -> char, us: seq<Unit>) { forall i :: 0 <= i < |us| ==> !IsForeign(f, us[i]) }

  lemma NoForeignMore(f: char -> char, us: seq<Unit>)
    requires us != []
    ensures NoForeign(f, us) <==> !IsForeign(f, us[0]) && NoForeign(f, us[1..])
  {
    hide IsForeign;
    assert us == [us[0]] + us[1..];
  }

  /** Whatever it makes of single escapes, a reader reads a string as meant exactly if none is foreign to it. */
  lemma {:induction false} ReadsAsMeant(f: char -> char, us: seq<Unit>)
    requires WellSpelled(us) && forall c :: IsShortEscape(c) ==> f(c) as int < 0x10000
    ensures |Utf16(ReadWith(f, us))| >= |Meaning(us)|
    ensures Utf16(ReadWith(f, us)) == Meaning(us) <==> NoForeign(f, us)
    decreases |us|
  {
    hide NoForeign, Utf16, IsHexDigit, IsControl;
    if us == [] {
      NothingRead(f);
    } else {
      NoForeignMore(f, us);
      var rest := us[1..];
      Utf16More(ReadWith(f, us)[0], ReadWith(f, rest));
      if us[0] == Escaped('u') {
        ReadsAsMeant(f, us[5..]);
        CodeUnitGrows(f, us);
      } else {
        ReadsAsMeant(f, rest);
        SameFront(Units16(ReadWith(f, us)[0]), if us[0].Plain? then Units16(us[0].c) else [ShortEscape(us[0].c)],
                  Utf16(ReadWith(f, rest)), Meaning(rest));
      }
    }
  }

  lemma NothingRead(f: char -> char)
    ensures NoForeign(f, []) && Utf16(ReadWith(f, [])) == []
  {
  }

  /** A code unit escape is read as five characters. */
  lemma CodeUnitGrows(f: char -> char, us: seq<Unit>)
    requires us != [] && us[0] == Escaped('u') && WellSpelled(us)
    ensures |Utf16(ReadWith(f, us))| >= 5 + |Utf16(ReadWith(f, us[5..]))|
  {
    hide Units16;
    assert us == us[..5] + us[5..];
    ReadConcat(f, us[..5], us[5..]);
    ReadLength(f, us[..5]);
    Utf16Length(ReadWith(f, us[..5]), ReadWith(f, us[5..]));
  }

  lemma {:induction false} ReadLength(f: char -> char, us: seq<Unit>)
    ensures |ReadWith(f, us)| == |us|
  {
    if us != [] {
      ReadLength(f, us[1..]);
    }
  }

  lemma {:induction false} Utf16Length(s: string, t: string)
    ensures |Utf16(s + t)| >= |s| + |Utf16(t)|
  {
    if s == "" {
      assert s + t == t;
    } else {
      assert (s + t)[1..] == s[1..] + t;
      Utf16Length(s[1..], t);
    }
  }

  lemma SameFront(a: seq<int>, b: seq<int>, s: seq<int>, t: seq<int>)
    requires |a| == |b| && |s| >= |t|
    ensures a + s == b + t <==> a == b && s == t
    ensures |a + s| >= |b + t|
  {
    if a + s == b + t {
      assert a == (a + s)[..|a|] && s == (a + s)[|a|..] && b == (b + t)[..|a|] && t == (b + t)[|a|..];
    }
  }

  /** The escapes that the extractors misread. */
  predicate HasMisread(us: seq<Unit>) {
    exists i :: 0 <= i < |us| && (us[i] == Escaped('b') || us[i] == Escaped('f') || us[i] == Escaped('u'))
  }

  /** The extractors read a string as meant exactly if it has no backspace, form feed or code unit escape. */
  lemma ExtractorReadsAsMeant(us: seq<Unit>)
    requires WellSpelled(us)
    ensures Utf16(ReadUnits(us)) == Meaning(us) <==> !HasMisread(us)
  {
    ReadsAsMeant(UnescapeChar, us);
    ForeignToExtractor(us);
  }

  lemma {:induction false} ShortEscapesOnly(us: seq<Unit>)
    requires WellSpelled(us)
    ensures forall i :: 0 <= i < |us| && us[i].Escaped? && us[i].c != 'u' ==> IsShortEscape(us[i].c)
    decreases |us|
  {
    hide IsShortEscape, IsHexDigit;
    if us != [] {
      var k := if us[0] == Escaped('u') then 5 else 1;
      ShortEscapesOnly(us[k..]);
      assert forall i :: k <= i < |us| ==> us[i] == us[k..][i - k];
      assert k == 5 ==> forall i :: 1 <= i < 5 ==> us[i] == us[1..][i - 1];
    }
  }

  lemma ForeignToExtractor(us: seq<Unit>)
    requires WellSpelled(us)
    ensures NoForeign(UnescapeChar, us) <==> !HasMisread(us)
  {
    ShortEscapesOnly(us);
    forall i | 0 <= i < |us|
      ensures IsForeign(UnescapeChar, us[i]) <==>
        us[i] == Escaped('b') || us[i] == Escaped('f') || us[i] == Escaped('u')
    {
    }
    hide IsForeign;
  }

  // ---------------------------------------------------------------------------
  // Two writers
  // ---------------------------------------------------------------------------

  /** A code unit in four lower-case digits. */
  function CodeUnitEscape(v: int): seq<Unit>
    requires 0 <= v < 0x10000
  {
    [Escaped('u'), Plain(HexChar(v / 0x1000)), Plain(HexChar(v / 0x100 % 0x10)),
     Plain(HexChar(v / 0x10 % 0x10)), Plain(HexChar(v % 0x10))]
  }

  lemma HexCharIs(v: int)
    requires 0 <= v < 16
    ensures IsHexDigit(HexChar(v)) && HexDigitValue(HexChar(v)) == v
  {
  }

  lemma DigitsAddUp(v: int)
    requires 0 <= v < 0x10000
    ensures 0x1000 * (v / 0x1000) + 0x100 * (v / 0x100 % 0x10) + 0x10 * (v / 0x10 % 0x10) + v % 0x10 == v
  {
    var a, b := v / 0x10, v / 0x100;
    assert v == 0x10 * a + v % 0x10;
    assert a == 0x10 * b + a % 0x10 && b == a / 0x10;
    assert b == 0x10 * (v / 0x1000) + b % 0x10;
  }

  lemma FourDigitsMean(a: char, b: char, c: char, d: char)
    requires IsHexDigit(a) && IsHexDigit(b) && IsHexDigit(c) && IsHexDigit(d)
    ensures var us := [Escaped('u'), Plain(a), Plain(b), Plain(c), Plain(d)];
      && WellSpelled(us)
      && Meaning(us) == [0x1000 * HexDigitValue(a) + 0x100 * HexDigitValue(b)
                         + 0x10 * HexDigitValue(c) + HexDigitValue(d)]
  {
    hide HexDigitValue, IsHexDigit;
    var us := [Escaped('u'), Plain(a), Plain(b), Plain(c), Plain(d)];
    assert us[5..] == [];
    assert forall i :: 0 <= i < 4 ==> us[1..][i] == us[i + 1];
  }

  lemma CodeUnitEscapeMeans(v: int)
    requires 0 <= v < 0x10000
    ensures WellSpelled(CodeUnitEscape(v)) && Meaning(CodeUnitEscape(v)) == [v]
  {
    hide HexChar, HexDigitValue, IsHexDigit, WellSpelled, Meaning;
    HexCharIs(v / 0x1000);
    HexCharIs(v / 0x100 % 0x10);
    HexCharIs(v / 0x10 % 0x10);
    HexCharIs(v % 0x10);
    DigitsAddUp(v);
    FourDigitsMean(
      HexChar(v / 0x1000), HexChar(v / 0x100 % 0x10), HexChar(v / 0x10 % 0x10), HexChar(v % 0x10));
  }

  lemma OneUnitMeans(u: Unit)
    requires if u.Plain? then u.c != '"' && u.c != '\\' && !IsControl(u.c) else IsShortEscape(u.c)
    ensures WellSpelled([u])
    ensures Meaning([u]) == if u.Plain? then Units16(u.c) else [ShortEscape(u.c)]
  {
    assert [u][1..] == [];
    assert Units16(u.c) + [] == Units16(u.c);
  }

  /** What the logger writes is well spelled and means the text that was logged. */
  lemma {:induction false} LoggerSpells(s: string)
    ensures WellSpelled(EscapeUnits(s)) && Meaning(EscapeUnits(s)) == Utf16(s)
  {
    hide WellSpelled, Meaning, UnitsOf, Units16;
    if s == "" {
      NothingSpelled();
    } else {
      LoggerSpells(s[1..]);
      LoggerChar(s[0]);
      SpelledConcat(UnitsOf(s[0]), EscapeUnits(s[1..]));
    }
  }

  lemma NothingSpelled()
    ensures WellSpelled([]) && Meaning([]) == []
  {
  }

  lemma LoggerChar(c: char)
    ensures WellSpelled(UnitsOf(c)) && Meaning(UnitsOf(c)) == Units16(c)
  {
    hide WellSpelled, Meaning, HexChar;
    if IsLossy(c) {
      CodeUnitEscapeMeans(c as int);
      assert HexChar(0) == '0' by { ZeroDigit(); }
    } else {
      OneUnitMeans(UnitsOf(c)[0]);
    }
  }

  lemma ZeroDigit()
    ensures HexChar(0) == '0'
  {
  }

  /** A character as Python's json module writes it by default, in which the configurations are generated. */
  function DumpChar(c: char): seq<Unit> {
    if c == '"' || c == '\\' then [Escaped(c)]
    else if c == '\n' then [Escaped('n')]
    else if c == '\r' then [Escaped('r')]
    else if c == '\t' then [Escaped('t')]
    else if c as int == 0x08 then [Escaped('b')]
    else if c as int == 0x0C then [Escaped('f')]
    else if ' ' <= c <= '~' then [Plain(c)]
    else if c as int < 0x10000 then CodeUnitEscape(c as int)
    else CodeUnitEscape(Units16(c)[0]) + CodeUnitEscape(Units16(c)[1])
  }

  function DumpUnits(s: string): seq<Unit> {
    if s == "" then [] else DumpChar(s[0]) + DumpUnits(s[1..])
  }

  /** Characters that the writer spells as the extractors read: printable ASCII, newline, return and tab. */
  predicate Survives(c: char) { ' ' <= c <= '~' || HasShortEscape(c) }

  lemma DumpCharMeans(c: char)
    ensures WellSpelled(DumpChar(c)) && Meaning(DumpChar(c)) == Units16(c)
  {
    hide WellSpelled, Meaning, CodeUnitEscape;
    if c as int >= 0x10000 {
      var high, low := Units16(c)[0], Units16(c)[1];
      CodeUnitEscapeMeans(high);
      CodeUnitEscapeMeans(low);
      SpelledConcat(CodeUnitEscape(high), CodeUnitEscape(low));
    } else if Survives(c) || c as int == 0x08 || c as int == 0x0C {
      OneUnitMeans(DumpChar(c)[0]);
    } else {
      CodeUnitEscapeMeans(c as int);
    }
  }

  lemma {:induction false} DumpMeans(s: string)
    ensures WellSpelled(DumpUnits(s)) && Meaning(DumpUnits(s)) == Utf16(s)
  {
    hide WellSpelled, Meaning, DumpChar, Units16;
    if s == "" {
      NothingSpelled();
    } else {
      DumpMeans(s[1..]);
      DumpCharMeans(s[0]);
      SpelledConcat(DumpChar(s[0]), DumpUnits(s[1..]));
    }
  }

  lemma DumpCharMisread(c: char)
    ensures !HasMisread(DumpChar(c)) <==> Survives(c)
    ensures Survives(c) ==> ReadUnits(DumpChar(c)) == [c]
  {
    if Survives(c) {
      assert DumpChar(c) == [DumpChar(c)[0]] + [];
      ReadFirst(DumpChar(c)[0], []);
    } else {
      var u := DumpChar(c)[0];
      assert u == Escaped('b') || u == Escaped('f') || u == Escaped('u');
    }
  }

  lemma MisreadConcat(s: seq<Unit>, t: seq<Unit>)
    ensures HasMisread(s + t) <==> HasMisread(s) || HasMisread(t)
  {
    assert forall i :: 0 <= i < |s| ==> (s + t)[i] == s[i];
    assert forall i :: 0 <= i < |t| ==> (s + t)[|s| + i] == t[i];
  }

  lemma {:induction false} DumpMisread(s: string)
    ensures !HasMisread(DumpUnits(s)) <==> forall i :: 0 <= i < |s| ==> Survives(s[i])
    ensures !HasMisread(DumpUnits(s)) ==> ReadUnits(DumpUnits(s)) == s
  {
    hide HasMisread, DumpChar, Survives;
    if s == "" {
      assert !HasMisread([]) by { NothingMisread(); }
    } else {
      DumpMisread(s[1..]);
      DumpCharMisread(s[0]);
      MisreadConcat(DumpChar(s[0]), DumpUnits(s[1..]));
      ReadConcat(UnescapeChar, DumpChar(s[0]), DumpUnits(s[1..]));
      assert s == [s[0]] + s[1..];
    }
  }

  lemma NothingMisread()
    ensures !HasMisread([])
  {
  }

  /** A text written into a generated configuration is read back exactly if all its characters survive. */
  lemma DumpReadsBack(s: string)
    ensures ReadUnits(DumpUnits(s)) == s <==> forall i :: 0 <= i < |s| ==> Survives(s[i])
  {
    hide HasMisread, Survives, Utf16, Meaning, WellSpelled, ReadUnits, DumpUnits;
    DumpMeans(s);
    DumpMisread(s);
    ExtractorReadsAsMeant(DumpUnits(s));
  }

  lemma AccentDigits()
    ensures CodeUnitEscape(0xE9) == [Escaped('u'), Plain('0'), Plain('0'), Plain('e'), Plain('9')]
  {
  }

  /** U+00E9, as such a configuration spells it, is read as five characters. */
  lemma AccentIsLost()
    ensures var us := [Escaped('u'), Plain('0'), Plain('0'), Plain('e'), Plain('9')];
      && DumpUnits([0xE9 as char]) == us && WellSpelled(us) && Meaning(us) == [0xE9]
      && ReadUnits(us) == "u00e9"
  {
    hide WellSpelled, Meaning, ReadUnits, CodeUnitEscape;
    AccentDigits();
    CodeUnitEscapeMeans(0xE9);
    HexReads('0', '0', 'e', '9');
    var accent := [0xE9 as char];
    assert accent[1..] == "" && DumpUnits("") == [];
    assert CodeUnitEscape(0xE9) + [] == CodeUnitEscape(0xE9);
  }
}
