/**
 * String values in JSON: the logger's escaping, the extractors' unescaping, and the extraction of
 * a directive list from a configuration text.
 */
module JsonText {
  import opened Prelude
  import opened Text
  import opened JsonScan

  // ---------------------------------------------------------------------------
  // Escaping
  // ---------------------------------------------------------------------------

  function HexChar(v: int): char
    requires 0 <= v < 16
  {
    if v < 10 then ('0' as int + v) as char else ('a' as int + (v - 10)) as char
  }

  predicate IsControl(c: char) { c as int < 0x20 }

  /** The control characters that have a short escape. */
  predicate HasShortEscape(c: char) { c == '\n' || c == '\r' || c == '\t' }

  function EscapeChar(c: char): string {
    if c == '"' then "\\\""
    else if c == '\\' then "\\\\"
    else if c == '\n' then "\\n"
    else if c == '\r' then "\\r"
    else if c == '\t' then "\\t"
    else if IsControl(c) then "\\u00" + [HexChar(c as int / 16), HexChar(c as int % 16)]
    else [c]
  }

  function Escape(s: string): string {
    if s == "" then "" else EscapeChar(s[0]) + Escape(s[1..])
  }

  lemma EscapeStep(done: string, s: string, i: nat)
    requires i < |s|
    ensures done + Escape(s[i..]) == done + EscapeChar(s[i]) + Escape(s[i + 1..])
  {
    assert s[i..][1..] == s[i + 1..];
  }

  method JsonEscape(s: string) returns (escaped: string)
    ensures escaped == Escape(s)
  {
    escaped := "";
    for i := 0 to |s|
      invariant escaped + Escape(s[i..]) == Escape(s)
    {
      EscapeStep(escaped, s, i);
      var piece := EscapeOne(s[i]);
      escaped := escaped + piece;
    }
  }

  method EscapeOne(c: char) returns (piece: string)
    ensures piece == EscapeChar(c)
  {
    match c
    case '"' => piece := "\\\"";
    case '\\' => piece := "\\\\";
    case '\n' => piece := "\\n";
    case '\r' => piece := "\\r";
    case '\t' => piece := "\\t";
    case _ =>
      if c as int < 0x20 {
        piece := "\\u00" + [HexChar(c as int / 16), HexChar(c as int % 16)];
      } else {
        piece := [c];
      }
  }

  /** Escaped text as elements of a JSON string. */
  function UnitsOf(c: char): seq<Unit> {
    if c == '"' then [Escaped('"')]
    else if c == '\\' then [Escaped('\\')]
    else if c == '\n' then [Escaped('n')]
    else if c == '\r' then [Escaped('r')]
    else if c == '\t' then [Escaped('t')]
    else if IsControl(c) then
      [Escaped('u'), Plain('0'), Plain('0'), Plain(HexChar(c as int / 16)), Plain(HexChar(c as int % 16))]
    else [Plain(c)]
  }

  function EscapeUnits(s: string): seq<Unit> {
    if s == "" then [] else UnitsOf(s[0]) + EscapeUnits(s[1..])
  }

  lemma {:induction false} PrintUnitsConcat(s: seq<Unit>, t: seq<Unit>)
    ensures PrintUnits(s + t) == PrintUnits(s) + PrintUnits(t)
  {
    if s == [] {
      assert s + t == t;
    } else {
      assert (s + t)[1..] == s[1..] + t;
      PrintUnitsConcat(s[1..], t);
    }
  }

  lemma PlainFirst(c: char, rest: seq<Unit>)
    ensures PrintUnits([Plain(c)] + rest) == [c] + PrintUnits(rest)
  {
    assert ([Plain(c)] + rest)[1..] == rest;
  }

  lemma CharUnits(c: char)
    ensures ValidUnits(UnitsOf(c)) && PrintUnits(UnitsOf(c)) == EscapeChar(c)
  {
    var us := UnitsOf(c);
    if |us| == 1 {
      assert us[1..] == [];
      assert us[0].Print() + "" == us[0].Print();
    } else {
      var h, l := HexChar(c as int / 16), HexChar(c as int % 16);
      var u4: seq<Unit> := [Plain(l)] + [];
      var u3 := [Plain(h)] + u4;
      var u2 := [Plain('0')] + u3;
      var u1 := [Plain('0')] + u2;
      PlainFirst(l, []);
      PlainFirst(h, u4);
      PlainFirst('0', u3);
      PlainFirst('0', u2);
      assert us[1..] == u1;
      assert PrintUnits(u1) == ['0', '0', h, l];
    }
  }

  lemma {:induction false} EscapeIsUnits(s: string)
    ensures ValidUnits(EscapeUnits(s)) && PrintUnits(EscapeUnits(s)) == Escape(s)
  {
    if s != "" {
      EscapeIsUnits(s[1..]);
      CharUnits(s[0]);
      PrintUnitsConcat(UnitsOf(s[0]), EscapeUnits(s[1..]));
    }
  }

  // ---------------------------------------------------------------------------
  // Unescaping
  // ---------------------------------------------------------------------------

  function UnescapeChar(c: char): char {
    if c == 'n' then '\n' else if c == 'r' then '\r' else if c == 't' then '\t' else c
  }

  /** The text up to the first unescaped quote, and how many characters it took (without the quote). */
  function ReadText(s: string, escape: bool): (string, nat)
    decreases |s|
  {
    if s == "" then ("", 0)
    else if escape then
      var (t, n) := ReadText(s[1..], false);
      ([UnescapeChar(s[0])] + t, n + 1)
    else if s[0] == '\\' then
      var (t, n) := ReadText(s[1..], true);
      (t, n + 1)
    else if s[0] == '"' then ("", 0)
    else
      var (t, n) := ReadText(s[1..], false);
      ([s[0]] + t, n + 1)
  }

  /** One round of it: what it adds to the text, and how it goes on. */
  lemma ReadRound(s: string, i: nat, escape: bool, text: string)
    requires i < |s| && (escape || s[i] != '"')
    ensures var starts := !escape && s[i] == '\\';
      var kept := if escape then [UnescapeChar(s[i])] else if starts then "" else [s[i]];
      var ((t, n), (t', n')) := (ReadText(s[i..], escape), ReadText(s[i + 1..], starts));
      n == n' + 1 && text + t == (text + kept) + t'
  {
    assert s[i..][1..] == s[i + 1..];
    assert text + "" == text;
  }

  /** The loop all extractors share: from just after the opening quote to the closing one. */
  method ReadStringAt(json: string, pos: nat) returns (text: string, end: nat)
    requires pos <= |json|
    ensures var (t, n) := ReadText(json[pos..], false); text == t && end == pos + n
    ensures pos <= end <= |json|
  {
    text, end := "", pos;
    var escape := false;
    while end < |json|
      invariant pos <= end <= |json|
      invariant var (t, n) := ReadText(json[pos..], false);
        var (t', n') := ReadText(json[end..], escape);
        t == text + t' && pos + n == end + n'
    {
      var c := json[end];
      if escape || c != '"' {
        ReadRound(json, end, escape, text);
        assert text + "" == text;
      }
      if escape {
        text := text + [UnescapeChar(c)];
        escape := false;
      } else if c == '\\' {
        escape := true;
      } else if c == '"' {
        return;
      } else {
        text := text + [c];
      }
      end := end + 1;
    }
  }

  predicate IsLossy(c: char) { IsControl(c) && !HasShortEscape(c) }

  /** What comes back of an escaped string: control characters without a short escape do not survive. */
  function BlurredChar(c: char): string {
    if IsLossy(c) then ['u', '0', '0', HexChar(c as int / 16), HexChar(c as int % 16)] else [c]
  }

  function Blurred(s: string): string {
    if s == "" then "" else BlurredChar(s[0]) + Blurred(s[1..])
  }

  lemma ReadPlain(c: char, rest: string)
    requires c != '"' && c != '\\'
    ensures ReadText([c] + rest, false) ==
      var (t, n) := ReadText(rest, false); ([c] + t, n + 1)
  {
    assert ([c] + rest)[1..] == rest;
  }

  lemma ReadEscaped(c: char, rest: string)
    ensures ReadText(['\\', c] + rest, false) ==
      var (t, n) := ReadText(rest, false); ([UnescapeChar(c)] + t, n + 2)
  {
    assert (['\\', c] + rest)[1..] == [c] + rest;
    assert ([c] + rest)[1..] == rest;
  }

  /** String elements read by a reader that makes one character of an escape. */
  function ReadWith(f: char -> char, us: seq<Unit>): string {
    if us == [] then "" else [if us[0].Escaped? then f(us[0].c) else us[0].c] + ReadWith(f, us[1..])
  }

  /** What the extractors make of them. */
  function ReadUnits(us: seq<Unit>): string { ReadWith(UnescapeChar, us) }

  /** Any spelled string is read up to its closing quote: escapes are undone one character at a time. */
  lemma {:induction false} UnitsRead(us: seq<Unit>, rest: string)
    requires ValidUnits(us)
    ensures ReadText(PrintUnits(us) + ['"'] + rest, false) == (ReadUnits(us), |PrintUnits(us)|)
  {
    if us == [] {
      assert PrintUnits(us) + ['"'] + rest == ['"'] + rest;
    } else {
      hide ReadText, UnescapeChar;
      var more := PrintUnits(us[1..]);
      UnitsRead(us[1..], rest);
      Requote(us[0].Print(), more, rest);
      assert us[0].Valid();
      if us[0].Escaped? {
        ReadEscaped(us[0].c, more + ['"'] + rest);
      } else {
        ReadPlain(us[0].c, more + ['"'] + rest);
      }
    }
  }

  lemma Requote(first: string, more: string, rest: string)
    ensures (first + more) + ['"'] + rest == first + (more + ['"'] + rest)
  {
  }

  lemma {:induction false} ReadConcat(f: char -> char, s: seq<Unit>, t: seq<Unit>)
    ensures ReadWith(f, s + t) == ReadWith(f, s) + ReadWith(f, t)
  {
    if s == [] {
      assert s + t == t;
    } else {
      assert (s + t)[1..] == s[1..] + t;
      ReadConcat(f, s[1..], t);
    }
  }

  lemma ReadFirst(u: Unit, rest: seq<Unit>)
    ensures ReadUnits([u] + rest) == [if u.Escaped? then UnescapeChar(u.c) else u.c] + ReadUnits(rest)
  {
    assert ([u] + rest)[1..] == rest;
  }

  lemma HexReads(a: char, b: char, h: char, l: char)
    ensures ReadUnits([Escaped('u'), Plain(a), Plain(b), Plain(h), Plain(l)]) == ['u', a, b, h, l]
  {
    hide ReadUnits;
    var u1, u2, u3, u4 := [Plain(l)], [Plain(h), Plain(l)], [Plain(b), Plain(h), Plain(l)],
      [Plain(a), Plain(b), Plain(h), Plain(l)];
    ReadNothing();
    assert u1 == [Plain(l)] + [] && u2 == [Plain(h)] + u1 && u3 == [Plain(b)] + u2 && u4 == [Plain(a)] + u3;
    assert [Escaped('u'), Plain(a), Plain(b), Plain(h), Plain(l)] == [Escaped('u')] + u4;
    ReadFirst(Plain(l), []);
    ReadFirst(Plain(h), u1);
    ReadFirst(Plain(b), u2);
    ReadFirst(Plain(a), u3);
    ReadFirst(Escaped('u'), u4);
  }

  lemma CharReads(c: char)
    ensures ReadUnits(UnitsOf(c)) == BlurredChar(c)
  {
    hide ReadUnits, HexChar;
    if IsLossy(c) {
      HexReads('0', '0', HexChar(c as int / 16), HexChar(c as int % 16));
    } else {
      assert UnitsOf(c) == [UnitsOf(c)[0]] + [];
      ReadFirst(UnitsOf(c)[0], []);
      ReadNothing();
    }
  }

  lemma ReadNothing()
    ensures ReadUnits([]) == ""
  {
  }

  lemma {:induction false} EscapedReads(s: string)
    ensures ReadUnits(EscapeUnits(s)) == Blurred(s)
  {
    hide UnitsOf, BlurredChar;
    if s != "" {
      EscapedReads(s[1..]);
      CharReads(s[0]);
      ReadConcat(UnescapeChar, UnitsOf(s[0]), EscapeUnits(s[1..]));
    }
  }

  /** Reading back an escaped string stops at its closing quote and yields its blurred form. */
  lemma ReadBack(s: string, rest: string)
    ensures ReadText(Escape(s) + ['"'] + rest, false) == (Blurred(s), |Escape(s)|)
  {
    hide ReadText;
    EscapeIsUnits(s);
    UnitsRead(EscapeUnits(s), rest);
    EscapedReads(s);
  }

  function CountLossy(s: string): nat {
    if s == "" then 0 else (if IsLossy(s[0]) then 1 else 0) + CountLossy(s[1..])
  }

  lemma {:induction false} BlurredLength(s: string)
    ensures |Blurred(s)| == |s| + 4 * CountLossy(s)
    ensures CountLossy(s) == 0 ==> Blurred(s) == s
    ensures CountLossy(s) == 0 <==> forall i :: 0 <= i < |s| ==> !IsLossy(s[i])
  {
    if s != "" {
      BlurredLength(s[1..]);
      assert forall i :: 1 <= i < |s| ==> s[i] == s[1..][i - 1];
      if CountLossy(s) == 0 {
        assert [s[0]] + s[1..] == s;
      }
    }
  }

  /**
   * Unescaping inverts escaping exactly on the strings whose only control characters are newline,
   * return and tab; each other one comes back four characters longer.
   */
  lemma UnescapeInvertsEscape(s: string, rest: string)
    ensures var (t, n) := ReadText(Escape(s) + ['"'] + rest, false);
      && n == |Escape(s)|
      && |t| == |s| + 4 * CountLossy(s)
      && (t == s <==> forall i :: 0 <= i < |s| ==> !IsLossy(s[i]))
  {
    ReadBack(s, rest);
    BlurredLength(s);
  }

  /** What is read of such a character: the letter u, two zeros and its two hexadecimal digits, in lower case. */
  lemma LossyIsRead(c: char, rest: string)
    requires c as int < 0x20 && c !in ['\n', '\r', '\t']
    ensures ReadText(Escape([c]) + ['"'] + rest, false).0 ==
      ['u', '0', '0', "01"[c as int / 16], "0123456789abcdef"[c as int % 16]]
  {
    ReadBack([c], rest);
    assert Blurred([c]) == BlurredChar(c) + Blurred([c][1..]);
  }

  // ---------------------------------------------------------------------------
  // A directive list inside a configuration
  // ---------------------------------------------------------------------------

  predicate IsSeparator(c: char) { IsBlank(c) || c == ',' }

  /** The first position at or after `from` whose character is not one of the kept-out kind. */
  function FirstNot(json: string, out: char -> bool, from: nat): Option<nat>
    decreases |json| - from
  {
    if from >= |json| then None
    else if !out(json[from]) then Some(from)
    else FirstNot(json, out, from + 1)
  }

  /** Items between position i and the closing bracket; empty strings are dropped. */
  function ItemsFrom(json: string, i: nat, arrEnd: nat): seq<string>
    decreases arrEnd - i
  {
    if i >= arrEnd then []
    else match Find(json, "\"", i)
      case None => []
      case Some(q) =>
        if q < i || q >= arrEnd || q + 1 > |json| then []
        else
          var (item, n) := ReadText(json[q + 1..], false);
          var after := q + 1 + n + 1;
          var kept := if item == "" then [] else [item];
          match FirstNot(json, IsSeparator, after)
          case None => kept
          case Some(next) =>
            if next >= arrEnd || next >= |json| || next < after || json[next] == ']' then kept
            else kept + ItemsFrom(json, next, arrEnd)
  }

  /** One round: the item it reads, if not empty, and where the next one starts, if there is one. */
  method NextItem(json: string, i: nat, arrEnd: nat) returns (kept: seq<string>, next: Option<nat>)
    requires i < arrEnd < |json|
    ensures next.Some? ==> i < next.value < |json|
    ensures ItemsFrom(json, i, arrEnd) ==
      if next.Some? then kept + ItemsFrom(json, next.value, arrEnd) else kept
  {
    hide ReadText, Find, IsSeparator;
    FindMeans(json, "\"", i);
    var q := Find(json, "\"", i);
    if q.None? || q.value >= arrEnd {
      return [], None;
    }
    var item, end := ReadStringAt(json, q.value + 1);
    kept := if item == "" then [] else [item];
    next := FirstNot(json, IsSeparator, end + 1);
    FirstNotMeans(json, IsSeparator, end + 1);
    if next.None? || next.value >= arrEnd || json[next.value] == ']' {
      next := None;
    }
  }

  lemma NothingBeyond(json: string, i: nat, arrEnd: nat)
    requires i >= arrEnd
    ensures ItemsFrom(json, i, arrEnd) == []
  {
  }

  method ExtractItems(json: string, arrStart: nat, arrEnd: nat) returns (items: seq<string>)
    requires arrStart < arrEnd < |json|
    ensures items == ItemsFrom(json, arrStart + 1, arrEnd)
  {
    hide ItemsFrom;
    items := [];
    var i := arrStart + 1;
    var more := i < arrEnd;
    if !more {
      NothingBeyond(json, i, arrEnd);
    }
    while more
      invariant more ==> i < arrEnd
      invariant ItemsFrom(json, arrStart + 1, arrEnd) == items + (if more then ItemsFrom(json, i, arrEnd) else [])
      decreases if more then arrEnd - i + 1 else 0
    {
      var kept, next := NextItem(json, i, arrEnd);
      Associate(items, kept, if next.Some? then ItemsFrom(json, next.value, arrEnd) else []);
      items := items + kept;
      more := next.Some? && next.value < arrEnd;
      if next.Some? {
        if !more {
          NothingBeyond(json, next.value, arrEnd);
        }
        i := next.value;
      }
    }
  }

  lemma {:induction false} FirstNotMeans(json: string, out: char -> bool, from: nat)
    ensures var r := FirstNot(json, out, from);
      r.Some? ==> from <= r.value < |json| && !out(json[r.value])
    decreases |json| - from
  {
    if from < |json| && out(json[from]) {
      FirstNotMeans(json, out, from + 1);
    }
  }

  /** Where the value of "directives_map"."profile" starts. */
  function ProfileValue(json: string, profile: string): Option<nat> {
    match Find(json, "\"directives_map\"", 0)
    case None => None
    case Some(key) =>
      match Find(json, "\"" + profile + "\"", key)
      case None => None
      case Some(prof) =>
        match Find(json, ":", prof + |profile| + 2)
        case None => None
        case Some(colon) => FirstNot(json, IsBlank, colon + 1)
  }

  function DirectiveArray(json: string, profile: string): seq<string> {
    match ProfileValue(json, profile)
    case None => []
    case Some(v) =>
      if v >= |json| || json[v] != '[' then []
      else match FindEnd(Square, json, v)
        case None => []
        case Some(end) => ItemsFrom(json, v + 1, end)
  }

  method ExtractDirectiveArray(json: string, profile: string) returns (items: seq<string>)
    ensures items == DirectiveArray(json, profile)
  {
    hide ItemsFrom, ProfileValue, FindEnd;
    var v := ProfileValue(json, profile);
    if v.None? || v.value >= |json| || json[v.value] != '[' {
      return [];
    }
    var end := FindJsonArrayEnd(json, v.value);
    if end.None? {
      return [];
    }
    EndIsAfter(Square, json, v.value);
    items := ExtractItems(json, v.value, end.value);
  }

  lemma EndIsAfter(b: Brackets, json: string, start: nat)
    requires FindEnd(b, json, start).Some?
    ensures start < FindEnd(b, json, start).value < |json|
  {
    EndInRange(b, OUTSIDE, json[start..]);
    assert !Ends(b, OUTSIDE, json[start..][0]);
  }

  lemma {:induction false} EndInRange(b: Brackets, st: Scan, s: string)
    ensures var r := EndIn(b, st, s);
      r.Some? ==> r.value < |s| && (r.value == 0 ==> Ends(b, st, s[0]))
    decreases |s|
  {
    if s != "" && !Ends(b, st, s[0]) {
      EndInRange(b, Step(b, st, s[0]), s[1..]);
    }
  }
}
