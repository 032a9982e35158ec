/**
 * The brace and bracket scanners that find where a JSON object or array ends, against JSON texts
 * (sections 2 to 7 of RFC 8259) printed from trees.
 */
module JsonScan {
  import opened Prelude

  // ---------------------------------------------------------------------------
  // The scanner
  // ---------------------------------------------------------------------------

  datatype Brackets = Curly | Square {
    function Open(): char { match this case Curly => '{' case Square => '[' }
    function Close(): char { match this case Curly => '}' case Square => ']' }
  }

  datatype Scan = Scan(depth: int, inString: bool, escape: bool)

  function Step(b: Brackets, st: Scan, c: char): Scan {
    if st.inString then
      if st.escape then st.(escape := false)
      else if c == '\\' then st.(escape := true)
      else if c == '"' then st.(inString := false)
      else st
    else if c == '"' then st.(inString := true)
    else if c == b.Open() then st.(depth := st.depth + 1)
    else if c == b.Close() then st.(depth := st.depth - 1)
    else st
  }

  /** Does this character end the bracketed text? */
  predicate Ends(b: Brackets, st: Scan, c: char) {
    !st.inString && c == b.Close() && st.depth == 1
  }

  /** The offset of the character that ends the bracketed text. */
  function EndIn(b: Brackets, st: Scan, s: string): Option<nat>
    decreases |s|
  {
    if s == "" then None
    else if Ends(b, st, s[0]) then Some(0)
    else match EndIn(b, Step(b, st, s[0]), s[1..])
      case None => None
      case Some(k) => Some(k + 1)
  }

  const OUTSIDE := Scan(0, false, false)

  function FindEnd(b: Brackets, json: string, start: nat): Option<nat> {
    if start >= |json| || json[start] != b.Open() then None
    else match EndIn(b, OUTSIDE, json[start..])
      case None => None
      case Some(k) => Some(start + k)
  }

  method FindJsonEnd(b: Brackets, json: string, start: nat) returns (end: Option<nat>)
    ensures end == FindEnd(b, json, start)
  {
    if start >= |json| || json[start] != b.Open() {
      return None;
    }
    var depth := 0;
    var inString := false;
    var escape := false;
    for i := start to |json|
      invariant FindEnd(b, json, start) ==
        match EndIn(b, Scan(depth, inString, escape), json[i..]) case None => None case Some(k) => Some(i + k)
    {
      var c := json[i];
      assert json[i..][1..] == json[i + 1..];
      if inString {
        if escape {
          escape := false;
        } else if c == '\\' {
          escape := true;
        } else if c == '"' {
          inString := false;
        }
      } else if c == '"' {
        inString := true;
      } else if c == b.Open() {
        depth := depth + 1;
      } else if c == b.Close() {
        depth := depth - 1;
        if depth == 0 {
          return Some(i);
        }
      }
    }
    return None;
  }

  method FindJsonObjectEnd(json: string, start: nat) returns (end: Option<nat>)
    ensures end == FindEnd(Curly, json, start)
  {
    end := FindJsonEnd(Curly, json, start);
  }

  method FindJsonArrayEnd(json: string, start: nat) returns (end: Option<nat>)
    ensures end == FindEnd(Square, json, start)
  {
    end := FindJsonEnd(Square, json, start);
  }

  // ---------------------------------------------------------------------------
  // JSON texts
  // ---------------------------------------------------------------------------

  /** One element of a string: a character as it is, or a backslash and the character after it. */
  datatype Unit = Plain(c: char) | Escaped(c: char) {
    predicate Valid() { Plain? ==> c != '"' && c != '\\' }
    function Print(): string { match this case Plain(c) => [c] case Escaped(c) => ['\\', c] }
  }

  datatype Json =
    | True | False | Null
    | Number(digits: string)
    | Text(units: seq<Unit>)
    | Array(items: Items)
    | Object(members: Members)

  datatype Items =
    | NoItems(space: string)
    | LastItem(before: string, value: Json, after: string)
    | Item(before: string, value: Json, after: string, rest: Items)

  datatype Members =
    | NoMembers(space: string)
    | LastMember(before: string, key: seq<Unit>, colon: string, gap: string, value: Json, after: string)
    | Member(before: string, key: seq<Unit>, colon: string, gap: string, value: Json, after: string, rest: Members)

  predicate IsBlank(c: char) { c == ' ' || c == '\t' || c == '\n' || c == '\r' }

  /** White space of the grammar (section 2 of RFC 8259). */
  predicate IsWhite(c: char) { c as int == 0x20 || c as int == 0x09 || c as int == 0x0A || c as int == 0x0D }

  predicate Blank(s: string) { forall i :: 0 <= i < |s| ==> IsWhite(s[i]) }

  predicate NumberText(s: string) {
    forall i :: 0 <= i < |s| ==>
      '0' <= s[i] <= '9' || s[i] == '-' || s[i] == '+' || s[i] == '.' || s[i] == 'e' || s[i] == 'E'
  }

  predicate ValidUnits(us: seq<Unit>) { forall i :: 0 <= i < |us| ==> us[i].Valid() }

  predicate ValidJson(v: Json) {
    match v
    case Number(digits) => NumberText(digits)
    case Text(units) => ValidUnits(units)
    case Array(items) => ValidItems(items)
    case Object(members) => ValidMembers(members)
    case _ => true
  }

  predicate ValidItems(items: Items) {
    match items
    case NoItems(space) => Blank(space)
    case LastItem(before, value, after) => Blank(before) && ValidJson(value) && Blank(after)
    case Item(before, value, after, rest) => Blank(before) && ValidJson(value) && Blank(after) && ValidItems(rest)
  }

  predicate ValidMembers(members: Members) {
    match members
    case NoMembers(space) => Blank(space)
    case LastMember(before, key, colon, gap, value, after) =>
      Blank(before) && ValidUnits(key) && Blank(colon) && Blank(gap) && ValidJson(value) && Blank(after)
    case Member(before, key, colon, gap, value, after, rest) =>
      Blank(before) && ValidUnits(key) && Blank(colon) && Blank(gap) && ValidJson(value) && Blank(after)
      && ValidMembers(rest)
  }

  function PrintUnits(us: seq<Unit>): string {
    if us == [] then "" else us[0].Print() + PrintUnits(us[1..])
  }

  function Quote(us: seq<Unit>): string {
    ['"'] + PrintUnits(us) + ['"']
  }

  function Print(v: Json): string {
    match v
    case True => "true"
    case False => "false"
    case Null => "null"
    case Number(digits) => digits
    case Text(units) => Quote(units)
    case Array(items) => ['['] + PrintItems(items) + [']']
    case Object(members) => ['{'] + PrintMembers(members) + ['}']
  }

  function PrintItems(items: Items): string {
    match items
    case NoItems(space) => space
    case LastItem(before, value, after) => before + Print(value) + after
    case Item(before, value, after, rest) => before + Print(value) + after + [','] + PrintItems(rest)
  }

  function PrintMembers(members: Members): string {
    match members
    case NoMembers(space) => space
    case LastMember(before, key, colon, gap, value, after) =>
      before + Quote(key) + colon + [':'] + gap + Print(value) + after
    case Member(before, key, colon, gap, value, after, rest) =>
      before + Quote(key) + colon + [':'] + gap + Print(value) + after + [','] + PrintMembers(rest)
  }

  // ---------------------------------------------------------------------------
  // Scanning over a whole text
  // ---------------------------------------------------------------------------

  /** Scanning s from st ends nothing and leaves the scanner in st'. */
  predicate Passes(b: Brackets, st: Scan, s: string, st': Scan)
    decreases |s|
  {
    if s == "" then st == st'
    else !Ends(b, st, s[0]) && Passes(b, Step(b, st, s[0]), s[1..], st')
  }

  lemma {:induction false} PassesConcat(b: Brackets, st: Scan, s: string, mid: Scan, t: string, st': Scan)
    requires Passes(b, st, s, mid) && Passes(b, mid, t, st')
    ensures Passes(b, st, s + t, st')
    decreases |s|
  {
    if s == "" {
      assert s + t == t;
    } else {
      assert (s + t)[1..] == s[1..] + t;
      PassesConcat(b, Step(b, st, s[0]), s[1..], mid, t, st');
    }
  }

  lemma {:induction false} EndAfterPass(b: Brackets, st: Scan, s: string, mid: Scan, t: string)
    requires Passes(b, st, s, mid)
    ensures EndIn(b, st, s + t) == match EndIn(b, mid, t) case None => None case Some(k) => Some(|s| + k)
    decreases |s|
  {
    if s == "" {
      assert s + t == t;
    } else {
      assert (s + t)[1..] == s[1..] + t;
      EndAfterPass(b, Step(b, st, s[0]), s[1..], mid, t);
    }
  }

  /** Outside strings, at some depth. */
  function At(depth: int): Scan { Scan(depth, false, false) }

  function InText(depth: int): Scan { Scan(depth, true, false) }

  predicate IsNeutral(c: char) { c != '"' && c != '{' && c != '}' && c != '[' && c != ']' }

  lemma {:induction false} NeutralPasses(b: Brackets, depth: int, s: string)
    requires forall i :: 0 <= i < |s| ==> IsNeutral(s[i])
    ensures Passes(b, At(depth), s, At(depth))
  {
    if s != "" {
      NeutralPasses(b, depth, s[1..]);
    }
  }

  lemma OnePasses(b: Brackets, st: Scan, c: char)
    requires !Ends(b, st, c)
    ensures Passes(b, st, [c], Step(b, st, c))
  {
    assert [c][1..] == "";
  }

  lemma {:induction false} UnitsPass(b: Brackets, depth: int, us: seq<Unit>)
    requires ValidUnits(us)
    ensures Passes(b, InText(depth), PrintUnits(us), InText(depth))
  {
    if us != [] {
      UnitsPass(b, depth, us[1..]);
      UnitPasses(b, depth, us[0]);
      PassesConcat(b, InText(depth), us[0].Print(), InText(depth), PrintUnits(us[1..]), InText(depth));
    }
  }

  lemma UnitPasses(b: Brackets, depth: int, u: Unit)
    requires u.Valid()
    ensures Passes(b, InText(depth), u.Print(), InText(depth))
  {
    match u
    case Plain(c) => OnePasses(b, InText(depth), c);
    case Escaped(c) =>
      var escaping := Scan(depth, true, true);
      OnePasses(b, InText(depth), '\\');
      OnePasses(b, escaping, c);
      PassesConcat(b, InText(depth), ['\\'], escaping, [c], InText(depth));
      assert ['\\'] + [c] == u.Print();
  }

  lemma QuotePasses(b: Brackets, depth: int, us: seq<Unit>)
    requires ValidUnits(us)
    ensures Passes(b, At(depth), Quote(us), At(depth))
  {
    OnePasses(b, At(depth), '"');
    UnitsPass(b, depth, us);
    OnePasses(b, InText(depth), '"');
    PassesConcat(b, At(depth), ['"'], InText(depth), PrintUnits(us), InText(depth));
    PassesConcat(b, At(depth), ['"'] + PrintUnits(us), InText(depth), ['"'], At(depth));
  }

  lemma BlankPasses(b: Brackets, depth: int, s: string)
    requires Blank(s)
    ensures Passes(b, At(depth), s, At(depth))
  {
    NeutralPasses(b, depth, s);
  }

  /** Two texts that pass at the same depth pass together. */
  lemma Both(b: Brackets, depth: int, s: string, t: string)
    requires Passes(b, At(depth), s, At(depth)) && Passes(b, At(depth), t, At(depth))
    ensures Passes(b, At(depth), s + t, At(depth))
  {
    PassesConcat(b, At(depth), s, At(depth), t, At(depth));
  }

  /** A bracketed text passes when what is between the brackets passes, one level deeper or not. */
  lemma BracketsPass(b: Brackets, own: Brackets, depth: int, inner: string)
    requires depth >= 1
    requires var d := if own == b then depth + 1 else depth; Passes(b, At(d), inner, At(d))
    ensures Passes(b, At(depth), [own.Open()] + inner + [own.Close()], At(depth))
  {
    var d := if own == b then depth + 1 else depth;
    OnePasses(b, At(depth), own.Open());
    OnePasses(b, At(d), own.Close());
    PassesConcat(b, At(depth), [own.Open()], At(d), inner, At(d));
    PassesConcat(b, At(depth), [own.Open()] + inner, At(d), [own.Close()], At(depth));
  }

  lemma {:induction false} ValuePasses(b: Brackets, depth: int, v: Json)
    requires depth >= 1 && ValidJson(v)
    ensures Passes(b, At(depth), Print(v), At(depth))
    decreases v
  {
    match v
    case True => NeutralPasses(b, depth, "true");
    case False => NeutralPasses(b, depth, "false");
    case Null => NeutralPasses(b, depth, "null");
    case Number(digits) => NeutralPasses(b, depth, digits);
    case Text(units) => QuotePasses(b, depth, units);
    case Array(items) =>
      var d := if Square == b then depth + 1 else depth;
      ItemsPass(b, d, items);
      BracketsPass(b, Square, depth, PrintItems(items));
    case Object(members) =>
      var d := if Curly == b then depth + 1 else depth;
      MembersPass(b, d, members);
      BracketsPass(b, Curly, depth, PrintMembers(members));
  }

  lemma {:induction false} ItemsPass(b: Brackets, depth: int, items: Items)
    requires depth >= 1 && ValidItems(items)
    ensures Passes(b, At(depth), PrintItems(items), At(depth))
    decreases items
  {
    match items
    case NoItems(space) => BlankPasses(b, depth, space);
    case LastItem(before, value, after) =>
      ValuePasses(b, depth, value);
      PaddedPasses(b, depth, before, Print(value), after);
    case Item(before, value, after, rest) =>
      ValuePasses(b, depth, value);
      PaddedPasses(b, depth, before, Print(value), after);
      ItemsPass(b, depth, rest);
      CommaPasses(b, depth, before + Print(value) + after, PrintItems(rest));
  }

  lemma PaddedPasses(b: Brackets, depth: int, before: string, s: string, after: string)
    requires Blank(before) && Blank(after) && Passes(b, At(depth), s, At(depth))
    ensures Passes(b, At(depth), before + s + after, At(depth))
  {
    BlankPasses(b, depth, before);
    BlankPasses(b, depth, after);
    Both(b, depth, before, s);
    Both(b, depth, before + s, after);
  }

  lemma CommaPasses(b: Brackets, depth: int, s: string, t: string)
    requires Passes(b, At(depth), s, At(depth)) && Passes(b, At(depth), t, At(depth))
    ensures Passes(b, At(depth), s + [','] + t, At(depth))
  {
    OnePasses(b, At(depth), ',');
    Both(b, depth, s, [',']);
    Both(b, depth, s + [','], t);
  }

  lemma MemberPasses(
      b: Brackets, depth: int, before: string, key: seq<Unit>, colon: string, gap: string, value: string, after: string)
    requires Blank(before) && ValidUnits(key) && Blank(colon) && Blank(gap) && Blank(after)
    requires Passes(b, At(depth), value, At(depth))
    ensures Passes(b, At(depth), before + Quote(key) + colon + [':'] + gap + value + after, At(depth))
  {
    QuotePasses(b, depth, key);
    PaddedPasses(b, depth, before, Quote(key), colon);
    OnePasses(b, At(depth), ':');
    Both(b, depth, before + Quote(key) + colon, [':']);
    BlankPasses(b, depth, gap);
    Both(b, depth, before + Quote(key) + colon + [':'], gap);
    Both(b, depth, before + Quote(key) + colon + [':'] + gap, value);
    BlankPasses(b, depth, after);
    Both(b, depth, before + Quote(key) + colon + [':'] + gap + value, after);
  }

  lemma {:induction false} MembersPass(b: Brackets, depth: int, members: Members)
    requires depth >= 1 && ValidMembers(members)
    ensures Passes(b, At(depth), PrintMembers(members), At(depth))
    decreases members
  {
    match members
    case NoMembers(space) => BlankPasses(b, depth, space);
    case LastMember(before, key, colon, gap, value, after) =>
      ValuePasses(b, depth, value);
      MemberPasses(b, depth, before, key, colon, gap, Print(value), after);
    case Member(before, key, colon, gap, value, after, rest) =>
      ValuePasses(b, depth, value);
      MemberPasses(b, depth, before, key, colon, gap, Print(value), after);
      MembersPass(b, depth, rest);
      CommaPasses(b, depth, before + Quote(key) + colon + [':'] + gap + Print(value) + after, PrintMembers(rest));
  }

  /** The scanner finds the closing bracket of a bracketed text, whatever follows it. */
  lemma DropBefore(pre: string, open: char, inner: string, close: char, rest: string)
    ensures var json := pre + ([open] + inner + [close]) + rest;
      && json[|pre|..] == ([open] + inner) + ([close] + rest)
      && json[|pre|] == open
  {
  }

  lemma EndOfBracketed(b: Brackets, pre: string, inner: string, rest: string)
    requires Passes(b, At(1), inner, At(1))
    ensures FindEnd(b, pre + ([b.Open()] + inner + [b.Close()]) + rest, |pre|) == Some(|pre| + 1 + |inner|)
  {
    var json := pre + ([b.Open()] + inner + [b.Close()]) + rest;
    var tail := [b.Close()] + rest;
    DropBefore(pre, b.Open(), inner, b.Close(), rest);
    hide Passes;
    OnePasses(b, OUTSIDE, b.Open());
    PassesConcat(b, OUTSIDE, [b.Open()], At(1), inner, At(1));
    EndAfterPass(b, OUTSIDE, [b.Open()] + inner, At(1), tail);
    assert tail[0] == b.Close();
    assert EndIn(b, At(1), tail) == Some(0);
  }

  /** Exactly the closing brace of any JSON object, printed with any white space and followed by anything. */
  lemma ObjectEndIsExact(pre: string, members: Members, rest: string)
    requires ValidMembers(members)
    ensures var text := Print(Object(members));
      FindEnd(Curly, pre + text + rest, |pre|) == Some(|pre| + |text| - 1)
  {
    MembersPass(Curly, 1, members);
    EndOfBracketed(Curly, pre, PrintMembers(members), rest);
  }

  lemma ArrayEndIsExact(pre: string, items: Items, rest: string)
    requires ValidItems(items)
    ensures var text := Print(Array(items));
      FindEnd(Square, pre + text + rest, |pre|) == Some(|pre| + |text| - 1)
  {
    ItemsPass(Square, 1, items);
    EndOfBracketed(Square, pre, PrintItems(items), rest);
  }
}
