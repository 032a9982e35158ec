/** The data_files object as a JSON text: any object whose values are strings, printed in any layout. */
module DataFileText {
  import opened Prelude
  import opened JsonScan
  import opened JsonText
  import opened DataFiles

  predicate StringValues(members: Members) {
    match members
    case NoMembers(_) => true
    case LastMember(_, _, _, _, value, _) => value.Text?
    case Member(_, _, _, _, value, _, rest) => value.Text? && StringValues(rest)
  }

  /** Names as they are spelled, and payloads as the scan reads them. */
  function Listed(members: Members): seq<(string, string)>
    requires StringValues(members)
  {
    match members
    case NoMembers(_) => []
    case LastMember(_, key, _, _, value, _) => [(PrintUnits(key), Chars(value.units))]
    case Member(_, key, _, _, value, _, rest) => [(PrintUnits(key), Chars(value.units))] + Listed(rest)
  }

  predicate NoLineEnd(s: string) { '\n' !in s && '\r' !in s }

  /** Each name and its payload stand on one line. */
  predicate OneLineEach(members: Members) {
    match members
    case NoMembers(_) => true
    case LastMember(_, _, colon, gap, _, _) => NoLineEnd(colon) && NoLineEnd(gap)
    case Member(_, _, colon, gap, _, _, rest) => NoLineEnd(colon) && NoLineEnd(gap) && OneLineEach(rest)
  }

  lemma Cut(json: string, i: nat, x: string, y: string)
    requires i <= |json| && json[i..] == x + y
    ensures i + |x| <= |json| && json[i..i + |x|] == x && json[i + |x|..] == y
  {
    assert json[i..][..|x|] == x && json[i..][|x|..] == y;
  }

  function Quoted(text: string, tail: string): string { ['"'] + (text + (['"'] + tail)) }

  lemma CutQuoted(json: string, i: nat, text: string, tail: string)
    requires i <= |json| && json[i..] == Quoted(text, tail)
    ensures var end := i + 1 + |text|;
      && end < |json| && json[i] == '"' && json[i + 1..end] == text && json[end] == '"' && json[end + 1..] == tail
  {
    Cut(json, i, ['"'], text + (['"'] + tail));
    Cut(json, i + 1, text, ['"'] + tail);
    Cut(json, i + 1 + |text|, ['"'], tail);
  }

  /** One printed member, its parts in order. */
  function MemberText(before: string, key: seq<Unit>, colon: string, gap: string, us: seq<Unit>, tail: string): string {
    before + Quoted(PrintUnits(key), colon + ([':'] + (gap + Quoted(PrintUnits(us), tail))))
  }

  lemma CutKey(json: string, i: nat, before: string, key: string, more: string)
    requires i <= |json| && json[i..] == before + Quoted(key, more)
    ensures var at := i + |before|;
      var end := at + 1 + |key|;
      && end < |json| && json[at] == '"' && json[at + 1..end] == key && json[end] == '"' && json[end + 1..] == more
      && json[i..at] == before
  {
    hide Quoted;
    Cut(json, i, before, Quoted(key, more));
    CutQuoted(json, i + |before|, key, more);
  }

  lemma CutValue(json: string, i: nat, colon: string, gap: string, value: string, tail: string)
    requires i <= |json| && json[i..] == colon + ([':'] + (gap + Quoted(value, tail)))
    ensures var at := i + |colon| + 1 + |gap|;
      var end := at + 1 + |value|;
      && end < |json| && json[at] == '"' && json[at + 1..end] == value && json[end] == '"' && json[end + 1..] == tail
      && json[i..at] == colon + ([':'] + gap)
  {
    hide Quoted;
    Cut(json, i, colon, [':'] + (gap + Quoted(value, tail)));
    Cut(json, i + |colon|, [':'], gap + Quoted(value, tail));
    CutKey(json, i + |colon| + 1, gap, value, tail);
    var at := i + |colon| + 1 + |gap|;
    assert json[i..at] == json[i..i + |colon|] + json[i + |colon|..i + |colon| + 1] + json[i + |colon| + 1..at];
    Associate(colon, [':'], gap);
  }

  lemma SpelledAs(us: seq<Unit>)
    requires ValidUnits(us)
    ensures IsName(PrintUnits(us)) && IsPayload(PrintUnits(us), Chars(us))
  {
    hide PrintUnits, Chars, ValidUnits;
    assert Spells(PrintUnits(us), us);
  }

  /** Where the parts of a printed member lie. */
  lemma MemberSlices(
      json: string, i: nat, before: string, name: string, colon: string, gap: string, value: string, tail: string)
    returns (p: Place)
    requires i <= |json|
    requires json[i..] == before + Quoted(name, colon + ([':'] + (gap + Quoted(value, tail))))
    ensures p.key == i + |before| && p.keyEnd == p.key + 1 + |name|
    ensures p.value == p.keyEnd + 2 + |colon| + |gap| && p.valueEnd == p.value + 1 + |value| < |json|
    ensures json[p.key] == '"' && json[p.key + 1..p.keyEnd] == name && json[p.keyEnd] == '"'
    ensures json[p.value] == '"' && json[p.value + 1..p.valueEnd] == value && json[p.valueEnd] == '"'
    ensures json[p.valueEnd + 1..] == tail
    ensures json[i..p.key] == before && json[p.keyEnd + 1..p.value] == colon + ([':'] + gap)
  {
    hide Quoted;
    var end := i + |before| + 1 + |name|;
    CutKey(json, i, before, name, colon + ([':'] + (gap + Quoted(value, tail))));
    CutValue(json, end + 1, colon, gap, value, tail);
    var start := end + 2 + |colon| + |gap|;
    p := Place(i + |before|, end, start, start + 1 + |value|);
  }

  lemma MemberPlaced(
      json: string, i: nat, before: string, key: seq<Unit>, colon: string, gap: string, us: seq<Unit>, tail: string)
    returns (p: Place)
    requires Blank(before) && Blank(colon) && Blank(gap) && ValidUnits(key) && ValidUnits(us)
    requires i <= |json| && json[i..] == MemberText(before, key, colon, gap, us, tail)
    ensures MemberAt(json, i, p, PrintUnits(key), Chars(us))
    ensures OnOneLine(json, p) <==> NoLineEnd(colon) && NoLineEnd(gap)
    ensures p.valueEnd < |json| && json[p.valueEnd + 1..] == tail
  {
    hide PrintUnits, Chars, ValidUnits, Quoted, IsName, IsPayload, NoLineEnd, IsGap, IsSeparator, Blank;
    p := MemberSlices(json, i, before, PrintUnits(key), colon, gap, PrintUnits(us), tail);
    SpelledAs(key);
    SpelledAs(us);
    GapChars(json, p.keyEnd, p.value, colon, gap);
    Separates(json, i, p.key, before);
  }

  lemma Separates(json: string, i: nat, to: nat, blanks: string)
    requires Blank(blanks) && i <= to <= |json| && json[i..to] == blanks
    ensures forall k :: i <= k < to ==> IsSeparator(json[k])
  {
    assert forall k :: i <= k < to ==> json[k] == json[i..to][k - i];
  }

  lemma GapChars(json: string, end: nat, to: nat, colon: string, gap: string)
    requires end < to <= |json| && Blank(colon) && Blank(gap) && json[end + 1..to] == colon + ([':'] + gap)
    ensures forall k :: end < k < to ==> IsGap(json[k])
    ensures (forall k :: end < k < to ==> json[k] != '\n' && json[k] != '\r') <==>
      NoLineEnd(colon) && NoLineEnd(gap)
  {
    var all := colon + ([':'] + gap);
    assert forall k :: end < k < to ==> json[k] == json[end + 1..to][k - end - 1];
    assert forall k :: 0 <= k < |all| ==> all[k] == json[end + 1 + k];
    assert forall k :: 0 <= k < |colon| ==> all[k] == colon[k];
    assert forall k :: 0 <= k < |gap| ==> all[|colon| + 1 + k] == gap[k];
  }

  /** Members may be preceded by more separators. */
  lemma Earlier(json: string, j: nat, i: nat, places: seq<Place>, members: seq<(string, string)>, close: nat)
    requires MembersAt(json, i, places, members, close) && j <= i
    requires i <= |json| && forall k :: j <= k < i ==> IsSeparator(json[k])
    ensures MembersAt(json, j, places, members, close)
  {
    hide IsName, IsPayload, IsSeparator;
  }

  lemma Unnest(before: string, key: string, colon: string, gap: string, value: string, more: string)
    ensures (before + (['"'] + key + ['"']) + colon + [':'] + gap + (['"'] + value + ['"'])) + more
      == before + Quoted(key, colon + ([':'] + (gap + Quoted(value, more))))
  {
    var a := before + (['"'] + key + ['"']);
    assert a + colon + [':'] + gap + (['"'] + value + ['"']) + more
      == a + (colon + ([':'] + (gap + Quoted(value, more))));
  }

  lemma RegroupAfter(a: string, after: string, more: string, end: string)
    ensures (a + after) + end == a + (after + end)
    ensures (a + after + [','] + more) + end == a + (after + ([','] + (more + end)))
  {
  }

  /** What follows the first member of a printed object: the end, or a comma and the other members. */
  function AfterFirst(members: Members, end: string): string
    requires !members.NoMembers?
  {
    members.after + if members.LastMember? then end else [','] + (PrintMembers(members.rest) + end)
  }

  lemma AfterFirstIs(members: Members, end: string)
    requires !members.NoMembers?
    ensures AfterFirst(members, end) ==
      if members.LastMember? then members.after + end
      else members.after + ([','] + (PrintMembers(members.rest) + end))
  {
  }

  lemma FirstPrinted(members: Members, end: string)
    requires !members.NoMembers? && members.value.Text?
    ensures PrintMembers(members) + end ==
      MemberText(members.before, members.key, members.colon, members.gap, members.value.units, AfterFirst(members, end))
  {
    hide PrintUnits;
    var a := members.before + Quote(members.key) + members.colon + [':'] + members.gap + Quote(members.value.units);
    Unnest(members.before, PrintUnits(members.key), members.colon, members.gap, PrintUnits(members.value.units),
           AfterFirst(members, end));
    RegroupAfter(a, members.after, if members.Member? then PrintMembers(members.rest) else "", end);
  }

  lemma Closes(json: string, i: nat, space: string, rest: string)
    requires Blank(space) && i <= |json| && json[i..] == space + (['}'] + rest)
    ensures MembersAt(json, i, [], [], |json| - 1 - |rest|)
  {
    Cut(json, i, space, ['}'] + rest);
    assert json[i + |space|..][0] == '}';
    Separates(json, i, i + |space|, space);
  }

  lemma AfterComma(json: string, i: nat, after: string, more: string)
    requires Blank(after) && i <= |json| && json[i..] == after + ([','] + more)
    ensures var next := i + |after| + 1;
      next <= |json| && json[next..] == more && forall k :: i <= k < next ==> IsSeparator(json[k])
  {
    Cut(json, i, after, [','] + more);
    Cut(json, i + |after|, [','], more);
    assert json[i + |after|..][0] == ',';
    Separates(json, i, i + |after|, after);
  }

  lemma NoMembersPrint(members: Members)
    requires members.NoMembers?
    ensures PrintMembers(members) == members.space
  {
  }

  lemma MembersAtMore(
      json: string, i: nat, p: Place, places: seq<Place>, first: (string, string), members: seq<(string, string)>,
      close: nat)
    requires MemberAt(json, i, p, first.0, first.1) && MembersAt(json, p.valueEnd + 1, places, members, close)
    ensures MembersAt(json, i, [p] + places, [first] + members, close)
    ensures AllOnOneLine(json, [p] + places) <==> OnOneLine(json, p) && AllOnOneLine(json, places)
  {
    hide MemberAt, OnOneLine;
    assert ([p] + places)[1..] == places && ([first] + members)[1..] == members;
    FirstOnOneLine(json, [p] + places);
  }

  /** The first member of a printed object lies here, and this is what follows it. */
  lemma FirstPlaced(json: string, i: nat, members: Members, end: string) returns (p: Place)
    requires ValidMembers(members) && StringValues(members) && !members.NoMembers?
    requires i <= |json| && json[i..] == PrintMembers(members) + end
    ensures MemberAt(json, i, p, PrintUnits(members.key), Chars(members.value.units))
    ensures OnOneLine(json, p) <==> NoLineEnd(members.colon) && NoLineEnd(members.gap)
    ensures p.valueEnd < |json| && json[p.valueEnd + 1..] == AfterFirst(members, end)
  {
    hide MemberAt, OnOneLine, NoLineEnd, PrintUnits, Chars, ValidUnits, Blank, MemberText, AfterFirst, PrintMembers;
    FirstPrinted(members, end);
    p := MemberPlaced(json, i, members.before, members.key, members.colon, members.gap, members.value.units,
                      AfterFirst(members, end));
  }

  lemma LastPlaced(json: string, i: nat, members: Members, rest: string, p: Place)
    requires ValidMembers(members) && StringValues(members) && members.LastMember?
    requires MemberAt(json, i, p, PrintUnits(members.key), Chars(members.value.units))
    requires p.valueEnd < |json| && json[p.valueEnd + 1..] == AfterFirst(members, ['}'] + rest)
    ensures MembersAt(json, i, [p], Listed(members), |json| - 1 - |rest|)
    ensures AllOnOneLine(json, [p]) <==> OnOneLine(json, p)
  {
    hide MemberAt, MembersAt, OnOneLine, AllOnOneLine, PrintUnits, Chars, Blank, AfterFirst;
    AfterFirstIs(members, ['}'] + rest);
    var first := (PrintUnits(members.key), Chars(members.value.units));
    Closes(json, p.valueEnd + 1, members.after, rest);
    NoPlaces(json);
    MembersAtMore(json, i, p, [], first, [], |json| - 1 - |rest|);
    assert [p] + [] == [p] && [first] + [] == [first];
  }

  /** Where the members of a printed object lie. */
  lemma {:induction false} Placed(json: string, i: nat, members: Members, rest: string) returns (places: seq<Place>)
    requires ValidMembers(members) && StringValues(members)
    requires i <= |json| && json[i..] == PrintMembers(members) + (['}'] + rest)
    ensures MembersAt(json, i, places, Listed(members), |json| - 1 - |rest|)
    ensures AllOnOneLine(json, places) <==> OneLineEach(members)
    decreases members
  {
    hide MemberAt, MembersAt, OnOneLine, AllOnOneLine, NoLineEnd, PrintUnits, Chars, ValidUnits, Blank;
    hide AfterFirst, PrintMembers, IsSeparator, ReadWith;
    if members.NoMembers? {
      places := [];
      NoMembersPrint(members);
      Closes(json, i, members.space, rest);
      NoPlaces(json);
    } else {
      var p := FirstPlaced(json, i, members, ['}'] + rest);
      if members.LastMember? {
        places := [p];
        LastPlaced(json, i, members, rest, p);
      } else {
        AfterFirstIs(members, ['}'] + rest);
        AfterComma(json, p.valueEnd + 1, members.after, PrintMembers(members.rest) + (['}'] + rest));
        var next := p.valueEnd + 1 + |members.after| + 1;
        var others := Placed(json, next, members.rest, rest);
        Earlier(json, p.valueEnd + 1, next, others, Listed(members.rest), |json| - 1 - |rest|);
        places := [p] + others;
        MembersAtMore(json, i, p, others, (PrintUnits(members.key), Chars(members.value.units)), Listed(members.rest),
                      |json| - 1 - |rest|);
      }
    }
  }

  lemma NoPlaces(json: string)
    ensures AllOnOneLine(json, [])
  {
  }

  /**
   * Of any JSON object whose values are strings, printed in any layout, the scan reads all members if each
   * name stands on one line with its payload, and otherwise refuses the whole object.
   */
  lemma PrintedObjectReads(json: string, i: nat, members: Members, rest: string, files: Files)
    requires ValidMembers(members) && StringValues(members)
    requires i <= |json| && json[i..] == PrintMembers(members) + (['}'] + rest)
    ensures ReadMembers(json, i, files) ==
      if OneLineEach(members) then Ok(Collected(files, Listed(members))) else Err(ExpectedValue)
  {
    hide MembersAt, AllOnOneLine, OneLineEach, PrintMembers, ValidMembers, StringValues;
    var places := Placed(json, i, members, rest);
    MembersRead(json, i, places, Listed(members), |json| - 1 - |rest|, files);
  }

  /** A valid object, with a line end after the colon, that is refused. */
  lemma LineEndRefused()
    ensures var payload := [Plain('Y'), Plain('Q'), Plain('='), Plain('=')];
      var members := LastMember("", [Plain('a')], "", "\n", Json.Text(payload), "");
      && ValidMembers(members)
      && ReadMembers(PrintMembers(members) + "}", 0, map[]) == Err(ExpectedValue)
  {
    var payload := [Plain('Y'), Plain('Q'), Plain('='), Plain('=')];
    var members := LastMember("", [Plain('a')], "", "\n", Json.Text(payload), "");
    var json := PrintMembers(members) + "}";
    assert json[0..] == PrintMembers(members) + (['}'] + "");
    hide PrintMembers;
    PrintedObjectReads(json, 0, members, "", map[]);
  }
}
