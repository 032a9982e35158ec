/** The data_files object of a configuration: names to encoded bodies, decoded under a size budget. */
module DataFiles {
  import opened Prelude
  import opened Text
  import opened JsonScan
  import opened JsonText
  import opened JsonMeaning
  import Base64

  datatype Failure = NotAnObject | ExpectedKey | UnterminatedKey | ExpectedValue | UnterminatedValue | Unclosed

  type Files = map<string, string>

  // ---------------------------------------------------------------------------
  // Reading the object
  // ---------------------------------------------------------------------------

  predicate IsColonSpace(c: char) { c == ' ' || c == '\t' || c == ':' }

  /** Where a key that starts at k ends; a backslash takes the next character with it. */
  function KeyEnd(json: string, k: nat): (end: nat)
    ensures k <= end
    decreases |json| - k
  {
    if k >= |json| || json[k] == '"' then k
    else if json[k] == '\\' then KeyEnd(json, k + 2)
    else KeyEnd(json, k + 1)
  }

  /** The value that starts at i, and the position of its closing quote or of the end of the text. */
  function ReadValue(json: string, i: nat): (string, nat)
    decreases |json| - i
  {
    if i >= |json| || json[i] == '"' then ("", i)
    else if json[i] == '\\' && i + 1 < |json| then
      var (rest, end) := ReadValue(json, i + 2);
      ([json[i + 1]] + rest, end)
    else
      var (rest, end) := ReadValue(json, i + 1);
      ([json[i]] + rest, end)
  }

  function SkipWhile(json: string, skip: char -> bool, i: nat): nat
    decreases |json| - i
  {
    if i < |json| && skip(json[i]) then SkipWhile(json, skip, i + 1) else i
  }

  lemma {:induction false} SkipMoves(json: string, skip: char -> bool, i: nat)
    ensures i <= SkipWhile(json, skip, i)
    ensures i <= |json| ==> SkipWhile(json, skip, i) <= |json|
    decreases |json| - i
  {
    if i < |json| && skip(json[i]) {
      SkipMoves(json, skip, i + 1);
    }
  }

  lemma {:induction false} KeyEndMoves(json: string, k: nat)
    ensures KeyEnd(json, k) < |json| ==> json[KeyEnd(json, k)] == '"'
    decreases |json| - k
  {
    if k < |json| && json[k] != '"' {
      KeyEndMoves(json, if json[k] == '\\' then k + 2 else k + 1);
    }
  }

  lemma {:induction false} ReadValueMoves(json: string, i: nat)
    ensures i <= ReadValue(json, i).1
    decreases |json| - i
  {
    if i < |json| && json[i] != '"' {
      ReadValueMoves(json, if json[i] == '\\' && i + 1 < |json| then i + 2 else i + 1);
    }
  }

  /** One member: its name, its value and the position after it. */
  function ReadMember(json: string, i: nat): Result<(string, string, nat), Failure> {
    if i >= |json| || json[i] != '"' then Err(ExpectedKey)
    else
      var keyEnd := KeyEnd(json, i + 1);
      if keyEnd >= |json| then Err(UnterminatedKey)
      else
        var v := SkipWhile(json, IsColonSpace, keyEnd + 1);
        if v >= |json| || json[v] != '"' then Err(ExpectedValue)
        else
          var (value, end) := ReadValue(json, v + 1);
          if end >= |json| then Err(UnterminatedValue)
          else Ok((json[i + 1..keyEnd], value, end + 1))
  }

  lemma ReadMemberMoves(json: string, i: nat)
    ensures ReadMember(json, i).Ok? ==> i < ReadMember(json, i).value.2 <= |json|
  {
    KeyEndMoves(json, i + 1);
    SkipMoves(json, IsColonSpace, KeyEnd(json, i + 1) + 1);
    ReadValueMoves(json, SkipWhile(json, IsColonSpace, KeyEnd(json, i + 1) + 1) + 1);
  }

  /** The members from position i to the closing brace, added to those read before; the last of a name wins. */
  function ReadMembers(json: string, i: nat, files: Files): Result<Files, Failure>
    decreases |json| - i
  {
    if i >= |json| then Err(Unclosed)
    else
      var k := SkipWhile(json, IsSeparator, i);
      if k < |json| && json[k] == '}' then Ok(files)
      else
        SkipMoves(json, IsSeparator, i);
        ReadMemberMoves(json, k);
        match ReadMember(json, k)
        case Err(e) => Err(e)
        case Ok(member) => ReadMembers(json, member.2, files[member.0 := member.1])
  }

  const DATA_FILES_KEY := "\"data_files\""

  function ExtractedFiles(json: string): Result<Files, Failure> {
    match Find(json, DATA_FILES_KEY, 0)
    case None => Ok(map[])
    case Some(pos) =>
      match Find(json, "{", pos + |DATA_FILES_KEY|)
      case None => Err(NotAnObject)
      case Some(brace) => ReadMembers(json, brace + 1, map[])
  }

  method SkipAhead(json: string, skip: char -> bool, i: nat) returns (k: nat)
    ensures k == SkipWhile(json, skip, i)
  {
    k := i;
    while k < |json| && skip(json[k])
      invariant SkipWhile(json, skip, i) == SkipWhile(json, skip, k)
    {
      k := k + 1;
    }
  }

  method FindKeyEnd(json: string, i: nat) returns (k: nat)
    ensures k == KeyEnd(json, i)
  {
    k := i;
    while k < |json| && json[k] != '"'
      invariant KeyEnd(json, i) == KeyEnd(json, k)
      decreases |json| - k
    {
      if json[k] == '\\' {
        k := k + 1;
      }
      k := k + 1;
    }
  }

  /** One round of the reading loop: the character it keeps and where it goes on. */
  lemma ValueRound(json: string, i: nat, value: string)
    requires i < |json| && json[i] != '"'
    ensures var escaped := json[i] == '\\' && i + 1 < |json|;
      var kept, next := json[if escaped then i + 1 else i], if escaped then i + 2 else i + 1;
      && value + ReadValue(json, i).0 == value + [kept] + ReadValue(json, next).0
      && ReadValue(json, i).1 == ReadValue(json, next).1
  {
    var escaped := json[i] == '\\' && i + 1 < |json|;
    var kept, next := json[if escaped then i + 1 else i], if escaped then i + 2 else i + 1;
    assert ReadValue(json, i).0 == [kept] + ReadValue(json, next).0;
  }

  method ReadValueAt(json: string, start: nat) returns (value: string, i: nat)
    ensures (value, i) == ReadValue(json, start)
  {
    value, i := "", start;
    while i < |json| && json[i] != '"'
      invariant ReadValue(json, start).0 == value + ReadValue(json, i).0
      invariant ReadValue(json, start).1 == ReadValue(json, i).1
      decreases |json| - i
    {
      ValueRound(json, i, value);
      if json[i] == '\\' && i + 1 < |json| {
        value := value + [json[i + 1]];
        i := i + 2;
      } else {
        value := value + [json[i]];
        i := i + 1;
      }
    }
    assert value + "" == value;
  }

  method ExtractDataFilesObject(json: string) returns (r: Result<Files, Failure>)
    ensures r == ExtractedFiles(json)
  {
    var pos := Find(json, DATA_FILES_KEY, 0);
    if pos.None? {
      return Ok(map[]);
    }
    var brace := Find(json, "{", pos.value + |DATA_FILES_KEY|);
    if brace.None? {
      return Err(NotAnObject);
    }
    var files: Files := map[];
    var i := brace.value + 1;
    while i < |json|
      invariant ExtractedFiles(json) == ReadMembers(json, i, files)
      decreases |json| - i
    {
      var k := SkipAhead(json, IsSeparator, i);
      SkipMoves(json, IsSeparator, i);
      if k < |json| && json[k] == '}' {
        return Ok(files);
      }
      var member := ReadMemberAt(json, k);
      if member.Err? {
        return Err(member.error);
      }
      ReadMemberMoves(json, k);
      var (name, value, next) := member.value;
      files := files[name := value];
      i := next;
    }
    return Err(Unclosed);
  }

  method ReadMemberAt(json: string, i: nat) returns (r: Result<(string, string, nat), Failure>)
    ensures r == ReadMember(json, i)
  {
    if i >= |json| || json[i] != '"' {
      return Err(ExpectedKey);
    }
    var keyEnd := FindKeyEnd(json, i + 1);
    KeyEndMoves(json, i + 1);
    if keyEnd >= |json| {
      return Err(UnterminatedKey);
    }
    var v := SkipAhead(json, IsColonSpace, keyEnd + 1);
    if v >= |json| || json[v] != '"' {
      return Err(ExpectedValue);
    }
    var value, end := ReadValueAt(json, v + 1);
    if end >= |json| {
      return Err(UnterminatedValue);
    }
    return Ok((json[i + 1..keyEnd], value, end + 1));
  }

  // ---------------------------------------------------------------------------
  // Decoding under the budget
  // ---------------------------------------------------------------------------

  const MAX_FILE := 2097152

  const MAX_TOTAL := 2097152

  /** Inflation of a payload, None when it fails or exceeds its own limit. */
  type Inflater = Bytes -> Option<Bytes>

  /** The value of a string member, wherever its quoted name first occurs; empty when absent. */
  function StringValue(json: string, key: string): string {
    match Find(json, "\"" + key + "\"", 0)
    case None => ""
    case Some(pos) =>
      match Find(json, ":", pos + |key| + 2)
      case None => ""
      case Some(colon) =>
        match Find(json, "\"", colon)
        case None => ""
        case Some(q) => if q + 1 > |json| then "" else ReadText(json[q + 1..], false).0
  }

  method ExtractStringValue(json: string, key: string) returns (value: string)
    ensures value == StringValue(json, key)
  {
    hide Find, ReadText;
    var pos := Find(json, "\"" + key + "\"", 0);
    if pos.None? {
      return "";
    }
    var colon := Find(json, ":", pos.value + |key| + 2);
    if colon.None? {
      return "";
    }
    FindMeans(json, "\"", colon.value);
    var q := Find(json, "\"", colon.value);
    if q.None? {
      return "";
    }
    var end;
    value, end := ReadStringAt(json, q.value + 1);
  }

  /**
   * A string member as a text has it: the key first occurs in quotes at `at`, the first colon after that is
   * at `colon`, the first quote from there at `open`, and from it to `close` these elements are spelled.
   */
  ghost predicate StringMember(
      json: string, key: string, at: nat, colon: nat, open: nat, close: nat, us: seq<Unit>)
  {
    && at + |key| + 2 <= colon < open < close < |json|
    && OccursAt(json, "\"" + key + "\"", at) && (forall k: nat :: k < at ==> !OccursAt(json, "\"" + key + "\"", k))
    && json[colon] == ':' && (forall k :: at + |key| + 2 <= k < colon ==> json[k] != ':')
    && json[open] == '"' && (forall k :: colon < k < open ==> json[k] != '"')
    && ValidUnits(us) && json[open + 1..close] == PrintUnits(us) && json[close] == '"'
  }

  /** A text that is given for a key, or the empty text when the key occurs nowhere in quotes. */
  ghost predicate Gives(json: string, key: string, text: string) {
    || (text == "" && forall k: nat :: !OccursAt(json, "\"" + key + "\"", k))
    || (exists at, colon, open, close, us ::
         StringMember(json, key, at, colon, open, close, us) && text == ReadUnits(us))
  }

  lemma CharAt(json: string, c: char, from: nat, at: nat)
    requires from <= at < |json| && json[at] == c && forall k :: from <= k < at ==> json[k] != c
    ensures Find(json, [c], from) == Some(at)
  {
    assert json[at..at + 1] == [c];
    forall k: nat | from <= k < at ensures !OccursAt(json, [c], k) {
      assert json[k..k + 1][0] == json[k];
    }
    FindIs(json, [c], from, at);
  }

  /** The extractor takes the string that follows the key and its colon, and nothing else of the text. */
  lemma StringMemberRead(json: string, key: string, at: nat, colon: nat, open: nat, close: nat, us: seq<Unit>)
    requires StringMember(json, key, at, colon, open, close, us)
    ensures StringValue(json, key) == ReadUnits(us)
  {
    hide Find, ReadText, ReadUnits, ValidUnits, PrintUnits;
    FindIs(json, "\"" + key + "\"", 0, at);
    CharAt(json, ':', at + |key| + 2, colon);
    CharAt(json, '"', colon, open);
    assert json[open + 1..] == json[open + 1..close] + ['"'] + json[close + 1..];
    UnitsRead(us, json[close + 1..]);
  }

  lemma GivenIsRead(json: string, key: string, text: string)
    requires Gives(json, key, text)
    ensures StringValue(json, key) == text
  {
    hide StringMember, ReadUnits;
    if text == "" && forall k: nat :: !OccursAt(json, "\"" + key + "\"", k) {
      FindMeans(json, "\"" + key + "\"", 0);
    } else {
      var at, colon, open, close, us :|
        StringMember(json, key, at, colon, open, close, us) && text == ReadUnits(us);
      StringMemberRead(json, key, at, colon, open, close, us);
    }
  }

  function IsGzip(encoding: string): bool {
    encoding == "gzip+base64" || encoding == "gzip"
  }

  function DecodeOne(payload: string, gzip: bool, inflate: Inflater): Option<Bytes> {
    match Base64.Decoded(payload)
    case None => None
    case Some(bytes) => if gzip then inflate(bytes) else Some(bytes)
  }

  ghost function Total(m: map<string, Bytes>): nat
    decreases |m|
  {
    if m == map[] then 0
    else
      var k :| k in m;
      |m[k]| + Total(m - {k})
  }

  /** The sum does not depend on the order in which it is taken. */
  lemma {:induction false} TotalSplits(m: map<string, Bytes>, k: string)
    requires k in m
    ensures Total(m) == |m[k]| + Total(m - {k})
    decreases |m|
  {
    var j :| j in m && Total(m) == |m[j]| + Total(m - {j});
    if j != k {
      TotalSplits(m - {j}, k);
      TotalSplits(m - {k}, j);
      assert m - {j} - {k} == m - {k} - {j};
    }
  }

  lemma {:induction false} TotalGrows(small: map<string, Bytes>, large: map<string, Bytes>)
    requires small.Keys <= large.Keys && forall k :: k in small ==> small[k] == large[k]
    ensures Total(small) <= Total(large)
    decreases |small|
  {
    if small != map[] {
      var k :| k in small;
      TotalSplits(small, k);
      TotalSplits(large, k);
      TotalGrows(small - {k}, large - {k});
    }
  }

  ghost predicate AllDecode(files: Files, gzip: bool, inflate: Inflater) {
    forall k :: k in files ==> DecodeOne(files[k], gzip, inflate).Some?
  }

  ghost function DecodedFiles(files: Files, gzip: bool, inflate: Inflater): map<string, Bytes>
    requires AllDecode(files, gzip, inflate)
  {
    map k | k in files :: DecodeOne(files[k], gzip, inflate).value
  }

  /** All payloads decode and their sizes sum to at most two mebibytes. */
  ghost predicate WithinBudget(files: Files, gzip: bool, inflate: Inflater) {
    AllDecode(files, gzip, inflate) && Total(DecodedFiles(files, gzip, inflate)) <= 2097152
  }

  /** After part of the map: what is decoded so far, under the budget. */
  ghost predicate Progress(
      files: Files, gzip: bool, inflate: Inflater, left: set<string>, decoded: map<string, Bytes>, total: int)
  {
    && left <= files.Keys && decoded.Keys == files.Keys - left
    && (forall k :: k in decoded ==> DecodeOne(files[k], gzip, inflate) == Some(decoded[k]))
    && total == Total(decoded) <= MAX_TOTAL
  }

  /** The next file either fails or pushes the sum over the budget, or progress is made. */
  lemma NextFile(
      files: Files, gzip: bool, inflate: Inflater, left: set<string>, decoded: map<string, Bytes>, total: int,
      k: string)
    requires Progress(files, gzip, inflate, left, decoded, total) && k in left
    ensures var one := DecodeOne(files[k], gzip, inflate);
      if one.None? || total + |one.value| > MAX_TOTAL then !WithinBudget(files, gzip, inflate)
      else Progress(files, gzip, inflate, left - {k}, decoded[k := one.value], total + |one.value|)
  {
    hide DecodeOne, Total;
    var one := DecodeOne(files[k], gzip, inflate);
    if one.Some? {
      var more := decoded[k := one.value];
      TotalSplits(more, k);
      assert more - {k} == decoded;
      if AllDecode(files, gzip, inflate) {
        TotalGrows(more, DecodedFiles(files, gzip, inflate));
      }
    }
  }

  /** When nothing is left, everything is decoded. */
  lemma NothingLeft(files: Files, gzip: bool, inflate: Inflater, decoded: map<string, Bytes>, total: int)
    requires Progress(files, gzip, inflate, {}, decoded, total)
    ensures WithinBudget(files, gzip, inflate) && decoded == DecodedFiles(files, gzip, inflate)
  {
    hide DecodeOne, Total;
    forall k | k in files ensures DecodeOne(files[k], gzip, inflate).Some? {
      assert k in decoded;
    }
    assert decoded == DecodedFiles(files, gzip, inflate);
  }

  /**
   * Decode the files in whatever order the map yields them. Success and result do not depend on
   * that order: it succeeds exactly within the budget, with every file decoded.
   */
  method DecodeFiles(files: Files, gzip: bool, inflate: Inflater) returns (r: Option<map<string, Bytes>>)
    ensures r.Some? <==> WithinBudget(files, gzip, inflate)
    ensures r.Some? ==> r.value == DecodedFiles(files, gzip, inflate)
  {
    hide DecodeOne, Total, WithinBudget, Progress, DecodedFiles;
    var decoded: map<string, Bytes> := map[];
    var total := 0;
    var left := files.Keys;
    ProgressStarts(files, gzip, inflate);
    while left != {}
      invariant left <= files.Keys && Progress(files, gzip, inflate, left, decoded, total)
      decreases |left|
    {
      var k :| k in left;
      NextFile(files, gzip, inflate, left, decoded, total, k);
      var one := DecodeOne(files[k], gzip, inflate);
      if one.None? {
        return None;
      }
      TotalIsNat(files, gzip, inflate, left, decoded, total);
      if |one.value| > MAX_FILE {
        return None;
      }
      total := total + |one.value|;
      if total > MAX_TOTAL {
        return None;
      }
      decoded := decoded[k := one.value];
      left := left - {k};
    }
    NothingLeft(files, gzip, inflate, decoded, total);
    return Some(decoded);
  }

  lemma ProgressStarts(files: Files, gzip: bool, inflate: Inflater)
    ensures Progress(files, gzip, inflate, files.Keys, map[], 0)
  {
  }

  lemma TotalIsNat(
      files: Files, gzip: bool, inflate: Inflater, left: set<string>, decoded: map<string, Bytes>, total: int)
    requires Progress(files, gzip, inflate, left, decoded, total)
    ensures total >= 0
  {
  }

  /** What the whole operation means: the files, or a failure to read the object or keep the budget. */
  ghost function Parsed(config: string, inflate: Inflater): Option<map<string, Bytes>> {
    var t := Trim(config);
    if t == "" || t[0] != '{' then Some(map[])
    else
      var files := ExtractedFiles(config);
      var gzip := IsGzip(StringValue(config, "data_files_encoding"));
      if files.Err? then None
      else if WithinBudget(files.value, gzip, inflate) then Some(DecodedFiles(files.value, gzip, inflate))
      else None
  }

  method ParseDataFiles(config: string, inflate: Inflater) returns (r: Option<map<string, Bytes>>)
    ensures r == Parsed(config, inflate)
  {
    var t := TrimText(config);
    if t == "" || t[0] != '{' {
      return Some(map[]);
    }
    var files := ExtractDataFilesObject(config);
    if files.Err? {
      return None;
    }
    var encoding := ExtractStringValue(config, "data_files_encoding");
    r := DecodeFiles(files.value, IsGzip(encoding), inflate);
  }

  // ---------------------------------------------------------------------------
  // Round trip
  // ---------------------------------------------------------------------------

  /** Where one member lies: its two pairs of quotes. */
  datatype Place = Place(key: nat, keyEnd: nat, value: nat, valueEnd: nat)

  /** What a reader makes of string elements that keeps each escaped character as it is. */
  function Chars(us: seq<Unit>): string { ReadWith(Itself, us) }

  function Itself(c: char): char { c }

  /** Between its quotes, the text is these string elements. */
  predicate Spells(text: string, us: seq<Unit>) { ValidUnits(us) && PrintUnits(us) == text }

  /** A name may be any string; it is taken as spelled, escapes included. */
  ghost predicate IsName(text: string) { exists us :: Spells(text, us) }

  /** So may a payload, whose escapes are undone. */
  ghost predicate IsPayload(text: string, payload: string) { exists us :: Spells(text, us) && Chars(us) == payload }

  /** Between a name and its payload: white space and the colon. */
  predicate IsGap(c: char) { IsWhite(c) || c == ':' }

  /** No line ends between the name and the payload. */
  ghost predicate OnOneLine(json: string, p: Place) {
    forall k :: p.keyEnd < k < p.value && k < |json| ==> json[k] != '\n' && json[k] != '\r'
  }

  /** A member with this name and payload is written at this place, after separators from i. */
  ghost predicate MemberAt(json: string, i: nat, p: Place, name: string, payload: string) {
    && i <= p.key < p.keyEnd < p.value < p.valueEnd < |json|
    && (forall k :: i <= k < p.key ==> IsSeparator(json[k]))
    && json[p.key] == '"' && json[p.key + 1..p.keyEnd] == name && json[p.keyEnd] == '"'
    && (forall k :: p.keyEnd < k < p.value ==> IsGap(json[k]))
    && json[p.value] == '"' && IsPayload(json[p.value + 1..p.valueEnd], payload) && json[p.valueEnd] == '"'
    && IsName(name)
  }

  /** The members of an object, written in this order between position i and the closing brace. */
  ghost predicate MembersAt(json: string, i: nat, places: seq<Place>, members: seq<(string, string)>, close: nat)
    decreases |places|
  {
    && |places| == |members|
    && if places == [] then
         i <= close < |json| && json[close] == '}' && forall k :: i <= k < close ==> IsSeparator(json[k])
       else
         MemberAt(json, i, places[0], members[0].0, members[0].1)
         && MembersAt(json, places[0].valueEnd + 1, places[1..], members[1..], close)
  }

  function Collected(files: Files, members: seq<(string, string)>): Files
    decreases |members|
  {
    if members == [] then files else Collected(files[members[0].0 := members[0].1], members[1..])
  }

  lemma {:induction false} SkipsTo(json: string, skip: char -> bool, i: nat, to: nat)
    requires i <= to < |json| && !skip(json[to]) && forall k :: i <= k < to ==> skip(json[k])
    ensures SkipWhile(json, skip, i) == to
    decreases |json| - i
  {
    if i < to {
      SkipsTo(json, skip, i + 1, to);
    }
  }

  /** The first element of a spelled text: one character, or two when it is escaped. */
  lemma FirstUnit(json: string, k: nat, to: nat, us: seq<Unit>)
    requires k <= to <= |json| && Spells(json[k..to], us) && us != []
    ensures var width := |us[0].Print()|;
      && k + width <= to && Spells(json[k + width..to], us[1..])
      && (if us[0].Escaped? then json[k] == '\\' && json[k + 1] == us[0].c
          else json[k] == us[0].c && json[k] != '"' && json[k] != '\\')
  {
    var text := json[k..to];
    var width := |us[0].Print()|;
    assert us[0].Valid();
    assert text == us[0].Print() + PrintUnits(us[1..]);
    assert text[..width] == us[0].Print() && text[width..] == PrintUnits(us[1..]);
    assert json[k + width..to] == text[width..];
    assert forall i :: 0 <= i < width ==> json[k + i] == text[i] == us[0].Print()[i];
  }

  lemma {:induction false} KeyEndsAt(json: string, k: nat, to: nat, us: seq<Unit>)
    requires k <= to < |json| && json[to] == '"' && Spells(json[k..to], us)
    ensures KeyEnd(json, k) == to
    decreases |us|
  {
    hide Spells;
    if us == [] {
      NothingSpelled(json, k, to, us);
    } else {
      FirstUnit(json, k, to, us);
      KeyEndsAt(json, k + |us[0].Print()|, to, us[1..]);
    }
  }

  lemma NothingSpelled(json: string, k: nat, to: nat, us: seq<Unit>)
    requires k <= to <= |json| && Spells(json[k..to], us) && us == []
    ensures k == to
  {
  }

  lemma {:induction false} ValueReads(json: string, k: nat, to: nat, us: seq<Unit>)
    requires k <= to < |json| && json[to] == '"' && Spells(json[k..to], us)
    ensures ReadValue(json, k) == (Chars(us), to)
    decreases |us|
  {
    hide Spells;
    if us == [] {
      NothingSpelled(json, k, to, us);
    } else {
      FirstUnit(json, k, to, us);
      ValueReads(json, k + |us[0].Print()|, to, us[1..]);
    }
  }

  /** A line end in the gap stops the scan there. */
  lemma {:induction false} StopsAtLineEnd(json: string, i: nat, to: nat)
    requires i <= to < |json| && forall k :: i <= k < to ==> IsGap(json[k])
    requires exists k :: i <= k < to && (json[k] == '\n' || json[k] == '\r')
    ensures SkipWhile(json, IsColonSpace, i) < to && json[SkipWhile(json, IsColonSpace, i)] != '"'
    decreases |json| - i
  {
    if IsColonSpace(json[i]) {
      StopsAtLineEnd(json, i + 1, to);
    }
  }

  /** A member is read if it stands on one line, up to its payload; otherwise reading fails. */
  lemma MemberReads(json: string, i: nat, p: Place, name: string, payload: string)
    requires MemberAt(json, i, p, name, payload)
    ensures SkipWhile(json, IsSeparator, i) == p.key
    ensures ReadMember(json, p.key) ==
      if OnOneLine(json, p) then Ok((name, payload, p.valueEnd + 1)) else Err(ExpectedValue)
  {
    hide KeyEnd, ReadValue, SkipWhile, Spells, Chars;
    var key :| Spells(name, key);
    var value :| Spells(json[p.value + 1..p.valueEnd], value) && Chars(value) == payload;
    SkipsTo(json, IsSeparator, i, p.key);
    KeyEndsAt(json, p.key + 1, p.keyEnd, key);
    if OnOneLine(json, p) {
      SkipsTo(json, IsColonSpace, p.keyEnd + 1, p.value);
      ValueReads(json, p.value + 1, p.valueEnd, value);
    } else {
      StopsAtLineEnd(json, p.keyEnd + 1, p.value);
    }
  }

  ghost predicate AllOnOneLine(json: string, places: seq<Place>) {
    forall i :: 0 <= i < |places| ==> OnOneLine(json, places[i])
  }

  /** Written members are read as written if each stands on one line; otherwise the whole object is refused. */
  lemma {:induction false} MembersRead(
      json: string, i: nat, places: seq<Place>, members: seq<(string, string)>, close: nat, files: Files)
    requires MembersAt(json, i, places, members, close)
    ensures ReadMembers(json, i, files) ==
      if AllOnOneLine(json, places) then Ok(Collected(files, members)) else Err(ExpectedValue)
    decreases |places|
  {
    hide ReadMember, SkipWhile, IsName, IsPayload, IsColonSpace, IsGap, OnOneLine;
    if places == [] {
      SkipsTo(json, IsSeparator, i, close);
    } else {
      MemberReads(json, i, places[0], members[0].0, members[0].1);
      MembersRead(
        json, places[0].valueEnd + 1, places[1..], members[1..], close, files[members[0].0 := members[0].1]);
      FirstOnOneLine(json, places);
    }
  }

  lemma FirstOnOneLine(json: string, places: seq<Place>)
    requires places != []
    ensures AllOnOneLine(json, places) <==> OnOneLine(json, places[0]) && AllOnOneLine(json, places[1..])
  {
    hide OnOneLine;
    assert forall i :: 1 <= i < |places| ==> places[i] == places[1..][i - 1];
  }

  // ---------------------------------------------------------------------------
  // Names and payloads as JSON means them
  // ---------------------------------------------------------------------------

  /** An escape that stands for the character after the backslash. */
  predicate StandsForItself(u: Unit) { u.Plain? || u.c == '"' || u.c == '\\' || u.c == '/' }

  lemma ForeignToItself(u: Unit)
    requires u.Escaped? && u.c != 'u' ==> IsShortEscape(u.c)
    ensures IsForeign(Itself, u) <==> !StandsForItself(u)
  {
  }

  /** A payload is read as meant exactly if its only escapes are those of quote, backslash and slash. */
  lemma PayloadAsMeant(us: seq<Unit>)
    requires WellSpelled(us)
    ensures Utf16(Chars(us)) == Meaning(us) <==> forall i :: 0 <= i < |us| ==> StandsForItself(us[i])
  {
    hide Utf16, Meaning, WellSpelled, ReadWith, IsForeign, StandsForItself, IsShortEscape;
    ItselfIsNarrow();
    ReadsAsMeant(Itself, us);
    ShortEscapesOnly(us);
    forall i | 0 <= i < |us| ensures IsForeign(Itself, us[i]) <==> !StandsForItself(us[i]) {
      ForeignToItself(us[i]);
    }
  }

  lemma ItselfIsNarrow()
    ensures forall c :: IsShortEscape(c) ==> Itself(c) as int < 0x10000
  {
  }

  /** A name is taken as it is spelled, which is what it means exactly if it has no escape. */
  lemma {:induction false} NameAsMeant(us: seq<Unit>)
    requires WellSpelled(us)
    ensures |Utf16(PrintUnits(us))| >= |Meaning(us)|
    ensures Utf16(PrintUnits(us)) == Meaning(us) <==> forall i :: 0 <= i < |us| ==> us[i].Plain?
    decreases |us|
  {
    hide Utf16, IsControl, IsShortEscape, FourDigits;
    if us == [] {
      assert Utf16("") == [] by { NothingRead(c => c); }
    } else {
      var rest := PrintUnits(us[1..]);
      assert forall i :: 1 <= i < |us| ==> us[i] == us[1..][i - 1];
      if us[0].Plain? {
        NameAsMeant(us[1..]);
        Utf16More(us[0].c, rest);
        SameFront(Units16(us[0].c), Units16(us[0].c), Utf16(rest), Meaning(us[1..]));
      } else {
        var k := EscapeIsLonger(us);
        NameAsMeant(us[k..]);
      }
    }
  }

  lemma EscapeIsLonger(us: seq<Unit>) returns (k: nat)
    requires us != [] && us[0].Escaped? && WellSpelled(us)
    ensures 0 < k <= |us| && WellSpelled(us[k..]) && |Meaning(us)| == 1 + |Meaning(us[k..])|
    ensures |Utf16(PrintUnits(us))| > 1 + |Utf16(PrintUnits(us[k..]))|
  {
    k := if us[0].c == 'u' then 5 else 1;
    assert us == us[..k] + us[k..];
    PrintUnitsConcat(us[..k], us[k..]);
    assert PrintUnits(us[..k]) == us[..k][0].Print() + PrintUnits(us[..k][1..]);
    Utf16Length(PrintUnits(us[..k]), PrintUnits(us[k..]));
  }

  /** The files a configuration was written from; the last of a name wins. */
  function Named(acc: map<string, Bytes>, members: seq<(string, string)>, bodies: seq<Bytes>): map<string, Bytes>
    requires |members| == |bodies|
    decreases |members|
  {
    if members == [] then acc else Named(acc[members[0].0 := bodies[0]], members[1..], bodies[1..])
  }

  /**
   * Each payload carries its octets in base64, padded or not, with any white space in it; the octets
   * are the body, or inflate to it when the encoding says gzip.
   */
  ghost predicate Carries(
      members: seq<(string, string)>, packed: seq<Bytes>, bodies: seq<Bytes>, gzip: bool, inflate: Inflater)
  {
    && |members| == |packed| == |bodies|
    && (forall i :: 0 <= i < |members| ==>
         Base64.Stripped(members[i].1) == Base64.Stripped(Base64.Encode(packed[i])))
    && (forall i :: 0 <= i < |members| ==>
         if gzip then inflate(packed[i]) == Some(bodies[i]) else packed[i] == bodies[i])
  }

  ghost predicate Decodes(files: Files, acc: map<string, Bytes>, gzip: bool, inflate: Inflater) {
    files.Keys == acc.Keys && forall k :: k in files ==> DecodeOne(files[k], gzip, inflate) == Some(acc[k])
  }

  lemma {:induction false} CollectedDecodes(
      files: Files, acc: map<string, Bytes>, members: seq<(string, string)>, packed: seq<Bytes>, bodies: seq<Bytes>,
      gzip: bool, inflate: Inflater)
    requires Carries(members, packed, bodies, gzip, inflate) && Decodes(files, acc, gzip, inflate)
    ensures Decodes(Collected(files, members), Named(acc, members, bodies), gzip, inflate)
    decreases |members|
  {
    hide Base64.Stripped, Base64.Encode, Base64.Decoded;
    if members != [] {
      Base64.RoundTrip(packed[0], members[0].1);
      assert Carries(members[1..], packed[1..], bodies[1..], gzip, inflate);
      CollectedDecodes(
        files[members[0].0 := members[0].1], acc[members[0].0 := bodies[0]], members[1..], packed[1..], bodies[1..],
        gzip, inflate);
    }
  }

  /** The configuration is an object whose data_files member starts at this brace and closes there. */
  ghost predicate Written(
      config: string, key: nat, brace: nat, places: seq<Place>, members: seq<(string, string)>, close: nat)
  {
    && (exists k :: 0 <= k < |config| && config[k] == '{' && forall i :: 0 <= i < k ==> IsSpace(config[i]))
    && OccursAt(config, "\"data_files\"", key) && (forall k: nat :: k < key ==> !OccursAt(config, "\"data_files\"", k))
    && key + 12 <= brace < |config| && config[brace] == '{'
    && (forall k :: key + 12 <= k < brace ==> config[k] != '{')
    && MembersAt(config, brace + 1, places, members, close)
  }

  /** The first character that is no white space stays the first of the trimmed text. */
  lemma {:induction false} TrimmedStarts(config: string, k: nat)
    requires k < |config| && !IsSpace(config[k]) && forall i :: 0 <= i < k ==> IsSpace(config[i])
    ensures Trim(config) != "" && Trim(config)[0] == config[k]
    decreases k
  {
    if k == 0 {
      KeepsFirst(config);
    } else {
      assert config[1..][k - 1] == config[k];
      TrimmedStarts(config[1..], k - 1);
    }
  }

  lemma {:induction false} KeepsFirst(s: string)
    requires s != "" && !IsSpace(s[0])
    ensures TrimRight(s) != "" && TrimRight(s)[0] == s[0]
    decreases |s|
  {
    if IsSpace(s[|s| - 1]) {
      KeepsFirst(s[..|s| - 1]);
    }
  }

  lemma WrittenFiles(
      config: string, key: nat, brace: nat, places: seq<Place>, members: seq<(string, string)>, close: nat)
    requires Written(config, key, brace, places, members, close)
    ensures Trim(config) != "" && Trim(config)[0] == '{'
    ensures ExtractedFiles(config) ==
      if AllOnOneLine(config, places) then Ok(Collected(map[], members)) else Err(ExpectedValue)
  {
    hide Find, Trim, MembersAt, AllOnOneLine, ReadMembers, Collected;
    var k :| 0 <= k < |config| && config[k] == '{' && forall i :: 0 <= i < k ==> IsSpace(config[i]);
    TrimmedStarts(config, k);
    FindIs(config, DATA_FILES_KEY, 0, key);
    CharAt(config, '{', key + 12, brace);
    MembersRead(config, brace + 1, places, members, close, map[]);
  }

  /** A text that is no object, or names no data files, has none; a key without an object after it fails. */
  lemma NothingWritten(config: string, first: nat, inflate: Inflater)
    requires first < |config| && !IsSpace(config[first]) && forall i :: 0 <= i < first ==> IsSpace(config[i])
    ensures config[first] != '{' ==> Parsed(config, inflate) == Some(map[])
    ensures (forall k: nat :: !OccursAt(config, "\"data_files\"", k)) ==> Parsed(config, inflate) == Some(map[])
    ensures forall k: nat ::
      (config[first] == '{' && OccursAt(config, "\"data_files\"", k) && '{' !in config[k..]
       && forall j: nat :: j < k ==> !OccursAt(config, "\"data_files\"", j)) ==> Parsed(config, inflate) == None
  {
    hide Trim, StringValue, DecodeOne, ReadMembers, Find;
    TrimmedStarts(config, first);
    FindMeans(config, DATA_FILES_KEY, 0);
    NoFiles(false, inflate);
    NoFiles(true, inflate);
    var key := Find(config, DATA_FILES_KEY, 0);
    if key.Some? && '{' !in config[key.value..] {
      NoBrace(config, key.value);
    }
  }

  lemma NoBrace(config: string, key: nat)
    requires key + 12 <= |config| && '{' !in config[key..]
    ensures Find(config, "{", key + 12) == None
  {
    FindMeans(config, "{", key + 12);
    forall k: nat | key + 12 <= k < |config| ensures !OccursAt(config, "{", k) {
      assert config[k..k + 1][0] == config[key..][k - key];
    }
  }

  lemma NoFiles(gzip: bool, inflate: Inflater)
    ensures WithinBudget(map[], gzip, inflate) && DecodedFiles(map[], gzip, inflate) == map[]
  {
  }

  /**
   * Parsing gives back the files that were written, in the encoding that was written, if each member stands
   * on one line and all of them together keep the budget of two mebibytes, and fails otherwise.
   */
  lemma ParsesWhatWasWritten(
      config: string, key: nat, brace: nat, places: seq<Place>, members: seq<(string, string)>, close: nat,
      encoding: string, packed: seq<Bytes>, bodies: seq<Bytes>, inflate: Inflater)
    requires Written(config, key, brace, places, members, close)
    requires Gives(config, "data_files_encoding", encoding)
    requires Carries(members, packed, bodies, encoding in ["gzip+base64", "gzip"], inflate)
    ensures var files := Named(map[], members, bodies);
      Parsed(config, inflate) ==
        if AllOnOneLine(config, places) && Total(files) <= 2097152 then Some(files) else None
  {
    hide AllOnOneLine, Written, Gives;
    hide Trim, Base64.Decoded, Total, StringValue, Named, Collected, DecodeOne, ExtractedFiles;
    var gzip := encoding in ["gzip+base64", "gzip"];
    assert IsGzip(encoding) == gzip;
    GivenIsRead(config, "data_files_encoding", encoding);
    WrittenFiles(config, key, brace, places, members, close);
    CollectedDecodes(map[], map[], members, packed, bodies, gzip, inflate);
    var files, encoded := Named(map[], members, bodies), Collected(map[], members);
    assert AllDecode(encoded, gzip, inflate);
    assert DecodedFiles(encoded, gzip, inflate) == files;
  }
}
