/**
 * Security log lines: one JSON record, and for rule matches a classic [id]/[msg] tail on the same
 * line. The record can be cut off the line by the object-end scanner alone.
 */
module LogLine {
  import opened Prelude
  import opened JsonScan
  import opened JsonText
  import opened Text

  /** One member of a record: an escaped string, or a bare number or truth value. */
  datatype Field = Quoted(key: string, text: string) | Bare(key: string, value: Json)

  /** Keys are written as they are. */
  predicate PlainKey(key: string) {
    forall i :: 0 <= i < |key| ==> key[i] != '"' && key[i] != '\\'
  }

  predicate ValidField(f: Field) {
    PlainKey(f.key) && (f.Bare? ==> ValidJson(f.value))
  }

  function RenderValue(f: Field): string {
    match f
    case Quoted(_, text) => "\"" + Escape(text) + "\""
    case Bare(_, value) => Print(value)
  }

  function RenderField(f: Field): string {
    "\"" + f.key + "\"" + ":" + RenderValue(f)
  }

  function RenderFields(fs: seq<Field>): string {
    if fs == [] then ""
    else RenderField(fs[0]) + (if |fs| == 1 then "" else "," + RenderFields(fs[1..]))
  }

  function Record(fs: seq<Field>): string {
    "{" + RenderFields(fs) + "}"
  }

  /** The classic fragment after the record. */
  function Tail(ruleId: int, msg: string): string {
    if ruleId > 0 && msg != ""
    then " [id \"" + DecimalNat(ruleId) + "\"] [msg \"" + Sanitized(msg, 180) + "\"]"
    else ""
  }

  function Line(fs: seq<Field>, ruleId: int, msg: string): string {
    Record(fs) + Tail(ruleId, msg)
  }

  // ---------------------------------------------------------------------------
  // The classic fragment
  // ---------------------------------------------------------------------------

  predicate Disturbs(c: char) {
    c == '"' || c == '[' || c == ']' || c as int < 0x20
  }

  function Sanitized(s: string, limit: nat): string {
    seq(if |s| < limit then |s| else limit,
        i requires 0 <= i < (if |s| < limit then |s| else limit) => if Disturbs(s[i]) then ' ' else s[i])
  }

  method ClassicLogSanitize(s: string, limit: nat) returns (output: string)
    ensures output == Sanitized(s, limit)
  {
    output := "";
    var i := 0;
    while i < |s| && |output| < limit
      invariant i <= |s| && |output| == i <= limit
      invariant forall k :: 0 <= k < i ==> output[k] == (if Disturbs(s[k]) then ' ' else s[k])
    {
      var c := s[i];
      if c == '"' || c == '[' || c == ']' || c == '\n' || c == '\r' || c == '\t' {
        output := output + [' '];
      } else if c as int < 0x20 {
        output := output + [' '];
      } else {
        output := output + [c];
      }
      i := i + 1;
    }
  }

  // ---------------------------------------------------------------------------
  // The record is a JSON object, so the scanner ends exactly at its brace
  // ---------------------------------------------------------------------------

  function PlainUnits(key: string): seq<Unit> {
    seq(|key|, i requires 0 <= i < |key| => Plain(key[i]))
  }

  lemma {:induction false} PlainUnitsPrint(key: string)
    ensures PrintUnits(PlainUnits(key)) == key
  {
    if key != "" {
      assert PlainUnits(key)[1..] == PlainUnits(key[1..]);
      PlainUnitsPrint(key[1..]);
    }
  }

  function ValueOf(f: Field): Json {
    match f case Quoted(_, text) => Json.Text(EscapeUnits(text)) case Bare(_, value) => value
  }

  function MembersOf(fs: seq<Field>): Members {
    if fs == [] then NoMembers("")
    else if |fs| == 1 then LastMember("", PlainUnits(fs[0].key), "", "", ValueOf(fs[0]), "")
    else Member("", PlainUnits(fs[0].key), "", "", ValueOf(fs[0]), "", MembersOf(fs[1..]))
  }

  lemma FieldPrints(f: Field)
    requires ValidField(f)
    ensures ValidJson(ValueOf(f)) && ValidUnits(PlainUnits(f.key))
    ensures "" + Quote(PlainUnits(f.key)) + "" + [':'] + "" + Print(ValueOf(f)) + "" == RenderField(f)
  {
    hide Print, PrintUnits, PlainUnits, EscapeUnits, Escape, PlainKey;
    PlainUnitsValid(f.key);
    PlainUnitsPrint(f.key);
    ValuePrints(f);
    FieldText(f.key, Print(ValueOf(f)));
  }

  lemma PlainUnitsValid(key: string)
    requires PlainKey(key)
    ensures ValidUnits(PlainUnits(key))
  {
  }

  lemma ValuePrints(f: Field)
    requires ValidField(f)
    ensures ValidJson(ValueOf(f)) && Print(ValueOf(f)) == RenderValue(f)
  {
    hide EscapeUnits, Escape, PlainKey;
    if f.Quoted? {
      EscapeIsUnits(f.text);
    }
  }

  lemma FieldText(key: string, value: string)
    ensures "" + (['"'] + key + ['"']) + "" + [':'] + "" + value + "" == "\"" + key + "\"" + ":" + value
  {
    var quoted := ['"'] + key + ['"'];
    assert "" + quoted + "" == quoted;
    assert quoted + [':'] + "" == quoted + ":";
    assert quoted + ":" + value + "" == quoted + ":" + value;
  }

  lemma {:induction false} FieldsPrint(fs: seq<Field>)
    requires forall i :: 0 <= i < |fs| ==> ValidField(fs[i])
    ensures ValidMembers(MembersOf(fs)) && PrintMembers(MembersOf(fs)) == RenderFields(fs)
  {
    if fs != [] {
      FieldPrints(fs[0]);
      if |fs| == 1 {
        assert RenderField(fs[0]) + "" == RenderField(fs[0]);
      } else {
        FieldsPrint(fs[1..]);
        Comma(RenderField(fs[0]), RenderFields(fs[1..]));
      }
    }
  }

  lemma Comma(s: string, t: string)
    ensures s + [','] + t == s + ("," + t)
  {
  }

  /** The first 180 characters at most, with quotes, brackets and control characters blanked. */
  ghost predicate Shows(shown: string, msg: string) {
    && |shown| == (if |msg| < 180 then |msg| else 180)
    && forall k :: 0 <= k < |shown| ==>
         shown[k] == if msg[k] in ['"', '[', ']'] || msg[k] as int < 0x20 then ' ' else msg[k]
  }

  /** For a rule with a number and a message, both in brackets and quotes; otherwise nothing. */
  ghost predicate IsTail(tail: string, ruleId: int, msg: string) {
    if ruleId <= 0 || msg == "" then tail == ""
    else exists digits, shown ::
      tail == " [id \"" + digits + "\"] [msg \"" + shown + "\"]" && IsNumber(digits, ruleId) && Shows(shown, msg)
  }

  ghost predicate IsNumber(digits: string, n: int) {
    && Text.ValueOf(digits) == n && digits != "" && (digits[0] == '0' ==> n == 0)
    && forall i :: 0 <= i < |digits| ==> '0' <= digits[i] <= '9'
  }

  /**
   * For every line: the object-end scanner stops at the record's closing brace, the record is the JSON object
   * of the fields, and what is left is the classic tail.
   */
  lemma RecordEndsBeforeTail(fs: seq<Field>, ruleId: int, msg: string)
    requires forall i :: 0 <= i < |fs| ==> ValidField(fs[i])
    ensures var line, record := Line(fs, ruleId, msg), Record(fs);
      && FindEnd(Curly, line, 0) == Some(|record| - 1)
      && line[..|record|] == record == "{" + PrintMembers(MembersOf(fs)) + "}" && ValidMembers(MembersOf(fs))
      && IsTail(line[|record|..], ruleId, msg)
  {
    hide Tail, RenderFields, MembersOf, ValidMembers, PrintMembers, FindEnd, ValidField;
    FieldsPrint(fs);
    var record, tail := Record(fs), Tail(ruleId, msg);
    ObjectEndIsExact("", MembersOf(fs), tail);
    assert "" + record + tail == Line(fs, ruleId, msg);
    SplitsAt(record, tail);
    TailIs(ruleId, msg);
  }

  lemma TailIs(ruleId: int, msg: string)
    ensures IsTail(Tail(ruleId, msg), ruleId, msg)
  {
    hide DecimalNat, Sanitized, IsNumber;
    if ruleId > 0 && msg != "" {
      var digits, shown := DecimalNat(ruleId), Sanitized(msg, 180);
      assert IsNumber(digits, ruleId) by { NumberIs(ruleId); }
      assert Shows(shown, msg) by { SanitizedMeans(msg); }
      assert Tail(ruleId, msg) == " [id \"" + digits + "\"] [msg \"" + shown + "\"]";
    }
  }

  lemma NumberIs(n: nat)
    ensures IsNumber(DecimalNat(n), n)
  {
    hide DecimalNat, Text.ValueOf;
    DecimalIsTheNumber(n);
  }

  lemma SplitsAt(s: string, t: string)
    ensures (s + t)[..|s|] == s && (s + t)[|s|..] == t
  {
  }

  lemma SanitizedMeans(s: string)
    ensures Shows(Sanitized(s, 180), s)
  {
  }

  /** And each quoted value in it reads back as the text that was logged, control characters apart. */
  lemma QuotedValueReadsBack(f: Field, rest: string)
    requires f.Quoted?
    ensures ReadText((RenderValue(f) + rest)[1..], false) == (Blurred(f.text), |Escape(f.text)|)
  {
    ReadBack(f.text, rest);
    assert (RenderValue(f) + rest)[1..] == Escape(f.text) + ['"'] + rest;
  }
}
