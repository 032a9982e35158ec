/** What the extractor returns of a directive list printed into a configuration text, however it is spelled. */
module DirectiveList {
  import opened Prelude
  import opened Text
  import opened JsonScan
  import opened JsonText
  import opened JsonMeaning

  /** A list element: a string, spelled in any way, and the white space around it. */
  datatype Element = Element(before: string, units: seq<Unit>, after: string)

  predicate Laid(es: seq<Element>) {
    forall i :: 0 <= i < |es| ==> Blank(es[i].before) && Blank(es[i].after) && ValidUnits(es[i].units)
  }

  /** The elements as the items of a JSON array. */
  function ListItems(es: seq<Element>, space: string): Items {
    if es == [] then NoItems(space)
    else
      var value := Json.Text(es[0].units);
      if |es| == 1 then LastItem(es[0].before, value, es[0].after)
      else Item(es[0].before, value, es[0].after, ListItems(es[1..], space))
  }

  function PrintList(es: seq<Element>, space: string): string {
    Print(Array(ListItems(es, space)))
  }

  /** What the extractor keeps: every string that is not empty, as it reads back. */
  function Kept(es: seq<Element>): seq<string> {
    if es == [] then []
    else (if es[0].units == [] then [] else [ReadUnits(es[0].units)]) + Kept(es[1..])
  }

  lemma {:induction false} ListIsValid(es: seq<Element>, space: string)
    requires Laid(es) && Blank(space)
    ensures ValidItems(ListItems(es, space))
  {
    if es != [] {
      if |es| > 1 {
        ListIsValid(es[1..], space);
      }
    }
  }

  /** From the text of the first element to the end of the printed list. */
  function AfterText(es: seq<Element>, space: string): string
    requires es != []
  {
    es[0].after + (if |es| == 1 then "" else [','] + PrintItems(ListItems(es[1..], space)))
  }

  lemma QuotedText(us: seq<Unit>)
    ensures Quote(us) == ['"'] + (PrintUnits(us) + ['"'])
  {
  }

  lemma RegroupLast(a: string, q: string, c: string)
    ensures a + (['"'] + q) + c == a + (['"'] + (q + c))
  {
  }

  lemma RegroupMore(a: string, q: string, c: string, d: string)
    ensures a + (['"'] + q) + c + [','] + d == a + (['"'] + (q + (c + ([','] + d))))
  {
  }

  lemma PrintedList(es: seq<Element>, space: string)
    requires es != []
    ensures PrintItems(ListItems(es, space)) ==
      es[0].before + (['"'] + (PrintUnits(es[0].units) + ['"'] + AfterText(es, space)))
  {
    var e := es[0];
    QuotedText(e.units);
    var q := PrintUnits(e.units) + ['"'];
    if |es| == 1 {
      RegroupLast(e.before, q, e.after);
      assert e.after + "" == e.after;
    } else {
      RegroupMore(e.before, q, e.after, PrintItems(ListItems(es[1..], space)));
    }
  }

  lemma {:induction false} FirstNotSkips(json: string, out: char -> bool, from: nat, to: nat)
    requires from <= to < |json| && !out(json[to])
    requires forall k :: from <= k < to ==> out(json[k])
    ensures FirstNot(json, out, from) == Some(to)
    decreases |json| - from
  {
    if from < to {
      FirstNotSkips(json, out, from + 1, to);
    }
  }

  lemma NextQuote(json: string, i: nat, before: string, rest: string)
    requires i <= |json| && json[i..] == before + (['"'] + rest) && Blank(before)
    ensures Find(json, "\"", i) == Some(i + |before|)
    ensures i + |before| + 1 <= |json| && json[i + |before| + 1..] == rest
  {
    var q := i + |before|;
    assert json[q..] == ['"'] + rest;
    assert OccursAt(json, "\"", q) by {
      assert json[q..q + 1] == ['"'];
    }
    forall k: nat | i <= k < q ensures !OccursAt(json, "\"", k) {
      assert json[k] == json[i..][k - i] == before[k - i];
      assert k + 1 <= |json| ==> json[k..k + 1][0] == json[k];
    }
    FindIs(json, "\"", i, q);
  }

  lemma TextRead(json: string, i: nat, before: string, us: seq<Unit>, tail: string)
    requires Blank(before) && ValidUnits(us)
    requires i <= |json| && json[i..] == before + (['"'] + (PrintUnits(us) + ['"'] + tail))
    ensures var q := i + |before|;
      var after := q + 1 + |PrintUnits(us)| + 1;
      && Find(json, "\"", i) == Some(q)
      && q + 1 <= |json|
      && ReadText(json[q + 1..], false) == (ReadUnits(us), |PrintUnits(us)|)
      && after <= |json|
      && json[after..] == tail
  {
    var esc := PrintUnits(us);
    var body := esc + ['"'] + tail;
    NextQuote(json, i, before, body);
    UnitsRead(us, tail);
    var rest := json[i + |before| + 1..];
    assert rest[|esc| + 1..] == tail;
    assert rest[|esc| + 1..] == json[i + |before| + 1 + |esc| + 1..];
  }

  /** The first element of a printed list: its quote, its text, and what follows. */
  lemma ElementRead(json: string, i: nat, e: Element, printed: string, more: string, end: string)
    requires Blank(e.before) && ValidUnits(e.units)
    requires printed == e.before + (['"'] + (PrintUnits(e.units) + ['"'] + more))
    requires i <= |json| && json[i..] == printed + end
    ensures var q := i + |e.before|;
      var after := q + 1 + |PrintUnits(e.units)| + 1;
      && Find(json, "\"", i) == Some(q)
      && q + 1 <= |json|
      && ReadText(json[q + 1..], false) == (ReadUnits(e.units), |PrintUnits(e.units)|)
      && after <= |json|
      && json[after..] == more + end
  {
    Regroup(e.before, PrintUnits(e.units), more, end);
    TextRead(json, i, e.before, e.units, more + end);
  }

  lemma Regroup(a: string, b: string, c: string, d: string)
    ensures a + (['"'] + (b + ['"'] + c)) + d == a + (['"'] + (b + ['"'] + (c + d)))
  {
  }

  /** After the last element, only white space and the closing bracket. */
  lemma StopsAtBracket(json: string, after: nat, blanks: string, rest: string)
    requires after <= |json| && Blank(blanks) && json[after..] == blanks + ([']'] + rest)
    ensures FirstNot(json, IsSeparator, after) == Some(after + |blanks|)
  {
    var to := after + |blanks|;
    assert json[to] == json[after..][|blanks|] == ']';
    forall k | after <= k < to ensures IsSeparator(json[k]) {
      assert json[k] == json[after..][k - after] == blanks[k - after];
    }
    FirstNotSkips(json, IsSeparator, after, to);
  }

  lemma LandsOnQuote(json: string, after: nat, skipped: string, printed: string)
    requires after <= |json| && json[after..] == skipped + printed
    requires printed != "" && printed[0] == '"'
    requires forall k :: 0 <= k < |skipped| ==> IsSeparator(skipped[k])
    ensures var next := after + |skipped|;
      && FirstNot(json, IsSeparator, after) == Some(next)
      && next < |json| && json[next] == '"' && json[next..] == printed
  {
    var next := after + |skipped|;
    assert json[next..] == printed;
    assert json[next] == json[next..][0] == '"';
    forall k | after <= k < next ensures IsSeparator(json[k]) {
      assert json[k] == json[after..][k - after] == skipped[k - after];
    }
    FirstNotSkips(json, IsSeparator, after, next);
  }

  /** The list without its first element, and without the white space that follows the comma. */
  function Next(es: seq<Element>): seq<Element>
    requires |es| > 1
  {
    [es[1].(before := "")] + es[2..]
  }

  /** How a list continues after the comma. */
  lemma AfterComma(es: seq<Element>, space: string)
    requires |es| > 1
    ensures var printed := PrintItems(ListItems(Next(es), space));
      && PrintItems(ListItems(es[1..], space)) == es[1].before + printed
      && printed != "" && printed[0] == '"'
      && Kept(Next(es)) == Kept(es[1..])
    ensures Laid(es) ==> Laid(Next(es))
  {
    var es' := Next(es);
    assert es[1..][1..] == es[2..] == es'[1..];
    PrintedList(es[1..], space);
    PrintedList(es', space);
    assert AfterText(es[1..], space) == AfterText(es', space);
    var body := ['"'] + (PrintUnits(es[1].units) + ['"'] + AfterText(es', space));
    assert "" + body == body;
  }

  /** After any other element, the scan lands on the opening quote of the next one. */
  lemma LandsOnNext(json: string, after: nat, es: seq<Element>, space: string, rest: string)
    requires |es| > 1 && Laid(es)
    requires after <= |json| && json[after..] == AfterText(es, space) + ([']'] + rest)
    ensures var next := after + |es[0].after| + 1 + |es[1].before|;
      && FirstNot(json, IsSeparator, after) == Some(next)
      && next < |json| && json[next] == '"'
      && json[next..] == PrintItems(ListItems(Next(es), space)) + ([']'] + rest)
  {
    AfterComma(es, space);
    var printed := PrintItems(ListItems(Next(es), space));
    RegroupComma(es[0].after, es[1].before, printed, [']'] + rest);
    LandsOnQuote(json, after, es[0].after + [','] + es[1].before, printed + ([']'] + rest));
  }

  lemma RegroupComma(a: string, b: string, c: string, d: string)
    ensures a + ([','] + (b + c)) + d == (a + [','] + b) + (c + d)
  {
  }

  lemma ReadEmpty(us: seq<Unit>)
    ensures ReadUnits(us) == "" <==> us == []
  {
  }

  /** One round of the extractor. */
  lemma ItemUnfolds(json: string, i: nat, arrEnd: nat, q: nat, item: string, after: nat)
    requires i < arrEnd < |json| && Find(json, "\"", i) == Some(q) && i <= q < arrEnd
    requires var (t, n) := ReadText(json[q + 1..], false); item == t && after == q + 1 + n + 1
    requires var next := FirstNot(json, IsSeparator, after); next.Some? && after <= next.value < |json|
    ensures var kept := if item == "" then [] else [item];
      var next := FirstNot(json, IsSeparator, after).value;
      ItemsFrom(json, i, arrEnd) ==
        if next >= arrEnd || json[next] == ']' then kept else kept + ItemsFrom(json, next, arrEnd)
  {
    hide ReadText, Find, FirstNot, IsSeparator;
  }

  lemma {:induction false} ItemsAreKept(json: string, i: nat, es: seq<Element>, space: string, rest: string)
    requires es != [] && Laid(es)
    requires i <= |json| && json[i..] == PrintItems(ListItems(es, space)) + ([']'] + rest)
    ensures ItemsFrom(json, i, i + |PrintItems(ListItems(es, space))|) == Kept(es)
    decreases |es|, 1
  {
    hide ItemsFrom, ReadText, Find, FirstNot, PrintUnits, ReadUnits, PrintItems, ListItems, Kept;
    var printed := PrintItems(ListItems(es, space));
    PrintedList(es, space);
    ElementRead(json, i, es[0], printed, AfterText(es, space), [']'] + rest);
    var q := i + |es[0].before|;
    var after := q + 1 + |PrintUnits(es[0].units)| + 1;
    if |es| == 1 {
      LastIsKept(json, i, es, space, rest, q, after);
    } else {
      RestIsKept(json, i, es, space, rest, q, after);
    }
  }

  lemma LastIsKept(json: string, i: nat, es: seq<Element>, space: string, rest: string, q: nat, after: nat)
    requires |es| == 1 && Laid(es)
    requires q == i + |es[0].before| && after == q + 1 + |PrintUnits(es[0].units)| + 1
    requires i + |PrintItems(ListItems(es, space))| < |json| && after <= |json|
    requires |PrintItems(ListItems(es, space))| ==
      |es[0].before| + 1 + |PrintUnits(es[0].units)| + 1 + |AfterText(es, space)|
    requires Find(json, "\"", i) == Some(q)
    requires ReadText(json[q + 1..], false) == (ReadUnits(es[0].units), |PrintUnits(es[0].units)|)
    requires json[after..] == AfterText(es, space) + ([']'] + rest)
    ensures ItemsFrom(json, i, i + |PrintItems(ListItems(es, space))|) == Kept(es)
  {
    hide ItemsFrom, ReadText, Find, FirstNot, PrintUnits, ReadUnits, PrintItems, ListItems;
    assert AfterText(es, space) == es[0].after;
    StopsAtBracket(json, after, es[0].after, rest);
    ReadEmpty(es[0].units);
    ItemUnfolds(json, i, i + |PrintItems(ListItems(es, space))|, q, ReadUnits(es[0].units), after);
    assert Kept(es[1..]) == [];
  }

  lemma {:induction false} RestIsKept(
      json: string, i: nat, es: seq<Element>, space: string, rest: string, q: nat, after: nat)
    requires |es| > 1 && Laid(es)
    requires q == i + |es[0].before| && after == q + 1 + |PrintUnits(es[0].units)| + 1
    requires i + |PrintItems(ListItems(es, space))| < |json| && after <= |json|
    requires |PrintItems(ListItems(es, space))| ==
      |es[0].before| + 1 + |PrintUnits(es[0].units)| + 1 + |AfterText(es, space)|
    requires Find(json, "\"", i) == Some(q)
    requires ReadText(json[q + 1..], false) == (ReadUnits(es[0].units), |PrintUnits(es[0].units)|)
    requires json[after..] == AfterText(es, space) + ([']'] + rest)
    ensures ItemsFrom(json, i, i + |PrintItems(ListItems(es, space))|) == Kept(es)
    decreases |es|, 0
  {
    hide ItemsFrom, ReadText, Find, FirstNot, PrintUnits, ReadUnits, PrintItems, ListItems, Laid, AfterText;
    LandsOnNext(json, after, es, space, rest);
    var next := after + |es[0].after| + 1 + |es[1].before|;
    AfterComma(es, space);
    ReadEmpty(es[0].units);
    ItemUnfolds(json, i, i + |PrintItems(ListItems(es, space))|, q, ReadUnits(es[0].units), after);
    ItemsAreKept(json, next, Next(es), space, rest);
  }

  lemma NoQuote(json: string, i: nat, space: string, end: string)
    requires i <= |json| && json[i..] == space + end && Blank(space)
    ensures var q := Find(json, "\"", i); q.Some? ==> q.value >= i + |space|
  {
    FindMeans(json, "\"", i);
    forall k: nat | i <= k < i + |space| ensures !OccursAt(json, "\"", k) {
      assert json[k] == json[i..][k - i] == space[k - i];
      assert json[k..k + 1][0] == json[k];
    }
  }

  lemma NothingKept(json: string, i: nat, space: string, end: string)
    requires i <= |json| && json[i..] == space + end && Blank(space)
    ensures ItemsFrom(json, i, i + |space|) == []
  {
    NoQuote(json, i, space, end);
  }

  /**
   * For any list of strings printed with any white space where the profile's value starts, the
   * extractor returns the strings that are not empty, in order, as they read back.
   */
  lemma ExtractsPrintedList(pre: string, es: seq<Element>, space: string, rest: string, profile: string)
    requires Laid(es) && Blank(space)
    requires ProfileValue(pre + PrintList(es, space) + rest, profile) == Some(|pre|)
    ensures DirectiveArray(pre + PrintList(es, space) + rest, profile) == Kept(es)
  {
    hide ItemsFrom, FindEnd, ProfileValue;
    var inner := PrintItems(ListItems(es, space));
    var json := pre + PrintList(es, space) + rest;
    ListIsValid(es, space);
    ArrayEndIsExact(pre, ListItems(es, space), rest);
    InsideBrackets(pre, inner, rest);
    assert json == pre + (['['] + inner + [']']) + rest;
    if es == [] {
      NothingKept(json, |pre| + 1, space, [']'] + rest);
      assert inner == space && Kept(es) == [];
    } else {
      ItemsAreKept(json, |pre| + 1, es, space, rest);
    }
  }

  lemma InsideBrackets(pre: string, inner: string, rest: string)
    ensures var json := pre + (['['] + inner + [']']) + rest;
      && |json| > |pre| + 1 + |inner| && json[|pre|] == '['
      && json[|pre| + 1..] == inner + ([']'] + rest)
  {
  }

  // ---------------------------------------------------------------------------
  // When the list is the one that was meant
  // ---------------------------------------------------------------------------

  predicate SpelledWell(es: seq<Element>) { forall i :: 0 <= i < |es| ==> WellSpelled(es[i].units) }

  /** The meanings of the strings that are not empty. */
  function Meant(es: seq<Element>): seq<seq<int>>
    requires SpelledWell(es)
  {
    if es == [] then []
    else (if es[0].units == [] then [] else [Meaning(es[0].units)]) + Meant(es[1..])
  }

  function Utf16Each(texts: seq<string>): seq<seq<int>> {
    if texts == [] then [] else [Utf16(texts[0])] + Utf16Each(texts[1..])
  }

  /** The kept strings are the ones that were meant exactly if none is spelled with an escape that is misread. */
  lemma {:induction false} KeptIsMeant(es: seq<Element>)
    requires SpelledWell(es)
    ensures |Kept(es)| == |Meant(es)|
    ensures Utf16Each(Kept(es)) == Meant(es) <==> forall i :: 0 <= i < |es| ==> !HasMisread(es[i].units)
  {
    hide Utf16, WellSpelled, Meaning, HasMisread;
    if es != [] {
      KeptIsMeant(es[1..]);
      assert forall i :: 1 <= i < |es| ==> es[i] == es[1..][i - 1];
      ExtractorReadsAsMeant(es[0].units);
      if es[0].units == [] {
        NothingMisread();
        assert [] + Kept(es[1..]) == Kept(es[1..]) && [] + Meant(es[1..]) == Meant(es[1..]);
      } else {
        EachMore(ReadUnits(es[0].units), Kept(es[1..]));
        FirstAndRest(Utf16(ReadUnits(es[0].units)), Utf16Each(Kept(es[1..])), Meaning(es[0].units), Meant(es[1..]));
      }
    }
  }

  lemma EachMore(text: string, rest: seq<string>)
    ensures Utf16Each([text] + rest) == [Utf16(text)] + Utf16Each(rest)
  {
    assert ([text] + rest)[1..] == rest;
  }

  lemma FirstAndRest(a: seq<int>, s: seq<seq<int>>, b: seq<int>, t: seq<seq<int>>)
    ensures [a] + s == [b] + t <==> a == b && s == t
  {
    if [a] + s == [b] + t {
      assert a == ([a] + s)[0] && s == ([a] + s)[1..] && b == ([b] + t)[0] && t == ([b] + t)[1..];
    }
  }

  /**
   * The non-empty strings of a list are extracted as they are meant exactly if no string is spelled
   * with \b, \f or a code unit escape.
   */
  lemma ExtractsAsMeant(pre: string, es: seq<Element>, space: string, rest: string, profile: string)
    requires SpelledWell(es) && Blank(space)
    requires forall i :: 0 <= i < |es| ==> Blank(es[i].before) && Blank(es[i].after)
    requires ProfileValue(pre + PrintList(es, space) + rest, profile) == Some(|pre|)
    ensures Utf16Each(DirectiveArray(pre + PrintList(es, space) + rest, profile)) == Meant(es) <==>
      forall i :: 0 <= i < |es| ==> !HasMisread(es[i].units)
  {
    hide WellSpelled, Utf16Each, Meant, PrintList, ProfileValue, DirectiveArray, HasMisread;
    forall i | 0 <= i < |es| ensures ValidUnits(es[i].units) {
      WellSpelledIsValid(es[i].units);
    }
    ExtractsPrintedList(pre, es, space, rest, profile);
    KeptIsMeant(es);
  }

  // ---------------------------------------------------------------------------
  // Generated configurations
  // ---------------------------------------------------------------------------

  /** The texts as the generator writes them, in any layout. */
  predicate DumpedAs(es: seq<Element>, texts: seq<string>) {
    && |es| == |texts|
    && forall i :: 0 <= i < |es| ==>
         Blank(es[i].before) && Blank(es[i].after) && es[i].units == DumpUnits(texts[i])
  }

  lemma DumpedIsLaid(es: seq<Element>, texts: seq<string>)
    requires DumpedAs(es, texts)
    ensures Laid(es)
  {
    hide WellSpelled, DumpUnits, Blank, ValidUnits;
    forall i | 0 <= i < |es| ensures ValidUnits(es[i].units) {
      DumpMeans(texts[i]);
      WellSpelledIsValid(DumpUnits(texts[i]));
    }
  }

  lemma DumpEmpty(s: string)
    ensures DumpUnits(s) == [] <==> s == ""
  {
    if s != "" {
      assert DumpChar(s[0]) != [];
    }
  }

  lemma {:induction false} DumpedKept(es: seq<Element>, texts: seq<string>)
    requires DumpedAs(es, texts) && forall i :: 0 <= i < |texts| ==> texts[i] != ""
    ensures |Kept(es)| == |texts|
    ensures Kept(es) == texts <==>
      forall i, k :: 0 <= i < |texts| && 0 <= k < |texts[i]| ==> Survives(texts[i][k])
  {
    hide DumpUnits, ReadUnits, Survives, Blank;
    if texts != [] {
      var first, rest := ReadUnits(es[0].units), Kept(es[1..]);
      assert DumpedAs(es[1..], texts[1..]);
      DumpedKept(es[1..], texts[1..]);
      DumpEmpty(texts[0]);
      DumpReadsBack(texts[0]);
      assert forall i :: 1 <= i < |texts| ==> texts[i] == texts[1..][i - 1];
      assert [first] + rest == texts <==> first == texts[0] && rest == texts[1..] by {
        assert texts == [texts[0]] + texts[1..];
        assert ([first] + rest)[0] == first && ([first] + rest)[1..] == rest;
      }
    }
  }

  /**
   * Directives written by the generator come back unchanged exactly if they consist of printable ASCII,
   * newlines, returns and tabs.
   */
  lemma GeneratedListReadsBack(
      pre: string, es: seq<Element>, texts: seq<string>, space: string, rest: string, profile: string)
    requires DumpedAs(es, texts) && Blank(space)
    requires forall i :: 0 <= i < |texts| ==> texts[i] != ""
    requires ProfileValue(pre + PrintList(es, space) + rest, profile) == Some(|pre|)
    ensures DirectiveArray(pre + PrintList(es, space) + rest, profile) == texts <==>
      forall i, k :: 0 <= i < |texts| && 0 <= k < |texts[i]| ==> Survives(texts[i][k])
  {
    hide PrintList, ProfileValue, DirectiveArray, Survives, DumpedAs, Kept;
    DumpedIsLaid(es, texts);
    ExtractsPrintedList(pre, es, space, rest, profile);
    DumpedKept(es, texts);
  }

  const MAP_KEY := "\"directives_map\""

  function ProfileKey(profile: string): string { "\"" + profile + "\"" }

  /**
   * Where the value of a profile starts: after the first map key at `map`, the first profile key
   * from there at `prof`, the first colon after that at `colon`, and white space.
   */
  lemma ProfileValueIs(json: string, profile: string, key: nat, prof: nat, colon: nat, value: nat)
    requires key <= prof && prof + |profile| + 2 <= colon < value < |json|
    requires OccursAt(json, MAP_KEY, key) && forall k: nat :: k < key ==> !OccursAt(json, MAP_KEY, k)
    requires OccursAt(json, ProfileKey(profile), prof)
    requires forall k: nat :: key <= k < prof ==> !OccursAt(json, ProfileKey(profile), k)
    requires json[colon] == ':' && forall k :: prof + |profile| + 2 <= k < colon ==> json[k] != ':'
    requires !IsWhite(json[value]) && forall k :: colon < k < value ==> IsWhite(json[k])
    ensures ProfileValue(json, profile) == Some(value)
  {
    hide Find, FirstNot;
    FindIs(json, MAP_KEY, 0, key);
    FindIs(json, ProfileKey(profile), key, prof);
    ColonAt(json, prof + |profile| + 2, colon);
    FirstNotSkips(json, IsBlank, colon + 1, value);
  }

  lemma ColonAt(json: string, from: nat, c: nat)
    requires from <= c < |json| && json[c] == ':' && forall k :: from <= k < c ==> json[k] != ':'
    ensures Find(json, ":", from) == Some(c)
  {
    assert json[c..c + 1] == ":";
    forall k: nat | from <= k < c ensures !OccursAt(json, ":", k) {
      assert json[k..k + 1][0] == json[k];
    }
    FindIs(json, ":", from, c);
  }
}
