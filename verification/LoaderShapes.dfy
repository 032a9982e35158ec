/** What the chunked loader guarantees, for every loader, catalog and list of directives. */
module LoaderShapes {
  import opened Prelude
  import opened Text
  import opened LoaderModel

  // ---------------------------------------------------------------------------
  // The shape of a chunk
  // ---------------------------------------------------------------------------

  /** A rule chain: every line but the last asks for a continuation. */
  predicate ChainGroup(lines: seq<string>) {
    lines != [] && RequestsChain(lines[0]) && forall i :: 0 <= i < |lines| - 1 ==> RequestsChain(lines[i])
  }

  predicate LonePhraseFile(lines: seq<string>) {
    |lines| == 1 && IsPhraseFile(lines[0]) && !RequestsChain(lines[0])
  }

  predicate IsPlain(line: string) { !RequestsChain(line) && !IsPhraseFile(line) }

  predicate PlainBatch(lines: seq<string>) {
    && lines != []
    && (forall i :: 0 <= i < |lines| ==> IsPlain(lines[i]))
    && (|lines| >= 2 ==> Size(lines) <= 4096)
  }

  predicate Shaped(lines: seq<string>) {
    ChainGroup(lines) || LonePhraseFile(lines) || PlainBatch(lines)
  }

  ghost predicate AllShaped(calls: seq<Chunk>) {
    forall i :: 0 <= i < |calls| && calls[i].Inline? ==> Shaped(calls[i].lines)
  }

  /** Between two lines. */
  ghost predicate Tidy(st: Load) {
    && AllShaped(st.calls)
    && (st.pending ==> st.batch != [] && forall i :: 0 <= i < |st.batch| ==> RequestsChain(st.batch[i]))
    && (!st.pending ==> Size(st.batch) < 4096 && (st.batch == [] || PlainBatch(st.batch)))
  }

  lemma {:induction false} JoinConcat(s: seq<string>, t: seq<string>)
    ensures JoinLines(s + t) == JoinLines(s) + JoinLines(t)
  {
    if s == [] {
      assert s + t == t;
    } else {
      assert (s + t)[1..] == s[1..] + t;
      JoinConcat(s[1..], t);
    }
  }

  lemma SizeOfOneMore(batch: seq<string>, line: string)
    ensures Size(batch + [line]) == Size(batch) + |line| + 1
    ensures JoinLines(batch + [line]) == JoinLines(batch) + line + "\n"
  {
    JoinConcat(batch, [line]);
    assert JoinLines([line]) == line + "\n" by {
      assert [line][1..] == [];
    }
  }

  lemma FlushShapes(l: Loader, st: Load)
    requires AllShaped(st.calls) && (st.batch == [] || Shaped(st.batch))
    ensures var (r, ok) := FlushInline(l, st);
      && AllShaped(r.calls) && r.pending == st.pending && (ok ==> r.batch == [])
  {
  }

  lemma {:induction false} EachKeeps(l: Loader, st: Load, assets: seq<Asset>)
    requires AllShaped(st.calls)
    ensures var r := LoadEach(l, st, assets);
      AllShaped(r.calls) && r.batch == st.batch && r.pending == st.pending
    decreases |assets|
  {
    if assets != [] {
      if assets[0].path == OWASP_ALL {
        EachKeeps(l, st, assets[1..]);
      } else {
        EachKeeps(l, LoadAsset(l, st, assets[0]).0, assets[1..]);
      }
    }
  }

  lemma ResolveKeeps(l: Loader, catalog: Catalog, st: Load, target: string)
    requires AllShaped(st.calls)
    ensures var r := ResolveIncludeLoad(l, catalog, st, target).0;
      AllShaped(r.calls) && r.batch == st.batch && r.pending == st.pending
  {
    var t := ResolveTarget(catalog, target);
    if t.Glob? {
      EachKeeps(l, st, t.assets);
    }
  }

  lemma PendingIsChain(st: Load, line: string)
    requires Tidy(st) && st.pending
    ensures ChainGroup(st.batch + [line])
  {
    var group := st.batch + [line];
    assert group[0] == st.batch[0];
    forall i | 0 <= i < |group| - 1 ensures RequestsChain(group[i]) {
      assert group[i] == st.batch[i];
    }
  }

  lemma PhraseFileShapes(l: Loader, st: Load, line: string)
    requires Tidy(st) && IsPhraseFile(line)
    ensures var (r, ok) := ApplyPhraseFile(l, st, line); AllShaped(r.calls) && (ok ==> Tidy(r))
  {
    var (st1, ok) := if st.pending then (st, true) else FlushInline(l, st);
    FlushShapes(l, st);
    if ok {
      if st.pending {
        PendingIsChain(st, line);
      } else {
        assert st1.batch + [line] == [line];
      }
      if !RequestsChain(line) {
        FlushShapes(l, Add(st1, line));
      }
    }
  }

  lemma RuleShapes(l: Loader, st: Load, line: string)
    requires Tidy(st) && !IsPhraseFile(line)
    ensures var (r, ok) := ApplyRule(l, st, line); AllShaped(r.calls) && (ok ==> Tidy(r))
  {
    hide FlushInline;
    FlushShapes(l, st);
    var (st1, ok) := if FlushBefore(st, line) then FlushInline(l, st) else (st, true);
    if ok {
      SizeOfOneMore(st1.batch, line);
      if st.pending {
        PendingIsChain(st, line);
      } else if RequestsChain(line) {
        assert st1.batch + [line] == [line];
      } else {
        PlainGrows(st1, line);
      }
      if !RequestsChain(line) {
        FlushShapes(l, Add(st1, line));
      }
    }
  }

  lemma PlainGrows(st1: Load, line: string)
    requires st1.batch == [] || (PlainBatch(st1.batch) && Size(st1.batch) + |line| + 1 <= 4096)
    requires IsPlain(line)
    ensures PlainBatch(st1.batch + [line])
  {
    SizeOfOneMore(st1.batch, line);
    if st1.batch == [] {
      assert st1.batch + [line] == [line];
    }
  }

  lemma LineShapes(l: Loader, catalog: Catalog, st: Load, line: string)
    requires Tidy(st)
    ensures var (r, ok) := ApplyLine(l, catalog, st, line); AllShaped(r.calls) && (ok ==> Tidy(r))
  {
    if IsSkipped(line) {
    } else if IsInclude(line) {
      var cut := st.(pending := false);
      FlushShapes(l, cut);
      var (st1, ok) := FlushInline(l, cut);
      if ok {
        ResolveKeeps(l, catalog, st1, IncludeTarget(line));
      }
    } else if IsPhraseFile(line) {
      PhraseFileShapes(l, st, line);
    } else {
      RuleShapes(l, st, line);
    }
  }

  lemma {:induction false} LinesShape(l: Loader, catalog: Catalog, st: Load, lines: seq<string>)
    requires Tidy(st)
    ensures var (r, ok) := ApplyLines(l, catalog, st, lines); AllShaped(r.calls) && (ok ==> Tidy(r))
    decreases |lines|
  {
    if lines != [] {
      LineShapes(l, catalog, st, Trim(lines[0]));
      var (st1, ok) := ApplyLine(l, catalog, st, Trim(lines[0]));
      if ok {
        LinesShape(l, catalog, st1, lines[1..]);
      }
    }
  }

  /** How many of the three shapes these lines have. */
  function Shapes(lines: seq<string>): nat {
    Bit(ChainGroup(lines)) + Bit(LonePhraseFile(lines)) + Bit(PlainBatch(lines))
  }

  /** Every inline chunk any loader is ever given is a chain, a lone phrase-file rule or a plain batch: just one. */
  lemma EveryChunkIsShaped(l: Loader, catalog: Catalog, directives: seq<string>)
    ensures var calls := Apply(l, catalog, directives).0.calls;
      forall i :: 0 <= i < |calls| && calls[i].Inline? ==> Shapes(calls[i].lines) == 1
  {
    LinesShape(l, catalog, START, Flatten(directives));
    var (st, ok) := ApplyLines(l, catalog, START, Flatten(directives));
    if ok {
      FlushShapes(l, st);
    }
  }

  // ---------------------------------------------------------------------------
  // Which chains are cut
  // ---------------------------------------------------------------------------

  /** A chunk whose last line still asks for a continuation. */
  predicate IsCut(chunk: Chunk) {
    chunk.Inline? && chunk.lines != [] && RequestsChain(chunk.lines[|chunk.lines| - 1])
  }

  /** The calls from r.calls to s.calls; only the first may be cut, and only if `mayCut`. */
  ghost predicate CutsAtMost(r: Load, s: Load, mayCut: bool) {
    && r.calls <= s.calls
    && forall i :: |r.calls| <= i < |s.calls| && IsCut(s.calls[i]) ==> mayCut && i == |r.calls|
  }

  lemma {:induction false} EachCutsNothing(l: Loader, st: Load, assets: seq<Asset>)
    ensures CutsAtMost(st, LoadEach(l, st, assets), false)
    decreases |assets|
  {
    if assets != [] {
      EachCutsNothing(l, if assets[0].path == OWASP_ALL then st else LoadAsset(l, st, assets[0]).0, assets[1..]);
    }
  }

  lemma ResolveCuts(l: Loader, catalog: Catalog, st: Load, target: string)
    ensures CutsAtMost(st, ResolveIncludeLoad(l, catalog, st, target).0, false)
  {
    hide RequestsChain, LoadEach, ResolveTarget, DefaultsAsset;
    var t := ResolveTarget(catalog, target);
    if t.Glob? {
      EachCutsNothing(l, st, t.assets);
    }
  }

  lemma FlushThenCuts(r: Load, s: Load, t: Load)
    requires CutsAtMost(r, s, true) && CutsAtMost(s, t, false)
    ensures CutsAtMost(r, t, true)
  {
    hide IsCut;
  }

  lemma IncludeCuts(l: Loader, catalog: Catalog, st: Load, line: string)
    requires IsInclude(line)
    ensures CutsAtMost(st, ApplyInclude(l, catalog, st, line).0, true)
  {
    var st1 := FlushInline(l, st.(pending := false)).0;
    assert CutsAtMost(st, st1, true);
    hide CutsAtMost, FlushInline, ResolveIncludeLoad, IncludeTarget, StartsWith;
    ResolveCuts(l, catalog, st1, IncludeTarget(line));
    FlushThenCuts(st, st1, ResolveIncludeLoad(l, catalog, st1, IncludeTarget(line)).0);
  }

  predicate EndsPlain(lines: seq<string>) { lines == [] || !RequestsChain(lines[|lines| - 1]) }

  lemma FlushCuts(l: Loader, st: Load)
    requires EndsPlain(st.batch)
    ensures CutsAtMost(st, FlushInline(l, st).0, false)
  {
    hide RequestsChain;
  }

  lemma AddThenCuts(l: Loader, st: Load, st1: Load, line: string, full: bool)
    requires CutsAtMost(st, st1, false) && (full ==> !RequestsChain(line))
    ensures CutsAtMost(st, AddThen(l, st1, line, full).0, false)
  {
    hide RequestsChain, IsCut, FlushInline;
    if full {
      FlushCuts(l, Add(st1, line));
    }
  }

  lemma RuleCuts(l: Loader, st: Load, line: string)
    requires Tidy(st)
    ensures CutsAtMost(st, ApplyRule(l, st, line).0, false)
    ensures CutsAtMost(st, ApplyPhraseFile(l, st, line).0, false)
  {
    assert !st.pending ==> EndsPlain(st.batch);
    assert CutsAtMost(st, st, false);
    hide RequestsChain, FlushInline, CutsAtMost, Tidy, AddThen, Size, EndsPlain;
    if !st.pending {
      FlushCuts(l, st);
    }
    var st1 := if FlushBefore(st, line) then FlushInline(l, st).0 else st;
    AddThenCuts(l, st, st1, line, !RequestsChain(line) && (st.pending || Size(st1.batch + [line]) >= 4096));
    var st2 := if st.pending then st else FlushInline(l, st).0;
    AddThenCuts(l, st, st2, line, !RequestsChain(line));
  }

  lemma LineCuts(l: Loader, catalog: Catalog, st: Load, line: string)
    requires Tidy(st)
    ensures CutsAtMost(st, ApplyLine(l, catalog, st, line).0, !IsSkipped(line) && IsInclude(line))
  {
    hide Tidy, ApplyRule, ApplyPhraseFile, ApplyInclude, IsCut;
    if IsSkipped(line) {
    } else if IsInclude(line) {
      IncludeCuts(l, catalog, st, line);
    } else {
      RuleCuts(l, st, line);
    }
  }

  /** The chunk was the batch that an Include line, or the end of the input, found pending. */
  ghost predicate CutThere(l: Loader, catalog: Catalog, lines: seq<string>, i: nat, k: nat) {
    && k <= |lines|
    && (k < |lines| ==> IsInclude(Trim(lines[k])))
    && ApplyLines(l, catalog, START, lines[..k]).1
    && i == |ApplyLines(l, catalog, START, lines[..k]).0.calls|
  }

  /** Up to the n-th line, only Includes cut. */
  lemma {:induction false} CutsSoFar(l: Loader, catalog: Catalog, lines: seq<string>, n: nat)
    requires n <= |lines|
    ensures var (st, ok) := ApplyLines(l, catalog, START, lines[..n]);
      && (ok ==> Tidy(st))
      && forall i: nat :: i < |st.calls| && IsCut(st.calls[i]) ==>
           exists k: nat :: k < |lines| && CutThere(l, catalog, lines, i, k)
  {
    hide IsCut, Tidy, ApplyLine;
    LinesShape(l, catalog, START, lines[..n]) by { assert Tidy(START) by { StartIsTidy(); } }
    if n > 0 {
      CutsSoFar(l, catalog, lines, n - 1);
      var (st, ok) := ApplyLines(l, catalog, START, lines[..n - 1]);
      assert lines[..n] == lines[..n - 1] + [lines[n - 1]];
      LinesConcat(l, catalog, START, lines[..n - 1], [lines[n - 1]]);
      if ok {
        var line := Trim(lines[n - 1]);
        OneLine(l, catalog, st, lines[n - 1]);
        LineCuts(l, catalog, st, line);
        var s := ApplyLine(l, catalog, st, line).0;
        forall i: nat | i < |s.calls| && IsCut(s.calls[i])
          ensures exists k: nat :: k < |lines| && CutThere(l, catalog, lines, i, k)
        {
          if i >= |st.calls| {
            assert CutThere(l, catalog, lines, i, n - 1);
          } else {
            assert s.calls[i] == st.calls[i];
          }
        }
      }
    }
  }

  lemma StartIsTidy()
    ensures Tidy(START)
  {
  }

  /**
   * In any run, a chunk whose last line still asks for a continuation was cut off by an Include line or by
   * the end of the input: it is the first call made there.
   */
  lemma OnlyIncludesCut(l: Loader, catalog: Catalog, directives: seq<string>)
    ensures var (calls, lines) := (Apply(l, catalog, directives).0.calls, Flatten(directives));
      forall i: nat :: i < |calls| && IsCut(calls[i]) ==> exists k: nat :: CutThere(l, catalog, lines, i, k)
  {
    hide IsCut, Tidy, ApplyLines;
    var lines := Flatten(directives);
    CutsSoFar(l, catalog, lines, |lines|);
    assert lines[..|lines|] == lines;
    var (st, ok) := ApplyLines(l, catalog, START, lines);
    if ok {
      assert CutThere(l, catalog, lines, |st.calls|, |lines|);
    }
  }

  // ---------------------------------------------------------------------------
  // A chain is never cut between two rules
  // ---------------------------------------------------------------------------

  /** The n-th call is an inline chunk that begins with these lines. */
  predicate Given(calls: seq<Chunk>, n: nat, lines: seq<string>) {
    n < |calls| && calls[n].Inline? && lines <= calls[n].lines
  }

  /** The n-th call has been made with these lines, or is the next one and they are batched. */
  predicate Kept(st: Load, n: nat, lines: seq<string>) {
    Given(st.calls, n, lines) || (|st.calls| == n && lines <= st.batch)
  }

  /** Flushing gives the loader what was batched. */
  lemma FlushGives(l: Loader, st: Load, n: nat, lines: seq<string>)
    requires Kept(st, n, lines) && lines != []
    ensures Given(FlushInline(l, st).0.calls, n, lines)
  {
    if st.batch != [] {
      assert FlushInline(l, st).0.calls == st.calls + [Inline(st.batch)];
    }
  }

  lemma AddThenGives(l: Loader, st: Load, line: string, full: bool, n: nat, lines: seq<string>)
    requires Kept(st, n, lines) && lines != []
    ensures var (r, ok) := AddThen(l, st, line, full);
      Kept(r, n, lines) && (!ok ==> Given(r.calls, n, lines))
  {
    hide FlushInline, RequestsChain;
    if full {
      FlushGives(l, Add(st, line), n, lines);
    }
  }

  lemma RuleGives(l: Loader, st: Load, line: string, n: nat, lines: seq<string>)
    requires Kept(st, n, lines) && lines != []
    ensures var (r, ok) := ApplyRule(l, st, line);
      Kept(r, n, lines) && (!ok ==> Given(r.calls, n, lines))
    ensures var (r, ok) := ApplyPhraseFile(l, st, line);
      Kept(r, n, lines) && (!ok ==> Given(r.calls, n, lines))
  {
    hide FlushInline, AddThen, RequestsChain, FlushBefore, Given;
    FlushGives(l, st, n, lines);
    var (st1, ok1) := if FlushBefore(st, line) then FlushInline(l, st) else (st, true);
    var full := !RequestsChain(line) && (st.pending || Size(st1.batch + [line]) >= 4096);
    AddThenGives(l, st1, line, full, n, lines);
    var (st2, ok2) := if st.pending then (st, true) else FlushInline(l, st);
    AddThenGives(l, st2, line, !RequestsChain(line), n, lines);
  }

  lemma LineGives(l: Loader, catalog: Catalog, st: Load, line: string, n: nat, lines: seq<string>)
    requires Kept(st, n, lines) && lines != []
    ensures var (r, ok) := ApplyLine(l, catalog, st, line);
      Kept(r, n, lines) && (!ok ==> Given(r.calls, n, lines))
  {
    hide FlushInline, ApplyRule, ApplyPhraseFile, RequestsChain, IsPhraseFile, ResolveIncludeLoad;
    hide IsSkipped, IsInclude, IncludeTarget;
    RuleGives(l, st, line, n, lines);
    if !IsSkipped(line) && IsInclude(line) {
      var cut := st.(pending := false);
      FlushGives(l, cut, n, lines);
      var st1 := FlushInline(l, cut).0;
      ResolveCuts(l, catalog, st1, IncludeTarget(line));
    }
  }

  lemma {:induction false} LinesGive(
      l: Loader, catalog: Catalog, st: Load, more: seq<string>, n: nat, lines: seq<string>)
    requires Kept(st, n, lines) && lines != []
    ensures var (r, ok) := ApplyLines(l, catalog, st, more);
      Kept(r, n, lines) && (!ok ==> Given(r.calls, n, lines))
    decreases |more|
  {
    hide Kept, Given, ApplyLine;
    if more != [] {
      LineGives(l, catalog, st, Trim(more[0]), n, lines);
      var (st1, ok) := ApplyLine(l, catalog, st, Trim(more[0]));
      if ok {
        LinesGive(l, catalog, st1, more[1..], n, lines);
      }
    }
  }

  lemma RequestingIsPending(l: Loader, catalog: Catalog, st: Load, line: string)
    requires IsRule(line) && RequestsChain(line)
    ensures var (r, ok) := ApplyLine(l, catalog, st, line);
      ok ==> r.pending && r.batch != [] && r.batch[|r.batch| - 1] == line
  {
  }

  /** The rule after a pending line joins its batch, whether or not that is then loaded and accepted. */
  lemma PendingTakesNext(l: Loader, catalog: Catalog, st: Load, line: string)
    requires st.pending && IsRule(line)
    ensures var (r, ok) := ApplyLine(l, catalog, st, line);
      var n, lines := |st.calls|, st.batch + [line];
      Kept(r, n, lines) && (!ok ==> Given(r.calls, n, lines))
  {
    hide FlushInline, RequestsChain, IsPhraseFile;
    FlushGives(l, Add(st, line), |st.calls|, st.batch + [line]);
  }

  /** What becomes of lines and then of the batch that they leave. */
  function Finish(l: Loader, catalog: Catalog, st: Load, lines: seq<string>): Load {
    var (r, ok) := ApplyLines(l, catalog, st, lines);
    if ok then FlushInline(l, r).0 else r
  }

  lemma ChildGiven(l: Loader, catalog: Catalog, st: Load, child: string, after: seq<string>)
    requires st.pending && IsRule(Trim(child))
    ensures Given(Finish(l, catalog, st, [child] + after).calls, |st.calls|, st.batch + [Trim(child)])
  {
    hide Kept, Given, ApplyLine, FlushInline, IsRule;
    var n, lines := |st.calls|, st.batch + [Trim(child)];
    assert ([child] + after)[0] == child && ([child] + after)[1..] == after;
    PendingTakesNext(l, catalog, st, Trim(child));
    var (st1, ok) := ApplyLine(l, catalog, st, Trim(child));
    if ok {
      LinesGive(l, catalog, st1, after, n, lines);
      var (r, done) := ApplyLines(l, catalog, st1, after);
      if done {
        FlushGives(l, r, n, lines);
      }
    }
  }

  /** Up to the comments after it, a line that requests a chain stays pending. */
  lemma ParentIsPending(l: Loader, catalog: Catalog, before: seq<string>, parent: string, comments: seq<string>)
    requires IsRule(Trim(parent)) && RequestsChain(Trim(parent))
    requires forall i :: 0 <= i < |comments| ==> IsSkipped(Trim(comments[i]))
    requires ApplyLines(l, catalog, START, before + [parent] + comments).1
    ensures var st := ApplyLines(l, catalog, START, before + [parent] + comments).0;
      st.pending && st.batch != [] && st.batch[|st.batch| - 1] == Trim(parent)
  {
    hide RequestsChain, IsRule, IsSkipped, ApplyLine;
    LinesConcat(l, catalog, START, before + [parent], comments);
    LinesConcat(l, catalog, START, before, [parent]);
    var st0 := ApplyLines(l, catalog, START, before).0;
    OneLine(l, catalog, st0, parent);
    RequestingIsPending(l, catalog, st0, Trim(parent));
    SkippedChangeNothing(l, catalog, ApplyLines(l, catalog, START, before + [parent]).0, comments);
  }

  /**
   * In any run, accepted or not, that gets past a rule line requesting a chain: the next call of the loader
   * is for the batch that ends in that line, followed by the next rule line, whatever comments lie between
   * them and whether or not that one requests a continuation itself.
   */
  lemma ChainStaysWhole(
      l: Loader, catalog: Catalog, directives: seq<string>,
      before: seq<string>, parent: string, comments: seq<string>, child: string, after: seq<string>)
    requires Flatten(directives) == before + [parent] + comments + ([child] + after)
    requires IsRule(Trim(parent)) && RequestsChain(Trim(parent)) && IsRule(Trim(child))
    requires forall i :: 0 <= i < |comments| ==> IsSkipped(Trim(comments[i]))
    requires ApplyLines(l, catalog, START, before + [parent] + comments).1
    ensures var st := ApplyLines(l, catalog, START, before + [parent] + comments).0;
      && st.batch != [] && st.batch[|st.batch| - 1] == Trim(parent)
      && Given(Apply(l, catalog, directives).0.calls, |st.calls|, st.batch + [Trim(child)])
  {
    hide RequestsChain, IsRule, IsSkipped, Given, ApplyLines, FlushInline;
    var upto := before + [parent] + comments;
    LinesConcat(l, catalog, START, upto, [child] + after);
    ParentIsPending(l, catalog, before, parent, comments);
    ChildGiven(l, catalog, ApplyLines(l, catalog, START, upto).0, child, after);
  }

  lemma OneLine(l: Loader, catalog: Catalog, st: Load, line: string)
    ensures ApplyLines(l, catalog, st, [line]) == ApplyLine(l, catalog, st, Trim(line))
  {
    assert [line][1..] == [];
    var (st1, ok) := ApplyLine(l, catalog, st, Trim(line));
    assert ApplyLines(l, catalog, st1, []) == (st1, true);
  }

  lemma {:induction false} SkippedChangeNothing(l: Loader, catalog: Catalog, st: Load, comments: seq<string>)
    requires forall i :: 0 <= i < |comments| ==> IsSkipped(Trim(comments[i]))
    ensures ApplyLines(l, catalog, st, comments) == (st, true)
    decreases |comments|
  {
    if comments != [] {
      SkippedChangeNothing(l, catalog, st, comments[1..]);
    }
  }

  lemma {:induction false} LinesConcat(l: Loader, catalog: Catalog, st: Load, s: seq<string>, t: seq<string>)
    ensures ApplyLines(l, catalog, st, s + t) ==
      var (mid, ok) := ApplyLines(l, catalog, st, s);
      if ok then ApplyLines(l, catalog, mid, t) else (mid, false)
    decreases |s|
  {
    if s == [] {
      assert s + t == t;
    } else {
      assert (s + t)[1..] == s[1..] + t;
      var (st1, ok) := ApplyLine(l, catalog, st, Trim(s[0]));
      if ok {
        LinesConcat(l, catalog, st1, s[1..], t);
      }
    }
  }
}
