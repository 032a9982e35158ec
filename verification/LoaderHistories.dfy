/**
 * For every loader, whatever it remembers of earlier chunks: exactly when an applied configuration means that
 * every chunk was accepted.
 */
module LoaderHistories {
  import opened Text
  import opened LoaderModel
  import opened LoaderLines
  import opened LoaderRefinement
  import LoaderShapes

  /** What the glob loads, in order: no asset twice, nothing empty, and never the combined one. */
  function GlobChunks(seen: set<string>, assets: seq<Asset>): seq<Chunk>
    decreases |assets|
  {
    if assets == [] then []
    else if assets[0].path == OWASP_ALL || assets[0].path in seen then GlobChunks(seen, assets[1..])
    else
      (if assets[0].data == "" then [] else [FromCatalog(assets[0].path, assets[0].data)])
      + GlobChunks(seen + {assets[0].path}, assets[1..])
  }

  ghost predicate AllAccepted(l: Loader, calls: seq<Chunk>) {
    forall i :: 0 <= i < |calls| ==> !Rejected(l, calls, i)
  }

  /** The first n + 1 chunks of the glob after these directives, if they apply. */
  function GlobHistory(l: Loader, catalog: Catalog, directives: seq<string>, n: nat): (h: seq<Chunk>) {
    var st := Apply(l, catalog, directives).0;
    var chunks := GlobChunks(st.seen, OwaspAssets(catalog.assets));
    st.calls + if n < |chunks| then chunks[..n + 1] else chunks
  }

  /**
   * These directives apply with everything accepted, and so are the first n chunks of the glob after them;
   * the next one is then judged on this history.
   */
  ghost predicate Reached(l: Loader, catalog: Catalog, directives: seq<string>, n: nat) {
    var (st, ok) := Apply(l, catalog, directives);
    var chunks := GlobChunks(st.seen, OwaspAssets(catalog.assets));
    ok && n < |chunks| && AllAccepted(l, st.calls + chunks[..n])
  }

  ghost predicate SilentAt(l: Loader, catalog: Catalog, directives: seq<string>, n: nat) {
    Reached(l, catalog, directives, n) && l(GlobHistory(l, catalog, directives, n)) == Reject("")
  }

  // ---------------------------------------------------------------------------
  // Accepted calls
  // ---------------------------------------------------------------------------

  lemma SameVerdicts(l: Loader, calls: seq<Chunk>, more: seq<Chunk>)
    ensures forall i :: 0 <= i < |calls| ==> (Rejected(l, calls + more, i) <==> Rejected(l, calls, i))
  {
    forall i | 0 <= i < |calls| ensures Rejected(l, calls + more, i) <==> Rejected(l, calls, i) {
      assert (calls + more)[..i + 1] == calls[..i + 1];
    }
  }

  lemma AcceptMore(l: Loader, calls: seq<Chunk>, chunk: Chunk)
    ensures AllAccepted(l, calls + [chunk]) <==> AllAccepted(l, calls) && l(calls + [chunk]).Accept?
  {
    var more := calls + [chunk];
    SameVerdicts(l, calls, [chunk]);
    assert more[..|calls| + 1] == more;
    assert Rejected(l, more, |calls|) <==> l(more).Reject?;
  }

  lemma AcceptFewer(l: Loader, calls: seq<Chunk>, more: seq<Chunk>)
    requires AllAccepted(l, calls + more)
    ensures AllAccepted(l, calls)
  {
    SameVerdicts(l, calls, more);
    assert forall i :: 0 <= i < |calls| ==> !Rejected(l, calls + more, i);
  }

  /** Everything was accepted so far, and no error is pending. */
  ghost predicate Clean(l: Loader, st: Load) { AllAccepted(l, st.calls) && st.error == NoError }

  lemma ChunkClean(l: Loader, st: Load, chunk: Chunk)
    requires Clean(l, st)
    ensures var (r, ok) := LoadChunk(l, st, chunk); ok ==> Clean(l, r)
  {
    hide AllAccepted;
    AcceptMore(l, st.calls, chunk);
  }

  lemma FlushClean(l: Loader, st: Load)
    requires Clean(l, st)
    ensures var (r, ok) := FlushInline(l, st); ok ==> Clean(l, r)
  {
    hide AllAccepted, LoadChunk;
    ChunkClean(l, st, Inline(st.batch));
  }

  lemma RuleClean(l: Loader, st: Load, line: string)
    requires Clean(l, st)
    ensures var (r, ok) := ApplyRule(l, st, line); ok ==> Clean(l, r)
    ensures var (r, ok) := ApplyPhraseFile(l, st, line); ok ==> Clean(l, r)
  {
    hide AllAccepted, FlushInline, RequestsChain, Size, FlushBefore;
    FlushClean(l, st);
    var (st1, ok1) := if FlushBefore(st, line) then FlushInline(l, st) else (st, true);
    if ok1 {
      FlushClean(l, Add(st1, line));
    }
    var (st2, ok2) := if st.pending then (st, true) else FlushInline(l, st);
    if ok2 {
      FlushClean(l, Add(st2, line));
    }
  }

  // ---------------------------------------------------------------------------
  // The walk over the glob
  // ---------------------------------------------------------------------------

  /** The n-th of these chunks, if it is reached, is accepted or rejected with a reason. */
  ghost predicate LoudAt(l: Loader, calls: seq<Chunk>, chunks: seq<Chunk>, n: nat)
    requires n < |chunks|
  {
    AllAccepted(l, calls + chunks[..n]) ==> l(calls + chunks[..n + 1]) != Reject("")
  }

  ghost predicate Loud(l: Loader, calls: seq<Chunk>, chunks: seq<Chunk>) {
    forall n: nat :: n < |chunks| ==> LoudAt(l, calls, chunks, n)
  }

  /** If the walk rejects none of its chunks silently, it ends with everything accepted or with an error. */
  lemma {:induction false} EachClean(l: Loader, st: Load, assets: seq<Asset>)
    requires Clean(l, st) && Loud(l, st.calls, GlobChunks(st.seen, assets))
    ensures var r := LoadEach(l, st, assets); r.error.IsEmpty() ==> Clean(l, r)
    decreases |assets|
  {
    hide AllAccepted, Loud;
    if assets != [] {
      var asset := assets[0];
      if asset.path == OWASP_ALL || asset.path in st.seen {
        EachClean(l, st, assets[1..]);
      } else {
        var chunk := FromCatalog(asset.path, asset.data);
        var marked := st.(seen := st.seen + {asset.path});
        var rest := GlobChunks(marked.seen, assets[1..]);
        ChunkClean(l, marked, chunk);
        if asset.data == "" {
          assert [] + rest == rest;
        } else {
          FirstLoud(l, st.calls, chunk, rest);
        }
        var (st1, ok) := LoadChunk(l, marked, chunk);
        if ok {
          EachClean(l, st1, assets[1..]);
        }
      }
    }
  }

  lemma FirstLoud(l: Loader, calls: seq<Chunk>, chunk: Chunk, rest: seq<Chunk>)
    requires Loud(l, calls, [chunk] + rest) && AllAccepted(l, calls)
    ensures l(calls + [chunk]) != Reject("") && Loud(l, calls + [chunk], rest)
  {
    hide AllAccepted;
    var chunks := [chunk] + rest;
    assert LoudAt(l, calls, chunks, 0);
    assert calls + chunks[..0] == calls && chunks[..1] == [chunk];
    forall n: nat | n < |rest| ensures LoudAt(l, calls + [chunk], rest, n) {
      assert LoudAt(l, calls, chunks, n + 1);
      assert calls + [chunk] + rest[..n] == calls + chunks[..n + 1];
      assert calls + [chunk] + rest[..n + 1] == calls + chunks[..n + 2];
    }
  }

  /** A silent rejection ends the walk, and leaves an error that looks like none. */
  lemma {:induction false} EachStops(l: Loader, st: Load, assets: seq<Asset>, n: nat)
    requires var chunks := GlobChunks(st.seen, assets);
      && n < |chunks| && AllAccepted(l, st.calls + chunks[..n]) && l(st.calls + chunks[..n + 1]) == Reject("")
    ensures var r := LoadEach(l, st, assets);
      && r.calls == st.calls + GlobChunks(st.seen, assets)[..n + 1] && r.error == FromLoader("")
      && r.batch == st.batch
    decreases |assets|
  {
    hide AllAccepted;
    var asset := assets[0];
    var chunks := GlobChunks(st.seen, assets);
    if asset.path == OWASP_ALL || asset.path in st.seen {
      EachStops(l, st, assets[1..], n);
    } else {
      var marked := st.(seen := st.seen + {asset.path});
      var rest := GlobChunks(marked.seen, assets[1..]);
      if asset.data == "" {
        assert chunks == rest;
        EachStops(l, marked, assets[1..], n);
      } else {
        var chunk := FromCatalog(asset.path, asset.data);
        assert chunks == [chunk] + rest;
        if n == 0 {
          assert chunks[..1] == [chunk];
        } else {
          FirstAccepted(l, st.calls, chunk, rest, n);
          var st1 := marked.(calls := st.calls + [chunk]);
          EachStops(l, st1, assets[1..], n - 1);
          assert st.calls + chunks[..n + 1] == st1.calls + rest[..n];
        }
      }
    }
  }

  lemma FirstAccepted(l: Loader, calls: seq<Chunk>, chunk: Chunk, rest: seq<Chunk>, n: nat)
    requires 0 < n <= |rest| && AllAccepted(l, calls + ([chunk] + rest)[..n])
    ensures l(calls + [chunk]).Accept?
    ensures AllAccepted(l, calls + [chunk] + rest[..n - 1])
    ensures calls + ([chunk] + rest)[..n + 1] == calls + [chunk] + rest[..n]
  {
    assert calls + ([chunk] + rest)[..n] == (calls + [chunk]) + rest[..n - 1];
    AcceptFewer(l, calls + [chunk], rest[..n - 1]);
    AcceptMore(l, calls, chunk);
  }

  // ---------------------------------------------------------------------------
  // Lines as directives
  // ---------------------------------------------------------------------------

  /** A line as flattening yields it: trimmed, not empty, without a newline. */
  predicate IsFlat(line: string) { line != "" && Trim(line) == line && '\n' !in line }

  lemma {:induction false} PhysicalHasNoNewline(s: string)
    ensures forall i :: 0 <= i < |Physical(s)| ==> '\n' !in Physical(s)[i]
  {
    if s != "" {
      PhysicalHasNoNewline(s[1..]);
    }
  }

  lemma {:induction false} TrimRightSubset(s: string)
    ensures forall c :: c in TrimRight(s) ==> c in s
  {
    if s != "" && IsSpace(s[|s| - 1]) {
      TrimRightSubset(s[..|s| - 1]);
    }
  }

  lemma {:induction false} TrimLeftSubset(s: string)
    ensures forall c :: c in TrimLeft(s) ==> c in s
  {
    if s != "" && IsSpace(s[0]) {
      TrimLeftSubset(s[1..]);
    }
  }

  lemma {:induction false} CleanedIsFlat(lines: seq<string>)
    requires forall i :: 0 <= i < |lines| ==> '\n' !in lines[i]
    ensures forall line :: line in Cleaned(lines) ==> IsFlat(line)
  {
    if lines != [] {
      CleanedIsFlat(lines[1..]);
      TrimTwice(lines[0]);
      TrimLeftSubset(lines[0]);
      TrimRightSubset(TrimLeft(lines[0]));
    }
  }

  lemma {:induction false} FlattenIsFlat(directives: seq<string>)
    ensures forall line :: line in Flatten(directives) ==> IsFlat(line)
  {
    hide IsFlat;
    if directives != [] {
      SplitIsCleaned(directives[0]);
      PhysicalHasNoNewline(directives[0]);
      CleanedIsFlat(Physical(directives[0]));
      FlattenIsFlat(directives[1..]);
    }
  }

  /** Flat lines, taken as directives, are those lines. */
  lemma {:induction false} FlatStays(lines: seq<string>)
    requires forall line :: line in lines ==> IsFlat(line)
    ensures Flatten(lines) == lines
  {
    if lines != [] {
      assert lines[0] in lines;
      SingleLine(lines[0]);
      FlatStays(lines[1..]);
      assert lines == [lines[0]] + lines[1..];
    }
  }

  lemma {:induction false} FlattenConcat(a: seq<string>, b: seq<string>)
    ensures Flatten(a + b) == Flatten(a) + Flatten(b)
  {
    if a == [] {
      assert a + b == b;
    } else {
      assert (a + b)[1..] == a[1..] + b;
      FlattenConcat(a[1..], b);
    }
  }

  // ---------------------------------------------------------------------------
  // Whole runs
  // ---------------------------------------------------------------------------

  /** No asset that a glob reaches is rejected without a reason. */
  ghost predicate NeverSilent(l: Loader) {
    forall catalog, directives, n: nat :: !SilentAt(l, catalog, directives, n)
  }

  lemma ReachedIsLoud(l: Loader, catalog: Catalog, lines: seq<string>)
    requires NeverSilent(l) && Apply(l, catalog, lines).1
    ensures var st := Apply(l, catalog, lines).0;
      Loud(l, st.calls, GlobChunks(st.seen, OwaspAssets(catalog.assets)))
  {
    hide AllAccepted, GlobChunks, Apply, OwaspAssets;
    var st := Apply(l, catalog, lines).0;
    var chunks := GlobChunks(st.seen, OwaspAssets(catalog.assets));
    forall n: nat | n < |chunks| ensures LoudAt(l, st.calls, chunks, n) {
      assert !SilentAt(l, catalog, lines, n);
    }
  }

  /** An Include line that succeeds after these lines leaves everything accepted. */
  lemma IncludeClean(l: Loader, catalog: Catalog, lines: seq<string>, line: string)
    requires NeverSilent(l) && Flatten(lines) == lines && ApplyLines(l, catalog, START, lines).1
    requires IsInclude(line) && Clean(l, ApplyLines(l, catalog, START, lines).0)
    ensures var (r, ok) := ApplyInclude(l, catalog, ApplyLines(l, catalog, START, lines).0, line);
      ok ==> Clean(l, r)
  {
    hide AllAccepted, ApplyLines, LoadChunk, ResolveTarget, IncludeTarget, LoadEach, OwaspAssets, NeverSilent;
    hide IsInclude;
    var st := ApplyLines(l, catalog, START, lines).0;
    var cut := st.(pending := false);
    FlushClean(l, cut);
    var (st1, flushed) := FlushInline(l, cut);
    if flushed {
      var target := IncludeTarget(line);
      match ResolveTarget(catalog, target)
      case Missing(_) =>
      case Named(asset) =>
        ChunkClean(l, st1.(seen := st1.seen + {asset.path}), FromCatalog(asset.path, asset.data));
      case Glob(assets) =>
        SameFlush(l, st);
        ReachedIsLoud(l, catalog, lines);
        GlobIs(catalog, target);
        EachClean(l, st1, assets);
      case Defaults =>
        var asset := DefaultsAsset(catalog);
        ChunkClean(l, st1.(seen := st1.seen + {DEFAULTS}), FromCatalog(asset.path, asset.data));
    }
  }

  lemma GlobIs(catalog: Catalog, target: string)
    ensures ResolveTarget(catalog, target).Glob? ==>
      ResolveTarget(catalog, target).assets == OwaspAssets(catalog.assets)
  {
  }

  /** Flushing does not look at the pending flag. */
  lemma SameFlush(l: Loader, st: Load)
    ensures var (a, b) := (FlushInline(l, st), FlushInline(l, st.(pending := false)));
      a.1 == b.1 && b.0 == a.0.(pending := false)
  {
  }

  lemma {:induction false} LinesClean(l: Loader, catalog: Catalog, lines: seq<string>, n: nat)
    requires NeverSilent(l) && n <= |lines| && forall line :: line in lines ==> IsFlat(line)
    ensures var (st, ok) := ApplyLines(l, catalog, START, lines[..n]); ok ==> Clean(l, st)
  {
    hide AllAccepted, ApplyLine, NeverSilent, IsFlat;
    if n > 0 {
      LinesClean(l, catalog, lines, n - 1);
      FlatStays(lines[..n - 1]);
      assert lines[..n] == lines[..n - 1] + [lines[n - 1]];
      LoaderShapes.LinesConcat(l, catalog, START, lines[..n - 1], [lines[n - 1]]);
      var (st, ok) := ApplyLines(l, catalog, START, lines[..n - 1]);
      if ok {
        LoaderShapes.OneLine(l, catalog, st, lines[n - 1]);
        LineClean(l, catalog, lines[..n - 1], Trim(lines[n - 1]));
      }
    } else {
      assert Clean(l, START) by { StartIsClean(l); }
      assert ApplyLines(l, catalog, START, []) == (START, true);
      assert lines[..0] == [];
    }
  }

  lemma StartIsClean(l: Loader)
    ensures Clean(l, START)
  {
  }

  lemma LineClean(l: Loader, catalog: Catalog, lines: seq<string>, line: string)
    requires NeverSilent(l) && Flatten(lines) == lines && ApplyLines(l, catalog, START, lines).1
    requires Clean(l, ApplyLines(l, catalog, START, lines).0)
    ensures var (r, ok) := ApplyLine(l, catalog, ApplyLines(l, catalog, START, lines).0, line); ok ==> Clean(l, r)
  {
    hide Clean, ApplyLines, ApplyInclude, ApplyRule, ApplyPhraseFile, NeverSilent, IsPhraseFile;
    var st := ApplyLines(l, catalog, START, lines).0;
    RuleClean(l, st, line);
    if IsInclude(line) {
      IncludeClean(l, catalog, lines, line);
    }
  }

  /** With no silent rejection, an applied configuration had everything accepted. */
  lemma LoudRunsAccepted(l: Loader, catalog: Catalog, directives: seq<string>)
    requires NeverSilent(l)
    ensures AcceptedIfApplied(l, catalog, directives)
  {
    hide NeverSilent, ApplyLines, FlushInline, IsFlat;
    var lines := Flatten(directives);
    FlattenIsFlat(directives);
    LinesClean(l, catalog, lines, |lines|);
    assert lines[..|lines|] == lines;
    var (st, ok) := ApplyLines(l, catalog, START, lines);
    if ok {
      FlushClean(l, st);
    }
  }

  /** A silent rejection behind a glob makes a configuration that applies all the same. */
  lemma SilentRunApplies(l: Loader, catalog: Catalog, directives: seq<string>, n: nat)
    requires SilentAt(l, catalog, directives, n)
    ensures !AcceptedIfApplied(l, catalog, directives + [INCLUDE + OWASP_GLOB])
  {
    var line := INCLUDE + OWASP_GLOB;
    GlobLine();
    hide INCLUDE, OWASP_GLOB, AllAccepted, ApplyLines, GlobChunks, OwaspAssets, IsInclude, IncludeTarget, Trim;
    var lines := Flatten(directives);
    FlattenConcat(directives, [line]);
    FlattenOne(line);
    SingleLine(line);
    assert NonEmpty(line) == [line];
    LoaderShapes.LinesConcat(l, catalog, START, lines, [line]);
    var (st, ok) := ApplyLines(l, catalog, START, lines);
    LoaderShapes.OneLine(l, catalog, st, line);
    GlobLineStops(l, catalog, directives, st, line, n);
  }

  lemma GlobLineStops(l: Loader, catalog: Catalog, directives: seq<string>, st: Load, line: string, n: nat)
    requires SilentAt(l, catalog, directives, n)
    requires ApplyLines(l, catalog, START, Flatten(directives)) == (st, true)
    requires IsInclude(line) && !IsSkipped(line) && IncludeTarget(line) == OWASP_GLOB
    ensures var (r, ok) := ApplyLine(l, catalog, st, line);
      && ok && FlushInline(l, r) == (r, true)
      && exists i :: 0 <= i < |r.calls| && Rejected(l, r.calls, i)
  {
    hide AllAccepted, ApplyLines, GlobChunks, OwaspAssets, IsInclude, IncludeTarget, LoadEach, IsSkipped, ResolveTarget;
    hide OWASP_GLOB;
    SameFlush(l, st);
    FlushEmpties(l, st.(pending := false));
    var st1 := FlushInline(l, st.(pending := false)).0;
    var chunks := GlobChunks(st1.seen, OwaspAssets(catalog.assets));
    NoAssetsNoChunks(st1.seen, OwaspAssets(catalog.assets));
    GlobResolves(catalog);
    EachStops(l, st1, OwaspAssets(catalog.assets), n);
    var r := LoadEach(l, st1, OwaspAssets(catalog.assets));
    assert r.calls[..|r.calls| - 1 + 1] == r.calls;
    assert Rejected(l, r.calls, |r.calls| - 1);
  }

  lemma FlushEmpties(l: Loader, st: Load)
    ensures var (r, ok) := FlushInline(l, st); ok ==> r.batch == []
  {
  }

  lemma NoAssetsNoChunks(seen: set<string>, assets: seq<Asset>)
    ensures assets == [] ==> GlobChunks(seen, assets) == []
  {
  }

  /**
   * For every loader, whatever it remembers: over all catalogs and directives an applied configuration means
   * that every chunk was accepted, exactly if no asset that a glob reaches, after directives that applied and
   * with everything accepted so far, is rejected without a reason.
   */
  lemma FailsClosedExactly(l: Loader)
    ensures AlwaysFailsClosed(l) <==> NeverSilent(l)
  {
    hide SilentAt, AcceptedIfApplied;
    if NeverSilent(l) {
      forall catalog, directives ensures AcceptedIfApplied(l, catalog, directives) {
        LoudRunsAccepted(l, catalog, directives);
      }
    } else {
      var catalog, directives, n: nat :| SilentAt(l, catalog, directives, n);
      SilentRunApplies(l, catalog, directives, n);
    }
  }
}
