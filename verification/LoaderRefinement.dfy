/**
 * The chunked loader against its two references: the plain expansion of the same directives, and
 * the verdicts of the loader it drives.
 */
module LoaderRefinement {
  import opened Prelude
  import opened Text
  import opened LoaderModel
  import opened LoaderLines
  import LoaderShapes

  // ---------------------------------------------------------------------------
  // No asset twice
  // ---------------------------------------------------------------------------

  /** Asset calls carry different paths, all of them marked as seen. */
  ghost predicate Once(st: Load) {
    && (forall i :: 0 <= i < |st.calls| && st.calls[i].FromCatalog? ==> st.calls[i].path in st.seen)
    && (forall i, j :: 0 <= i < j < |st.calls| && st.calls[i].FromCatalog? && st.calls[j].FromCatalog? ==>
         st.calls[i].path != st.calls[j].path)
  }

  lemma {:induction false} LookupFinds(assets: seq<Asset>, path: string)
    ensures LookupIn(assets, path).Some? ==> LookupIn(assets, path).value.path == path
  {
    if assets != [] {
      LookupFinds(assets[1..], path);
    }
  }

  lemma InlineOnce(l: Loader, st: Load)
    requires Once(st)
    ensures Once(FlushInline(l, st).0)
  {
  }

  lemma AssetOnce(l: Loader, st: Load, path: string, data: string)
    requires Once(st) && path !in st.seen
    ensures Once(LoadChunk(l, st.(seen := st.seen + {path}), FromCatalog(path, data)).0)
  {
  }

  lemma {:induction false} EachOnce(l: Loader, st: Load, assets: seq<Asset>)
    requires Once(st)
    ensures Once(LoadEach(l, st, assets))
    decreases |assets|
  {
    if assets != [] {
      if assets[0].path == OWASP_ALL {
        EachOnce(l, st, assets[1..]);
      } else {
        if assets[0].path !in st.seen {
          AssetOnce(l, st, assets[0].path, assets[0].data);
        }
        EachOnce(l, LoadAsset(l, st, assets[0]).0, assets[1..]);
      }
    }
  }

  lemma IncludeOnce(l: Loader, catalog: Catalog, st: Load, target: string)
    requires Once(st)
    ensures Once(ResolveIncludeLoad(l, catalog, st, target).0)
  {
    match ResolveTarget(catalog, target)
    case Missing(_) =>
    case Named(asset) =>
      if asset.path !in st.seen {
        AssetOnce(l, st, asset.path, asset.data);
      }
    case Glob(assets) => EachOnce(l, st, assets);
    case Defaults =>
      LookupFinds(catalog.assets, DEFAULTS);
      if DEFAULTS !in st.seen {
        AssetOnce(l, st, DEFAULTS, DefaultsAsset(catalog).data);
      }
  }

  lemma RuleOnce(l: Loader, st: Load, line: string)
    requires Once(st)
    ensures Once(ApplyRule(l, st, line).0)
    ensures Once(ApplyPhraseFile(l, st, line).0)
  {
    InlineOnce(l, st);
    var (st1, _) := if FlushBefore(st, line) then FlushInline(l, st) else (st, true);
    InlineOnce(l, Add(st1, line));
    var (st2, _) := if st.pending then (st, true) else FlushInline(l, st);
    InlineOnce(l, Add(st2, line));
  }

  lemma LineOnce(l: Loader, catalog: Catalog, st: Load, line: string)
    requires Once(st)
    ensures Once(ApplyLine(l, catalog, st, line).0)
  {
    if !IsSkipped(line) && IsInclude(line) {
      var cut := st.(pending := false);
      InlineOnce(l, cut);
      IncludeOnce(l, catalog, FlushInline(l, cut).0, IncludeTarget(line));
    } else {
      RuleOnce(l, st, line);
    }
  }

  lemma {:induction false} LinesOnce(l: Loader, catalog: Catalog, st: Load, lines: seq<string>)
    requires Once(st)
    ensures Once(ApplyLines(l, catalog, st, lines).0)
    decreases |lines|
  {
    if lines != [] {
      LineOnce(l, catalog, st, Trim(lines[0]));
      LinesOnce(l, catalog, ApplyLine(l, catalog, st, Trim(lines[0])).0, lines[1..]);
    }
  }

  /** Globs and explicit Includes may overlap in any way: no asset is loaded twice. */
  lemma NoAssetTwice(l: Loader, catalog: Catalog, directives: seq<string>)
    ensures Once(Apply(l, catalog, directives).0)
  {
    LinesOnce(l, catalog, START, Flatten(directives));
    InlineOnce(l, ApplyLines(l, catalog, START, Flatten(directives)).0);
  }

  // ---------------------------------------------------------------------------
  // Rejected chunks
  // ---------------------------------------------------------------------------

  predicate Rejected(l: Loader, calls: seq<Chunk>, i: nat)
    requires i < |calls|
  {
    l(calls[..i + 1]).Reject?
  }

  /** The assets that the OWASP glob loads. */
  predicate InGlob(path: string) { StartsWith(path, OWASP) && path != OWASP_ALL }

  /** A rejection the catalog walk cannot tell from success: an asset of the glob, and no message. */
  predicate Silent(l: Loader, calls: seq<Chunk>, i: nat)
    requires i < |calls| && Rejected(l, calls, i)
  {
    && l(calls[..i + 1]).message == ""
    && calls[i].FromCatalog? && InGlob(calls[i].path) && calls[i].data != ""
  }

  /** So far nothing was rejected, except silently. */
  ghost predicate Unrejected(l: Loader, st: Load) {
    st.error.IsEmpty() && forall i :: 0 <= i < |st.calls| && Rejected(l, st.calls, i) ==> Silent(l, st.calls, i)
  }

  lemma CallUnrejected(l: Loader, st: Load, chunk: Chunk)
    requires Unrejected(l, st)
    ensures var (r, ok) := LoadChunk(l, st, chunk);
      && (ok ==> Unrejected(l, r))
      && (!ok && r.error.IsEmpty() && chunk.FromCatalog? && InGlob(chunk.path) ==> Unrejected(l, r))
  {
    var (r, ok) := LoadChunk(l, st, chunk);
    if r.calls != st.calls {
      assert r.calls[..|r.calls|] == r.calls;
      forall i | 0 <= i < |st.calls| && Rejected(l, r.calls, i)
        ensures Silent(l, r.calls, i)
      {
        assert r.calls[..i + 1] == st.calls[..i + 1];
        assert Rejected(l, st.calls, i);
      }
    }
  }

  lemma {:induction false} EachUnrejected(l: Loader, st: Load, assets: seq<Asset>)
    requires Unrejected(l, st)
    requires forall i :: 0 <= i < |assets| ==> StartsWith(assets[i].path, OWASP)
    ensures var r := LoadEach(l, st, assets); r.error.IsEmpty() ==> Unrejected(l, r)
    decreases |assets|
  {
    if assets != [] {
      if assets[0].path == OWASP_ALL {
        EachUnrejected(l, st, assets[1..]);
      } else {
        var marked := st.(seen := st.seen + {assets[0].path});
        CallUnrejected(l, marked, FromCatalog(assets[0].path, assets[0].data));
        var (st1, ok) := LoadAsset(l, st, assets[0]);
        if ok {
          EachUnrejected(l, st1, assets[1..]);
        }
      }
    }
  }

  lemma {:induction false} OwaspPrefix(assets: seq<Asset>)
    ensures forall i :: 0 <= i < |OwaspAssets(assets)| ==> StartsWith(OwaspAssets(assets)[i].path, OWASP)
  {
    if assets != [] {
      OwaspPrefix(assets[1..]);
    }
  }

  lemma IncludeUnrejected(l: Loader, catalog: Catalog, st: Load, target: string)
    requires Unrejected(l, st)
    ensures var (r, ok) := ResolveIncludeLoad(l, catalog, st, target); ok ==> Unrejected(l, r)
  {
    match ResolveTarget(catalog, target)
    case Missing(_) =>
    case Named(asset) =>
      CallUnrejected(l, st.(seen := st.seen + {asset.path}), FromCatalog(asset.path, asset.data));
    case Glob(assets) =>
      OwaspPrefix(catalog.assets);
      EachUnrejected(l, st, assets);
    case Defaults =>
      var asset := DefaultsAsset(catalog);
      CallUnrejected(l, st.(seen := st.seen + {DEFAULTS}), FromCatalog(asset.path, asset.data));
  }

  lemma FlushUnrejected(l: Loader, st: Load)
    requires Unrejected(l, st)
    ensures var (r, ok) := FlushInline(l, st); ok ==> Unrejected(l, r)
  {
    CallUnrejected(l, st, Inline(st.batch));
  }

  lemma RuleUnrejected(l: Loader, st: Load, line: string)
    requires Unrejected(l, st)
    ensures var (r, ok) := ApplyRule(l, st, line); ok ==> Unrejected(l, r)
    ensures var (r, ok) := ApplyPhraseFile(l, st, line); ok ==> Unrejected(l, r)
  {
    FlushUnrejected(l, st);
    var (st1, ok1) := if FlushBefore(st, line) then FlushInline(l, st) else (st, true);
    if ok1 {
      FlushUnrejected(l, Add(st1, line));
    }
    var (st2, ok2) := if st.pending then (st, true) else FlushInline(l, st);
    if ok2 {
      FlushUnrejected(l, Add(st2, line));
    }
  }

  lemma {:induction false} LinesUnrejected(l: Loader, catalog: Catalog, st: Load, lines: seq<string>)
    requires Unrejected(l, st)
    ensures var (r, ok) := ApplyLines(l, catalog, st, lines); ok ==> Unrejected(l, r)
    decreases |lines|
  {
    if lines != [] {
      var line := Trim(lines[0]);
      if !IsSkipped(line) && IsInclude(line) {
        var cut := st.(pending := false);
        FlushUnrejected(l, cut);
        var (st1, ok1) := FlushInline(l, cut);
        if ok1 {
          IncludeUnrejected(l, catalog, st1, IncludeTarget(line));
        }
      } else {
        RuleUnrejected(l, st, line);
      }
      var (st1, ok) := ApplyLine(l, catalog, st, line);
      if ok {
        LinesUnrejected(l, catalog, st1, lines[1..]);
      }
    }
  }

  /** When the configuration applies, every rejected chunk was a silently rejected OWASP asset. */
  lemma AppliedMeansAccepted(l: Loader, catalog: Catalog, directives: seq<string>)
    requires Apply(l, catalog, directives).1
    ensures var calls := Apply(l, catalog, directives).0.calls;
      forall i :: 0 <= i < |calls| && Rejected(l, calls, i) ==> Silent(l, calls, i)
  {
    LinesUnrejected(l, catalog, START, Flatten(directives));
    FlushUnrejected(l, ApplyLines(l, catalog, START, Flatten(directives)).0);
  }

  /** A loader that gives a reason when it rejects an asset of the glob; the filter's own always gives one. */
  ghost predicate GivesReasons(l: Loader) {
    forall calls, path, data :: InGlob(path) ==> l(calls + [FromCatalog(path, data)]) != Reject("")
  }

  /** With reasons given for those, a configuration applies only if every chunk was accepted. */
  lemma FailsClosed(l: Loader, catalog: Catalog, directives: seq<string>)
    requires GivesReasons(l) && Apply(l, catalog, directives).1
    ensures var calls := Apply(l, catalog, directives).0.calls;
      forall i :: 0 <= i < |calls| ==> !Rejected(l, calls, i)
  {
    AppliedMeansAccepted(l, catalog, directives);
    var calls := Apply(l, catalog, directives).0.calls;
    forall i | 0 <= i < |calls| ensures !Rejected(l, calls, i) {
      if calls[i].FromCatalog? {
        assert calls[..i + 1] == calls[..i] + [FromCatalog(calls[i].path, calls[i].data)];
      }
    }
  }

  lemma GlobResolves(catalog: Catalog)
    requires OwaspAssets(catalog.assets) != []
    ensures ResolveTarget(catalog, OWASP_GLOB) == Glob(OwaspAssets(catalog.assets))
  {
    assert OWASP_GLOB[1] != DEFAULTS[1];
    assert OWASP_GLOB[1] != "@demo-conf"[1] && OWASP_GLOB[1] != "@ftw-conf"[1];
    assert OWASP_GLOB[1] != "@crs-setup-conf"[1];
  }

  /**
   * Without a reason, a rejected asset behind the OWASP glob goes unnoticed: the configuration
   * applies although its only chunk was rejected. GlobLine gives such a line.
   */
  lemma SilentRejectionApplies(l: Loader, catalog: Catalog, asset: Asset, line: string)
    requires l([FromCatalog(asset.path, asset.data)]) == Reject("")
    requires catalog.assets == [asset] && InGlob(asset.path) && asset.data != ""
    requires Trim(line) == line && IsInclude(line) && !IsSkipped(line) && IncludeTarget(line) == OWASP_GLOB
    requires '\n' !in line
    ensures Apply(l, catalog, [line]) == (SilentlyLoaded(asset), true)
    ensures Rejected(l, SilentlyLoaded(asset).calls, 0)
  {
    ApplyOfOneLine(l, catalog, line);
    GlobApplies(l, catalog, asset, line);
    var calls := SilentlyLoaded(asset).calls;
    assert calls[..1] == calls;
  }

  lemma ApplyOfOneLine(l: Loader, catalog: Catalog, line: string)
    requires Trim(line) == line && line != "" && '\n' !in line
    ensures Apply(l, catalog, [line]) ==
      var (st, ok) := ApplyLine(l, catalog, START, line);
      if ok then FlushInline(l, st) else (st, false)
  {
    SingleLine(line);
    FlattenOne(line);
    LoaderShapes.OneLine(l, catalog, START, line);
  }

  lemma FlattenOne(d: string)
    ensures Flatten([d]) == SplitDirectiveLines(d)
  {
    assert [d][1..] == [];
    assert Flatten([]) == [];
    assert SplitDirectiveLines(d) + [] == SplitDirectiveLines(d);
  }

  function SilentlyLoaded(asset: Asset): Load {
    Load([FromCatalog(asset.path, asset.data)], {asset.path}, FromLoader(""), [], false)
  }

  lemma GlobApplies(l: Loader, catalog: Catalog, asset: Asset, line: string)
    requires l([FromCatalog(asset.path, asset.data)]) == Reject("")
    requires catalog.assets == [asset] && InGlob(asset.path) && asset.data != ""
    requires IsInclude(line) && !IsSkipped(line) && IncludeTarget(line) == OWASP_GLOB
    ensures ApplyLine(l, catalog, START, line) == (SilentlyLoaded(asset), true)
  {
    assert OwaspAssets(catalog.assets) == [asset] by {
      assert OwaspAssets(catalog.assets[1..]) == [];
    }
    GlobResolves(catalog);
    StopsAtFirst(l, asset);
    assert START.(pending := false) == START;
  }

  lemma GlobLine()
    ensures var line := INCLUDE + OWASP_GLOB;
      && Trim(line) == line && IsInclude(line) && !IsSkipped(line) && IncludeTarget(line) == OWASP_GLOB
      && '\n' !in line
  {
    var line := INCLUDE + OWASP_GLOB;
    assert line[|INCLUDE|..] == OWASP_GLOB;
    assert TrimLeft(OWASP_GLOB) == OWASP_GLOB;
    assert TrimLeft(line) == line;
    assert line[|line| - 1] == 'f';
  }

  lemma StopsAtFirst(l: Loader, asset: Asset)
    requires l([FromCatalog(asset.path, asset.data)]) == Reject("")
    requires asset.path != OWASP_ALL && asset.data != ""
    ensures LoadEach(l, START, [asset]) == SilentlyLoaded(asset)
  {
    var chunk := FromCatalog(asset.path, asset.data);
    assert [] + [chunk] == [chunk];
  }

  // ---------------------------------------------------------------------------
  // Loaders that judge each chunk by itself
  // ---------------------------------------------------------------------------

  /** If this configuration applies, every chunk was accepted. */
  ghost predicate AcceptedIfApplied(l: Loader, catalog: Catalog, directives: seq<string>) {
    var (st, ok) := Apply(l, catalog, directives);
    ok ==> forall i :: 0 <= i < |st.calls| ==> !Rejected(l, st.calls, i)
  }

  ghost predicate AlwaysFailsClosed(l: Loader) {
    forall catalog, directives :: AcceptedIfApplied(l, catalog, directives)
  }

  /** A loader whose verdict on a chunk does not depend on what it was given before. */
  ghost predicate JudgesLatest(l: Loader) {
    forall calls :: calls != [] ==> l(calls) == l([calls[|calls| - 1]])
  }

  predicate RejectsSilently(l: Loader, path: string, data: string) {
    InGlob(path) && data != "" && l([FromCatalog(path, data)]) == Reject("")
  }

  /**
   * For loaders that judge each chunk by itself: an applied configuration means that everything was
   * accepted, for all catalogs and directives, exactly if no asset behind the glob is rejected without
   * a reason.
   */
  lemma FailsClosedByItself(l: Loader)
    requires JudgesLatest(l)
    ensures AlwaysFailsClosed(l) <==> forall path, data :: !RejectsSilently(l, path, data)
  {
    hide Apply, RejectsSilently, AcceptedIfApplied;
    if path, data :| RejectsSilently(l, path, data) {
      RejectedYetApplied(l, path, data);
    } else {
      forall catalog, directives ensures AcceptedIfApplied(l, catalog, directives) {
        NothingSilent(l, catalog, directives);
      }
    }
  }

  lemma RejectedYetApplied(l: Loader, path: string, data: string)
    requires RejectsSilently(l, path, data)
    ensures !AcceptedIfApplied(l, Catalog([Asset(path, data)], ""), [INCLUDE + OWASP_GLOB])
  {
    hide Apply, InGlob, IncludeTarget, OWASP_GLOB, INCLUDE;
    GlobLine();
    SilentRejectionApplies(l, Catalog([Asset(path, data)], ""), Asset(path, data), INCLUDE + OWASP_GLOB);
  }

  lemma NothingSilent(l: Loader, catalog: Catalog, directives: seq<string>)
    requires JudgesLatest(l) && forall path, data :: !RejectsSilently(l, path, data)
    ensures AcceptedIfApplied(l, catalog, directives)
  {
    hide Apply, InGlob;
    var (st, ok) := Apply(l, catalog, directives);
    if ok {
      AppliedMeansAccepted(l, catalog, directives);
      forall i | 0 <= i < |st.calls| ensures !Rejected(l, st.calls, i) {
        assert st.calls[..i + 1][i] == st.calls[i];
        if st.calls[i].FromCatalog? {
          assert !RejectsSilently(l, st.calls[i].path, st.calls[i].data);
        }
      }
    }
  }

  // ---------------------------------------------------------------------------
  // The two forms stand for the same items
  // ---------------------------------------------------------------------------

  /** A loader that accepts everything. */
  const ACCEPT_ALL: Loader := calls => Accept

  /** All text handed to the loader, in order. */
  function Texts(calls: seq<Chunk>): string {
    if calls == [] then "" else calls[0].Text() + Texts(calls[1..])
  }

  function Given(st: Load): string { Texts(st.calls) + JoinLines(st.batch) }

  lemma {:induction false} TextsConcat(s: seq<Chunk>, t: seq<Chunk>)
    ensures Texts(s + t) == Texts(s) + Texts(t)
  {
    if s == [] {
      assert s + t == t;
    } else {
      assert (s + t)[1..] == s[1..] + t;
      TextsConcat(s[1..], t);
    }
  }

  lemma {:induction false} LoadedConcat(s: seq<Item>, t: seq<Item>)
    ensures Loaded(s + t) == Loaded(s) + Loaded(t)
    ensures Expanded(s + t) == Expanded(s) + Expanded(t)
  {
    hide LoadedText, ExpandedText;
    if s == [] {
      assert s + t == t;
    } else {
      assert (s + t)[1..] == s[1..] + t;
      LoadedConcat(s[1..], t);
      Associate(LoadedText(s[0]), Loaded(s[1..]), Loaded(t));
      Associate(ExpandedText(s[0]), Expanded(s[1..]), Expanded(t));
    }
  }

  lemma CallGives(st: Load, chunk: Chunk)
    ensures var (r, ok) := LoadChunk(ACCEPT_ALL, st, chunk);
      && ok && r == st.(calls := r.calls) && Texts(r.calls) == Texts(st.calls) + chunk.Text()
  {
    TextsConcat(st.calls, [chunk]);
    assert Texts([chunk]) == chunk.Text() by {
      assert [chunk][1..] == [];
    }
  }

  lemma FlushGives(st: Load)
    ensures var (r, ok) := FlushInline(ACCEPT_ALL, st);
      && ok && r.batch == [] && Given(r) == Given(st)
      && r.seen == st.seen && r.error == st.error && r.pending == st.pending
  {
    if st.batch != [] {
      CallGives(st, Inline(st.batch));
    }
  }

  lemma AddGives(st: Load, line: string)
    ensures Given(Add(st, line)) == Given(st) + line + "\n"
  {
    LoaderShapes.SizeOfOneMore(st.batch, line);
  }

  lemma RuleGives(st: Load, line: string)
    ensures var (r, ok) := ApplyRule(ACCEPT_ALL, st, line);
      ok && Given(r) == Given(st) + line + "\n" && r.seen == st.seen && r.error == st.error
    ensures var (r, ok) := ApplyPhraseFile(ACCEPT_ALL, st, line);
      ok && Given(r) == Given(st) + line + "\n" && r.seen == st.seen && r.error == st.error
  {
    FlushGives(st);
    var st1 := (if FlushBefore(st, line) then FlushInline(ACCEPT_ALL, st) else (st, true)).0;
    AddGives(st1, line);
    FlushGives(Add(st1, line));
    var st2 := (if st.pending then (st, true) else FlushInline(ACCEPT_ALL, st)).0;
    AddGives(st2, line);
    FlushGives(Add(st2, line));
  }

  lemma AssetGives(st: Load, marked: Load, path: string, data: string)
    requires st.batch == [] && marked == st.(seen := st.seen + {path})
    ensures var (r, ok) := LoadChunk(ACCEPT_ALL, marked, FromCatalog(path, data));
      && ok && r.batch == [] && Given(r) == Given(st) + data
      && r.seen == st.seen + {path} && r.error == st.error
  {
    CallGives(marked, FromCatalog(path, data));
  }

  lemma OneContent(asset: Asset, endsLine: bool)
    ensures Loaded([Content(asset, endsLine)]) == asset.data
    ensures Expanded([Content(asset, endsLine)]) == asset.data + (if endsLine then "" else "\n")
  {
    assert [Content(asset, endsLine)][1..] == [];
  }

  lemma FirstContent(asset: Asset, rest: seq<Item>)
    ensures Loaded([Content(asset, false)] + rest) == asset.data + Loaded(rest)
    ensures Expanded([Content(asset, false)] + rest) == asset.data + "\n" + Expanded(rest)
  {
    assert ([Content(asset, false)] + rest)[1..] == rest;
  }

  lemma {:induction false} EachGives(st: Load, assets: seq<Asset>)
    requires st.batch == []
    ensures var r := LoadEach(ACCEPT_ALL, st, assets);
      var (items, seen) := AssetItems(st.seen, assets);
      r.batch == [] && Given(r) == Given(st) + Loaded(items) && r.seen == seen && r.error == st.error
    decreases |assets|
  {
    if assets == [] {
      assert Given(st) + "" == Given(st);
    } else {
      hide Loaded, Given, LoadChunk;
      var asset := assets[0];
      if asset.path == OWASP_ALL || asset.path in st.seen {
        EachGives(st, assets[1..]);
      } else {
        var marked := st.(seen := st.seen + {asset.path});
        AssetGives(st, marked, asset.path, asset.data);
        var st1 := LoadChunk(ACCEPT_ALL, marked, FromCatalog(asset.path, asset.data)).0;
        EachGives(st1, assets[1..]);
        var rest := AssetItems(marked.seen, assets[1..]).0;
        FirstContent(asset, rest);
        Associate(Given(st), asset.data, Loaded(rest));
        assert LoadEach(ACCEPT_ALL, st, assets) == LoadEach(ACCEPT_ALL, st1, assets[1..]);
      }
    }
  }

  lemma {:induction false} EachExpands(x: Expansion, assets: seq<Asset>)
    ensures var r := AppendEach(x, assets);
      var (items, seen) := AssetItems(x.seen, assets);
      r == Expansion(x.text + Expanded(items), seen, x.error)
    decreases |assets|
  {
    if assets == [] {
      assert x.text + "" == x.text;
    } else if assets[0].path == OWASP_ALL || assets[0].path in x.seen {
      EachExpands(x, assets[1..]);
    } else {
      var x1 := AppendAsset(x, assets[0]);
      EachExpands(x1, assets[1..]);
      FirstContent(assets[0], AssetItems(x1.seen, assets[1..]).0);
    }
  }

  /** Loading a target gives the loader its items, or ends with its error. */
  ghost predicate GivesTarget(catalog: Catalog, st: Load, t: Target, r: Load, ok: bool) {
    if t.Missing? then !ok && r.error == t.error
    else
      var (items, seen) := TargetItems(catalog, st.seen, t);
      ok && r.batch == [] && Given(r) == Given(st) + Loaded(items) && r.seen == seen && r.error == NoError
  }

  lemma NothingGiven(st: Load)
    ensures Given(st) + Loaded([]) == Given(st)
  {
  }

  lemma NamedGives(catalog: Catalog, st: Load, asset: Asset)
    requires st.batch == [] && st.error == NoError
    ensures var (r, ok) := LoadAsset(ACCEPT_ALL, st, asset); GivesTarget(catalog, st, Named(asset), r, ok)
  {
    hide Given, Loaded, LoadChunk;
    AssetGives(st, st.(seen := st.seen + {asset.path}), asset.path, asset.data);
    OneContent(asset, false);
    NothingGiven(st);
  }

  lemma GlobGives(catalog: Catalog, st: Load, assets: seq<Asset>)
    requires st.batch == [] && st.error == NoError
    ensures var r := LoadEach(ACCEPT_ALL, st, assets); GivesTarget(catalog, st, Glob(assets), r, r.error.IsEmpty())
  {
    hide Given, Loaded, LoadEach;
    EachGives(st, assets);
  }

  lemma DefaultsGive(catalog: Catalog, st: Load)
    requires st.batch == [] && st.error == NoError
    ensures var asset := DefaultsAsset(catalog);
      var (r, ok) := if DEFAULTS in st.seen then (st, true)
        else LoadChunk(ACCEPT_ALL, st.(seen := st.seen + {DEFAULTS}), FromCatalog(asset.path, asset.data));
      GivesTarget(catalog, st, Defaults, r, ok)
  {
    hide Given, Loaded, LoadChunk, EndsLine;
    var asset := DefaultsAsset(catalog);
    LookupFinds(catalog.assets, DEFAULTS);
    AssetGives(st, st.(seen := st.seen + {DEFAULTS}), asset.path, asset.data);
    OneContent(asset, Lookup(catalog, DEFAULTS).None? && EndsLine(catalog.builtinDefaults));
    NothingGiven(st);
  }

  lemma TargetGives(catalog: Catalog, st: Load, target: string)
    requires st.batch == [] && st.error == NoError
    ensures var (r, ok) := ResolveIncludeLoad(ACCEPT_ALL, catalog, st, target);
      GivesTarget(catalog, st, ResolveTarget(catalog, target), r, ok)
  {
    hide Given, Loaded, LoadAsset, LoadChunk, LoadEach, TargetItems, ResolveTarget, DefaultsAsset;
    match ResolveTarget(catalog, target)
    case Missing(_) =>
    case Named(asset) => NamedGives(catalog, st, asset);
    case Glob(assets) => GlobGives(catalog, st, assets);
    case Defaults => DefaultsGive(catalog, st);
  }

  lemma NothingWritten(x: Expansion)
    ensures x.text + Expanded([]) == x.text
  {
  }

  lemma LineEnded(text: string, more: string)
    requires more != ""
    ensures EndLine(text + more) == text + (more + if EndsLine(more) then "" else "\n")
  {
  }

  lemma TargetExpands(catalog: Catalog, x: Expansion, target: string)
    requires x.error == NoError && catalog.builtinDefaults != ""
    ensures var t := ResolveTarget(catalog, target);
      var (r, ok) := ExpandInclude(catalog, x, target);
      if t.Missing? then !ok && r.error == t.error
      else
        var (items, seen) := TargetItems(catalog, x.seen, t);
        ok && r == Expansion(x.text + Expanded(items), seen, NoError)
  {
    NothingWritten(x);
    hide Expanded, ResolveTarget, AppendEach, AssetItems, EndLine;
    match ResolveTarget(catalog, target)
    case Missing(_) =>
    case Named(asset) => OneContent(asset, false);
    case Glob(assets) => EachExpands(x, assets);
    case Defaults =>
      LookupFinds(catalog.assets, DEFAULTS);
      OneContent(DefaultsAsset(catalog), Lookup(catalog, DEFAULTS).None? && EndsLine(catalog.builtinDefaults));
      LineEnded(x.text, catalog.builtinDefaults);
  }

  lemma OneRule(line: string)
    ensures Loaded([Rule(line)]) == Expanded([Rule(line)]) == line + "\n"
  {
    assert [Rule(line)][1..] == [];
  }

  /** Applying a line gives the loader what the line means, or stops with its error. */
  ghost predicate GivesMeaning(st: Load, r: Load, ok: bool, m: Meaning) {
    if m.error.Some? then !ok && r.error == m.error.value
    else ok && Given(r) == Given(st) + Loaded(m.items) && r.seen == m.seen && r.error == NoError
  }

  lemma TargetMeans(catalog: Catalog, st: Load, st1: Load, line: string, r: Load, ok: bool)
    requires IsInclude(line) && !IsSkipped(line)
    requires st1.seen == st.seen && Given(st1) == Given(st)
    requires GivesTarget(catalog, st1, ResolveTarget(catalog, IncludeTarget(line)), r, ok)
    ensures GivesMeaning(st, r, ok, LineItems(catalog, st.seen, line))
  {
    hide Given, Loaded, ResolveTarget, TargetItems, IsSkipped, IsInclude, IncludeTarget;
  }

  lemma IncludeGives(catalog: Catalog, st: Load, line: string)
    requires st.error == NoError && IsInclude(line) && !IsSkipped(line)
    ensures var (r, ok) := ApplyInclude(ACCEPT_ALL, catalog, st, line);
      GivesMeaning(st, r, ok, LineItems(catalog, st.seen, line))
  {
    var cut := st.(pending := false);
    assert Given(cut) == Given(st);
    hide Given, FlushInline, ResolveIncludeLoad, GivesMeaning, GivesTarget, ResolveTarget, LineItems;
    hide IsInclude, IsSkipped, IncludeTarget;
    FlushGives(cut);
    var st1 := FlushInline(ACCEPT_ALL, cut).0;
    TargetGives(catalog, st1, IncludeTarget(line));
    var (r, ok) := ResolveIncludeLoad(ACCEPT_ALL, catalog, st1, IncludeTarget(line));
    TargetMeans(catalog, st, st1, line, r, ok);
  }

  lemma LineGives(catalog: Catalog, st: Load, line: string)
    requires st.error == NoError
    ensures var (r, ok) := ApplyLine(ACCEPT_ALL, catalog, st, line);
      GivesMeaning(st, r, ok, LineItems(catalog, st.seen, line))
  {
    hide Given, Loaded, ApplyInclude, ApplyRule, ApplyPhraseFile, ResolveTarget, TargetItems, StartsWith;
    hide IncludeTarget, IsPhraseFile;
    if !IsSkipped(line) && IsInclude(line) {
      IncludeGives(catalog, st, line);
    } else {
      NothingGiven(st);
      RuleGives(st, line);
      OneRule(line);
    }
  }

  lemma LineExpands(catalog: Catalog, x: Expansion, line: string)
    requires x.error == NoError && catalog.builtinDefaults != ""
    ensures var m := LineItems(catalog, x.seen, line);
      var (r, ok) := ExpandLine(catalog, x, line);
      if m.error.Some? then !ok && r.error == m.error.value
      else ok && r == Expansion(x.text + Expanded(m.items), m.seen, NoError)
  {
    assert x.text + "" == x.text;
    if IsSkipped(line) {
    } else if IsInclude(line) {
      TargetExpands(catalog, x, IncludeTarget(line));
    } else {
      OneRule(line);
    }
  }

  /** Applying these lines gives the loader the text of their items, or stops with their error. */
  ghost predicate GivesItems(st: Load, r: Load, ok: bool, items: seq<Item>, error: Option<Error>) {
    if ok then error.None? && Given(r) == Given(st) + Loaded(items) && r.error == NoError
    else error == Some(r.error)
  }

  lemma GivesMore(st: Load, st1: Load, first: seq<Item>, r: Load, ok: bool, rest: seq<Item>, error: Option<Error>)
    requires Given(st1) == Given(st) + Loaded(first)
    requires GivesItems(st1, r, ok, rest, error)
    ensures GivesItems(st, r, ok, first + rest, error)
  {
    hide Loaded, Expanded, Given;
    LoadedConcat(first, rest);
    Associate(Given(st), Loaded(first), Loaded(rest));
  }

  lemma {:induction false} LinesGive(catalog: Catalog, st: Load, lines: seq<string>)
    requires st.error == NoError
    ensures var (items, error) := Items(catalog, st.seen, lines);
      var (r, ok) := ApplyLines(ACCEPT_ALL, catalog, st, lines);
      GivesItems(st, r, ok, items, error)
    decreases |lines|
  {
    if lines == [] {
      assert Given(st) + "" == Given(st);
    } else {
      var line, rest := Trim(lines[0]), lines[1..];
      LineGives(catalog, st, line);
      var (st1, ok) := ApplyLine(ACCEPT_ALL, catalog, st, line);
      if ok {
        LinesGive(catalog, st1, rest);
        var (r, done) := ApplyLines(ACCEPT_ALL, catalog, st1, rest);
        var (items, error) := Items(catalog, st1.seen, rest);
        GivesMore(st, st1, LineItems(catalog, st.seen, line).items, r, done, items, error);
      }
    }
  }

  ghost predicate ExpandsItems(x: Expansion, r: Expansion, ok: bool, items: seq<Item>, error: Option<Error>) {
    if ok then error.None? && r.text == x.text + Expanded(items)
    else error == Some(r.error)
  }

  lemma ExpandsMore(
      x: Expansion, x1: Expansion, first: seq<Item>, r: Expansion, ok: bool, rest: seq<Item>, error: Option<Error>)
    requires x1.text == x.text + Expanded(first)
    requires ExpandsItems(x1, r, ok, rest, error)
    ensures ExpandsItems(x, r, ok, first + rest, error)
  {
    hide Loaded, Expanded;
    LoadedConcat(first, rest);
    Associate(x.text, Expanded(first), Expanded(rest));
  }

  lemma {:induction false} LinesExpand(catalog: Catalog, x: Expansion, lines: seq<string>)
    requires x.error == NoError && catalog.builtinDefaults != ""
    ensures var (items, error) := Items(catalog, x.seen, lines);
      var (r, ok) := ExpandLines(catalog, x, lines);
      ExpandsItems(x, r, ok, items, error)
    decreases |lines|
  {
    if lines == [] {
      assert x.text + "" == x.text;
    } else {
      var line, rest := Trim(lines[0]), lines[1..];
      LineExpands(catalog, x, line);
      var (x1, ok) := ExpandLine(catalog, x, line);
      if ok {
        LinesExpand(catalog, x1, rest);
        var (r, done) := ExpandLines(catalog, x1, rest);
        var (items, error) := Items(catalog, x1.seen, rest);
        ExpandsMore(x, x1, LineItems(catalog, x.seen, line).items, r, done, items, error);
      }
    }
  }

  lemma ItemsOfFlat(catalog: Catalog, seen: set<string>, line: string, rest: seq<string>)
    requires Trim(line) == line
    ensures Items(catalog, seen, NonEmpty(line) + rest) ==
      var m := LineItems(catalog, seen, line);
      if m.error.Some? then ([], m.error)
      else (m.items + Items(catalog, m.seen, rest).0, Items(catalog, m.seen, rest).1)
  {
    if line == "" {
      assert NonEmpty(line) + rest == rest;
      assert [] + Items(catalog, seen, rest).0 == Items(catalog, seen, rest).0;
    } else {
      var lines := NonEmpty(line) + rest;
      assert lines[0] == line && lines[1..] == rest;
    }
  }

  /** The items of a directive without Includes, split, are what the loader keeps of its lines. */
  lemma {:induction false} CleanedItems(catalog: Catalog, seen: set<string>, lines: seq<string>, rest: seq<string>)
    requires forall i :: 0 <= i < |lines| ==> !IsInclude(Trim(lines[i]))
    ensures var (items, error) := Items(catalog, seen, Cleaned(lines) + rest);
      var (more, ended) := Items(catalog, seen, rest);
      error == ended && Loaded(items) == Kept(lines) + Loaded(more)
    decreases |lines|
  {
    hide Trim, IsInclude;
    var more := Items(catalog, seen, rest).0;
    if lines == [] {
      assert Cleaned(lines) + rest == rest;
      assert "" + Loaded(more) == Loaded(more);
    } else {
      var line, tail := Trim(lines[0]), Cleaned(lines[1..]) + rest;
      assert forall i :: 0 <= i < |lines[1..]| ==> lines[1..][i] == lines[i + 1];
      CleanedItems(catalog, seen, lines[1..], rest);
      TrimTwice(lines[0]);
      Associate(NonEmpty(line), Cleaned(lines[1..]), rest);
      ItemsOfFlat(catalog, seen, line, tail);
      var items := Items(catalog, seen, tail).0;
      LoadedConcat(LineItems(catalog, seen, line).items, items);
      Associate(if IsSkipped(line) then "" else line + "\n", Kept(lines[1..]), Loaded(more));
      OneRule(line);
      assert "" + Loaded(items) == Loaded(items);
    }
  }

  /** A directive that means the same split and whole: one line, or no Include and lines that read alike. */
  predicate MeansTheSame(d: string) {
    '\n' !in Trim(d) || (NoInclude(d) && ReadsAlike(d))
  }

  ghost predicate SameText(a: (seq<Item>, Option<Error>), b: (seq<Item>, Option<Error>)) {
    Loaded(a.0) == Loaded(b.0) && a.1 == b.1
  }

  lemma {:induction false} FlattenedItems(catalog: Catalog, seen: set<string>, directives: seq<string>)
    requires forall i :: 0 <= i < |directives| ==> MeansTheSame(directives[i])
    ensures SameText(Items(catalog, seen, Flatten(directives)), Items(catalog, seen, directives))
    decreases |directives|
  {
    hide MeansTheSame, SplitDirectiveLines;
    if directives != [] {
      var rest := directives[1..];
      assert forall i :: 0 <= i < |rest| ==> rest[i] == directives[i + 1];
      var m := LineItems(catalog, seen, Trim(directives[0]));
      if m.error.None? {
        FlattenedItems(catalog, m.seen, rest);
      }
      DirectiveItems(catalog, seen, directives[0], Flatten(rest));
      if m.error.None? {
        LoadedConcat(m.items, Items(catalog, m.seen, rest).0);
        LoadedConcat(m.items, Items(catalog, m.seen, Flatten(rest)).0);
      }
    }
  }

  /** Splitting such a directive changes neither the text of its items nor the error. */
  lemma DirectiveItems(catalog: Catalog, seen: set<string>, d: string, rest: seq<string>)
    requires MeansTheSame(d)
    ensures var m := LineItems(catalog, seen, Trim(d));
      SameText(Items(catalog, seen, SplitDirectiveLines(d) + rest),
               if m.error.Some? then ([], m.error)
               else (m.items + Items(catalog, m.seen, rest).0, Items(catalog, m.seen, rest).1))
  {
    hide SplitDirectiveLines, NoInclude, ReadsAlike, Loaded;
    TrimTwice(d);
    if '\n' !in Trim(d) {
      SingleLine(d);
      ItemsOfFlat(catalog, seen, Trim(d), rest);
    } else {
      SplitOfTrimmed(d);
      BlobItems(catalog, seen, d, rest);
    }
  }

  lemma BlobItems(catalog: Catalog, seen: set<string>, d: string, rest: seq<string>)
    requires NoInclude(d) && ReadsAlike(d)
    ensures var m := LineItems(catalog, seen, Trim(d));
      var (more, ended) := Items(catalog, seen, rest);
      && m.error.None? && m.seen == seen
      && SameText(Items(catalog, seen, Cleaned(Physical(Trim(d))) + rest), (m.items + more, ended))
  {
    hide Trim, Physical, Kept, Cleaned, ReadsAlike, Items;
    CleanedItems(catalog, seen, Physical(Trim(d)), rest);
    KeptIsWritten(d);
    LoadedConcat(LineItems(catalog, seen, Trim(d)).items, Items(catalog, seen, rest).0);
    OneRule(Trim(d));
  }

  /**
   * For directives of one line, and for blobs that read alike split and whole, the chunked load and the
   * plain expansion stand for the same items: what the loader is given, joined, is their text, what the
   * expansion writes is the same with a newline after each catalog asset, and both stop at the same
   * Include with the same error.
   */
  lemma ChunkedLoadIsExpansion(catalog: Catalog, directives: seq<string>)
    requires catalog.builtinDefaults != ""
    requires forall i :: 0 <= i < |directives| ==> MeansTheSame(directives[i])
    ensures var (items, error) := Items(catalog, {}, directives);
      var (load, loaded) := Apply(ACCEPT_ALL, catalog, directives);
      var (x, expanded) := Expand(catalog, directives);
      && loaded == error.None?
      && (expanded <==> loaded && Expanded(items) != "")
      && (loaded ==> Texts(load.calls) == Loaded(items) && x.text == Expanded(items))
      && (!loaded ==> load.error == x.error == error.value)
  {
    hide MeansTheSame;
    LinesExpand(catalog, EMPTY, directives);
    FlattenedItems(catalog, {}, directives);
    ApplyGives(catalog, Flatten(directives));
  }

  lemma ApplyGives(catalog: Catalog, lines: seq<string>)
    ensures var (items, error) := Items(catalog, {}, lines);
      var (st, ok) := ApplyLines(ACCEPT_ALL, catalog, START, lines);
      var (load, loaded) := if ok then FlushInline(ACCEPT_ALL, st) else (st, false);
      && loaded == error.None?
      && (loaded ==> Texts(load.calls) == Loaded(items))
      && (!loaded ==> load.error == error.value)
  {
    LinesGive(catalog, START, lines);
    var (st, ok) := ApplyLines(ACCEPT_ALL, catalog, START, lines);
    FlushedText(st, Items(catalog, {}, lines).0);
  }

  lemma FlushedText(st: Load, items: seq<Item>)
    ensures var (load, loaded) := FlushInline(ACCEPT_ALL, st);
      loaded && (Given(st) == Given(START) + Loaded(items) ==> Texts(load.calls) == Loaded(items))
  {
    FlushGives(st);
    var load := FlushInline(ACCEPT_ALL, st).0;
    assert Given(load) == Texts(load.calls);
    assert Given(START) + Loaded(items) == Loaded(items);
  }

  /**
   * A directive of any number of lines without Includes is given to the loader as the expansion writes it
   * exactly if it reads alike: all its lines are comments, or each is non-empty, trimmed and no comment.
   */
  lemma BlobTextsAgree(catalog: Catalog, d: string)
    requires NoInclude(d)
    ensures var (load, loaded) := Apply(ACCEPT_ALL, catalog, [d]);
      var (x, expanded) := ExpandLines(catalog, EMPTY, [d]);
      && loaded && expanded
      && Texts(load.calls) == Kept(Physical(Trim(d))) && x.text == Written(d)
      && (Texts(load.calls) == x.text <==> ReadsAlike(d))
  {
    hide Trim, Physical, Kept, Cleaned, ReadsAlike, SplitDirectiveLines, ApplyLines;
    var lines := Physical(Trim(d));
    FlattenOne(d);
    SplitOfTrimmed(d);
    ApplyGives(catalog, Cleaned(lines));
    CleanedItems(catalog, {}, lines, []);
    assert Cleaned(lines) + [] == Cleaned(lines);
    assert Kept(lines) + "" == Kept(lines);
    KeptIsWritten(d);
    WrittenAlone(catalog, d);
  }

  lemma WrittenAlone(catalog: Catalog, d: string)
    requires !IsInclude(Trim(d))
    ensures ExpandLines(catalog, EMPTY, [d]) == (EMPTY.(text := Written(d)), true)
  {
    hide Trim;
    var one: seq<string> := [d];
    assert one[1..] == [];
    var x := EMPTY.(text := Written(d));
    assert "" + Trim(d) + "\n" == Trim(d) + "\n";
    assert ExpandLines(catalog, x, []) == (x, true);
  }

  /**
   * What the two walks make of any one directive, Includes in it or not. The loader follows each Include line
   * of it and stops at one whose target is missing. The expansion looks at the directive as a whole: it writes
   * it as text, Include lines and all, drops it as a comment, or takes all of it for one Include, which fails
   * when more lines belong to the target.
   */
  lemma BlobWalks(catalog: Catalog, d: string)
    ensures var (items, error) := Items(catalog, {}, Cleaned(Physical(Trim(d))));
      var (load, loaded) := Apply(ACCEPT_ALL, catalog, [d]);
      && loaded == error.None?
      && (if loaded then Texts(load.calls) == Loaded(items) else load.error == error.value)
    ensures var (x, expanded) := ExpandLines(catalog, EMPTY, [d]);
      && (!IsInclude(Trim(d)) ==> expanded && x.text == Written(d))
      && (IsInclude(Trim(d)) && '\n' in IncludeTarget(Trim(d)) && NoLinesInPaths(catalog) ==> !expanded)
  {
    hide Trim, Physical, Cleaned, SplitDirectiveLines, ApplyLines, IncludeTarget, NoLinesInPaths, StartsWith;
    FlattenOne(d);
    SplitOfTrimmed(d);
    ApplyGives(catalog, Cleaned(Physical(Trim(d))));
    if IsInclude(Trim(d)) {
      LineInTarget(catalog, IncludeTarget(Trim(d)));
      IncludeAlone(catalog, d);
    } else {
      WrittenAlone(catalog, d);
    }
  }

  predicate NoLinesInPaths(catalog: Catalog) {
    forall i :: 0 <= i < |catalog.assets| ==> '\n' !in catalog.assets[i].path
  }

  lemma {:induction false} LookupIsThere(assets: seq<Asset>, path: string)
    ensures LookupIn(assets, path).Some? ==> exists i :: 0 <= i < |assets| && assets[i].path == path
  {
    if assets != [] && assets[0].path != path {
      LookupIsThere(assets[1..], path);
    }
  }

  /** A target with a newline in it is nowhere in the catalog. */
  lemma LineInTarget(catalog: Catalog, target: string)
    ensures '\n' in target && NoLinesInPaths(catalog) ==> ResolveTarget(catalog, target).Missing?
  {
    LookupIsThere(catalog.assets, target);
    hide StartsWith, LookupIn, OwaspAssets;
    assert '\n' !in DEFAULTS && '\n' !in "@demo-conf" && '\n' !in "@ftw-conf";
    assert '\n' !in "@crs-setup-conf" && '\n' !in OWASP_GLOB;
  }

  lemma IncludeAlone(catalog: Catalog, d: string)
    requires IsInclude(Trim(d))
    ensures ResolveTarget(catalog, IncludeTarget(Trim(d))).Missing? ==> !ExpandLines(catalog, EMPTY, [d]).1
  {
    hide Trim, ResolveTarget;
    var line := Trim(d);
    assert line[0] == INCLUDE[0] && !IsSkipped(line);
  }

  /** Two rules read alike; a comment and a rule, or an indented second rule, do not. */
  lemma SomeBlobs()
    ensures NoInclude("A\nB") && ReadsAlike("A\nB")
    ensures NoInclude("#\nA") && !ReadsAlike("#\nA")
    ensures NoInclude("A\n B") && !ReadsAlike("A\n B")
  {
    hide ReadsAlike, NoInclude, Trim;
    TrimOf("A");
    TrimOf("B");
    TrimOf("#");
    IndentedLine();
    TwoLines("A\nB", "A", "B");
    TwoLines("#\nA", "#", "A");
    TwoLines("A\n B", "A", " B");
  }

  lemma IndentedLine()
    ensures Trim(" B") == "B"
  {
    assert " B"[1..] == "B";
  }

  lemma TwoLines(d: string, one: string, two: string)
    requires d == one + "\n" + two && '\n' !in one && '\n' !in two
    requires one != "" && !IsSpace(d[0]) && !IsSpace(d[|d| - 1]) && Trim(one) == one
    ensures !IsInclude(d) && !IsInclude(one) && !IsInclude(Trim(two)) ==> NoInclude(d)
    ensures ReadsAlike(d) <==>
      if IsSkipped(d) then IsSkipped(one) && IsSkipped(Trim(two)) else IsWhole(one) && IsWhole(two)
  {
    TrimOf(d);
    TwoPhysical(d, one, two);
    hide Trim, Physical, IsSpace, IsSkipped, IsInclude, IsWhole;
    var lines := Physical(d);
    assert |lines| == 2 && lines[0] == one && lines[1] == two;
  }

  lemma TwoPhysical(d: string, one: string, two: string)
    requires d == one + "\n" + two && '\n' !in one && '\n' !in two
    ensures Physical(d) == [one, two]
  {
    hide Physical;
    assert d[..|one|] == one && d[|one| + 1..] == two && d[|one|] == '\n';
    PhysicalAt(d, |one|);
    PhysicalOne(two);
  }

  /** With no such asset, the loader refuses this blob, and the expansion takes it for two rules. */
  lemma IncludeInBlob(catalog: Catalog)
    requires Lookup(catalog, "@demo-conf").None?
    ensures var d := "A\nInclude @demo-conf";
      && Apply(ACCEPT_ALL, catalog, [d]).1 == false
      && ExpandLines(catalog, EMPTY, [d]) == (EMPTY.(text := d + "\n"), true)
  {
    DemoBlob();
    DemoInclude("Include @demo-conf");
    DemoItems(catalog);
    hide Trim, Physical, StartsWith, LookupIn, IncludeTarget, Apply, ExpandLines, Cleaned;
    BlobWalks(catalog, "A\nInclude @demo-conf");
    WrittenAlone(catalog, "A\nInclude @demo-conf");
  }

  lemma DemoBlob()
    ensures var d := "A\nInclude @demo-conf";
      Trim(d) == d && Cleaned(Physical(d)) == ["A", "Include @demo-conf"]
  {
    var d, one, two := "A\nInclude @demo-conf", "A", "Include @demo-conf";
    TrimOf(d);
    TrimOf(one);
    TrimOf(two);
    TwoPhysical(d, one, two);
    TwoCleaned(one, two);
  }

  lemma DemoItems(catalog: Catalog)
    requires Lookup(catalog, "@demo-conf").None?
    ensures Items(catalog, {}, ["A", "Include @demo-conf"]).1.Some?
  {
    var one, two := "A", "Include @demo-conf";
    TrimOf(one);
    TrimOf(two);
    DemoInclude(two);
    hide Trim, StartsWith, LookupIn, IncludeTarget;
    ItemsOfFlat(catalog, {}, one, [two]);
    assert NonEmpty(one) + [two] == [one, two];
    ItemsOfFlat(catalog, {}, two, []);
    assert NonEmpty(two) + [] == [two];
  }

  lemma TwoCleaned(one: string, two: string)
    requires Trim(one) == one && Trim(two) == two && one != "" && two != ""
    ensures Cleaned([one, two]) == [one, two]
  {
    assert [one, two] == [one] + [two] && [two] == [two] + [];
    CleanedMore(one, [two]);
    CleanedMore(two, []);
  }

  lemma DemoInclude(line: string)
    requires line == "Include @demo-conf"
    ensures IsInclude(line) && !IsSkipped(line) && IncludeTarget(line) == "@demo-conf"
    ensures !IsInclude("A") && !IsInclude("A\nInclude @demo-conf") && !IsSkipped("A")
    ensures !IsSkipped("A\nInclude @demo-conf")
  {
    assert line[|INCLUDE|..] == "@demo-conf" && line[0] == 'I';
    TrimOf("@demo-conf");
  }
}
