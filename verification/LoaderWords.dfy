/** Which words of a line the loader reacts to, and what an Include target stands for. */
module LoaderWords {
  import opened Prelude
  import opened Text
  import opened LoaderModel

  // ---------------------------------------------------------------------------
  // Chains and phrase files
  // ---------------------------------------------------------------------------

  /**
   * The word `chain` is an action of the line: it ends an action list or stands inside it after a comma, or
   * it is the whole list in quotes.
   */
  ghost predicate ChainAction(line: string, pre: string, post: string) {
    || (line == pre + ",chain" + post && (post == "" || post[0] in ['"', ',', '\n']))
    || line == pre + "\"chain\"" + post
  }

  lemma Found(pre: string, needle: string, post: string)
    ensures Contains(pre + needle + post, needle)
  {
    var s := pre + needle + post;
    assert OccursAt(s, needle, |pre|);
    FindMeans(s, needle, 0);
  }

  lemma Split(s: string, needle: string) returns (pre: string, post: string)
    requires Contains(s, needle)
    ensures s == pre + needle + post
  {
    FindMeans(s, needle, 0);
    var k := Find(s, needle, 0).value;
    pre, post := s[..k], s[k + |needle|..];
  }

  /** A line requests a chain exactly if `chain` is one of its actions. */
  lemma RequestsChainMeans(line: string)
    ensures RequestsChain(line) <==> exists pre, post :: ChainAction(line, pre, post)
  {
    if RequestsChain(line) {
      ChainFound(line);
    }
    forall pre, post | ChainAction(line, pre, post) ensures RequestsChain(line) {
      ChainRequested(line, pre, post);
    }
  }

  lemma ChainFound(line: string)
    requires RequestsChain(line)
    ensures exists pre, post :: ChainAction(line, pre, post)
  {
    hide Find;
    var pre, post;
    if |line| >= 6 && line[|line| - 6..] == ",chain" {
      pre, post := line[..|line| - 6], "";
      assert line == pre + ",chain" + post;
    } else if Contains(line, "\"chain\"") {
      pre, post := Split(line, "\"chain\"");
    } else if Contains(line, ",chain\"") {
      pre, post := Split(line, ",chain\"");
      post := ['"'] + post;
      assert line == pre + ",chain" + post;
    } else if Contains(line, ",chain,") {
      pre, post := Split(line, ",chain,");
      post := [','] + post;
      assert line == pre + ",chain" + post;
    } else {
      pre, post := Split(line, ",chain\n");
      post := ['\n'] + post;
      assert line == pre + ",chain" + post;
    }
    assert ChainAction(line, pre, post);
  }

  lemma ChainRequested(line: string, pre: string, post: string)
    requires ChainAction(line, pre, post)
    ensures RequestsChain(line)
  {
    hide Contains;
    if line == pre + "\"chain\"" + post {
      Found(pre, "\"chain\"", post);
    } else if post == "" {
      assert line == pre + ",chain";
    } else {
      var word := ",chain" + [post[0]];
      assert line == pre + word + post[1..];
      Found(pre, word, post[1..]);
      assert word == ",chain\"" || word == ",chain," || word == ",chain\n";
    }
  }

  /** Without the word there is no request. */
  lemma NoChainWord(line: string)
    requires forall k: nat :: !OccursAt(line, "chain", k)
    ensures !RequestsChain(line)
  {
    if RequestsChain(line) {
      ChainFound(line);
      var pre, post :| ChainAction(line, pre, post);
      assert line[|pre| + 1..|pre| + 6] == "chain";
      assert OccursAt(line, "chain", |pre| + 1);
    }
  }

  /** A phrase-file line names one of the two operators that read a file. */
  lemma PhraseFileMeans(line: string)
    ensures IsPhraseFile(line) <==>
      exists pre, post :: line == pre + "@pmFromFile" + post || line == pre + "@ipMatchFromFile" + post
  {
    if Contains(line, "@pmFromFile") {
      var pre, post := Split(line, "@pmFromFile");
    } else if Contains(line, "@ipMatchFromFile") {
      var pre, post := Split(line, "@ipMatchFromFile");
    }
    forall pre, post | line == pre + "@pmFromFile" + post || line == pre + "@ipMatchFromFile" + post
      ensures IsPhraseFile(line)
    {
      if line == pre + "@pmFromFile" + post {
        Found(pre, "@pmFromFile", post);
      } else {
        Found(pre, "@ipMatchFromFile", post);
      }
    }
  }

  // ---------------------------------------------------------------------------
  // Comments and Includes
  // ---------------------------------------------------------------------------

  /** An empty line or a comment changes nothing wherever it stands, in the loader and in the expansion. */
  lemma {:induction false} CommentsAreSkipped(
      l: Loader, catalog: Catalog, st: Load, x: Expansion, before: seq<string>, line: string, after: seq<string>)
    requires var t := Trim(line); t == "" || t[0] == '#'
    ensures ApplyLines(l, catalog, st, before + [line] + after) == ApplyLines(l, catalog, st, before + after)
    ensures ExpandLines(catalog, x, before + [line] + after) == ExpandLines(catalog, x, before + after)
    decreases |before|
  {
    hide ApplyInclude, ApplyPhraseFile, ApplyRule, ExpandInclude, Trim;
    var with, without := before + [line] + after, before + after;
    if before == [] {
      assert with[0] == line && with[1..] == after && without == after;
    } else {
      var st1, x1 := ApplyLine(l, catalog, st, Trim(before[0])).0, ExpandLine(catalog, x, Trim(before[0])).0;
      CommentsAreSkipped(l, catalog, st1, x1, before[1..], line, after);
      assert with[0] == without[0] == before[0];
      assert with[1..] == before[1..] + [line] + after && without[1..] == before[1..] + after;
    }
  }

  /** The first asset of the catalog under this path holds these data. */
  ghost predicate Provides(catalog: Catalog, path: string, data: string) {
    exists i :: 0 <= i < |catalog.assets| && catalog.assets[i] == Asset(path, data)
      && forall j :: 0 <= j < i ==> catalog.assets[j].path != path
  }

  ghost predicate Lacks(catalog: Catalog, path: string) {
    forall i :: 0 <= i < |catalog.assets| ==> catalog.assets[i].path != path
  }

  lemma {:induction false} LookupFirst(assets: seq<Asset>, path: string, i: nat)
    requires i <= |assets| && forall j :: 0 <= j < i ==> assets[j].path != path
    requires i < |assets| ==> assets[i].path == path
    ensures LookupIn(assets, path) == if i < |assets| then Some(assets[i]) else None
    decreases i
  {
    if i > 0 {
      assert forall j :: 0 <= j < i - 1 ==> assets[1..][j] == assets[j + 1];
      LookupFirst(assets[1..], path, i - 1);
    }
  }

  lemma ProvidedIsFound(catalog: Catalog, path: string)
    ensures Lacks(catalog, path) ==> Lookup(catalog, path) == None
    ensures forall data :: Provides(catalog, path, data) ==> Lookup(catalog, path) == Some(Asset(path, data))
  {
    if Lacks(catalog, path) {
      LookupFirst(catalog.assets, path, |catalog.assets|);
    }
    forall data | Provides(catalog, path, data) ensures Lookup(catalog, path) == Some(Asset(path, data)) {
      var i :| 0 <= i < |catalog.assets| && catalog.assets[i] == Asset(path, data)
        && forall j :: 0 <= j < i ==> catalog.assets[j].path != path;
      LookupFirst(catalog.assets, path, i);
    }
  }

  /** One call more, and what the loader says of it. */
  ghost predicate Calls(l: Loader, st: Load, chunk: Chunk, out: Outcome) {
    var called := st.(calls := st.calls + [chunk]);
    match l(called.calls)
    case Accept => out == (called, true)
    case Reject(message) => out == (called.(error := FromLoader(message)), false)
  }

  /** An asset goes to the loader once, unless it is empty. */
  ghost predicate Loads(l: Loader, st: Load, path: string, data: string, out: Outcome) {
    var marked := st.(seen := st.seen + {path});
    if path in st.seen then out == (st, true)
    else if data == "" then out == (marked, true)
    else Calls(l, marked, FromCatalog(path, data), out)
  }

  /** The expansion writes it once, with a newline. */
  ghost predicate Writes(x: Expansion, path: string, data: string, out: (Expansion, bool)) {
    if path in x.seen then out == (x, true)
    else out == (x.(text := x.text + data + "\n", seen := x.seen + {path}), true)
  }

  /** The defaults of the source are ended by a newline only where none is there. */
  ghost predicate WritesDefaults(x: Expansion, data: string, out: (Expansion, bool)) {
    var text := x.text + data;
    var ended := if text != "" && text[|text| - 1] == '\n' then text else text + "\n";
    if "@kubewaf-defaults" in x.seen then out == (x, true)
    else out == (x.(text := ended, seen := x.seen + {"@kubewaf-defaults"}), true)
  }

  ghost predicate Fails(st: Load, x: Expansion, error: Error, loads: Outcome, writes: (Expansion, bool)) {
    loads == (st.(error := error), false) && writes == (x.(error := error), false)
  }

  /** The targets that name one asset of the catalog. */
  predicate NamesOne(target: string) {
    || target in ["@demo-conf", "@ftw-conf", "@crs-setup-conf"]
    || ("@owasp_crs/" <= target && target != "@owasp_crs/*.conf")
  }

  predicate IsKnown(target: string) {
    NamesOne(target) || target == "@owasp_crs/*.conf" || target == "@kubewaf-defaults"
  }

  /**
   * A target that names one asset loads that asset, and fails without it; the defaults come from the
   * catalog or from the source; a target that is not known fails.
   */
  lemma IncludeNames(l: Loader, catalog: Catalog, st: Load, x: Expansion, target: string)
    ensures var loads, writes := ResolveIncludeLoad(l, catalog, st, target), ExpandInclude(catalog, x, target);
      && (NamesOne(target) || target == "@kubewaf-defaults" ==>
           forall data :: Provides(catalog, target, data) ==>
             Loads(l, st, target, data, loads) && Writes(x, target, data, writes))
      && (target in ["@demo-conf", "@ftw-conf"] && Lacks(catalog, target) ==>
           Fails(st, x, UnknownInclude(target), loads, writes))
      && (NamesOne(target) && target !in ["@demo-conf", "@ftw-conf"] && Lacks(catalog, target) ==>
           Fails(st, x, NotInCatalog(target), loads, writes))
      && (target == "@kubewaf-defaults" && Lacks(catalog, target) ==>
           Loads(l, st, target, catalog.builtinDefaults, loads) && WritesDefaults(x, catalog.builtinDefaults, writes))
      && (!IsKnown(target) ==> Fails(st, x, UnsupportedInclude(target), loads, writes))
  {
    ProvidedIsFound(catalog, target);
    if "@owasp_crs/" <= target {
      assert target[1] == "@owasp_crs/"[1];
    }
  }

  // ---------------------------------------------------------------------------
  // The OWASP glob
  // ---------------------------------------------------------------------------

  /** The asset at i is one of the rule set, other than its index, and new. */
  predicate IsPicked(assets: seq<Asset>, seen: set<string>, i: nat)
    requires i < |assets|
  {
    && "@owasp_crs/" <= assets[i].path && assets[i].path != "@owasp_crs/_all.conf"
    && assets[i].path !in seen && forall j :: 0 <= j < i ==> assets[j].path != assets[i].path
  }

  /** The calls for the first n assets. */
  function GlobCalls(assets: seq<Asset>, seen: set<string>, n: nat): seq<Chunk>
    requires n <= |assets|
  {
    if n == 0 then []
    else
      GlobCalls(assets, seen, n - 1)
      + if IsPicked(assets, seen, n - 1) && assets[n - 1].data != "" then
          [FromCatalog(assets[n - 1].path, assets[n - 1].data)]
        else []
  }

  /** The paths marked by the first n assets. */
  function Marked(assets: seq<Asset>, seen: set<string>, n: nat): set<string>
    requires n <= |assets|
  {
    seen + set j | 0 <= j < n && "@owasp_crs/" <= assets[j].path && assets[j].path != "@owasp_crs/_all.conf" ::
             assets[j].path
  }

  /** The first n assets have been walked, and all calls but perhaps the last were accepted. */
  ghost predicate Walked(l: Loader, st: Load, assets: seq<Asset>, n: nat, after: Load)
    requires n <= |assets|
  {
    && after.calls == st.calls + GlobCalls(assets, st.seen, n) && after.seen == Marked(assets, st.seen, n)
    && after.batch == st.batch && after.pending == st.pending
    && forall k :: |st.calls| < k < |after.calls| ==> l(after.calls[..k]).Accept?
  }

  ghost predicate AllAccepted(l: Loader, st: Load, after: Load) {
    after.error == st.error && (|after.calls| > |st.calls| ==> l(after.calls).Accept?)
  }

  ghost predicate LastRejected(l: Loader, st: Load, after: Load) {
    |after.calls| > |st.calls| && l(after.calls).Reject? && after.error == FromLoader(l(after.calls).message)
  }

  /** A load that walked the catalog: to its end, or to the first asset the loader rejects. */
  ghost predicate WalksGlob(l: Loader, st: Load, assets: seq<Asset>, after: Load) {
    || (Walked(l, st, assets, |assets|, after) && AllAccepted(l, st, after))
    || (exists n :: 0 < n <= |assets| && Walked(l, st, assets, n, after) && LastRejected(l, st, after)
         && |GlobCalls(assets, st.seen, n)| > |GlobCalls(assets, st.seen, n - 1)|)
  }

  lemma OwaspStep(assets: seq<Asset>, n: nat)
    requires n < |assets|
    ensures OwaspAssets(assets[n..]) ==
      (if "@owasp_crs/" <= assets[n].path then [assets[n]] else []) + OwaspAssets(assets[n + 1..])
  {
    assert assets[n..][1..] == assets[n + 1..];
  }

  /** An asset is picked exactly if the walk has not marked its path. */
  lemma PickedIfUnmarked(assets: seq<Asset>, seen: set<string>, n: nat)
    requires n < |assets| && "@owasp_crs/" <= assets[n].path && assets[n].path != "@owasp_crs/_all.conf"
    ensures IsPicked(assets, seen, n) <==> assets[n].path !in Marked(assets, seen, n)
    ensures Marked(assets, seen, n + 1) == Marked(assets, seen, n) + {assets[n].path}
  {
  }

  lemma UnpickedStep(l: Loader, st: Load, assets: seq<Asset>, n: nat, at: Load)
    requires n < |assets| && Walked(l, st, assets, n, at)
    requires "@owasp_crs/" <= assets[n].path && assets[n].path != "@owasp_crs/_all.conf" ==> assets[n].path in at.seen
    ensures Walked(l, st, assets, n + 1, at)
  {
    assert Marked(assets, st.seen, n + 1) == Marked(assets, st.seen, n);
    assert !IsPicked(assets, st.seen, n);
    assert GlobCalls(assets, st.seen, n + 1) == GlobCalls(assets, st.seen, n);
  }

  lemma EmptyStep(l: Loader, st: Load, assets: seq<Asset>, n: nat, at: Load)
    requires n < |assets| && Walked(l, st, assets, n, at)
    requires "@owasp_crs/" <= assets[n].path && assets[n].path != "@owasp_crs/_all.conf"
    requires assets[n].path !in at.seen && assets[n].data == ""
    ensures Walked(l, st, assets, n + 1, at.(seen := at.seen + {assets[n].path}))
  {
    PickedIfUnmarked(assets, st.seen, n);
    assert GlobCalls(assets, st.seen, n + 1) == GlobCalls(assets, st.seen, n);
  }

  lemma CallStep(l: Loader, st: Load, assets: seq<Asset>, n: nat, at: Load, after: Load)
    requires n < |assets| && Walked(l, st, assets, n, at) && AllAccepted(l, st, at)
    requires "@owasp_crs/" <= assets[n].path && assets[n].path != "@owasp_crs/_all.conf"
    requires assets[n].path !in at.seen && assets[n].data != ""
    requires after.calls == at.calls + [FromCatalog(assets[n].path, assets[n].data)]
    requires after.seen == at.seen + {assets[n].path} && after.batch == at.batch && after.pending == at.pending
    ensures Walked(l, st, assets, n + 1, after)
    ensures |GlobCalls(assets, st.seen, n + 1)| > |GlobCalls(assets, st.seen, n)|
  {
    PickedIfUnmarked(assets, st.seen, n);
    forall k | |st.calls| < k < |after.calls| ensures l(after.calls[..k]).Accept? {
      assert after.calls[..k] == at.calls[..k];
      assert k == |at.calls| ==> at.calls[..k] == at.calls;
    }
  }

  lemma {:induction false} GlobWalks(l: Loader, st: Load, assets: seq<Asset>, n: nat, at: Load)
    requires n <= |assets| && Walked(l, st, assets, n, at) && AllAccepted(l, st, at)
    ensures WalksGlob(l, st, assets, LoadEach(l, at, OwaspAssets(assets[n..])))
    decreases |assets| - n
  {
    hide Walked, GlobCalls, Marked, OwaspAssets;
    if n == |assets| {
      assert assets[n..] == [];
      NoOwasp();
    } else {
      OwaspStep(assets, n);
      var a, rest := assets[n], OwaspAssets(assets[n + 1..]);
      if !("@owasp_crs/" <= a.path) || a.path == "@owasp_crs/_all.conf" || a.path in at.seen {
        UnpickedStep(l, st, assets, n, at);
        GlobWalks(l, st, assets, n + 1, at);
        assert [] + rest == rest && ([a] + rest)[1..] == rest;
      } else {
        assert ([a] + rest)[1..] == rest;
        var (after, ok) := LoadAsset(l, at, a);
        if a.data == "" {
          EmptyStep(l, st, assets, n, at);
          GlobWalks(l, st, assets, n + 1, after);
        } else {
          CallStep(l, st, assets, n, at, after);
          if ok {
            GlobWalks(l, st, assets, n + 1, after);
          }
        }
      }
    }
  }

  lemma NoOwasp()
    ensures OwaspAssets([]) == []
  {
  }

  lemma {:induction false} OwaspNone(assets: seq<Asset>)
    ensures OwaspAssets(assets) == [] <==> forall i :: 0 <= i < |assets| ==> !("@owasp_crs/" <= assets[i].path)
  {
    if assets != [] {
      OwaspNone(assets[1..]);
      assert forall i :: 1 <= i < |assets| ==> assets[i] == assets[1..][i - 1];
    }
  }

  /**
   * The glob loads every asset of the rule set but its index, in the order of the catalog and each path once,
   * until the loader rejects one; it fails without such assets, and otherwise if an error text is set.
   */
  lemma GlobLoads(l: Loader, catalog: Catalog, st: Load)
    ensures var (after, ok) := ResolveIncludeLoad(l, catalog, st, "@owasp_crs/*.conf");
      if forall i :: 0 <= i < |catalog.assets| ==> !("@owasp_crs/" <= catalog.assets[i].path) then
        (after, ok) == (st.(error := NotInCatalog("@owasp_crs/*.conf")), false)
      else
        && WalksGlob(l, st, catalog.assets, after)
        && (ok <==> after.error == NoError || after.error == FromLoader(""))
  {
    hide Walked, GlobCalls, Marked, OwaspAssets, WalksGlob;
    OwaspNone(catalog.assets);
    assert catalog.assets[0..] == catalog.assets;
    NothingWalked(l, st, catalog.assets);
    GlobWalks(l, st, catalog.assets, 0, st);
  }

  lemma NothingWalked(l: Loader, st: Load, assets: seq<Asset>)
    ensures Walked(l, st, assets, 0, st)
  {
    assert st.calls + [] == st.calls;
  }

  // ---------------------------------------------------------------------------
  // An Include line
  // ---------------------------------------------------------------------------

  /** What an Include line finds pending is loaded first; then its target is resolved, white space apart. */
  lemma IncludeLine(l: Loader, catalog: Catalog, st: Load, x: Expansion, rest: string, target: string)
    requires Trim(rest) == target
    ensures var calm := st.(pending := false);
      var loaded := calm.(calls := st.calls + [Inline(st.batch)]);
      ApplyLine(l, catalog, st, "Include " + rest) ==
        if st.batch == [] then ResolveIncludeLoad(l, catalog, calm, target)
        else match l(loaded.calls)
          case Accept => ResolveIncludeLoad(l, catalog, loaded.(batch := []), target)
          case Reject(message) => (loaded.(error := FromLoader(message)), false)
    ensures ExpandLine(catalog, x, "Include " + rest) == ExpandInclude(catalog, x, target)
  {
    hide ResolveIncludeLoad, ExpandInclude, Trim;
    var line := "Include " + rest;
    assert line[0] == 'I' && line[8..] == rest;
  }
}
