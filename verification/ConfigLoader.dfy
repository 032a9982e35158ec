/**
 * The configuration loader as it runs: an inline batch that grows line by line, a pending-chain
 * flag, the set of assets seen, and the loops over directives, lines and catalog. Each method is
 * proved against the function of LoaderModel it implements.
 */
module ConfigLoaders {
  import opened Prelude
  import opened Text
  import opened LoaderModel
  import LoaderShapes

  method SplitLines(text: string) returns (lines: seq<string>)
    ensures lines == SplitDirectiveLines(text)
  {
    hide Trim, SplitDirectiveLines, NonEmpty, Find;
    lines := [];
    var i := 0;
    SplitStarts(text);
    while i < |text|
      invariant i <= |text|
      invariant lines + SplitDirectiveLines(text[i..]) == SplitDirectiveLines(text)
    {
      var rest := text[i..];
      FindMeans(rest, "\n", 0);
      var nl := Find(rest, "\n", 0);
      if nl.None? {
        var line := TrimText(rest);
        SplitWithout(lines, rest);
        return lines + NonEmpty(line);
      }
      var line := TrimText(rest[..nl.value]);
      SplitWith(lines, rest, nl.value);
      DropTwice(text, i, nl.value + 1);
      lines := lines + NonEmpty(line);
      i := i + nl.value + 1;
    }
    SplitEnds(lines, text);
  }

  lemma SplitStarts(text: string)
    ensures [] + SplitDirectiveLines(text[0..]) == SplitDirectiveLines(text)
  {
    hide SplitDirectiveLines;
    assert text[0..] == text;
  }

  lemma SplitEnds(lines: seq<string>, text: string)
    ensures lines + SplitDirectiveLines(text[|text|..]) == lines
  {
  }

  lemma DropTwice(text: string, i: nat, k: nat)
    requires i + k <= |text|
    ensures text[i..][k..] == text[i + k..]
  {
  }

  lemma SplitWithout(lines: seq<string>, rest: string)
    requires rest != "" && Find(rest, "\n", 0).None?
    ensures lines + SplitDirectiveLines(rest) == lines + NonEmpty(Trim(rest))
  {
  }

  lemma SplitWith(lines: seq<string>, rest: string, nl: nat)
    requires nl < |rest| && Find(rest, "\n", 0) == Some(nl)
    ensures lines + SplitDirectiveLines(rest) ==
      lines + NonEmpty(Trim(rest[..nl])) + SplitDirectiveLines(rest[nl + 1..])
  {
  }

  class ConfigLoader {
    const loader: Loader
    const catalog: Catalog

    // Every call made of the loader, in order.
    var calls: seq<Chunk>
    var seen: set<string>
    var error: Error
    // The batch, and the lines it was made of.
    var inlineBatch: string
    var batchLines: seq<string>
    var pendingChain: bool

    ghost predicate Valid()
      reads this
    {
      inlineBatch == JoinLines(batchLines)
    }

    ghost function State(): Load
      reads this
    {
      Load(calls, seen, error, batchLines, pendingChain)
    }

    constructor (loader: Loader, catalog: Catalog)
      ensures Valid() && State() == START
      ensures this.loader == loader && this.catalog == catalog
    {
      this.loader, this.catalog := loader, catalog;
      calls, seen, error := [], {}, NoError;
      inlineBatch, batchLines, pendingChain := "", [], false;
    }

    method CallLoader(chunk: Chunk) returns (ok: bool)
      requires Valid()
      modifies this`calls, this`error
      ensures Valid() && (State(), ok) == LoadChunk(loader, old(State()), chunk)
    {
      if chunk.Text() == "" {
        return true;
      }
      calls := calls + [chunk];
      var verdict := loader(calls);
      if verdict.Reject? {
        error := FromLoader(verdict.message);
      }
      return verdict.Accept?;
    }

    method LoadOneAsset(asset: Asset) returns (ok: bool)
      requires Valid()
      modifies this`calls, this`error, this`seen
      ensures Valid() && (State(), ok) == LoadAsset(loader, old(State()), asset)
    {
      if asset.path in seen {
        return true;
      }
      seen := seen + {asset.path};
      ok := CallLoader(FromCatalog(asset.path, asset.data));
    }

    /** The catalog walk behind the OWASP glob. */
    method LoadOwaspAssets(assets: seq<Asset>)
      requires Valid()
      modifies this`calls, this`error, this`seen
      ensures Valid() && State() == LoadEach(loader, old(State()), assets)
    {
      var i := 0;
      while i < |assets|
        invariant i <= |assets| && Valid()
        invariant LoadEach(loader, old(State()), assets) == LoadEach(loader, State(), assets[i..])
      {
        assert assets[i..][1..] == assets[i + 1..];
        if assets[i].path != OWASP_ALL {
          var ok := LoadOneAsset(assets[i]);
          if !ok {
            return;
          }
        }
        i := i + 1;
      }
    }

    method ResolveInclude(target: string) returns (ok: bool)
      requires Valid()
      modifies this`calls, this`error, this`seen
      ensures Valid() && (State(), ok) == ResolveIncludeLoad(loader, catalog, old(State()), target)
    {
      match ResolveTarget(catalog, target)
      case Missing(e) =>
        error := e;
        ok := false;
      case Named(asset) =>
        ok := LoadOneAsset(asset);
      case Glob(assets) =>
        LoadOwaspAssets(assets);
        ok := error.IsEmpty();
      case Defaults =>
        if DEFAULTS in seen {
          return true;
        }
        seen := seen + {DEFAULTS};
        var asset := DefaultsAsset(catalog);
        ok := CallLoader(FromCatalog(asset.path, asset.data));
    }

    method Flush() returns (ok: bool)
      requires Valid()
      modifies this`calls, this`error, this`inlineBatch, this`batchLines
      ensures Valid() && (State(), ok) == FlushInline(loader, old(State()))
    {
      if inlineBatch == "" {
        return true;
      }
      ok := CallLoader(Inline(batchLines));
      if ok {
        inlineBatch, batchLines := "", [];
      }
    }

    method Append(line: string)
      requires Valid()
      modifies this`inlineBatch, this`batchLines, this`pendingChain
      ensures Valid() && State() == Add(old(State()), line)
    {
      LoaderShapes.SizeOfOneMore(batchLines, line);
      inlineBatch := inlineBatch + line + "\n";
      batchLines := batchLines + [line];
      pendingChain := RequestsChain(line);
    }

    method ApplyPhraseFileRule(line: string) returns (ok: bool)
      requires Valid()
      modifies this
      ensures Valid() && (State(), ok) == ApplyPhraseFile(loader, old(State()), line)
    {
      if !pendingChain {
        ok := Flush();
        if !ok {
          return;
        }
      }
      Append(line);
      ok := true;
      if !pendingChain {
        ok := Flush();
      }
    }

    method ApplyPlainRule(line: string) returns (ok: bool)
      requires Valid()
      modifies this
      ensures Valid() && (State(), ok) == ApplyRule(loader, old(State()), line)
    {
      var isChainParent := !pendingChain && RequestsChain(line);
      var doesNotFit := inlineBatch != "" && !pendingChain && |inlineBatch| + |line| + 1 > MAX_CHUNK;
      if isChainParent || doesNotFit {
        ok := Flush();
        if !ok {
          return;
        }
      }
      var wasPending := pendingChain || isChainParent;
      Append(line);
      ok := true;
      if wasPending && !pendingChain {
        ok := Flush();
      } else if !pendingChain && |inlineBatch| >= MAX_CHUNK {
        ok := Flush();
      }
    }

    method ApplyOneLine(line: string) returns (ok: bool)
      requires Valid()
      modifies this
      ensures Valid() && (State(), ok) == ApplyLine(loader, catalog, old(State()), line)
    {
      if line == "" || StartsWith(line, "#") {
        return true;
      }
      if StartsWith(line, INCLUDE) {
        pendingChain := false;
        ok := Flush();
        if ok {
          var target := TrimText(line[|INCLUDE|..]);
          ok := ResolveInclude(target);
        }
      } else if IsPhraseFile(line) {
        ok := ApplyPhraseFileRule(line);
      } else {
        ok := ApplyPlainRule(line);
      }
    }

    method ApplyAllLines(lines: seq<string>) returns (ok: bool)
      requires Valid()
      modifies this
      ensures Valid() && (State(), ok) == ApplyLines(loader, catalog, old(State()), lines)
    {
      var i := 0;
      while i < |lines|
        invariant i <= |lines| && Valid()
        invariant ApplyLines(loader, catalog, old(State()), lines) == ApplyLines(loader, catalog, State(), lines[i..])
      {
        assert lines[i..][1..] == lines[i + 1..];
        var line := TrimText(lines[i]);
        ok := ApplyOneLine(line);
        if !ok {
          return;
        }
        i := i + 1;
      }
      ok := true;
    }
  }

  method FlattenDirectives(directives: seq<string>) returns (lines: seq<string>)
    ensures lines == Flatten(directives)
  {
    lines := [];
    for i := 0 to |directives|
      invariant lines + Flatten(directives[i..]) == Flatten(directives)
    {
      var parts := SplitLines(directives[i]);
      FlattenStep(lines, directives, i);
      lines := lines + parts;
    }
  }

  lemma FlattenStep(lines: seq<string>, directives: seq<string>, i: nat)
    requires i < |directives|
    ensures lines + Flatten(directives[i..]) ==
      lines + SplitDirectiveLines(directives[i]) + Flatten(directives[i + 1..])
  {
    assert directives[i..][1..] == directives[i + 1..];
  }

  /** Load a list of directives through the chunked loader. */
  method ApplyDirectives(loader: Loader, catalog: Catalog, directives: seq<string>)
    returns (ok: bool, calls: seq<Chunk>, error: Error)
    ensures var (load, loaded) := Apply(loader, catalog, directives);
      ok == loaded && calls == load.calls && error == load.error
  {
    var lines := FlattenDirectives(directives);
    var c := new ConfigLoader(loader, catalog);
    ok := c.ApplyAllLines(lines);
    if ok {
      ok := c.Flush();
    }
    calls, error := c.calls, c.error;
  }

  // ---------------------------------------------------------------------------
  // The plain expansion
  // ---------------------------------------------------------------------------

  class Expander {
    const catalog: Catalog
    var text: string
    var seen: set<string>
    var error: Error

    ghost function State(): Expansion
      reads this
    {
      Expansion(text, seen, error)
    }

    constructor (catalog: Catalog)
      ensures State() == EMPTY && this.catalog == catalog
    {
      this.catalog := catalog;
      text, seen, error := "", {}, NoError;
    }

    method AppendOne(asset: Asset)
      modifies this
      ensures State() == AppendAsset(old(State()), asset)
    {
      if asset.path !in seen {
        seen := seen + {asset.path};
        text := text + asset.data + "\n";
      }
    }

    method AppendOwaspAssets(assets: seq<Asset>)
      modifies this
      ensures State() == AppendEach(old(State()), assets)
    {
      for i := 0 to |assets|
        invariant AppendEach(old(State()), assets) == AppendEach(State(), assets[i..])
      {
        assert assets[i..][1..] == assets[i + 1..];
        if assets[i].path != OWASP_ALL {
          AppendOne(assets[i]);
        }
      }
    }

    method ResolveInclude(target: string) returns (ok: bool)
      modifies this
      ensures (State(), ok) == ExpandInclude(catalog, old(State()), target)
    {
      match ResolveTarget(catalog, target)
      case Missing(e) =>
        error := e;
        ok := false;
      case Named(asset) =>
        AppendOne(asset);
        ok := true;
      case Glob(assets) =>
        ghost var before := State();
        AppendOwaspAssets(assets);
        AppendKeepsError(before, assets);
        ok := error.IsEmpty();
      case Defaults =>
        ok := true;
        if DEFAULTS !in seen {
          var asset := Lookup(catalog, DEFAULTS);
          if asset.Some? {
            AppendOne(asset.value);
          } else {
            seen := seen + {DEFAULTS};
            text := EndLine(text + catalog.builtinDefaults);
          }
        }
    }

    method ExpandAll(directives: seq<string>) returns (ok: bool)
      modifies this
      ensures (State(), ok) == ExpandLines(catalog, old(State()), directives)
    {
      var i := 0;
      while i < |directives|
        invariant i <= |directives|
        invariant ExpandLines(catalog, old(State()), directives) == ExpandLines(catalog, State(), directives[i..])
      {
        assert directives[i..][1..] == directives[i + 1..];
        var line := TrimText(directives[i]);
        if line == "" || StartsWith(line, "#") {
        } else if StartsWith(line, INCLUDE) {
          var target := TrimText(line[|INCLUDE|..]);
          ok := ResolveInclude(target);
          if !ok {
            return;
          }
        } else {
          text := text + line + "\n";
        }
        i := i + 1;
      }
      ok := true;
    }
  }

  lemma {:induction false} AppendKeepsError(x: Expansion, assets: seq<Asset>)
    ensures AppendEach(x, assets).error == x.error
    decreases |assets|
  {
    if assets != [] {
      AppendKeepsError(if assets[0].path == OWASP_ALL then x else AppendAsset(x, assets[0]), assets[1..]);
    }
  }

  method ExpandDirectives(catalog: Catalog, directives: seq<string>) returns (ok: bool, text: string, error: Error)
    ensures var (x, expanded) := Expand(catalog, directives); ok == expanded && text == x.text && error == x.error
  {
    var x := new Expander(catalog);
    ok := x.ExpandAll(directives);
    ok := ok && x.text != "";
    text, error := x.text, x.error;
  }
}
