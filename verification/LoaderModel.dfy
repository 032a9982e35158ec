/**
 * The directive loader as functions on values: how a list of SecLang lines becomes a sequence of
 * loader calls (`Apply`), the plain expansion it must agree with (`Expand`), and the stream of
 * items both stand for (`Items`).
 */
module LoaderModel {
  import opened Prelude
  import opened Text

  // ---------------------------------------------------------------------------
  // Lines
  // ---------------------------------------------------------------------------

  function NonEmpty(line: string): seq<string> {
    if line == "" then [] else [line]
  }

  /** Physical lines, trimmed, without the empty ones. */
  function SplitDirectiveLines(text: string): seq<string>
    decreases |text|
  {
    if text == "" then []
    else
      FindMeans(text, "\n", 0);
      match Find(text, "\n", 0)
      case None => NonEmpty(Trim(text))
      case Some(nl) => NonEmpty(Trim(text[..nl])) + SplitDirectiveLines(text[nl + 1..])
  }

  function Flatten(directives: seq<string>): seq<string> {
    if directives == [] then [] else SplitDirectiveLines(directives[0]) + Flatten(directives[1..])
  }

  predicate IsPhraseFile(line: string) {
    Contains(line, "@pmFromFile") || Contains(line, "@ipMatchFromFile")
  }

  predicate RequestsChain(line: string) {
    || Contains(line, ",chain\"") || Contains(line, ",chain,") || Contains(line, "\"chain\"")
    || Contains(line, ",chain\n")
    || (|line| >= 6 && line[|line| - 6..] == ",chain")
  }

  const INCLUDE := "Include "

  predicate IsSkipped(line: string) { line == "" || StartsWith(line, "#") }

  predicate IsInclude(line: string) { StartsWith(line, INCLUDE) }

  predicate IsRule(line: string) { !IsSkipped(line) && !IsInclude(line) }

  function IncludeTarget(line: string): string
    requires IsInclude(line)
  {
    Trim(line[|INCLUDE|..])
  }

  function JoinLines(lines: seq<string>): string {
    if lines == [] then "" else lines[0] + "\n" + JoinLines(lines[1..])
  }

  // ---------------------------------------------------------------------------
  // Catalog
  // ---------------------------------------------------------------------------

  datatype Asset = Asset(path: string, data: string)

  /** `builtinDefaults` is the in-source text behind @kubewaf-defaults, used when no asset overrides it. */
  datatype Catalog = Catalog(assets: seq<Asset>, builtinDefaults: string)

  function LookupIn(assets: seq<Asset>, path: string): Option<Asset> {
    if assets == [] then None
    else if assets[0].path == path then Some(assets[0])
    else LookupIn(assets[1..], path)
  }

  function Lookup(catalog: Catalog, path: string): Option<Asset> {
    LookupIn(catalog.assets, path)
  }

  const OWASP := "@owasp_crs/"
  const OWASP_ALL := "@owasp_crs/_all.conf"
  const OWASP_GLOB := "@owasp_crs/*.conf"
  const DEFAULTS := "@kubewaf-defaults"

  function OwaspAssets(assets: seq<Asset>): seq<Asset> {
    if assets == [] then []
    else (if StartsWith(assets[0].path, OWASP) then [assets[0]] else []) + OwaspAssets(assets[1..])
  }

  /** The error text a failed load reports; the loader's own messages are passed on. */
  datatype Error =
    | NoError
    | UnknownInclude(target: string)
    | NotInCatalog(target: string)
    | UnsupportedInclude(target: string)
    | FromLoader(message: string)
  {
    predicate IsEmpty() { NoError? || this == FromLoader("") }
  }

  // ---------------------------------------------------------------------------
  // Loader calls
  // ---------------------------------------------------------------------------

  /** One call of the rule loader: a batch of inline lines, or a catalog asset. */
  datatype Chunk = Inline(lines: seq<string>) | FromCatalog(path: string, data: string) {
    function Text(): string {
      match this case Inline(lines) => JoinLines(lines) case FromCatalog(_, data) => data
    }
  }

  datatype Verdict = Accept | Reject(message: string)

  /** Any loader: its verdict on the latest call may depend on all calls so far. */
  type Loader = seq<Chunk> -> Verdict

  datatype Load = Load(
    calls: seq<Chunk>,
    seen: set<string>,
    error: Error,
    batch: seq<string>,
    pending: bool)

  const START := Load([], {}, NoError, [], false)

  /** A state and whether the operation that produced it succeeded. */
  type Outcome = (Load, bool)

  function LoadChunk(l: Loader, st: Load, chunk: Chunk): Outcome {
    if chunk.Text() == "" then (st, true)
    else
      var called := st.(calls := st.calls + [chunk]);
      match l(called.calls)
      case Accept => (called, true)
      case Reject(message) => (called.(error := FromLoader(message)), false)
  }

  function LoadAsset(l: Loader, st: Load, asset: Asset): Outcome {
    if asset.path in st.seen then (st, true)
    else LoadChunk(l, st.(seen := st.seen + {asset.path}), FromCatalog(asset.path, asset.data))
  }

  /** The catalog walk stops at the first asset whose load fails. */
  function LoadEach(l: Loader, st: Load, assets: seq<Asset>): Load
    decreases |assets|
  {
    if assets == [] then st
    else if assets[0].path == OWASP_ALL then LoadEach(l, st, assets[1..])
    else
      var (st1, ok) := LoadAsset(l, st, assets[0]);
      if ok then LoadEach(l, st1, assets[1..]) else st1
  }

  function DefaultsAsset(catalog: Catalog): Asset {
    match Lookup(catalog, DEFAULTS)
    case Some(asset) => asset
    case None => Asset(DEFAULTS, catalog.builtinDefaults)
  }

  datatype Target = Defaults | Named(asset: Asset) | Glob(assets: seq<Asset>) | Missing(error: Error)

  /** Which virtual includes exist. */
  function ResolveTarget(catalog: Catalog, target: string): Target {
    if target == DEFAULTS then Defaults
    else if target == "@demo-conf" || target == "@ftw-conf" then
      match Lookup(catalog, target)
      case None => Missing(UnknownInclude(target))
      case Some(asset) => Named(asset)
    else if target == "@crs-setup-conf" then
      match Lookup(catalog, target)
      case None => Missing(NotInCatalog(target))
      case Some(asset) => Named(asset)
    else if target == OWASP_GLOB then
      if OwaspAssets(catalog.assets) == [] then Missing(NotInCatalog(target))
      else Glob(OwaspAssets(catalog.assets))
    else if StartsWith(target, OWASP) then
      match Lookup(catalog, target)
      case None => Missing(NotInCatalog(target))
      case Some(asset) => Named(asset)
    else Missing(UnsupportedInclude(target))
  }

  function ResolveIncludeLoad(l: Loader, catalog: Catalog, st: Load, target: string): Outcome {
    match ResolveTarget(catalog, target)
    case Missing(error) => (st.(error := error), false)
    case Named(asset) => LoadAsset(l, st, asset)
    case Glob(assets) =>
      var after := LoadEach(l, st, assets);
      (after, after.error.IsEmpty())
    case Defaults =>
      if DEFAULTS in st.seen then (st, true)
      else
        var asset := DefaultsAsset(catalog);
        LoadChunk(l, st.(seen := st.seen + {DEFAULTS}), FromCatalog(asset.path, asset.data))
  }

  // ---------------------------------------------------------------------------
  // The chunker
  // ---------------------------------------------------------------------------

  const MAX_CHUNK := 4096

  function FlushInline(l: Loader, st: Load): Outcome {
    if st.batch == [] then (st, true)
    else
      var (st1, ok) := LoadChunk(l, st, Inline(st.batch));
      if ok then (st1.(batch := []), true) else (st1, false)
  }

  function Size(lines: seq<string>): nat { |JoinLines(lines)| }

  function Add(st: Load, line: string): Load {
    st.(batch := st.batch + [line], pending := RequestsChain(line))
  }

  /** Add a line to the batch, and load the batch when `full` says so. */
  function AddThen(l: Loader, st: Load, line: string, full: bool): Outcome {
    if full then FlushInline(l, Add(st, line)) else (Add(st, line), true)
  }

  function ApplyPhraseFile(l: Loader, st: Load, line: string): Outcome {
    var (st1, ok) := if st.pending then (st, true) else FlushInline(l, st);
    if !ok then (st1, false) else AddThen(l, st1, line, !RequestsChain(line))
  }

  /** Must what is batched be loaded before this line may join? */
  predicate FlushBefore(st: Load, line: string) {
    !st.pending && (RequestsChain(line) || (st.batch != [] && Size(st.batch) + |line| + 1 > MAX_CHUNK))
  }

  function ApplyRule(l: Loader, st: Load, line: string): Outcome {
    var (st1, ok) := if FlushBefore(st, line) then FlushInline(l, st) else (st, true);
    if !ok then (st1, false)
    else
      var completesChain := st.pending && !RequestsChain(line);
      var oversize := !RequestsChain(line) && Size(st1.batch + [line]) >= MAX_CHUNK;
      AddThen(l, st1, line, completesChain || oversize)
  }

  function ApplyInclude(l: Loader, catalog: Catalog, st: Load, line: string): Outcome
    requires IsInclude(line)
  {
    var (st1, ok) := FlushInline(l, st.(pending := false));
    if !ok then (st1, false) else ResolveIncludeLoad(l, catalog, st1, IncludeTarget(line))
  }

  function ApplyLine(l: Loader, catalog: Catalog, st: Load, line: string): Outcome {
    if IsSkipped(line) then (st, true)
    else if IsInclude(line) then ApplyInclude(l, catalog, st, line)
    else if IsPhraseFile(line) then ApplyPhraseFile(l, st, line)
    else ApplyRule(l, st, line)
  }

  function ApplyLines(l: Loader, catalog: Catalog, st: Load, lines: seq<string>): Outcome
    decreases |lines|
  {
    if lines == [] then (st, true)
    else
      var (st1, ok) := ApplyLine(l, catalog, st, Trim(lines[0]));
      if ok then ApplyLines(l, catalog, st1, lines[1..]) else (st1, false)
  }

  function Apply(l: Loader, catalog: Catalog, directives: seq<string>): Outcome {
    var (st, ok) := ApplyLines(l, catalog, START, Flatten(directives));
    if ok then FlushInline(l, st) else (st, false)
  }

  // ---------------------------------------------------------------------------
  // The plain expansion
  // ---------------------------------------------------------------------------

  datatype Expansion = Expansion(text: string, seen: set<string>, error: Error)

  const EMPTY := Expansion("", {}, NoError)

  function AppendAsset(x: Expansion, asset: Asset): Expansion {
    if asset.path in x.seen then x
    else x.(text := x.text + asset.data + "\n", seen := x.seen + {asset.path})
  }

  predicate EndsLine(text: string) { text != "" && text[|text| - 1] == '\n' }

  function EndLine(text: string): string {
    if EndsLine(text) then text else text + "\n"
  }

  function AppendEach(x: Expansion, assets: seq<Asset>): Expansion
    decreases |assets|
  {
    if assets == [] then x
    else AppendEach(if assets[0].path == OWASP_ALL then x else AppendAsset(x, assets[0]), assets[1..])
  }

  function ExpandInclude(catalog: Catalog, x: Expansion, target: string): (Expansion, bool) {
    match ResolveTarget(catalog, target)
    case Missing(error) => (x.(error := error), false)
    case Named(asset) => (AppendAsset(x, asset), true)
    case Glob(assets) => (AppendEach(x, assets), x.error.IsEmpty())
    case Defaults =>
      if DEFAULTS in x.seen then (x, true)
      else match Lookup(catalog, DEFAULTS)
        case Some(asset) => (AppendAsset(x, asset), true)
        case None =>
          (x.(text := EndLine(x.text + catalog.builtinDefaults), seen := x.seen + {DEFAULTS}), true)
  }

  function ExpandLine(catalog: Catalog, x: Expansion, line: string): (Expansion, bool) {
    if IsSkipped(line) then (x, true)
    else if IsInclude(line) then ExpandInclude(catalog, x, IncludeTarget(line))
    else (x.(text := x.text + line + "\n"), true)
  }

  function ExpandLines(catalog: Catalog, x: Expansion, directives: seq<string>): (Expansion, bool)
    decreases |directives|
  {
    if directives == [] then (x, true)
    else
      var (x1, ok) := ExpandLine(catalog, x, Trim(directives[0]));
      if ok then ExpandLines(catalog, x1, directives[1..]) else (x1, false)
  }

  /** The expanded text; an empty one counts as a failure. */
  function Expand(catalog: Catalog, directives: seq<string>): (Expansion, bool) {
    var (x, ok) := ExpandLines(catalog, EMPTY, directives);
    (x, ok && x.text != "")
  }

  // ---------------------------------------------------------------------------
  // What both of them stand for
  // ---------------------------------------------------------------------------

  datatype Item = Rule(line: string) | Content(asset: Asset, endsLine: bool)

  /** Items that a walk over some assets contributes, each asset once. */
  function AssetItems(seen: set<string>, assets: seq<Asset>): (seq<Item>, set<string>)
    decreases |assets|
  {
    if assets == [] then ([], seen)
    else if assets[0].path == OWASP_ALL || assets[0].path in seen then AssetItems(seen, assets[1..])
    else
      var (rest, after) := AssetItems(seen + {assets[0].path}, assets[1..]);
      ([Content(assets[0], false)] + rest, after)
  }

  function TargetItems(catalog: Catalog, seen: set<string>, t: Target): (seq<Item>, set<string>)
    requires !t.Missing?
  {
    match t
    case Named(asset) => if asset.path in seen then ([], seen) else ([Content(asset, false)], seen + {asset.path})
    case Glob(assets) => AssetItems(seen, assets)
    case Defaults =>
      if DEFAULTS in seen then ([], seen)
      else ([Content(DefaultsAsset(catalog), Lookup(catalog, DEFAULTS).None? && EndsLine(catalog.builtinDefaults))],
            seen + {DEFAULTS})
  }

  /** What one trimmed line contributes, or the error it ends the list with. */
  datatype Meaning = Meaning(items: seq<Item>, seen: set<string>, error: Option<Error>)

  function LineItems(catalog: Catalog, seen: set<string>, line: string): Meaning {
    if IsSkipped(line) then Meaning([], seen, None)
    else if IsInclude(line) then
      var t := ResolveTarget(catalog, IncludeTarget(line));
      if t.Missing? then Meaning([], seen, Some(t.error))
      else
        var (items, seen') := TargetItems(catalog, seen, t);
        Meaning(items, seen', None)
    else Meaning([Rule(line)], seen, None)
  }

  /** The items of a list of directives, and the error that ends them early, if any. */
  function Items(catalog: Catalog, seen: set<string>, lines: seq<string>): (seq<Item>, Option<Error>)
    decreases |lines|
  {
    if lines == [] then ([], None)
    else
      var m := LineItems(catalog, seen, Trim(lines[0]));
      if m.error.Some? then ([], m.error)
      else
        var (rest, error) := Items(catalog, m.seen, lines[1..]);
        (m.items + rest, error)
  }

  /** What the engine is given for an item. */
  function LoadedText(item: Item): string {
    match item case Rule(line) => line + "\n" case Content(asset, _) => asset.data
  }

  /** What the expansion writes for an item: the same, with a newline after a catalog asset. */
  function ExpandedText(item: Item): string {
    match item
    case Rule(line) => line + "\n"
    case Content(asset, endsLine) => asset.data + (if endsLine then "" else "\n")
  }

  function Loaded(items: seq<Item>): string {
    if items == [] then "" else LoadedText(items[0]) + Loaded(items[1..])
  }

  function Expanded(items: seq<Item>): string {
    if items == [] then "" else ExpandedText(items[0]) + Expanded(items[1..])
  }
}
