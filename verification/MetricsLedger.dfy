/**
 * What the counters add up to: each operation counts its own series once, and both prefixes show the
 * same numbers wherever the host treats them alike.
 */
module MetricsLedger {
  import opened Prelude
  import opened Text
  import opened MetricsModel
  import opened MetricsNames
  import opened MetricsCaps

  ghost predicate Grants(h: Host) {
    forall calls :: h(calls)
  }

  /** The host's answer depends on the name alone. */
  ghost predicate ByName(h: Host, g: string -> bool) {
    forall calls, name :: h(calls + [Define(name)]) == g(name)
  }

  function Always(): string -> bool { n => true }

  lemma GrantsByName(h: Host)
    requires Grants(h)
    ensures ByName(h, Always())
  {
  }

  /** Only what the host grants is ever defined. */
  ghost predicate Honest(g: string -> bool, defined: set<string>) {
    forall n :: n in defined ==> g(n)
  }

  /** How often counters with such names were incremented. */
  function Tally(calls: seq<HostCall>, q: string -> bool): nat {
    if calls == [] then 0
    else
      var last := calls[|calls| - 1];
      Tally(calls[..|calls| - 1], q) + Bit(last.Incremented? && q(last.name))
  }

  function Exactly(name: string): string -> bool { n => n == name }
  function Beginning(p: string): string -> bool { n => StartsWith(n, p) }

  lemma TallyOneMore(calls: seq<HostCall>, c: HostCall, q: string -> bool)
    ensures Tally(calls + [c], q) == Tally(calls, q) + Bit(c.Incremented? && q(c.name))
  {
    assert (calls + [c])[..|calls|] == calls;
  }

  /** A counter or a gauge is defined and used exactly when the host grants its name. */
  lemma Counted(h: Host, g: string -> bool, r: Registry, name: string, q: string -> bool)
    requires ByName(h, g) && Honest(g, r.defined)
    ensures var i := Increment(h, r, name);
      && Tally(i.calls, q) == Tally(r.calls, q) + Bit(r.options.enabled && g(name) && q(name))
      && i.defined == r.defined + (if r.options.enabled && g(name) then {name} else {})
      && Honest(g, i.defined)
      && SameSettings(i, r) && i.distinctRules == r.distinctRules && i.distinctTags == r.distinctTags
    ensures var s := SetGauge(h, r, name);
      && Tally(s.calls, q) == Tally(r.calls, q)
      && s.defined == r.defined + (if r.options.enabled && g(name) then {name} else {})
      && Honest(g, s.defined)
      && SameSettings(s, r) && s.distinctRules == r.distinctRules && s.distinctTags == r.distinctTags
  {
    hide Tally;
    var asked := r.calls + [Define(name)];
    TallyOneMore(r.calls, Define(name), q);
    TallyOneMore(r.calls, Incremented(name), q);
    TallyOneMore(asked, Incremented(name), q);
    TallyOneMore(r.calls, GaugeSet(name), q);
    TallyOneMore(asked, GaugeSet(name), q);
    assert h(asked) == g(name);
  }

  lemma Granted(h: Host, r: Registry, name: string, q: string -> bool)
    requires Grants(h)
    ensures var i := Increment(h, r, name);
      && Tally(i.calls, q) == Tally(r.calls, q) + Bit(r.options.enabled && q(name)) && SameSettings(i, r)
    ensures var s := SetGauge(h, r, name); Tally(s.calls, q) == Tally(r.calls, q) && SameSettings(s, r)
  {
    hide Tally, Increment, SetGauge;
    GrantsByName(h);
    Counted(h, Always(), r, name, q);
  }

  // ---------------------------------------------------------------------------
  // Both prefixes show the same numbers
  // ---------------------------------------------------------------------------

  /** The host treats the two names of a pair alike. */
  predicate Alike(g: string -> bool, rest: string) { g(Legacy() + rest) == g(Product() + rest) }

  ghost predicate PairedName(g: string -> bool, defined: set<string>, rest: string) {
    Alike(g, rest) ==> (Legacy() + rest in defined <==> Product() + rest in defined)
  }

  ghost predicate PairedNames(g: string -> bool, defined: set<string>) {
    forall rest :: PairedName(g, defined, rest)
  }

  /** Twins that are treated alike are defined together, and slots are always taken in pairs. */
  ghost predicate Paired(g: string -> bool, r: Registry) {
    && PairedNames(g, r.defined) && Honest(g, r.defined)
    && r.distinctRules % 2 == 0 && r.distinctTags % 2 == 0
  }

  /** Two counters of one name under the two prefixes show the same number. */
  ghost predicate SameTally(calls: seq<HostCall>, rest: string) {
    Tally(calls, Exactly(Legacy() + rest)) == Tally(calls, Exactly(Product() + rest))
  }

  ghost predicate Even(r: Registry, rest: string) { SameTally(r.calls, rest) }

  ghost predicate Twins(g: string -> bool, r: Registry, x: string) {
    Paired(g, r) && Even(r, x)
  }

  lemma NameOf(a: string, b: string)
    ensures Legacy() + a == Legacy() + b <==> a == b
    ensures Product() + a == Product() + b <==> a == b
    ensures Legacy() + a != Product() + b
  {
    PrefixesDiffer(a, b);
    SameAfter(Legacy(), a, b);
    SameAfter(Product(), a, b);
  }

  lemma SameAfter(p: string, a: string, b: string)
    ensures p + a == p + b <==> a == b
  {
    assert a == (p + a)[|p|..] && b == (p + b)[|p|..];
  }

  /** What a pair adds to the defined names. */
  function GrantedPair(g: string -> bool, rest: string): set<string> {
    (if g(Legacy() + rest) then {Legacy() + rest} else {}) + (if g(Product() + rest) then {Product() + rest} else {})
  }

  lemma BothDefined(g: string -> bool, defined: set<string>, rest: string)
    requires PairedNames(g, defined)
    ensures PairedNames(g, defined + GrantedPair(g, rest))
  {
    hide Legacy, Product;
    forall x ensures PairedName(g, defined + GrantedPair(g, rest), x) {
      assert PairedName(g, defined, x);
      NameOf(x, rest);
      NameOf(rest, x);
    }
  }

  /** Incrementing a name under both prefixes. */
  lemma BothIncremented(h: Host, g: string -> bool, r: Registry, rest: string, x: string)
    requires ByName(h, g) && Twins(g, r, x) && (x == rest ==> Alike(g, rest))
    ensures var s := Increment(h, Increment(h, r, Legacy() + rest), Product() + rest);
      Twins(g, s, x) && SameSettings(s, r)
  {
    hide Increment, Tally, Legacy, Product, PairedNames, Honest, ByName;
    var first := Increment(h, r, Legacy() + rest);
    NameOf(x, rest);
    NameOf(rest, x);
    BothDefined(g, r.defined, rest);
    Counted(h, g, r, Legacy() + rest, Exactly(Legacy() + x));
    Counted(h, g, r, Legacy() + rest, Exactly(Product() + x));
    Counted(h, g, first, Product() + rest, Exactly(Legacy() + x));
    Counted(h, g, first, Product() + rest, Exactly(Product() + x));
    AddedInTurn(g, r.defined, rest);
  }

  lemma AddedInTurn(g: string -> bool, defined: set<string>, rest: string)
    ensures defined + (if g(Legacy() + rest) then {Legacy() + rest} else {})
      + (if g(Product() + rest) then {Product() + rest} else {}) == defined + GrantedPair(g, rest)
    ensures defined + {} == defined
  {
    hide Legacy, Product;
  }

  lemma BothGauges(h: Host, g: string -> bool, r: Registry, rest: string, x: string)
    requires ByName(h, g) && Twins(g, r, x)
    ensures var s := SetGauge(h, SetGauge(h, r, Legacy() + rest), Product() + rest);
      Twins(g, s, x) && SameSettings(s, r)
  {
    hide SetGauge, Tally, Legacy, Product, PairedNames, Honest, ByName;
    var first := SetGauge(h, r, Legacy() + rest);
    BothDefined(g, r.defined, rest);
    Counted(h, g, r, Legacy() + rest, Exactly(Legacy() + x));
    Counted(h, g, r, Legacy() + rest, Exactly(Product() + x));
    Counted(h, g, first, Product() + rest, Exactly(Legacy() + x));
    Counted(h, g, first, Product() + rest, Exactly(Product() + x));
    AddedInTurn(g, r.defined, rest);
  }

  lemma CoreTwins(h: Host, g: string -> bool, r: Registry, core: string, x: string)
    requires ByName(h, g) && Twins(g, r, x) && r.options.dualPrefix && Alike(g, core + r.suffix)
    ensures var s := IncrementCore(h, r, core); Twins(g, s, x) && SameSettings(s, r)
  {
    hide Increment, Twins, Legacy, Product, Alike;
    BothIncremented(h, g, r, core + r.suffix, x);
    DefinesAtMost(h, r, Legacy() + (core + r.suffix));
  }

  lemma MemoryTwins(h: Host, g: string -> bool, r: Registry, x: string)
    requires ByName(h, g) && Twins(g, r, x) && r.options.dualPrefix
    ensures var s := RecordMemory(h, r); Twins(g, s, x) && SameSettings(s, r)
  {
    hide SetGauge, Twins, Legacy, Product, HeapCore;
    BothGauges(h, g, r, HeapCore() + r.suffix, x);
    DefinesAtMost(h, r, Legacy() + (HeapCore() + r.suffix));
  }

  /** Both twins get a slot or neither does: slots are taken in pairs and the caps are even. */
  lemma PairedSlots(h: Host, g: string -> bool, r: Registry, rest: string, kind: Kind)
    requires ByName(h, g) && Paired(g, r) && r.options.enabled && Alike(g, rest)
    ensures var (t, ok) := Track(r, Legacy() + rest, kind);
      var first := IncrementTracked(h, r, Legacy() + rest, kind);
      && ok == Track(first, Product() + rest, kind).1
      && Track(first, Product() + rest, kind).0.(calls := r.calls, defined := r.defined) ==
           (if ok && Legacy() + rest !in r.defined
            then if kind == Rules then r.(distinctRules := r.distinctRules + 2)
                 else r.(distinctTags := r.distinctTags + 2)
            else r)
  {
    hide Legacy, Product, Tally, Alike, ByName, Honest;
    NameOf(rest, rest);
    assert PairedName(g, r.defined, rest);
    Counted(h, g, Track(r, Legacy() + rest, kind).0, Legacy() + rest, Exactly(rest));
  }

  lemma SlotsDoNotMatter(h: Host, r: Registry, rules: nat, tags: nat, name: string)
    ensures Increment(h, r.(distinctRules := rules, distinctTags := tags), name) ==
      Increment(h, r, name).(distinctRules := rules, distinctTags := tags)
  {
  }

  /** A slot each, then a count each. */
  lemma SeriesSplits(h: Host, g: string -> bool, r: Registry, core: string, kind: Kind, evenAlone: bool)
    requires ByName(h, g) && Paired(g, r) && r.options.enabled && r.options.dualPrefix && Alike(g, core + r.suffix)
    ensures var legacy, product := Legacy() + (core + r.suffix), Product() + (core + r.suffix);
      var s := IncrementSeries(h, r, core, kind, evenAlone);
      var both := Increment(h, Increment(h, r, legacy), product);
      || s == r
      || (s == both.(distinctRules := s.distinctRules, distinctTags := s.distinctTags)
          && s.distinctRules % 2 == 0 && s.distinctTags % 2 == 0)
  {
    hide Legacy, Product, Increment, PairedNames, Alike, ByName, Honest;
    var rest := core + r.suffix;
    var legacy, product := Legacy() + rest, Product() + rest;
    PairedSlots(h, g, r, rest, kind);
    var (t, ok) := Track(r, legacy, kind);
    var first := IncrementTracked(h, r, legacy, kind);
    if ok {
      SlotsDoNotMatter(h, r, t.distinctRules, t.distinctTags, legacy);
      var t2 := Track(first, product, kind).0;
      SlotsDoNotMatter(h, Increment(h, r, legacy), t2.distinctRules, t2.distinctTags, product);
    }
  }

  lemma SeriesTwins(
      h: Host, g: string -> bool, r: Registry, core: string, kind: Kind, evenAlone: bool, x: string)
    requires ByName(h, g) && Twins(g, r, x) && r.options.enabled && r.options.dualPrefix
    requires Alike(g, core + r.suffix)
    ensures Twins(g, IncrementSeries(h, r, core, kind, evenAlone), x)
  {
    hide Legacy, Product, Increment, PairedNames, Tally, IncrementSeries, Alike, Honest, ByName;
    SeriesSplits(h, g, r, core, kind, evenAlone);
    BothIncremented(h, g, r, core + r.suffix, x);
  }

  // ---------------------------------------------------------------------------
  // Counting one's own series
  // ---------------------------------------------------------------------------

  /** Names under the first prefix and in no capped family. */
  ghost predicate Plain(q: string -> bool) {
    forall rest :: PlainAt(q, rest)
  }

  ghost predicate PlainAt(q: string -> bool, rest: string) {
    !q(Product() + rest) && (q(Legacy() + rest) ==> Untracked(rest))
  }

  /** How many of these series have such names. */
  function Hits(cores: seq<string>, q: string -> bool, suffix: string): nat {
    if cores == [] then 0
    else Bit(q(Legacy() + (cores[0] + suffix))) + Hits(cores[1..], q, suffix)
  }

  lemma {:induction false} HitsConcat(a: seq<string>, b: seq<string>, q: string -> bool, suffix: string)
    ensures Hits(a + b, q, suffix) == Hits(a, q, suffix) + Hits(b, q, suffix)
  {
    if a == [] {
      assert a + b == b;
    } else {
      assert (a + b)[1..] == a[1..] + b;
      HitsConcat(a[1..], b, q, suffix);
    }
  }

  lemma CoreTally(h: Host, r: Registry, core: string, q: string -> bool)
    requires Grants(h) && r.options.enabled && Plain(q)
    ensures Tally(IncrementCore(h, r, core).calls, q) == Tally(r.calls, q) + Hits([core], q, r.suffix)
  {
    hide Legacy, Product, Increment, Tally;
    var rest := core + r.suffix;
    assert PlainAt(q, rest);
    Granted(h, r, Legacy() + rest, q);
    Granted(h, Increment(h, r, Legacy() + rest), Product() + rest, q);
    assert Hits([core], q, r.suffix) == Bit(q(Legacy() + rest)) + Hits([], q, r.suffix);
  }

  lemma MemoryTally(h: Host, r: Registry, q: string -> bool)
    requires Grants(h)
    ensures Tally(RecordMemory(h, r).calls, q) == Tally(r.calls, q)
  {
    hide Legacy, Product, SetGauge, Tally, HeapCore;
    var rest := HeapCore() + r.suffix;
    Granted(h, r, Legacy() + rest, q);
    Granted(h, SetGauge(h, r, Legacy() + rest), Product() + rest, q);
  }

  lemma SlotTally(h: Host, r: Registry, name: string, kind: Kind, q: string -> bool)
    requires Grants(h) && !q(name)
    ensures Tally(IncrementTracked(h, r, name, kind).calls, q) == Tally(r.calls, q)
  {
    hide Increment, Tally;
    Granted(h, Track(r, name, kind).0, name, q);
  }

  lemma SeriesTally(h: Host, r: Registry, core: string, kind: Kind, evenAlone: bool, q: string -> bool)
    requires Grants(h) && Plain(q) && TrackedOnly(core + r.suffix, kind)
    ensures Tally(IncrementSeries(h, r, core, kind, evenAlone).calls, q) == Tally(r.calls, q)
  {
    hide Legacy, Product, IncrementTracked, Tally, IsTracked, Track;
    var rest := core + r.suffix;
    assert PlainAt(q, rest) && !Untracked(rest);
    SlotTally(h, r, Legacy() + rest, kind, q);
    SlotTally(h, IncrementTracked(h, r, Legacy() + rest, kind), Product() + rest, kind, q);
  }
}
