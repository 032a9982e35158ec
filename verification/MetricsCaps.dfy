/** However the host answers, the number of distinct series stays under its caps. */
module MetricsCaps {
  import opened Text
  import opened MetricsModel
  import opened MetricsNames

  /** No capped family begins like this. */
  predicate Untracked(rest: string) {
    !IsTracked(rest, Rules) && !IsTracked(rest, Tags)
  }

  predicate TrackedOnly(rest: string, kind: Kind) {
    IsTracked(rest, kind) && !IsTracked(rest, if kind == Rules then Tags else Rules)
  }

  // ---------------------------------------------------------------------------
  // Which names are series
  // ---------------------------------------------------------------------------

  lemma DiffersAt(core: string, rest: string, family: string, i: nat)
    requires i < |core| && i < |family| && core[i] != family[i]
    ensures !StartsWith(core + rest, family)
  {
    assert (core + rest)[i] == core[i];
  }

  /** A word that differs from all three families at some place, however it goes on. */
  lemma OtherWord(word: string, more: string, i: nat, j: nat, k: nat)
    requires i < |word| && i < |MatchesByRuleFamily()| && word[i] != MatchesByRuleFamily()[i]
    requires j < |word| && j < |InterruptionsByRuleFamily()| && word[j] != InterruptionsByRuleFamily()[j]
    requires k < |word| && k < |MatchesByTagFamily()| && word[k] != MatchesByTagFamily()[k]
    ensures Untracked(word + more)
  {
    hide MatchesByRuleFamily, InterruptionsByRuleFamily, MatchesByTagFamily, StartsWith;
    DiffersAt(word, more, MatchesByRuleFamily(), i);
    DiffersAt(word, more, InterruptionsByRuleFamily(), j);
    DiffersAt(word, more, MatchesByTagFamily(), k);
  }

  lemma PlainWords(more: string)
    ensures Untracked(TxTotalCore() + more) && Untracked(TxAllowedCore() + more)
    ensures Untracked(SanitizedCore() + more) && Untracked(FallbackCore() + more) && Untracked(HeapCore() + more)
  {
    hide Untracked;
    OtherWord(TxTotalCore(), more, 0, 3, 0);
    OtherWord(TxAllowedCore(), more, 0, 3, 0);
    OtherWord(SanitizedCore(), more, 1, 0, 1);
    OtherWord(FallbackCore(), more, 0, 0, 0);
    OtherWord(HeapCore(), more, 0, 0, 0);
  }

  lemma PlainFamilies(more: string)
    ensures Untracked(InterruptionsFamily() + more) && Untracked(MatchesFamily() + more)
    ensures Untracked(DisruptiveFamily() + more) && Untracked(DisruptiveCore() + more)
  {
    hide Untracked;
    OtherWord(InterruptionsFamily(), more, 0, 17, 0);
    OtherWord(MatchesFamily(), more, 13, 0, 13);
    OtherWord(DisruptiveFamily(), more, 13, 0, 13);
    OtherWord(DisruptiveCore(), more, 13, 0, 13);
  }

  /** The one plain name that a label could make look like a series, if the filter let it. */
  lemma MatchesIsUntracked(suffix: string)
    requires SafeSuffix(suffix)
    ensures Untracked(MatchesCore() + suffix)
  {
    hide SafeSuffix;
    SafeAgainst(suffix, "ruleid");
    SafeAgainst(suffix, "tag");
    assert MatchesByRuleFamily() == MatchesCore() + "_ruleid=";
    assert MatchesByTagFamily() == MatchesCore() + "_tag=";
    assert "_" + "ruleid" + "=" == "_ruleid=" && "_" + "tag" + "=" == "_tag=";
    hide MatchesByRuleFamily, MatchesByTagFamily, StartsWith;
    PrefixFalls(MatchesCore(), suffix, "_ruleid=");
    PrefixFalls(MatchesCore(), suffix, "_tag=");
    DiffersAt(MatchesCore(), suffix, InterruptionsByRuleFamily(), 0);
  }

  lemma StartsWithItself(family: string, more: string)
    ensures StartsWith(family + more, family)
  {
  }

  lemma Families(more: string)
    ensures TrackedOnly(MatchesByRuleFamily() + more, Rules)
    ensures TrackedOnly(InterruptionsByRuleFamily() + more, Rules)
    ensures TrackedOnly(MatchesByTagFamily() + more, Tags)
  {
    StartsWithItself(MatchesByRuleFamily(), more);
    StartsWithItself(InterruptionsByRuleFamily(), more);
    StartsWithItself(MatchesByTagFamily(), more);
    DiffersAt(MatchesByRuleFamily(), more, MatchesByTagFamily(), 13);
    DiffersAt(MatchesByTagFamily(), more, MatchesByRuleFamily(), 13);
    DiffersAt(MatchesByTagFamily(), more, InterruptionsByRuleFamily(), 0);
    DiffersAt(InterruptionsByRuleFamily(), more, MatchesByTagFamily(), 0);
  }

  // ---------------------------------------------------------------------------
  // The caps
  // ---------------------------------------------------------------------------

  function Series(defined: set<string>, kind: Kind): set<string> {
    set n | n in defined && IsSeries(n, kind)
  }

  /** No more series than slots taken, and no more slots taken than there are. */
  ghost predicate Capped(r: Registry) {
    && |Series(r.defined, Rules)| <= r.distinctRules <= 512
    && |Series(r.defined, Tags)| <= r.distinctTags <= 128
  }

  ghost predicate RegistryInv(r: Registry) {
    Capped(r) && SafeSuffix(r.suffix)
  }

  ghost predicate SameSettings(a: Registry, b: Registry) {
    a.options == b.options && a.suffix == b.suffix
  }

  lemma SeriesOfMore(defined: set<string>, name: string, kind: Kind)
    ensures |Series(defined + {name}, kind)| <= |Series(defined, kind)| + 1
    ensures !IsSeries(name, kind) || name in defined ==> Series(defined + {name}, kind) == Series(defined, kind)
  {
    hide IsSeries;
    if IsSeries(name, kind) {
      assert Series(defined + {name}, kind) == Series(defined, kind) + {name};
    } else {
      assert Series(defined + {name}, kind) == Series(defined, kind);
    }
  }

  /** At most this name is new. */
  lemma DefinesAtMost(h: Host, r: Registry, name: string)
    ensures var i := Increment(h, r, name);
      && SameSettings(i, r) && i.distinctRules == r.distinctRules && i.distinctTags == r.distinctTags
      && (i.defined == r.defined || i.defined == r.defined + {name})
    ensures var g := SetGauge(h, r, name);
      && SameSettings(g, r) && g.distinctRules == r.distinctRules && g.distinctTags == r.distinctTags
      && (g.defined == r.defined || g.defined == r.defined + {name})
  {
  }

  lemma PlainKeeps(h: Host, r: Registry, name: string)
    requires RegistryInv(r) && !IsSeries(name, Rules) && !IsSeries(name, Tags)
    ensures RegistryInv(Increment(h, r, name)) && RegistryInv(SetGauge(h, r, name))
  {
    hide IsSeries, Increment, SetGauge, SafeSuffix;
    DefinesAtMost(h, r, name);
    SeriesOfMore(r.defined, name, Rules);
    SeriesOfMore(r.defined, name, Tags);
  }

  lemma CoreKeeps(h: Host, r: Registry, core: string)
    requires RegistryInv(r) && Untracked(core + r.suffix)
    ensures RegistryInv(IncrementCore(h, r, core)) && SameSettings(IncrementCore(h, r, core), r)
  {
    hide IsSeries, IsTracked, Increment, RegistryInv, Legacy, Product;
    var rest := core + r.suffix;
    SeriesOf(rest, Rules);
    SeriesOf(rest, Tags);
    var first := Increment(h, r, Legacy() + rest);
    PlainKeeps(h, r, Legacy() + rest);
    DefinesAtMost(h, r, Legacy() + rest);
    PlainKeeps(h, first, Product() + rest);
    DefinesAtMost(h, first, Product() + rest);
  }

  lemma MemoryKeeps(h: Host, r: Registry)
    requires RegistryInv(r)
    ensures RegistryInv(RecordMemory(h, r)) && SameSettings(RecordMemory(h, r), r)
  {
    hide IsSeries, IsTracked, SetGauge, RegistryInv, Legacy, Product, HeapCore;
    var rest := HeapCore() + r.suffix;
    PlainWords(r.suffix);
    SeriesOf(rest, Rules);
    SeriesOf(rest, Tags);
    var first := SetGauge(h, r, Legacy() + rest);
    PlainKeeps(h, r, Legacy() + rest);
    DefinesAtMost(h, r, Legacy() + rest);
    PlainKeeps(h, first, Product() + rest);
    DefinesAtMost(h, first, Product() + rest);
  }

  lemma SlotKeeps(h: Host, r: Registry, name: string, kind: Kind)
    requires RegistryInv(r) && IsSeries(name, kind) && !IsSeries(name, if kind == Rules then Tags else Rules)
    ensures RegistryInv(IncrementTracked(h, r, name, kind)) && SameSettings(IncrementTracked(h, r, name, kind), r)
  {
    hide IsSeries, Increment, SafeSuffix;
    DefinesAtMost(h, Track(r, name, kind).0, name);
    SeriesOfMore(r.defined, name, Rules);
    SeriesOfMore(r.defined, name, Tags);
    assert name in r.defined ==> r.defined + {name} == r.defined;
  }

  lemma SeriesKeeps(h: Host, r: Registry, core: string, kind: Kind, evenAlone: bool)
    requires RegistryInv(r) && TrackedOnly(core + r.suffix, kind)
    ensures var s := IncrementSeries(h, r, core, kind, evenAlone); RegistryInv(s) && SameSettings(s, r)
  {
    hide IsSeries, IsTracked, IncrementTracked, RegistryInv, Track, Legacy, Product;
    var rest := core + r.suffix;
    SeriesOf(rest, Rules);
    SeriesOf(rest, Tags);
    SlotKeeps(h, r, Legacy() + rest, kind);
    SlotKeeps(h, IncrementTracked(h, r, Legacy() + rest, kind), Product() + rest, kind);
  }
}
