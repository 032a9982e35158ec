/** The metrics registry as the object it is; every method is proved against MetricsModel. */
module Metrics {
  import opened Prelude
  import opened MetricsModel

  class ModSecMetrics {
    const host: Host

    var options: Options
    var labelSuffix: string
    // Names the host has granted a definition for.
    var metricIds: set<string>
    var txCount: nat
    var distinctRuleMetrics: nat
    var distinctTagMetrics: nat
    // Everything told to the host.
    var calls: seq<HostCall>

    /** The abstract value of this object. */
    ghost function State(): Registry
      reads this
    {
      Registry(options, labelSuffix, metricIds, txCount, distinctRuleMetrics, distinctTagMetrics, calls)
    }

    constructor (host: Host, options: Options)
      ensures this.host == host && State() == Configured(host, options, [])
    {
      this.host, this.options := host, options;
      labelSuffix, metricIds, txCount := "", {}, 0;
      distinctRuleMetrics, distinctTagMetrics, calls := 0, 0, [];
      new;
      Configure(options);
    }

    method Configure(newOptions: Options)
      modifies this
      ensures State() == Configured(host, newOptions, old(calls))
    {
      options := newOptions;
      metricIds, txCount, distinctRuleMetrics, distinctTagMetrics := {}, 0, 0, 0;
      labelSuffix := "";
      for i := 0 to |options.labels|
        modifies this`labelSuffix
        invariant LabelSuffix(options.labels) == labelSuffix + LabelSuffix(options.labels[i..])
      {
        var (k, v) := options.labels[i];
        assert options.labels[i..][1..] == options.labels[i + 1..];
        if !IsReservedKey(k) && ExtraLabelUnsafe(k, v) {
          assert "" + LabelSuffix(options.labels[i + 1..]) == LabelSuffix(options.labels[i + 1..]);
          continue;
        }
        Associate(labelSuffix, Composed(k, v), LabelSuffix(options.labels[i + 1..]));
        labelSuffix := labelSuffix + Composed(k, v);
      }
      assert labelSuffix + "" == labelSuffix;
      RecordWasmMemory();
    }

    /** Define the name if it is not yet; false when the host refuses. */
    method EnsureDefined(name: string) returns (ok: bool)
      modifies this`metricIds, this`calls
      ensures State() == Ensured(host, old(State()), name) && ok == (name in metricIds)
    {
      if name !in metricIds {
        calls := calls + [Define(name)];
        if !host(calls) {
          return false;
        }
        metricIds := metricIds + {name};
      }
      return true;
    }

    method IncrementCounter(name: string)
      modifies this`metricIds, this`calls
      ensures State() == Increment(host, old(State()), name)
    {
      if !options.enabled {
        return;
      }
      var ok := EnsureDefined(name);
      if ok {
        calls := calls + [Incremented(name)];
      }
    }

    method SetGaugeTo(name: string)
      modifies this`metricIds, this`calls
      ensures State() == SetGauge(host, old(State()), name)
    {
      if !options.enabled {
        return;
      }
      var ok := EnsureDefined(name);
      if ok {
        calls := calls + [GaugeSet(name)];
      }
    }

    method IncrementCoreCounter(core: string)
      modifies this`metricIds, this`calls
      ensures State() == IncrementCore(host, old(State()), core)
    {
      IncrementCounter(Legacy() + (core + labelSuffix));
      if options.dualPrefix {
        IncrementCounter(Product() + (core + labelSuffix));
      }
    }

    method RecordWasmMemory()
      modifies this`metricIds, this`calls
      ensures State() == RecordMemory(host, old(State()))
    {
      SetGaugeTo(Legacy() + (HeapCore() + labelSuffix));
      if options.dualPrefix {
        SetGaugeTo(Product() + (HeapCore() + labelSuffix));
      }
    }

    method TrackDistinct(name: string, kind: Kind) returns (ok: bool)
      modifies this`distinctRuleMetrics, this`distinctTagMetrics
      ensures (State(), ok) == Track(old(State()), name, kind)
    {
      if name in metricIds {
        return true;
      }
      match kind
      case Rules =>
        if distinctRuleMetrics >= MAX_RULES {
          return false;
        }
        distinctRuleMetrics := distinctRuleMetrics + 1;
        return true;
      case Tags =>
        if distinctTagMetrics >= MAX_TAGS {
          return false;
        }
        distinctTagMetrics := distinctTagMetrics + 1;
        return true;
    }

    /** A capped counter; false when it gets no slot. */
    method CountTracked(name: string, kind: Kind) returns (ok: bool)
      modifies this`metricIds, this`calls, this`distinctRuleMetrics, this`distinctTagMetrics
      ensures State() == IncrementTracked(host, old(State()), name, kind) && ok == Track(old(State()), name, kind).1
    {
      ok := TrackDistinct(name, kind);
      if ok {
        IncrementCounter(name);
      }
    }

    method CountSeries(core: string, kind: Kind, evenAlone: bool)
      modifies this`metricIds, this`calls, this`distinctRuleMetrics, this`distinctTagMetrics
      ensures State() == IncrementSeries(host, old(State()), core, kind, evenAlone)
    {
      var suffix := labelSuffix;
      var ok := CountTracked(Legacy() + (core + suffix), kind);
      if !ok && !evenAlone {
        return;
      }
      if options.dualPrefix {
        ok := CountTracked(Product() + (core + suffix), kind);
      }
    }

    method TxTotal()
      modifies this
      ensures State() == CountTxTotal(host, old(State()))
    {
      IncrementCoreCounter(TxTotalCore());
      txCount := (txCount + 1) % TWO_64;
      if txCount % 100 == 0 {
        RecordWasmMemory();
      }
    }

    method TxAllowed()
      modifies this
      ensures State() == IncrementCore(host, old(State()), TxAllowedCore())
    {
      IncrementCoreCounter(TxAllowedCore());
    }

    method TxInterruption(phase: string, ruleId: int)
      modifies this`metricIds, this`calls, this`distinctRuleMetrics, this`distinctTagMetrics
      ensures State() == CountTxInterruption(host, old(State()), phase, ruleId)
    {
      if !options.enabled {
        return;
      }
      var named := if phase == "" then "unknown" else phase;
      IncrementCoreCounter(InterruptionsFamily() + named);
      if !options.perRuleId || ruleId <= 0 {
        return;
      }
      CountSeries(InterruptionsByRuleFamily() + InPhase(Decimal(ruleId), named), Rules, false);
    }

    method Matched(phase: string, severity: int)
      modifies this`metricIds, this`calls, this`distinctRuleMetrics, this`distinctTagMetrics
      ensures State() == CountMatch(host, old(State()), phase, severity)
    {
      hide IncrementCore;
      IncrementCoreCounter(MatchesCore());
      IncrementCoreCounter(MatchesFamily() + WithSeverity(phase, severity));
    }

    method MatchedDisruptively(phase: string, severity: int)
      modifies this`metricIds, this`calls, this`distinctRuleMetrics, this`distinctTagMetrics
      ensures State() == CountDisruptive(host, old(State()), phase, severity)
    {
      hide IncrementCore;
      IncrementCoreCounter(DisruptiveCore());
      IncrementCoreCounter(DisruptiveFamily() + WithSeverity(phase, severity));
    }

    method MatchedRule(phase: string, ruleId: int)
      modifies this`metricIds, this`calls, this`distinctRuleMetrics, this`distinctTagMetrics
      ensures State() == CountRule(host, old(State()), phase, ruleId)
    {
      hide IncrementSeries;
      if options.perRuleId && ruleId > 0 {
        CountSeries(MatchesByRuleFamily() + InPhase(Decimal(ruleId), phase), Rules, true);
      }
    }

    method RuleMatch(rulePhase: int, severity: int, disruptive: bool, ruleId: int, tags: seq<string>)
      modifies this`metricIds, this`calls, this`distinctRuleMetrics, this`distinctTagMetrics
      ensures State() == CountRuleMatch(host, old(State()), rulePhase, severity, disruptive, ruleId, tags)
    {
      hide CountMatch, CountDisruptive, CountRule, CountTags, PhaseName;
      if !options.enabled {
        return;
      }
      var phase := PhaseName(rulePhase);
      Matched(phase, severity);
      if disruptive {
        MatchedDisruptively(phase, severity);
      }
      MatchedRule(phase, ruleId);
      if !options.ruleTags {
        return;
      }
      CountAllTags(phase, tags);
    }

    method CountAllTags(phase: string, tags: seq<string>)
      modifies this`metricIds, this`calls, this`distinctRuleMetrics, this`distinctTagMetrics
      ensures State() == CountTags(host, old(State()), phase, tags)
    {
      for i := 0 to |tags|
        invariant CountTags(host, old(State()), phase, tags) == CountTags(host, State(), phase, tags[i..])
      {
        assert tags[i..][1..] == tags[i + 1..];
        if !IsInteresting(tags[i]) {
          continue;
        }
        CountSeries(MatchesByTagFamily() + InPhase(SanitizedTag(tags[i]), phase), Tags, false);
      }
    }

    method ResponseBodySanitized()
      modifies this
      ensures State() == IncrementCore(host, old(State()), SanitizedCore())
    {
      IncrementCoreCounter(SanitizedCore());
    }

    method ConfigureFallbackRules()
      modifies this
      ensures State() == CountFallback(host, old(State()))
    {
      var was := options.enabled;
      options := options.(enabled := true);
      IncrementCoreCounter(FallbackCore());
      options := options.(enabled := was);
    }
  }
}
