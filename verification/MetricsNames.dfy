/** What the label filter protects: no name outside a capped family begins like one inside. */
module MetricsNames {
  import opened Text
  import opened MetricsModel

  /** The series that a cap counts. */
  predicate IsSeries(name: string, kind: Kind) {
    match kind
    case Rules =>
      || StartsWith(name, Legacy() + MatchesByRuleFamily()) || StartsWith(name, Product() + MatchesByRuleFamily())
      || StartsWith(name, Legacy() + InterruptionsByRuleFamily())
      || StartsWith(name, Product() + InterruptionsByRuleFamily())
    case Tags =>
      StartsWith(name, Legacy() + MatchesByTagFamily()) || StartsWith(name, Product() + MatchesByTagFamily())
  }

  /** The same of what follows the prefix. */
  predicate IsTracked(rest: string, kind: Kind) {
    match kind
    case Rules => StartsWith(rest, MatchesByRuleFamily()) || StartsWith(rest, InterruptionsByRuleFamily())
    case Tags => StartsWith(rest, MatchesByTagFamily())
  }

  lemma PrefixFalls(p: string, rest: string, family: string)
    ensures StartsWith(p + rest, p + family) <==> StartsWith(rest, family)
  {
    if StartsWith(p + rest, p + family) {
      forall i | 0 <= i < |family| ensures rest[i] == family[i] {
        assert (p + rest)[|p| + i] == (p + family)[|p| + i];
      }
    }
    if StartsWith(rest, family) {
      assert forall i :: 0 <= i < |p + family| ==> (p + rest)[i] == (p + family)[i];
    }
  }

  lemma PrefixesDiffer(rest: string, family: string)
    ensures !StartsWith(Legacy() + rest, Product() + family)
    ensures !StartsWith(Product() + rest, Legacy() + family)
    ensures Legacy() + rest != Product() + family
  {
    FirstCharDiffers(Legacy(), Product(), rest, family);
    FirstCharDiffers(Product(), Legacy(), rest, family);
  }

  lemma FirstCharDiffers(p: string, q: string, a: string, b: string)
    requires p != "" && q != "" && p[0] != q[0]
    ensures !StartsWith(p + a, q + b) && p + a != q + b
  {
    assert (p + a)[0] != (q + b)[0];
  }

  lemma SeriesOf(rest: string, kind: Kind)
    ensures IsSeries(Legacy() + rest, kind) <==> IsTracked(rest, kind)
    ensures IsSeries(Product() + rest, kind) <==> IsTracked(rest, kind)
  {
    hide Legacy, Product, MatchesByRuleFamily, InterruptionsByRuleFamily, MatchesByTagFamily, StartsWith;
    SeriesUnder(rest, MatchesByRuleFamily());
    SeriesUnder(rest, InterruptionsByRuleFamily());
    SeriesUnder(rest, MatchesByTagFamily());
  }

  lemma SeriesUnder(rest: string, family: string)
    ensures StartsWith(Legacy() + rest, Legacy() + family) <==> StartsWith(rest, family)
    ensures StartsWith(Product() + rest, Product() + family) <==> StartsWith(rest, family)
    ensures !StartsWith(Legacy() + rest, Product() + family) && !StartsWith(Product() + rest, Legacy() + family)
  {
    hide Legacy, Product;
    PrefixFalls(Legacy(), rest, family);
    PrefixFalls(Product(), rest, family);
    PrefixesDiffer(rest, family);
  }

  // ---------------------------------------------------------------------------
  // The label filter
  // ---------------------------------------------------------------------------

  /** Empty, or a first label whose key is none of the words that the families use. */
  ghost predicate SafeSuffix(s: string) {
    s == "" || exists k, rest :: FirstLabel(s, k, rest)
  }

  ghost predicate FirstLabel(s: string, k: string, rest: string) {
    s == "_" + k + "=" + rest && '=' !in k && k !in FamilyWords()
  }

  function FamilyWords(): set<string> { {"phase", "ruleid", "tag", "severity", "disruptive_phase"} }

  lemma {:induction false} SuffixIsSafe(labels: seq<Label>)
    ensures SafeSuffix(LabelSuffix(labels))
  {
    hide ExtraLabelUnsafe, FirstLabel, IsReservedKey, Composed;
    if labels != [] {
      var (k, v) := labels[0];
      var more := LabelSuffix(labels[1..]);
      SuffixIsSafe(labels[1..]);
      if !IsReservedKey(k) && ExtraLabelUnsafe(k, v) {
        assert "" + more == more;
      } else {
        KeptLabel(k, v, more);
      }
    }
  }

  lemma KeptLabel(k: string, v: string, more: string)
    requires IsReservedKey(k) || !ExtraLabelUnsafe(k, v)
    ensures FirstLabel(Composed(k, v) + more, k, v + more)
  {
    assert Composed(k, v) + more == "_" + k + "=" + (v + more);
    if IsReservedKey(k) {
      ReservedKey(k);
    } else {
      hide FRAGMENTS;
      KeptKey(k, v, 4, 0, "phase");
      KeptKey(k, v, 5, 0, "ruleid");
      KeptKey(k, v, 6, 0, "severity");
      KeptKey(k, v, 7, 0, "tag");
      DisruptivePhase();
      KeptKey(k, v, 4, 11, "disruptive_phase");
    }
  }

  lemma ReservedKey(k: string)
    requires IsReservedKey(k)
    ensures '=' !in k && k !in FamilyWords()
  {
    assert k[0] != 'p' && k[0] != 'r' && k[0] != 't' && k[0] != 's' && k[0] != 'd';
  }

  lemma DisruptivePhase()
    ensures OccursAt("_" + "disruptive_phase" + "=", "_phase=", 11)
  {
  }

  /** The filter rejects a word when some fragment occurs where the label spells it. */
  lemma KeptKey(k: string, v: string, i: nat, at: nat, word: string)
    requires !ExtraLabelUnsafe(k, v)
    requires i < |FRAGMENTS| && OccursAt("_" + word + "=", FRAGMENTS[i], at)
    ensures '=' !in k && k != word
  {
    if k == word {
      hide ExtraLabelUnsafe;
      WordIsUnsafe(k, v, i, at);
    }
  }

  lemma WordIsUnsafe(k: string, v: string, i: nat, at: nat)
    requires i < |FRAGMENTS| && OccursAt("_" + k + "=", FRAGMENTS[i], at)
    ensures ExtraLabelUnsafe(k, v)
  {
    hide FRAGMENTS;
    var all, front := Composed(k, v), "_" + k + "=";
    assert all == front + v;
    assert all[at..at + |FRAGMENTS[i]|] == front[at..at + |FRAGMENTS[i]|];
    FindMeans(all, FRAGMENTS[i], 0);
    assert OccursAt(all, FRAGMENTS[i], at);
    assert Contains(all, FRAGMENTS[i]);
  }

  /** A safe suffix does not go on like a family. */
  lemma SafeAgainst(s: string, word: string)
    requires SafeSuffix(s) && '=' !in word && word in FamilyWords()
    ensures !StartsWith(s, "_" + word + "=")
  {
    if StartsWith(s, "_" + word + "=") {
      var k, rest :| FirstLabel(s, k, rest);
      FirstEquals(s, k, rest, word);
      assert false;
    }
  }

  lemma FirstEquals(s: string, k: string, rest: string, word: string)
    requires s == "_" + k + "=" + rest && '=' !in k && '=' !in word && StartsWith(s, "_" + word + "=")
    ensures k == word
  {
    FirstEqualsSign(s, k, rest);
    var more := s[|word| + 2..];
    assert s == "_" + word + "=" + more;
    FirstEqualsSign(s, word, more);
    assert k == s[1..|k| + 1] && word == s[1..|word| + 1];
  }

  lemma FirstEqualsSign(s: string, k: string, rest: string)
    requires s == "_" + k + "=" + rest && '=' !in k
    ensures |s| > |k| + 1 && s[|k| + 1] == '=' && '=' !in s[..|k| + 1]
  {
    assert s[..|k| + 1] == "_" + k;
  }

  // ---------------------------------------------------------------------------
  // What the label filter keeps
  // ---------------------------------------------------------------------------

  const WORDS := ["waf_namespace", "waf_name", "engine", "owner", "phase", "ruleid", "severity", "tag"]

  predicate EndsWith(s: string, t: string) { |t| <= |s| && s[|s| - |t|..] == t }

  /**
   * A label is kept if its key is one of the four of the product's own, or neither side has an equals sign and
   * the key is no word of a series and does not end in one after an underscore.
   */
  predicate IsKept(k: string, v: string) {
    || k in ["waf_namespace", "waf_name", "engine", "owner"]
    || ('=' !in k && '=' !in v && forall i :: 0 <= i < 8 ==> k != WORDS[i] && !EndsWith(k, "_" + WORDS[i]))
  }

  function KeptLabels(labels: seq<Label>): string {
    if labels == [] then ""
    else
      var (k, v) := labels[0];
      (if IsKept(k, v) then "_" + k + "=" + v else "") + KeptLabels(labels[1..])
  }

  lemma FragmentOf(i: nat)
    requires i < 8
    ensures |FRAGMENTS| == 8 && FRAGMENTS[i] == "_" + WORDS[i] + "="
  {
    assert FRAGMENTS[0] == "_" + WORDS[0] + "=" && FRAGMENTS[1] == "_" + WORDS[1] + "=";
    assert FRAGMENTS[2] == "_" + WORDS[2] + "=" && FRAGMENTS[3] == "_" + WORDS[3] + "=";
    assert FRAGMENTS[4] == "_" + WORDS[4] + "=" && FRAGMENTS[5] == "_" + WORDS[5] + "=";
    assert FRAGMENTS[6] == "_" + WORDS[6] + "=" && FRAGMENTS[7] == "_" + WORDS[7] + "=";
  }

  lemma EqualsSignNeeded(s: string, word: string)
    requires '=' !in s
    ensures !Contains(s, "_" + word + "=")
  {
    var f := "_" + word + "=";
    FindMeans(s, f, 0);
    forall k: nat | k + |f| <= |s| ensures !OccursAt(s, f, k) {
      assert s[k..k + |f|][|f| - 1] == s[k + |f| - 1] != '=';
    }
  }

  /** With one equals sign, a fragment can lie only before it: the key is the word, or ends in it. */
  lemma FragmentInLabel(k: string, v: string, word: string)
    requires '=' !in k && '=' !in v
    ensures Contains(Composed(k, v), "_" + word + "=") <==> k == word || EndsWith(k, "_" + word)
  {
    var s, f := Composed(k, v), "_" + word + "=";
    FindMeans(s, f, 0);
    if Contains(s, f) {
      var p := Find(s, f, 0).value;
      assert s[p..p + |f|][|f| - 1] == '=';
      assert forall i :: 0 <= i < |s| && s[i] == '=' ==> i == |k| + 1;
      assert p == |k| - |word|;
      LabelAt(k, v, word);
    } else if |word| <= |k| {
      LabelAt(k, v, word);
    }
  }

  lemma LabelAt(k: string, v: string, word: string)
    requires |word| <= |k|
    ensures OccursAt(Composed(k, v), "_" + word + "=", |k| - |word|) <==> k == word || EndsWith(k, "_" + word)
  {
    var s, f, p := Composed(k, v), "_" + word + "=", |k| - |word|;
    var all := "_" + k;
    assert s[p..p + |f|] == all[p..] + "=";
    assert f == ("_" + word) + "=";
    assert OccursAt(s, f, p) <==> all[p..] == "_" + word by {
      if OccursAt(s, f, p) {
        assert (all[p..] + "=")[..|word| + 1] == f[..|word| + 1];
      }
    }
    if p == 0 {
      assert all[0..] == all && all[1..] == k && ("_" + word)[1..] == word;
    } else {
      assert all[p..] == k[p - 1..];
    }
  }

  lemma UnsafeMeans(k: string, v: string)
    ensures IsKept(k, v) <==> IsReservedKey(k) || !ExtraLabelUnsafe(k, v)
  {
    hide Contains, EndsWith, Composed, FRAGMENTS;
    if '=' !in k && '=' !in v {
      forall i: nat | i < 8
        ensures |FRAGMENTS| == 8
        ensures !Contains(k, FRAGMENTS[i]) && !Contains(v, FRAGMENTS[i])
        ensures Contains(Composed(k, v), FRAGMENTS[i]) <==> k == WORDS[i] || EndsWith(k, "_" + WORDS[i])
      {
        FragmentOf(i);
        EqualsSignNeeded(k, WORDS[i]);
        EqualsSignNeeded(v, WORDS[i]);
        FragmentInLabel(k, v, WORDS[i]);
      }
      FragmentOf(0);
    }
  }

  /** The suffix of every series is the labels that are kept, in order. */
  lemma {:induction false} SuffixIsKeptLabels(labels: seq<Label>)
    ensures LabelSuffix(labels) == KeptLabels(labels)
  {
    hide IsKept, IsReservedKey, ExtraLabelUnsafe;
    if labels != [] {
      SuffixIsKeptLabels(labels[1..]);
      UnsafeMeans(labels[0].0, labels[0].1);
    }
  }

  // ---------------------------------------------------------------------------
  // Tags and numbers
  // ---------------------------------------------------------------------------

  /** A letter or a digit of ASCII, a dash, a dot or an underscore. */
  predicate IsWordChar(c: char) {
    || 0x61 <= c as int <= 0x7A || 0x41 <= c as int <= 0x5A || 0x30 <= c as int <= 0x39
    || c as int in [0x2D, 0x2E, 0x5F]
  }

  function Kept(c: char): string { if IsWordChar(c) then [c] else if c == '/' then "-" else "" }

  function KeptChars(tag: string): string { if tag == "" then "" else Kept(tag[0]) + KeptChars(tag[1..]) }

  /** A tag gives its letters, digits, dots, dashes and underscores, a dash for each slash, or `unknown`. */
  lemma {:induction false} NameCharsAre(tag: string)
    ensures NameChars(tag) == KeptChars(tag)
  {
    if tag != "" {
      NameCharsAre(tag[1..]);
    }
  }

  lemma SanitizedTagIs(tag: string)
    ensures SanitizedTag(tag) == if KeptChars(tag) == "" then "unknown" else KeptChars(tag)
  {
    NameCharsAre(tag);
  }

  /** A number is written in decimal, with a minus sign before it if it is negative. */
  lemma DecimalMeans(n: int)
    ensures var d := Decimal(n);
      && (n >= 0 ==> ValueOf(d) == n && d != "" && forall i :: 0 <= i < |d| ==> '0' <= d[i] <= '9')
      && (n < 0 ==> d != "" && d[0] == '-' && ValueOf(d[1..]) == -n
                    && forall i :: 1 <= i < |d| ==> '0' <= d[i] <= '9')
  {
    hide DecimalNat, ValueOf;
    DecimalIsTheNumber(if n < 0 then -n else n);
    if n < 0 {
      assert Decimal(n)[1..] == DecimalNat(-n);
    }
  }
}
