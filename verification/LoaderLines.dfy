/** The physical lines of a directive, and when splitting it into them changes nothing of its text. */
module LoaderLines {
  import opened Prelude
  import opened Text
  import opened LoaderModel

  /** The text between newlines, empty lines included. */
  function Physical(s: string): (lines: seq<string>)
    ensures lines != []
  {
    if s == "" then [""]
    else
      var rest := Physical(s[1..]);
      if s[0] == '\n' then [""] + rest else [[s[0]] + rest[0]] + rest[1..]
  }

  /** Trimmed, without the empty ones. */
  function Cleaned(lines: seq<string>): seq<string> {
    if lines == [] then [] else NonEmpty(Trim(lines[0])) + Cleaned(lines[1..])
  }

  lemma CleanedMore(line: string, rest: seq<string>)
    ensures Cleaned([line] + rest) == NonEmpty(Trim(line)) + Cleaned(rest)
  {
    assert ([line] + rest)[1..] == rest;
  }

  // ---------------------------------------------------------------------------
  // Splitting is cleaning the physical lines
  // ---------------------------------------------------------------------------

  lemma {:induction false} PhysicalAt(s: string, nl: nat)
    requires nl < |s| && s[nl] == '\n' && '\n' !in s[..nl]
    ensures Physical(s) == [s[..nl]] + Physical(s[nl + 1..])
  {
    if nl > 0 {
      assert s[..nl] == [s[0]] + s[1..][..nl - 1];
      assert s[1..][nl..] == s[nl + 1..];
      PhysicalAt(s[1..], nl - 1);
    }
  }

  lemma {:induction false} PhysicalOne(s: string)
    requires '\n' !in s
    ensures Physical(s) == [s]
  {
    if s != "" {
      assert s == [s[0]] + s[1..];
      PhysicalOne(s[1..]);
    }
  }

  lemma NewlineFound(s: string)
    ensures var nl := Find(s, "\n", 0);
      if nl.None? then '\n' !in s else nl.value < |s| && s[nl.value] == '\n' && '\n' !in s[..nl.value]
  {
    FindMeans(s, "\n", 0);
    assert forall k: nat :: k < |s| ==> (OccursAt(s, "\n", k) <==> s[k] == '\n') by {
      forall k: nat | k < |s| ensures OccursAt(s, "\n", k) <==> s[k] == '\n' {
        assert s[k..k + 1] == [s[k]];
      }
    }
  }

  lemma {:induction false} SplitIsCleaned(s: string)
    ensures SplitDirectiveLines(s) == Cleaned(Physical(s))
    decreases |s|
  {
    hide Trim;
    NewlineFound(s);
    var nl := Find(s, "\n", 0);
    if nl.Some? {
      PhysicalAt(s, nl.value);
      CleanedMore(s[..nl.value], Physical(s[nl.value + 1..]));
      SplitIsCleaned(s[nl.value + 1..]);
    } else {
      PhysicalOne(s);
      CleanedMore(s, []);
      assert Trim("") == "" by { TrimOf(""); }
      assert NonEmpty(Trim(s)) + [] == NonEmpty(Trim(s));
    }
  }

  // ---------------------------------------------------------------------------
  // The margins do not matter
  // ---------------------------------------------------------------------------

  lemma {:induction false} TrimLast(x: string, c: char)
    requires IsSpace(c)
    ensures Trim(x + [c]) == Trim(x)
  {
    if x == "" {
      assert x + [c] == [c] && [c][1..] == "";
    } else if IsSpace(x[0]) {
      assert (x + [c])[1..] == x[1..] + [c];
      TrimLast(x[1..], c);
    } else {
      assert (x + [c])[..|x|] == x;
    }
  }

  lemma SpaceBefore(s: string)
    requires s != "" && IsSpace(s[0])
    ensures Cleaned(Physical(s)) == Cleaned(Physical(s[1..]))
  {
    hide NonEmpty;
    var rest := Physical(s[1..]);
    assert rest == [rest[0]] + rest[1..];
    CleanedMore(rest[0], rest[1..]);
    if s[0] == '\n' {
      CleanedMore("", rest);
      EmptyIsDropped(rest);
    } else {
      assert ([s[0]] + rest[0])[1..] == rest[0];
      CleanedMore([s[0]] + rest[0], rest[1..]);
    }
  }

  lemma EmptyIsDropped(rest: seq<string>)
    ensures NonEmpty(Trim("")) + Cleaned(rest) == Cleaned(rest)
  {
  }

  lemma {:induction false} CleanedConcat(a: seq<string>, b: seq<string>)
    ensures Cleaned(a + b) == Cleaned(a) + Cleaned(b)
  {
    hide Trim, NonEmpty;
    if a == [] {
      assert a + b == b;
    } else {
      assert (a + b)[1..] == a[1..] + b;
      CleanedConcat(a[1..], b);
    }
  }

  /** The lines after one more character: a new one, or a longer last one. */
  function OneMore(lines: seq<string>, c: char): seq<string>
    requires lines != []
  {
    if c == '\n' then lines + [""] else lines[..|lines| - 1] + [lines[|lines| - 1] + [c]]
  }

  lemma OneMoreAfter(first: string, rest: seq<string>, c: char)
    requires rest != []
    ensures OneMore([first] + rest, c) == [first] + OneMore(rest, c)
  {
  }

  lemma OneMoreInFirst(a: char, rest: seq<string>, c: char)
    requires rest != []
    ensures var more := OneMore(rest, c);
      more != [] && OneMore([[a] + rest[0]] + rest[1..], c) == [[a] + more[0]] + more[1..]
  {
    Associate([a], rest[0], [c]);
    if |rest| > 1 && c != '\n' {
      assert ([[a] + rest[0]] + rest[1..])[..|rest| - 1] == [[a] + rest[0]] + rest[1..|rest| - 1];
    }
  }

  lemma {:induction false} PhysicalLast(s: string, c: char)
    ensures Physical(s + [c]) == OneMore(Physical(s), c)
  {
    if s == "" {
      assert s + [c] == [c] && [c][1..] == "";
      assert [c] + "" == "" + [c];
    } else {
      hide OneMore;
      assert (s + [c])[1..] == s[1..] + [c];
      PhysicalLast(s[1..], c);
      OneMoreAfter("", Physical(s[1..]), c);
      OneMoreInFirst(s[0], Physical(s[1..]), c);
    }
  }

  lemma SpaceAfter(s: string, c: char)
    requires IsSpace(c)
    ensures Cleaned(Physical(s + [c])) == Cleaned(Physical(s))
  {
    hide NonEmpty, Trim;
    var lines := Physical(s);
    var front, last := lines[..|lines| - 1], lines[|lines| - 1];
    PhysicalLast(s, c);
    TrimLast(last, c);
    assert lines == front + [last];
    CleanedConcat(front, [last]);
    CleanedConcat(front, [last + [c]]);
    CleanedConcat(lines, [""]);
    CleanedMore(last, []);
    CleanedMore(last + [c], []);
    CleanedMore("", []);
    assert [last] + [] == [last] && [last + [c]] + [] == [last + [c]] && [""] + [] == [""];
    EmptyIsDropped([]);
  }

  lemma {:induction false} LeftMargin(s: string)
    ensures Cleaned(Physical(s)) == Cleaned(Physical(TrimLeft(s)))
  {
    hide Cleaned, Physical;
    if s != "" && IsSpace(s[0]) {
      SpaceBefore(s);
      LeftMargin(s[1..]);
    }
  }

  lemma {:induction false} RightMargin(s: string)
    ensures Cleaned(Physical(s)) == Cleaned(Physical(TrimRight(s)))
  {
    hide Cleaned, Physical;
    if s != "" && IsSpace(s[|s| - 1]) {
      var t := s[..|s| - 1];
      assert s == t + [s[|s| - 1]];
      SpaceAfter(t, s[|s| - 1]);
      RightMargin(t);
    }
  }

  /** A directive splits into the cleaned physical lines of its trimmed text. */
  lemma SplitOfTrimmed(d: string)
    ensures SplitDirectiveLines(d) == Cleaned(Physical(Trim(d)))
  {
    SplitIsCleaned(d);
    LeftMargin(d);
    RightMargin(TrimLeft(d));
  }

  /** A directive whose trimmed text has no newline splits into that text. */
  lemma SingleLine(d: string)
    requires '\n' !in Trim(d)
    ensures SplitDirectiveLines(d) == NonEmpty(Trim(d))
  {
    hide Trim;
    SplitOfTrimmed(d);
    PhysicalOne(Trim(d));
    CleanedMore(Trim(d), []);
    TrimTwice(d);
    assert [Trim(d)] + [] == [Trim(d)];
    assert NonEmpty(Trim(d)) + [] == NonEmpty(Trim(d));
  }

  // ---------------------------------------------------------------------------
  // When the lines are the text
  // ---------------------------------------------------------------------------

  /** What the loader keeps of some lines: each trimmed, without blanks and comments. */
  function Kept(lines: seq<string>): string {
    if lines == [] then ""
    else (if IsSkipped(Trim(lines[0])) then "" else Trim(lines[0]) + "\n") + Kept(lines[1..])
  }

  /** Nothing to trim and nothing to skip. */
  predicate IsWhole(line: string) { !IsSkipped(line) && Trim(line) == line }

  lemma {:induction false} JoinPhysical(s: string)
    ensures JoinLines(Physical(s)) == s + "\n"
  {
    if s == "" {
      assert JoinLines([""]) == "\n" by { assert [""][1..] == []; }
    } else {
      var rest := Physical(s[1..]);
      JoinPhysical(s[1..]);
      assert s == [s[0]] + s[1..];
      if s[0] == '\n' {
        assert ([""] + rest)[1..] == rest;
      } else {
        var lines := [[s[0]] + rest[0]] + rest[1..];
        assert lines[1..] == rest[1..];
        Associate([s[0]], rest[0], "\n");
        Associate([s[0]], rest[0] + "\n", JoinLines(rest[1..]));
      }
    }
  }

  lemma {:induction false} TrimRightShrinks(s: string)
    ensures |TrimRight(s)| <= |s| && (|TrimRight(s)| == |s| ==> TrimRight(s) == s)
  {
    if s != "" && IsSpace(s[|s| - 1]) {
      TrimRightShrinks(s[..|s| - 1]);
    }
  }

  lemma {:induction false} TrimLeftShrinks(s: string)
    ensures |TrimLeft(s)| <= |s| && (|TrimLeft(s)| == |s| ==> TrimLeft(s) == s)
  {
    if s != "" && IsSpace(s[0]) {
      TrimLeftShrinks(s[1..]);
    }
  }

  lemma TrimShrinks(s: string)
    ensures |Trim(s)| <= |s| && (|Trim(s)| == |s| ==> Trim(s) == s)
  {
    TrimLeftShrinks(s);
    TrimRightShrinks(TrimLeft(s));
  }

  /** Keeping shortens, unless every line is whole; then it changes nothing. */
  lemma {:induction false} KeptIsShorter(lines: seq<string>)
    ensures if forall i :: 0 <= i < |lines| ==> IsWhole(lines[i]) then Kept(lines) == JoinLines(lines)
      else |Kept(lines)| < |JoinLines(lines)|
  {
    hide Trim, IsSkipped;
    if lines != [] {
      TrimShrinks(lines[0]);
      KeptIsShorter(lines[1..]);
      assert forall i :: 1 <= i < |lines| ==> lines[i] == lines[1..][i - 1];
      assert (forall i :: 0 <= i < |lines[1..]| ==> IsWhole(lines[1..][i])) && IsWhole(lines[0]) <==>
        forall i :: 0 <= i < |lines| ==> IsWhole(lines[i]);
    }
  }

  lemma {:induction false} NothingKept(lines: seq<string>)
    ensures Kept(lines) == "" <==> forall i :: 0 <= i < |lines| ==> IsSkipped(Trim(lines[i]))
  {
    hide Trim, IsSkipped;
    if lines != [] {
      NothingKept(lines[1..]);
      assert forall i :: 1 <= i < |lines| ==> lines[i] == lines[1..][i - 1];
    }
  }

  /**
   * A directive that means the same whole and split: a comment with nothing but comments in it, or a text
   * whose physical lines are all non-empty, trimmed already and no comments.
   */
  predicate ReadsAlike(d: string) {
    var lines := Physical(Trim(d));
    if IsSkipped(Trim(d)) then forall i :: 0 <= i < |lines| ==> IsSkipped(Trim(lines[i]))
    else forall i :: 0 <= i < |lines| ==> IsWhole(lines[i])
  }

  /** What the expansion writes of a directive without Includes. */
  function Written(d: string): string { if IsSkipped(Trim(d)) then "" else Trim(d) + "\n" }

  lemma KeptIsWritten(d: string)
    ensures Kept(Physical(Trim(d))) == Written(d) <==> ReadsAlike(d)
  {
    hide Trim, IsSkipped, Physical, Kept, JoinLines;
    var lines := Physical(Trim(d));
    JoinPhysical(Trim(d));
    KeptIsShorter(lines);
    NothingKept(lines);
  }

  /** No line of the directive is an Include, nor is the directive itself. */
  predicate NoInclude(d: string) {
    var lines := Physical(Trim(d));
    !IsInclude(Trim(d)) && forall i :: 0 <= i < |lines| ==> !IsInclude(Trim(lines[i]))
  }
}
