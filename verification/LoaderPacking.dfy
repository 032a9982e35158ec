/** How tightly plain lines are packed: within any stretch of them the chunker is greedy. */
module LoaderPacking {
  import opened Text
  import opened LoaderModel
  import opened LoaderShapes

  /** A line that neither loads something else nor asks to be kept apart. */
  predicate IsPlainRule(line: string) {
    IsRule(line) && IsPlain(line) && Trim(line) == line
  }

  function LinesOf(c: Chunk): seq<string> {
    match c case Inline(lines) => lines case FromCatalog(_, _) => []
  }

  /** Lines of the inline chunks, in order. */
  function InlineLines(calls: seq<Chunk>): seq<string> {
    if calls == [] then [] else LinesOf(calls[0]) + InlineLines(calls[1..])
  }

  lemma {:induction false} InlineLinesConcat(s: seq<Chunk>, t: seq<Chunk>)
    ensures InlineLines(s + t) == InlineLines(s) + InlineLines(t)
  {
    if s == [] {
      assert s + t == t;
    } else {
      assert (s + t)[1..] == s[1..] + t;
      InlineLinesConcat(s[1..], t);
    }
  }

  /** Consecutive chunks could not have been one. */
  ghost predicate Greedy(chunks: seq<Chunk>) {
    && (forall i :: 0 <= i < |chunks| ==> chunks[i].Inline? && PlainBatch(chunks[i].lines))
    && (forall i :: 0 <= i < |chunks| - 1 ==> Size(LinesOf(chunks[i])) + Size(LinesOf(chunks[i + 1])) > 4096)
  }

  /** After the lines `done` of a stretch that began with `base` calls made. */
  ghost predicate Packing(base: seq<Chunk>, st: Load, done: seq<string>) {
    && base <= st.calls && !st.pending
    && (var chunks := st.calls[|base|..];
        && Greedy(chunks)
        && InlineLines(chunks) + st.batch == done
        && (chunks != [] ==>
             var last := Size(LinesOf(chunks[|chunks| - 1]));
             last + Size(st.batch) > 4096 || (st.batch == [] && last == 4096)))
    && Size(st.batch) < 4096 && (st.batch == [] || PlainBatch(st.batch))
  }

  lemma GreedyGrows(chunks: seq<Chunk>, lines: seq<string>)
    requires Greedy(chunks) && PlainBatch(lines)
    requires chunks != [] ==> Size(LinesOf(chunks[|chunks| - 1])) + Size(lines) > 4096
    ensures Greedy(chunks + [Inline(lines)])
  {
  }

  lemma FlushPacks(l: Loader, base: seq<Chunk>, st: Load, done: seq<string>)
    requires base <= st.calls && st.batch != [] && PlainBatch(st.batch) && FlushInline(l, st).1
    requires var chunks := st.calls[|base|..];
      && Greedy(chunks) && InlineLines(chunks) + st.batch == done
      && (chunks != [] ==> Size(LinesOf(chunks[|chunks| - 1])) + Size(st.batch) > 4096)
    ensures var r := FlushInline(l, st).0;
      var chunks := r.calls[|base|..];
      && base <= r.calls && r.batch == [] && r.pending == st.pending
      && Greedy(chunks) && InlineLines(chunks) == done
      && chunks != [] && chunks[|chunks| - 1] == Inline(st.batch)
  {
    hide Greedy, InlineLines, PlainBatch, Size;
    var chunks, last := st.calls[|base|..], Inline(st.batch);
    MoreBeyond(base, st.calls, last);
    GreedyGrows(chunks, st.batch);
    InlineLinesConcat(chunks, [last]);
    OneInline(st.batch);
  }

  lemma MoreBeyond(base: seq<Chunk>, calls: seq<Chunk>, last: Chunk)
    requires base <= calls
    ensures base <= calls + [last] && (calls + [last])[|base|..] == calls[|base|..] + [last]
  {
  }

  lemma OneInline(lines: seq<string>)
    ensures InlineLines([Inline(lines)]) == lines
  {
    assert [Inline(lines)][1..] == [];
    assert lines + [] == lines;
  }

  /** With room made for a line: the batch may take it, and no earlier chunk could have. */
  ghost predicate Roomy(base: seq<Chunk>, st: Load, done: seq<string>, line: string) {
    && base <= st.calls && !st.pending
    && (var chunks := st.calls[|base|..];
        && Greedy(chunks)
        && InlineLines(chunks) + st.batch == done
        && (chunks != [] ==> Size(LinesOf(chunks[|chunks| - 1])) + Size(st.batch) + |line| + 1 > 4096))
    && (st.batch == [] || (PlainBatch(st.batch) && Size(st.batch) + |line| + 1 <= 4096))
  }

  lemma RoomIsMade(l: Loader, base: seq<Chunk>, st: Load, done: seq<string>, line: string)
    requires Packing(base, st, done) && IsPlainRule(line)
    requires FlushBefore(st, line) ==> FlushInline(l, st).1
    ensures Roomy(base, if FlushBefore(st, line) then FlushInline(l, st).0 else st, done, line)
  {
    if FlushBefore(st, line) {
      FlushPacks(l, base, st, done);
      assert FlushInline(l, st).0.batch == [];
      assert done + [] == done;
    }
  }

  lemma AddPacks(l: Loader, base: seq<Chunk>, st1: Load, done: seq<string>, line: string, full: bool)
    requires Roomy(base, st1, done, line) && IsPlainRule(line)
    requires full <==> Size(st1.batch + [line]) >= 4096
    requires AddThen(l, st1, line, full).1
    ensures Packing(base, AddThen(l, st1, line, full).0, done + [line])
  {
    hide InlineLines, FlushInline;
    var added := Add(st1, line);
    SizeOfOneMore(st1.batch, line);
    PlainGrows(st1, line);
    Regroup(InlineLines(st1.calls[|base|..]), st1.batch, line);
    if full {
      FlushPacks(l, base, added, done + [line]);
      Regroup(done + [line], [], line);
    }
  }

  lemma Regroup(a: seq<string>, b: seq<string>, line: string)
    ensures a + (b + [line]) == (a + b) + [line]
    ensures a + b + [line] + [] == a + b + [line]
    ensures a + [] == a
  {
  }

  lemma LinePacks(l: Loader, catalog: Catalog, base: seq<Chunk>, st: Load, done: seq<string>, line: string)
    requires Packing(base, st, done) && IsPlainRule(line) && ApplyLine(l, catalog, st, line).1
    ensures Packing(base, ApplyLine(l, catalog, st, line).0, done + [line])
  {
    RoomIsMade(l, base, st, done, line);
    var st1 := if FlushBefore(st, line) then FlushInline(l, st).0 else st;
    AddPacks(l, base, st1, done, line, Size(st1.batch + [line]) >= 4096);
  }

  lemma FirstMoves(done: seq<string>, lines: seq<string>)
    requires lines != []
    ensures done + [lines[0]] + lines[1..] == done + lines
  {
  }

  lemma FirstLine(l: Loader, catalog: Catalog, st: Load, lines: seq<string>)
    requires lines != [] && Trim(lines[0]) == lines[0] && ApplyLines(l, catalog, st, lines).1
    ensures var (st1, ok) := ApplyLine(l, catalog, st, lines[0]);
      ok && ApplyLines(l, catalog, st, lines) == ApplyLines(l, catalog, st1, lines[1..])
  {
  }

  lemma {:induction false} LinesPack(
      l: Loader, catalog: Catalog, base: seq<Chunk>, st: Load, done: seq<string>, lines: seq<string>)
    requires Packing(base, st, done) && ApplyLines(l, catalog, st, lines).1
    requires forall i :: 0 <= i < |lines| ==> IsPlainRule(lines[i])
    ensures Packing(base, ApplyLines(l, catalog, st, lines).0, done + lines)
    decreases |lines|
  {
    if lines == [] {
      assert done + [] == done;
    } else {
      hide Packing, ApplyLine, ApplyLines, IsPlain;
      var line, rest := lines[0], lines[1..];
      FirstLine(l, catalog, st, lines);
      LinePacks(l, catalog, base, st, done, line);
      LinesPack(l, catalog, base, ApplyLine(l, catalog, st, line).0, done + [line], rest);
      FirstMoves(done, lines);
    }
  }

  function TotalSize(chunks: seq<Chunk>): nat {
    if chunks == [] then 0 else Size(LinesOf(chunks[0])) + TotalSize(chunks[1..])
  }

  /** Any two neighbours exceed the limit, so half the chunks fill it. */
  lemma {:induction false} NeighboursFill(chunks: seq<Chunk>)
    requires Greedy(chunks)
    ensures 4096 * (|chunks| / 2) <= TotalSize(chunks)
  {
    if |chunks| >= 2 {
      assert chunks[1..][1..] == chunks[2..];
      NeighboursFill(chunks[2..]);
    }
  }

  lemma {:induction false} TotalIsText(chunks: seq<Chunk>)
    ensures TotalSize(chunks) == Size(InlineLines(chunks))
  {
    if chunks != [] {
      TotalIsText(chunks[1..]);
      JoinConcat(LinesOf(chunks[0]), InlineLines(chunks[1..]));
    }
  }

  /**
   * A stretch of plain lines between two flushes: its chunks hold exactly those lines in order,
   * each of two or more lines fits the limit, no two neighbours would have fitted together, and k
   * chunks need at least floor(k/2) times the limit of text.
   */
  lemma StretchIsGreedy(l: Loader, catalog: Catalog, st: Load, lines: seq<string>)
    requires st.batch == [] && !st.pending
    requires forall i :: 0 <= i < |lines| ==> IsPlainRule(lines[i])
    requires ApplyLines(l, catalog, st, lines).1
    requires FlushInline(l, ApplyLines(l, catalog, st, lines).0).1
    ensures var r := FlushInline(l, ApplyLines(l, catalog, st, lines).0).0;
      && st.calls <= r.calls
      && var chunks := r.calls[|st.calls|..];
      && Greedy(chunks)
      && InlineLines(chunks) == lines
      && 4096 * (|chunks| / 2) <= Size(lines)
  {
    assert st.calls[|st.calls|..] == [];
    LinesPack(l, catalog, st.calls, st, [], lines);
    var packed := ApplyLines(l, catalog, st, lines).0;
    assert [] + lines == lines;
    var r := FlushInline(l, packed).0;
    if packed.batch != [] {
      FlushPacks(l, st.calls, packed, lines);
    } else {
      assert InlineLines(packed.calls[|st.calls|..]) + [] == InlineLines(packed.calls[|st.calls|..]);
    }
    NeighboursFill(r.calls[|st.calls|..]);
    TotalIsText(r.calls[|st.calls|..]);
  }
}
