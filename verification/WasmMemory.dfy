/** The memory limits of a WebAssembly binary: unsigned LEB128 and the walk over its sections. */
module WasmMemory {
  import opened Prelude

  // ---------------------------------------------------------------------------
  // Bits of natural numbers
  // ---------------------------------------------------------------------------

  function Pow2(n: nat): (p: nat)
    ensures p > 0
  {
    if n == 0 then 1 else 2 * Pow2(n - 1)
  }

  /** Bitwise or. */
  function BitOr(a: nat, b: nat): nat {
    if a == 0 && b == 0 then 0
    else (if a % 2 == 1 || b % 2 == 1 then 1 else 0) + 2 * BitOr(a / 2, b / 2)
  }

  lemma {:induction false} OrWithZero(b: nat)
    ensures BitOr(0, b) == b
  {
    if b != 0 {
      OrWithZero(b / 2);
    }
  }

  /** Bits that do not overlap add up. */
  lemma {:induction false} OrAdds(a: nat, c: nat, n: nat)
    requires a < Pow2(n)
    ensures BitOr(a, c * Pow2(n)) == a + c * Pow2(n)
  {
    if n == 0 {
      OrWithZero(c);
    } else {
      var half := c * Pow2(n - 1);
      assert c * Pow2(n) == 2 * half;
      OrAdds(a / 2, c, n - 1);
    }
  }

  // ---------------------------------------------------------------------------
  // LEB128
  // ---------------------------------------------------------------------------

  predicate Continues(b: byte) { b >= 128 }

  /** Every byte but the last has its high bit set. */
  predicate IsLeb(bs: Bytes) {
    bs != [] && !Continues(bs[|bs| - 1]) && forall i :: 0 <= i < |bs| - 1 ==> Continues(bs[i])
  }

  /** Seven bits a byte, the least significant first. */
  function LebValue(bs: Bytes): nat {
    if bs == [] then 0 else bs[0] as int % 128 + 128 * LebValue(bs[1..])
  }

  /** The shortest encoding (section 5.2.2 of the WebAssembly Core Specification 1.0). */
  function Encode(n: nat): (bs: Bytes)
    ensures bs != []
  {
    if n < 128 then [n as byte] else [(n % 128 + 128) as byte] + Encode(n / 128)
  }

  const MAX_BYTES := 6

  /** Reading with a limit on the number of bytes: the value and the offset after it. */
  function Leb(data: Bytes, offset: nat, limit: nat): Option<(nat, nat)>
    decreases limit
  {
    if offset >= |data| || limit == 0 then None
    else
      var low := data[offset] as int % 128;
      if !Continues(data[offset]) then Some((low, offset + 1))
      else match Leb(data, offset + 1, limit - 1)
        case None => None
        case Some((high, end)) => Some((low + 128 * high, end))
  }

  /** Reading fails on a truncated number and on one longer than six bytes. */
  method ReadLeb128(data: Bytes, start: nat) returns (r: Option<(nat, nat)>)
    ensures r == Leb(data, start, MAX_BYTES)
  {
    hide BitOr, Pow2, Leb;
    var offset: nat, result: nat, shift: nat := start, 0, 0;
    ghost var k: nat := 0;
    NothingRead(Leb(data, start, MAX_BYTES));
    while offset < |data|
      invariant k < MAX_BYTES && shift == 7 * k && result < Pow2(shift)
      invariant Leb(data, start, MAX_BYTES) == Continued(result, shift, Leb(data, offset, MAX_BYTES - k))
      decreases |data| - offset
    {
      var b := data[offset];
      ReadRound(data, offset, MAX_BYTES - k, result, shift);
      result := BitOr(result, (b as int % 128) * Pow2(shift));
      offset := offset + 1;
      if b < 128 {
        return Some((result, offset));
      }
      shift := shift + 7;
      k := k + 1;
      if shift > 35 {
        break;
      }
    }
    NothingLeft(data, offset, MAX_BYTES - k);
    return None;
  }

  lemma NothingRead(r: Option<(nat, nat)>)
    ensures Pow2(0) == 1 && Continued(0, 0, r) == r
  {
  }

  lemma NothingLeft(data: Bytes, offset: nat, limit: nat)
    requires offset >= |data| || limit == 0
    ensures Leb(data, offset, limit) == None
  {
  }

  /** What is read when the low bits are there already. */
  function Continued(low: nat, shift: nat, rest: Option<(nat, nat)>): Option<(nat, nat)> {
    match rest
    case None => None
    case Some((high, end)) => Some((low + high * Pow2(shift), end))
  }

  lemma ShiftSeven(shift: nat)
    ensures Pow2(shift + 7) == 128 * Pow2(shift)
  {
    assert Pow2(shift + 7) == 2 * Pow2(shift + 6) == 4 * Pow2(shift + 5) == 8 * Pow2(shift + 4);
    assert Pow2(shift + 4) == 2 * Pow2(shift + 3) == 4 * Pow2(shift + 2) == 8 * Pow2(shift + 1);
  }

  lemma ReadRound(data: Bytes, offset: nat, limit: nat, result: nat, shift: nat)
    requires offset < |data| && limit > 0 && result < Pow2(shift)
    ensures var d := data[offset] as int % 128;
      var more := BitOr(result, d * Pow2(shift));
      && more < Pow2(shift + 7)
      && Continued(result, shift, Leb(data, offset, limit)) ==
           if Continues(data[offset]) then Continued(more, shift + 7, Leb(data, offset + 1, limit - 1))
           else Some((more, offset + 1))
  {
    var d := data[offset] as int % 128;
    var p := Pow2(shift);
    OrAdds(result, d, shift);
    ShiftSeven(shift);
    LowBitsFit(result, d, p);
    hide BitOr, Pow2;
    match Leb(data, offset + 1, limit - 1)
    case None =>
    case Some((high, end)) => Distribute(d, high, p);
  }

  lemma LowBitsFit(result: nat, d: nat, p: nat)
    requires result < p && d < 128
    ensures result + d * p < 128 * p
  {
    assert d * p <= 127 * p;
  }

  lemma Distribute(d: nat, high: nat, p: nat)
    ensures (d + 128 * high) * p == d * p + high * (128 * p)
  {
  }

  /** Reading succeeds exactly on a well-formed number of at most six bytes, with its value. */
  lemma {:induction false} ReadsExactly(data: Bytes, offset: nat, limit: nat, value: nat, end: nat)
    ensures Leb(data, offset, limit) == Some((value, end)) <==>
      && offset < end <= |data| && end - offset <= limit
      && IsLeb(data[offset..end]) && value == LebValue(data[offset..end])
    decreases limit
  {
    if offset < |data| && limit > 0 {
      if offset < end <= |data| {
        var bs := data[offset..end];
        assert bs[1..] == data[offset + 1..end];
        if end == offset + 1 {
          assert LebValue(bs) == data[offset] as int % 128 + 128 * LebValue([]);
        }
        if Continues(data[offset]) {
          ReadsOn(data, offset, limit, value, end);
        } else if end > offset + 1 {
          assert !Continues(bs[0]);
        }
      } else {
        EndsInside(data, offset, limit);
      }
    }
  }

  lemma ReadsOn(data: Bytes, offset: nat, limit: nat, value: nat, end: nat)
    requires offset < end <= |data| && limit > 0 && Continues(data[offset])
    ensures Leb(data, offset, limit) == Some((value, end)) <==>
      end - offset <= limit && IsLeb(data[offset..end]) && value == LebValue(data[offset..end])
    decreases limit, 0
  {
    var d := data[offset] as int % 128;
    var bs := data[offset..end];
    assert bs[1..] == data[offset + 1..end];
    var high := (value - d) / 128;
    EndsInside(data, offset + 1, limit - 1);
    if offset + 1 < end {
      LebGoesOn(bs);
      if high >= 0 {
        ReadsExactly(data, offset + 1, limit - 1, high, end);
      }
      ReadsExactly(data, offset + 1, limit - 1, LebValue(bs[1..]), end);
    } else {
      assert bs == [data[offset]];
    }
  }

  lemma LebGoesOn(bs: Bytes)
    requires |bs| > 1 && Continues(bs[0])
    ensures IsLeb(bs) <==> IsLeb(bs[1..])
  {
    if IsLeb(bs[1..]) {
      forall i | 0 <= i < |bs| - 1 ensures Continues(bs[i]) {
        assert i > 0 ==> bs[i] == bs[1..][i - 1];
      }
    }
  }

  lemma {:induction false} EndsInside(data: Bytes, offset: nat, limit: nat)
    ensures Leb(data, offset, limit).Some? ==> offset < Leb(data, offset, limit).value.1 <= |data|
    decreases limit
  {
    if offset < |data| && limit > 0 {
      EndsInside(data, offset + 1, limit - 1);
    }
  }

  lemma {:induction false} EncodeIsLeb(n: nat)
    ensures IsLeb(Encode(n)) && LebValue(Encode(n)) == n
  {
    if n >= 128 {
      EncodeIsLeb(n / 128);
      LebGoesOn(Encode(n));
      assert Encode(n)[1..] == Encode(n / 128);
    } else {
      assert Encode(n) == [n as byte];
    }
  }

  function Pow128(k: nat): (p: nat)
    ensures p > 0
  {
    if k == 0 then 1 else 128 * Pow128(k - 1)
  }

  lemma {:induction false} EncodedLength(n: nat, k: nat)
    requires k > 0
    ensures |Encode(n)| <= k <==> n < Pow128(k)
    decreases k
  {
    if k == 1 {
      assert Pow128(1) == 128 * Pow128(0);
    } else if n >= 128 {
      EncodedLength(n / 128, k - 1);
    } else {
      assert 1 <= Pow128(k - 1);
    }
  }

  /** Reading inverts the encoding, followed by anything, exactly below 2^42. */
  lemma ReadInvertsEncode(before: Bytes, n: nat, after: Bytes)
    ensures var data := before + Encode(n) + after;
      Leb(data, |before|, MAX_BYTES) ==
        if n < 0x400_0000_0000 then Some((n, |before| + |Encode(n)|)) else None
  {
    var data := before + Encode(n) + after;
    var end := |before| + |Encode(n)|;
    assert data[|before|..end] == Encode(n);
    EncodeIsLeb(n);
    EncodedLength(n, MAX_BYTES);
    assert Pow128(6) == 0x400_0000_0000;
    ReadsExactly(data, |before|, MAX_BYTES, n, end);
    var r := Leb(data, |before|, MAX_BYTES);
    if r.Some? {
      ReadsExactly(data, |before|, MAX_BYTES, r.value.0, r.value.1);
      OneNumber(data, |before|, end, r.value.1);
    }
  }

  /** At most one number starts at an offset. */
  lemma OneNumber(data: Bytes, start: nat, e: nat, f: nat)
    requires start < e <= |data| && start < f <= |data|
    requires IsLeb(data[start..e]) && IsLeb(data[start..f])
    ensures e == f
  {
    if e < f {
      NoShorter(data, start, e, f);
    } else if f < e {
      NoShorter(data, start, f, e);
    }
  }

  lemma NoShorter(data: Bytes, start: nat, e: nat, f: nat)
    requires start < e < f <= |data| && IsLeb(data[start..f])
    ensures !IsLeb(data[start..e])
  {
    assert Continues(data[start..f][e - 1 - start]);
    assert data[start..e][|data[start..e]| - 1] == data[e - 1];
  }

  // ---------------------------------------------------------------------------
  // Sections
  // ---------------------------------------------------------------------------

  const PAGE := 65536
  const MAGIC: Bytes := [0x00, 0x61, 0x73, 0x6D]
  const MEMORY_SECTION: byte := 5

  datatype Limits = Limits(initialPages: nat, maximumPages: nat, initialBytes: nat, maximumBytes: nat)

  function LimitsOf(initial: nat, maximum: nat): Limits {
    Limits(initial, maximum, initial * PAGE, maximum * PAGE)
  }

  /** The limits at an offset, after the section's size: a count, flags, and one or two numbers. */
  function MemoryAt(data: Bytes, offset: nat): Option<Limits> {
    match Leb(data, offset, MAX_BYTES)
    case None => None
    case Some((count, flagsAt)) =>
      if count < 1 || flagsAt >= |data| then None
      else match Leb(data, flagsAt + 1, MAX_BYTES)
        case None => None
        case Some((initial, end)) =>
          if data[flagsAt] as int % 2 == 0 then Some(LimitsOf(initial, 0))
          else match Leb(data, end, MAX_BYTES)
            case None => None
            case Some((maximum, _)) => Some(LimitsOf(initial, maximum))
  }

  /** The first memory section from an offset on. */
  function Walk(data: Bytes, offset: nat): Option<Limits>
    decreases |data| - offset
  {
    if offset >= |data| then None
    else match Leb(data, offset + 1, MAX_BYTES)
      case None => None
      case Some((size, content)) =>
        EndsInside(data, offset + 1, MAX_BYTES);
        if data[offset] == MEMORY_SECTION then MemoryAt(data, content) else Walk(data, content + size)
  }

  function LinearMemory(data: Bytes): Option<Limits> {
    if |data| < 8 || data[..4] != MAGIC then None else Walk(data, 8)
  }

  method ParseMemorySection(data: Bytes, start: nat) returns (r: Option<Limits>)
    ensures r == MemoryAt(data, start)
  {
    var count := ReadLeb128(data, start);
    if count.None? || count.value.0 < 1 {
      return None;
    }
    var offset := count.value.1;
    if offset >= |data| {
      return None;
    }
    var flags := data[offset];
    var initial := ReadLeb128(data, offset + 1);
    if initial.None? {
      return None;
    }
    var maxPages := 0;
    if flags as int % 2 == 1 {
      var maximum := ReadLeb128(data, initial.value.1);
      if maximum.None? {
        return None;
      }
      maxPages := maximum.value.0;
    }
    return Some(
      Limits(initial.value.0, maxPages, initial.value.0 * PAGE, if maxPages != 0 then maxPages * PAGE else 0));
  }

  method ParseWasmLinearMemory(data: Bytes) returns (r: Option<Limits>)
    ensures r == LinearMemory(data)
  {
    if |data| < 8 || data[..4] != MAGIC {
      return None;
    }
    var offset := 8;
    while offset < |data|
      invariant Walk(data, 8) == Walk(data, offset)
      decreases |data| - offset
    {
      var sectionId := data[offset];
      EndsInside(data, offset + 1, MAX_BYTES);
      var size := ReadLeb128(data, offset + 1);
      if size.None? {
        return None;
      }
      var sectionEnd := size.value.1 + size.value.0;
      if sectionId == MEMORY_SECTION {
        r := ParseMemorySection(data, size.value.1);
        return;
      }
      offset := sectionEnd;
    }
    return None;
  }

  /** A number written in at most six bytes, not necessarily the fewest. */
  predicate Writes(bs: Bytes, n: nat) {
    IsLeb(bs) && |bs| <= 6 && LebValue(bs) == n
  }

  datatype Section = Section(id: byte, size: Bytes, content: Bytes)

  ghost predicate EarlierSection(s: Section) {
    s.id != 5 && Writes(s.size, |s.content|)
  }

  function Print(s: Section): Bytes { [s.id] + s.size + s.content }

  function PrintAll(ss: seq<Section>): Bytes {
    if ss == [] then [] else Print(ss[0]) + PrintAll(ss[1..])
  }

  datatype Memory = Memory(size: Bytes, count: Bytes, flags: byte, initial: Bytes, maximum: Bytes)

  function PrintMemory(m: Memory): Bytes {
    [5] + m.size + m.count + [m.flags] + m.initial + m.maximum
  }

  ghost predicate MemorySection(m: Memory, initial: nat, maximum: nat) {
    && (exists size :: Writes(m.size, size)) && (exists count :: count > 0 && Writes(m.count, count))
    && Writes(m.initial, initial)
    && if m.flags as int % 2 == 1 then Writes(m.maximum, maximum) else m.maximum == [] && maximum == 0
  }

  ghost predicate Occurs(data: Bytes, offset: nat, part: Bytes) {
    offset + |part| <= |data| && forall i :: 0 <= i < |part| ==> data[offset + i] == part[i]
  }

  lemma OccursSplit(data: Bytes, offset: nat, a: Bytes, b: Bytes)
    requires Occurs(data, offset, a + b)
    ensures Occurs(data, offset, a) && Occurs(data, offset + |a|, b)
  {
    forall i | 0 <= i < |a| ensures data[offset + i] == a[i] {
      assert (a + b)[i] == a[i];
    }
    forall i | 0 <= i < |b| ensures data[offset + |a| + i] == b[i] {
      assert data[offset + (|a| + i)] == (a + b)[|a| + i];
    }
  }

  lemma ReadsWritten(data: Bytes, offset: nat, bs: Bytes, n: nat)
    requires Writes(bs, n) && Occurs(data, offset, bs)
    ensures Leb(data, offset, MAX_BYTES) == Some((n, offset + |bs|))
  {
    assert data[offset..offset + |bs|] == bs;
    ReadsExactly(data, offset, MAX_BYTES, n, offset + |bs|);
  }

  /** Where the five parts of a memory section lie. */
  lemma MemoryParts(data: Bytes, offset: nat, m: Memory)
    requires Occurs(data, offset, PrintMemory(m))
    ensures var a := offset + 1;
      var b := a + |m.size|;
      var c := b + |m.count|;
      var d := c + 1 + |m.initial|;
      && Occurs(data, offset, [5]) && Occurs(data, a, m.size) && Occurs(data, b, m.count)
      && Occurs(data, c, [m.flags]) && Occurs(data, c + 1, m.initial) && Occurs(data, d, m.maximum)
  {
    hide Occurs;
    var p: Bytes := [5];
    OccursSplit(data, offset, p + m.size + m.count + [m.flags] + m.initial, m.maximum);
    OccursSplit(data, offset, p + m.size + m.count + [m.flags], m.initial);
    OccursSplit(data, offset, p + m.size + m.count, [m.flags]);
    OccursSplit(data, offset, p + m.size, m.count);
    OccursSplit(data, offset, p, m.size);
  }

  lemma ByteAt(data: Bytes, offset: nat, b: byte)
    requires Occurs(data, offset, [b])
    ensures offset < |data| && data[offset] == b
  {
    assert data[offset + 0] == [b][0];
  }

  lemma ReadsMemory(data: Bytes, offset: nat, m: Memory, initial: nat, maximum: nat)
    requires MemorySection(m, initial, maximum) && Occurs(data, offset, PrintMemory(m))
    ensures Walk(data, offset) == Some(LimitsOf(initial, maximum))
  {
    hide Occurs, Leb, LimitsOf, Writes, PrintMemory;
    var size :| Writes(m.size, size);
    var count :| count > 0 && Writes(m.count, count);
    var a := offset + 1;
    var b := a + |m.size|;
    var c := b + |m.count|;
    MemoryParts(data, offset, m);
    ByteAt(data, offset, 5);
    ByteAt(data, c, m.flags);
    ReadsWritten(data, a, m.size, size);
    ReadsWritten(data, b, m.count, count);
    ReadsWritten(data, c + 1, m.initial, initial);
    if m.flags as int % 2 == 1 {
      ReadsWritten(data, c + 1 + |m.initial|, m.maximum, maximum);
    }
  }

  lemma StepsOver(data: Bytes, offset: nat, s: Section)
    requires EarlierSection(s) && Occurs(data, offset, Print(s))
    ensures Walk(data, offset) == Walk(data, offset + |Print(s)|)
  {
    hide Occurs, Leb, MemoryAt, Writes;
    OccursSplit(data, offset, [s.id] + s.size, s.content);
    OccursSplit(data, offset, [s.id], s.size);
    ByteAt(data, offset, s.id);
    ReadsWritten(data, offset + 1, s.size, |s.content|);
  }

  lemma {:induction false} WalksTo(data: Bytes, offset: nat, ss: seq<Section>)
    requires forall s :: s in ss ==> EarlierSection(s)
    requires Occurs(data, offset, PrintAll(ss))
    ensures Walk(data, offset) == Walk(data, offset + |PrintAll(ss)|)
    decreases |ss|
  {
    hide Occurs, EarlierSection, Print, Walk;
    if ss != [] {
      OccursSplit(data, offset, Print(ss[0]), PrintAll(ss[1..]));
      StepsOver(data, offset, ss[0]);
      WalksTo(data, offset + |Print(ss[0])|, ss[1..]);
    }
  }

  /** A module up to its first memory section, with these limits. */
  ghost predicate Module(data: Bytes, version: Bytes, earlier: seq<Section>, m: Memory, rest: Bytes, l: Limits) {
    && |version| == 4 && (forall s :: s in earlier ==> EarlierSection(s))
    && data == [0x00, 0x61, 0x73, 0x6D] + version + PrintAll(earlier) + PrintMemory(m) + rest
    && MemorySection(m, l.initialPages, l.maximumPages)
    && l.initialBytes == l.initialPages * 65536 && l.maximumBytes == l.maximumPages * 65536
  }

  /** Whatever sections come first, the limits are those of the first memory section. */
  lemma FirstMemorySectionFound(
      data: Bytes, version: Bytes, earlier: seq<Section>, m: Memory, rest: Bytes, l: Limits)
    requires Module(data, version, earlier, m, rest, l)
    ensures LinearMemory(data) == Some(l)
  {
    hide Walk, PrintMemory, PrintAll, MemorySection, EarlierSection;
    var sections, memory := PrintAll(earlier), PrintMemory(m);
    assert data[..4] == MAGIC;
    assert Occurs(data, 8, sections) && Occurs(data, 8 + |sections|, memory);
    WalksTo(data, 8, earlier);
    ReadsMemory(data, 8 + |sections|, m, l.initialPages, l.maximumPages);
  }

  lemma WrittenWhereRead(data: Bytes, offset: nat)
    ensures var r := Leb(data, offset, MAX_BYTES);
      r.Some? ==> offset < r.value.1 <= |data| && Writes(data[offset..r.value.1], r.value.0)
  {
    var r := Leb(data, offset, MAX_BYTES);
    if r.Some? {
      EndsInside(data, offset, MAX_BYTES);
      ReadsExactly(data, offset, MAX_BYTES, r.value.0, r.value.1);
    }
  }

  lemma {:induction false} SectionsOf(data: Bytes, offset: nat, l: Limits)
      returns (earlier: seq<Section>, m: Memory, rest: Bytes)
    requires offset <= |data| && Walk(data, offset) == Some(l)
    ensures forall s :: s in earlier ==> EarlierSection(s)
    ensures MemorySection(m, l.initialPages, l.maximumPages)
    ensures l == LimitsOf(l.initialPages, l.maximumPages)
    ensures data[offset..] == PrintAll(earlier) + PrintMemory(m) + rest
    decreases |data| - offset
  {
    hide Leb, Writes, PrintMemory, PrintAll, MemorySection, MemoryAt;
    WrittenWhereRead(data, offset + 1);
    var (size, content) := Leb(data, offset + 1, MAX_BYTES).value;
    if data[offset] == 5 {
      m, rest := MemoryOf(data, offset, l);
      earlier := [];
      NoSections();
      assert data[offset..] == [] + PrintMemory(m) + rest;
    } else {
      StopsAtEnd(data, content + size);
      var s := Section(data[offset], data[offset + 1..content], data[content..content + size]);
      earlier, m, rest := SectionsOf(data, content + size, l);
      SectionFirst(data, offset, content, content + size, earlier, m, rest);
      earlier := [s] + earlier;
    }
  }

  lemma StopsAtEnd(data: Bytes, offset: nat)
    ensures offset >= |data| ==> Walk(data, offset) == None
  {
  }

  lemma NoSections()
    ensures PrintAll([]) == []
  {
  }

  lemma SectionFirst(
      data: Bytes, offset: nat, content: nat, end: nat, earlier: seq<Section>, m: Memory, rest: Bytes)
    requires offset < content <= end <= |data|
    requires data[end..] == PrintAll(earlier) + PrintMemory(m) + rest
    ensures var s := Section(data[offset], data[offset + 1..content], data[content..end]);
      data[offset..] == PrintAll([s] + earlier) + PrintMemory(m) + rest
  {
    hide PrintMemory;
    var s := Section(data[offset], data[offset + 1..content], data[content..end]);
    assert ([s] + earlier)[1..] == earlier;
    assert data[offset..] == Print(s) + data[end..];
    assert PrintAll([s] + earlier) == Print(s) + PrintAll(earlier);
  }

  lemma MemoryOf(data: Bytes, offset: nat, l: Limits) returns (m: Memory, rest: Bytes)
    requires offset < |data| && data[offset] == 5 && Walk(data, offset) == Some(l)
    ensures MemorySection(m, l.initialPages, l.maximumPages) && l == LimitsOf(l.initialPages, l.maximumPages)
    ensures data[offset..] == PrintMemory(m) + rest
  {
    hide Leb, Writes;
    WrittenWhereRead(data, offset + 1);
    var b := Leb(data, offset + 1, MAX_BYTES).value.1;
    WrittenWhereRead(data, b);
    var c := Leb(data, b, MAX_BYTES).value.1;
    WrittenWhereRead(data, c + 1);
    var d := Leb(data, c + 1, MAX_BYTES).value.1;
    var e := d;
    if data[c] as int % 2 == 1 {
      WrittenWhereRead(data, d);
      e := Leb(data, d, MAX_BYTES).value.1;
    }
    m := Memory(data[offset + 1..b], data[b..c], data[c], data[c + 1..d], data[d..e]);
    rest := data[e..];
    MemoryCut(data, offset, b, c, d, e);
  }

  lemma MemoryCut(data: Bytes, offset: nat, b: nat, c: nat, d: nat, e: nat)
    requires offset < b <= c < d <= e <= |data| && data[offset] == 5
    ensures data[offset..] ==
      PrintMemory(Memory(data[offset + 1..b], data[b..c], data[c], data[c + 1..d], data[d..e])) + data[e..]
  {
  }

  /** Limits are read exactly from a module that has a memory section, and they are those of its first. */
  lemma LimitsMean(data: Bytes, l: Limits)
    ensures LinearMemory(data) == Some(l) <==>
      exists version, earlier, m, rest :: Module(data, version, earlier, m, rest, l)
  {
    hide Walk, PrintMemory, PrintAll, MemorySection, EarlierSection;
    if LinearMemory(data) == Some(l) {
      var earlier, m, rest := SectionsOf(data, 8, l);
      ModuleOf(data, earlier, m, rest, l);
    }
    forall version, earlier, m, rest | Module(data, version, earlier, m, rest, l)
      ensures LinearMemory(data) == Some(l)
    {
      FirstMemorySectionFound(data, version, earlier, m, rest, l);
    }
  }

  lemma ModuleOf(data: Bytes, earlier: seq<Section>, m: Memory, rest: Bytes, l: Limits)
    requires |data| >= 8 && data[..4] == MAGIC && data[8..] == PrintAll(earlier) + PrintMemory(m) + rest
    requires forall s :: s in earlier ==> EarlierSection(s)
    requires MemorySection(m, l.initialPages, l.maximumPages) && l == LimitsOf(l.initialPages, l.maximumPages)
    ensures Module(data, data[4..8], earlier, m, rest, l)
  {
    hide PrintMemory, PrintAll, MemorySection, EarlierSection;
    var sections, memory := PrintAll(earlier), PrintMemory(m);
    assert data == data[..4] + data[4..8] + data[8..];
    assert data == MAGIC + data[4..8] + sections + memory + rest;
  }

  /** Without a memory section there are no limits. */
  lemma NoMemorySection(version: Bytes, sections: seq<Section>)
    requires |version| == 4 && forall s :: s in sections ==> EarlierSection(s)
    ensures LinearMemory([0x00, 0x61, 0x73, 0x6D] + version + PrintAll(sections)) == None
  {
    hide PrintAll, EarlierSection;
    var data := MAGIC + version + PrintAll(sections);
    assert data[..4] == MAGIC;
    assert Occurs(data, 8, PrintAll(sections));
    WalksTo(data, 8, sections);
  }
}
