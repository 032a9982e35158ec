/** Base64 decoding (section 4 of RFC 4648) with a never-masked 32-bit accumulator. */
module Base64 {
  import opened Prelude
  import opened Text

  /** The value of an alphabet character, or -1. */
  function Digit(c: char): int {
    if 'A' <= c <= 'Z' then c as int - 'A' as int
    else if 'a' <= c <= 'z' then c as int - 'a' as int + 26
    else if '0' <= c <= '9' then c as int - '0' as int + 52
    else if c == '+' then 62
    else if c == '/' then 63
    else -1
  }

  predicate IsFiller(c: char) { c == '=' || IsSpace(c) }

  type Sextet = d: int | 0 <= d < 64

  // ---------------------------------------------------------------------------
  // What decoding means: four characters carry three octets
  // ---------------------------------------------------------------------------

  /** The characters that count: everything but padding and white space. */
  function Significant(s: string): string {
    if s == [] then [] else (if IsFiller(s[0]) then [] else [s[0]]) + Significant(s[1..])
  }

  predicate AllDigits(s: string) { forall i :: 0 <= i < |s| ==> Digit(s[i]) >= 0 }

  function Digits(s: string): (ds: seq<Sextet>)
    requires AllDigits(s)
    ensures |ds| == |s|
  {
    seq(|s|, i requires 0 <= i < |s| => Digit(s[i]) as Sextet)
  }

  function First(a: Sextet, b: Sextet): byte { (a * 4 + b / 16) as byte }
  function Second(b: Sextet, c: Sextet): byte { (b % 16 * 16 + c / 4) as byte }
  function Third(c: Sextet, d: Sextet): byte { (c % 4 * 64 + d) as byte }

  /** Octets of a digit string; the bits left over at its end are dropped. */
  function Octets(ds: seq<Sextet>): Bytes {
    if |ds| < 2 then []
    else if |ds| == 2 then [First(ds[0], ds[1])]
    else if |ds| == 3 then [First(ds[0], ds[1]), Second(ds[1], ds[2])]
    else [First(ds[0], ds[1]), Second(ds[1], ds[2]), Third(ds[2], ds[3])] + Octets(ds[4..])
  }

  function Decoded(s: string): Option<Bytes> {
    var body := Significant(s);
    if AllDigits(body) then Some(Octets(Digits(body))) else None
  }

  lemma {:induction false} OctetCount(ds: seq<Sextet>)
    ensures |Octets(ds)| == 6 * |ds| / 8
  {
    if |ds| >= 4 {
      OctetCount(ds[4..]);
    }
  }

  // ---------------------------------------------------------------------------
  // The loop
  // ---------------------------------------------------------------------------

  /** Two's complement 32-bit wrap-around. */
  function Wrap32(x: int): int {
    (x + 0x8000_0000) % 0x1_0000_0000 - 0x8000_0000
  }

  function ShiftRight(x: int, n: int): int
    requires n == 0 || n == 2 || n == 4
  {
    if n == 4 then x / 16 else if n == 2 then x / 4 else x
  }

  /** The unbounded integer whose base-64 digits these are. */
  function Value(ds: seq<Sextet>): nat {
    if ds == [] then 0 else Value(ds[..|ds| - 1]) * 64 + ds[|ds| - 1]
  }

  /** The octet that one more digit completes, if any. */
  function Completed(ds: seq<Sextet>, d: Sextet): Bytes {
    match |ds| % 4
    case 0 => []
    case 1 => [First(ds[|ds| - 1], d)]
    case 2 => [Second(ds[|ds| - 1], d)]
    case _ => [Third(ds[|ds| - 1], d)]
  }

  function Head(ds: seq<Sextet>): Bytes
    requires |ds| >= 4
  {
    [First(ds[0], ds[1]), Second(ds[1], ds[2]), Third(ds[2], ds[3])]
  }

  lemma OctetsOfMany(ds: seq<Sextet>)
    requires |ds| >= 4
    ensures Octets(ds) == Head(ds) + Octets(ds[4..])
  {
    hide First, Second, Third;
  }

  lemma SameCompleted(ds: seq<Sextet>, d: Sextet)
    requires |ds| >= 4
    ensures Completed(ds[4..], d) == Completed(ds, d)
  {
    hide First, Second, Third;
    var rest := ds[4..];
    assert rest != [] ==> rest[|rest| - 1] == ds[|ds| - 1];
  }

  lemma {:induction false} OneMoreDigit(ds: seq<Sextet>, d: Sextet)
    ensures Octets(ds + [d]) == Octets(ds) + Completed(ds, d)
  {
    hide First, Second, Third, Completed, Octets;
    if |ds| >= 4 {
      var more, rest := ds + [d], ds[4..];
      OctetsOfMany(more);
      OctetsOfMany(ds);
      assert Head(more) == Head(ds);
      assert more[4..] == rest + [d];
      OneMoreDigit(rest, d);
      SameCompleted(ds, d);
      Associate(Head(ds), Octets(rest), Completed(ds, d));
    } else {
      OneMoreOfFew(ds, d);
    }
  }

  lemma OneMoreOfFew(ds: seq<Sextet>, d: Sextet)
    requires |ds| < 4
    ensures Octets(ds + [d]) == Octets(ds) + Completed(ds, d)
  {
    match |ds|
    case 0 => assert Completed(ds, d) == [];
    case 1 => OneMoreOfOne(ds, d);
    case 2 => OneMoreOfTwo(ds, d);
    case _ => OneMoreOfThree(ds, d);
  }

  lemma OneMoreOfOne(ds: seq<Sextet>, d: Sextet)
    requires |ds| == 1
    ensures Octets(ds + [d]) == Octets(ds) + Completed(ds, d)
  {
    assert ds == [ds[0]] && ds + [d] == [ds[0], d];
    ExtendOne(ds[0], d);
  }

  lemma OneMoreOfTwo(ds: seq<Sextet>, d: Sextet)
    requires |ds| == 2
    ensures Octets(ds + [d]) == Octets(ds) + Completed(ds, d)
  {
    assert ds == [ds[0], ds[1]] && ds + [d] == [ds[0], ds[1], d];
    ExtendTwo(ds[0], ds[1], d);
  }

  lemma OneMoreOfThree(ds: seq<Sextet>, d: Sextet)
    requires |ds| == 3
    ensures Octets(ds + [d]) == Octets(ds) + Completed(ds, d)
  {
    assert ds == [ds[0], ds[1], ds[2]] && ds + [d] == [ds[0], ds[1], ds[2], d];
    ExtendThree(ds[0], ds[1], ds[2], d);
  }

  lemma ExtendOne(a: Sextet, d: Sextet)
    ensures Octets([a, d]) == Octets([a]) + Completed([a], d)
  {
  }

  lemma ExtendTwo(a: Sextet, b: Sextet, d: Sextet)
    ensures Octets([a, b, d]) == Octets([a, b]) + Completed([a, b], d)
  {
  }

  lemma ExtendThree(a: Sextet, b: Sextet, c: Sextet, d: Sextet)
    ensures Octets([a, b, c, d]) == Octets([a, b, c]) + Completed([a, b, c], d)
  {
    assert [a, b, c, d][4..] == [];
  }

  /** The digits read so far leave the low bits of the value in the accumulator. */
  lemma LowBits(ds: seq<Sextet>, d: Sextet)
    requires ds != []
    ensures var v := Value(ds + [d]);
      && v / 16 % 256 == First(ds[|ds| - 1], d) as int
      && v / 4 % 256 == Second(ds[|ds| - 1], d) as int
      && v % 256 == Third(ds[|ds| - 1], d) as int
  {
    hide Value;
    var init, e := ds[..|ds| - 1], ds[|ds| - 1];
    assert ds == init + [e];
    ValueOfMore(init, e);
    ValueOfMore(ds, d);
    LowBitsOf(Value(init), e, d);
  }

  lemma LowBitsOf(w: nat, e: int, d: int)
    requires 0 <= e < 64 && 0 <= d < 64
    ensures var v := (w * 64 + e) * 64 + d;
      && v / 16 % 256 == e * 4 + d / 16
      && v / 4 % 256 == e % 16 * 16 + d / 4
      && v % 256 == e % 4 * 64 + d
  {
    var v := (w * 64 + e) * 64 + d;
    Quotient16(v, w * 256 + (e * 4 + d / 16), d % 16);
    Remainder256(v / 16, w, e * 4 + d / 16);
    Quotient4(v, (w * 4 + e / 16) * 256 + (e % 16 * 16 + d / 4), d % 4);
    Remainder256(v / 4, w * 4 + e / 16, e % 16 * 16 + d / 4);
    Remainder256(v, w * 16 + e / 4, e % 4 * 64 + d);
  }

  lemma Quotient16(x: int, q: int, r: int)
    requires x == q * 16 + r && 0 <= r < 16
    ensures x / 16 == q
  {
  }

  lemma Quotient4(x: int, q: int, r: int)
    requires x == q * 4 + r && 0 <= r < 4
    ensures x / 4 == q
  {
  }

  lemma Remainder256(x: int, q: int, r: int)
    requires x == q * 256 + r && 0 <= r < 256
    ensures x % 256 == r
  {
  }

  /** Wrapping keeps everything the loop will ever look at. */
  lemma WrapKeepsLowBits(x: int, y: int)
    requires Congruent(x, y)
    ensures x / 16 % 256 == y / 16 % 256 && x / 4 % 256 == y / 4 % 256 && x % 256 == y % 256
  {
    var k := (x - y) / 0x1_0000_0000;
    Quotient16(x, y / 16 + k * 0x1000_0000, y % 16);
    Remainder256(x / 16, y / 16 / 256 + k * 0x10_0000, y / 16 % 256);
    Quotient4(x, y / 4 + k * 0x4000_0000, y % 4);
    Remainder256(x / 4, y / 4 / 256 + k * 0x40_0000, y / 4 % 256);
    Remainder256(x, y / 256 + k * 0x100_0000, y % 256);
  }

  lemma WrapStep(val: int, v: int, d: int)
    requires Congruent(val, v)
    ensures Congruent(Wrap32(Wrap32(val * 64) + d), v * 64 + d)
  {
    var k := (val - v) / 0x1_0000_0000;
    assert val == v + k * 0x1_0000_0000;
    var a := Wrap32(val * 64);
    var j := (val * 64 + 0x8000_0000) / 0x1_0000_0000;
    assert a == val * 64 - j * 0x1_0000_0000;
    var i := (a + d + 0x8000_0000) / 0x1_0000_0000;
    assert Wrap32(a + d) == a + d - i * 0x1_0000_0000;
    assert Wrap32(a + d) - (v * 64 + d) == (64 * k - j - i) * 0x1_0000_0000;
  }

  /** Bits waiting in the accumulator beyond whole octets, less eight. */
  function Pending(n: nat): int {
    match n % 4 case 0 => -8 case 1 => -2 case 2 => -4 case _ => -6
  }

  lemma {:induction false} SignificantConcat(s: string, t: string)
    ensures Significant(s + t) == Significant(s) + Significant(t)
  {
    if s == [] {
      assert s + t == t;
    } else {
      assert (s + t)[1..] == s[1..] + t;
      SignificantConcat(s[1..], t);
    }
  }

  lemma OneMoreChar(input: string, i: nat)
    requires i < |input|
    ensures Significant(input[..i + 1]) ==
      Significant(input[..i]) + (if IsFiller(input[i]) then [] else [input[i]])
  {
    assert input[..i + 1] == input[..i] + [input[i]];
    SignificantConcat(input[..i], [input[i]]);
    assert [input[i]][1..] == [];
  }

  lemma SignificantPrefix(input: string, i: nat)
    requires i <= |input|
    ensures Significant(input[..i]) <= Significant(input)
  {
    assert input == input[..i] + input[i..];
    SignificantConcat(input[..i], input[i..]);
  }

  /** The state of the loop after the first i characters, whose digits are ds. */
  ghost predicate Consumed(input: string, i: nat, ds: seq<Sextet>) {
    && i <= |input|
    && AllDigits(Significant(input[..i]))
    && ds == Digits(Significant(input[..i]))
  }

  method Decode(input: string) returns (r: Result<Bytes, string>)
    ensures Decoded(input).Some? ==> r == Ok(Decoded(input).value)
    ensures Decoded(input).None? ==> r.Err?
  {
    hide Octets, Value, Wrap32, Significant, Congruent;
    var output: Bytes := [];
    var val := 0;
    var valb := -8;
    ghost var ds: seq<Sextet> := [];
    var i := 0;
    NothingConsumed(input);
    while i < |input|
      invariant Consumed(input, i, ds)
      invariant output == Octets(ds) && Congruent(val, Value(ds)) && valb == Pending(|ds|)
    {
      var c := input[i];
      if IsFiller(c) {
        FillerConsumed(input, i, ds);
        i := i + 1;
        continue;
      }
      var d := Digit(c);
      if d < 0 {
        Stranger(input, i);
        return Err("invalid base64 in compressed directives");
      }
      DigitConsumed(input, i, ds);
      PendingStep(|ds|);
      DigitStep(ds, d, val);
      val := Wrap32(Wrap32(val * 64) + d);
      valb := valb + 6;
      ds := ds + [d];
      if valb >= 0 {
        output := output + [(ShiftRight(val, valb) % 256) as byte];
        valb := valb - 8;
      }
      i := i + 1;
    }
    assert input[..i] == input;
    return Ok(output);
  }

  lemma NothingConsumed(input: string)
    ensures Consumed(input, 0, []) && Octets([]) == [] && Congruent(0, Value([]))
  {
    assert input[..0] == [];
    assert Digits([]) == [];
  }

  lemma PendingStep(n: nat)
    ensures Pending(n) + 6 >= 0 <==> n % 4 != 0
    ensures Pending(n + 1) == (if n % 4 == 0 then Pending(n) + 6 else Pending(n) - 2)
  {
  }

  lemma FillerConsumed(input: string, i: nat, ds: seq<Sextet>)
    requires i < |input| && IsFiller(input[i]) && Consumed(input, i, ds)
    ensures Consumed(input, i + 1, ds)
  {
    OneMoreChar(input, i);
    assert Significant(input[..i]) + [] == Significant(input[..i]);
  }

  lemma DigitConsumed(input: string, i: nat, ds: seq<Sextet>)
    requires i < |input| && !IsFiller(input[i]) && Digit(input[i]) >= 0 && Consumed(input, i, ds)
    ensures Consumed(input, i + 1, ds + [Digit(input[i])])
  {
    OneMoreChar(input, i);
  }

  ghost predicate Congruent(x: int, y: int) { (x - y) % 0x1_0000_0000 == 0 }

  lemma Stranger(input: string, i: nat)
    requires i < |input| && !IsFiller(input[i]) && Digit(input[i]) < 0
    ensures !AllDigits(Significant(input))
  {
    OneMoreChar(input, i);
    SignificantPrefix(input, i + 1);
    var body := Significant(input[..i + 1]);
    assert Significant(input)[|body| - 1] == body[|body| - 1] == input[i];
  }

  /** One digit: the new value, and the octet it completes, if any. */
  lemma DigitStep(ds: seq<Sextet>, d: Sextet, val: int)
    requires Congruent(val, Value(ds))
    ensures var val' := Wrap32(Wrap32(val * 64) + d);
      && Congruent(val', Value(ds + [d]))
      && Octets(ds + [d]) == Octets(ds) +
           (if |ds| % 4 == 0 then []
            else [(ShiftRight(val', Pending(|ds|) + 6) % 256) as byte])
  {
    var val' := Wrap32(Wrap32(val * 64) + d);
    assert (ds + [d])[..|ds|] == ds;
    WrapStep(val, Value(ds), d);
    OneMoreDigit(ds, d);
    if ds != [] {
      ShiftedOctet(ds, d, val');
    }
  }

  lemma ShiftedOctet(ds: seq<Sextet>, d: Sextet, val': int)
    requires ds != [] && Congruent(val', Value(ds + [d]))
    ensures |ds| % 4 != 0 ==> Completed(ds, d) == [(ShiftRight(val', Pending(|ds|) + 6) % 256) as byte]
  {
    hide Value, First, Second, Third, Congruent;
    var v, e := Value(ds + [d]), ds[|ds| - 1];
    WrapKeepsLowBits(val', v);
    LowBits(ds, d);
    match |ds| % 4
    case 0 =>
    case 1 => SameOctet(val' / 16, First(e, d));
    case 2 => SameOctet(val' / 4, Second(e, d));
    case _ => SameOctet(val', Third(e, d));
  }

  lemma SameOctet(x: int, b: byte)
    requires x % 256 == b as int
    ensures (x % 256) as byte == b
  {
  }

  // ---------------------------------------------------------------------------
  // What the result says
  // ---------------------------------------------------------------------------

  /** Padding, and white space of the C locale. */
  predicate IsPadOrWhite(c: char) { c as int == 0x3D || c as int == 0x20 || 0x09 <= c as int <= 0x0D }

  /** The alphabet of section 4 of RFC 4648. */
  predicate IsAlphabet(c: char) {
    || 0x41 <= c as int <= 0x5A || 0x61 <= c as int <= 0x7A || 0x30 <= c as int <= 0x39
    || c as int == 0x2B || c as int == 0x2F
  }

  /** A text without its padding and white space. */
  function Stripped(s: string): string {
    if s == "" then "" else (if IsPadOrWhite(s[0]) then "" else [s[0]]) + Stripped(s[1..])
  }

  lemma {:induction false} SignificantIsStripped(s: string)
    ensures Significant(s) == Stripped(s)
  {
    if s != "" {
      SignificantIsStripped(s[1..]);
    }
  }

  /**
   * Decoding fails exactly on a character outside the alphabet that is neither padding nor white space; every
   * four others give three octets, and two or three that are left over give one or two.
   */
  lemma {:induction false} FailsExactlyOnStrangers(s: string)
    ensures Decoded(s).None? <==> exists c :: c in s && !IsPadOrWhite(c) && !IsAlphabet(c)
    ensures Decoded(s).Some? ==> |Decoded(s).value| == 6 * |Stripped(s)| / 8
  {
    SignificantMembers(s);
    SignificantIsStripped(s);
    var body := Significant(s);
    if !AllDigits(body) {
      var i :| 0 <= i < |body| && Digit(body[i]) < 0;
      assert body[i] in body;
    } else {
      OctetCount(Digits(body));
    }
  }

  lemma {:induction false} SignificantMembers(s: string)
    ensures forall c :: c in Significant(s) <==> c in s && !IsFiller(c)
  {
    if s != [] {
      SignificantMembers(s[1..]);
    }
  }

  /** The unbounded integer of the octets, in base 256. */
  function OctetValue(bs: Bytes): nat {
    if bs == [] then 0 else OctetValue(bs[..|bs| - 1]) * 256 + bs[|bs| - 1] as int
  }

  function LeftOver(n: nat): nat {
    match n % 4 case 0 => 1 case 1 => 64 case 2 => 16 case _ => 4
  }

  /** The decoder computes with unbounded integers: the octets are the digits' value, less the left-over bits. */
  lemma {:induction false} OctetsAreTheValue(ds: seq<Sextet>)
    ensures OctetValue(Octets(ds)) == Value(ds) / LeftOver(|ds|)
  {
    if ds != [] {
      var init, d := ds[..|ds| - 1], ds[|ds| - 1];
      OctetsAreTheValue(init);
      assert ds == init + [d];
      if init == [] {
        assert Value(ds) == d;
      } else {
        MoreOctetsMoreValue(init, d);
      }
    }
  }

  lemma MoreOctetsMoreValue(init: seq<Sextet>, d: Sextet)
    requires init != [] && OctetValue(Octets(init)) == Value(init) / LeftOver(|init|)
    ensures OctetValue(Octets(init + [d])) == Value(init + [d]) / LeftOver(|init| + 1)
  {
    hide Value, First, Second, Third, Octets, OctetValue, LeftOver;
    OneMoreDigit(init, d);
    var e, v, v' := init[|init| - 1], Value(init), Value(init + [d]);
    ValueStep(init, d);
    LeftOverStep(|init|);
    var bs := Octets(init);
    if |init| % 4 == 0 {
      assert bs + [] == bs;
    } else if |init| % 4 == 1 {
      OctetValueStep(bs, First(e, d));
    } else if |init| % 4 == 2 {
      OctetValueStep(bs, Second(e, d));
    } else {
      OctetValueStep(bs, Third(e, d));
    }
  }

  lemma LeftOverStep(n: nat)
    ensures n % 4 == 0 ==> LeftOver(n) == 1 && LeftOver(n + 1) == 64
    ensures n % 4 == 1 ==> LeftOver(n) == 64 && LeftOver(n + 1) == 16
    ensures n % 4 == 2 ==> LeftOver(n) == 16 && LeftOver(n + 1) == 4
    ensures n % 4 == 3 ==> LeftOver(n) == 4 && LeftOver(n + 1) == 1
  {
  }

  lemma OctetValueStep(bs: Bytes, b: byte)
    ensures OctetValue(bs + [b]) == OctetValue(bs) * 256 + b as int
  {
    assert (bs + [b])[..|bs|] == bs;
  }

  /** How the value before and after one more digit d compare, at each number of left-over bits. */
  ghost predicate Stepped(v: nat, v': nat, e: Sextet, d: Sextet) {
    && v' / 64 == v
    && v' / 16 == v / 64 * 256 + First(e, d) as int
    && v' / 4 == v / 16 * 256 + Second(e, d) as int
    && v' == v / 4 * 256 + Third(e, d) as int
  }

  lemma ValueStep(init: seq<Sextet>, d: Sextet)
    requires init != []
    ensures Stepped(Value(init), Value(init + [d]), init[|init| - 1], d)
  {
    hide Value, Stepped;
    var most, e := init[..|init| - 1], init[|init| - 1];
    assert init == most + [e];
    ValueOfMore(most, e);
    ValueOfMore(init, d);
    ValueStepOf(Value(most), e, d);
  }

  lemma OctetsAsIntegers(e: Sextet, d: Sextet)
    ensures First(e, d) as int == e * 4 + d / 16
    ensures Second(e, d) as int == e % 16 * 16 + d / 4
    ensures Third(e, d) as int == e % 4 * 64 + d
  {
  }

  lemma ValueOfMore(init: seq<Sextet>, d: Sextet)
    ensures Value(init + [d]) == Value(init) * 64 + d
  {
    assert (init + [d])[..|init|] == init;
  }

  lemma ValueStepOf(w: nat, e: Sextet, d: Sextet)
    ensures Stepped(w * 64 + e, (w * 64 + e) * 64 + d, e, d)
  {
    hide First, Second, Third;
    OctetsAsIntegers(e, d);
    var v := w * 64 + e;
    var v' := v * 64 + d;
    assert v / 64 == w;
    assert v / 16 == w * 4 + e / 16;
    assert v / 4 == w * 16 + e / 4;
    Quotient16(v', w * 256 + (e * 4 + d / 16), d % 16);
    Quotient4(v', (w * 4 + e / 16) * 256 + (e % 16 * 16 + d / 4), d % 4);
  }

  // ---------------------------------------------------------------------------
  // Round trip
  // ---------------------------------------------------------------------------

  function AlphabetChar(d: Sextet): (c: char)
    ensures Digit(c) == d && !IsFiller(c)
  {
    if d < 26 then ('A' as int + d) as char
    else if d < 52 then ('a' as int + (d - 26)) as char
    else if d < 62 then ('0' as int + (d - 52)) as char
    else if d == 62 then '+' else '/'
  }

  /** The encoding of RFC 4648, section 4, with padding. */
  function Encode(bs: Bytes): string {
    if bs == [] then []
    else
      var a := bs[0] as int;
      if |bs| == 1 then [AlphabetChar(a / 4), AlphabetChar(a % 4 * 16), '=', '=']
      else
        var b := bs[1] as int;
        if |bs| == 2 then [AlphabetChar(a / 4), AlphabetChar(a % 4 * 16 + b / 16), AlphabetChar(b % 16 * 4), '=']
        else
          var c := bs[2] as int;
          [AlphabetChar(a / 4), AlphabetChar(a % 4 * 16 + b / 16),
           AlphabetChar(b % 16 * 4 + c / 64), AlphabetChar(c % 64)]
          + Encode(bs[3..])
  }

  lemma {:induction false} EncodeDecodes(bs: Bytes)
    ensures var body := Significant(Encode(bs)); AllDigits(body) && Octets(Digits(body)) == bs
  {
    if |bs| >= 3 {
      EncodeDecodes(bs[3..]);
      var e := Encode(bs);
      assert e[..4] + Encode(bs[3..]) == e;
      QuadDecodes(bs, e[..4], Encode(bs[3..]));
    } else if bs != [] {
      TailDecodes(bs);
    }
  }

  /** The digits that encode three octets. */
  ghost predicate QuadOf(ds: seq<Sextet>, bs: Bytes) {
    && |ds| >= 4 && |bs| >= 3
    && ds[0] == bs[0] as int / 4 && ds[1] == bs[0] as int % 4 * 16 + bs[1] as int / 16
    && ds[2] == bs[1] as int % 16 * 4 + bs[2] as int / 64 && ds[3] == bs[2] as int % 64
  }

  lemma QuadDecodes(bs: Bytes, head: string, tail: string)
    requires |bs| >= 3 && Encode(bs) == head + tail && |head| == 4
    requires forall i :: 0 <= i < 4 ==> !IsFiller(head[i])
    requires AllDigits(head) && QuadOf(Digits(head), bs)
    requires var rest := Significant(tail); AllDigits(rest) && Octets(Digits(rest)) == bs[3..]
    ensures var body := Significant(Encode(bs)); AllDigits(body) && Octets(Digits(body)) == bs
  {
    hide Encode, Octets, Significant, AllDigits, QuadOf, Digits;
    SignificantConcat(head, tail);
    SignificantAll(head);
    var rest := Significant(tail);
    DigitsConcat(head, rest);
    QuadOctets(Digits(head), Digits(rest), bs);
  }

  lemma DigitsConcat(head: string, rest: string)
    requires AllDigits(head) && AllDigits(rest)
    ensures AllDigits(head + rest) && Digits(head + rest) == Digits(head) + Digits(rest)
  {
    hide Digit;
    var body := head + rest;
    forall i | 0 <= i < |body| ensures Digit(body[i]) >= 0 {
      assert i >= |head| ==> body[i] == rest[i - |head|];
    }
  }

  lemma QuadOctets(four: seq<Sextet>, rest: seq<Sextet>, bs: Bytes)
    requires |four| == 4 && QuadOf(four, bs) && Octets(rest) == bs[3..]
    ensures Octets(four + rest) == bs
  {
    hide First, Second, Third;
    TripleRoundTrip(bs[0], bs[1], bs[2]);
    OctetsOfMany(four + rest);
    assert (four + rest)[4..] == rest;
    assert [bs[0], bs[1], bs[2]] + bs[3..] == bs;
  }

  lemma TailDecodes(bs: Bytes)
    requires |bs| == 1 || |bs| == 2
    ensures var body := Significant(Encode(bs)); AllDigits(body) && Octets(Digits(body)) == bs
  {
    var head, pad := TailText(bs);
    PaddedTail(head, pad, bs);
  }

  lemma TailText(bs: Bytes) returns (head: string, pad: string)
    requires |bs| == 1 || |bs| == 2
    ensures Encode(bs) == head + pad && AllDigits(head)
    ensures forall i :: 0 <= i < |head| ==> !IsFiller(head[i])
    ensures forall i :: 0 <= i < |pad| ==> IsFiller(pad[i])
    ensures TailOf(Digits(head), bs)
  {
    var e := Encode(bs);
    head, pad := e[..|bs| + 1], e[|bs| + 1..];
    assert e == head + pad;
  }

  /** The digits that encode one or two octets. */
  ghost predicate TailOf(ds: seq<Sextet>, bs: Bytes) {
    && (|bs| == 1 || |bs| == 2)
    && (|bs| == 1 ==> |ds| == 2 && ds[0] == bs[0] as int / 4 && ds[1] == bs[0] as int % 4 * 16)
    && (|bs| == 2 ==>
         |ds| == 3 && ds[0] == bs[0] as int / 4
         && ds[1] == bs[0] as int % 4 * 16 + bs[1] as int / 16 && ds[2] == bs[1] as int % 16 * 4)
  }

  lemma PaddedTail(head: string, pad: string, bs: Bytes)
    requires AllDigits(head) && TailOf(Digits(head), bs)
    requires forall i :: 0 <= i < |head| ==> !IsFiller(head[i])
    requires forall i :: 0 <= i < |pad| ==> IsFiller(pad[i])
    ensures var body := Significant(head + pad); AllDigits(body) && Octets(Digits(body)) == bs
  {
    hide Octets, Significant, IsFiller, Digit;
    SignificantConcat(head, pad);
    SignificantAll(head);
    SignificantNone(pad);
    assert head + [] == head;
    TailOctets(Digits(head), bs);
  }

  lemma TailOctets(ds: seq<Sextet>, bs: Bytes)
    requires TailOf(ds, bs)
    ensures Octets(ds) == bs
  {
    TripleRoundTrip(bs[0], if |bs| == 2 then bs[1] else 0, 0);
  }

  lemma TripleRoundTrip(a: byte, b: byte, c: byte)
    ensures var x, y, z := a as int, b as int, c as int;
      && First(x / 4, x % 4 * 16 + y / 16) == a
      && Second(x % 4 * 16 + y / 16, y % 16 * 4 + z / 64) == b
      && Third(y % 16 * 4 + z / 64, z % 64) == c
  {
  }

  lemma {:induction false} SignificantAll(s: string)
    requires forall i :: 0 <= i < |s| ==> !IsFiller(s[i])
    ensures Significant(s) == s
  {
    if s != [] {
      SignificantAll(s[1..]);
    }
  }

  lemma {:induction false} SignificantNone(s: string)
    requires forall i :: 0 <= i < |s| ==> IsFiller(s[i])
    ensures Significant(s) == []
  {
    if s != [] {
      SignificantNone(s[1..]);
    }
  }

  /**
   * Decoding inverts encoding for every octet string, however the padding is kept or dropped and
   * wherever white space is inserted.
   */
  lemma RoundTrip(bs: Bytes, text: string)
    requires Stripped(text) == Stripped(Encode(bs))
    ensures Decoded(text) == Some(bs)
  {
    SignificantIsStripped(text);
    SignificantIsStripped(Encode(bs));
    EncodeDecodes(bs);
  }
}
