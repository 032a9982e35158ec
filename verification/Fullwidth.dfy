/**
 * Folding of fullwidth Unicode (U+FF01..U+FF5E) to ASCII 0x21..0x7E, as the filter applies it to
 * paths, header values and request body chunks before the engine sees them.
 */
module Fullwidth {
  import opened Prelude

  const PERCENT: byte := 0x25

  /** What starts at the head of a byte string: nothing special, or an encoded fullwidth character. */
  datatype Token = Plain | Raw(c: byte) | Escaped(c: byte) {
    function Length(): nat {
      match this case Plain => 1 case Raw(_) => 3 case Escaped(_) => 9
    }
  }

  function HexNibble(c: byte): int {
    if 0x30 <= c <= 0x39 then c as int - 0x30
    else if 0x61 <= c <= 0x66 then c as int - 0x61 + 10
    else if 0x41 <= c <= 0x46 then c as int - 0x41 + 10
    else -1
  }

  /** The code point of the three bytes, or -1 when they are not a fullwidth form. */
  function FullwidthCodePoint(b0: int, b1: int, b2: int): int {
    if b0 != 0xEF then -1
    else if b1 == 0xBC && 0x81 <= b2 <= 0xBF then 0xFF00 + (b2 - 0x80)
    else if b1 == 0xBD && 0x80 <= b2 <= 0x9E then 0xFF40 + (b2 - 0x80)
    else -1
  }

  function EscapedCodePoint(s: Bytes): int
    requires |s| >= 9
  {
    if s[0] == PERCENT && s[3] == PERCENT && s[6] == PERCENT then
      var h0, h1 := HexNibble(s[1]), HexNibble(s[2]);
      var h2, h3 := HexNibble(s[4]), HexNibble(s[5]);
      var h4, h5 := HexNibble(s[7]), HexNibble(s[8]);
      if h0 >= 0 && h1 >= 0 && h2 >= 0 && h3 >= 0 && h4 >= 0 && h5 >= 0
      then FullwidthCodePoint(16 * h0 + h1, 16 * h2 + h3, 16 * h4 + h5)
      else -1
    else -1
  }

  function TokenAt(s: Bytes): Token {
    if |s| >= 3 && FullwidthCodePoint(s[0] as int, s[1] as int, s[2] as int) >= 0 then
      Raw((FullwidthCodePoint(s[0] as int, s[1] as int, s[2] as int) - 0xFEE0) as byte)
    else if |s| >= 9 && EscapedCodePoint(s) >= 0 then
      Escaped((EscapedCodePoint(s) - 0xFEE0) as byte)
    else Plain
  }

  function Fold(s: Bytes): Bytes {
    if s == [] then []
    else match TokenAt(s)
      case Plain => [s[0]] + Fold(s[1..])
      case Raw(c) => [c] + Fold(s[3..])
      case Escaped(c) => [c] + Fold(s[9..])
  }

  // ---------------------------------------------------------------------------
  // The in-place scan
  // ---------------------------------------------------------------------------

  /** A mutable byte string. */
  class ByteString {
    var bytes: Bytes

    constructor (bytes: Bytes)
      ensures this.bytes == bytes
    {
      this.bytes := bytes;
    }
  }

  predicate MayStartToken(c: byte) {
    c >= 0x80 || c == PERCENT
  }

  method MayContainFullwidth(s: Bytes) returns (may: bool)
    ensures may <==> exists c :: c in s && MayStartToken(c)
  {
    for i := 0 to |s|
      invariant forall k :: 0 <= k < i ==> !MayStartToken(s[k])
    {
      if MayStartToken(s[i]) {
        return true;
      }
    }
    return false;
  }

  lemma {:induction false} FoldOfPlainBytes(s: Bytes)
    requires |s| < 3 || forall c :: c in s ==> !MayStartToken(c)
    ensures Fold(s) == s
  {
    if s != [] {
      assert s[0] in s;
      FoldOfPlainBytes(s[1..]);
    }
  }

  /** What the scan appends for the token at index i. */
  function Emitted(s: Bytes, i: nat): Bytes
    requires i < |s|
  {
    var token := TokenAt(s[i..]);
    if token.Plain? then [s[i]] else [token.c]
  }

  lemma FoldAt(s: Bytes, i: nat, output: Bytes)
    requires i < |s|
    ensures var n := TokenAt(s[i..]).Length();
      && i + n <= |s|
      && output + Fold(s[i..]) == output + Emitted(s, i) + Fold(s[i + n..])
  {
    var n := TokenAt(s[i..]).Length();
    assert s[i..][n..] == s[i + n..];
    assert Fold(s[i..]) == Emitted(s, i) + Fold(s[i + n..]);
  }

  /** The two recognisers of the scan, in the order they are tried at index i. */
  method ReadToken(s: Bytes, i: nat) returns (token: Token)
    requires i < |s|
    ensures token == TokenAt(s[i..])
  {
    if s[i] == 0xEF && i + 2 < |s| {
      var cp := FullwidthCodePoint(0xEF, s[i + 1] as int, s[i + 2] as int);
      if 0xFF01 <= cp <= 0xFF5E {
        return Raw((cp - 0xFEE0) as byte);
      }
    }
    if s[i] == PERCENT && i + 8 < |s| {
      var cp := EscapedCodePoint(s[i..]);
      if 0xFF01 <= cp <= 0xFF5E {
        return Escaped((cp - 0xFEE0) as byte);
      }
    }
    return Plain;
  }

  method NormalizeFullwidthAsciiInPlace(s: ByteString)
    modifies s
    ensures s.bytes == Fold(old(s.bytes))
  {
    if |s.bytes| < 3 {
      FoldOfPlainBytes(s.bytes);
      return;
    }
    var may := MayContainFullwidth(s.bytes);
    if !may {
      FoldOfPlainBytes(s.bytes);
      return;
    }
    var input := s.bytes;
    var output: Bytes := [];
    var changed := false;
    var i := 0;
    while i < |input|
      invariant i <= |input|
      invariant output + Fold(input[i..]) == Fold(input)
      invariant !changed ==> output == input[..i]
      invariant s.bytes == input
    {
      FoldAt(input, i, output);
      var token := ReadToken(input, i);
      if token.Plain? {
        output := output + [input[i]];
      } else {
        output := output + [token.c];
        changed := true;
      }
      i := i + token.Length();
    }
    assert output == Fold(input);
    if changed {
      s.bytes := output;
    }
  }

  // ---------------------------------------------------------------------------
  // Agreement with UTF-8 (section 3 of RFC 3629) and percent-encoding
  // ---------------------------------------------------------------------------

  /** The scalar value of a three-byte UTF-8 sequence 1110xxxx 10xxxxxx 10xxxxxx. */
  function Utf8Scalar(b0: byte, b1: byte, b2: byte): int {
    (b0 as int - 0xE0) * 4096 + (b1 as int - 0x80) * 64 + (b2 as int - 0x80)
  }

  predicate IsUtf8Triple(b0: byte, b1: byte, b2: byte) {
    0xE0 <= b0 <= 0xEF && 0x80 <= b1 <= 0xBF && 0x80 <= b2 <= 0xBF
  }

  lemma RawTokenIsUtf8(s: Bytes, c: byte)
    requires |s| >= 3
    ensures TokenAt(s) == Raw(c) <==>
      && IsUtf8Triple(s[0], s[1], s[2])
      && Utf8Scalar(s[0], s[1], s[2]) == c as int + 0xFEE0
      && 0x21 <= c <= 0x7E
  {
    if IsUtf8Triple(s[0], s[1], s[2]) && Utf8Scalar(s[0], s[1], s[2]) == c as int + 0xFEE0 && 0x21 <= c <= 0x7E {
      assert s[0] == 0xEF;
      assert s[1] == 0xBC || s[1] == 0xBD;
    }
  }

  /** The octet that %XY stands for, when X and Y are hexadecimal digits. */
  function Unescape(s: Bytes): Option<byte>
    requires |s| >= 3
  {
    if s[0] == PERCENT && HexNibble(s[1]) >= 0 && HexNibble(s[2]) >= 0
    then Some((16 * HexNibble(s[1]) + HexNibble(s[2])) as byte)
    else None
  }

  lemma EscapedTokenIsPercentEncodedRaw(s: Bytes, c: byte)
    requires |s| >= 9
    ensures TokenAt(s) == Escaped(c) <==>
      && Unescape(s).Some? && Unescape(s[3..]).Some? && Unescape(s[6..]).Some?
      && TokenAt([Unescape(s).value, Unescape(s[3..]).value, Unescape(s[6..]).value]) == Raw(c)
  {
  }

  // ---------------------------------------------------------------------------
  // Tokens never overlap, so the saving of a fold is the sum over all positions
  // ---------------------------------------------------------------------------

  lemma NoTokenInsideToken(s: Bytes, j: nat)
    requires 0 < j < TokenAt(s).Length()
    requires j < |s|
    ensures TokenAt(s[j..]) == Plain
  {
  }

  /** Bytes removed by the tokens that start in s: two for each raw form, eight for each escaped one. */
  function Saved(s: Bytes): nat {
    if s == [] then 0 else TokenAt(s).Length() - 1 + Saved(s[1..])
  }

  lemma {:induction false} SavedSkipsToken(s: Bytes, j: nat)
    requires s != [] && 1 <= j <= TokenAt(s).Length()
    requires j <= |s|
    ensures Saved(s) == TokenAt(s).Length() - 1 + Saved(s[j..])
    decreases j
  {
    if j > 1 {
      SavedSkipsToken(s, j - 1);
      NoTokenInsideToken(s, j - 1);
      assert s[j - 1..][1..] == s[j..];
    }
  }

  lemma {:induction false} FoldLength(s: Bytes)
    ensures |Fold(s)| == |s| - Saved(s)
  {
    if s != [] {
      var n := TokenAt(s).Length();
      SavedSkipsToken(s, n);
      FoldLength(s[n..]);
    }
  }

  function CountTokens(s: Bytes, escaped: bool): nat {
    if s == [] then 0
    else (if escaped then (if TokenAt(s).Escaped? then 1 else 0)
          else (if TokenAt(s).Raw? then 1 else 0)) + CountTokens(s[1..], escaped)
  }

  lemma {:induction false} FoldShrinksByTokens(s: Bytes)
    ensures |s| - |Fold(s)| == 2 * CountTokens(s, false) + 8 * CountTokens(s, true)
  {
    FoldLength(s);
    SavedCounts(s);
  }

  lemma {:induction false} SavedCounts(s: Bytes)
    ensures Saved(s) == 2 * CountTokens(s, false) + 8 * CountTokens(s, true)
  {
    if s != [] {
      SavedCounts(s[1..]);
    }
  }

  // ---------------------------------------------------------------------------
  // Cutting a body into chunks
  // ---------------------------------------------------------------------------

  /** Some encoded fullwidth form begins in a and ends in b. */
  ghost predicate Straddles(a: Bytes, b: Bytes) {
    exists i :: 0 <= i < |a| && i + TokenAt((a + b)[i..]).Length() > |a|
  }

  lemma TokenFitsOrNot(a: Bytes, b: Bytes)
    requires a != []
    ensures TokenAt(a + b) == if TokenAt(a + b).Length() <= |a| then TokenAt(a) else TokenAt(a + b)
    ensures TokenAt(a + b).Length() > |a| ==> TokenAt(a) == Plain
  {
  }

  lemma StraddlesTail(a: Bytes, b: Bytes)
    requires a != []
    ensures Straddles(a, b) <==> TokenAt(a + b).Length() > |a| || Straddles(a[1..], b)
  {
    var a' := a[1..];
    assert (a + b)[0..] == a + b;
    forall i | 0 <= i < |a'| ensures (a + b)[i + 1..] == (a' + b)[i..] {}
    if Straddles(a, b) {
      var i :| 0 <= i < |a| && i + TokenAt((a + b)[i..]).Length() > |a|;
      if i > 0 {
        assert (a + b)[i..] == (a' + b)[i - 1..];
      }
    }
    if Straddles(a', b) {
      var i :| 0 <= i < |a'| && i + TokenAt((a' + b)[i..]).Length() > |a'|;
      assert (a + b)[i + 1..] == (a' + b)[i..];
    }
  }

  lemma {:induction false} SavedOfConcat(a: Bytes, b: Bytes)
    ensures Saved(a + b) >= Saved(a) + Saved(b)
    ensures Saved(a + b) == Saved(a) + Saved(b) <==> !Straddles(a, b)
  {
    if a == [] {
      assert a + b == b;
    } else {
      assert (a + b)[1..] == a[1..] + b;
      SavedOfConcat(a[1..], b);
      TokenFitsOrNot(a, b);
      StraddlesTail(a, b);
    }
  }

  lemma {:induction false} StraddlesSkip(a: Bytes, b: Bytes, n: nat)
    requires n <= |a| && !Straddles(a, b)
    ensures !Straddles(a[n..], b)
    decreases n
  {
    if n > 0 {
      StraddlesTail(a, b);
      StraddlesSkip(a[1..], b, n - 1);
      assert a[1..][n - 1..] == a[n..];
    } else {
      assert a[0..] == a;
    }
  }

  /** The byte that the token at the front becomes. */
  function Front(s: Bytes): byte
    requires s != []
  {
    match TokenAt(s) case Plain => s[0] case Raw(c) => c case Escaped(c) => c
  }

  lemma FoldUnfolds(s: Bytes)
    requires s != []
    ensures TokenAt(s).Length() <= |s| && Fold(s) == [Front(s)] + Fold(s[TokenAt(s).Length()..])
  {
    hide FullwidthCodePoint, EscapedCodePoint;
  }

  lemma SameFront(a: Bytes, b: Bytes)
    requires a != [] && !Straddles(a, b)
    ensures TokenAt(a + b) == TokenAt(a) && Front(a + b) == Front(a)
  {
    hide TokenAt, Straddles;
    TokenFitsOrNot(a, b);
    StraddlesTail(a, b);
  }

  lemma DropOfConcat(a: Bytes, b: Bytes, n: nat)
    requires n <= |a|
    ensures (a + b)[n..] == a[n..] + b
  {
  }

  lemma {:induction false} FoldOfConcat(a: Bytes, b: Bytes)
    requires !Straddles(a, b)
    ensures Fold(a + b) == Fold(a) + Fold(b)
  {
    if a == [] {
      assert a + b == b;
    } else {
      hide TokenAt, Fold, Straddles, Front;
      var n := TokenAt(a).Length();
      SameFront(a, b);
      FoldUnfolds(a);
      FoldUnfolds(a + b);
      DropOfConcat(a, b, n);
      StraddlesSkip(a, b, n);
      FoldOfConcat(a[n..], b);
      Associate([Front(a)], Fold(a[n..]), Fold(b));
    }
  }

  /** A cut is invisible to folding exactly when no encoded form lies across it. */
  lemma SafeCut(a: Bytes, b: Bytes)
    ensures Fold(a + b) == Fold(a) + Fold(b) <==> !Straddles(a, b)
    ensures |Fold(a + b)| <= |Fold(a)| + |Fold(b)|
  {
    SavedOfConcat(a, b);
    FoldLength(a);
    FoldLength(b);
    FoldLength(a + b);
    if !Straddles(a, b) {
      FoldOfConcat(a, b);
    }
  }

  function Concat(chunks: seq<Bytes>): Bytes {
    if chunks == [] then [] else chunks[0] + Concat(chunks[1..])
  }

  function FoldEach(chunks: seq<Bytes>): Bytes {
    if chunks == [] then [] else Fold(chunks[0]) + FoldEach(chunks[1..])
  }

  /** Some encoded form lies across one of the boundaries between consecutive chunks. */
  ghost predicate CutStraddled(chunks: seq<Bytes>) {
    chunks != [] && (Straddles(chunks[0], Concat(chunks[1..])) || CutStraddled(chunks[1..]))
  }

  /** Folding chunk by chunk gives the fold of the whole exactly when no boundary is straddled. */
  lemma {:induction false} FoldByChunks(chunks: seq<Bytes>)
    ensures |FoldEach(chunks)| >= |Fold(Concat(chunks))|
    ensures FoldEach(chunks) == Fold(Concat(chunks)) <==> !CutStraddled(chunks)
    ensures |FoldEach(chunks)| == |Fold(Concat(chunks))| <==> !CutStraddled(chunks)
  {
    if chunks != [] {
      var a, b := chunks[0], Concat(chunks[1..]);
      FoldByChunks(chunks[1..]);
      SafeCut(a, b);
      SavedOfConcat(a, b);
      FoldLength(a);
      FoldLength(b);
      FoldLength(a + b);
    }
  }

  // ---------------------------------------------------------------------------
  // Round trip: every mix of encodings folds back to the text it stands for
  // ---------------------------------------------------------------------------

  /** One byte of a text and how the client chose to send it. */
  datatype Piece =
    | AsIs(b: byte)
    | Wide(c: byte)                          // three raw UTF-8 bytes
    | WideEscaped(c: byte, capitals: seq<bool>)  // nine bytes %XX%XX%XX, each digit in either case
  {
    predicate Valid() {
      match this
      case AsIs(_) => true
      case Wide(c) => 0x21 <= c <= 0x7E
      case WideEscaped(c, capitals) => 0x21 <= c <= 0x7E && |capitals| == 6
    }

    function Meaning(): byte {
      match this case AsIs(b) => b case Wide(c) => c case WideEscaped(c, _) => c
    }

    function Encode(): Bytes
      requires Valid()
    {
      match this
      case AsIs(b) => [b]
      case Wide(c) => WideBytes(c)
      case WideEscaped(c, cap) =>
        var w := WideBytes(c);
        [PERCENT, HexDigit(w[0] / 16, cap[0]), HexDigit(w[0] % 16, cap[1])]
        + [PERCENT, HexDigit(w[1] / 16, cap[2]), HexDigit(w[1] % 16, cap[3])]
        + [PERCENT, HexDigit(w[2] / 16, cap[4]), HexDigit(w[2] % 16, cap[5])]
    }
  }

  /** UTF-8 (section 3 of RFC 3629) of U+FEE0 + c. */
  function WideBytes(c: byte): (w: Bytes)
    requires 0x21 <= c <= 0x7E
    ensures |w| == 3 && IsUtf8Triple(w[0], w[1], w[2]) && Utf8Scalar(w[0], w[1], w[2]) == c as int + 0xFEE0
  {
    var cp := c as int + 0xFEE0;
    [(0xE0 + cp / 4096) as byte, (0x80 + cp / 64 % 64) as byte, (0x80 + cp % 64) as byte]
  }

  function HexDigit(v: byte, capital: bool): (d: byte)
    requires v < 16
    ensures HexNibble(d) == v as int
  {
    if v < 10 then 0x30 + v else if capital then 0x41 + (v - 10) else 0x61 + (v - 10)
  }

  function EncodeAll(ps: seq<Piece>): Bytes
    requires forall p :: p in ps ==> p.Valid()
  {
    if ps == [] then [] else ps[0].Encode() + EncodeAll(ps[1..])
  }

  function Text(ps: seq<Piece>): Bytes {
    if ps == [] then [] else [ps[0].Meaning()] + Text(ps[1..])
  }

  /** An encoded form is recognised where it stands, and so is a byte that begins none. */
  lemma TokenOfPiece(p: Piece, rest: Bytes)
    requires p.Valid() && (p.AsIs? ==> p.b != 0xEF && p.b != PERCENT)
    ensures var s := p.Encode() + rest;
      && TokenAt(s).Length() == |p.Encode()|
      && (match p case AsIs(_) => TokenAt(s) == Plain
                  case Wide(c) => TokenAt(s) == Raw(c)
                  case WideEscaped(c, _) => TokenAt(s) == Escaped(c))
  {
    var s := p.Encode() + rest;
    match p
    case AsIs(_) =>
    case Wide(c) =>
      RawTokenIsUtf8(s, c);
    case WideEscaped(c, _) =>
      var w := WideBytes(c);
      assert Unescape(s) == Some(w[0]);
      assert Unescape(s[3..]) == Some(w[1]);
      assert Unescape(s[6..]) == Some(w[2]);
      RawTokenIsUtf8([w[0], w[1], w[2]], c);
      EscapedTokenIsPercentEncodedRaw(s, c);
  }

  /** No byte sent as it is happens to begin, with what follows it, an encoded form. */
  predicate Unmistaken(ps: seq<Piece>)
    requires forall p :: p in ps ==> p.Valid()
  {
    ps == [] || ((ps[0].AsIs? ==> TokenAt(EncodeAll(ps)) == Plain) && Unmistaken(ps[1..]))
  }

  /** Only the bytes 0xEF and '%' can be mistaken. */
  lemma {:induction false} OtherBytesAreUnmistaken(ps: seq<Piece>)
    requires forall p :: p in ps ==> p.Valid() && (p.AsIs? ==> p.b != 0xEF && p.b != PERCENT)
    ensures Unmistaken(ps)
  {
    if ps != [] {
      TokenOfPiece(ps[0], EncodeAll(ps[1..]));
      OtherBytesAreUnmistaken(ps[1..]);
    }
  }

  /** The first byte of a mix tells a byte sent as it is from an encoded form. */
  lemma HeadTells(ps: seq<Piece>)
    requires forall p :: p in ps ==> p.Valid()
    requires EncodeAll(ps) != []
    ensures var s := EncodeAll(ps);
      && ps != [] && (s[0] != 0xEF && s[0] != PERCENT ==> ps[0].AsIs?)
      && (ps[0].WideEscaped? ==> |s| >= 3 && 16 * HexNibble(s[1]) + HexNibble(s[2]) == 0xEF)
      && (ps[0].Wide? ==> s[0] == 0xEF)
      && (ps[0].AsIs? ==> s[1..] == EncodeAll(ps[1..]))
  {
    if ps != [] {
      assert ps[0].Valid();
      if !ps[0].AsIs? {
        var w := WideBytes(ps[0].c);
        assert w[0] == 0xEF;
      }
    }
  }

  /** So do the next bytes, one at a time, while they are sent as they are. */
  lemma {:induction false} RunOfBytes(ps: seq<Piece>, n: nat)
    requires forall p :: p in ps ==> p.Valid()
    requires n <= |EncodeAll(ps)|
    requires forall k :: 0 <= k < n ==> ByteStands(EncodeAll(ps)[k..])
    ensures n <= |ps| && EncodeAll(ps)[n..] == EncodeAll(ps[n..])
    ensures forall k :: 0 <= k < n ==> ps[k].AsIs?
    decreases n
  {
    if n > 0 {
      var s := EncodeAll(ps);
      assert s[0..] == s && ByteStands(s[0..]);
      HeadTells(ps);
      forall k | 0 <= k < n - 1 ensures ByteStands(EncodeAll(ps[1..])[k..]) {
        assert s[1..][k..] == s[k + 1..];
      }
      RunOfBytes(ps[1..], n - 1);
      assert s[1..][n - 1..] == s[n..] && ps[1..][n - 1..] == ps[n..];
    }
  }

  /** What stands here cannot be the head of an encoded form. */
  predicate ByteStands(s: Bytes) {
    && s != [] && s[0] != 0xEF
    && (s[0] == PERCENT ==> |s| < 3 || 16 * HexNibble(s[1]) + HexNibble(s[2]) != 0xEF)
  }

  /** A token that begins in a byte sent as it is takes only such bytes. */
  lemma MistakenBytes(ps: seq<Piece>)
    requires forall p :: p in ps ==> p.Valid()
    requires ps != [] && ps[0].AsIs? && TokenAt(EncodeAll(ps)) != Plain
    ensures var n := TokenAt(EncodeAll(ps)).Length();
      n <= |ps| && EncodeAll(ps)[n..] == EncodeAll(ps[n..])
  {
    var s := EncodeAll(ps);
    var n := TokenAt(s).Length();
    HeadTells(ps);
    hide TokenAt, ByteStands, HexNibble;
    forall k | 0 <= k < n - 1 ensures ByteStands(EncodeAll(ps[1..])[k..]) {
      TokenTail(s, k + 1);
      assert s[1..][k..] == s[k + 1..];
    }
    TokenFits(s);
    RunOfBytes(ps[1..], n - 1);
    assert s[1..][n - 1..] == s[n..] && ps[1..][n - 1..] == ps[n..];
  }

  lemma TokenFits(s: Bytes)
    ensures s != [] ==> TokenAt(s).Length() <= |s|
  {
  }

  /** Inside a token no other begins. */
  lemma TokenTail(s: Bytes, k: nat)
    requires 0 < k < TokenAt(s).Length() && s != []
    ensures k < |s| && ByteStands(s[k..])
  {
    var t := s[k..];
    assert t[0] == s[k] && |t| == |s| - k;
    assert |t| >= 3 ==> t[1] == s[k + 1] && t[2] == s[k + 2];
  }

  /**
   * Folding undoes the encoding of a mix of bytes sent as they are, wide forms and escaped wide forms
   * exactly if no byte sent as it is was mistaken; otherwise the result is shorter.
   */
  lemma {:induction false} FoldInvertsEncoding(ps: seq<Piece>)
    requires forall p :: p in ps ==> p.Valid()
    ensures Fold(EncodeAll(ps)) == Text(ps) <==> Unmistaken(ps)
    ensures |Fold(EncodeAll(ps))| <= |ps| == |Text(ps)|
    ensures |Fold(EncodeAll(ps))| == |ps| <==> Unmistaken(ps)
    decreases |ps|
  {
    if ps != [] {
      var s := EncodeAll(ps);
      if ps[0].AsIs? && TokenAt(s) != Plain {
        var n := TokenAt(s).Length();
        MistakenBytes(ps);
        FoldInvertsEncoding(ps[n..]);
        TextLength(ps);
      } else {
        if !ps[0].AsIs? {
          TokenOfPiece(ps[0], EncodeAll(ps[1..]));
        }
        assert s[|ps[0].Encode()|..] == EncodeAll(ps[1..]);
        FoldInvertsEncoding(ps[1..]);
      }
    }
  }

  lemma {:induction false} TextLength(ps: seq<Piece>)
    ensures |Text(ps)| == |ps|
  {
    if ps != [] {
      TextLength(ps[1..]);
    }
  }
}
