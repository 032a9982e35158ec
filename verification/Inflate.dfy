/** The bounded inflate loop around a decompressor that makes progress. */
module Inflate {
  import opened Prelude

  datatype Return = Ok | StreamEnd | Failed(code: int)

  /** One pull: what came out, how much input it took, and the decompressor afterwards. */
  datatype Pull<S> = Pull(ret: Return, produced: Bytes, consumed: nat, next: S)

  type Decompressor<!S> = (S, Bytes) -> Pull<S>

  const BUFFER_SIZE := 65536
  const MAX_INFLATED := 33554432

  /** A pull fits the buffer, takes no more than there is, and a successful one does something. */
  ghost predicate MakesProgress<S(!new)>(inflate: Decompressor<S>) {
    forall s, input ::
      var p := inflate(s, input);
      && |p.produced| <= BUFFER_SIZE && p.consumed <= |input|
      && (p.ret.Ok? ==> p.produced != [] || p.consumed > 0)
  }

  /** After exactly this many pulls the stream ends, having produced `output` in all. */
  ghost predicate Yields<S>(inflate: Decompressor<S>, s: S, input: Bytes, pulls: nat, output: Bytes)
    decreases pulls
  {
    var p := inflate(s, input);
    pulls > 0 && p.consumed <= |input| &&
    if p.ret.StreamEnd? then pulls == 1 && output == p.produced
    else p.ret.Ok? && p.produced <= output
         && Yields(inflate, p.next, input[p.consumed..], pulls - 1, output[|p.produced|..])
  }

  /** The stream ends with this output after some number of pulls. */
  ghost predicate InflatesTo<S>(inflate: Decompressor<S>, s: S, input: Bytes, output: Bytes) {
    exists pulls: nat :: Yields(inflate, s, input, pulls, output)
  }

  lemma OnePull<S>(inflate: Decompressor<S>, s: S, input: Bytes, output: Bytes)
    requires var p := inflate(s, input); p.consumed <= |input|
    ensures var p := inflate(s, input);
      InflatesTo(inflate, s, input, output) <==>
        (if p.ret.StreamEnd? then output == p.produced
         else p.ret.Ok? && p.produced <= output
              && InflatesTo(inflate, p.next, input[p.consumed..], output[|p.produced|..]))
  {
    var p := inflate(s, input);
    if InflatesTo(inflate, s, input, output) {
      var pulls: nat :| Yields(inflate, s, input, pulls, output);
      if p.ret.Ok? {
        assert Yields(inflate, p.next, input[p.consumed..], pulls - 1, output[|p.produced|..]);
      }
    }
    if p.ret.StreamEnd? && output == p.produced {
      assert Yields(inflate, s, input, 1, output);
    }
    if p.ret.Ok? && p.produced <= output && InflatesTo(inflate, p.next, input[p.consumed..], output[|p.produced|..]) {
      var pulls: nat :| Yields(inflate, p.next, input[p.consumed..], pulls, output[|p.produced|..]);
      assert Yields(inflate, s, input, pulls + 1, output);
    }
  }

  /** The whole output, given what has been produced so far. */
  ghost predicate Continues<S>(
      inflate: Decompressor<S>, start: S, compressed: Bytes, s: S, input: Bytes, plain: Bytes)
  {
    forall output ::
      InflatesTo(inflate, start, compressed, output) <==>
      plain <= output && InflatesTo(inflate, s, input, output[|plain|..])
  }

  lemma PullContinues<S>(
      inflate: Decompressor<S>, start: S, compressed: Bytes, s: S, input: Bytes, plain: Bytes)
    requires Continues(inflate, start, compressed, s, input, plain)
    requires var p := inflate(s, input); p.consumed <= |input|
    ensures var p := inflate(s, input);
      && (p.ret.Failed? ==> forall output :: !InflatesTo(inflate, start, compressed, output))
      && (p.ret.StreamEnd? ==>
           forall output :: InflatesTo(inflate, start, compressed, output) <==> output == plain + p.produced)
      && (p.ret.Ok? ==> Continues(inflate, start, compressed, p.next, input[p.consumed..], plain + p.produced))
  {
    var p := inflate(s, input);
    forall output
      ensures InflatesTo(inflate, start, compressed, output) <==>
        plain <= output &&
        (if p.ret.StreamEnd? then output[|plain|..] == p.produced
         else p.ret.Ok? && p.produced <= output[|plain|..]
              && InflatesTo(inflate, p.next, input[p.consumed..], output[|plain|..][|p.produced|..]))
    {
      if plain <= output {
        OnePull(inflate, s, input, output[|plain|..]);
      }
    }
    var more := plain + p.produced;
    forall output ensures plain <= output && p.produced <= output[|plain|..] <==> more <= output {
      if more <= output {
        assert output[|plain|..][..|p.produced|] == p.produced;
      }
    }
    forall output | more <= output ensures output[|plain|..][|p.produced|..] == output[|more|..] {}
    forall output ensures plain <= output && output[|plain|..] == p.produced <==> output == more {
      if plain <= output && output[|plain|..] == p.produced {
        assert output == output[..|plain|] + output[|plain|..];
      }
    }
  }

  /**
   * Inflation succeeds exactly on the streams that end within the size limit, with their output;
   * it stops on every input because each round consumes input or room.
   */
  method GzipInflate<S(!new)>(start: S, inflate: Decompressor<S>, compressed: Bytes) returns (r: Option<Bytes>)
    requires MakesProgress(inflate)
    ensures compressed == [] ==> r == None
    ensures r.Some? ==> InflatesTo(inflate, start, compressed, r.value) && |r.value| <= 33554432
    ensures r.None? && compressed != [] ==>
      forall output :: InflatesTo(inflate, start, compressed, output) ==> |output| > 33554432
  {
    if compressed == [] {
      return None;
    }
    var plain: Bytes := [];
    var s, input := start, compressed;
    while true
      invariant |plain| <= MAX_INFLATED
      invariant Continues(inflate, start, compressed, s, input, plain)
      decreases MAX_INFLATED - |plain| + |input|
    {
      var p := inflate(s, input);
      PullContinues(inflate, start, compressed, s, input, plain);
      if p.ret.Failed? {
        return None;
      }
      if |plain| + |p.produced| > MAX_INFLATED {
        return None;
      }
      plain := plain + p.produced;
      s, input := p.next, input[p.consumed..];
      if p.ret.StreamEnd? {
        return Some(plain);
      }
    }
  }
}
