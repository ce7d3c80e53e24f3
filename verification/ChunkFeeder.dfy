/** The feeder of the demodulator (rx_decoder_consume_chunk in modem/modem.c): a captured chunk
    goes into the decoder's buffer piece by piece, and no sample is lost or doubled. */
module ChunkFeeder {

  newtype Sample = x: int | -32768 <= x < 32768

  const GUARD: nat := 256

  /** What the demodulator says in one step: whether it is there, how many samples it wants,
      and how many bytes it has decoded. */
  datatype Answer = Answer(present: bool, nin: int, bytesOut: nat)

  /** The demodulator is there throughout and always wants between `least` and `most` samples. */
  ghost predicate Steady(answer: nat -> Answer, least: nat, most: nat) {
    forall k: nat :: k < GUARD ==> answer(k).present && least <= answer(k).nin <= most
  }

  /** The fewest samples `steps` steps can consume. */
  ghost function Floor(steps: nat, least: nat): nat { if steps == 0 then 0 else Floor(steps - 1, least) + least }

  lemma {:induction false} FloorIsProduct(steps: nat, least: nat)
    ensures Floor(steps, least) == steps * least
  {
    if steps > 0 {
      FloorIsProduct(steps - 1, least);
      assert steps * least == (steps - 1) * least + least;
    }
  }

  /** With the chunk in the buffer, the demodulator is stepped again only after an answer that can be
      met and that takes or brings something. */
  predicate GoesOn(a: Answer, cap: nat) { a.present && 0 <= a.nin <= cap && (a.nin > 0 || a.bytesOut > 0) }

  /** Why feeding stopped, if it has. */
  datatype Exit = Running | Skipped | Hungry | Drained | Missing | GuardHit

  class Decoder {
    const demodIn: array<Sample>
    var demodCount: nat
    ghost var consumed: seq<Sample>

    ghost predicate Valid()
      reads this
    {
      demodCount <= demodIn.Length
    }

    /** Every sample taken so far: those demodulated, then those in the buffer. */
    ghost function Taken(): seq<Sample>
      reads this, demodIn
      requires Valid()
    {
      consumed + demodIn[..demodCount]
    }

    constructor (cap: nat)
      ensures Valid() && fresh(demodIn) && demodIn.Length == cap && Taken() == []
    {
      demodIn := new Sample[cap](_ => 0);
      demodCount := 0;
      consumed := [];
    }

    /** Feeds the chunk, one demodulator step for each piece; `open` says whether the decoder
        and its buffers are there at entry. Whatever the demodulator answers, the samples taken
        are the earlier ones followed by the part of the chunk that was fed; unless the guard is
        hit or the decoder is gone, that is the whole chunk. The guard is not hit by a chunk that
        fits into the buffer if an answer says there is nothing to go on for; nor, with a
        demodulator that always wants at least `least` samples and no more than the buffer takes,
        unless there are samples for all of its steps. */
    method ConsumeChunk(open: bool, samples: array<Sample>, answer: nat -> Answer, ghost least: nat)
        returns (fed: nat, exit: Exit)
      requires Valid() && samples != demodIn
      modifies this, demodIn
      ensures Valid() && fed <= samples.Length && Taken() == old(Taken()) + samples[..fed]
      ensures (exit.Skipped? <==> !open || samples.Length == 0) && (exit.Skipped? ==> fed == 0)
      ensures !exit.Running? && (exit.Hungry? || exit.Drained? ==> fed == samples.Length)
      ensures exit.GuardHit? && Steady(answer, least, demodIn.Length) ==>
        Floor(GUARD, least) <= old(demodCount) + samples.Length
      ensures exit.Missing? ==> exists k: nat :: k < GUARD && !answer(k).present
      ensures exit.Hungry? ==> exists k: nat :: k < GUARD && (answer(k).nin < 0 || answer(k).nin > demodCount)
      ensures exit.Drained? ==>
        exists k: nat :: k < GUARD && answer(k).present && answer(k).nin == 0 == answer(k).bytesOut
      ensures exit.GuardHit? ==> forall k: nat :: k < GUARD ==> answer(k).present
      ensures exit.GuardHit? && old(demodCount) + samples.Length <= demodIn.Length ==>
        forall k: nat :: k < GUARD ==> GoesOn(answer(k), demodIn.Length)
    {
      if !open || samples.Length == 0 {
        return 0, Skipped;
      }
      var guard := 0;
      fed := 0;
      ghost var floor: nat := 0;
      while guard < GUARD
        invariant 0 <= guard <= GUARD && Valid() && fed <= samples.Length
        invariant Taken() == old(Taken()) + samples[..fed]
        invariant floor == Floor(guard, least)
        invariant Steady(answer, least, demodIn.Length) ==> |consumed| >= |old(consumed)| + floor
        invariant forall k: nat :: k < guard ==> answer(k).present
        invariant guard == 0 ==> fed == 0 && demodCount == old(demodCount)
        invariant old(demodCount) + samples.Length <= demodIn.Length && guard > 0 ==> fed == samples.Length
        invariant old(demodCount) + samples.Length <= demodIn.Length ==>
          forall k: nat :: k < guard ==> GoesOn(answer(k), demodIn.Length)
      {
        var a := answer(guard);
        fed, exit := Step(samples, fed, a);
        if !exit.Running? {
          assert a == answer(guard);
          return;
        }
        floor := floor + least;
        guard := guard + 1;
      }
      return fed, GuardHit;
    }

    /** One turn of the loop; Running if it goes on. */
    method Step(samples: array<Sample>, from: nat, a: Answer) returns (fed: nat, exit: Exit)
      requires Valid() && from <= samples.Length && samples != demodIn
      modifies this, demodIn
      ensures Valid() && from <= fed <= samples.Length && Taken() == old(Taken()) + samples[from..fed]
      ensures exit.Hungry? || exit.Drained? ==> fed == samples.Length
      ensures exit.Missing? ==> !a.present
      ensures exit.Hungry? ==> a.nin < 0 || a.nin > demodCount
      ensures exit.Drained? ==> a.present && a.nin == 0 == a.bytesOut
      ensures exit.Running? && 0 <= a.nin <= demodIn.Length ==> |consumed| == |old(consumed)| + a.nin
      ensures !exit.GuardHit? && !exit.Skipped?
      ensures exit.Running? ==> a.present && (fed == samples.Length ==> GoesOn(a, demodIn.Length))
      ensures old(demodCount) + samples.Length - from <= demodIn.Length ==> fed == samples.Length
    {
      fed := FeedPiece(samples, from);
      if !a.present {
        return fed, Missing;
      }
      if a.nin < 0 || a.nin > demodCount {
        return fed, if fed >= samples.Length then Hungry else Running;
      }
      if a.nin > 0 {
        Drop(a.nin);
      }
      return fed, if fed >= samples.Length && a.nin == 0 && a.bytesOut == 0 then Drained else Running;
    }

    /** As much of the rest of the chunk as there is space for. */
    method FeedPiece(samples: array<Sample>, from: nat) returns (fed: nat)
      requires Valid() && from <= samples.Length && samples != demodIn
      modifies this`demodCount, demodIn
      ensures Valid() && from <= fed <= samples.Length && Taken() == old(Taken()) + samples[from..fed]
      ensures fed == samples.Length || demodCount == demodIn.Length
    {
      fed := from;
      var space := demodIn.Length - demodCount;
      if space > 0 && from < samples.Length {
        var feed := samples.Length - from;
        if feed > space {
          feed := space;
        }
        Append(samples, from, feed);
        fed := from + feed;
      }
    }

    /** memcpy to the end of the buffer */
    method Append(samples: array<Sample>, from: nat, feed: nat)
      requires Valid() && from + feed <= samples.Length && demodCount + feed <= demodIn.Length && samples != demodIn
      modifies this`demodCount, demodIn
      ensures Valid() && demodCount == old(demodCount) + feed
      ensures demodIn[..demodCount] == old(demodIn[..demodCount]) + samples[from..from + feed]
    {
      var i := 0;
      while i < feed
        modifies demodIn
        invariant 0 <= i <= feed
        invariant demodIn[..demodCount + i] == old(demodIn[..demodCount]) + samples[from..from + i]
      {
        demodIn[demodCount + i] := samples[from + i];
        i := i + 1;
      }
      demodCount := demodCount + feed;
    }

    /** The demodulator has consumed the first `nin` samples: memmove the rest to the front. */
    method Drop(nin: nat)
      requires Valid() && nin <= demodCount
      modifies this, demodIn
      ensures Valid() && demodCount == old(demodCount) - nin && Taken() == old(Taken())
      ensures consumed == old(consumed) + old(demodIn[..nin])
    {
      ghost var held := demodIn[..demodCount];
      assert held == held[..nin] + held[nin..];
      MoveDown(nin);
      demodCount := demodCount - nin;
      consumed := consumed + held[..nin];
    }

    method MoveDown(nin: nat)
      requires Valid() && nin <= demodCount
      modifies demodIn
      ensures demodIn[..demodCount - nin] == old(demodIn[..demodCount])[nin..]
    {
      var left, i := demodCount - nin, 0;
      while i < left
        invariant 0 <= i <= left
        invariant forall k :: 0 <= k < i ==> demodIn[k] == old(demodIn[k + nin])
        invariant forall k :: i <= k < demodIn.Length ==> demodIn[k] == old(demodIn[k])
      {
        demodIn[i] := demodIn[i + nin];
        i := i + 1;
      }
    }
  }
}
