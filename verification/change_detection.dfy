/**
 The check every node runs in onAnimate before touching its local texture:
 the texture is submitted whenever the frame counter in the state differs
 from the counter last applied. The function-local static `lastFrameCounter`
 of onAnimate becomes an explicit field of a per-node consumer.
 */
module ChangeDetection {
  import opened Generator
  import opened SharedState

  /** The value `last` holds before anything has been applied. */
  const NeverApplied: int := -1

  /**
   One node's consumer: the counter of the last applied state, the bytes its
   local texture holds, and the number of submits made so far.
   */
  datatype Consumer = Consumer(last: int, shown: seq<byte>, submits: nat)

  /** A consumer before its first frame; `blank` is whatever the fresh texture holds. */
  function Start(blank: seq<byte>): (c: Consumer)
    ensures c.submits == 0 && c.shown == blank
    ensures c.last == NeverApplied
  {
    Consumer(NeverApplied, blank, 0)
  }

  /** One observation: submit the state's texture when its counter differs from the last one applied. */
  function Observe(c: Consumer, s: TextureState): (r: Consumer)
    ensures r.last == s.frameCounter
    ensures s.frameCounter != c.last ==> r.shown == s.textureData && r.submits == c.submits + 1
    ensures s.frameCounter == c.last ==> r == c
  {
    if s.frameCounter != c.last then Consumer(s.frameCounter, s.textureData, c.submits + 1)
    else c
  }

  /** A fresh consumer applies the first state it sees, whatever its (non-negative) counter. */
  lemma FirstObservationSubmits(blank: seq<byte>, s: TextureState)
    requires s.frameCounter >= 0
    ensures Observe(Start(blank), s).submits == 1
    ensures Observe(Start(blank), s).shown == s.textureData
  {
  }

  /** Seeing the same counter again never submits again, even if the texture changed meanwhile. */
  lemma ObserveSameCounterOnce(c: Consumer, s: TextureState, s': TextureState)
    requires s'.frameCounter == s.frameCounter
    ensures Observe(Observe(c, s), s') == Observe(c, s)
  {
  }

  /** The consumer after observing a sequence of states, oldest first. */
  function ConsumeAll(c: Consumer, ss: seq<TextureState>): Consumer {
    if ss == [] then c else Observe(ConsumeAll(c, ss[..|ss| - 1]), ss[|ss| - 1])
  }

  /** The counters of a sequence of states. */
  function Counters(ss: seq<TextureState>): (fcs: seq<int>)
    ensures |fcs| == |ss|
    ensures forall i :: 0 <= i < |ss| ==> fcs[i] == ss[i].frameCounter
  {
    seq(|ss|, i requires 0 <= i < |ss| => ss[i].frameCounter)
  }

  /** Whether counter i differs from the one before it (from `last` for the first). */
  predicate ChangeAt(last: int, fcs: seq<int>, i: nat)
    requires i < |fcs|
  {
    fcs[i] != if i == 0 then last else fcs[i - 1]
  }

  /** Number of positions where the counter changes: the submits onAnimate is meant to make. */
  function Changes(last: int, fcs: seq<int>): nat {
    if fcs == [] then 0
    else Changes(last, fcs[..|fcs| - 1]) + if ChangeAt(last, fcs, |fcs| - 1) then 1 else 0
  }

  /**
   Over any sequence of observations the consumer submits exactly once per
   counter change and ends with `last` at the final counter.
   */
  lemma {:induction false} ConsumeAllCountsChanges(c: Consumer, ss: seq<TextureState>)
    ensures ConsumeAll(c, ss).submits == c.submits + Changes(c.last, Counters(ss))
    ensures ConsumeAll(c, ss).last == if ss == [] then c.last else ss[|ss| - 1].frameCounter
  {
    if ss != [] {
      var init := ss[..|ss| - 1];
      ConsumeAllCountsChanges(c, init);
      assert Counters(ss)[..|ss| - 1] == Counters(init);
    }
  }

  /** States carrying only a counter, for scenarios. */
  function WithCounters(fcs: seq<int>): (ss: seq<TextureState>)
    ensures Counters(ss) == fcs
  {
    seq(|fcs|, i requires 0 <= i < |fcs| => TextureState(0.0, 0.0, [], false, fcs[i]))
  }

  /** Duplicated deliveries [0, 0, 1, 1, 1, 2] make a fresh consumer submit exactly three times. */
  lemma DuplicatesSubmitOncePerCounter(blank: seq<byte>)
    ensures ConsumeAll(Start(blank), WithCounters([0, 0, 1, 1, 1, 2])).submits == 3
  {
    var fcs := [0, 0, 1, 1, 1, 2];
    ConsumeAllCountsChanges(Start(blank), WithCounters(fcs));
    assert Changes(-1, [0]) == 1;
    assert Changes(-1, [0, 0]) == 1 by { assert [0, 0][..1] == [0]; }
    assert Changes(-1, [0, 0, 1]) == 2 by { assert [0, 0, 1][..2] == [0, 0]; }
    assert Changes(-1, [0, 0, 1, 1]) == 2 by { assert [0, 0, 1, 1][..3] == [0, 0, 1]; }
    assert Changes(-1, [0, 0, 1, 1, 1]) == 2 by { assert [0, 0, 1, 1, 1][..4] == [0, 0, 1, 1]; }
    assert Changes(-1, fcs) == 3 by { assert fcs[..5] == [0, 0, 1, 1, 1]; }
  }
}
