/** The quadrature state machine of RotEncoder::intr (RotEncoder.cpp), as a
    step function over debounced contact samples, with the properties the
    library promises for sequences of samples. */
module Quadrature {
  import opened Pins

  /** One debounced reading: `a` is inA (contact A closed), `b` is inB. */
  datatype Sample = Sample(a: bool, b: bool)

  const Open := Sample(false, false)
  const OnlyA := Sample(true, false)
  const OnlyB := Sample(false, true)
  const Both := Sample(true, true)

  predicate IsBoth(s: Sample) { s.a && s.b }
  predicate IsOnlyA(s: Sample) { s.a && !s.b }
  predicate IsOnlyB(s: Sample) { !s.a && s.b }

  /** Exactly one contact closed: the samples at which the machine resolves a side. */
  predicate IsSingle(s: Sample) { s.a != s.b }

  /** The counting state of a RotEncoder: `position`; `cntflg`, set when both
      contacts were seen closed since the last single-contact resolution; and
      `lrflg`, the side of that resolution (true for A). */
  datatype Decoder = Decoder(position: int, cntflg: bool, lrflg: bool)

  /** The switch on (inA, inB) in intr: both closed arms the count, a single
      closed contact counts when armed and on the other side from the last
      one, then latches its side and disarms; neither closed does nothing. */
  function Step(d: Decoder, s: Sample): Decoder {
    if s.a then
      if s.b then d.(cntflg := true)
      else Decoder(if !d.lrflg && d.cntflg then d.position + 1 else d.position, false, true)
    else
      if s.b then Decoder(if d.lrflg && d.cntflg then d.position - 1 else d.position, false, false)
      else d
  }

  /** The modes of pins A and B at the end of an event. */
  datatype PinModes = PinModes(a: Mode, b: Mode)

  /** Both pins are re-enabled before sampling; a contact found closed alone
      then has its pin disabled (diPinA / diPinB). */
  function ModesAfter(s: Sample): PinModes {
    PinModes(if IsOnlyA(s) then DrivenLow else PullUp,
             if IsOnlyB(s) then DrivenLow else PullUp)
  }

  /** Current flows through a pin's pull-up resistor while the pin is pulled
      up and its contact grounds it. */
  predicate PullUpCurrent(m: Mode, contactClosed: bool) {
    m == PullUp && contactClosed
  }

  /** The events of a sequence of samples, handled in order. */
  function Run(d: Decoder, t: seq<Sample>): Decoder
    decreases |t|
  {
    if t == [] then d else Run(Step(d, t[0]), t[1..])
  }

  /** Each case of the switch, as the source states it. */
  lemma StepCases(d: Decoder, s: Sample)
    ensures IsBoth(s) ==> Step(d, s) == Decoder(d.position, true, d.lrflg)
    ensures !s.a && !s.b ==> Step(d, s) == d
    ensures IsOnlyA(s) ==> Step(d, s).lrflg && !Step(d, s).cntflg
    ensures IsOnlyA(s) ==> (Step(d, s).position == d.position + 1 <==> !d.lrflg && d.cntflg)
    ensures IsOnlyA(s) ==> (Step(d, s).position == d.position <==> !(!d.lrflg && d.cntflg))
    ensures IsOnlyB(s) ==> !Step(d, s).lrflg && !Step(d, s).cntflg
    ensures IsOnlyB(s) ==> (Step(d, s).position == d.position - 1 <==> d.lrflg && d.cntflg)
    ensures IsOnlyB(s) ==> (Step(d, s).position == d.position <==> !(d.lrflg && d.cntflg))
  {
  }

  /** An event moves the position by at most one, and only when it resolves a
      single contact while armed. */
  lemma StepMovesAtMostOne(d: Decoder, s: Sample)
    ensures -1 <= Step(d, s).position - d.position <= 1
    ensures Step(d, s).position != d.position ==> IsSingle(s) && d.cntflg
  {
  }

  /** After an event, current flows through a pull-up only while both contacts
      are closed, and a pin is driven low only while its contact is closed. */
  lemma StaticCurrent(s: Sample)
    ensures PullUpCurrent(ModesAfter(s).a, s.a) || PullUpCurrent(ModesAfter(s).b, s.b) <==> IsBoth(s)
    ensures ModesAfter(s).a == DrivenLow ==> s.a
    ensures ModesAfter(s).b == DrivenLow ==> s.b
  {
  }

  lemma {:induction false} RunSnoc(d: Decoder, t: seq<Sample>, s: Sample)
    ensures Run(d, t + [s]) == Step(Run(d, t), s)
    decreases |t|
  {
    if t == [] {
      assert [] + [s] == [s];
    } else {
      assert (t + [s])[1..] == t[1..] + [s];
      RunSnoc(Step(d, t[0]), t[1..], s);
    }
  }

  /** Handling two sequences one after the other is handling their concatenation. */
  lemma {:induction false} RunAppend(d: Decoder, t: seq<Sample>, u: seq<Sample>)
    ensures Run(d, t + u) == Run(Run(d, t), u)
    decreases |t|
  {
    if t == [] {
      assert [] + u == u;
    } else {
      assert (t + u)[1..] == t[1..] + u;
      RunAppend(Step(d, t[0]), t[1..], u);
    }
  }

  function CountBoth(t: seq<Sample>): nat
    decreases |t|
  {
    if t == [] then 0 else (if IsBoth(t[0]) then 1 else 0) + CountBoth(t[1..])
  }

  function Flag(b: bool): nat { if b then 1 else 0 }

  /** Each count consumes an arming, and only a both-closed sample arms: over
      any sequence the position moves by at most the number of both-closed
      samples, plus one if the machine started armed. */
  lemma {:induction false} CountsBoundedByBoth(d: Decoder, t: seq<Sample>)
    ensures Run(d, t).position - d.position + Flag(Run(d, t).cntflg) <= CountBoth(t) + Flag(d.cntflg)
    ensures d.position - Run(d, t).position + Flag(Run(d, t).cntflg) <= CountBoth(t) + Flag(d.cntflg)
    decreases |t|
  {
    if t != [] {
      CountsBoundedByBoth(Step(d, t[0]), t[1..]);
    }
  }

  /** Common-terminal bounce: samples that never resolve to a single contact
      never move the position and never change the side latch. */
  lemma {:induction false} BounceNeverCounts(d: Decoder, t: seq<Sample>)
    requires forall k :: 0 <= k < |t| ==> !IsSingle(t[k])
    ensures Run(d, t).position == d.position
    ensures Run(d, t).lrflg == d.lrflg
    decreases |t|
  {
    if t != [] {
      BounceNeverCounts(Step(d, t[0]), t[1..]);
    }
  }

  /** Jitter on side A: once the latch says A, samples that never reach
      B-only never move the position, however often both contacts close. */
  lemma {:induction false} JitterOnANeverCounts(d: Decoder, t: seq<Sample>)
    requires d.lrflg
    requires forall k :: 0 <= k < |t| ==> !IsOnlyB(t[k])
    ensures Run(d, t).position == d.position && Run(d, t).lrflg
    decreases |t|
  {
    if t != [] {
      JitterOnANeverCounts(Step(d, t[0]), t[1..]);
    }
  }

  /** Jitter on side B, the mirror image. */
  lemma {:induction false} JitterOnBNeverCounts(d: Decoder, t: seq<Sample>)
    requires !d.lrflg
    requires forall k :: 0 <= k < |t| ==> !IsOnlyA(t[k])
    ensures Run(d, t).position == d.position && !Run(d, t).lrflg
    decreases |t|
  {
    if t != [] {
      JitterOnBNeverCounts(Step(d, t[0]), t[1..]);
    }
  }

  lemma Run3(d: Decoder, x: Sample, y: Sample, z: Sample)
    ensures Run(d, [x, y, z]) == Step(Step(Step(d, x), y), z)
  {
    assert [x, y, z][1..] == [y, z];
    assert [y, z][1..] == [z];
    assert [z][1..] == [];
    var d1 := Step(d, x);
    var d2 := Step(d1, y);
    assert Run(d, [x, y, z]) == Run(d1, [y, z]);
    assert Run(d1, [y, z]) == Run(d2, [z]);
    assert Run(d2, [z]) == Run(Step(d2, z), []);
  }

  lemma Run5(d: Decoder, v: Sample, w: Sample, x: Sample, y: Sample, z: Sample)
    ensures Run(d, [v, w, x, y, z]) == Step(Step(Run(d, [v, w, x]), y), z)
  {
    assert [v, w, x, y, z] == [v, w, x] + [y, z];
    RunAppend(d, [v, w, x], [y, z]);
    assert [y, z][1..] == [z];
    assert [z][1..] == [];
    var d3 := Run(d, [v, w, x]);
    assert Run(d3, [y, z]) == Run(Step(d3, y), [z]);
    assert Run(Step(d3, y), [z]) == Run(Step(Step(d3, y), z), []);
  }

  /** A-only, both, B-only counts one step down; the reverse order one step
      up. (The first resolution is counted by whatever came before it.) */
  lemma TransitionDirection(d: Decoder)
    ensures Run(d, [OnlyA, Both, OnlyB]).position == Step(d, OnlyA).position - 1
    ensures Run(d, [OnlyB, Both, OnlyA]).position == Step(d, OnlyB).position + 1
    ensures Run(d, [OnlyA, Both, OnlyA]).position == Step(d, OnlyA).position
    ensures Run(d, [OnlyB, Both, OnlyB]).position == Step(d, OnlyB).position
  {
    Run3(d, OnlyA, Both, OnlyB);
    Run3(d, OnlyB, Both, OnlyA);
    Run3(d, OnlyA, Both, OnlyA);
    Run3(d, OnlyB, Both, OnlyB);
  }

  const ForwardCycle := [Open, OnlyA, Both, OnlyB, Open]
  const ReverseCycle := [Open, OnlyB, Both, OnlyA, Open]
  const JitterCycle := [Open, OnlyA, Both, OnlyA, Open]
  const BounceCycle := [Open, Both, Open, Both, Open]

  /** The four detent-to-detent traces, from an unarmed machine (as after
      construction or after any single-contact resolution), for either value
      of the side latch. */
  lemma DetentTraces(d: Decoder)
    requires !d.cntflg
    ensures Run(d, ForwardCycle) == Decoder(d.position - 1, false, false)
    ensures Run(d, ReverseCycle) == Decoder(d.position + 1, false, true)
    ensures Run(d, JitterCycle) == Decoder(d.position, false, true)
    ensures Run(d, BounceCycle) == Decoder(d.position, true, d.lrflg)
  {
    Run5(d, Open, OnlyA, Both, OnlyB, Open);
    Run3(d, Open, OnlyA, Both);
    Run5(d, Open, OnlyB, Both, OnlyA, Open);
    Run3(d, Open, OnlyB, Both);
    Run5(d, Open, OnlyA, Both, OnlyA, Open);
    Run5(d, Open, Both, Open, Both, Open);
    Run3(d, Open, Both, Open);
  }

  function Repeat(t: seq<Sample>, n: nat): seq<Sample>
    decreases n
  {
    if n == 0 then [] else t + Repeat(t, n - 1)
  }

  /** n full cycles in one direction count exactly n steps, each cycle once. */
  lemma {:induction false} RepeatedCycles(d: Decoder, n: nat)
    requires !d.cntflg
    ensures Run(d, Repeat(ForwardCycle, n)).position == d.position - n
    ensures Run(d, Repeat(ReverseCycle, n)).position == d.position + n
    decreases n
  {
    if n > 0 {
      DetentTraces(d);
      RunAppend(d, ForwardCycle, Repeat(ForwardCycle, n - 1));
      RunAppend(d, ReverseCycle, Repeat(ReverseCycle, n - 1));
      RepeatedCycles(Run(d, ForwardCycle), n - 1);
      RepeatedCycles(Run(d, ReverseCycle), n - 1);
    }
  }

  // A reference definition of the decoder in terms of the history of samples.

  /** The index of the last single-contact sample before index i, or -1. */
  function LastSingle(t: seq<Sample>, i: nat): (j: int)
    requires i <= |t|
    ensures -1 <= j < i
    ensures j >= 0 ==> IsSingle(t[j])
    ensures forall k :: j < k < i ==> !IsSingle(t[k])
    decreases i
  {
    if i == 0 then -1 else if IsSingle(t[i - 1]) then i - 1 else LastSingle(t, i - 1)
  }

  /** The side latched before sample i: that of the last resolution, or the
      initial latch when none happened yet. */
  function LatchBefore(d0: Decoder, t: seq<Sample>, i: nat): bool
    requires i <= |t|
  {
    var j := LastSingle(t, i);
    if j < 0 then d0.lrflg else t[j].a
  }

  /** Armed before sample i: both contacts were seen closed since the last
      resolution (or, with no resolution yet, the machine started armed). */
  predicate ArmedBefore(d0: Decoder, t: seq<Sample>, i: nat)
    requires i <= |t|
  {
    var j := LastSingle(t, i);
    (j < 0 && d0.cntflg) || exists k :: j < k < i && IsBoth(t[k])
  }

  /** What sample i counts: a step up on an armed resolution to A from B, a
      step down on an armed resolution to B from A, nothing otherwise. */
  function StepAt(d0: Decoder, t: seq<Sample>, i: nat): int
    requires i < |t|
  {
    if IsOnlyA(t[i]) && !LatchBefore(d0, t, i) && ArmedBefore(d0, t, i) then 1
    else if IsOnlyB(t[i]) && LatchBefore(d0, t, i) && ArmedBefore(d0, t, i) then -1
    else 0
  }

  function NetSteps(d0: Decoder, t: seq<Sample>, n: nat): int
    requires n <= |t|
    decreases n
  {
    if n == 0 then 0 else NetSteps(d0, t, n - 1) + StepAt(d0, t, n - 1)
  }

  function Reference(d0: Decoder, t: seq<Sample>, i: nat): Decoder
    requires i <= |t|
  {
    Decoder(d0.position + NetSteps(d0, t, i), ArmedBefore(d0, t, i), LatchBefore(d0, t, i))
  }

  lemma StepReference(d0: Decoder, t: seq<Sample>, i: nat)
    requires 0 < i <= |t|
    ensures Step(Reference(d0, t, i - 1), t[i - 1]) == Reference(d0, t, i)
  {
    var s := t[i - 1];
    if IsSingle(s) {
      assert LastSingle(t, i) == i - 1;
    } else {
      assert LastSingle(t, i) == LastSingle(t, i - 1);
      var j := LastSingle(t, i);
      if IsBoth(s) {
        assert j < i - 1 < i && IsBoth(t[i - 1]);
      } else {
        assert (exists k :: j < k < i && IsBoth(t[k])) <==> (exists k :: j < k < i - 1 && IsBoth(t[k]));
      }
    }
  }

  /** The machine agrees with the reference after every prefix of the samples. */
  lemma {:induction false} RunMatchesReference(d0: Decoder, t: seq<Sample>, i: nat)
    requires i <= |t|
    ensures Run(d0, t[..i]) == Reference(d0, t, i)
    decreases i
  {
    if i == 0 {
      assert t[..0] == [];
    } else {
      RunMatchesReference(d0, t, i - 1);
      assert t[..i] == t[..i - 1] + [t[i - 1]];
      RunSnoc(d0, t[..i - 1], t[i - 1]);
      StepReference(d0, t, i);
    }
  }

  /** Full-transition-only counting: the position after any sequence of
      samples is the initial one plus the steps the reference grants, and the
      flags are the reference's "armed" and "last side". */
  lemma RunIsReference(d0: Decoder, t: seq<Sample>)
    ensures Run(d0, t) == Reference(d0, t, |t|)
  {
    RunMatchesReference(d0, t, |t|);
    assert t[..|t|] == t;
  }
}
