// The samples the playback worklet hands out, against everything that was ever enqueued.
module Fading {
  import opened Protocol
  import opened Playback
  import opened PlaybackTheorems

  // Everything enqueued in a run, in order of arrival.
  function Stream(ops: seq<Op>): seq<real> {
    if ops == [] then []
    else
      var last := ops[|ops| - 1];
      Stream(ops[..|ops| - 1]) + if last.Enqueue? then last.samples else []
  }

  // A sample handed out, and the queued sample it sounds, if it is one.
  datatype Hand = Hand(sample: Sample, sounds: Option<Sounded>)

  // What the operation hands out.
  function HandOf(w: Worklet, op: Op): seq<Hand> {
    if !op.Next? || SampleOf(w).None? then []
    else
      var after := Apply(w, op).output;
      [Hand(SampleOf(w).value, if |after| > |w.output| then Some(after[|after| - 1]) else None)]
  }

  // All that a run hands out.
  function Handed(w: Worklet, ops: seq<Op>): seq<Hand> {
    if ops == [] then []
    else
      var front, last := ops[..|ops| - 1], ops[|ops| - 1];
      Handed(w, front) + HandOf(After(w, front), last)
  }

  // ---------- audio callbacks write what their runs hand out ----------

  lemma {:induction false} HandedFirst(w: Worklet, op: Op, ops: seq<Op>)
    ensures Handed(w, [op] + ops) == HandOf(w, op) + Handed(Apply(w, op), ops)
    decreases |ops|
  {
    hide Apply, HandOf;
    if ops == [] {
      assert [op] + ops == [op] && [op][..0] == [];
      assert Handed(w, [op]) == Handed(w, []) + HandOf(After(w, []), op);
    } else {
      var front, last := ops[..|ops| - 1], ops[|ops| - 1];
      HandedFirst(w, op, front);
      AfterFirst(w, op, front);
      assert ([op] + ops)[..|ops|] == [op] + front;
    }
  }

  function SamplesOf(hands: seq<Hand>): seq<Sample> {
    seq(|hands|, i requires 0 <= i < |hands| => hands[i].sample)
  }

  lemma SamplesFirst(hand: Hand, rest: seq<Hand>)
    ensures SamplesOf([hand] + rest) == [hand.sample] + SamplesOf(rest)
  {
  }

  lemma NextHands(w: Worklet, historyLength: nat)
    requires !Dry(w)
    ensures var hands := HandOf(w, Next(historyLength));
            && SampleOf(w).Some? && |hands| == 1 && hands[0].sample == SampleOf(w).value
            && Apply(w, Next(historyLength)) == Remembered(Stepped(w), historyLength)
  {
    DryGivesNothing(w);
    hide SampleOf, Dry, Stepped, Remembered;
  }

  lemma {:induction false} WrittenIsHanded(w: Worklet, n: nat, burst: seq<real>, historyLength: nat)
    ensures Written(w, n, historyLength) == SamplesOf(Handed(w, RenderOps(w, n, burst, historyLength)))
    decreases n
  {
    hide Stepped, Underflowed, Remembered, SampleOf, Dry, HandOf, SamplesOf, Apply;
    DryGivesNothing(w);
    if n == 0 {
      NoSamples();
    } else if Dry(w) {
      UnderflowHands(w, burst);
      NoSamples();
    } else {
      var next := Remembered(Stepped(w), historyLength);
      var rest := RenderOps(next, n - 1, burst, historyLength);
      WrittenIsHanded(next, n - 1, burst, historyLength);
      NextHands(w, historyLength);
      HandedFirst(w, Next(historyLength), rest);
      var hands := HandOf(w, Next(historyLength));
      assert hands == [hands[0]];
      SamplesFirst(hands[0], Handed(next, rest));
    }
  }

  lemma NoSamples()
    ensures SamplesOf([]) == []
  {
  }

  lemma UnderflowHands(w: Worklet, burst: seq<real>)
    ensures Handed(w, [Underflow(burst)]) == []
  {
    assert [Underflow(burst)][..0] == [];
    assert Handed(w, []) == [];
  }

  // ---------- what is queued is what arrived ----------

  // Every frame held is a stretch of the stream.
  ghost predicate Backed(w: Worklet, stream: seq<real>) {
    && |stream| == w.arrived
    && forall f :: f in Pending(w) ==>
         f.start + |f.samples| <= |stream| && f.samples == stream[f.start..f.start + |f.samples|]
  }

  lemma BackedLess(w: Worklet, after: Worklet, stream: seq<real>)
    requires Backed(w, stream) && after.arrived == w.arrived
    requires forall f :: f in Pending(after) ==>
               exists h :: h in Pending(w) && h.start == f.start && h.samples == f.samples
    ensures Backed(after, stream)
  {
  }

  lemma BackedEnqueue(w: Worklet, stream: seq<real>, g: Id, end: nat, samples: seq<real>)
    requires Backed(w, stream)
    ensures Backed(Enqueued(w, g, end, samples), stream + samples)
  {
    var after := Enqueued(w, g, end, samples);
    var all := stream + samples;
    var frame := Frame(g, end, samples, 0, w.arrived);
    assert Pending(after) == Pending(w) + [frame];
    forall f | f in Pending(after)
      ensures f.start + |f.samples| <= |all| && f.samples == all[f.start..f.start + |f.samples|]
    {
      if f in Pending(w) {
        assert all[f.start..f.start + |f.samples|] == stream[f.start..f.start + |f.samples|];
      }
    }
  }

  lemma BackedStep(w: Worklet, stream: seq<real>)
    requires Backed(w, stream)
    ensures Backed(Stepped(w), stream)
  {
    if Concealing(w) {
      assert Pending(Concealed(w)) == Pending(w);
    } else {
      PickedPending(w);
      var p := Picked(w);
      hide Picked;
      if p.current.Some? {
        var f := p.current.value;
        assert Pending(p) == [f] + p.queue;
        if Fading(p) && p.fadeRemaining <= 1 {
          var q := p.(fadeRemaining := p.fadeRemaining - 1);
          assert Pending(CurrentDropped(q)) == p.queue;
        } else {
          AdvancedParts(p);
          hide Advanced;
          var moved := f.(offset := f.offset + 1);
          assert Pending(Advanced(p)) == (if Advanced(p).current.Some? then [moved] else []) + p.queue;
        }
      }
      hide Backed;
      assert w.arrived == Stepped(w).arrived;
      BackedPicked(w, p, stream);
      BackedLess(p, Stepped(w), stream);
    }
  }

  lemma BackedPicked(w: Worklet, p: Worklet, stream: seq<real>)
    requires Backed(w, stream) && Pending(p) == Pending(w) && p.arrived == w.arrived
    ensures Backed(p, stream)
  {
  }

  lemma BackedCancel(w: Worklet, stream: seq<real>, g: Id, fade: nat)
    requires Backed(w, stream)
    ensures Backed(Canceled(w, g, fade), stream)
  {
    hide Backed;
    RetainedAbsent(w.queue, g);
    CancelParts(w, g, fade);
    hide Canceled, Retained, Removed;
    var after := Canceled(w, g, fade);
    forall f | f in Pending(after)
      ensures f in Pending(w)
    {
      if f in after.queue {
        assert f in w.queue;
      }
    }
    BackedLess(w, after, stream);
  }

  lemma QuietPending(w: Worklet, op: Op)
    requires op.Underflow? || op.Complete? || op.Begin? || op.Report?
    ensures Pending(Apply(w, op)) == Pending(w) && Apply(w, op).arrived == w.arrived
  {
  }

  lemma BackedOp(w: Worklet, stream: seq<real>, op: Op)
    requires Backed(w, stream)
    ensures Backed(Apply(w, op), stream + if op.Enqueue? then op.samples else [])
  {
    assert stream + [] == stream;
    hide Backed;
    match op {
      case Enqueue(g, end, samples) => BackedEnqueue(w, stream, g, end, samples);
      case Cancel(g, fade) =>
        BackedCancel(w, stream, g, fade);
      case Next(historyLength) =>
        BackedStep(w, stream);
        hide Stepped;
        BackedPicked(Stepped(w), Remembered(Stepped(w), historyLength), stream);
      case _ =>
        QuietPending(w, op);
        hide Apply;
        BackedPicked(w, Apply(w, op), stream);
    }
  }

  lemma {:induction false} RunBacked(ops: seq<Op>)
    ensures Backed(After(FRESH_WORKLET, ops), Stream(ops))
  {
    if ops != [] {
      hide Apply, Backed;
      RunBacked(ops[..|ops| - 1]);
      BackedOp(After(FRESH_WORKLET, ops[..|ops| - 1]), Stream(ops[..|ops| - 1]), ops[|ops| - 1]);
    }
  }

  // ---------- one sample ----------

  // A queued sample is handed out as it arrived, times its gain; anything else handed out is a sample of
  // the concealment in progress, the silence that ends a fade, or what an empty frame gives.
  lemma HandIsStream(w: Worklet, stream: seq<real>, historyLength: nat)
    requires Backed(w, stream) && SampleOf(w).Some?
    ensures var hand := HandOf(w, Next(historyLength))[0];
            if hand.sounds.Some?
            then hand.sounds.value.index < |stream| &&
                 hand.sample == Value(stream[hand.sounds.value.index] * hand.sounds.value.gain)
            else if Concealing(w) then hand.sample == Value(w.plcFrame.value[w.plcOffset])
            else hand.sample == SILENCE || hand.sample == NotANumber
  {
    if !Concealing(w) {
      var p := Picked(w);
      PickedPending(w);
      BackedPicked(w, p, stream);
      PickedSamples(w);
      hide Picked, Backed;
      if p.current.Some? {
        CurrentIsStream(p, stream);
        SteppedOutput(w);
        hide Stepped, Gain, SampleOf;
      }
    }
  }

  // What the current frame has at its offset is what arrived there.
  lemma CurrentIsStream(p: Worklet, stream: seq<real>)
    requires Backed(p, stream) && p.current.Some?
    ensures var f := p.current.value;
            f.offset < |f.samples| ==>
              f.start + f.offset < |stream| && f.samples[f.offset] == stream[f.start + f.offset]
  {
    var f := p.current.value;
    assert f in Pending(p);
    if f.offset < |f.samples| {
      assert f.samples[f.offset] == stream[f.start..f.start + |f.samples|][f.offset];
    }
  }

  lemma PickedSamples(w: Worklet)
    requires !Concealing(w)
    ensures var p := Picked(w);
            SampleOf(w) ==
              if p.current.None? then None
              else
                var f := p.current.value;
                if Fading(p) && p.fadeRemaining <= 1 then Some(SILENCE)
                else if f.offset < |f.samples| then Some(Value(f.samples[f.offset] * Gain(p)))
                else Some(NotANumber)
  {
  }

  lemma SteppedOutput(w: Worklet)
    requires !Concealing(w) && Picked(w).current.Some?
    ensures var p, after := Picked(w), Stepped(w).output;
            var f := p.current.value;
            after == w.output +
              if !(Fading(p) && p.fadeRemaining <= 1) && f.offset < |f.samples|
              then [Sounded(f.start + f.offset, f.generation, Gain(p))] else []
  {
    PickedPending(w);
    AdvancedParts(Picked(w));
    hide Picked, Advanced, Gain;
  }

  predicate FromStream(hand: Hand, stream: seq<real>) {
    hand.sounds.Some? ==>
      hand.sounds.value.index < |stream| &&
      hand.sample == Value(stream[hand.sounds.value.index] * hand.sounds.value.gain)
  }

  ghost predicate AllFromStream(hands: seq<Hand>, stream: seq<real>) {
    forall hand :: hand in hands ==> FromStream(hand, stream)
  }

  lemma FromLonger(hands: seq<Hand>, more: seq<Hand>, stream: seq<real>, longer: seq<real>)
    requires AllFromStream(hands, stream) && AllFromStream(more, stream) && stream <= longer
    ensures AllFromStream(hands + more, longer)
  {
    forall hand | hand in hands + more
      ensures FromStream(hand, longer)
    {
      assert hand in hands || hand in more;
      assert FromStream(hand, stream);
    }
  }

  lemma OneHand(w: Worklet, op: Op)
    requires op.Next? && SampleOf(w).Some?
    ensures |HandOf(w, op)| == 1
  {
    hide SampleOf, Apply;
  }

  lemma HandFromStream(w: Worklet, stream: seq<real>, op: Op)
    requires Backed(w, stream)
    ensures AllFromStream(HandOf(w, op), stream)
  {
    hide Backed;
    if op.Next? && SampleOf(w).Some? {
      HandIsStream(w, stream, op.historyLength);
      OneHand(w, op);
      hide SampleOf, Apply, HandOf;
      assert FromStream(HandOf(w, op)[0], stream);
    }
  }

  // In any run, whatever is handed out as a queued sample is the sample that arrived at its place, times
  // the gain it is sounded at.
  lemma {:induction false} HandedIsStream(ops: seq<Op>)
    ensures AllFromStream(Handed(FRESH_WORKLET, ops), Stream(ops))
  {
    hide AllFromStream, Backed, HandOf, Apply;
    if ops == [] {
      NoneFromStream();
    } else {
      var front, last := ops[..|ops| - 1], ops[|ops| - 1];
      var w := After(FRESH_WORKLET, front);
      HandedIsStream(front);
      RunBacked(front);
      HandFromStream(w, Stream(front), last);
      FromLonger(Handed(FRESH_WORKLET, front), HandOf(w, last), Stream(front), Stream(ops));
    }
  }

  lemma NoneFromStream()
    ensures AllFromStream([], [])
  {
  }

  // ---------- the fade, as it is heard ----------

  // What is handed out of generation `g`.
  function HandsOf(hands: seq<Hand>, g: Id): seq<Hand> {
    if hands == [] then []
    else
      var last := hands[|hands| - 1];
      HandsOf(hands[..|hands| - 1], g) +
      if last.sounds.Some? && last.sounds.value.generation == g then [last] else []
  }

  lemma HandsMore(hands: seq<Hand>, more: seq<Hand>, g: Id)
    requires |more| <= 1
    ensures HandsOf(hands + more, g) ==
            HandsOf(hands, g) +
            if more != [] && more[0].sounds.Some? && more[0].sounds.value.generation == g then more else []
  {
    if more == [] {
      assert hands + more == hands;
    } else {
      assert (hands + more)[..|hands|] == hands;
      assert [more[0]] == more;
    }
  }

  // An operation adds to the sounded samples exactly what it hands out of the queue.
  lemma HandIsOutput(w: Worklet, op: Op)
    ensures var hands := HandOf(w, op);
            Apply(w, op).output ==
              w.output + if hands != [] && hands[0].sounds.Some? then [hands[0].sounds.value] else []
  {
    match op {
      case Cancel(g, fade) =>
        CancelParts(w, g, fade);
        hide Canceled;
      case Next(historyLength) =>
        NextIsOutput(w, historyLength);
        hide SampleOf, Stepped, Dry;
      case _ =>
    }
  }

  lemma NextIsOutput(w: Worklet, historyLength: nat)
    ensures var hands := HandOf(w, Next(historyLength));
            Apply(w, Next(historyLength)).output ==
              w.output + if hands != [] && hands[0].sounds.Some? then [hands[0].sounds.value] else []
  {
    DryGivesNothing(w);
    hide SampleOf, Dry;
    SteppedSounds(w);
    hide Stepped;
  }

  lemma SteppedSounds(w: Worklet)
    ensures var after := Stepped(w).output;
            |w.output| <= |after| <= |w.output| + 1 && after[..|w.output|] == w.output
  {
    if !Concealing(w) {
      PickedPending(w);
      var p := Picked(w);
      hide Picked;
      if p.current.Some? {
        AdvancedParts(p);
        hide Advanced, Gain;
      }
    }
  }

  // The gains of what a run hands out of `g` are those it is sounded at.
  lemma {:induction false} HandGains(w: Worklet, ops: seq<Op>, g: Id)
    ensures |w.output| <= |After(w, ops).output|
    ensures var hands, gains := HandsOf(Handed(w, ops), g), GainsOf(After(w, ops).output[|w.output|..], g);
            |hands| == |gains| && forall k :: 0 <= k < |hands| ==>
              hands[k].sounds.Some? && hands[k].sounds.value.gain == gains[k] && hands[k] in Handed(w, ops)
  {
    if ops == [] {
      assert w.output[|w.output|..] == [];
    } else {
      var front, last := ops[..|ops| - 1], ops[|ops| - 1];
      var u := After(w, front);
      HandGains(w, front, g);
      HandIsOutput(u, last);
      HandsMore(Handed(w, front), HandOf(u, last), g);
      assert |HandOf(u, last)| <= 1;
      hide Apply, HandOf, HandsOf, GainsOf;
      var hands := HandOf(u, last);
      assert Handed(w, ops) == Handed(w, front) + hands;
      if hands != [] && hands[0].sounds.Some? {
        GainsMore(u.output, hands[0].sounds.value, g, |w.output|);
      } else {
        assert u.output + [] == u.output;
      }
    }
  }

  // Fewer samples than the fade is long, the k-th of them the one that arrived at its place times
  // (total - k)/total.
  ghost predicate FadesOut(hands: seq<Hand>, stream: seq<real>, total: nat)
    requires total > 0
  {
    && |hands| < total
    && forall k :: 0 <= k < |hands| ==>
         && hands[k].sounds.Some? && hands[k].sounds.value.index < |stream|
         && hands[k].sample == Value(stream[hands[k].sounds.value.index] * ((total - k) as real / total as real))
  }

  // After one cancel of `g` in any run, with no further frame and no further cancel of `g`, what is handed
  // out of `g` fades out.
  lemma CancelIsHeard(before: seq<Op>, g: Id, fadeSamples: nat, ops: seq<Op>)
    requires forall i :: 0 <= i < |ops| && (ops[i].Enqueue? || ops[i].Cancel?) ==> ops[i].generation != g
    ensures var start := before + [Cancel(g, fadeSamples)];
            FadesOut(HandsOf(Handed(After(FRESH_WORKLET, start), ops), g), Stream(start + ops),
                     if fadeSamples < 1 then 1 else fadeSamples)
  {
    var w := After(FRESH_WORKLET, before);
    var start := before + [Cancel(g, fadeSamples)];
    var total := if fadeSamples < 1 then 1 else fadeSamples;
    var canceled := Canceled(w, g, fadeSamples);
    assert start[..|start| - 1] == before;
    assert After(FRESH_WORKLET, start) == canceled;
    assert canceled.output == w.output by {
      CancelParts(w, g, fadeSamples);
    }
    hide After, Handed, HandsOf, Canceled, Stream, GainsOf, Ramp, AllFromStream, FadesOut;
    CancelFadesOut(w, g, fadeSamples, ops);
    var later := After(canceled, ops);
    assert FadingOut(later, g, total, |w.output|);
    HandGains(canceled, ops, g);
    HandedIsStream(start + ops);
    HandedConcat(FRESH_WORKLET, start, ops);
    var gains := GainsOf(later.output[|w.output|..], g);
    assert gains == Ramp(total, |gains|) && |gains| < total;
    FadedHands(Handed(FRESH_WORKLET, start), Handed(canceled, ops), Stream(start + ops),
               HandsOf(Handed(canceled, ops), g), gains, total);
  }

  lemma FadedHands(first: seq<Hand>, all: seq<Hand>, stream: seq<real>, hands: seq<Hand>, gains: seq<real>, total: nat)
    requires total > 0 && |hands| == |gains| < total && gains == Ramp(total, |gains|)
    requires AllFromStream(first + all, stream)
    requires forall k :: 0 <= k < |hands| ==>
               hands[k].sounds.Some? && hands[k].sounds.value.gain == gains[k] && hands[k] in all
    ensures FadesOut(hands, stream, total)
  {
    forall k | 0 <= k < |hands|
      ensures hands[k].sounds.value.index < |stream|
      ensures hands[k].sample == Value(stream[hands[k].sounds.value.index] * ((total - k) as real / total as real))
    {
      assert hands[k] in first + all;
      assert FromStream(hands[k], stream);
      assert gains[k] == (total - k) as real / total as real;
    }
  }

  lemma {:induction false} HandedConcat(w: Worklet, ops: seq<Op>, more: seq<Op>)
    ensures Handed(w, ops + more) == Handed(w, ops) + Handed(After(w, ops), more)
    ensures After(w, ops + more) == After(After(w, ops), more)
  {
    hide Apply, HandOf;
    if more == [] {
      assert ops + more == ops;
    } else {
      var front, last := more[..|more| - 1], more[|more| - 1];
      HandedConcat(w, ops, front);
      assert (ops + more)[..|ops + more| - 1] == ops + front;
      assert (ops + more)[|ops + more| - 1] == last;
    }
  }

  // A generation that no one cancelled is handed out as it arrived.
  lemma {:induction false} UncancelledIsPlain(ops: seq<Op>, g: Id)
    requires forall i :: 0 <= i < |ops| && ops[i].Cancel? ==> ops[i].generation != g
    ensures After(FRESH_WORKLET, ops).fadeGeneration != Some(g)
    ensures forall hand :: hand in Handed(FRESH_WORKLET, ops) && hand.sounds.Some? &&
                           hand.sounds.value.generation == g ==>
              hand.sounds.value.index < |Stream(ops)| && hand.sample == Value(Stream(ops)[hand.sounds.value.index])
  {
    if ops != [] {
      var front, last := ops[..|ops| - 1], ops[|ops| - 1];
      var w := After(FRESH_WORKLET, front);
      UncancelledIsPlain(front, g);
      HandedIsStream(ops);
      PlainOp(w, last, g);
      hide Apply, HandOf, FromStream;
      forall hand | hand in Handed(FRESH_WORKLET, ops) && hand.sounds.Some? && hand.sounds.value.generation == g
        ensures hand.sounds.value.index < |Stream(ops)| && hand.sample == Value(Stream(ops)[hand.sounds.value.index])
      {
        assert FromStream(hand, Stream(ops));
        assert hand in Handed(FRESH_WORKLET, front) || hand in HandOf(w, last);
        PlainSample(hand, Stream(front), Stream(ops));
      }
    }
  }

  lemma PlainSample(hand: Hand, stream: seq<real>, longer: seq<real>)
    requires hand.sounds.Some? && FromStream(hand, longer) && stream <= longer
    ensures hand.sounds.value.index < |stream| && hand.sample == Value(stream[hand.sounds.value.index]) ==>
              hand.sample == Value(longer[hand.sounds.value.index])
    ensures hand.sounds.value.gain == 1.0 ==> hand.sample == Value(longer[hand.sounds.value.index])
    ensures hand.sounds.value.index < |longer|
  {
  }

  lemma PlainStep(w: Worklet, g: Id)
    requires w.fadeGeneration != Some(g)
    ensures var after := Stepped(w);
            && after.fadeGeneration != Some(g) && |w.output| <= |after.output|
            && (|w.output| < |after.output| ==>
                  var last := after.output[|after.output| - 1]; last.generation == g ==> last.gain == 1.0)
  {
    if !Concealing(w) {
      var p := Picked(w);
      assert p.fadeGeneration == w.fadeGeneration && p.output == w.output;
      hide Picked;
      if p.current.Some? {
        AdvancedParts(p);
        hide Advanced;
      }
    }
  }

  lemma PlainFade(w: Worklet, op: Op, g: Id)
    requires w.fadeGeneration != Some(g) && (op.Cancel? ==> op.generation != g)
    ensures Apply(w, op).fadeGeneration != Some(g)
  {
    hide Stepped, Dry, Canceled;
    match op {
      case Next(historyLength) => PlainStep(w, g);
      case Cancel(h, fade) => PlainCancel(w, h, fade, g);
      case _ =>
    }
  }

  lemma PlainHand(w: Worklet, op: Op, g: Id)
    requires w.fadeGeneration != Some(g)
    ensures var hands := HandOf(w, op);
            |hands| <= 1 && (hands != [] && hands[0].sounds.Some? && hands[0].sounds.value.generation == g ==>
                               hands[0].sounds.value.gain == 1.0)
  {
    hide Stepped, SampleOf, Dry;
    if op.Next? {
      DryGivesNothing(w);
      PlainStep(w, g);
    }
  }

  lemma PlainOp(w: Worklet, op: Op, g: Id)
    requires w.fadeGeneration != Some(g) && (op.Cancel? ==> op.generation != g)
    ensures Apply(w, op).fadeGeneration != Some(g)
    ensures forall hand :: hand in HandOf(w, op) && hand.sounds.Some? && hand.sounds.value.generation == g ==>
              hand.sounds.value.gain == 1.0
  {
    hide Apply, HandOf;
    PlainFade(w, op, g);
    PlainHand(w, op, g);
  }

  lemma PlainCancel(w: Worklet, h: Id, fade: nat, g: Id)
    requires w.fadeGeneration != Some(g) && h != g
    ensures Canceled(w, h, fade).fadeGeneration != Some(g)
  {
    hide Retained, Removed, SpanOf, LeftIn;
  }

  // ---------- concealment, as it is heard ----------

  function Nexts(k: nat, historyLength: nat): seq<Op> {
    seq(k, _ => Next(historyLength))
  }

  // `k` samples into a concealment, the burst's next sample is handed out.
  lemma {:induction false} BurstIsHeard(w: Worklet, k: nat, historyLength: nat)
    requires Concealing(w) && w.plcOffset + k < |w.plcFrame.value|
    ensures var u := After(w, Nexts(k, historyLength));
            && u.plcFrame == w.plcFrame && u.plcOffset == w.plcOffset + k && u.output == w.output
            && SampleOf(u) == Some(Value(w.plcFrame.value[w.plcOffset + k]))
  {
    if k > 0 {
      var ops := Nexts(k, historyLength);
      BurstIsHeard(w, k - 1, historyLength);
      assert ops[..k - 1] == Nexts(k - 1, historyLength) && ops[k - 1] == Next(historyLength);
      hide Nexts;
      var u := After(w, Nexts(k - 1, historyLength));
      assert After(w, ops) == Apply(u, Next(historyLength));
      hide After;
      ConcealStep(u, historyLength);
    }
  }

  lemma ConcealStep(u: Worklet, historyLength: nat)
    requires Concealing(u) && u.plcOffset + 1 < |u.plcFrame.value|
    ensures var after := Apply(u, Next(historyLength));
            && after.plcFrame == u.plcFrame && after.plcOffset == u.plcOffset + 1 && after.output == u.output
            && SampleOf(after) == Some(Value(u.plcFrame.value[u.plcOffset + 1]))
  {
  }

  // A run that conceals hands out the whole burst, in order.
  lemma ConcealmentIsHeard(w: Worklet, burst: seq<real>, k: nat, historyLength: nat)
    requires Dry(w) && Conceals(w) && k < |burst|
    ensures SampleOf(After(Apply(w, Underflow(burst)), Nexts(k, historyLength))) == Some(Value(burst[k]))
  {
    BurstIsHeard(Apply(w, Underflow(burst)), k, historyLength);
  }

  // A gap is concealed exactly if the generation heard last is not over, more than 32 samples are
  // remembered and nothing is booked from an earlier concealment; otherwise playback stops.
  lemma GapIsConcealedExactly(w: Worklet, burst: seq<real>)
    requires Dry(w)
    ensures var after := Apply(w, Underflow(burst));
            if (exists g :: w.lastGeneration == Some(g) && g !in w.completed) && w.historyFilled > 32 &&
               w.plcRemaining <= 0
            then after.plcFrame == Some(burst) && after.plcOffset == 0 && after.started == w.started
            else after.plcFrame == w.plcFrame && !after.started
  {
  }

  // The end of the generation heard last is reported as soon as it is told with nothing of it left to play,
  // and else when playback stops on it; either way it is forgotten then.
  lemma CompletionIsReported(w: Worklet, g: Id, burst: seq<real>)
    requires w.lastGeneration == Some(g) && w.current.None?
    ensures var told := Apply(w, Op.Complete(g));
            if forall i :: 0 <= i < |w.queue| ==> w.queue[i].generation != g
            then told.posts == w.posts + [Idle(g)] && g !in told.completed
            else told.posts == w.posts && g in told.completed
    ensures Dry(w) && g in w.completed ==>
              var stopped := Apply(w, Underflow(burst));
              Idle(g) in stopped.posts[|w.posts|..] && g !in stopped.completed && !stopped.started
  {
    if Dry(w) && g in w.completed {
      var stopped := Apply(w, Underflow(burst));
      assert stopped.posts == w.posts + [Idle(g), BufferState(w.queuedSamples)];
    }
  }

  // ---------- one report per gap ----------

  // Posts were added, none of them about an underflow, and one stays reported.
  ghost predicate NoneReported(w: Worklet, after: Worklet) {
    && after.underflowReported && w.posts <= after.posts
    && forall i :: |w.posts| <= i < |after.posts| ==> !after.posts[i].UnderflowPost?
  }

  lemma NoneReportedOp(w: Worklet, op: Op)
    requires w.underflowReported && !op.Enqueue?
    ensures NoneReported(w, Apply(w, op))
  {
    match op {
      case Next(historyLength) =>
        NoneReportedStep(w);
        hide Stepped;
      case Cancel(g, fade) => hide Retained, Removed, SpanOf, LeftIn;
      case _ =>
    }
  }

  lemma NoneReportedStep(w: Worklet)
    requires w.underflowReported
    ensures NoneReported(w, Stepped(w))
  {
    if !Concealing(w) {
      var p := Picked(w);
      assert p.posts == w.posts && p.underflowReported;
      hide Picked, Gain;
    }
  }

  // A gap in a stream still open is reported, with word of whether it is concealed, unless one already is.
  lemma GapIsReported(w: Worklet, burst: seq<real>)
    requires Dry(w) && w.lastGeneration.Some? && w.lastGeneration.value !in w.completed
    ensures var gap := Apply(w, Underflow(burst));
            if w.underflowReported then NoneReported(w, gap)
            else
              && gap.underflowReported && |gap.posts| > |w.posts|
              && gap.posts[|w.posts|] == UnderflowPost(w.lastGeneration, w.historyFilled > 32 && w.plcRemaining <= 0)
              && w.posts + [gap.posts[|w.posts|]] <= gap.posts
  {
    NoneReportedIf(w, burst);
  }

  lemma NoneReportedIf(w: Worklet, burst: seq<real>)
    ensures w.underflowReported ==> NoneReported(w, Apply(w, Underflow(burst)))
  {
    if w.underflowReported {
      NoneReportedOp(w, Underflow(burst));
    }
  }

  // And then nothing more is said of gaps until something arrives, which makes the next one worth a report.
  lemma {:induction false} GapIsReportedOnce(w: Worklet, ops: seq<Op>)
    requires w.underflowReported && forall i :: 0 <= i < |ops| ==> !ops[i].Enqueue?
    ensures NoneReported(w, After(w, ops))
    ensures forall g, end, samples :: !Apply(w, Op.Enqueue(g, end, samples)).underflowReported
  {
    if ops != [] {
      var u := After(w, ops[..|ops| - 1]);
      GapIsReportedOnce(w, ops[..|ops| - 1]);
      NoneReportedOp(u, ops[|ops| - 1]);
      hide Apply;
    }
  }

  // ---------- one concealment per cancel ----------

  // What is left to conceal.
  function LeftToConceal(w: Worklet): int {
    if Concealing(w) then |w.plcFrame.value| - w.plcOffset else 0
  }

  // More concealment stays booked than is left to play.
  predicate Overbooked(w: Worklet) {
    w.plcRemaining > LeftToConceal(w)
  }

  lemma OverbookedStep(w: Worklet)
    requires Overbooked(w)
    ensures Overbooked(Stepped(w))
  {
    if !Concealing(w) {
      var p := Picked(w);
      assert p.plcRemaining == w.plcRemaining && p.plcFrame == w.plcFrame && p.plcOffset == w.plcOffset;
      hide Picked, Gain;
    }
  }

  lemma OverbookedOp(w: Worklet, op: Op)
    requires Overbooked(w) && !op.Cancel?
    ensures Overbooked(Apply(w, op)) && !Conceals(w)
  {
    match op {
      case Next(historyLength) =>
        OverbookedStep(w);
        hide Stepped;
      case _ =>
    }
  }

  // Once it has concealed a gap with a burst, the worklet conceals no other until a cancel: a burst books
  // three times its length and only playing it takes that down.
  lemma {:induction false} ConcealsOnce(w: Worklet, burst: seq<real>, ops: seq<Op>)
    requires Dry(w) && Conceals(w) && burst != []
    requires forall i :: 0 <= i < |ops| ==> !ops[i].Cancel?
    ensures var after := After(Apply(w, Underflow(burst)), ops); Overbooked(after) && !Conceals(after)
  {
    var begun := Apply(w, Underflow(burst));
    if ops == [] {
      assert Overbooked(begun);
    } else {
      var u := After(begun, ops[..|ops| - 1]);
      ConcealsOnce(w, burst, ops[..|ops| - 1]);
      OverbookedOp(u, ops[|ops| - 1]);
      OverbookedOp(Apply(u, ops[|ops| - 1]), Begin);
    }
  }
}
