// What the worklet makes of the gap that a cancel leaves: over runs of messages and audio callbacks,
// when the next underflow is concealed and when it is not.
module Concealment {
  import opened Protocol
  import opened Playback
  import opened PlaybackTheorems

  // ---------- runs of messages and callbacks ----------

  // A message is an enqueue, a complete or a cancel; any other operation is none.
  datatype Happening = Message(op: Op) | Call(quantum: Quantum)

  function Happened(w: Worklet, h: Happening, historyLength: nat): Worklet {
    match h
    case Message(op) => if op.Enqueue? || op.Complete? || op.Cancel? then Apply(w, op) else w
    case Call(q) => Called(w, q, historyLength)
  }

  function Lived(hs: seq<Happening>, historyLength: nat): Worklet {
    if hs == [] then FRESH_WORKLET
    else Happened(Lived(hs[..|hs| - 1], historyLength), hs[|hs| - 1], historyLength)
  }

  // Callbacks in a row, with no message between them.
  function Calls(w: Worklet, quanta: seq<Quantum>, historyLength: nat): Worklet {
    if quanta == [] then w
    else Called(Calls(w, quanta[..|quanta| - 1], historyLength), quanta[|quanta| - 1], historyLength)
  }

  function Wanted(quanta: seq<Quantum>): nat {
    if quanta == [] then 0 else Wanted(quanta[..|quanta| - 1]) + quanta[|quanta| - 1].n
  }

  // ---------- such a run is a run of the elementary operations ----------

  function CallOps(w: Worklet, q: Quantum, historyLength: nat): seq<Op> {
    if !w.started && !MayStart(w, q.target) then []
    else
      var begun := w.(started := true);
      var rendered := Rendered(begun, q.n, q.burst, historyLength);
      [Begin] + RenderOps(begun, q.n, q.burst, historyLength) +
      if Written(begun, q.n, historyLength) == [] then []
      else if q.stable then [Report(BufferState(rendered.queuedSamples)), Report(OutputLevel)]
      else [Report(OutputLevel)]
  }

  function OpsOf(hs: seq<Happening>, historyLength: nat): seq<Op> {
    if hs == [] then []
    else
      var w := Lived(hs[..|hs| - 1], historyLength);
      OpsOf(hs[..|hs| - 1], historyLength) +
      match hs[|hs| - 1]
      case Message(op) => if op.Enqueue? || op.Complete? || op.Cancel? then [op] else []
      case Call(q) => CallOps(w, q, historyLength)
  }

  lemma {:induction false} AfterConcat(w: Worklet, ops: seq<Op>, more: seq<Op>)
    ensures After(w, ops + more) == After(After(w, ops), more)
    decreases |more|
  {
    hide Apply;
    if more == [] {
      assert ops + more == ops;
    } else {
      AfterConcat(w, ops, more[..|more| - 1]);
      assert (ops + more)[..|ops + more| - 1] == ops + more[..|more| - 1];
    }
  }

  lemma AfterOne(w: Worklet, op: Op)
    ensures After(w, [op]) == Apply(w, op)
  {
    hide Apply;
    assert [op][..0] == [];
    assert After(w, []) == w;
  }

  lemma CallIsRun(w: Worklet, q: Quantum, historyLength: nat)
    ensures Called(w, q, historyLength) == After(w, CallOps(w, q, historyLength))
  {
    if w.started || MayStart(w, q.target) {
      var begun := w.(started := true);
      var rendered := Rendered(begun, q.n, q.burst, historyLength);
      var middle := [Begin] + RenderOps(begun, q.n, q.burst, historyLength);
      hide Rendered, RenderOps, Written, After;
      AfterOne(w, Begin);
      AfterConcat(w, [Begin], RenderOps(begun, q.n, q.burst, historyLength));
      RenderedIsRun(begun, q.n, q.burst, historyLength);
      assert After(w, middle) == rendered;
      ReportsAreOps(w, middle, rendered);
      assert middle + [] == middle;
    }
  }

  lemma ReportsAreOps(w: Worklet, ops: seq<Op>, rendered: Worklet)
    requires After(w, ops) == rendered
    ensures After(w, ops + [Report(OutputLevel)]) == Posted(rendered, OutputLevel)
    ensures After(w, ops + [Report(BufferState(rendered.queuedSamples)), Report(OutputLevel)]) ==
            Posted(BufferPosted(rendered), OutputLevel)
  {
    hide After;
    var state, level := Report(BufferState(rendered.queuedSamples)), Report(OutputLevel);
    AfterConcat(w, ops, [level]);
    AfterOne(rendered, level);
    AfterConcat(w, ops, [state]);
    AfterOne(rendered, state);
    AfterConcat(w, ops + [state], [level]);
    AfterOne(BufferPosted(rendered), level);
    assert ops + [state, level] == ops + [state] + [level];
  }

  // Every such run is one, so what holds after every run of operations holds after it.
  lemma {:induction false} LivedIsRun(hs: seq<Happening>, historyLength: nat)
    ensures Lived(hs, historyLength) == After(FRESH_WORKLET, OpsOf(hs, historyLength))
  {
    hide Apply, Called, CallOps;
    if hs != [] {
      var front, last := hs[..|hs| - 1], hs[|hs| - 1];
      LivedIsRun(front, historyLength);
      var w := Lived(front, historyLength);
      var ops := OpsOf(front, historyLength);
      assert ops + [] == ops;
      match last {
        case Message(op) =>
          AfterConcat(FRESH_WORKLET, ops, [op]);
          AfterOne(w, op);
        case Call(q) =>
          CallIsRun(w, q, historyLength);
          AfterConcat(FRESH_WORKLET, ops, CallOps(w, q, historyLength));
      }
    }
  }

  // ---------- a frame that is playing ----------

  // A frame only plays while playback is started, and its generation is the one heard last.
  predicate Playing(w: Worklet) {
    w.current.Some? ==> w.started && w.lastGeneration == Some(w.current.value.generation)
  }

  lemma AdvancedKeepsRest(w: Worklet)
    requires w.current.Some?
    ensures var after := Advanced(w);
            && after.plcFrame == w.plcFrame && after.plcRemaining == w.plcRemaining && after.started == w.started
            && after.lastGeneration == w.lastGeneration && after.completed == w.completed
            && after.historyFilled == w.historyFilled && after.underflowReported == w.underflowReported
  {
  }

  lemma SteppedPlaying(w: Worklet, historyLength: nat)
    requires Playing(w) && w.started
    ensures var after := Remembered(Stepped(w), historyLength); Playing(after) && after.started
  {
    hide Gain, Advanced, Span;
    if !Concealing(w) && Picked(w).current.Some? {
      AdvancedParts(Picked(w));
      AdvancedKeepsRest(Picked(w));
    }
  }

  lemma {:induction false} RenderedPlaying(w: Worklet, n: nat, burst: seq<real>, historyLength: nat)
    requires Playing(w) && w.started
    ensures Playing(Rendered(w, n, burst, historyLength))
    decreases n
  {
    hide Stepped, Remembered, Playing;
    if n > 0 {
      if Dry(w) {
        UnderflowedPlaying(w, burst);
      } else {
        SteppedPlaying(w, historyLength);
        RenderedPlaying(Remembered(Stepped(w), historyLength), n - 1, burst, historyLength);
      }
    }
  }

  lemma UnderflowedPlaying(w: Worklet, burst: seq<real>)
    requires Dry(w)
    ensures Playing(Underflowed(w, burst))
  {
  }

  lemma CalledPlaying(w: Worklet, q: Quantum, historyLength: nat)
    requires Playing(w)
    ensures Playing(Called(w, q, historyLength))
  {
    if w.started || MayStart(w, q.target) {
      RenderedPlaying(w.(started := true), q.n, q.burst, historyLength);
    }
    hide Rendered, Written;
  }

  lemma {:induction false} LivedPlaying(hs: seq<Happening>, historyLength: nat)
    ensures Playing(Lived(hs, historyLength))
  {
    hide Called, Retained, Removed, LeftIn, SpanOf;
    if hs != [] {
      var front, last := hs[..|hs| - 1], hs[|hs| - 1];
      LivedPlaying(front, historyLength);
      if last.Call? {
        CalledPlaying(Lived(front, historyLength), last.quantum, historyLength);
      }
    }
  }

  // ---------- the fade, sample by sample ----------

  function FadeTotal(fadeSamples: nat): nat {
    if fadeSamples < 1 then 1 else fadeSamples
  }

  // Samples a frame still takes to get through; an empty one takes one.
  function ToGo(f: Frame): nat {
    if Left(f) < 1 then 1 else Left(f)
  }

  function Shorter(total: nat, toGo: nat): nat {
    if total <= toGo then total else toGo
  }

  // Samples until the cancelled generation `g` is through: the fade or its frame, whichever ends first.
  function UntilDry(w: Worklet, g: Id, fadeSamples: nat): nat {
    if Current(w, g) then Shorter(FadeTotal(fadeSamples), ToGo(w.current.value)) else 0
  }

  // The history remembered after `n` more samples.
  function RememberedAfter(filled: nat, n: nat, historyLength: nat): nat {
    if n == 0 then filled else if filled + n < historyLength then filled + n else historyLength
  }

  // The fade of one frame: its length, and the history remembered when it began.
  datatype Fade = Fade(frame: Frame, total: nat, filled: nat, historyLength: nat)

  // `k` samples into the fade, with nothing else queued.
  predicate MidFade(w: Worklet, d: Fade, k: nat) {
    && w.started && w.queue == [] && w.plcFrame.None? && w.plcRemaining == 0
    && w.current == Some(d.frame.(offset := d.frame.offset + k)) && w.lastGeneration == Some(d.frame.generation)
    && w.fadeGeneration == Some(d.frame.generation) && w.fadeTotal == d.total && w.fadeRemaining == d.total - k
    && d.frame.generation in w.completed && w.historyFilled == RememberedAfter(d.filled, k, d.historyLength)
  }

  // The fade or its frame is through and nothing is left. When the fade came first, its rest was
  // dropped and with it the note that the generation is over; when the frame did, it was played.
  predicate Through(w: Worklet, d: Fade) {
    && w.started && Dry(w) && w.plcFrame.None? && w.plcRemaining == 0
    && w.lastGeneration == Some(d.frame.generation)
    && (if d.total <= ToGo(d.frame)
        then d.frame.generation !in w.completed && CanceledPost(d.frame.generation) in w.posts &&
             w.historyFilled == RememberedAfter(d.filled, d.total, d.historyLength)
        else d.frame.generation in w.completed && Played(d.frame.generation, d.frame.mediaEndUs) in w.posts)
  }

  // The underflow after it: concealed exactly when the fade came first and enough is remembered,
  // and otherwise the end of playback, reported as idle when the frame came first.
  predicate Settled(w: Worklet, d: Fade, burst: seq<real>) {
    if d.total <= ToGo(d.frame) && RememberedAfter(d.filled, d.total, d.historyLength) > MIN_HISTORY
    then w.started && w.plcFrame == Some(burst) && CanceledPost(d.frame.generation) in w.posts
    else
      && !w.started && w.plcFrame.None?
      && (if d.total <= ToGo(d.frame) then CanceledPost(d.frame.generation) in w.posts
          else Played(d.frame.generation, d.frame.mediaEndUs) in w.posts && Idle(d.frame.generation) in w.posts)
  }

  lemma FadeAdvancesOne(w: Worklet, d: Fade, k: nat)
    requires MidFade(w, d, k) && k + 1 < d.total
    ensures Stepped(w) == Advanced(w) && !Dry(w)
  {
    hide Advanced;
    assert Picked(w) == w;
  }

  lemma MidFadeStep(w: Worklet, d: Fade, k: nat)
    requires MidFade(w, d, k) && k + 1 < d.total && k + 1 < Left(d.frame)
    ensures MidFade(Remembered(Stepped(w), d.historyLength), d, k + 1)
  {
    FadeAdvancesOne(w, d, k);
    AdvancedParts(w);
    AdvancedKeepsRest(w);
    hide Stepped, Advanced, Gain;
  }

  lemma FadeEndsFirst(w: Worklet, d: Fade)
    requires d.total > 0 && MidFade(w, d, d.total - 1) && d.total <= ToGo(d.frame)
    ensures Through(Remembered(Stepped(w), d.historyLength), d)
  {
    assert Picked(w) == w;
    var dropped := CurrentDropped(w.(fadeRemaining := w.fadeRemaining - 1));
    assert Stepped(w) == dropped;
    assert dropped.posts == w.posts + [CanceledPost(d.frame.generation)] + [BufferState(dropped.queuedSamples)];
    assert dropped.posts[|w.posts|] == CanceledPost(d.frame.generation);
    hide Stepped, CurrentDropped;
  }

  lemma FrameEndsFirst(w: Worklet, d: Fade)
    requires ToGo(d.frame) < d.total && MidFade(w, d, ToGo(d.frame) - 1)
    ensures Through(Remembered(Stepped(w), d.historyLength), d)
  {
    FadeAdvancesOne(w, d, ToGo(d.frame) - 1);
    AdvancedParts(w);
    AdvancedKeepsRest(w);
    var after := Advanced(w);
    assert after.posts == w.posts + [Played(d.frame.generation, d.frame.mediaEndUs)];
    assert after.posts[|w.posts|] == Played(d.frame.generation, d.frame.mediaEndUs);
    hide Stepped, Advanced;
  }

  lemma ThroughSettles(w: Worklet, d: Fade, burst: seq<real>)
    requires Through(w, d)
    ensures Settled(Underflowed(w, burst), d, burst)
  {
    var after := Underflowed(w, burst);
    if !Conceals(w) {
      PlaybackStoppedPosts(w);
    } else {
      assert w.posts <= after.posts;
      assert forall p :: p in w.posts ==> p in after.posts;
    }
  }

  lemma PlaybackStoppedPosts(w: Worklet)
    ensures forall p :: p in w.posts ==> p in PlaybackStopped(w).posts
    ensures w.lastGeneration.Some? && w.lastGeneration.value in w.completed ==>
              Idle(w.lastGeneration.value) in PlaybackStopped(w).posts
  {
    var after := PlaybackStopped(w);
    assert w.posts <= after.posts;
    assert forall i :: 0 <= i < |w.posts| ==> after.posts[i] == w.posts[i];
    if w.lastGeneration.Some? && w.lastGeneration.value in w.completed {
      assert after.posts == w.posts + [Idle(w.lastGeneration.value)] + [BufferState(w.queuedSamples)];
      assert after.posts[|w.posts|] == Idle(w.lastGeneration.value);
    }
  }

  // ---------- the fade, callback by callback ----------

  // Where the fade stands once `k` samples have been asked for: under way, through, or past the
  // underflow that the first sample too many has met.
  predicate At(w: Worklet, d: Fade, k: nat, burst: seq<real>) {
    var through := Shorter(d.total, ToGo(d.frame));
    if k < through then MidFade(w, d, k) else if k == through then Through(w, d) else Settled(w, d, burst)
  }

  lemma ThroughIsDry(w: Worklet, d: Fade)
    requires Through(w, d)
    ensures w.started && Dry(w)
  {
  }

  lemma MidFadeIsNotDry(w: Worklet, d: Fade, k: nat)
    requires MidFade(w, d, k)
    ensures w.started && !Dry(w)
  {
  }

  lemma FadeStep(w: Worklet, d: Fade, k: nat, burst: seq<real>)
    requires d.total > 0 && k < Shorter(d.total, ToGo(d.frame)) && MidFade(w, d, k)
    ensures At(Remembered(Stepped(w), d.historyLength), d, k + 1, burst)
  {
    hide Stepped, Remembered, MidFade, Through;
    if k + 1 < Shorter(d.total, ToGo(d.frame)) {
      MidFadeStep(w, d, k);
    } else if d.total <= ToGo(d.frame) {
      FadeEndsFirst(w, d);
    } else {
      FrameEndsFirst(w, d);
    }
  }

  lemma {:induction false} RenderedAt(w: Worklet, d: Fade, k: nat, n: nat, burst: seq<real>)
    requires d.total > 0 && k <= Shorter(d.total, ToGo(d.frame)) && At(w, d, k, burst)
    ensures At(Rendered(w, n, burst, d.historyLength), d, k + n, burst)
    decreases n
  {
    hide Stepped, Remembered, MidFade, Through, Settled, Dry, Underflowed;
    if n > 0 {
      if k == Shorter(d.total, ToGo(d.frame)) {
        ThroughIsDry(w, d);
        ThroughSettles(w, d, burst);
      } else {
        MidFadeIsNotDry(w, d, k);
        FadeStep(w, d, k, burst);
        RenderedAt(Remembered(Stepped(w), d.historyLength), d, k + 1, n - 1, burst);
      }
    }
  }

  lemma PostedAt(w: Worklet, d: Fade, k: nat, burst: seq<real>, p: Post)
    requires At(w, d, k, burst)
    ensures At(Posted(w, p), d, k, burst)
  {
    assert forall x :: x in w.posts ==> x in w.posts + [p];
  }

  lemma CalledAt(w: Worklet, d: Fade, k: nat, q: Quantum)
    requires d.total > 0 && k <= Shorter(d.total, ToGo(d.frame)) && At(w, d, k, q.burst)
    ensures At(Called(w, q, d.historyLength), d, k + q.n, q.burst)
  {
    assert w.started;
    assert w.(started := true) == w;
    hide At, Rendered, Written;
    RenderedAt(w, d, k, q.n, q.burst);
    var rendered := Rendered(w, q.n, q.burst, d.historyLength);
    PostedAt(rendered, d, k + q.n, q.burst, BufferState(rendered.queuedSamples));
    PostedAt(BufferPosted(rendered), d, k + q.n, q.burst, OutputLevel);
    PostedAt(rendered, d, k + q.n, q.burst, OutputLevel);
  }

  // Before the underflow the burst of a callback plays no part.
  lemma {:induction false} CallsAt(w: Worklet, d: Fade, quanta: seq<Quantum>, burst: seq<real>)
    requires d.total > 0 && Wanted(quanta) <= Shorter(d.total, ToGo(d.frame)) && At(w, d, 0, burst)
    ensures At(Calls(w, quanta, d.historyLength), d, Wanted(quanta), burst)
  {
    hide Called, MidFade, Through, Settled;
    if quanta != [] {
      var front, last := quanta[..|quanta| - 1], quanta[|quanta| - 1];
      CallsAt(w, d, front, burst);
      CalledAt(Calls(w, front, d.historyLength), d, Wanted(front), last);
    }
  }

  // ---------- what a cancel leaves behind ----------

  // The fade that cancelling the playing generation begins.
  function FadeOf(w: Worklet, fadeSamples: nat, historyLength: nat): Fade
    requires w.current.Some?
  {
    Fade(w.current.value, FadeTotal(fadeSamples), w.historyFilled, historyLength)
  }

  lemma CancelBegins(w: Worklet, g: Id, fadeSamples: nat, historyLength: nat, burst: seq<real>)
    requires Playing(w) && Current(w, g) && Retained(w.queue, g) == []
    ensures At(Canceled(w, g, fadeSamples), FadeOf(w, fadeSamples, historyLength), 0, burst)
  {
    hide Retained, Removed, LeftIn, SpanOf;
    assert w.current.value.(offset := w.current.value.offset + 0) == w.current.value;
  }

  // Samples counted after the cancel.
  function CountAfter(w: Worklet, g: Id): int {
    w.queuedSamples - LeftIn(Removed(w.queue, g))
  }

  // Whether the underflow that follows the cancel is concealed from the history, decided by the state
  // before the cancel and, when playback is stopped, the target it would start at. When `g` is
  // playing: the fade ends no later than its frame, and enough is remembered by then. When nothing
  // is: playback is started (or starts on the count alone), the generation heard last is the
  // cancelled one or not marked as over, and enough is remembered.
  predicate WillConceal(w: Worklet, g: Id, fadeSamples: nat, historyLength: nat, target: int) {
    if Current(w, g)
    then
      FadeTotal(fadeSamples) <= ToGo(w.current.value) &&
      RememberedAfter(w.historyFilled, FadeTotal(fadeSamples), historyLength) > MIN_HISTORY
    else
      (w.started || CountAfter(w, g) >= target) &&
      w.lastGeneration.Some? && (w.lastGeneration == Some(g) || w.lastGeneration.value !in w.completed) &&
      w.historyFilled > MIN_HISTORY
  }

  // Cancelling, in any run, with nothing else queued or playing. The callbacks in `quiet` are those
  // that fit into what is left to sound, and `next` is the first that asks for more. None of the
  // former conceals anything; the latter begins a concealment if and only if `WillConceal` said so.
  // When the fade came first the cancellation is reported; when the frame did, it is reported as
  // played and then idle, and playback stops. A stopped worklet that does not start stays as it is.
  lemma CanceledStillConceals(hs: seq<Happening>, g: Id, fadeSamples: nat, historyLength: nat, quiet: seq<Quantum>,
                              next: Quantum)
    requires var w := Lived(hs, historyLength);
             && Retained(w.queue, g) == [] && (w.current.Some? ==> w.current.value.generation == g)
             && Wanted(quiet) <= UntilDry(w, g, fadeSamples) < Wanted(quiet) + next.n
    requires forall i :: 0 <= i < |quiet| ==> quiet[i].n > 0
    ensures var w := Lived(hs, historyLength);
            var before := Calls(Canceled(w, g, fadeSamples), quiet, historyLength);
            var after := Called(before, next, historyLength);
            && before.plcFrame.None?
            && (WillConceal(w, g, fadeSamples, historyLength, next.target) ==> after.plcFrame == Some(next.burst))
            && (!WillConceal(w, g, fadeSamples, historyLength, next.target) ==> after.plcFrame.None? && !after.started)
            && (Current(w, g) && FadeTotal(fadeSamples) <= ToGo(w.current.value) ==> CanceledPost(g) in after.posts)
            && (Current(w, g) && FadeTotal(fadeSamples) > ToGo(w.current.value) ==>
                  Played(g, w.current.value.mediaEndUs) in after.posts && Idle(g) in after.posts)
            && (w.current.None? && !w.started && CountAfter(w, g) < next.target ==>
                  after == Canceled(w, g, fadeSamples))
  {
    var w := Lived(hs, historyLength);
    LivedPlaying(hs, historyLength);
    hide Lived;
    if Current(w, g) {
      PlayingCancel(w, g, fadeSamples, historyLength, quiet, next);
    } else {
      WantedNothing(quiet);
      NothingPlaying(w, g, fadeSamples, historyLength, next);
    }
  }

  lemma {:induction false} WantedNothing(quiet: seq<Quantum>)
    requires forall i :: 0 <= i < |quiet| ==> quiet[i].n > 0
    ensures Wanted(quiet) == 0 ==> quiet == []
  {
  }

  lemma PlayingCancel(w: Worklet, g: Id, fadeSamples: nat, historyLength: nat, quiet: seq<Quantum>, next: Quantum)
    requires Playing(w) && Current(w, g) && Retained(w.queue, g) == []
    requires Wanted(quiet) <= UntilDry(w, g, fadeSamples) < Wanted(quiet) + next.n
    ensures var before := Calls(Canceled(w, g, fadeSamples), quiet, historyLength);
            before.plcFrame.None? &&
            Settled(Called(before, next, historyLength), FadeOf(w, fadeSamples, historyLength), next.burst)
  {
    var d := FadeOf(w, fadeSamples, historyLength);
    CancelBegins(w, g, fadeSamples, historyLength, next.burst);
    hide Canceled, Called;
    CallsAt(Canceled(w, g, fadeSamples), d, quiet, next.burst);
    var before := Calls(Canceled(w, g, fadeSamples), quiet, historyLength);
    CalledAt(before, d, Wanted(quiet), next);
  }

  lemma NothingPlaying(w: Worklet, g: Id, fadeSamples: nat, historyLength: nat, next: Quantum)
    requires w.current.None? && Retained(w.queue, g) == [] && next.n > 0
    ensures var canceled := Canceled(w, g, fadeSamples);
            var after := Called(canceled, next, historyLength);
            && canceled.plcFrame.None?
            && (if WillConceal(w, g, fadeSamples, historyLength, next.target) then after.plcFrame == Some(next.burst)
                else after.plcFrame.None? && !after.started)
            && (!w.started && CountAfter(w, g) < next.target ==> after == canceled)
  {
    hide Retained, Removed, LeftIn, SpanOf;
    var canceled := Canceled(w, g, fadeSamples);
    var begun := canceled.(started := true);
    assert Dry(begun);
    DryGivesNothing(begun);
    assert Rendered(begun, next.n, next.burst, historyLength) == Underflowed(begun, next.burst);
    assert Written(begun, next.n, historyLength) == [];
  }

  // In a run without empty frames nothing is counted once nothing else is held, so with a target
  // above zero a stopped worklet stays stopped.
  lemma NothingCounted(hs: seq<Happening>, g: Id, historyLength: nat)
    requires forall i :: 0 <= i < |hs| && hs[i].Message? && hs[i].op.Enqueue? ==> hs[i].op.samples != []
    requires var w := Lived(hs, historyLength); w.current.None? && Retained(w.queue, g) == []
    ensures CountAfter(Lived(hs, historyLength), g) == 0
  {
    var w := Lived(hs, historyLength);
    NoEmptyOps(hs, historyLength);
    LivedIsRun(hs, historyLength);
    CountIsExact(OpsOf(hs, historyLength));
    RetainedLeft(w.queue, g);
    hide Lived, OpsOf, After, Retained, Removed;
    EmptyFrames();
    assert [] + w.queue == w.queue;
  }

  lemma {:induction false} NoEmptyOps(hs: seq<Happening>, historyLength: nat)
    requires forall i :: 0 <= i < |hs| && hs[i].Message? && hs[i].op.Enqueue? ==> hs[i].op.samples != []
    ensures forall op :: op in OpsOf(hs, historyLength) && op.Enqueue? ==> op.samples != []
  {
    if hs != [] {
      NoEmptyOps(hs[..|hs| - 1], historyLength);
      if hs[|hs| - 1].Call? {
        CallsEnqueueNothing(Lived(hs[..|hs| - 1], historyLength), hs[|hs| - 1].quantum, historyLength);
      }
      hide CallOps, Lived;
    }
  }

  lemma CallsEnqueueNothing(w: Worklet, q: Quantum, historyLength: nat)
    ensures forall op :: op in CallOps(w, q, historyLength) ==> !op.Enqueue?
  {
    RenderEnqueuesNothing(w.(started := true), q.n, q.burst, historyLength);
    hide RenderOps, Rendered, Written;
  }

  lemma {:induction false} RenderEnqueuesNothing(w: Worklet, n: nat, burst: seq<real>, historyLength: nat)
    ensures forall op :: op in RenderOps(w, n, burst, historyLength) ==> !op.Enqueue?
    decreases n
  {
    hide Stepped, Remembered, Dry;
    if n > 0 && !Dry(w) {
      RenderEnqueuesNothing(Remembered(Stepped(w), historyLength), n - 1, burst, historyLength);
    }
  }

  // ---------- runs that meet each case ----------

  // One frame sounded up to sample `k` of it, nothing else held, nothing cancelled.
  predicate Sounding(w: Worklet, f: Frame, k: nat, completed: set<Id>, historyLength: nat) {
    && w.started && w.queue == [] && w.plcFrame.None? && w.plcRemaining == 0
    && w.fadeGeneration.None? && w.lastGeneration == Some(f.generation) && w.completed == completed
    && w.current == (if k < |f.samples| then Some(f.(offset := k)) else None)
    && w.historyFilled == RememberedAfter(0, k, historyLength)
  }

  lemma SoundingStep(w: Worklet, f: Frame, k: nat, completed: set<Id>, historyLength: nat)
    requires Sounding(w, f, k, completed, historyLength) && k < |f.samples|
    ensures !Dry(w) && Sounding(Remembered(Stepped(w), historyLength), f, k + 1, completed, historyLength)
  {
    assert Picked(w) == w && Stepped(w) == Advanced(w) by {
      hide Advanced;
    }
    AdvancedParts(w);
    AdvancedKeepsRest(w);
    hide Stepped, Advanced, Gain;
  }

  lemma {:induction false} RenderSounds(w: Worklet, f: Frame, k: nat, n: nat, burst: seq<real>, completed: set<Id>,
                                        historyLength: nat)
    requires Sounding(w, f, k, completed, historyLength) && k <= |f.samples|
    ensures k + n <= |f.samples| ==>
              Sounding(Rendered(w, n, burst, historyLength), f, k + n, completed, historyLength)
    ensures k + n > |f.samples| ==>
              exists dry :: Sounding(dry, f, |f.samples|, completed, historyLength) &&
                            Rendered(w, n, burst, historyLength) == Underflowed(dry, burst)
    decreases n
  {
    hide Stepped, Remembered, Underflowed;
    if n > 0 {
      if k < |f.samples| {
        SoundingStep(w, f, k, completed, historyLength);
        hide Sounding;
        RenderSounds(Remembered(Stepped(w), historyLength), f, k + 1, n - 1, burst, completed, historyLength);
      } else {
        assert Dry(w);
      }
    }
  }

  // A fresh worklet with one frame queued, whose generation may be complete already.
  function Loaded(f: Frame, complete: bool): Worklet
    requires f.offset == 0 && f.start == 0
  {
    var queued := Enqueued(FRESH_WORKLET, f.generation, f.mediaEndUs, f.samples);
    if complete then Completed(queued, f.generation) else queued
  }

  lemma FirstSound(f: Frame, complete: bool, historyLength: nat)
    requires f.offset == 0 && f.start == 0 && f.samples != []
    ensures var begun := Loaded(f, complete).(started := true);
            && !Dry(begun)
            && Sounding(Remembered(Stepped(begun), historyLength), f, 1, if complete then {f.generation} else {},
                        historyLength)
  {
    var begun := Loaded(f, complete).(started := true);
    assert begun.queue == [f];
    var p := Picked(begun);
    assert p.queue == [] && p.current == Some(f) && Stepped(begun) == Advanced(p) by {
      hide Advanced;
    }
    AdvancedParts(p);
    AdvancedKeepsRest(p);
    hide Stepped, Advanced, Gain;
  }

  function Fed(f: Frame, complete: bool): seq<Happening> {
    [Message(Enqueue(f.generation, f.mediaEndUs, f.samples))] +
    if complete then [Message(Op.Complete(f.generation))] else []
  }

  lemma LoadedMayStart(f: Frame, complete: bool, target: int)
    requires f.offset == 0 && f.start == 0 && target <= |f.samples|
    ensures MayStart(Loaded(f, complete), target)
  {
  }

  lemma LoadedLives(f: Frame, complete: bool, q: Quantum, historyLength: nat)
    requires f.offset == 0 && f.start == 0
    ensures Lived(Fed(f, complete) + [Call(q)], historyLength) == Called(Loaded(f, complete), q, historyLength)
  {
    var first := [Message(Enqueue(f.generation, f.mediaEndUs, f.samples))];
    assert first[..0] == [];
    assert Lived(first, historyLength) == Loaded(f, false);
    assert (first + [Message(Op.Complete(f.generation))])[..1] == first;
    assert Lived(Fed(f, complete), historyLength) == Loaded(f, complete);
    assert (Fed(f, complete) + [Call(q)])[..|Fed(f, complete)|] == Fed(f, complete);
    hide Called, Enqueued, Completed;
  }

  // Equal but for reports added at the end.
  predicate SameButPosts(w: Worklet, rendered: Worklet) {
    rendered.posts <= w.posts && w.(posts := rendered.posts) == rendered
  }

  lemma CallReports(w: Worklet, q: Quantum, historyLength: nat)
    requires w.started || MayStart(w, q.target)
    ensures SameButPosts(Called(w, q, historyLength), Rendered(w.(started := true), q.n, q.burst, historyLength))
  {
    hide Rendered, Written, MayStart;
  }

  lemma SoundingIgnoresPosts(rendered: Worklet, w: Worklet, f: Frame, k: nat, completed: set<Id>, historyLength: nat)
    requires SameButPosts(w, rendered) && Sounding(rendered, f, k, completed, historyLength)
    ensures Sounding(w, f, k, completed, historyLength)
  {
  }

  // The state after the callback that begins to sound the frame.
  lemma FirstCall(f: Frame, complete: bool, q: Quantum, historyLength: nat)
    requires f.offset == 0 && f.start == 0 && f.samples != [] && q.n > 0 && q.target <= |f.samples|
    ensures var w := Lived(Fed(f, complete) + [Call(q)], historyLength);
            var completed := if complete then {f.generation} else {};
            && (q.n <= |f.samples| ==> Sounding(w, f, q.n, completed, historyLength))
            && (q.n > |f.samples| ==>
                  exists dry :: Sounding(dry, f, |f.samples|, completed, historyLength) &&
                                SameButPosts(w, Underflowed(dry, q.burst)))
  {
    hide Lived, Loaded, Stepped, Remembered, Sounding, Dry, Called, Written, Underflowed, SameButPosts, Fed;
    var loaded := Loaded(f, complete);
    var begun := loaded.(started := true);
    var completed := if complete then {f.generation} else {};
    LoadedLives(f, complete, q, historyLength);
    FirstSound(f, complete, historyLength);
    LoadedMayStart(f, complete, q.target);
    CallReports(loaded, q, historyLength);
    RenderSounds(Remembered(Stepped(begun), historyLength), f, 1, q.n - 1, q.burst, completed, historyLength);
    var rendered := Rendered(begun, q.n, q.burst, historyLength);
    assert rendered == Rendered(Remembered(Stepped(begun), historyLength), q.n - 1, q.burst, historyLength);
    hide Rendered;
    var w := Called(loaded, q, historyLength);
    if q.n <= |f.samples| {
      SoundingIgnoresPosts(rendered, w, f, q.n, completed, historyLength);
    }
  }

  // A frame longer than the fade, cancelled after its first sample: the callback that outlasts the
  // fade conceals.
  lemma LongFrameConceals(f: Frame, fadeSamples: nat, first: Quantum, next: Quantum, historyLength: nat)
    requires f.offset == 0 && f.start == 0 && MIN_HISTORY <= fadeSamples < |f.samples| && MIN_HISTORY < historyLength
    requires first.n == 1 && first.target <= |f.samples| && next.n > fadeSamples
    ensures var w := Lived(Fed(f, false) + [Call(first)], historyLength);
            Called(Canceled(w, f.generation, fadeSamples), next, historyLength).plcFrame == Some(next.burst)
  {
    var hs := Fed(f, false) + [Call(first)];
    FirstCall(f, false, first, historyLength);
    hide Lived;
    var w := Lived(hs, historyLength);
    assert Retained(w.queue, f.generation) == [];
    assert Calls(Canceled(w, f.generation, fadeSamples), [], historyLength) == Canceled(w, f.generation, fadeSamples);
    CanceledStillConceals(hs, f.generation, fadeSamples, historyLength, [], next);
  }

  // A callback that ends exactly with the frame, and a cancel before the next one: playback is
  // started with nothing playing, and the next callback conceals.
  lemma CancelBetweenFramesConceals(f: Frame, fadeSamples: nat, first: Quantum, next: Quantum, historyLength: nat)
    requires f.offset == 0 && f.start == 0 && MIN_HISTORY < |f.samples| && MIN_HISTORY < historyLength
    requires first.n == |f.samples| && first.target <= |f.samples| && next.n > 0
    ensures var w := Lived(Fed(f, false) + [Call(first)], historyLength);
            Called(Canceled(w, f.generation, fadeSamples), next, historyLength).plcFrame == Some(next.burst)
  {
    var hs := Fed(f, false) + [Call(first)];
    FirstCall(f, false, first, historyLength);
    hide Lived;
    var w := Lived(hs, historyLength);
    assert Retained(w.queue, f.generation) == [];
    assert Calls(Canceled(w, f.generation, fadeSamples), [], historyLength) == Canceled(w, f.generation, fadeSamples);
    CanceledStillConceals(hs, f.generation, fadeSamples, historyLength, [], next);
  }

  // The same frame of a generation that was complete, sounded to its end and past it: playback has
  // stopped, idle is reported, and with any target above zero a cancel conceals nothing, however much
  // is remembered.
  lemma CancelAfterStopIsSilent(f: Frame, fadeSamples: nat, first: Quantum, next: Quantum, historyLength: nat)
    requires f.offset == 0 && f.start == 0 && f.samples != []
    requires first.n > |f.samples| && first.target <= |f.samples| && next.n > 0 && next.target > 0
    ensures var w := Lived(Fed(f, true) + [Call(first)], historyLength);
            && !w.started && Idle(f.generation) in w.posts
            && w.historyFilled == RememberedAfter(0, |f.samples|, historyLength)
            && Called(Canceled(w, f.generation, fadeSamples), next, historyLength) ==
               Canceled(w, f.generation, fadeSamples)
  {
    var hs := Fed(f, true) + [Call(first)];
    FirstCall(f, true, first, historyLength);
    hide Lived;
    var w := Lived(hs, historyLength);
    var dry :| Sounding(dry, f, |f.samples|, {f.generation}, historyLength) &&
               SameButPosts(w, Underflowed(dry, first.burst));
    PlaybackStoppedPosts(dry);
    assert Underflowed(dry, first.burst) == PlaybackStopped(dry);
    assert Idle(f.generation) in w.posts;
    assert Retained(w.queue, f.generation) == [];
    NothingCounted(hs, f.generation, historyLength);
    assert Calls(Canceled(w, f.generation, fadeSamples), [], historyLength) == Canceled(w, f.generation, fadeSamples);
    CanceledStillConceals(hs, f.generation, fadeSamples, historyLength, [], next);
  }
}
