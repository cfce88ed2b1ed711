// The playback worklet: a queue of decoded frames played sample by sample, with cancellation
// behind a fade-out. Functions give the effect of every operation on a value; the class at the end
// is the in-place form.
module Playback {
  import opened Protocol

  // `start` is a history field: the number of samples enqueued before this frame, so that the
  // sample at `offset` is sample start + offset of everything that ever arrived.
  datatype Frame = Frame(generation: Id, mediaEndUs: nat, samples: seq<real>, offset: nat, start: nat)

  datatype Post =
    | Played(generation: Id, mediaEndUs: nat)
    | Idle(generation: Id)
    | CanceledPost(generation: Id)
    | UnderflowPost(last: Option<Id>, plc: bool)
    | BufferState(queuedSamples: int)
    | OutputLevel

  // A queued sample that was sounded, and at what gain.
  datatype Sounded = Sounded(index: nat, generation: Id, gain: real)

  // What one call of `nextSample` yields. An empty frame has no sample to read and yields no number.
  datatype Sample = Value(value: real) | NotANumber

  datatype Worklet = Worklet(
    queue: seq<Frame>,
    current: Option<Frame>,
    queuedSamples: int,
    started: bool,
    underflowReported: bool,
    lastGeneration: Option<Id>,
    completed: set<Id>,
    fadeGeneration: Option<Id>,
    fadeRemaining: int,
    fadeTotal: nat,
    plcFrame: Option<seq<real>>,
    plcOffset: nat,
    plcRemaining: int,
    historyFilled: nat,
    posts: seq<Post>,
    arrived: nat,              // history: samples ever enqueued
    output: seq<Sounded>,      // history: queued samples sounded, in order
    dropped: set<nat>)         // history: queued samples given up

  const FRESH_WORKLET :=
    Worklet([], None, 0, false, false, None, {}, None, 0, 1, None, 0, 0, 0, [], 0, [], {})

  const SILENCE: Sample := Value(0.0)

  function Posted(w: Worklet, p: Post): Worklet {
    w.(posts := w.posts + [p])
  }

  function BufferPosted(w: Worklet): Worklet {
    Posted(w, BufferState(w.queuedSamples))
  }

  // The samples of a frame not played yet, by their place in everything that arrived.
  predicate Unplayed(f: Frame, n: nat) {
    f.start + f.offset <= n < f.start + |f.samples|
  }

  function Span(f: Frame): set<nat> {
    set n | 0 <= n < f.start + |f.samples| && Unplayed(f, n)
  }

  function Left(f: Frame): int {
    |f.samples| - f.offset
  }

  // ---------- messages ----------

  function Enqueued(w: Worklet, g: Id, mediaEndUs: nat, samples: seq<real>): Worklet {
    BufferPosted(w.(queue := w.queue + [Frame(g, mediaEndUs, samples, 0, w.arrived)],
                    queuedSamples := w.queuedSamples + |samples|,
                    underflowReported := false,
                    arrived := w.arrived + |samples|))
  }

  predicate QueueHolds(queue: seq<Frame>, g: Id) {
    exists i :: 0 <= i < |queue| && queue[i].generation == g
  }

  function IdlePosted(w: Worklet, g: Id): Worklet {
    Posted(w, Idle(g)).(completed := w.completed - {g})
  }

  function Completed(w: Worklet, g: Id): Worklet {
    var marked := w.(completed := w.completed + {g});
    if !QueueHolds(w.queue, g) && w.current.None? && w.lastGeneration == Some(g) then IdlePosted(marked, g) else marked
  }

  function Retained(queue: seq<Frame>, g: Id): seq<Frame> {
    if queue == [] then []
    else
      var last := queue[|queue| - 1];
      Retained(queue[..|queue| - 1], g) + if last.generation == g then [] else [last]
  }

  function Removed(queue: seq<Frame>, g: Id): seq<Frame> {
    if queue == [] then []
    else
      var last := queue[|queue| - 1];
      Removed(queue[..|queue| - 1], g) + if last.generation == g then [last] else []
  }

  function LeftIn(frames: seq<Frame>): int {
    if frames == [] then 0 else LeftIn(frames[..|frames| - 1]) + Left(frames[|frames| - 1])
  }

  function SpanOf(frames: seq<Frame>): set<nat> {
    if frames == [] then {} else SpanOf(frames[..|frames| - 1]) + Span(frames[|frames| - 1])
  }

  lemma EmptyFrames()
    ensures LeftIn([]) == 0 && SpanOf([]) == {}
  {
  }

  lemma OneMoreFrame(frames: seq<Frame>, f: Frame)
    ensures LeftIn(frames + [f]) == LeftIn(frames) + Left(f)
    ensures SpanOf(frames + [f]) == SpanOf(frames) + Span(f)
  {
    assert (frames + [f])[..|frames|] == frames;
  }

  lemma RemovedOneMore(queue: seq<Frame>, f: Frame, g: Id)
    ensures Removed(queue + [f], g) == Removed(queue, g) + if f.generation == g then [f] else []
    ensures LeftIn(Removed(queue + [f], g)) == LeftIn(Removed(queue, g)) + if f.generation == g then Left(f) else 0
    ensures SpanOf(Removed(queue + [f], g)) == SpanOf(Removed(queue, g)) + if f.generation == g then Span(f) else {}
  {
    assert (queue + [f])[..|queue|] == queue;
    OneMoreFrame(Removed(queue, g), f);
    assert Removed(queue, g) + [] == Removed(queue, g);
  }

  predicate Current(w: Worklet, g: Id) {
    w.current.Some? && w.current.value.generation == g
  }

  // The queue without generation `g`, and no concealment in progress.
  function Emptied(w: Worklet, g: Id): Worklet {
    var gone := Removed(w.queue, g);
    w.(queue := Retained(w.queue, g), queuedSamples := w.queuedSamples - LeftIn(gone),
       dropped := w.dropped + SpanOf(gone),
       plcRemaining := 0, plcFrame := None)
  }

  function FadeBegun(w: Worklet, g: Id, fadeSamples: nat): Worklet {
    var total := if fadeSamples < 1 then 1 else fadeSamples;
    w.(completed := w.completed + {g}, fadeGeneration := Some(g), fadeTotal := total, fadeRemaining := total)
  }

  function CanceledAtOnce(w: Worklet, g: Id): Worklet {
    w.(posts := w.posts + [CanceledPost(g)], completed := w.completed - {g})
  }

  function Canceled(w: Worklet, g: Id, fadeSamples: nat): Worklet {
    BufferPosted(if Current(w, g) then FadeBegun(Emptied(w, g), g, fadeSamples) else CanceledAtOnce(Emptied(w, g), g))
  }

  // ---------- playing ----------

  function AtLeastZero(n: int): nat {
    if n < 0 then 0 else n
  }

  predicate Concealing(w: Worklet) {
    w.plcFrame.Some? && w.plcOffset < |w.plcFrame.value|
  }

  function Concealed(w: Worklet): Worklet
    requires Concealing(w)
  {
    var done := w.plcOffset + 1 >= |w.plcFrame.value|;
    w.(plcOffset := if done then 0 else w.plcOffset + 1,
       plcFrame := if done then None else w.plcFrame,
       plcRemaining := AtLeastZero(w.plcRemaining - 1))
  }

  // The next frame becomes current when there is none.
  function Picked(w: Worklet): Worklet {
    if w.current.Some? || w.queue == [] then w
    else w.(current := Some(w.queue[0]), queue := w.queue[1..], lastGeneration := Some(w.queue[0].generation))
  }

  function CurrentDropped(w: Worklet): Worklet
    requires w.current.Some?
  {
    var f := w.current.value;
    BufferPosted(Posted(w.(queuedSamples := AtLeastZero(w.queuedSamples - Left(f)),
                           dropped := w.dropped + Span(f),
                           current := None, fadeGeneration := None, fadeRemaining := 0),
                        CanceledPost(f.generation)).(completed := w.completed - {f.generation}))
  }

  predicate Fading(w: Worklet) {
    w.current.Some? && w.fadeGeneration == Some(w.current.value.generation)
  }

  function Gain(w: Worklet): real {
    if Fading(w) && w.fadeTotal > 0 then w.fadeRemaining as real / w.fadeTotal as real else 1.0
  }

  function Amplified(sample: real, gain: real): real {
    sample * gain
  }

  // The current sample sounds at the gain of the moment, and the fade takes a step.
  function Voiced(w: Worklet): Worklet
    requires w.current.Some?
  {
    var f := w.current.value;
    w.(output := w.output + if f.offset < |f.samples| then [Sounded(f.start + f.offset, f.generation, Gain(w))] else [],
       fadeRemaining := if Fading(w) then w.fadeRemaining - 1 else w.fadeRemaining)
  }

  // Past the current sample; a frame that is through is reported as played.
  function Moved(w: Worklet): Worklet
    requires w.current.Some?
  {
    var f := w.current.value;
    var after := w.(queuedSamples := AtLeastZero(w.queuedSamples - 1));
    if f.offset + 1 >= |f.samples|
    then after.(posts := w.posts + [Played(f.generation, f.mediaEndUs)], current := None)
    else after.(current := Some(f.(offset := f.offset + 1)))
  }

  function Advanced(w: Worklet): Worklet
    requires w.current.Some?
  {
    Moved(Voiced(w))
  }

  // The sample handed out; None when there is nothing to play.
  function SampleOf(w: Worklet): Option<Sample> {
    if Concealing(w) then Some(Value(w.plcFrame.value[w.plcOffset]))
    else
      var p := Picked(w);
      if p.current.None? then None
      else
        var f := p.current.value;
        if Fading(p) && p.fadeRemaining <= 1 then Some(SILENCE)
        else if f.offset < |f.samples| then Some(Value(Amplified(f.samples[f.offset], Gain(p))))
        else Some(NotANumber)
  }

  // The state after one sample.
  function Stepped(w: Worklet): Worklet {
    if Concealing(w) then Concealed(w)
    else
      var p := Picked(w);
      if p.current.None? then p
      else if Fading(p) && p.fadeRemaining <= 1 then CurrentDropped(p.(fadeRemaining := p.fadeRemaining - 1))
      else Advanced(p)
  }

  // `nextSample` has nothing to give.
  predicate Dry(w: Worklet) {
    !Concealing(w) && w.current.None? && w.queue == []
  }

  predicate StillStreaming(w: Worklet) {
    w.lastGeneration.Some? && w.lastGeneration.value !in w.completed
  }

  lemma DryGivesNothing(w: Worklet)
    ensures SampleOf(w).None? <==> Dry(w)
    ensures Dry(w) ==> Stepped(w) == w
  {
  }

  const MIN_HISTORY: nat := 32

  predicate Conceals(w: Worklet) {
    StillStreaming(w) && w.historyFilled > MIN_HISTORY && w.plcRemaining <= 0
  }

  function UnderflowReported(w: Worklet, plc: bool): Worklet {
    if w.underflowReported then w else Posted(w.(underflowReported := true), UnderflowPost(w.lastGeneration, plc))
  }

  // `burst` is what the concealment of packet loss makes of the history.
  function ConcealmentBegun(w: Worklet, burst: seq<real>): Worklet {
    UnderflowReported(w.(plcFrame := Some(burst), plcOffset := 0, plcRemaining := |burst| * 3), true)
  }

  function PlaybackStopped(w: Worklet): Worklet {
    var stopped := w.(started := false);
    var reported := if StillStreaming(w) then UnderflowReported(stopped, false) else stopped;
    BufferPosted(if w.lastGeneration.Some? && w.lastGeneration.value in w.completed
                 then IdlePosted(reported, w.lastGeneration.value) else reported)
  }

  function Underflowed(w: Worklet, burst: seq<real>): Worklet {
    if Conceals(w) then ConcealmentBegun(w, burst) else PlaybackStopped(w)
  }

  function Remembered(w: Worklet, historyLength: nat): Worklet {
    w.(historyFilled := if w.historyFilled + 1 < historyLength then w.historyFilled + 1 else historyLength)
  }

  // Playback starts once enough is queued, or when a queued generation is over.
  predicate MayStart(w: Worklet, target: int) {
    w.queuedSamples >= target || exists i :: 0 <= i < |w.queue| && w.queue[i].generation in w.completed
  }

  // One audio callback of `n` samples: it stops early when the queue runs dry.
  function Rendered(w: Worklet, n: nat, burst: seq<real>, historyLength: nat): Worklet
    decreases n
  {
    if n == 0 then w
    else if Dry(w) then Underflowed(w, burst)
    else Rendered(Remembered(Stepped(w), historyLength), n - 1, burst, historyLength)
  }

  // The samples such a callback writes: what each step hands out, up to the first that has nothing.
  function Written(w: Worklet, n: nat, historyLength: nat): seq<Sample>
    decreases n
  {
    if n == 0 || SampleOf(w).None? then []
    else [SampleOf(w).value] + Written(Remembered(Stepped(w), historyLength), n - 1, historyLength)
  }

  // One call of the audio thread: `n` samples are wanted, `target` is the jitter controller's target,
  // and `stable` its word that playback has been steady long enough to report.
  datatype Quantum = Quantum(n: nat, burst: seq<real>, target: int, stable: bool)

  function Called(w: Worklet, q: Quantum, historyLength: nat): Worklet {
    if !w.started && !MayStart(w, q.target) then w
    else
      var begun := w.(started := true);
      var rendered := Rendered(begun, q.n, q.burst, historyLength);
      if Written(begun, q.n, historyLength) == [] then rendered
      else Posted(if q.stable then BufferPosted(rendered) else rendered, OutputLevel)
  }

  // ---------- everything that can happen to the worklet ----------

  datatype Op =
    | Enqueue(generation: Id, mediaEndUs: nat, samples: seq<real>)
    | Complete(generation: Id)
    | Cancel(generation: Id, fadeSamples: nat)
    | Next(historyLength: nat)
    | Underflow(burst: seq<real>)
    | Begin
    | Report(post: Post)

  function Apply(w: Worklet, op: Op): Worklet {
    match op
    case Enqueue(g, end, samples) => Enqueued(w, g, end, samples)
    case Complete(g) => Completed(w, g)
    case Cancel(g, fade) => Canceled(w, g, fade)
    case Next(historyLength) => if Dry(w) then w else Remembered(Stepped(w), historyLength)
    case Underflow(burst) => if Dry(w) then Underflowed(w, burst) else w
    case Begin => w.(started := true)
    case Report(post) => if post.OutputLevel? || post.BufferState? then Posted(w, post) else w
  }

  function After(w: Worklet, ops: seq<Op>): Worklet {
    if ops == [] then w else Apply(After(w, ops[..|ops| - 1]), ops[|ops| - 1])
  }

  // ---------- the worklet in its own form ----------

  class PlaybackProcessor {
    const historyLength: nat
    var queue: seq<Frame>
    var current: Option<Frame>
    var queuedSamples: int
    var started: bool
    var underflowReported: bool
    var lastGeneration: Option<Id>
    var completed: set<Id>
    var fadeGeneration: Option<Id>
    var fadeRemaining: int
    var fadeTotal: nat
    var plcFrame: Option<seq<real>>
    var plcOffset: nat
    var plcRemaining: int
    var historyFilled: nat
    var posts: seq<Post>
    var arrived: nat
    ghost var output: seq<Sounded>
    ghost var dropped: set<nat>

    ghost function State(): Worklet
      reads this
    {
      Worklet(queue, current, queuedSamples, started, underflowReported, lastGeneration, completed, fadeGeneration,
              fadeRemaining, fadeTotal, plcFrame, plcOffset, plcRemaining, historyFilled, posts, arrived, output,
                dropped)
    }

    constructor (historyLength: nat)
      ensures State() == FRESH_WORKLET && this.historyLength == historyLength
    {
      this.historyLength := historyLength;
      queue, current, queuedSamples := [], None, 0;
      started, underflowReported, lastGeneration, completed := false, false, None, {};
      fadeGeneration, fadeRemaining, fadeTotal := None, 0, 1;
      plcFrame, plcOffset, plcRemaining, historyFilled := None, 0, 0, 0;
      posts, arrived, output, dropped := [], 0, [], {};
    }

    method Post(p: Post)
      modifies this`posts
      ensures posts == old(posts) + [p]
    {
      posts := posts + [p];
    }

    method PostBufferState()
      modifies this`posts
      ensures State() == BufferPosted(old(State()))
    {
      Post(BufferState(queuedSamples));
    }

    method PostIdle(g: Id)
      modifies this`posts, this`completed
      ensures State() == IdlePosted(old(State()), g)
    {
      Post(Idle(g));
      completed := completed - {g};
    }

    method HandleEnqueue(g: Id, mediaEndUs: nat, samples: seq<real>)
      modifies this
      ensures State() == Enqueued(old(State()), g, mediaEndUs, samples)
    {
      hide BufferPosted;
      queue := queue + [Frame(g, mediaEndUs, samples, 0, arrived)];
      queuedSamples := queuedSamples + |samples|;
      arrived := arrived + |samples|;
      underflowReported := false;
      PostBufferState();
    }

    method HandleComplete(g: Id)
      modifies this
      ensures State() == Completed(old(State()), g)
    {
      completed := completed + {g};
      var generationQueued := exists i :: 0 <= i < |queue| && queue[i].generation == g;
      if !generationQueued && current.None? && lastGeneration == Some(g) {
        PostIdle(g);
      }
    }

    // What stays of the queue without generation `g`; the count goes down by what does not.
    method DropQueued(g: Id) returns (retained: seq<Frame>)
      modifies this`queuedSamples, this`dropped
      ensures retained == Retained(queue, g)
      ensures queuedSamples == old(queuedSamples) - LeftIn(Removed(queue, g))
      ensures dropped == old(dropped) + SpanOf(Removed(queue, g))
    {
      hide LeftIn, SpanOf, Span;
      retained := [];
      EmptyFrames();
      for i := 0 to |queue|
        invariant retained == Retained(queue[..i], g)
        invariant queuedSamples == old(queuedSamples) - LeftIn(Removed(queue[..i], g))
        invariant dropped == old(dropped) + SpanOf(Removed(queue[..i], g))
      {
        var frame := queue[i];
        assert queue[..i + 1][..i] == queue[..i];
        RemovedOneMore(queue[..i], frame, g);
        assert queue[..i + 1] == queue[..i] + [frame];
        if frame.generation == g {
          queuedSamples := queuedSamples - (|frame.samples| - frame.offset);
          dropped := dropped + Span(frame);
        } else {
          retained := retained + [frame];
        }
      }
      assert queue[..|queue|] == queue;
    }

    method EmptyQueue(g: Id)
      modifies this`queue, this`queuedSamples, this`dropped, this`plcRemaining, this`plcFrame
      ensures State() == Emptied(old(State()), g)
    {
      hide Retained, Removed, LeftIn, SpanOf;
      var retained := DropQueued(g);
      queue := retained;
      plcRemaining := 0;
      plcFrame := None;
    }

    method CancelGeneration(g: Id, fadeSamples: nat)
      modifies this
      ensures State() == Canceled(old(State()), g, fadeSamples)
    {
      EmptyQueue(g);
      ghost var emptied := State();
      hide Emptied;
      completed := completed + {g};
      if current.Some? && current.value.generation == g {
        fadeGeneration := Some(g);
        fadeTotal := if fadeSamples < 1 then 1 else fadeSamples;
        fadeRemaining := fadeTotal;
        assert State() == FadeBegun(emptied, g, fadeSamples);
      } else {
        Post(CanceledPost(g));
        completed := completed - {g};
        assert State() == CanceledAtOnce(emptied, g);
      }
      PostBufferState();
    }

    method DropCanceledCurrent()
      requires current.Some?
      modifies this
      ensures State() == CurrentDropped(old(State()))
    {
      var frame := current.value;
      queuedSamples := AtLeastZero(queuedSamples - (|frame.samples| - frame.offset));
      dropped := dropped + Span(frame);
      current := None;
      fadeGeneration := None;
      fadeRemaining := 0;
      Post(CanceledPost(frame.generation));
      completed := completed - {frame.generation};
      PostBufferState();
    }

    method DrainConcealment() returns (value: real)
      requires Concealing(State())
      modifies this`plcFrame, this`plcOffset, this`plcRemaining
      ensures State() == Concealed(old(State())) && value == old(plcFrame.value[plcOffset])
    {
      value := plcFrame.value[plcOffset];
      plcOffset := plcOffset + 1;
      plcRemaining := AtLeastZero(plcRemaining - 1);
      if plcOffset >= |plcFrame.value| {
        plcFrame := None;
        plcOffset := 0;
      }
    }

    method PickFrame()
      modifies this`current, this`queue, this`lastGeneration
      ensures State() == Picked(old(State()))
    {
      if current.None? && queue != [] {
        current, queue := Some(queue[0]), queue[1..];
        lastGeneration := Some(current.value.generation);
      }
    }

    method NextSample() returns (value: Option<Sample>)
      modifies this
      ensures State() == Stepped(old(State())) && value == SampleOf(old(State()))
    {
      hide Concealed, CurrentDropped;
      if plcFrame.Some? && plcOffset < |plcFrame.value| {
        var concealed := DrainConcealment();
        return Some(Value(concealed));
      }
      PickFrame();
      if current.None? {
        return None;
      }
      value := Fade(State());
    }

    // The current sample under the fade, if its generation is fading.
    method Fade(ghost picked: Worklet) returns (value: Option<Sample>)
      requires picked == State() && current.Some?
      modifies this
      ensures State() == if Fading(picked) && picked.fadeRemaining <= 1
                         then CurrentDropped(picked.(fadeRemaining := picked.fadeRemaining - 1)) else Advanced(picked)
      ensures var f := picked.current.value;
              value == if Fading(picked) && picked.fadeRemaining <= 1 then Some(SILENCE)
                       else if f.offset < |f.samples| then Some(Value(Amplified(f.samples[f.offset], Gain(picked))))
                       else Some(NotANumber)
    {
      hide CurrentDropped;
      var frame := current.value;
      var sample := if frame.offset < |frame.samples| then Value(frame.samples[frame.offset]) else NotANumber;
      if fadeGeneration == Some(frame.generation) {
        if sample.Value? && fadeTotal > 0 {
          sample := Value(Amplified(sample.value, fadeRemaining as real / fadeTotal as real));
        }
        fadeRemaining := fadeRemaining - 1;
        if fadeRemaining <= 0 {
          DropCanceledCurrent();
          return Some(SILENCE);
        }
      }
      assert frame.offset < |frame.samples| ==> sample == Value(Amplified(frame.samples[frame.offset], Gain(picked)));
      hide Amplified;
      if frame.offset < |frame.samples| {
        output := output + [Sounded(frame.start + frame.offset, frame.generation, Gain(picked))];
      }
      assert State() == Voiced(picked);
      hide Voiced, Gain;
      MoveOn();
      value := Some(sample);
    }

    method MoveOn()
      requires current.Some?
      modifies this`current, this`queuedSamples, this`posts
      ensures State() == Moved(old(State()))
    {
      var frame := current.value;
      current := Some(frame.(offset := frame.offset + 1));
      queuedSamples := AtLeastZero(queuedSamples - 1);
      if frame.offset + 1 >= |frame.samples| {
        posts := posts + [Played(frame.generation, frame.mediaEndUs)];
        current := None;
      }
    }

    method ReportUnderflow(plc: bool)
      modifies this`posts, this`underflowReported
      ensures State() == UnderflowReported(old(State()), plc)
    {
      if !underflowReported {
        underflowReported := true;
        Post(UnderflowPost(lastGeneration, plc));
      }
    }

    method BeginConcealment(burst: seq<real>)
      modifies this`plcFrame, this`plcOffset, this`plcRemaining, this`posts, this`underflowReported
      ensures State() == ConcealmentBegun(old(State()), burst)
    {
      plcFrame := Some(burst);
      plcOffset := 0;
      plcRemaining := |burst| * 3;
      ReportUnderflow(true);
    }

    method StopPlayback()
      modifies this`started, this`posts, this`underflowReported, this`completed
      ensures State() == PlaybackStopped(old(State()))
    {
      started := false;
      if lastGeneration.Some? && lastGeneration.value !in completed {
        ReportUnderflow(false);
      }
      hide UnderflowReported, IdlePosted, BufferPosted;
      if lastGeneration.Some? && lastGeneration.value in completed {
        PostIdle(lastGeneration.value);
      }
      PostBufferState();
    }

    method HandleUnderflow(burst: seq<real>)
      modifies this
      ensures State() == Underflowed(old(State()), burst)
    {
      hide ConcealmentBegun, PlaybackStopped;
      var stillStreaming := lastGeneration.Some? && lastGeneration.value !in completed;
      if stillStreaming && historyFilled > MIN_HISTORY && plcRemaining <= 0 {
        BeginConcealment(burst);
      } else {
        StopPlayback();
      }
    }

    // The sample loop of one audio callback.
    method Render(n: nat, burst: seq<real>) returns (written: seq<Sample>)
      modifies this
      ensures State() == Rendered(old(State()), n, burst, historyLength)
      ensures written == Written(old(State()), n, historyLength)
    {
      written := [];
      hide Stepped, Underflowed, SampleOf, Dry;
      for index := 0 to n
        invariant written + Written(State(), n - index, historyLength) == Written(old(State()), n, historyLength)
        invariant Rendered(State(), n - index, burst, historyLength) == Rendered(old(State()), n, burst, historyLength)
      {
        ghost var before := State();
        DryGivesNothing(before);
        var value := NextSample();
        if value.None? {
          HandleUnderflow(burst);
          return;
        }
        written := written + [value.value];
        assert State() == Stepped(before) && SampleOf(before) == value;
        historyFilled := if historyFilled + 1 < historyLength then historyFilled + 1 else historyLength;
      }
    }

    method Process(q: Quantum) returns (written: seq<Sample>)
      modifies this
      ensures State() == Called(old(State()), q, historyLength)
      ensures written == if old(State()).started || MayStart(old(State()), q.target)
                         then Written(old(State()).(started := true), q.n, historyLength) else []
    {
      if !started {
        var completedQueue := exists i :: 0 <= i < |queue| && queue[i].generation in completed;
        if queuedSamples < q.target && !completedQueue {
          return [];
        }
        started := true;
      }
      written := Render(q.n, q.burst);
      if written != [] && q.stable {
        PostBufferState();
      }
      if written != [] {
        Post(OutputLevel);
      }
    }
  }
}
