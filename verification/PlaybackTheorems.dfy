// What holds of every run of the playback worklet: nothing enqueued is lost, repeated or reordered,
// the sample count is exact, and a cancelled generation fades out within its fade.
module PlaybackTheorems {
  import opened Protocol
  import opened Playback

  // Everything still to be played, the current frame first.
  function Pending(w: Worklet): seq<Frame> {
    (if w.current.Some? then [w.current.value] else []) + w.queue
  }

  lemma {:induction false} LeftConcat(a: seq<Frame>, b: seq<Frame>)
    ensures LeftIn(a + b) == LeftIn(a) + LeftIn(b)
  {
    if b == [] {
      assert a + b == a;
    } else {
      var front, last := b[..|b| - 1], b[|b| - 1];
      LeftConcat(a, front);
      assert (a + b)[..|a + b| - 1] == a + front;
    }
  }

  lemma LeftOne(f: Frame)
    ensures LeftIn([f]) == Left(f)
  {
    assert [f][..0] == [];
  }

  lemma PickedPending(w: Worklet)
    ensures Pending(Picked(w)) == Pending(w)
    ensures Picked(w).queuedSamples == w.queuedSamples
    ensures Picked(w).output == w.output && Picked(w).dropped == w.dropped && Picked(w).arrived == w.arrived
  {
  }

  // What one advance does.
  lemma AdvancedParts(w: Worklet)
    requires w.current.Some?
    ensures var after := Advanced(w);
            var f := w.current.value;
            && after.queue == w.queue && after.dropped == w.dropped && after.arrived == w.arrived
            && after.fadeGeneration == w.fadeGeneration && after.fadeTotal == w.fadeTotal
            && after.fadeRemaining == (if Fading(w) then w.fadeRemaining - 1 else w.fadeRemaining)
            && after.output == w.output + (if f.offset < |f.samples|
                                           then [Sounded(f.start + f.offset, f.generation, Gain(w))] else [])
            && (after.current.Some? ==> after.current.value == f.(offset := f.offset + 1))
            && (after.current.Some? <==> f.offset + 1 < |f.samples|)
  {
  }

  // ---------- audio callbacks are runs ----------

  // The operations one callback of `n` samples performs.
  function RenderOps(w: Worklet, n: nat, burst: seq<real>, historyLength: nat): seq<Op>
    decreases n
  {
    if n == 0 then []
    else if Dry(w) then [Underflow(burst)]
    else [Next(historyLength)] + RenderOps(Remembered(Stepped(w), historyLength), n - 1, burst, historyLength)
  }

  lemma {:induction false} AfterFirst(w: Worklet, op: Op, ops: seq<Op>)
    ensures After(w, [op] + ops) == After(Apply(w, op), ops)
    decreases |ops|
  {
    hide Apply;
    if ops == [] {
      assert [op] + ops == [op] && [op][..0] == [];
      assert After(w, [op]) == Apply(After(w, []), op);
    } else {
      AfterFirst(w, op, ops[..|ops| - 1]);
      assert ([op] + ops)[..|ops|] == [op] + ops[..|ops| - 1];
    }
  }

  // Every callback is a run of the elementary operations, so what holds after every run holds
  // between callbacks and inside them.
  lemma {:induction false} RenderedIsRun(w: Worklet, n: nat, burst: seq<real>, historyLength: nat)
    ensures Rendered(w, n, burst, historyLength) == After(w, RenderOps(w, n, burst, historyLength))
    decreases n
  {
    hide Stepped, Underflowed, Remembered;
    if n > 0 {
      if Dry(w) {
        AfterFirst(w, Underflow(burst), []);
        assert [Underflow(burst)] + [] == [Underflow(burst)];
      } else {
        var next := Remembered(Stepped(w), historyLength);
        RenderedIsRun(next, n - 1, burst, historyLength);
        AfterFirst(w, Next(historyLength), RenderOps(next, n - 1, burst, historyLength));
      }
    }
  }

  // ---------- the sample count ----------

  predicate Unfinished(frames: seq<Frame>) {
    forall f :: f in frames ==> f.offset < |f.samples|
  }

  predicate Counted(w: Worklet) {
    Unfinished(Pending(w)) && w.queuedSamples == LeftIn(Pending(w))
  }

  lemma {:induction false} RetainedLeft(queue: seq<Frame>, g: Id)
    ensures forall f :: f in Retained(queue, g) ==> f in queue
    ensures LeftIn(queue) == LeftIn(Retained(queue, g)) + LeftIn(Removed(queue, g))
  {
    if queue != [] {
      var front, last := queue[..|queue| - 1], queue[|queue| - 1];
      RetainedLeft(front, g);
      OneMoreFrame(Retained(front, g), last);
      OneMoreFrame(Removed(front, g), last);
      assert Retained(front, g) + [] == Retained(front, g) && Removed(front, g) + [] == Removed(front, g);
    }
  }

  lemma {:induction false} LeftPositive(frames: seq<Frame>)
    requires Unfinished(frames)
    ensures LeftIn(frames) >= |frames|
  {
    if frames != [] {
      var last := frames[|frames| - 1];
      assert last in frames;
      LeftPositive(frames[..|frames| - 1]);
    }
  }

  lemma CountedAdvance(p: Worklet, f: Frame)
    requires Counted(p) && p.current == Some(f)
    ensures Counted(Advanced(p)) && Counted(CurrentDropped(p))
  {
    hide LeftIn, Gain;
    var moved := f.(offset := f.offset + 1);
    assert f in Pending(p);
    LeftConcat([f], p.queue);
    LeftConcat([moved], p.queue);
    LeftOne(f);
    LeftOne(moved);
    LeftPositive(p.queue);
    assert [] + p.queue == p.queue;
    assert Pending(CurrentDropped(p)) == p.queue;
    assert Pending(Advanced(p)) == if moved.offset >= |f.samples| then p.queue else [moved] + p.queue;
  }

  lemma CountedStep(w: Worklet)
    requires Counted(w)
    ensures Counted(Stepped(w))
  {
    if !Concealing(w) {
      PickedPending(w);
      var p := Picked(w);
      assert Counted(p);
      hide Picked, LeftIn, Advanced;
      if p.current.Some? {
        CountedAdvance(p, p.current.value);
        var q := p.(fadeRemaining := p.fadeRemaining - 1);
        assert Pending(q) == Pending(p);
        CountedAdvance(q, p.current.value);
        hide CurrentDropped, Counted;
      }
    }
  }

  lemma CountedCancel(w: Worklet, g: Id, fade: nat)
    requires Counted(w)
    ensures Counted(Canceled(w, g, fade))
  {
    hide LeftIn, Retained, Removed, SpanOf, Canceled;
    var head := if w.current.Some? then [w.current.value] else [];
    RetainedLeft(w.queue, g);
    LeftConcat(head, w.queue);
    LeftConcat(head, Retained(w.queue, g));
    CancelParts(w, g, fade);
    assert Pending(w) == head + w.queue;
    assert Pending(Canceled(w, g, fade)) == head + Retained(w.queue, g);
  }

  lemma CancelParts(w: Worklet, g: Id, fade: nat)
    ensures var after := Canceled(w, g, fade);
            && after.current == w.current && after.queue == Retained(w.queue, g)
            && after.queuedSamples == w.queuedSamples - LeftIn(Removed(w.queue, g))
            && after.dropped == w.dropped + SpanOf(Removed(w.queue, g))
            && after.output == w.output && after.arrived == w.arrived
  {
    hide LeftIn, Retained, Removed, SpanOf;
  }

  lemma CountedOp(w: Worklet, op: Op)
    requires Counted(w) && (op.Enqueue? ==> op.samples != [])
    ensures Counted(Apply(w, op))
  {
    hide Canceled, Stepped, LeftIn;
    match op {
      case Enqueue(g, end, samples) =>
        var f := Frame(g, end, samples, 0, w.arrived);
        OneMoreFrame(Pending(w), f);
        assert Pending(Enqueued(w, g, end, samples)) == Pending(w) + [f];
      case Cancel(g, fade) => CountedCancel(w, g, fade);
      case Next(_) => CountedStep(w);
      case Underflow(_) =>
      case Complete(_) =>
      case Begin =>
      case Report(_) =>
    }
  }

  // With no empty frame enqueued, the count is the number of unplayed samples held, after any run;
  // so no clamp at zero ever binds.
  lemma {:induction false} CountIsExact(ops: seq<Op>)
    requires forall i :: 0 <= i < |ops| && ops[i].Enqueue? ==> ops[i].samples != []
    ensures Counted(After(FRESH_WORKLET, ops))
  {
    if ops != [] {
      hide Apply, Counted;
      CountIsExact(ops[..|ops| - 1]);
      CountedOp(After(FRESH_WORKLET, ops[..|ops| - 1]), ops[|ops| - 1]);
    } else {
      EmptyFrames();
    }
  }

  // An empty frame takes one off the count for no sample: moving past it leaves the count exact if
  // and only if nothing was counted.
  lemma EmptyFrameMiscounts(w: Worklet)
    requires w.current.Some? && w.current.value.samples == [] && w.current.value.offset == 0
    requires w.queuedSamples == LeftIn(Pending(w)) >= 0
    ensures var after := Advanced(w);
            after.queuedSamples == LeftIn(Pending(after)) <==> w.queuedSamples == 0
  {
    LeftConcat([w.current.value], w.queue);
    LeftOne(w.current.value);
    assert [] + w.queue == w.queue;
    assert Pending(Advanced(w)) == w.queue;
  }

  // Such a run: an empty frame ahead of one of a single sample. The count is 0 with that sample held.
  lemma EmptyFrameRun(g: Id, mediaEndUs: nat, x: real, historyLength: nat)
    ensures var after := After(FRESH_WORKLET,
                               [Enqueue(g, mediaEndUs, []), Enqueue(g, mediaEndUs, [x]), Next(historyLength)]);
            after.queuedSamples == 0 && LeftIn(Pending(after)) == 1
  {
    var ops := [Enqueue(g, mediaEndUs, []), Enqueue(g, mediaEndUs, [x]), Next(historyLength)];
    var loaded := Enqueued(Enqueued(FRESH_WORKLET, g, mediaEndUs, []), g, mediaEndUs, [x]);
    assert After(FRESH_WORKLET, ops) == Apply(loaded, Next(historyLength)) by {
      AfterFirst(FRESH_WORKLET, ops[0], [ops[1], ops[2]]);
      AfterFirst(Apply(FRESH_WORKLET, ops[0]), ops[1], [ops[2]]);
      AfterFirst(loaded, ops[2], []);
      assert ops == [ops[0]] + [ops[1], ops[2]] && [ops[1], ops[2]] == [ops[1]] + [ops[2]] && [ops[2]] == [ops[2]] + [];
    }
    var p := Picked(loaded);
    var f := Frame(g, mediaEndUs, [x], 0, 0);
    assert loaded.queue == [Frame(g, mediaEndUs, [], 0, 0), f] && p.queue == [f];
    AdvancedParts(p);
    assert Pending(Advanced(p)) == [f];
    LeftOne(f);
  }

  // ---------- conservation ----------

  function Held(frames: seq<Frame>, n: nat): nat {
    if frames == [] then 0
    else Held(frames[..|frames| - 1], n) + if Unplayed(frames[|frames| - 1], n) then 1 else 0
  }

  function TimesSounded(output: seq<Sounded>, n: nat): nat {
    if output == [] then 0
    else TimesSounded(output[..|output| - 1], n) + if output[|output| - 1].index == n then 1 else 0
  }

  // Sample `n` is sounded, given up or still held, once in all, if it has arrived, and none of
  // these before.
  predicate Fate(w: Worklet, n: nat) {
    TimesSounded(w.output, n) + (if n in w.dropped then 1 else 0) + Held(Pending(w), n) ==
      if n < w.arrived then 1 else 0
  }

  lemma {:induction false} HeldConcat(a: seq<Frame>, b: seq<Frame>, n: nat)
    ensures Held(a + b, n) == Held(a, n) + Held(b, n)
  {
    if b == [] {
      assert a + b == a;
    } else {
      var front, last := b[..|b| - 1], b[|b| - 1];
      HeldConcat(a, front, n);
      assert (a + b)[..|a + b| - 1] == a + front;
    }
  }

  lemma HeldOne(f: Frame, n: nat)
    ensures Held([f], n) == if Unplayed(f, n) then 1 else 0
  {
    assert [f][..0] == [];
  }

  lemma {:induction false} HeldIsSpan(frames: seq<Frame>, n: nat)
    ensures n in SpanOf(frames) <==> Held(frames, n) > 0
  {
    if frames != [] {
      HeldIsSpan(frames[..|frames| - 1], n);
    }
  }

  lemma {:induction false} RetainedHeld(queue: seq<Frame>, g: Id, n: nat)
    ensures Held(queue, n) == Held(Retained(queue, g), n) + Held(Removed(queue, g), n)
  {
    if queue != [] {
      var front, last := queue[..|queue| - 1], queue[|queue| - 1];
      RetainedHeld(front, g, n);
      hide Unplayed, Held;
      var kept, gone := Retained(front, g), Removed(front, g);
      HeldConcat(front, [last], n);
      assert queue == front + [last];
      HeldConcat(kept, [last], n);
      HeldConcat(gone, [last], n);
      if last.generation == g {
        assert Retained(queue, g) == kept + [] == kept && Removed(queue, g) == gone + [last];
      } else {
        assert Retained(queue, g) == kept + [last] && Removed(queue, g) == gone + [] == gone;
      }
      hide Retained, Removed;
    }
  }

  lemma FateCancel(w: Worklet, g: Id, fade: nat, n: nat)
    requires Fate(w, n)
    ensures Fate(Canceled(w, g, fade), n)
  {
    var head := if w.current.Some? then [w.current.value] else [];
    RetainedHeld(w.queue, g, n);
    HeldIsSpan(Removed(w.queue, g), n);
    hide Held, Retained, Removed, SpanOf, LeftIn;
    HeldConcat(head, w.queue, n);
    HeldConcat(head, Retained(w.queue, g), n);
    assert Pending(Canceled(w, g, fade)) == head + Retained(w.queue, g);
  }

  lemma SoundedOnceMore(output: seq<Sounded>, s: Sounded, n: nat)
    ensures TimesSounded(output + [s], n) == TimesSounded(output, n) + if s.index == n then 1 else 0
  {
    assert (output + [s])[..|output|] == output;
  }

  lemma MovedUnplayed(f: Frame, n: nat)
    ensures var moved := f.(offset := f.offset + 1);
            && (Unplayed(f, n) <==> Unplayed(moved, n) || (f.offset < |f.samples| && n == f.start + f.offset))
            && !(Unplayed(moved, n) && n == f.start + f.offset)
            && (moved.offset >= |f.samples| ==> !Unplayed(moved, n))
  {
  }

  lemma FateAdvance(p: Worklet, f: Frame, n: nat)
    requires Fate(p, n) && p.current == Some(f)
    ensures Fate(Advanced(p), n)
  {
    hide Held, Gain, TimesSounded, Unplayed, Advanced;
    var moved := f.(offset := f.offset + 1);
    var s := Sounded(f.start + f.offset, f.generation, Gain(p));
    AdvancedParts(p);
    SoundedOnceMore(p.output, s, n);
    MovedUnplayed(f, n);
    assert p.output + [] == p.output && [] + p.queue == p.queue;
    assert Pending(Advanced(p)) == if moved.offset >= |f.samples| then p.queue else [moved] + p.queue;
    HeldConcat([f], p.queue, n);
    HeldConcat([moved], p.queue, n);
    HeldOne(f, n);
    HeldOne(moved, n);
  }

  lemma FateDrop(p: Worklet, f: Frame, n: nat)
    requires Fate(p, n) && p.current == Some(f)
    ensures Fate(CurrentDropped(p), n)
  {
    assert n in Span(f) <==> Unplayed(f, n);
    HeldConcat([f], p.queue, n);
    HeldOne(f, n);
    hide Held, TimesSounded, Unplayed, Span;
    assert Pending(CurrentDropped(p)) == p.queue by {
      assert [] + p.queue == p.queue;
    }
  }

  lemma FateStep(w: Worklet, n: nat)
    requires Fate(w, n)
    ensures Fate(Stepped(w), n)
  {
    if !Concealing(w) {
      PickedPending(w);
      var p := Picked(w);
      assert Fate(p, n);
      hide Picked, Held, TimesSounded, Advanced;
      if p.current.Some? {
        FateAdvance(p, p.current.value, n);
        var q := p.(fadeRemaining := p.fadeRemaining - 1);
        assert Pending(q) == Pending(p);
        FateDrop(q, p.current.value, n);
        hide CurrentDropped, Fate;
      }
    }
  }

  lemma FateOp(w: Worklet, op: Op, n: nat)
    requires Fate(w, n)
    ensures Fate(Apply(w, op), n)
  {
    hide Canceled, Stepped, Held, TimesSounded;
    match op {
      case Enqueue(g, end, samples) =>
        var f := Frame(g, end, samples, 0, w.arrived);
        HeldConcat(Pending(w), [f], n);
        HeldOne(f, n);
        assert Pending(Enqueued(w, g, end, samples)) == Pending(w) + [f];
      case Cancel(g, fade) => FateCancel(w, g, fade, n);
      case Next(_) => FateStep(w, n);
      case Underflow(_) =>
      case Complete(_) =>
      case Begin =>
      case Report(_) =>
    }
  }

  // After any run whatever, every sample that arrived has been sounded once, or dropped by a cancel,
  // or is still held, and only one of these.
  lemma {:induction false} EverySampleHasOneFate(ops: seq<Op>, n: nat)
    ensures Fate(After(FRESH_WORKLET, ops), n)
  {
    if ops != [] {
      hide Apply, Fate;
      EverySampleHasOneFate(ops[..|ops| - 1], n);
      FateOp(After(FRESH_WORKLET, ops[..|ops| - 1]), ops[|ops| - 1], n);
    }
  }

  // ---------- order ----------

  function End(f: Frame): nat {
    f.start + |f.samples|
  }

  ghost predicate InOrder(frames: seq<Frame>, arrived: nat) {
    && (forall f :: f in frames ==> f.offset <= |f.samples| && End(f) <= arrived)
    && (forall i, j :: 0 <= i < j < |frames| ==> End(frames[i]) <= frames[j].start)
  }

  ghost predicate Rising(output: seq<Sounded>) {
    forall k, l :: 0 <= k < l < |output| ==> output[k].index < output[l].index
  }

  ghost predicate Behind(output: seq<Sounded>, frames: seq<Frame>, arrived: nat) {
    && (forall s :: s in output ==> s.index < arrived)
    && (forall s, f :: s in output && f in frames ==> s.index < f.start + f.offset)
  }

  ghost predicate Ordered(w: Worklet) {
    InOrder(Pending(w), w.arrived) && Rising(w.output) && Behind(w.output, Pending(w), w.arrived)
  }

  lemma InOrderSnoc(frames: seq<Frame>, last: Frame, arrived: nat)
    ensures InOrder(frames + [last], arrived) <==>
            InOrder(frames, arrived) && last.offset <= |last.samples| && End(last) <= arrived &&
            forall f :: f in frames ==> End(f) <= last.start
  {
    hide End;
    var all := frames + [last];
    assert forall f :: f in all <==> f in frames || f == last;
    assert all[|frames|] == last && forall i :: 0 <= i < |frames| ==> all[i] == frames[i];
  }

  lemma {:induction false} RetainedInOrder(head: seq<Frame>, queue: seq<Frame>, g: Id, arrived: nat)
    requires InOrder(head + queue, arrived)
    ensures InOrder(head + Retained(queue, g), arrived)
    ensures forall f :: f in head + Retained(queue, g) ==> f in head + queue
  {
    if queue != [] {
      var front, last := queue[..|queue| - 1], queue[|queue| - 1];
      assert head + queue == head + front + [last];
      InOrderSnoc(head + front, last, arrived);
      hide InOrder, End;
      RetainedInOrder(head, front, g, arrived);
      InOrderSnoc(head + Retained(front, g), last, arrived);
      assert head + (Retained(front, g) + [last]) == head + Retained(front, g) + [last];
      assert Retained(front, g) + [] == Retained(front, g);
      assert forall f :: f in head + queue <==> f in head + front || f == last;
    }
  }

  lemma InOrderFirst(f: Frame, rest: seq<Frame>, arrived: nat)
    ensures InOrder([f] + rest, arrived) <==>
            f.offset <= |f.samples| && End(f) <= arrived && InOrder(rest, arrived) &&
            forall h :: h in rest ==> End(f) <= h.start
  {
    hide End;
    var all := [f] + rest;
    assert forall h :: h in all <==> h == f || h in rest;
    assert all[0] == f && forall i :: 0 < i < |all| ==> all[i] == rest[i - 1];
    if InOrder(all, arrived) {
      forall i, j | 0 <= i < j < |rest| ensures End(rest[i]) <= rest[j].start {
        assert all[i + 1] == rest[i] && all[j + 1] == rest[j];
      }
      forall h | h in rest ensures End(f) <= h.start {
        var j :| 0 <= j < |rest| && rest[j] == h;
        assert all[j + 1] == h;
      }
    }
  }

  lemma OrderedAdvance(p: Worklet, f: Frame)
    requires Ordered(p) && p.current == Some(f)
    ensures Ordered(Advanced(p))
  {
    var moved := f.(offset := f.offset + 1);
    var s := Sounded(f.start + f.offset, f.generation, Gain(p));
    AdvancedParts(p);
    assert p.output + [] == p.output && [] + p.queue == p.queue;
    assert Pending(p) == [f] + p.queue && f in Pending(p);
    InOrderFirst(f, p.queue, p.arrived);
    InOrderFirst(moved, p.queue, p.arrived);
    assert Pending(Advanced(p)) == if moved.offset >= |f.samples| then p.queue else [moved] + p.queue;
    hide InOrder, Gain, Advanced, Rising;
    BehindFirst(p.output, f, p.queue, p.arrived, s);
    if f.offset < |f.samples| {
      RisingMore(p.output, s);
    }
  }

  lemma BehindFirst(output: seq<Sounded>, f: Frame, rest: seq<Frame>, arrived: nat, s: Sounded)
    requires Behind(output, [f] + rest, arrived)
    requires s.index == f.start + f.offset
    requires forall h :: h in rest ==> End(f) <= h.start
    ensures Behind(output, rest, arrived)
    ensures forall r :: r in output ==> r.index < s.index
    ensures f.offset < |f.samples| && End(f) <= arrived ==>
              Behind(output + [s], rest, arrived) && Behind(output + [s], [f.(offset := f.offset + 1)] + rest, arrived)
  {
    assert forall h :: h in [f] + rest <==> h == f || h in rest;
    assert forall r :: r in output + [s] <==> r in output || r == s;
  }

  lemma OrderedDrop(p: Worklet, f: Frame)
    requires Ordered(p) && p.current == Some(f)
    ensures Ordered(CurrentDropped(p))
  {
    assert Pending(p) == [f] + p.queue;
    InOrderFirst(f, p.queue, p.arrived);
    assert Pending(CurrentDropped(p)) == p.queue by {
      assert [] + p.queue == p.queue;
    }
    BehindFirst(p.output, f, p.queue, p.arrived, Sounded(f.start + f.offset, 0, 0.0));
    hide InOrder, Rising, Behind;
  }

  lemma RisingMore(output: seq<Sounded>, s: Sounded)
    requires Rising(output) && forall r :: r in output ==> r.index < s.index
    ensures Rising(output + [s])
  {
    var more := output + [s];
    assert forall k :: 0 <= k < |output| ==> more[k] == output[k] && output[k] in output;
  }

  lemma OrderedStep(w: Worklet)
    requires Ordered(w)
    ensures Ordered(Stepped(w))
  {
    if !Concealing(w) {
      PickedPending(w);
      var p := Picked(w);
      assert Ordered(p);
      hide Picked, InOrder, Rising, Behind, Advanced;
      if p.current.Some? {
        OrderedAdvance(p, p.current.value);
        var q := p.(fadeRemaining := p.fadeRemaining - 1);
        assert Pending(q) == Pending(p);
        OrderedDrop(q, p.current.value);
        hide CurrentDropped, Ordered;
      }
    }
  }

  lemma OrderedOp(w: Worklet, op: Op)
    requires Ordered(w)
    ensures Ordered(Apply(w, op))
  {
    hide Stepped, InOrder, Rising;
    match op {
      case Enqueue(g, end, samples) =>
        var f := Frame(g, end, samples, 0, w.arrived);
        OrderedEnqueue(w, f);
      case Cancel(g, fade) =>
        var head := if w.current.Some? then [w.current.value] else [];
        RetainedInOrder(head, w.queue, g, w.arrived);
        hide Retained, Removed, SpanOf, LeftIn;
        assert Pending(Canceled(w, g, fade)) == head + Retained(w.queue, g);
      case Next(_) => OrderedStep(w);
      case Underflow(_) =>
      case Complete(_) =>
      case Begin =>
      case Report(_) =>
    }
  }

  lemma OrderedEnqueue(w: Worklet, f: Frame)
    requires Ordered(w) && f.offset == 0 && f.start == w.arrived
    ensures InOrder(Pending(w) + [f], w.arrived + |f.samples|)
    ensures Behind(w.output, Pending(w) + [f], w.arrived + |f.samples|)
    ensures Pending(w) + [f] == Pending(w.(queue := w.queue + [f]))
  {
    assert InOrder(Pending(w), w.arrived + |f.samples|);
    InOrderSnoc(Pending(w), f, w.arrived + |f.samples|);
  }

  // After any run whatever, queued samples have been sounded in the order they arrived, and what is
  // held will be.
  lemma {:induction false} PlayedInOrder(ops: seq<Op>)
    ensures Ordered(After(FRESH_WORKLET, ops))
  {
    if ops != [] {
      hide Apply, Ordered;
      PlayedInOrder(ops[..|ops| - 1]);
      OrderedOp(After(FRESH_WORKLET, ops[..|ops| - 1]), ops[|ops| - 1]);
    }
  }

  // ---------- the fade-out ----------

  // The gains at which generation `g` was sounded.
  function GainsOf(output: seq<Sounded>, g: Id): seq<real> {
    if output == [] then []
    else
      var last := output[|output| - 1];
      GainsOf(output[..|output| - 1], g) + if last.generation == g then [last.gain] else []
  }

  // A linear fall from 1 in steps of 1/total.
  function Ramp(total: nat, k: nat): seq<real>
    requires total > 0
  {
    seq(k, i requires 0 <= i < k => (total - i) as real / total as real)
  }

  lemma RampFalls(total: nat, k: nat)
    requires total > 0 && k <= total
    ensures forall i, j :: 0 <= i < j < k ==> Ramp(total, k)[j] < Ramp(total, k)[i]
    ensures k > 0 ==> Ramp(total, k)[0] == 1.0 && Ramp(total, k)[k - 1] > 0.0
  {
    var t := total as real;
    forall i, j | 0 <= i < j < k ensures Ramp(total, k)[j] < Ramp(total, k)[i] {
      DivMono((total - j) as real, (total - i) as real, t);
    }
    if k > 0 {
      DivMono(0.0, (total - (k - 1)) as real, t);
      assert t / t == 1.0;
    }
  }

  lemma DivMono(a: real, b: real, t: real)
    requires a < b && t > 0.0
    ensures a / t < b / t
  {
    var x, y := a / t, b / t;
    assert x * t == a && y * t == b;
  }

  predicate Absent(queue: seq<Frame>, g: Id) {
    forall f :: f in queue ==> f.generation != g
  }

  // Generation `g` was cancelled when `from` samples had been sounded, and is on its way out.
  ghost predicate FadingOut(w: Worklet, g: Id, total: nat, from: nat)
    requires total > 0
  {
    && Absent(w.queue, g) && from <= |w.output|
    && var gains := GainsOf(w.output[from..], g);
       && gains == Ramp(total, |gains|) && |gains| < total
       && (Current(w, g) ==> w.fadeGeneration == Some(g) && w.fadeTotal == total && |gains| == total - w.fadeRemaining)
  }

  lemma {:induction false} RetainedAbsent(queue: seq<Frame>, g: Id)
    ensures Absent(Retained(queue, g), g) && forall f :: f in Retained(queue, g) ==> f in queue
  {
    if queue != [] {
      RetainedAbsent(queue[..|queue| - 1], g);
    }
  }

  lemma GainsMore(output: seq<Sounded>, s: Sounded, g: Id, from: nat)
    requires from <= |output|
    ensures GainsOf((output + [s])[from..], g) ==
            GainsOf(output[from..], g) + if s.generation == g then [s.gain] else []
  {
    assert (output + [s])[from..] == output[from..] + [s];
    assert (output[from..] + [s])[..|output[from..]|] == output[from..];
  }

  lemma FadeAdvances(w: Worklet, g: Id, total: nat, from: nat)
    requires total > 0 && FadingOut(w, g, total, from) && w.current.Some? && !(Fading(w) && w.fadeRemaining <= 1)
    ensures FadingOut(Advanced(w), g, total, from)
  {
    var f := w.current.value;
    var s := Sounded(f.start + f.offset, f.generation, Gain(w));
    AdvancedParts(w);
    GainsMore(w.output, s, g, from);
    assert w.output + [] == w.output;
    var gains := GainsOf(w.output[from..], g);
    if f.generation == g {
      assert Fading(w) && w.fadeTotal == total && w.fadeRemaining == total - |gains|;
      assert Gain(w) == (total - |gains|) as real / total as real;
      assert Ramp(total, |gains| + 1) == Ramp(total, |gains|) + [Gain(w)];
    }
    hide GainsOf, Advanced, Gain, Ramp;
  }

  lemma FadeStep(w: Worklet, g: Id, total: nat, from: nat)
    requires total > 0 && FadingOut(w, g, total, from)
    ensures FadingOut(Stepped(w), g, total, from)
  {
    hide GainsOf, Advanced, Ramp;
    if !Concealing(w) {
      var p := Picked(w);
      assert FadingOut(p, g, total, from) by {
        assert w.queue != [] ==> w.queue[0] in w.queue;
      }
      hide Picked;
      if p.current.Some? && !(Fading(p) && p.fadeRemaining <= 1) {
        FadeAdvances(p, g, total, from);
      }
    }
  }

  lemma FadeOp(w: Worklet, op: Op, g: Id, total: nat, from: nat)
    requires total > 0 && FadingOut(w, g, total, from)
    requires op.Enqueue? || op.Cancel? ==> op.generation != g
    ensures FadingOut(Apply(w, op), g, total, from)
  {
    hide GainsOf, Ramp, Stepped;
    match op {
      case Cancel(h, fade) =>
        RetainedAbsent(w.queue, h);
        hide Retained, Removed, SpanOf, LeftIn;
      case Next(_) => FadeStep(w, g, total, from);
      case Enqueue(h, end, samples) =>
      case Underflow(_) =>
      case Complete(_) =>
      case Begin =>
      case Report(_) =>
    }
  }

  // After one cancel of `g`, with no further frame and no further cancel of `g`, the samples of `g`
  // still sounded are fewer than the fade is long and fall from full gain in equal steps; there are
  // none if `g` was not the one playing.
  lemma {:induction false} CancelFadesOut(w: Worklet, g: Id, fadeSamples: nat, ops: seq<Op>)
    requires forall i :: 0 <= i < |ops| && (ops[i].Enqueue? || ops[i].Cancel?) ==> ops[i].generation != g
    ensures var total := if fadeSamples < 1 then 1 else fadeSamples;
            FadingOut(After(Canceled(w, g, fadeSamples), ops), g, total, |w.output|)
  {
    var total := if fadeSamples < 1 then 1 else fadeSamples;
    if ops == [] {
      RetainedAbsent(w.queue, g);
      assert w.output[|w.output|..] == [];
      assert Ramp(total, 0) == [];
      hide Retained, Removed, SpanOf, LeftIn;
    } else {
      hide Apply, FadingOut, Canceled;
      CancelFadesOut(w, g, fadeSamples, ops[..|ops| - 1]);
      FadeOp(After(Canceled(w, g, fadeSamples), ops[..|ops| - 1]), ops[|ops| - 1], g, total, |w.output|);
    }
  }
}
