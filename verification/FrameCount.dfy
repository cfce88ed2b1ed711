// The frame count kept by the main thread against the playback worklet, across the two message
// ports between them.
module FrameCount {
  import opened Protocol
  import opened Playback
  import opened PlaybackTheorems

  // ---------- the main thread ----------

  datatype Packet = Packet(generation: Id, mediaEndUs: nat, samples: seq<real>)

  datatype Message =
    | EnqueueMessage(packet: Packet)
    | CompleteMessage(done: Id)
    | CancelMessage(stopped: Id, fadeSamples: nat)

  // `canceled` keeps insertion order; `outbox` is everything ever posted to the worklet. `spoiled`
  // and `closed` are history: the generations cancelled, reset or enqueued late, and those whose
  // completion was posted.
  datatype Desk = Desk(
    counts: map<Id, nat>, canceled: seq<Id>, awaiting: seq<Packet>, ready: bool, outbox: seq<Message>,
    spoiled: set<Id>, closed: set<Id>)

  const FRESH_DESK := Desk(map[], [], [], false, [], {}, {})

  const MAX_CANCELED: nat := 256

  function CountOf(counts: map<Id, nat>, g: Id): nat {
    if g in counts then counts[g] else 0
  }

  function Remembering(canceled: seq<Id>, g: Id): seq<Id> {
    var more := if g in canceled then canceled else canceled + [g];
    if |more| > MAX_CANCELED then more[|more| - MAX_CANCELED..] else more
  }

  // `enqueue` up to the point where it waits for the playback node.
  function EnqueueCalled(d: Desk, p: Packet): Desk {
    if p.generation in d.canceled then d else d.(awaiting := d.awaiting + [p])
  }

  // The rest of `enqueue`, for one of the waiting packets.
  function EnqueueResumed(d: Desk, i: nat): Desk
    requires i < |d.awaiting|
  {
    var p := d.awaiting[i];
    d.(ready := true, awaiting := d.awaiting[..i] + d.awaiting[i + 1..],
       counts := d.counts[p.generation := CountOf(d.counts, p.generation) + 1],
       outbox := d.outbox + [EnqueueMessage(p)],
       spoiled := if p.generation in d.closed then d.spoiled + {p.generation} else d.spoiled)
  }

  function CompleteCalled(d: Desk, g: Id): Desk {
    if d.ready then d.(outbox := d.outbox + [CompleteMessage(g)], closed := d.closed + {g}) else d
  }

  function CancelCalled(d: Desk, g: Id, fadeSamples: nat): Desk {
    d.(canceled := Remembering(d.canceled, g), counts := d.counts - {g},
       outbox := if d.ready then d.outbox + [CancelMessage(g, fadeSamples)] else d.outbox,
       spoiled := d.spoiled + {g})
  }

  function CancelsFor(ids: seq<Id>, fadeSamples: nat): seq<Message> {
    seq(|ids|, i requires 0 <= i < |ids| => CancelMessage(ids[i], fadeSamples))
  }

  // `keys` lists the counted generations in the map's order.
  function ResetCalled(d: Desk, keys: seq<Id>, fadeSamples: nat): Desk {
    d.(counts := map[], outbox := if d.ready then d.outbox + CancelsFor(keys, fadeSamples) else d.outbox,
       spoiled := d.spoiled + d.counts.Keys)
  }

  function Handled(d: Desk, p: Post): Desk {
    match p
    case Played(g, _) =>
      var known: int := if g in d.counts then d.counts[g] else 1;
      var remaining := AtLeastZero(known - 1);
      d.(counts := if remaining == 0 then d.counts - {g} else d.counts[g := remaining])
    case CanceledPost(g) => d.(counts := d.counts - {g})
    case Idle(g) => d.(counts := d.counts - {g})
    case _ => d
  }

  class AudioSession {
    var counts: map<Id, nat>
    var canceled: seq<Id>
    var awaiting: seq<Packet>
    var ready: bool
    var outbox: seq<Message>
    ghost var spoiled: set<Id>
    ghost var closed: set<Id>

    ghost function State(): Desk
      reads this
    {
      Desk(counts, canceled, awaiting, ready, outbox, spoiled, closed)
    }

    constructor ()
      ensures State() == FRESH_DESK
    {
      counts, canceled, awaiting, ready, outbox, spoiled, closed := map[], [], [], false, [], {}, {};
    }

    method BeginEnqueue(p: Packet)
      modifies this
      ensures State() == EnqueueCalled(old(State()), p)
    {
      if p.generation in canceled {
        return;
      }
      awaiting := awaiting + [p];
    }

    method FinishEnqueue(i: nat)
      requires i < |awaiting|
      modifies this
      ensures State() == EnqueueResumed(old(State()), i)
    {
      var p := awaiting[i];
      awaiting := awaiting[..i] + awaiting[i + 1..];
      ready := true;
      counts := counts[p.generation := (if p.generation in counts then counts[p.generation] else 0) + 1];
      outbox := outbox + [EnqueueMessage(p)];
      spoiled := if p.generation in closed then spoiled + {p.generation} else spoiled;
    }

    method Complete(g: Id)
      modifies this
      ensures State() == CompleteCalled(old(State()), g)
    {
      if ready {
        outbox := outbox + [CompleteMessage(g)];
        closed := closed + {g};
      }
    }

    // Adds `g` at the end, dropping the oldest beyond the limit.
    method Remember(g: Id)
      requires |canceled| <= MAX_CANCELED
      modifies this`canceled
      ensures canceled == Remembering(old(canceled), g) && |canceled| <= MAX_CANCELED
    {
      if g !in canceled {
        canceled := canceled + [g];
      }
      ghost var more := canceled;
      while |canceled| > MAX_CANCELED
        invariant |canceled| <= |more| <= MAX_CANCELED + 1
        invariant canceled == more[|more| - |canceled|..]
        invariant |more| > MAX_CANCELED ==> |canceled| >= MAX_CANCELED
        invariant |more| <= MAX_CANCELED ==> canceled == more
      {
        canceled := canceled[1..];
      }
    }

    method Cancel(g: Id, fadeSamples: nat)
      requires |canceled| <= MAX_CANCELED
      modifies this
      ensures State() == CancelCalled(old(State()), g, fadeSamples) && |canceled| <= MAX_CANCELED
    {
      Remember(g);
      counts := counts - {g};
      if ready {
        outbox := outbox + [CancelMessage(g, fadeSamples)];
      }
      spoiled := spoiled + {g};
    }

    method CancelAllPlayback(keys: seq<Id>, fadeSamples: nat)
      modifies this
      ensures State() == ResetCalled(old(State()), keys, fadeSamples)
    {
      for i := 0 to |keys|
        invariant State() == old(State()).(outbox := outbox)
        invariant outbox == if ready then old(outbox) + CancelsFor(keys[..i], fadeSamples) else old(outbox)
      {
        assert CancelsFor(keys[..i + 1], fadeSamples) ==
               CancelsFor(keys[..i], fadeSamples) + [CancelMessage(keys[i], fadeSamples)];
        if ready {
          outbox := outbox + [CancelMessage(keys[i], fadeSamples)];
        }
      }
      assert keys[..|keys|] == keys;
      spoiled := spoiled + counts.Keys;
      counts := map[];
    }

    method HandlePlaybackMessage(p: Post)
      modifies this
      ensures State() == Handled(old(State()), p)
    {
      match p {
        case Played(g, _) =>
          var known: int := if g in counts then counts[g] else 1;
          var remaining := AtLeastZero(known - 1);
          if remaining == 0 {
            counts := counts - {g};
          } else {
            counts := counts[g := remaining];
          }
        case CanceledPost(g) =>
          counts := counts - {g};
        case Idle(g) =>
          counts := counts - {g};
        case _ =>
      }
    }

    method HasActiveOutput() returns (active: bool)
      ensures active <==> exists g :: CountOf(counts, g) > 0
    {
      active := exists g :: g in counts && counts[g] > 0;
      if g :| CountOf(counts, g) > 0 {
        assert g in counts && counts[g] > 0;
      }
      if active {
        var g :| g in counts && counts[g] > 0;
        assert CountOf(counts, g) > 0;
      }
    }
  }

  // ---------- both threads and the two ports ----------

  // The worklet has taken the first `delivered` messages, the main thread has handled the first
  // `read` posts.
  datatype System = System(desk: Desk, worklet: Worklet, delivered: nat, read: nat)

  const FRESH_SYSTEM := System(FRESH_DESK, FRESH_WORKLET, 0, 0)

  datatype Move =
    | CallEnqueue(packet: Packet)
    | ResumeEnqueue(i: nat)
    | CallComplete(g: Id)
    | CallCancel(g: Id, fadeSamples: nat)
    | CallReset(keys: seq<Id>, fadeSamples: nat)
    | Deliver                       // the worklet takes its next message
    | Play(op: Op)                  // the worklet's own doing
    | Handle                        // the main thread takes its next post

  function OpOf(m: Message): Op {
    match m
    case EnqueueMessage(p) => Op.Enqueue(p.generation, p.mediaEndUs, p.samples)
    case CompleteMessage(g) => Op.Complete(g)
    case CancelMessage(g, fade) => Op.Cancel(g, fade)
  }

  predicate Own(op: Op) {
    op.Next? || op.Underflow? || op.Begin? || op.Report?
  }

  function Step(s: System, m: Move): System {
    match m
    case CallEnqueue(p) => s.(desk := EnqueueCalled(s.desk, p))
    case ResumeEnqueue(i) => if i < |s.desk.awaiting| then s.(desk := EnqueueResumed(s.desk, i)) else s
    case CallComplete(g) => s.(desk := CompleteCalled(s.desk, g))
    case CallCancel(g, fade) => s.(desk := CancelCalled(s.desk, g, fade))
    case CallReset(keys, fade) =>
      if (set k | k in keys) == s.desk.counts.Keys then s.(desk := ResetCalled(s.desk, keys, fade)) else s
    case Deliver =>
      if s.delivered < |s.desk.outbox|
      then s.(worklet := Apply(s.worklet, OpOf(s.desk.outbox[s.delivered])), delivered := s.delivered + 1) else s
    case Play(op) => if Own(op) then s.(worklet := Apply(s.worklet, op)) else s
    case Handle =>
      if s.read < |s.worklet.posts|
      then s.(desk := Handled(s.desk, s.worklet.posts[s.read]), read := s.read + 1) else s
  }

  function Run(moves: seq<Move>): System {
    if moves == [] then FRESH_SYSTEM else Step(Run(moves[..|moves| - 1]), moves[|moves| - 1])
  }

  // ---------- counting frames of one generation ----------

  // Frames of `g` posted to the worklet.
  function Fed(outbox: seq<Message>, g: Id): nat {
    if outbox == [] then 0
    else
      var m := outbox[|outbox| - 1];
      Fed(outbox[..|outbox| - 1], g) + if m.EnqueueMessage? && m.packet.generation == g then 1 else 0
  }

  // Frames of `g` reported as played.
  function Back(posts: seq<Post>, g: Id): nat {
    if posts == [] then 0
    else
      var p := posts[|posts| - 1];
      Back(posts[..|posts| - 1], g) + if p.Played? && p.generation == g then 1 else 0
  }

  function FramesOf(frames: seq<Frame>, g: Id): nat {
    if frames == [] then 0
    else FramesOf(frames[..|frames| - 1], g) + if frames[|frames| - 1].generation == g then 1 else 0
  }

  lemma {:induction false} FramesOfConcat(a: seq<Frame>, b: seq<Frame>, g: Id)
    ensures FramesOf(a + b, g) == FramesOf(a, g) + FramesOf(b, g)
  {
    if b == [] {
      assert a + b == a;
    } else {
      FramesOfConcat(a, b[..|b| - 1], g);
      assert (a + b)[..|a + b| - 1] == a + b[..|b| - 1];
    }
  }

  lemma FramesOfOne(f: Frame, g: Id)
    ensures FramesOf([f], g) == if f.generation == g then 1 else 0
  {
    assert [f][..0] == [];
  }

  lemma {:induction false} BackConcat(a: seq<Post>, b: seq<Post>, g: Id)
    ensures Back(a + b, g) == Back(a, g) + Back(b, g)
  {
    if b == [] {
      assert a + b == a;
    } else {
      BackConcat(a, b[..|b| - 1], g);
      assert (a + b)[..|a + b| - 1] == a + b[..|b| - 1];
    }
  }

  lemma {:induction false} FedConcat(a: seq<Message>, b: seq<Message>, g: Id)
    ensures Fed(a + b, g) == Fed(a, g) + Fed(b, g)
  {
    if b == [] {
      assert a + b == a;
    } else {
      FedConcat(a, b[..|b| - 1], g);
      assert (a + b)[..|a + b| - 1] == a + b[..|b| - 1];
    }
  }

  lemma BackOne(p: Post, g: Id)
    ensures Back([p], g) == if p.Played? && p.generation == g then 1 else 0
  {
    assert [p][..0] == [];
  }

  lemma FedOne(m: Message, g: Id)
    ensures Fed([m], g) == if m.EnqueueMessage? && m.packet.generation == g then 1 else 0
  {
    assert [m][..0] == [];
  }

  lemma {:induction false} RetainedFrames(queue: seq<Frame>, g: Id, h: Id)
    requires g != h
    ensures FramesOf(Retained(queue, h), g) == FramesOf(queue, g)
  {
    if queue != [] {
      var front, last := queue[..|queue| - 1], queue[|queue| - 1];
      RetainedFrames(front, g, h);
      FramesOfConcat(Retained(front, h), [last], g);
      FramesOfOne(last, g);
      assert Retained(front, h) + [] == Retained(front, h);
    }
  }

  lemma {:induction false} HeldFrames(queue: seq<Frame>, g: Id)
    ensures FramesOf(queue, g) > 0 <==> exists i :: 0 <= i < |queue| && queue[i].generation == g
  {
    if queue != [] {
      var front, last := queue[..|queue| - 1], queue[|queue| - 1];
      HeldFrames(front, g);
      if FramesOf(front, g) > 0 {
        var i :| 0 <= i < |front| && front[i].generation == g;
        assert queue[i].generation == g;
      }
      if i :| 0 <= i < |queue| && queue[i].generation == g {
        if i < |front| {
          assert front[i].generation == g;
        }
      }
    }
  }

  // ---------- the worklet's side ----------

  // Frames of `g` the worklet has been given and has not given up.
  function Taken(w: Worklet, g: Id): nat {
    FramesOf(Pending(w), g) + Back(w.posts, g)
  }

  // What one operation does to a generation that is not being cancelled: a frame moves from
  // pending to played, or arrives; only the end of the queue makes it idle.
  ghost predicate Steady(w: Worklet, after: Worklet, g: Id, arrivals: nat) {
    && |w.posts| <= |after.posts| && after.posts[..|w.posts|] == w.posts
    && Taken(after, g) == Taken(w, g) + arrivals
    && after.fadeGeneration != Some(g)
    && (forall k :: |w.posts| <= k < |after.posts| ==> after.posts[k] != CanceledPost(g))
    && (forall k :: |w.posts| <= k < |after.posts| && after.posts[k] == Idle(g) ==>
          FramesOf(Pending(after), g) == 0 && Back(after.posts, g) == Back(after.posts[..k], g))
  }

  // Appending one post that is neither the end of `g` nor a frame of it.
  lemma SteadyPost(w: Worklet, after: Worklet, g: Id, p: Post, arrivals: nat)
    requires after.posts == w.posts + [p] && p != CanceledPost(g) && after.fadeGeneration != Some(g)
    requires FramesOf(Pending(after), g) + (if p.Played? && p.generation == g then 1 else 0) ==
             FramesOf(Pending(w), g) + arrivals
    requires p == Idle(g) ==> FramesOf(Pending(after), g) == 0
    ensures Steady(w, after, g, arrivals)
  {
    BackConcat(w.posts, [p], g);
    BackOne(p, g);
    assert after.posts[..|w.posts|] == w.posts;
  }

  lemma SteadySame(w: Worklet, after: Worklet, g: Id)
    requires after.posts == w.posts && after.fadeGeneration != Some(g) &&
             FramesOf(Pending(after), g) == FramesOf(Pending(w), g)
    ensures Steady(w, after, g, 0)
  {
    assert w.posts[..|w.posts|] == w.posts;
  }

  lemma SteadyTrans(a: Worklet, b: Worklet, c: Worklet, g: Id, n: nat)
    requires Steady(a, b, g, n) && Steady(b, c, g, 0)
    ensures Steady(a, c, g, n)
  {
    hide Back, FramesOf, Pending;
    assert c.posts[..|a.posts|] == c.posts[..|b.posts|][..|a.posts|];
    forall k | |a.posts| <= k < |c.posts| && c.posts[k] == Idle(g)
      ensures FramesOf(Pending(c), g) == 0 && Back(c.posts, g) == Back(c.posts[..k], g)
    {
      if k < |b.posts| {
        assert c.posts[k] == c.posts[..|b.posts|][k] == b.posts[k];
        assert c.posts[..k] == b.posts[..k];
        BackConcat(b.posts, c.posts[|b.posts|..], g);
        assert c.posts == b.posts + c.posts[|b.posts|..];
      }
    }
    forall k | |a.posts| <= k < |c.posts|
      ensures c.posts[k] != CanceledPost(g)
    {
      if k < |b.posts| {
        assert c.posts[k] == c.posts[..|b.posts|][k];
      }
    }
  }

  lemma SteadyDone(w: Worklet, after: Worklet, g: Id)
    requires after.posts == w.posts && Pending(after) == Pending(w) && after.fadeGeneration == w.fadeGeneration
    requires w.fadeGeneration != Some(g)
    ensures Steady(w, after, g, 0)
  {
    SteadySame(w, after, g);
  }

  lemma DroppedSteady(p: Worklet, g: Id)
    requires p.current.Some? && p.current.value.generation != g && p.fadeGeneration != Some(g)
    ensures Steady(p, CurrentDropped(p), g, 0)
    ensures g in CurrentDropped(p).completed <==> g in p.completed
  {
    var f := p.current.value;
    FramesOfConcat([f], p.queue, g);
    FramesOfOne(f, g);
    var after := CurrentDropped(p);
    var middle := after.(posts := p.posts + [CanceledPost(f.generation)]);
    assert [] + p.queue == p.queue;
    assert Pending(middle) == p.queue && Pending(after) == p.queue && Pending(p) == [f] + p.queue;
    assert after.posts == middle.posts + [BufferState(after.queuedSamples)];
    hide Steady, FramesOf;
    SteadyPost(p, middle, g, CanceledPost(f.generation), 0);
    SteadyPost(middle, after, g, BufferState(after.queuedSamples), 0);
    SteadyTrans(p, middle, after, g, 0);
  }

  lemma AdvancedSteady(p: Worklet, g: Id)
    requires p.current.Some? && p.fadeGeneration != Some(g)
    ensures Steady(p, Advanced(p), g, 0) && Advanced(p).completed == p.completed
  {
    hide Advanced, Steady, FramesOf, Gain;
    var f := p.current.value;
    var moved := f.(offset := f.offset + 1);
    AdvancedParts(p);
    AdvancedPosts(p);
    var after := Advanced(p);
    FramesOfConcat([f], p.queue, g);
    FramesOfOne(f, g);
    FramesOfConcat([moved], p.queue, g);
    FramesOfOne(moved, g);
    assert [] + p.queue == p.queue;
    if after.current.None? {
      SteadyPost(p, after, g, Played(f.generation, f.mediaEndUs), 0);
    } else {
      SteadySame(p, after, g);
    }
  }

  lemma AdvancedPosts(w: Worklet)
    requires w.current.Some?
    ensures var after := Advanced(w);
            var f := w.current.value;
            && after.completed == w.completed
            && after.posts == if after.current.Some? then w.posts else w.posts + [Played(f.generation, f.mediaEndUs)]
  {
  }

  lemma StepSteady(w: Worklet, g: Id)
    requires w.fadeGeneration != Some(g)
    ensures Steady(w, Stepped(w), g, 0) && (g in Stepped(w).completed <==> g in w.completed)
  {
    hide Steady;
    if Concealing(w) {
      SteadyDone(w, Concealed(w), g);
    } else {
      PickedPending(w);
      var p := Picked(w);
      assert p.posts == w.posts && p.fadeGeneration == w.fadeGeneration && p.completed == w.completed;
      hide Picked, Pending;
      SteadyDone(w, p, g);
      if p.current.Some? {
        if Fading(p) && p.fadeRemaining <= 1 {
          var q := p.(fadeRemaining := p.fadeRemaining - 1);
          assert Pending(q) == Pending(p) by {
            PendingFields(p, q);
          }
          SteadyDone(p, q, g);
          hide CurrentDropped;
          DroppedSteady(q, g);
          SteadyTrans(w, p, q, g, 0);
          SteadyTrans(w, q, CurrentDropped(q), g, 0);
        } else {
          AdvancedSteady(p, g);
          hide Advanced;
          SteadyTrans(w, p, Advanced(p), g, 0);
        }
      }
    }
  }

  lemma PendingFields(a: Worklet, b: Worklet)
    requires a.current == b.current && a.queue == b.queue
    ensures Pending(a) == Pending(b)
  {
  }

  lemma ReportSteady(w: Worklet, plc: bool, g: Id)
    requires w.fadeGeneration != Some(g)
    ensures Steady(w, UnderflowReported(w, plc), g, 0)
    ensures var after := UnderflowReported(w, plc);
            after.completed == w.completed && Pending(after) == Pending(w) &&
              after.fadeGeneration == w.fadeGeneration &&
            after.lastGeneration == w.lastGeneration
  {
    var after := UnderflowReported(w, plc);
    hide Steady;
    if w.underflowReported {
      SteadyDone(w, after, g);
    } else {
      SteadyPost(w, after, g, UnderflowPost(w.lastGeneration, plc), 0);
    }
  }

  // Neither the end of `g` nor its cancellation is among the posts added.
  predicate Unended(w: Worklet, after: Worklet, g: Id) {
    |w.posts| <= |after.posts| && forall k :: |w.posts| <= k < |after.posts| ==> after.posts[k] != Idle(g)
  }

  lemma ConcealmentSteady(w: Worklet, burst: seq<real>, g: Id)
    requires w.fadeGeneration != Some(g)
    ensures var after := ConcealmentBegun(w, burst);
            Steady(w, after, g, 0) && after.completed == w.completed && Unended(w, after, g)
  {
    hide Steady, UnderflowReported, FramesOf;
    var begun := w.(plcFrame := Some(burst), plcOffset := 0, plcRemaining := |burst| * 3);
    SteadyDone(w, begun, g);
    ReportSteady(begun, true, g);
    SteadyTrans(w, begun, UnderflowReported(begun, true), g, 0);
    ReportedPosts(begun, true);
  }

  // The state of `PlaybackStopped` before anything is said about idleness.
  function StopReported(w: Worklet): Worklet {
    if StillStreaming(w) then UnderflowReported(w.(started := false), false) else w.(started := false)
  }

  lemma StopReportSteady(w: Worklet, g: Id)
    requires w.fadeGeneration != Some(g)
    ensures var after := StopReported(w);
            && Steady(w, after, g, 0) && after.completed == w.completed && Unended(w, after, g)
            && Pending(after) == Pending(w) && after.fadeGeneration == w.fadeGeneration &&
               after.lastGeneration == w.lastGeneration
  {
    hide Steady, UnderflowReported, FramesOf;
    var stopped := w.(started := false);
    SteadyDone(w, stopped, g);
    ReportSteady(stopped, false, g);
    ReportedPosts(stopped, false);
    SteadyDone(stopped, stopped, g);
    SteadyTrans(w, stopped, StopReported(w), g, 0);
  }

  lemma StopPosts(w: Worklet, reported: Worklet, idle: Worklet, g: Id)
    requires Unended(w, reported, g)
    requires idle.posts == reported.posts || (idle.posts != [] && idle.posts[|idle.posts| - 1] != Idle(g) &&
                                              idle.posts[..|idle.posts| - 1] == reported.posts)
    ensures Unended(w, BufferPosted(idle), g)
  {
  }

  lemma StopSteady(w: Worklet, g: Id)
    requires Pending(w) == [] && w.fadeGeneration != Some(g)
    ensures var after := PlaybackStopped(w);
            && Steady(w, after, g, 0)
            && (g in after.completed ==> g in w.completed)
            && (g !in w.completed ==> Unended(w, after, g))
  {
    StopReportSteady(w, g);
    EmptyCounts(g);
    var reported := StopReported(w);
    var ends := w.lastGeneration.Some? && w.lastGeneration.value in w.completed;
    var idle := if ends then IdlePosted(reported, w.lastGeneration.value) else reported;
    assert PlaybackStopped(w) == BufferPosted(idle);
    hide Steady, StopReported, FramesOf, PlaybackStopped, StillStreaming, Unended;
    if g !in w.completed {
      StopPosts(w, reported, idle, g);
    }
    PendingFields(reported, idle);
    PendingFields(idle, BufferPosted(idle));
    if ends {
      SteadyPost(reported, idle, g, Idle(w.lastGeneration.value), 0);
    } else {
      SteadyDone(reported, idle, g);
    }
    SteadyTrans(w, reported, idle, g, 0);
    SteadyPost(idle, BufferPosted(idle), g, BufferState(idle.queuedSamples), 0);
    SteadyTrans(w, idle, BufferPosted(idle), g, 0);
  }

  lemma UnderflowSteady(w: Worklet, burst: seq<real>, g: Id)
    requires Dry(w) && w.fadeGeneration != Some(g)
    ensures var after := Underflowed(w, burst);
            && Steady(w, after, g, 0)
            && (g in after.completed ==> g in w.completed)
            && (g !in w.completed ==> forall k :: |w.posts| <= k < |after.posts| ==> after.posts[k] != Idle(g))
  {
    assert Pending(w) == [];
    hide Steady, ConcealmentBegun, PlaybackStopped;
    if Conceals(w) {
      ConcealmentSteady(w, burst, g);
    } else {
      StopSteady(w, g);
    }
  }

  lemma EmptyCounts(g: Id)
    ensures FramesOf([], g) == 0 && Back([], g) == 0 && Fed([], g) == 0
  {
  }

  lemma ReportedPosts(w: Worklet, plc: bool)
    ensures var after := UnderflowReported(w, plc);
            |w.posts| <= |after.posts| && forall k :: |w.posts| <= k < |after.posts| ==> after.posts[k].UnderflowPost?
    ensures UnderflowReported(w, plc).posts[..|w.posts|] == w.posts
  {
  }

  // The worklet's own moves.
  lemma OwnSteady(w: Worklet, op: Op, g: Id)
    requires Own(op) && w.fadeGeneration != Some(g)
    ensures var after := Apply(w, op);
            && Steady(w, after, g, 0)
            && (g in after.completed ==> g in w.completed)
            && (g !in w.completed ==> forall k :: |w.posts| <= k < |after.posts| ==> after.posts[k] != Idle(g))
  {
    hide Steady, Stepped, Underflowed, FramesOf;
    SteadyDone(w, w, g);
    match op {
      case Next(historyLength) =>
        StepSteady(w, g);
        StepNeverIdle(w, g);
        var after := Remembered(Stepped(w), historyLength);
        SteadyFades(w, Stepped(w), g);
        SteadyDone(Stepped(w), after, g);
        SteadyTrans(w, Stepped(w), after, g, 0);
      case Underflow(burst) =>
        if Dry(w) {
          UnderflowSteady(w, burst, g);
        }
      case Begin =>
        SteadyDone(w, w.(started := true), g);
      case Report(post) =>
        assert Pending(Posted(w, post)) == Pending(w);
        if post.OutputLevel? || post.BufferState? {
          SteadyPost(w, Posted(w, post), g, post, 0);
        }
    }
  }

  lemma SteadyFades(w: Worklet, after: Worklet, g: Id)
    requires Steady(w, after, g, 0)
    ensures after.fadeGeneration != Some(g)
  {
  }

  // Sounding a sample never reports a generation idle.
  lemma StepNeverIdle(w: Worklet, g: Id)
    ensures var after := Stepped(w);
            |w.posts| <= |after.posts| && forall k :: |w.posts| <= k < |after.posts| ==> after.posts[k] != Idle(g)
  {
    if !Concealing(w) {
      var p := Picked(w);
      assert p.posts == w.posts;
      hide Picked;
      if p.current.Some? && !(Fading(p) && p.fadeRemaining <= 1) {
        AdvancedPosts(p);
        hide Advanced;
      }
    }
  }

  // A message about another generation, or a frame of `g`, or its completion.
  lemma MessageSteady(w: Worklet, op: Op, g: Id)
    requires op.Enqueue? || op.Complete? || (op.Cancel? && op.generation != g)
    requires w.fadeGeneration != Some(g)
    ensures var after := Apply(w, op);
            && Steady(w, after, g, if op.Enqueue? && op.generation == g then 1 else 0)
            && (g in after.completed ==> g in w.completed || op == Op.Complete(g))
            && (op != Op.Complete(g) ==> forall k :: |w.posts| <= k < |after.posts| ==> after.posts[k] != Idle(g))
  {
    hide Steady, FramesOf;
    match op {
      case Enqueue(h, end, samples) =>
        var f := Frame(h, end, samples, 0, w.arrived);
        var after := Enqueued(w, h, end, samples);
        FramesOfConcat(Pending(w), [f], g);
        FramesOfOne(f, g);
        assert Pending(after) == Pending(w) + [f];
        SteadyPost(w, after, g, BufferState(after.queuedSamples), if h == g then 1 else 0);
      case Complete(h) => CompleteSteady(w, h, g);
      case Cancel(h, fade) => CancelSteady(w, h, fade, g);
    }
  }

  lemma CompleteSteady(w: Worklet, h: Id, g: Id)
    requires w.fadeGeneration != Some(g)
    ensures Steady(w, Completed(w, h), g, 0)
    ensures h != g ==> forall k :: |w.posts| <= k < |Completed(w, h).posts| ==> Completed(w, h).posts[k] != Idle(g)
  {
    hide Steady, FramesOf;
    var marked := w.(completed := w.completed + {h});
    SteadyDone(w, marked, g);
    if !QueueHolds(w.queue, h) && w.current.None? && w.lastGeneration == Some(h) {
      var after := IdlePosted(marked, h);
      HeldFrames(w.queue, g);
      assert [] + w.queue == w.queue;
      assert Pending(marked) == w.queue && Pending(after) == w.queue;
      SteadyPost(marked, after, g, Idle(h), 0);
      SteadyTrans(w, marked, after, g, 0);
    }
  }

  lemma CancelSteady(w: Worklet, h: Id, fade: nat, g: Id)
    requires w.fadeGeneration != Some(g) && h != g
    ensures var after := Canceled(w, h, fade);
            && Steady(w, after, g, 0)
            && (g in after.completed ==> g in w.completed)
            && forall k :: |w.posts| <= k < |after.posts| ==> after.posts[k] != Idle(g)
  {
    hide Steady, FramesOf, Retained, Removed, SpanOf, LeftIn;
    var head := if w.current.Some? then [w.current.value] else [];
    RetainedFrames(w.queue, g, h);
    FramesOfConcat(head, w.queue, g);
    FramesOfConcat(head, Retained(w.queue, h), g);
    var emptied := Emptied(w, h);
    assert Pending(emptied) == head + Retained(w.queue, h);
    SteadySame(w, emptied, g);
    var middle := if Current(w, h) then FadeBegun(emptied, h, fade) else CanceledAtOnce(emptied, h);
    PendingFields(emptied, middle);
    if Current(w, h) {
      SteadySame(emptied, middle, g);
    } else {
      SteadyPost(emptied, middle, g, CanceledPost(h), 0);
    }
    SteadyTrans(w, emptied, middle, g, 0);
    PendingFields(middle, BufferPosted(middle));
    SteadyPost(middle, BufferPosted(middle), g, BufferState(middle.queuedSamples), 0);
    SteadyTrans(w, middle, BufferPosted(middle), g, 0);
  }

  // ---------- the whole system ----------

  predicate IsFeed(m: Message, g: Id) {
    m.EnqueueMessage? && m.packet.generation == g
  }

  // The main thread's count is what it has fed less what it has heard back.
  ghost predicate MainOk(d: Desk, posts: seq<Post>, read: nat, g: Id) {
    && read <= |posts|
    && CountOf(d.counts, g) + Back(posts[..read], g) == Fed(d.outbox, g)
  }

  // Messages about a generation never cancelled and never fed after its completion.
  ghost predicate OutboxOk(d: Desk, g: Id) {
    && (forall i :: 0 <= i < |d.outbox| ==> !(d.outbox[i].CancelMessage? && d.outbox[i].stopped == g))
    && (forall i, j :: 0 <= i < j < |d.outbox| && d.outbox[i] == CompleteMessage(g) ==> !IsFeed(d.outbox[j], g))
    && (g !in d.closed ==> forall i :: 0 <= i < |d.outbox| ==> d.outbox[i] != CompleteMessage(g))
  }

  // The worklet holds or has played what it was given, and is idle only when nothing can follow.
  ghost predicate WorkletOk(w: Worklet, outbox: seq<Message>, delivered: nat, closed: set<Id>, g: Id) {
    && delivered <= |outbox|
    && Taken(w, g) == Fed(outbox[..delivered], g)
    && w.fadeGeneration != Some(g)
    && (forall k :: 0 <= k < |w.posts| ==> w.posts[k] != CanceledPost(g))
    && (forall k :: 0 <= k < |w.posts| && w.posts[k] == Idle(g) ==>
          FramesOf(Pending(w), g) == 0 && Back(w.posts, g) == Back(w.posts[..k], g) && Fed(outbox[delivered..], g) == 0)
    && (g in w.completed ==> Fed(outbox[delivered..], g) == 0)
    && (g !in closed ==> g !in w.completed && forall k :: 0 <= k < |w.posts| ==> w.posts[k] != Idle(g))
  }

  ghost predicate Balanced(s: System, g: Id) {
    && MainOk(s.desk, s.worklet.posts, s.read, g)
    && OutboxOk(s.desk, g)
    && WorkletOk(s.worklet, s.desk.outbox, s.delivered, s.desk.closed, g)
  }

  lemma FedSplit(outbox: seq<Message>, n: nat, g: Id)
    requires n <= |outbox|
    ensures Fed(outbox, g) == Fed(outbox[..n], g) + Fed(outbox[n..], g)
    ensures n < |outbox| ==>
              Fed(outbox[..n + 1], g) == Fed(outbox[..n], g) + (if IsFeed(outbox[n], g) then 1 else 0) &&
              Fed(outbox[n..], g) == (if IsFeed(outbox[n], g) then 1 else 0) + Fed(outbox[n + 1..], g)
  {
    assert outbox == outbox[..n] + outbox[n..];
    FedConcat(outbox[..n], outbox[n..], g);
    if n < |outbox| {
      assert outbox[..n + 1] == outbox[..n] + [outbox[n]] && outbox[n..] == [outbox[n]] + outbox[n + 1..];
      FedConcat(outbox[..n], [outbox[n]], g);
      FedConcat([outbox[n]], outbox[n + 1..], g);
      FedOne(outbox[n], g);
    }
  }

  lemma {:induction false} NoFeeds(messages: seq<Message>, g: Id)
    requires forall i :: 0 <= i < |messages| ==> !IsFeed(messages[i], g)
    ensures Fed(messages, g) == 0
  {
    if messages != [] {
      NoFeeds(messages[..|messages| - 1], g);
    }
  }

  // A steady change of the worklet while the outbox stays and `delivered` moves on by `taken`.
  lemma WorkletMoves(w: Worklet, after: Worklet, outbox: seq<Message>, delivered: nat, delivered': nat,
                     closed: set<Id>, g: Id, n: nat)
    requires WorkletOk(w, outbox, delivered, closed, g) && delivered <= delivered' <= |outbox|
    requires Steady(w, after, g, n) && Fed(outbox[..delivered'], g) == Fed(outbox[..delivered], g) + n
    requires forall k :: |w.posts| <= k < |after.posts| && after.posts[k] == Idle(g) ==>
               g in closed && Fed(outbox[delivered'..], g) == 0
    requires g in after.completed && g !in w.completed ==> g in closed && Fed(outbox[delivered'..], g) == 0
    ensures WorkletOk(after, outbox, delivered', closed, g)
  {
    hide FramesOf, Pending;
    FedSplit(outbox, delivered, g);
    FedSplit(outbox, delivered', g);
    hide Fed;
    assert after.posts == w.posts + after.posts[|w.posts|..];
    BackConcat(w.posts, after.posts[|w.posts|..], g);
    hide Back;
    forall k | 0 <= k < |w.posts|
      ensures after.posts[k] == w.posts[k] && after.posts[..k] == w.posts[..k]
    {
      assert after.posts[k] == after.posts[..|w.posts|][k];
      assert after.posts[..k] == after.posts[..|w.posts|][..k];
    }
  }

  // The posts already handled are untouched by what the worklet does next.
  lemma MainUnmoved(d: Desk, w: Worklet, after: Worklet, read: nat, g: Id, n: nat)
    requires MainOk(d, w.posts, read, g) && Steady(w, after, g, n)
    ensures MainOk(d, after.posts, read, g)
  {
    assert after.posts[..read] == after.posts[..|w.posts|][..read];
  }

  lemma BalancedPlay(s: System, op: Op, g: Id)
    requires Balanced(s, g) && Own(op)
    ensures Balanced(Step(s, Play(op)), g)
  {
    hide Apply, Steady, OutboxOk, MainOk, Fed, Back, FramesOf, Pending;
    OwnSteady(s.worklet, op, g);
    MainUnmoved(s.desk, s.worklet, Apply(s.worklet, op), s.read, g, 0);
    WorkletMoves(s.worklet, Apply(s.worklet, op), s.desk.outbox, s.delivered, s.delivered, s.desk.closed, g, 0);
    hide WorkletOk, MainOk;
  }

  lemma BalancedDeliver(s: System, g: Id)
    requires Balanced(s, g) && s.delivered < |s.desk.outbox|
    ensures Balanced(Step(s, Deliver), g)
  {
    hide Apply, Steady, MainOk, Fed, Back, FramesOf, Pending;
    var m := s.desk.outbox[s.delivered];
    var op := OpOf(m);
    var n := if IsFeed(m, g) then 1 else 0;
    FedSplit(s.desk.outbox, s.delivered, g);
    MessageSteady(s.worklet, op, g);
    if op == Op.Complete(g) {
      NoFeeds(s.desk.outbox[s.delivered + 1..], g);
    }
    MainUnmoved(s.desk, s.worklet, Apply(s.worklet, op), s.read, g, n);
    WorkletMoves(s.worklet, Apply(s.worklet, op), s.desk.outbox, s.delivered, s.delivered + 1, s.desk.closed, g, n);
    hide WorkletOk, MainOk, OutboxOk;
  }

  lemma BackStep(posts: seq<Post>, read: nat, g: Id)
    requires read < |posts|
    ensures Back(posts[..read + 1], g) == Back(posts[..read], g) +
            (if posts[read].Played? && posts[read].generation == g then 1 else 0)
    ensures Back(posts, g) == Back(posts[..read + 1], g) + Back(posts[read + 1..], g)
  {
    assert posts[..read + 1] == posts[..read] + [posts[read]];
    BackConcat(posts[..read], [posts[read]], g);
    BackOne(posts[read], g);
    assert posts == posts[..read + 1] + posts[read + 1..];
    BackConcat(posts[..read + 1], posts[read + 1..], g);
  }

  // An idle report of a steady generation finds nothing left to count.
  lemma IdleFindsNothing(s: System, g: Id)
    requires Balanced(s, g) && s.read < |s.worklet.posts| && s.worklet.posts[s.read] == Idle(g)
    ensures CountOf(s.desk.counts, g) == 0
  {
    FedSplit(s.desk.outbox, s.delivered, g);
    hide Fed, Back, FramesOf;
  }

  lemma BalancedHandle(s: System, g: Id)
    requires Balanced(s, g) && s.read < |s.worklet.posts|
    ensures Balanced(Step(s, Handle), g)
  {
    hide Fed, Back, FramesOf, Pending;
    var p := s.worklet.posts[s.read];
    BackStep(s.worklet.posts, s.read, g);
    FedSplit(s.desk.outbox, s.delivered, g);
    if p == Idle(g) {
      IdleFindsNothing(s, g);
    }
    var after := Handled(s.desk, p);
    assert after.outbox == s.desk.outbox && after.closed == s.desk.closed;
    assert MainOk(after, s.worklet.posts, s.read + 1, g);
    hide MainOk, WorkletOk;
  }

  // The outbox grows by one message that is not a cancel of `g`; if it is a frame of `g`, the
  // completion of `g` has not been posted.
  lemma OutboxGrows(d: Desk, after: Desk, w: Worklet, delivered: nat, m: Message, g: Id)
    requires OutboxOk(d, g) && WorkletOk(w, d.outbox, delivered, d.closed, g)
    requires after.outbox == d.outbox + [m] && !(m.CancelMessage? && m.stopped == g)
    requires after.closed == d.closed + if m.CompleteMessage? then {m.done} else {}
    requires IsFeed(m, g) ==> g !in d.closed
    ensures OutboxOk(after, g) && WorkletOk(w, after.outbox, delivered, after.closed, g)
    ensures Fed(after.outbox, g) == Fed(d.outbox, g) + if IsFeed(m, g) then 1 else 0
  {
    hide Back, FramesOf, Pending, Fed;
    FedConcat(d.outbox, [m], g);
    FedOne(m, g);
    assert after.outbox[..delivered] == d.outbox[..delivered];
    assert after.outbox[delivered..] == d.outbox[delivered..] + [m];
    FedConcat(d.outbox[delivered..], [m], g);
    assert forall i :: 0 <= i < |d.outbox| ==> after.outbox[i] == d.outbox[i];
    assert after.outbox[|d.outbox|] == m;
  }

  lemma BalancedResume(s: System, i: nat, g: Id)
    requires Balanced(s, g) && i < |s.desk.awaiting| && g !in EnqueueResumed(s.desk, i).spoiled && g !in s.desk.spoiled
    ensures Balanced(s.(desk := EnqueueResumed(s.desk, i)), g)
  {
    var p := s.desk.awaiting[i];
    var after := EnqueueResumed(s.desk, i);
    hide WorkletOk, OutboxOk, Fed, Back;
    OutboxGrows(s.desk, after, s.worklet, s.delivered, EnqueueMessage(p), g);
    assert MainOk(after, s.worklet.posts, s.read, g);
  }

  lemma BalancedComplete(s: System, h: Id, g: Id)
    requires Balanced(s, g)
    ensures Balanced(s.(desk := CompleteCalled(s.desk, h)), g)
  {
    hide WorkletOk, OutboxOk, Fed, Back;
    if s.desk.ready {
      OutboxGrows(s.desk, CompleteCalled(s.desk, h), s.worklet, s.delivered, CompleteMessage(h), g);
    }
  }

  lemma OutboxSame(d: Desk, after: Desk, g: Id)
    requires OutboxOk(d, g) && after.outbox == d.outbox && after.closed == d.closed
    ensures OutboxOk(after, g)
  {
  }

  lemma BalancedCancel(s: System, h: Id, fade: nat, g: Id)
    requires Balanced(s, g) && h != g
    ensures Balanced(s.(desk := CancelCalled(s.desk, h, fade)), g)
  {
    var after := CancelCalled(s.desk, h, fade);
    hide WorkletOk, OutboxOk, Fed, Back, Remembering;
    assert CountOf(after.counts, g) == CountOf(s.desk.counts, g);
    if s.desk.ready {
      OutboxGrows(s.desk, after, s.worklet, s.delivered, CancelMessage(h, fade), g);
    } else {
      OutboxSame(s.desk, after, g);
    }
  }

  lemma {:induction false} CancelsGrow(d: Desk, w: Worklet, delivered: nat, keys: seq<Id>, fade: nat, g: Id)
    requires OutboxOk(d, g) && WorkletOk(w, d.outbox, delivered, d.closed, g) && g !in keys
    ensures var after := d.(outbox := d.outbox + CancelsFor(keys, fade));
            OutboxOk(after, g) && WorkletOk(w, after.outbox, delivered, after.closed, g) &&
              Fed(after.outbox, g) == Fed(d.outbox, g)
    decreases |keys|
  {
    hide OutboxOk, WorkletOk;
    if keys == [] {
      assert d.outbox + CancelsFor(keys, fade) == d.outbox;
    } else {
      var front, last := keys[..|keys| - 1], keys[|keys| - 1];
      CancelsGrow(d, w, delivered, front, fade, g);
      assert last in keys;
      var middle := d.(outbox := d.outbox + CancelsFor(front, fade));
      var after := d.(outbox := d.outbox + CancelsFor(keys, fade));
      assert after.outbox == middle.outbox + [CancelMessage(last, fade)];
      OutboxGrows(middle, after, w, delivered, CancelMessage(last, fade), g);
    }
  }

  lemma BalancedReset(s: System, keys: seq<Id>, fade: nat, g: Id)
    requires Balanced(s, g) && (set k | k in keys) == s.desk.counts.Keys
    requires g !in ResetCalled(s.desk, keys, fade).spoiled
    ensures Balanced(s.(desk := ResetCalled(s.desk, keys, fade)), g)
  {
    var after := ResetCalled(s.desk, keys, fade);
    hide WorkletOk, OutboxOk, Fed, Back, CancelsFor;
    assert g !in keys by {
      assert g in (set k | k in keys) <==> g in keys;
    }
    if s.desk.ready {
      CancelsGrow(s.desk, s.worklet, s.delivered, keys, fade, g);
      OutboxSame(s.desk.(outbox := s.desk.outbox + CancelsFor(keys, fade)), after, g);
    } else {
      OutboxSame(s.desk, after, g);
    }
  }

  lemma BalancedStep(s: System, m: Move, g: Id)
    requires g !in Step(s, m).desk.spoiled && Balanced(s, g)
    ensures Balanced(Step(s, m), g)
  {
    match m {
      case CallEnqueue(p) =>
        hide WorkletOk, Fed, Back;
      case ResumeEnqueue(i) =>
        if i < |s.desk.awaiting| {
          hide Balanced;
          BalancedResume(s, i, g);
        }
      case CallComplete(h) => BalancedComplete(s, h, g);
      case CallCancel(h, fade) => BalancedCancel(s, h, fade, g);
      case CallReset(keys, fade) =>
        if (set k | k in keys) == s.desk.counts.Keys {
          hide Balanced;
          BalancedReset(s, keys, fade, g);
        }
      case Deliver =>
        if s.delivered < |s.desk.outbox| {
          BalancedDeliver(s, g);
        }
      case Play(op) =>
        if Own(op) {
          BalancedPlay(s, op, g);
        }
      case Handle =>
        if s.read < |s.worklet.posts| {
          BalancedHandle(s, g);
        }
    }
  }

  lemma SpoiledGrows(s: System, m: Move)
    ensures s.desk.spoiled <= Step(s, m).desk.spoiled
  {
  }

  lemma {:induction false} RunBalanced(moves: seq<Move>, g: Id)
    requires g !in Run(moves).desk.spoiled
    ensures Balanced(Run(moves), g)
  {
    if moves == [] {
      EmptyCounts(g);
    } else {
      var front, last := moves[..|moves| - 1], moves[|moves| - 1];
      SpoiledGrows(Run(front), last);
      hide Step, Balanced;
      RunBalanced(front, g);
      BalancedStep(Run(front), last, g);
    }
  }

  // In every interleaving, for a generation never cancelled, never reset while counted and never fed
  // after its completion was posted, the main thread's count is the frames still in transit to the
  // worklet, plus those it holds, plus the played reports in transit back.
  lemma FrameCountIsExact(moves: seq<Move>, g: Id)
    requires g !in Run(moves).desk.spoiled
    ensures var s := Run(moves);
            && s.delivered <= |s.desk.outbox| && s.read <= |s.worklet.posts|
            && CountOf(s.desk.counts, g) ==
               Fed(s.desk.outbox[s.delivered..], g) + FramesOf(Pending(s.worklet), g) +
                 Back(s.worklet.posts[s.read..], g)
  {
    hide Run, Step, Fed, Back, FramesOf, Pending;
    var s := Run(moves);
    RunBalanced(moves, g);
    FedSplit(s.desk.outbox, s.delivered, g);
    assert s.worklet.posts == s.worklet.posts[..s.read] + s.worklet.posts[s.read..];
    BackConcat(s.worklet.posts[..s.read], s.worklet.posts[s.read..], g);
  }

  // So the report that such a generation has gone idle never discards a frame still counted.
  lemma IdleDiscardsNothing(moves: seq<Move>, g: Id)
    requires var s := Run(moves);
             g !in s.desk.spoiled && s.read < |s.worklet.posts| && s.worklet.posts[s.read] == Idle(g)
    ensures CountOf(Run(moves).desk.counts, g) == 0
  {
    RunBalanced(moves, g);
    hide Run, Step;
    IdleFindsNothing(Run(moves), g);
  }
}
