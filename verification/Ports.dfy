// What crosses the message port to the playback worklet: what is posted reaches it in order, and what is
// cancelled is neither posted again nor heard.
module Ports {
  import opened Protocol
  import opened Playback
  import opened PlaybackTheorems
  import opened FrameCount

  // The worklet's operations for these messages.
  function OpsOf(messages: seq<Message>): seq<Op> {
    seq(|messages|, i requires 0 <= i < |messages| => OpOf(messages[i]))
  }

  function Deliveries(n: nat): seq<Move> {
    seq(n, _ => Deliver)
  }

  function StepAll(s: System, moves: seq<Move>): System {
    if moves == [] then s else Step(StepAll(s, moves[..|moves| - 1]), moves[|moves| - 1])
  }

  lemma AfterOneMore(w: Worklet, messages: seq<Message>, m: Message)
    ensures After(w, OpsOf(messages + [m])) == Apply(After(w, OpsOf(messages)), OpOf(m))
  {
    hide Apply, OpOf;
    var ops := OpsOf(messages + [m]);
    assert ops[..|messages|] == OpsOf(messages) && ops[|messages|] == OpOf(m);
  }

  lemma OneDelivery(s: System)
    requires s.delivered < |s.desk.outbox|
    ensures var after := Step(s, Deliver);
            && after.worklet == Apply(s.worklet, OpOf(s.desk.outbox[s.delivered]))
            && after.desk == s.desk && after.delivered == s.delivered + 1
  {
    hide Apply, OpOf;
  }

  lemma OneMoreStep(s: System, n: nat)
    ensures StepAll(s, Deliveries(n + 1)) == Step(StepAll(s, Deliveries(n)), Deliver)
  {
    hide Step;
    var moves := Deliveries(n + 1);
    assert moves[..n] == Deliveries(n) && moves[n] == Deliver;
  }

  lemma NothingDelivered(s: System)
    ensures StepAll(s, Deliveries(0)) == s && After(s.worklet, OpsOf([])) == s.worklet
  {
    hide Step, Apply;
    assert Deliveries(0) == [] && OpsOf([]) == [];
  }

  // Delivering what is under way hands the worklet exactly that, in the order it was posted.
  lemma {:induction false} DeliveredInOrder(s: System, n: nat)
    requires s.delivered + n <= |s.desk.outbox|
    ensures var after := StepAll(s, Deliveries(n));
            && after.worklet == After(s.worklet, OpsOf(s.desk.outbox[s.delivered..s.delivered + n]))
            && after.desk == s.desk && after.delivered == s.delivered + n
  {
    hide Apply, OpOf, Step, StepAll, Deliveries, OpsOf, After;
    if n == 0 {
      NothingDelivered(s);
      assert s.desk.outbox[s.delivered..s.delivered] == [];
    } else {
      DeliveredInOrder(s, n - 1);
      OneMoreStep(s, n - 1);
      OneDelivery(StepAll(s, Deliveries(n - 1)));
      var sent := s.desk.outbox[s.delivered..s.delivered + n - 1];
      AfterOneMore(s.worklet, sent, s.desk.outbox[s.delivered + n - 1]);
      assert s.desk.outbox[s.delivered..s.delivered + n] == sent + [s.desk.outbox[s.delivered + n - 1]];
    }
  }

  // A message posted now is taken once all that was posted before has been.
  lemma PostedIsTaken(s: System, posted: System, m: Message)
    requires posted.desk.outbox == s.desk.outbox + [m] && s.delivered <= |s.desk.outbox|
    requires posted.worklet == s.worklet && posted.delivered == s.delivered
    ensures StepAll(posted, Deliveries(|s.desk.outbox| - s.delivered + 1)).worklet ==
            Apply(After(s.worklet, OpsOf(s.desk.outbox[s.delivered..])), OpOf(m))
  {
    hide Apply, OpOf, OpsOf, StepAll;
    var n := |s.desk.outbox| - s.delivered + 1;
    DeliveredInOrder(posted, n);
    assert posted.desk.outbox[s.delivered..s.delivered + n] == s.desk.outbox[s.delivered..] + [m];
    AfterOneMore(s.worklet, s.desk.outbox[s.delivered..], m);
  }

  // With the worklet there, cancelling a generation reaches it once all that was posted before has: it
  // fades the generation out or drops it then, and the main thread counts nothing of it at once.
  lemma CancelReachesWorklet(s: System, g: Id, fadeSamples: nat)
    requires s.desk.ready && s.delivered <= |s.desk.outbox|
    ensures var canceled := Step(s, CallCancel(g, fadeSamples));
            && g !in canceled.desk.counts
            && StepAll(canceled, Deliveries(|s.desk.outbox| - s.delivered + 1)).worklet ==
               Canceled(After(s.worklet, OpsOf(s.desk.outbox[s.delivered..])), g, fadeSamples)
  {
    hide Canceled, OpsOf, StepAll, After, Remembering;
    PostedIsTaken(s, Step(s, CallCancel(g, fadeSamples)), CancelMessage(g, fadeSamples));
  }

  // A packet that was waiting is posted whole: generation, end and samples.
  lemma PacketReachesWorklet(s: System, i: nat)
    requires i < |s.desk.awaiting| && s.delivered <= |s.desk.outbox|
    ensures var p := s.desk.awaiting[i];
            var resumed := Step(s, ResumeEnqueue(i));
            && CountOf(resumed.desk.counts, p.generation) == CountOf(s.desk.counts, p.generation) + 1
            && StepAll(resumed, Deliveries(|s.desk.outbox| - s.delivered + 1)).worklet ==
               Enqueued(After(s.worklet, OpsOf(s.desk.outbox[s.delivered..])), p.generation, p.mediaEndUs, p.samples)
  {
    hide Enqueued, OpsOf, StepAll, After;
    PostedIsTaken(s, Step(s, ResumeEnqueue(i)), EnqueueMessage(s.desk.awaiting[i]));
  }

  // ---------- late packets ----------

  function CancelsIn(moves: seq<Move>): nat {
    if moves == [] then 0
    else CancelsIn(moves[..|moves| - 1]) + if moves[|moves| - 1].CallCancel? then 1 else 0
  }

  // `g` is among the cancelled generations with at least this many places before it is forgotten.
  ghost predicate RememberedFor(canceled: seq<Id>, g: Id, places: nat) {
    |canceled| <= 256 && exists i :: 0 <= i < |canceled| && canceled[i] == g && i + 256 - |canceled| >= places
  }

  lemma CancelRemembers(canceled: seq<Id>, g: Id, other: Id, places: nat)
    requires RememberedFor(canceled, g, places) && places > 0
    ensures RememberedFor(Remembering(canceled, other), g, places - 1)
  {
    var i :| 0 <= i < |canceled| && canceled[i] == g && i + 256 - |canceled| >= places;
    var after := Remembering(canceled, other);
    if other in canceled {
      assert after[i] == g;
    } else if |canceled| < 256 {
      assert after[i] == g;
    } else {
      assert after == (canceled + [other])[1..];
      assert after[i - 1] == g;
    }
  }

  lemma OtherMovesRemember(s: System, m: Move)
    requires !m.CallCancel?
    ensures Step(s, m).desk.canceled == s.desk.canceled
  {
    hide Apply;
  }

  lemma JustRemembered(canceled: seq<Id>, g: Id)
    requires g !in canceled && |canceled| <= 256
    ensures RememberedFor(Remembering(canceled, g), g, 255)
  {
    var after := Remembering(canceled, g);
    assert after[|after| - 1] == g;
  }

  lemma StepRemembers(s: System, m: Move, g: Id, places: nat)
    requires RememberedFor(s.desk.canceled, g, places) && (m.CallCancel? ==> places > 0)
    ensures RememberedFor(Step(s, m).desk.canceled, g, if m.CallCancel? then places - 1 else places)
  {
    hide RememberedFor, Remembering;
    if m.CallCancel? {
      CancelRemembers(s.desk.canceled, g, m.g, places);
    } else {
      OtherMovesRemember(s, m);
    }
  }

  lemma RunMore(moves: seq<Move>, m: Move)
    ensures Run(moves + [m]) == Step(Run(moves), m)
  {
    hide Step;
    assert (moves + [m])[..|moves|] == moves;
  }

  lemma {:induction false} StaysRemembered(moves: seq<Move>, more: seq<Move>, g: Id, fadeSamples: nat)
    requires g !in Run(moves).desk.canceled && |Run(moves).desk.canceled| <= 256 && CancelsIn(more) <= 255
    ensures RememberedFor(Run(moves + [CallCancel(g, fadeSamples)] + more).desk.canceled, g, 255 - CancelsIn(more))
    decreases |more|
  {
    hide Run, RememberedFor, Remembering;
    var start := moves + [CallCancel(g, fadeSamples)];
    if more == [] {
      RunMore(moves, CallCancel(g, fadeSamples));
      JustRemembered(Run(moves).desk.canceled, g);
      assert start + [] == start;
    } else {
      var front, last := more[..|more| - 1], more[|more| - 1];
      StaysRemembered(moves, front, g, fadeSamples);
      StepRemembers(Run(start + front), last, g, 255 - CancelsIn(front));
      RunMore(start + front, last);
      assert start + more == start + front + [last];
      hide Step;
    }
  }

  lemma {:induction false} AtMost256(moves: seq<Move>)
    ensures |Run(moves).desk.canceled| <= 256
  {
    if moves != [] {
      var front, last := moves[..|moves| - 1], moves[|moves| - 1];
      AtMost256(front);
      hide Run;
      if !last.CallCancel? {
        OtherMovesRemember(Run(front), last);
      }
    }
  }

  // A packet of a cancelled generation that comes later is ignored, so long as fewer than 256 cancels
  // came in between and the generation was not remembered as cancelled already (then its older place
  // counts).
  lemma LatePacketIsIgnored(moves: seq<Move>, more: seq<Move>, g: Id, fadeSamples: nat, p: Packet)
    requires g !in Run(moves).desk.canceled && CancelsIn(more) <= 255 && p.generation == g
    ensures var s := Run(moves + [CallCancel(g, fadeSamples)] + more); Step(s, CallEnqueue(p)) == s
  {
    AtMost256(moves);
    StaysRemembered(moves, more, g, fadeSamples);
    hide Run;
  }
}
