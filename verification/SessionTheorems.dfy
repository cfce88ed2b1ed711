// What holds of every run of the session, whatever the client, the provider, the safety gate and
// the interaction engine do.
module SessionTheorems {
  import opened Protocol
  import opened AnswerLease
  import opened TaskLedger
  import opened Session
  import opened WireInvariant
  import opened LedgerInvariant
  import opened BufferInvariant
  import opened SessionInvariant
  import opened SessionSteps

  // ---------- no output of a retired generation ----------

  // Once `g` is drawn and not active, nothing sent later is tagged with it and it never becomes
  // active again.
  lemma NoZombieOutput(config: Config, inputs: seq<Input>, more: seq<Input>, g: Id)
    requires Retired(Run(config, inputs), g)
    ensures var s, later := Run(config, inputs), Run(config, inputs + more);
            && s.log <= later.log
            && (forall i :: |s.log| <= i < |later.log| ==> Tag(later.log[i]) != Some(g))
            && Retired(later, g)
  {
    RunFollows(config, inputs, more, g);
  }

  // An engine decision that gives the floor back.
  predicate Yields(action: InteractionAction) {
    action == HardYield || action == Replan
  }

  predicate YieldsAmong(actions: seq<InteractionAction>) {
    exists i :: 0 <= i < |actions| && Yields(actions[i])
  }

  // A stimulus that cancels: a barge-in, the end of the session, or an audio frame on which the
  // engine decides to yield.
  predicate Cancels(s: SessionState, stimulus: Stimulus) {
    stimulus.BargeIn? || stimulus.Shutdown? ||
    (stimulus.AudioArrived? && s.providerOpen && stimulus.answer.Decisions? && YieldsAmong(stimulus.answer.actions))
  }

  // A stimulus that ends the active generation: it cancels, or it is the generation's own completion
  // accepted from the provider.
  predicate Ends(s: SessionState, stimulus: Stimulus) {
    Cancels(s, stimulus) ||
    (stimulus.FromProvider? && s.active.Some? && Accepts(s.lease, s.active.value.id) &&
     stimulus.emission.generation == Some(s.active.value.id) &&
     stimulus.emission.output == ProviderEvent(ProviderState(Complete)))
  }

  // After the step that cancels or completes the active generation has returned, the generation is
  // not active (another may be) and it is silent for the rest of the session.
  lemma CancelledOrCompletedIsSilent(config: Config, inputs: seq<Input>, last: Input, more: seq<Input>)
    requires var s := Run(config, inputs); s.open && s.active.Some? && Ends(s, last.stimulus)
    ensures var g := Run(config, inputs).active.value.id;
            var done, later := Run(config, inputs + [last]), Run(config, inputs + [last] + more);
            Retired(done, g) && forall i :: |done.log| <= i < |later.log| ==> Tag(later.log[i]) != Some(g)
  {
    var s := Run(config, inputs);
    var g := s.active.value.id;
    assert (inputs + [last])[..|inputs|] == inputs;
    assert Run(config, inputs + [last]) == Step(s, last);
    RunOk(config, inputs);
    hide Run;
    EndRetires(s, last);
    hide Inv, Step;
    NoZombieOutput(config, inputs + [last], more, g);
  }

  lemma EndRetires(s: SessionState, input: Input)
    requires Inv(s, map[]) && s.open && s.active.Some? && Ends(s, input.stimulus)
    ensures Retired(Step(s, input), s.active.value.id)
  {
    StepDraws(s, input);
    hide Inv, EmissionHandled, AudioHandled;
    var stimulus := input.stimulus;
    if stimulus.FromProvider? {
      CompletionDeactivates(s, stimulus.emission, input.oracle);
    } else if stimulus.AudioArrived? {
      AudioRetires(s, stimulus.timeUs, stimulus.queueFull, stimulus.reportDrop, stimulus.publish, stimulus.answer);
    }
  }

  lemma StepDraws(s: SessionState, input: Input)
    requires Inv(s, map[]) && s.active.Some?
    ensures s.active.value.id < s.minted <= Step(s, input).minted
  {
    StepOk(s, input, 0);
    hide Step, TasksKept;
  }

  lemma AudioRetires(s: SessionState, timeUs: nat, full: bool, report: bool, publish: bool, answer: EngineAnswer)
    requires s.active.Some? && s.active.value.id < s.minted
    requires s.providerOpen && answer.Decisions? && YieldsAmong(answer.actions)
    ensures Retired(AudioHandled(s, timeUs, full, report, publish, answer), s.active.value.id)
  {
    ObservedKeeps(s, timeUs, full, report, publish);
    hide Decided, FrameOffered, Observed;
    YieldRetires(Observed(FrameOffered(s, timeUs, full, report), timeUs, publish), answer.actions, timeUs,
                 s.active.value.id);
  }

  lemma ObservedKeeps(s: SessionState, timeUs: nat, full: bool, report: bool, publish: bool)
    ensures var observed := Observed(FrameOffered(s, timeUs, full, report), timeUs, publish);
            observed.active == s.active && observed.lease == s.lease && observed.minted >= s.minted
  {
  }

  lemma ActedKeepsRetired(s: SessionState, action: InteractionAction, timeUs: nat, g: Id)
    requires Retired(s, g)
    ensures Retired(Acted(s, action, timeUs), g)
  {
  }

  // A batch of decisions that yields retires the generation active before it.
  lemma {:induction false} YieldRetires(s: SessionState, actions: seq<InteractionAction>, timeUs: nat, g: Id)
    requires g < s.minted && (Retired(s, g) || YieldsAmong(actions))
    ensures g < Decided(s, actions, timeUs).minted && Retired(Decided(s, actions, timeUs), g)
  {
    hide Acted;
    if actions != [] {
      var front, last := actions[..|actions| - 1], actions[|actions| - 1];
      var t := Decided(s, front, timeUs);
      DecidedDraws(s, front, timeUs);
      var tag := if last == HardYield && t.active.Some? then Some(t.active.value.id) else None;
      var sent := Sent(t, timeUs, InteractionDecision(last), tag);
      if Yields(last) {
        ActedYields(sent, last, timeUs);
      } else {
        assert Retired(s, g) || YieldsAmong(front);
        YieldRetires(s, front, timeUs, g);
        ActedKeepsRetired(sent, last, timeUs, g);
      }
    }
  }

  lemma ActedYields(s: SessionState, action: InteractionAction, timeUs: nat)
    requires Yields(action)
    ensures Acted(s, action, timeUs).active.None? && Acted(s, action, timeUs).minted >= s.minted
  {
  }

  lemma {:induction false} DecidedDraws(s: SessionState, actions: seq<InteractionAction>, timeUs: nat)
    ensures Decided(s, actions, timeUs).minted >= s.minted
  {
    if actions != [] {
      DecidedDraws(s, actions[..|actions| - 1], timeUs);
    }
  }

  lemma CompletionDeactivates(s: SessionState, e: Emission, o: Oracle)
    requires s.active.Some? && Accepts(s.lease, s.active.value.id)
    requires e.generation == Some(s.active.value.id) && e.output == ProviderEvent(ProviderState(Complete))
    ensures EmissionHandled(s, e, o).active.None?
  {
    var g := s.active.value.id;
    var (latency, marks) := Observe(s.active.value.latency, e.output);
    var timeUs := SaturatingAdd(s.active.value.baseUs, e.mediaOffsetUs);
    var observed := s.(active := Some(s.active.value.(latency := latency)));
    var checked := DeadlinesEnforced(MarksSent(observed, timeUs, g, marks), timeUs, o.expiryOrder, o.clockMs);
    hide DeadlinesEnforced, MarksSent, EventEmitted, EvidenceCollected, Observe;
    var (sent, emitted) := EventEmitted(checked, e.output.event, g, timeUs, o.verdict);
    var collected := EvidenceCollected(sent, g, emitted, timeUs, o.evidenceOrder, o.clockMs);
    var ids := Arrange(o.completionOrder, BoundTo(collected.tasks, g));
    OutcomesKeepActive(collected.(active := None, tasks := Resolved(collected.tasks, ids, Success)), timeUs,
                       CompletedOutcomes(collected.tasks, ids), o.clockMs);
  }

  // ---------- lease and provider discipline ----------

  lemma LeaseAgrees(config: Config, inputs: seq<Input>)
    ensures var s := Run(config, inputs);
            s.active.Some? && s.lease.active.Some? ==> s.active.value.id == s.lease.active.value.generation
  {
    RunOk(config, inputs);
  }

  // Between a commit and the next one the first generation was cancelled with the provider or its
  // completion was accepted; generations are new each time and versions never go back.
  lemma CommitsAreClosed(config: Config, inputs: seq<Input>, i: nat, j: nat)
    requires var log := Run(config, inputs).log; i < j < |log| && IsCommit(log[i]) && IsCommit(log[j])
    ensures var log := Run(config, inputs).log;
            && log[i].input.generation != log[j].input.generation
            && log[i].input.version <= log[j].input.version
            && exists k :: i < k < j && Closes(log[k], log[i].input.generation)
  {
    RunOk(config, inputs);
    assert ClosedWithin(Run(config, inputs).log, i, j, Run(config, inputs).log[i].input.generation);
  }

  // ---------- the task ledger ----------

  // Exactly one entry of the wire acknowledges an admitted task; exactly one ledger entry reports a
  // completed task, with the recorded result, after the acknowledgement; none reports an active or
  // unknown task.
  ghost predicate ExactlyOnce(t: TaskState, log: seq<Entry>, id: Id) {
    && !(id in t.active && id in t.completed)
    && (id in t.active || id in t.completed <==> exists i :: 0 <= i < |log| && IsAckFor(log[i], id))
    && (id in t.completed <==> exists i :: 0 <= i < |log| && IsOutcomeFor(log[i], id))
    && (forall i, j :: 0 <= i < j < |log| ==> !(IsAckFor(log[i], id) && IsAckFor(log[j], id)))
    && (forall i, j :: 0 <= i < j < |log| ==> !(IsOutcomeFor(log[i], id) && IsOutcomeFor(log[j], id)))
    && (forall i, j :: 0 <= i < |log| && 0 <= j < |log| && IsAckFor(log[i], id) && IsOutcomeFor(log[j], id) ==> i < j)
    && (forall i :: 0 <= i < |log| && IsOutcomeFor(log[i], id) ==> OutcomeOf(log[i]).result == t.completed[id])
  }

  lemma EveryTaskExactlyOnce(config: Config, inputs: seq<Input>, id: Id)
    ensures ExactlyOnce(Run(config, inputs).tasks, Run(config, inputs).log, id)
  {
    hide Core, LedgerOk, ExactlyOnce;
    RunOk(config, inputs);
    LedgerExactlyOnce(Run(config, inputs).tasks, Run(config, inputs).log, id);
  }

  lemma LedgerExactlyOnce(t: TaskState, log: seq<Entry>, id: Id)
    requires LedgerOk(t, log, map[])
    ensures ExactlyOnce(t, log, id)
  {
    hide ProvenanceOk, CompletedOk, LinksOk, RecordOk;
    assert id in t.active ==> id !in t.completed;
    hide ActiveOk;
    if id in t.active || id in t.completed {
      assert AckBefore(log, |log|, id);
    }
    if id in t.completed {
      assert OutcomeSent(log, id);
    }
    forall i, j | 0 <= i < |log| && 0 <= j < |log| && IsAckFor(log[i], id) && IsOutcomeFor(log[j], id)
      ensures i < j
    {
      assert AckBefore(log, j, id);
      var k :| 0 <= k < j && IsAckFor(log[k], id);
      assert k == i;
    }
  }

  // Completed tasks stay completed with the same result and evidence; a binding, once made, is the
  // binding the task is resolved under.
  lemma LedgerOnlyGrows(config: Config, inputs: seq<Input>, more: seq<Input>, id: Id)
    ensures var t, later := Run(config, inputs).tasks, Run(config, inputs + more).tasks;
            && (id in t.completed ==>
                  id in later.completed && later.completed[id] == t.completed[id] &&
                    EvidenceFor(later, id) == EvidenceFor(t, id))
            && (id in t.active && t.active[id].generation.Some? ==>
                  if id in later.active then later.active[id].generation == t.active[id].generation
                  else id in later.completed && id in later.bindings && later.bindings[id] == t.active[id].generation)
  {
    RunFollows(config, inputs, more, 0);
    RunOk(config, inputs);
    RunOk(config, inputs + more);
    var t, later := Run(config, inputs).tasks, Run(config, inputs + more).tasks;
    hide RecordOk, CompletedOk, ProvenanceOk, OutcomesOk, AcksOk, LinksOk, Core;
    assert TaskKept(t, later, id);
    assert id in t.active ==> id !in t.completed;
    assert id in later.active ==> id !in later.completed;
  }

  // Evidence is never fabricated: the outcome at position `i` cites, without repetition, exactly the
  // task's linked evidence, each piece the id of an envelope sent earlier under the generation the
  // task was bound to. A success cites the completion of that generation, so it never reports "no
  // evidence collected".
  lemma EvidenceIsGenuine(config: Config, inputs: seq<Input>, i: nat)
    requires i < |Run(config, inputs).log| && IsOutcome(Run(config, inputs).log[i])
    ensures var s := Run(config, inputs);
            var o := OutcomeOf(s.log[i]);
            && o.taskId in s.tasks.bindings && o.evidenceIds == EvidenceFor(s.tasks, o.taskId)
            && NoDuplicates(o.evidenceIds)
            && (forall e :: e in o.evidenceIds ==>
                  s.tasks.bindings[o.taskId].Some? && OnWire(s.log[..i], e, s.tasks.bindings[o.taskId].value))
            && (o.result == Success ==>
                  s.tasks.bindings[o.taskId].Some? && o.evidenceIds != [] && !o.summary.NoEvidence? &&
                  exists e :: e in o.evidenceIds && CompletionOnWire(s.log[..i], e, s.tasks.bindings[o.taskId].value))
  {
    RunOk(config, inputs);
    var s := Run(config, inputs);
    hide ActiveOk, CompletedOk, AcksOk, LinksOk, Core;
    assert CitesEarlier(s.log, i, s.tasks.bindings[OutcomeOf(s.log[i]).taskId]);
  }

  // While a task is active its evidence is exactly what its buckets hold.
  lemma EvidenceMatchesBuckets(config: Config, inputs: seq<Input>, id: Id)
    requires id in Run(config, inputs).tasks.active
    ensures var t := Run(config, inputs).tasks;
            NoDuplicates(EvidenceFor(t, id)) && forall e :: e in EvidenceFor(t, id) <==> InBuckets(t.active[id], e)
  {
    RunOk(config, inputs);
    var s := Run(config, inputs);
    assert RecordOk(s.tasks, s.log, id, s.tasks.active[id]);
  }

  // The two evidence indexes answer alike in every reachable state.
  lemma EvidenceIndexesAgree(config: Config, inputs: seq<Input>, id: Id, evidence: Id)
    ensures var t := Run(config, inputs).tasks; evidence in EvidenceFor(t, id) <==> id in TasksCiting(t, evidence)
  {
    hide Run, Core, ProvenanceOk, ActiveOk, CompletedOk, OutcomesOk, AcksOk, Mirrored, EvidenceFor, TasksCiting;
    RunOk(config, inputs);
    MirrorMeans(Run(config, inputs).tasks, id, evidence);
  }

  // ---------- order on the wire ----------

  // Below saturation of the counter, everything sent to the client other than replays carries a
  // strictly larger sequence number than what was sent before; event ids never repeat.
  lemma WireOrder(config: Config, inputs: seq<Input>, i: nat, j: nat)
    requires var s := Run(config, inputs); i < j < |s.log| && Numbered(s.log[i]) && Numbered(s.log[j])
    ensures var s := Run(config, inputs);
            && (s.sequence < U64_MAX ==> SequenceOf(s.log[i]) < SequenceOf(s.log[j]) <= s.sequence)
            && (Enveloped(s.log[i]) && Enveloped(s.log[j]) ==> EventIdOf(s.log[i]) != EventIdOf(s.log[j]))
  {
    RunOk(config, inputs);
  }

  // ---------- resume ----------

  predicate TooOld(t: TaskState, q: nat, nowMs: nat) {
    q in t.bufferedBySeq && Stale(t, q, nowMs)
  }

  // The replay above a cursor is exactly the ledger envelopes sent above it that have not been
  // dropped and are not too old, in ascending order of sequence.
  ghost predicate ExactReplay(s: SessionState, cursor: nat, nowMs: nat, replay: seq<Envelope>) {
    && (forall a, b :: 0 <= a < b < |replay| ==> replay[a].sequence < replay[b].sequence)
    && (forall e: Envelope :: e in replay <==>
          e.sequence > cursor && ToClient(RawText(e, false)) in s.log &&
          e.sequence !in s.tasks.purged && !TooOld(s.tasks, e.sequence, nowMs))
  }

  lemma ReplayIsExact(config: Config, inputs: seq<Input>, cursor: nat, nowMs: nat)
    requires Run(config, inputs).sequence < U64_MAX
    ensures ExactReplay(Run(config, inputs), cursor, nowMs, Replayed(Run(config, inputs).tasks, cursor, nowMs))
  {
    hide LedgerOk, WireOk, ProviderOk, Replayed, ExactReplay;
    RunOk(config, inputs);
    ReplayMembers(Run(config, inputs), cursor, nowMs);
  }

  lemma ReplayMembers(s: SessionState, cursor: nat, nowMs: nat)
    requires BufferOk(s.tasks, s.log, s.sequence, s.minted) && s.sequence < U64_MAX
    ensures ExactReplay(s, cursor, nowMs, Replayed(s.tasks, cursor, nowMs))
  {
    var live := Live(s.tasks, cursor, nowMs);
    var qs := Ascending(live);
    var replay := Replayed(s.tasks, cursor, nowMs);
    AscendingIsSorted(live);
    assert forall i :: 0 <= i < |qs| ==> qs[i] in qs && replay[i] == s.tasks.bufferedBySeq[qs[i]].envelope;
    assert forall i :: 0 <= i < |qs| ==> replay[i].sequence == qs[i];
    hide Replayed;
    forall e: Envelope | e.sequence > cursor && ToClient(RawText(e, false)) in s.log &&
               e.sequence !in s.tasks.purged && !TooOld(s.tasks, e.sequence, nowMs)
      ensures e in replay
    {
      var k :| 0 <= k < |s.log| && s.log[k] == ToClient(RawText(e, false));
      assert IsLedgerEntry(s.log[k]) && Kept(s.tasks, e);
      assert e.sequence in qs;
      var i :| 0 <= i < |qs| && qs[i] == e.sequence;
      assert replay[i] == e;
    }
  }

  // Below saturation the two buffer indexes are inverse to each other in every reachable state.
  lemma BufferIndexesAgree(config: Config, inputs: seq<Input>)
    requires Run(config, inputs).sequence < U64_MAX
    ensures IndexesInverse(Run(config, inputs).tasks)
  {
    hide LedgerOk, WireOk, ProviderOk, IndexesInverse;
    RunOk(config, inputs);
  }

  // A replay drops exactly the entries above its cursor that are too old, from both indexes.
  lemma PurgeIsExact(t: TaskState, cursor: nat, nowMs: nat)
    requires IndexesInverse(t)
    ensures var after := Purged(t, cursor, nowMs);
            && (forall q :: q in after.bufferedBySeq <==> q in t.bufferedBySeq && !(q > cursor && Stale(t, q, nowMs)))
            && (forall id :: id in after.bufferedById <==>
                  id in t.bufferedById && !(t.bufferedById[id] > cursor && Stale(t, t.bufferedById[id], nowMs)))
            && IndexesInverse(after)
  {
    var dead := Dead(t, cursor, nowMs);
    AscendingIsSorted(dead);
    ForgetDrops(t, Ascending(dead));
    ForgetDropsIds(t, Ascending(dead));
  }

  lemma {:induction false} ForgetDropsIds(t: TaskState, qs: seq<nat>)
    requires IndexesInverse(t)
    ensures forall id :: id in Forget(t, qs).bufferedById <==> id in t.bufferedById && t.bufferedById[id] !in qs
    ensures forall id :: id in Forget(t, qs).bufferedById ==> Forget(t, qs).bufferedById[id] == t.bufferedById[id]
  {
    if qs != [] {
      var front, last := qs[..|qs| - 1], qs[|qs| - 1];
      ForgetDropsIds(t, front);
      ForgetDrops(t, front);
      assert forall q :: q in qs <==> q in front || q == last;
    }
  }
}
