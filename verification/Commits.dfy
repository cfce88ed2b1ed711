// What the provider is told of a response: that it begins, and how it ends.
module Commits {
  import opened Protocol
  import opened AnswerLease
  import opened TaskLedger
  import opened Session
  import opened WireInvariant
  import opened LedgerInvariant
  import opened BufferInvariant
  import opened SessionInvariant
  import opened SessionSteps
  import opened SessionTheorems
  import opened Stall
  import opened SessionLeases
  import opened Egress

  // ---------- an active generation was committed ----------

  // The provider was told to answer as this generation, at the time it began and under the version of
  // a lease issued for it.
  ghost predicate CommitOf(e: Entry, a: ActiveGeneration, leases: seq<Lease>) {
    && e.ToProvider? && e.input.CommitResponse? && e.input.generation == a.id && e.input.mediaTimeUs == a.baseUs
    && exists lease :: lease in leases && lease.generation == a.id && lease.conversationVersion == e.input.version
  }

  ghost predicate Committed(s: SessionState, leases: seq<Lease>) {
    s.providerOpen && s.active.Some? ==>
      exists i :: 0 <= i < |s.log| && CommitOf(s.log[i], s.active.value, leases)
  }

  // A voice that goes on stays committed.
  lemma CommittedStays(s: SessionState, after: SessionState, kinds: set<Kind>, leases: seq<Lease>, more: seq<Lease>)
    requires Committed(s, leases) && Says(s, after, kinds) && (after.providerOpen ==> s.providerOpen)
    requires after.active.Some? ==> VoiceOf(after.active) == VoiceOf(s.active)
    ensures Committed(after, leases + more)
  {
    if after.providerOpen && after.active.Some? {
      var i :| 0 <= i < |s.log| && CommitOf(s.log[i], s.active.value, leases);
      assert after.log[i] == after.log[..|s.log|][i];
      assert CommitOf(after.log[i], after.active.value, leases + more);
    }
  }

  lemma CommittedBy(after: SessionState, leases: seq<Lease>, i: nat)
    requires i < |after.log| && after.active.Some? && CommitOf(after.log[i], after.active.value, leases)
    ensures Committed(after, leases)
  {
  }

  lemma BegunLease(s: SessionState)
    requires s.active.None?
    ensures Issued(s.lease, StartOps(s)) == [Granted(s.lease, s.minted).active.value]
  {
    assert [Grant(s.minted)][1..] == [];
    hide LeaseName;
  }

  lemma StartedCommitted(s: SessionState, timeUs: nat, leases: seq<Lease>)
    requires Committed(s, leases)
    ensures Committed(Started(s, timeUs), leases + Issued(s.lease, StartOps(s)))
  {
    var after := Started(s, timeUs);
    if s.active.Some? {
      StartedAdds(s, timeUs);
      CommittedStays(s, after, {Mark, Commit, Note}, leases, []);
    } else if s.providerOpen {
      BegunLease(s);
      var lease := Granted(s.lease, s.minted).active.value;
      hide LeaseName, PendingBound;
      var all := leases + [lease];
      assert all[|leases|] == lease;
      assert lease in all && lease.generation == s.minted && lease.conversationVersion == s.lease.version;
      CommittedBy(after, all, |after.log| - 1);
    }
  }

  lemma InterruptedGivesUp(s: SessionState, action: InteractionAction, timeUs: nat)
    ensures Interrupted(s, action, timeUs).active.None?
  {
  }

  lemma ActedCommitted(s: SessionState, action: InteractionAction, timeUs: nat, leases: seq<Lease>)
    requires Committed(s, leases)
    ensures Committed(Acted(s, action, timeUs), leases + Issued(s.lease, ActionOps(s, action)))
  {
    var after := Acted(s, action, timeUs);
    ActedAdds(s, action, timeUs);
    InterruptedGivesUp(s, action, timeUs);
    if action == StartResponse {
      StartedCommitted(s, timeUs, leases);
    } else {
      hide Interrupted, Started, Issued, Committed, Adds;
      if action == HardYield || action == Replan {
        assert after.active.None?;
        NothingActive(after, leases + Issued(s.lease, ActionOps(s, action)));
      } else {
        assert Adds(s, after, DecisionKinds());
        AddsSays(s, after, DecisionKinds());
        CommittedStays(s, after, DecisionKinds(), leases, Issued(s.lease, ActionOps(s, action)));
      }
    }
  }

  lemma NothingActive(s: SessionState, leases: seq<Lease>)
    requires s.active.None?
    ensures Committed(s, leases)
  {
  }

  lemma AddsSays(s: SessionState, after: SessionState, kinds: set<Kind>)
    requires Adds(s, after, kinds)
    ensures Says(s, after, kinds)
  {
  }

  lemma {:induction false} DecidedCommitted(s: SessionState, actions: seq<InteractionAction>, timeUs: nat,
                                            leases: seq<Lease>)
    requires Committed(s, leases)
    ensures Committed(Decided(s, actions, timeUs), leases + Issued(s.lease, DecidedOps(s, actions, timeUs)))
  {
    hide Acted, ActionOps, Apply, Committed, Says, Issued, AfterOps;
    if actions == [] {
      NothingIssued(s.lease);
      assert leases + [] == leases;
    } else {
      var front, last := actions[..|actions| - 1], actions[|actions| - 1];
      var t := Decided(s, front, timeUs);
      var said := Announced(t, last, timeUs);
      var ops := DecidedOps(s, front, timeUs);
      var more := ActionOps(said, last);
      DecidedCommitted(s, front, timeUs, leases);
      AnnouncedAdds(t, last, timeUs);
      CommittedStays(t, said, {Note, Turn}, leases + Issued(s.lease, ops), []);
      assert leases + Issued(s.lease, ops) + [] == leases + Issued(s.lease, ops);
      ActedCommitted(said, last, timeUs, leases + Issued(s.lease, ops));
      DecidedLease(s, front, timeUs);
      OpsConcat(s.lease, ops, more);
      assert leases + Issued(s.lease, ops) + Issued(said.lease, more) ==
             leases + (Issued(s.lease, ops) + Issued(said.lease, more));
    }
  }

  lemma NothingIssued(s: LeaseState)
    ensures Issued(s, []) == []
  {
  }

  lemma AnnouncedAdds(s: SessionState, action: InteractionAction, timeUs: nat)
    ensures Says(s, Announced(s, action, timeUs), {Note, Turn})
  {
    var tag := if action == HardYield && s.active.Some? then Some(s.active.value.id) else None;
    SentAdds(s, timeUs, InteractionDecision(action), tag, {Note, Turn});
  }

  lemma AudioCommitted(s: SessionState, t: nat, full: bool, report: bool, publish: bool, answer: EngineAnswer,
                       leases: seq<Lease>)
    requires Committed(s, leases)
    ensures Committed(AudioHandled(s, t, full, report, publish, answer), leases + Issued(s.lease,
              if s.providerOpen && answer.Decisions?
              then DecidedOps(Observed(FrameOffered(s, t, full, report), t, publish), answer.actions, t) else []))
  {
    hide Committed, Says, Issued, Decided, FrameOffered, Observed, DecidedOps;
    NothingIssued(s.lease);
    var after := AudioHandled(s, t, full, report, publish, answer);
    AudioAdds(s, t, full, report, publish, answer);
    ObservedKeeps(s, t, full, report, publish);
    var observed := Observed(FrameOffered(s, t, full, report), t, publish);
    if s.providerOpen && answer.Decisions? {
      OfferedAdds(s, t, full, report);
      ObservedAdds(FrameOffered(s, t, full, report), t, publish);
      SaysTrans(s, FrameOffered(s, t, full, report), observed, {Feed, Note}, {Note});
      ObservedKeepsProvider(s, t, full, report, publish);
      CommittedStays(s, observed, {Feed, Note} + {Note}, leases, []);
      assert leases + [] == leases;
      DecidedCommitted(observed, answer.actions, t, leases);
    } else {
      AddsSays(s, after, AudioKinds());
      CommittedStays(s, after, AudioKinds(), leases, []);
    }
  }

  lemma SaysTrans(a: SessionState, b: SessionState, c: SessionState, kinds: set<Kind>, more: set<Kind>)
    requires Adds(a, b, kinds) && Adds(b, c, more)
    ensures Says(a, c, kinds + more)
  {
    AddsTrans(a, b, c, kinds, more);
  }

  lemma ObservedKeepsProvider(s: SessionState, timeUs: nat, full: bool, report: bool, publish: bool)
    ensures Observed(FrameOffered(s, timeUs, full, report), timeUs, publish).providerOpen == s.providerOpen
  {
  }

  lemma StepCommitted(s: SessionState, input: Input, leases: seq<Lease>)
    requires Inv(s, map[]) && Committed(s, leases)
    ensures Committed(Step(s, input), leases + Issued(s.lease, StepOps(s, input.stimulus)))
  {
    var o := input.oracle;
    var after := Step(s, input);
    var more := Issued(s.lease, StepOps(s, input.stimulus));
    StepAdds(s, input);
    StepProvider(s, input);
    hide Inv, Committed, Says, Issued, TaskRequestHandled, TaskCancelHandled, ResumeHandled, AudioHandled,
      EmissionHandled, Started, Interrupted, DecidedOps, Sent;
    if s.open {
      match input.stimulus {
        case TranscriptFinal(t) => StartedCommitted(s, t, leases);
        case AudioArrived(t, full, report, publish, answer) =>
          AudioCommitted(s, t, full, report, publish, answer, leases);
        case BargeIn(t) =>
          InterruptedGivesUp(s, HardYield, t);
          NothingActive(after, leases + more);
        case Shutdown => NothingActive(after, leases + more);
        case _ =>
          OtherVoice(s, input);
          CommittedStays(s, after, StepKinds(input.stimulus), leases, more);
      }
    } else {
      CommittedStays(s, after, StepKinds(input.stimulus), leases, more);
    }
  }

  lemma StepProvider(s: SessionState, input: Input)
    requires Inv(s, map[])
    ensures Step(s, input).providerOpen ==> s.providerOpen
  {
    StepOk(s, input, 0);
    hide Inv, Step, TasksKept;
  }

  // Nothing else takes the floor over.
  lemma OtherVoice(s: SessionState, input: Input)
    requires !input.stimulus.TranscriptFinal? && !input.stimulus.AudioArrived?
    ensures var after := Step(s, input); after.active.Some? ==> VoiceOf(after.active) == VoiceOf(s.active)
  {
    var o := input.oracle;
    hide TaskRequestHandled, TaskCancelHandled, ResumeHandled, EmissionHandled;
    match input.stimulus {
      case TaskAsked(t, request) => LedgerKeepsFloor(s, t, request, 0, None, o.clockMs);
      case TaskCancelled(t, id, reason) =>
        LedgerKeepsFloor(s, t, TaskRequested(0, "", None, [], None), id, reason, o.clockMs);
      case ResumeAsked(t, same, lastSeen) => ResumeKeepsFloor(s, t, same, lastSeen, o.clockMs);
      case FromProvider(e) => EmissionFloor(s, e, o);
      case _ =>
    }
  }

  lemma {:induction false} RunCommitted(config: Config, inputs: seq<Input>)
    ensures Committed(Run(config, inputs), Issued(NO_LEASE, RunOps(config, inputs)))
  {
    hide Step, StepOps, Committed, Issued, AfterOps;
    if inputs == [] {
      NothingActive(Run(config, []), Issued(NO_LEASE, RunOps(config, [])));
    } else {
      var front, last := inputs[..|inputs| - 1], inputs[|inputs| - 1];
      RunCommitted(config, front);
      RunOk(config, front);
      LeaseIsAfterOps(config, front);
      hide Inv;
      StepCommitted(Run(config, front), last, Issued(NO_LEASE, RunOps(config, front)));
      OpsConcat(NO_LEASE, RunOps(config, front), StepOps(Run(config, front), last.stimulus));
    }
  }

  // In every reachable state, while the provider reads and a generation is active, the provider has
  // been told to answer as it, exactly once, at the time the generation began and under the version of
  // the lease issued for it.
  lemma ActiveIsCommitted(config: Config, inputs: seq<Input>)
    requires Run(config, inputs).providerOpen && Run(config, inputs).active.Some?
    ensures var s := Run(config, inputs);
            exists i :: 0 <= i < |s.log| &&
              CommitOf(s.log[i], s.active.value, Issued(NO_LEASE, RunOps(config, inputs))) &&
              forall j :: 0 <= j < |s.log| && IsCommit(s.log[j]) && s.log[j].input.generation == s.active.value.id ==>
                j == i
  {
    var s := Run(config, inputs);
    var leases := Issued(NO_LEASE, RunOps(config, inputs));
    RunCommitted(config, inputs);
    var i :| 0 <= i < |s.log| && CommitOf(s.log[i], s.active.value, leases);
    hide Run, RunOps, Issued;
    forall j | 0 <= j < |s.log| && IsCommit(s.log[j]) && s.log[j].input.generation == s.active.value.id
      ensures j == i
    {
      if j < i {
        CommitsAreClosed(config, inputs, j, i);
      } else if i < j {
        CommitsAreClosed(config, inputs, i, j);
      }
    }
  }

  // And every response the provider was told to give is still active, or was cancelled with the
  // provider, or its completion was accepted.
  lemma CommitsEnd(config: Config, inputs: seq<Input>, i: nat)
    requires Run(config, inputs).providerOpen
    requires i < |Run(config, inputs).log| && IsCommit(Run(config, inputs).log[i])
    ensures var s := Run(config, inputs);
            var g := s.log[i].input.generation;
            (s.active.Some? && s.active.value.id == g) || exists k :: i < k < |s.log| && Closes(s.log[k], g)
  {
    RunOk(config, inputs);
    hide LedgerOk, WireOk, BufferOk;
    var s := Run(config, inputs);
    assert ClosedWithin(s.log, i, |s.log|, s.log[i].input.generation) ||
           (s.active.Some? && s.active.value.id == s.log[i].input.generation);
  }
}
