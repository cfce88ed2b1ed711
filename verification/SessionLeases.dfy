// The leases of a session: its lease state is the answer lease under the operations the session
// performed on it, so what is proved of runs of lease operations holds of every session.
module SessionLeases {
  import opened Protocol
  import opened AnswerLease
  import opened TaskLedger
  import opened Session
  import opened SessionTheorems
  import opened Stall

  // ---------- the operations of a run ----------

  function StartOps(s: SessionState): seq<LeaseOp> {
    if s.active.Some? then [] else [Grant(s.minted)]
  }

  function CancelOps(s: SessionState): seq<LeaseOp> {
    if s.active.None? then [] else [Withdraw(s.active.value.id)]
  }

  function ActionOps(s: SessionState, action: InteractionAction): seq<LeaseOp> {
    match action
    case Listen => [OpenTurn]
    case StartResponse => StartOps(s)
    case HardYield => CancelOps(s)
    case Replan => CancelOps(s)
    case _ => []
  }

  // A decision has been sent and is about to be acted on.
  function Announced(s: SessionState, action: InteractionAction, timeUs: nat): SessionState {
    Sent(s, timeUs, InteractionDecision(action),
         if action == HardYield && s.active.Some? then Some(s.active.value.id) else None)
  }

  function DecidedOps(s: SessionState, actions: seq<InteractionAction>, timeUs: nat): seq<LeaseOp> {
    if actions == [] then []
    else
      var t := Decided(s, actions[..|actions| - 1], timeUs);
      var action := actions[|actions| - 1];
      DecidedOps(s, actions[..|actions| - 1], timeUs) + ActionOps(Announced(t, action, timeUs), action)
  }

  function StepOps(s: SessionState, stimulus: Stimulus): seq<LeaseOp> {
    if !s.open then []
    else
      match stimulus
      case TranscriptFinal(_) => StartOps(s)
      case BargeIn(_) => CancelOps(s)
      case AudioArrived(t, full, report, publish, answer) =>
        if s.providerOpen && answer.Decisions?
        then DecidedOps(Observed(FrameOffered(s, t, full, report), t, publish), answer.actions, t) else []
      case _ => []
  }

  ghost function RunOps(config: Config, inputs: seq<Input>): seq<LeaseOp> {
    if inputs == [] then []
    else
      var front := inputs[..|inputs| - 1];
      RunOps(config, front) + StepOps(Run(config, front), inputs[|inputs| - 1].stimulus)
  }

  // ---------- the lease is the result of these operations ----------

  lemma {:induction false} OpsConcat(s: LeaseState, ops: seq<LeaseOp>, more: seq<LeaseOp>)
    ensures AfterOps(s, ops + more) == AfterOps(AfterOps(s, ops), more)
    ensures Issued(s, ops + more) == Issued(s, ops) + Issued(AfterOps(s, ops), more)
    decreases ops
  {
    if ops == [] {
      assert ops + more == more;
    } else {
      assert (ops + more)[1..] == ops[1..] + more;
      hide Apply;
      OpsConcat(Apply(s, ops[0]), ops[1..], more);
    }
  }

  lemma ActedOps(s: SessionState, action: InteractionAction, timeUs: nat)
    ensures Acted(s, action, timeUs).lease == AfterOps(s.lease, ActionOps(s, action))
  {
    hide LeaseName, PendingBound;
  }

  lemma {:induction false} DecidedLease(s: SessionState, actions: seq<InteractionAction>, timeUs: nat)
    ensures Decided(s, actions, timeUs).lease == AfterOps(s.lease, DecidedOps(s, actions, timeUs))
  {
    hide Acted, ActionOps, Apply;
    if actions != [] {
      var front, last := actions[..|actions| - 1], actions[|actions| - 1];
      var t := Decided(s, front, timeUs);
      DecidedLease(s, front, timeUs);
      ActedOps(Announced(t, last, timeUs), last, timeUs);
      OpsConcat(s.lease, DecidedOps(s, front, timeUs), ActionOps(Announced(t, last, timeUs), last));
    }
  }

  lemma AudioLease(s: SessionState, t: nat, full: bool, report: bool, publish: bool, answer: EngineAnswer)
    ensures AudioHandled(s, t, full, report, publish, answer).lease ==
            if s.providerOpen && answer.Decisions?
            then AfterOps(s.lease, DecidedOps(Observed(FrameOffered(s, t, full, report), t, publish), answer.actions,
                                              t))
            else s.lease
  {
    hide Decided, DecidedOps, AfterOps;
    ObservedKeeps(s, t, full, report, publish);
    if s.providerOpen && answer.Decisions? {
      DecidedLease(Observed(FrameOffered(s, t, full, report), t, publish), answer.actions, t);
    }
  }

  lemma StepLease(s: SessionState, input: Input)
    ensures Step(s, input).lease == AfterOps(s.lease, StepOps(s, input.stimulus))
  {
    var o := input.oracle;
    hide TaskRequestHandled, TaskCancelHandled, ResumeHandled, AudioHandled, EmissionHandled, Apply, DecidedOps;
    match input.stimulus {
      case TaskAsked(t, request) => LedgerKeepsFloor(s, t, request, 0, None, o.clockMs);
      case TaskCancelled(t, id, reason) =>
        LedgerKeepsFloor(s, t, TaskRequested(0, "", None, [], None), id, reason, o.clockMs);
      case ResumeAsked(t, same, lastSeen) => ResumeKeepsFloor(s, t, same, lastSeen, o.clockMs);
      case AudioArrived(t, full, report, publish, answer) => AudioLease(s, t, full, report, publish, answer);
      case FromProvider(e) => EmissionFloor(s, e, o);
      case TranscriptFinal(t) => ActedOps(s, StartResponse, t);
      case BargeIn(t) => ActedOps(s, HardYield, t);
      case _ =>
    }
  }

  lemma {:induction false} LeaseIsAfterOps(config: Config, inputs: seq<Input>)
    ensures Run(config, inputs).lease == AfterOps(NO_LEASE, RunOps(config, inputs))
  {
    hide Step, StepOps, Apply;
    if inputs != [] {
      var front, last := inputs[..|inputs| - 1], inputs[|inputs| - 1];
      LeaseIsAfterOps(config, front);
      StepLease(Run(config, front), last);
      OpsConcat(NO_LEASE, RunOps(config, front), StepOps(Run(config, front), last.stimulus));
    }
  }

  // The lease a session holds is the last one it issued.
  lemma {:induction false} HeldIsLastIssued(s: LeaseState, ops: seq<LeaseOp>)
    requires s.active.None?
    ensures AfterOps(s, ops).active.Some? ==>
              var issued := Issued(s, ops); issued != [] && AfterOps(s, ops).active.value == issued[|issued| - 1]
    decreases |ops|
  {
    if ops != [] {
      var front, last := ops[..|ops| - 1], ops[|ops| - 1];
      assert ops == front + [last] && [last][1..] == [];
      HeldIsLastIssued(s, front);
      OpsConcat(s, front, [last]);
      hide LeaseName;
    }
  }

  // Below saturation of the lease counter, no two leases a session issues share a name, versions
  // never go back, and the lease held is the last one issued.
  lemma SessionLeasesDistinct(config: Config, inputs: seq<Input>, i: nat, j: nat)
    requires Run(config, inputs).lease.sequence < U64_MAX
    requires i < j < |Issued(NO_LEASE, RunOps(config, inputs))|
    ensures var issued := Issued(NO_LEASE, RunOps(config, inputs));
            && issued[i].name != issued[j].name && issued[i].conversationVersion <= issued[j].conversationVersion
            && (Run(config, inputs).lease.active.Some? ==>
                  Run(config, inputs).lease.active.value == issued[|issued| - 1])
  {
    hide Run, RunOps, Issued, AfterOps;
    LeaseIsAfterOps(config, inputs);
    LeasesAreDistinct(NO_LEASE, RunOps(config, inputs), i, j);
    HeldIsLastIssued(NO_LEASE, RunOps(config, inputs));
  }
}
