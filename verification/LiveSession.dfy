// The session together with the interaction engine it is shipped with: the engine's answers are no
// longer arbitrary, and with them a session never stalls.
module LiveSession {
  import opened Protocol
  import opened AnswerLease
  import opened TaskLedger
  import opened Session
  import opened SessionInvariant
  import opened SessionSteps
  import opened SessionTheorems
  import opened Stall
  import Chronos

  // ---------- session and engine in step ----------

  datatype Live = Live(session: SessionState, engine: Chronos.Engine)

  // An input together with what the acoustic front end makes of its frame and the profile in force.
  datatype LiveInput = LiveInput(input: Input, signals: Chronos.Signals, profile: Chronos.InteractionProfile)

  // The engine is asked about a frame exactly when the session is open and the provider reads.
  predicate Asks(s: SessionState, stimulus: Stimulus) {
    s.open && stimulus.AudioArrived? && s.providerOpen
  }

  function AnswerOf(decisions: Option<seq<InteractionAction>>): EngineAnswer {
    if decisions.None? then EngineFailed else Decisions(decisions.value)
  }

  function Configured(live: Live, input: LiveInput): Chronos.Engine {
    live.engine.(profile := input.profile)
  }

  // The input with the engine's own answer in it.
  function Answered(live: Live, input: LiveInput): Input {
    if Asks(live.session, input.input.stimulus) then
      var (decisions, _) := Chronos.Processed(Configured(live, input), input.input.stimulus.timeUs, input.signals);
      input.input.(stimulus := input.input.stimulus.(answer := AnswerOf(decisions)))
    else input.input
  }

  // What the session tells the engine in this step: the generation it began, or the one completed.
  ghost function Told(s: SessionState, input: Input, engine: Chronos.Engine): Chronos.Engine {
    var after := Step(s, input);
    if after.active.Some? && (s.active.None? || after.active.value.id != s.active.value.id)
    then Chronos.Speaks(engine, after.active.value.id)
    else if s.open && input.stimulus.FromProvider? && s.active.Some? && Ends(s, input.stimulus)
    then Chronos.Completed(engine, s.active.value.id)
    else engine
  }

  ghost function LiveStep(live: Live, input: LiveInput): Live {
    var answered := Answered(live, input);
    var heard :=
      if Asks(live.session, input.input.stimulus)
      then Chronos.Processed(Configured(live, input), input.input.stimulus.timeUs, input.signals).1
      else Configured(live, input);
    Live(Step(live.session, answered), Told(live.session, answered, heard))
  }

  ghost function LiveRun(config: Config, engine: Chronos.Engine, inputs: seq<LiveInput>): Live {
    if inputs == [] then Live(Run(config, []), engine)
    else LiveStep(LiveRun(config, engine, inputs[..|inputs| - 1]), inputs[|inputs| - 1])
  }

  // The inputs of a run with the engine's answers in them.
  ghost function AllAnswered(config: Config, engine: Chronos.Engine, inputs: seq<LiveInput>): seq<Input> {
    if inputs == [] then []
    else
      var front := inputs[..|inputs| - 1];
      AllAnswered(config, engine, front) + [Answered(LiveRun(config, engine, front), inputs[|inputs| - 1])]
  }

  // A live run is a run of the session, so all that holds of those holds of it.
  lemma {:induction false} LiveIsRun(config: Config, engine: Chronos.Engine, inputs: seq<LiveInput>)
    ensures LiveRun(config, engine, inputs).session == Run(config, AllAnswered(config, engine, inputs))
  {
    hide Step, Answered;
    if inputs != [] {
      var front := inputs[..|inputs| - 1];
      LiveIsRun(config, engine, front);
      var answered := AllAnswered(config, engine, inputs);
      assert answered[..|answered| - 1] == AllAnswered(config, engine, front);
    }
  }

  // ---------- the engine knows whose floor it is ----------

  // While a generation is active the engine holds the floor for it, and the generation has its lease.
  ghost predicate InStep(live: Live) {
    live.session.active.Some? ==>
      Chronos.Holds(live.engine.floor, live.session.active.value.id) && live.session.lease.active.Some?
  }

  // With the floor held for a generation the engine ducks, resumes, yields or says nothing, and it
  // lets the floor go exactly when it yields.
  lemma HeldFloorAnswers(e: Chronos.Engine, t: nat, o: Chronos.Signals, g: Id)
    requires Chronos.Holds(e.floor, g)
    ensures var (decisions, after) := Chronos.Processed(e, t, o);
            && (decisions.Some? && decisions.value != [] ==>
                  decisions.value == [SoftDuck] || decisions.value == [InteractionAction.Resume] ||
                  decisions.value == [HardYield])
            && (Chronos.Holds(after.floor, g) <==> decisions != Some([HardYield]))
  {
  }

  lemma OneDecision(e: Chronos.Engine, t: nat, o: Chronos.Signals)
    ensures var decisions := Chronos.Processed(e, t, o).0; decisions.Some? ==> |decisions.value| <= 1
  {
  }

  // One decision, or none: what it does to the floor of the session.
  lemma DecidedFloor(s: SessionState, actions: seq<InteractionAction>, timeUs: nat)
    requires |actions| <= 1
    requires s.active.Some? ==> actions == [] || actions[0] in {SoftDuck, InteractionAction.Resume, HardYield}
    ensures var after := Decided(s, actions, timeUs);
            && (s.active.Some? && after.active.Some? ==>
                  actions != [HardYield] && after.active == s.active && after.lease == s.lease)
            && (s.active.None? && after.active.Some? ==> after.lease.active.Some?)
  {
    if actions != [] {
      assert actions[..0] == [];
      hide Granted, PendingBound;
    }
  }

  lemma AudioFloor(s: SessionState, t: nat, full: bool, report: bool, publish: bool,
                   decisions: Option<seq<InteractionAction>>)
    requires s.providerOpen && (decisions.Some? ==> |decisions.value| <= 1)
    requires s.active.Some? && decisions.Some? ==>
               decisions.value == [] || decisions.value[0] in {SoftDuck, InteractionAction.Resume, HardYield}
    ensures var after := AudioHandled(s, t, full, report, publish, AnswerOf(decisions));
            && (s.active.Some? && after.active.Some? ==>
                  decisions != Some([HardYield]) && after.active == s.active && after.lease == s.lease)
            && (s.active.None? && after.active.Some? ==> after.lease.active.Some?)
  {
    hide FrameOffered, Observed, Decided;
    ObservedKeeps(s, t, full, report, publish);
    if decisions.Some? {
      DecidedFloor(Observed(FrameOffered(s, t, full, report), t, publish), decisions.value, t);
    }
  }

  lemma AudioInStep(live: Live, input: LiveInput)
    requires InStep(live) && Asks(live.session, input.input.stimulus)
    ensures InStep(LiveStep(live, input))
  {
    hide AudioHandled;
    var s, stimulus := live.session, input.input.stimulus;
    var (decisions, heard) := Chronos.Processed(Configured(live, input), stimulus.timeUs, input.signals);
    OneDecision(Configured(live, input), stimulus.timeUs, input.signals);
    if s.active.Some? {
      HeldFloorAnswers(Configured(live, input), stimulus.timeUs, input.signals, s.active.value.id);
    }
    hide Chronos.Processed;
    AudioFloor(s, stimulus.timeUs, stimulus.queueFull, stimulus.reportDrop, stimulus.publish, decisions);
  }

  lemma OtherInStep(live: Live, input: LiveInput)
    requires InStep(live) && !Asks(live.session, input.input.stimulus)
    ensures InStep(LiveStep(live, input))
  {
    var s, o := live.session, input.input.oracle;
    hide TaskRequestHandled, TaskCancelHandled, ResumeHandled, EmissionHandled, LeaseName, PendingBound;
    match input.input.stimulus {
      case TaskAsked(t, request) => LedgerKeepsFloor(s, t, request, 0, None, o.clockMs);
      case TaskCancelled(t, id, reason) =>
        LedgerKeepsFloor(s, t, TaskRequested(0, "", None, [], None), id, reason, o.clockMs);
      case ResumeAsked(t, same, lastSeen) => ResumeKeepsFloor(s, t, same, lastSeen, o.clockMs);
      case FromProvider(e) => EmissionFloor(s, e, o);
      case _ =>
    }
  }

  lemma {:induction false} LiveInStep(config: Config, engine: Chronos.Engine, inputs: seq<LiveInput>)
    ensures InStep(LiveRun(config, engine, inputs))
  {
    hide LiveStep;
    if inputs != [] {
      var front, last := inputs[..|inputs| - 1], inputs[|inputs| - 1];
      var live := LiveRun(config, engine, front);
      LiveInStep(config, engine, front);
      if Asks(live.session, last.input.stimulus) {
        AudioInStep(live, last);
      } else {
        OtherInStep(live, last);
      }
    }
  }

  // With the engine it is shipped with, from whatever state of that engine and under whatever
  // settings, a session never stalls: an active generation always holds the lease.
  lemma NeverStalls(config: Config, engine: Chronos.Engine, inputs: seq<LiveInput>)
    ensures var s := LiveRun(config, engine, inputs).session;
            !Stalled(s) && (s.active.Some? ==> Accepts(s.lease, s.active.value.id))
  {
    hide LiveRun, Run;
    LiveInStep(config, engine, inputs);
    LiveIsRun(config, engine, inputs);
    AcceptedUnlessStalled(config, AllAnswered(config, engine, inputs));
  }

  // In particular it never answers Listen, or Replan, or asks for a response, while one is active.
  lemma NoListenOverActive(config: Config, engine: Chronos.Engine, inputs: seq<LiveInput>, last: LiveInput)
    requires var live := LiveRun(config, engine, inputs);
             live.session.active.Some? && Asks(live.session, last.input.stimulus)
    ensures var answer := Answered(LiveRun(config, engine, inputs), last).stimulus.answer;
            answer.Decisions? ==> forall a :: a in answer.actions ==>
              a in {SoftDuck, InteractionAction.Resume, HardYield}
  {
    var live := LiveRun(config, engine, inputs);
    hide LiveRun;
    LiveInStep(config, engine, inputs);
    HeldFloorAnswers(Configured(live, last), last.input.stimulus.timeUs, last.signals, live.session.active.value.id);
  }
}
