// The interaction engine: whose floor it is, and what each observation of the user's audio decides.
module Chronos {
  import opened Protocol

  // ---------- settings and observations ----------

  datatype ChronosConfig = ChronosConfig(
    speechOnThreshold: real, speechOffThreshold: real, bargeInCommitMs: nat, minimumUserTurnMs: nat,
    turnCommitThreshold: real, backchannelAfterMs: nat, backchannelSpacingMs: nat)

  const DEFAULT_CONFIG := ChronosConfig(0.62, 0.34, 180, 280, 0.55, 1_800, 3_500)

  datatype BackchannelLevel = Off | Minimal | Natural | Expressive

  datatype InterruptionSensitivity = Conservative | Balanced | Responsive

  datatype InteractionProfile = InteractionProfile(
    backchannels: BackchannelLevel, pauseToleranceMs: nat, interruptionSensitivity: InterruptionSensitivity)

  datatype Signals = Signals(speech: real, echo: real, target: real, completion: real, finality: real)

  function Clamp(x: real): (r: real)
    ensures 0.0 <= r <= 1.0
  {
    if x < 0.0 then 0.0 else if x > 1.0 then 1.0 else x
  }

  // Speech that is the user's: not echo, and in the target speaker's voice.
  function EffectiveSpeech(o: Signals): real {
    Clamp(o.speech * (1.0 - Clamp(o.echo)) * Clamp(o.target))
  }

  function ElapsedMs(laterUs: nat, earlierUs: nat): nat {
    if laterUs < earlierUs then 0 else (laterUs - earlierUs) / 1_000
  }

  // ---------- the floor ----------

  datatype FloorState =
    | Listening
    | UserSpeaking(sinceUs: nat)
    | UserPause(speechSinceUs: nat, silenceSinceUs: nat)
    | ResponsePending
    | AssistantSpeaking(generation: Id)
    | SoftDucked(generation: Id, overlapSinceUs: nat)
    | Yielded

  datatype Engine = Engine(
    config: ChronosConfig, profile: InteractionProfile, floor: FloorState, lastBackchannelUs: Option<nat>,
    lastMediaTimeUs: nat)

  function Fresh(config: ChronosConfig, profile: InteractionProfile): Engine {
    Engine(config, profile, Listening, None, 0)
  }

  function OnThreshold(e: Engine): real {
    match e.profile.interruptionSensitivity
    case Conservative => if e.config.speechOnThreshold + 0.1 > 0.9 then 0.9 else e.config.speechOnThreshold + 0.1
    case Balanced => e.config.speechOnThreshold
    case Responsive => if e.config.speechOnThreshold - 0.12 < 0.4 then 0.4 else e.config.speechOnThreshold - 0.12
  }

  function BargeInCommitMs(e: Engine): nat {
    match e.profile.interruptionSensitivity
    case Conservative => e.config.bargeInCommitMs + 80
    case Balanced => e.config.bargeInCommitMs
    case Responsive => if e.config.bargeInCommitMs < 140 then 80 else e.config.bargeInCommitMs - 60
  }

  predicate ShouldBackchannel(e: Engine, t: nat, speechSinceUs: nat) {
    && e.profile.backchannels != Off
    && ElapsedMs(t, speechSinceUs) >= e.config.backchannelAfterMs
    && (e.lastBackchannelUs.None? || ElapsedMs(t, e.lastBackchannelUs.value) >= e.config.backchannelSpacingMs)
  }

  predicate ShouldCommitResponse(e: Engine, t: nat, speechSinceUs: nat, silenceSinceUs: nat, o: Signals) {
    && ElapsedMs(silenceSinceUs, speechSinceUs) >= e.config.minimumUserTurnMs
    && ElapsedMs(t, silenceSinceUs) >= e.profile.pauseToleranceMs
    && (o.completion >= e.config.turnCommitThreshold || o.finality >= e.config.turnCommitThreshold)
  }

  // The decision on one observation, if any, and the engine after it.
  function Observed(e: Engine, t: nat, o: Signals): (Option<InteractionAction>, Engine) {
    var speech := EffectiveSpeech(o);
    match e.floor
    case Listening =>
      if speech < OnThreshold(e) then (None, e) else (Some(Listen), e.(floor := UserSpeaking(t)))
    case UserSpeaking(since) =>
      if speech <= e.config.speechOffThreshold then (Some(HoldFloor), e.(floor := UserPause(since, t)))
      else if o.completion < e.config.turnCommitThreshold && ShouldBackchannel(e, t, since)
      then (Some(Backchannel), e.(lastBackchannelUs := Some(t)))
      else (None, e)
    case UserPause(since, silence) =>
      if speech >= OnThreshold(e) then (Some(Listen), e.(floor := UserSpeaking(since)))
      else if ShouldCommitResponse(e, t, since, silence, o) then (Some(StartResponse), e.(floor := ResponsePending))
      else (None, e)
    case ResponsePending =>
      if speech < OnThreshold(e) then (None, e) else (Some(Replan), e.(floor := UserSpeaking(t)))
    case AssistantSpeaking(g) =>
      if speech < OnThreshold(e) then (None, e) else (Some(SoftDuck), e.(floor := SoftDucked(g, t)))
    case SoftDucked(g, since) =>
      if speech <= e.config.speechOffThreshold then (Some(Resume), e.(floor := AssistantSpeaking(g)))
      else if ElapsedMs(t, since) < BargeInCommitMs(e) then (None, e)
      else (Some(HardYield), e.(floor := Yielded))
    case Yielded =>
      if speech < OnThreshold(e) then (None, e.(floor := Listening)) else (Some(Listen), e.(floor := UserSpeaking(t)))
  }

  // None when media time went back.
  function Processed(e: Engine, t: nat, o: Signals): (Option<seq<InteractionAction>>, Engine) {
    if t < e.lastMediaTimeUs then (None, e)
    else
      var (decision, after) := Observed(e.(lastMediaTimeUs := t), t, o);
      (Some(if decision.None? then [] else [decision.value]), after)
  }

  function Speaks(e: Engine, g: Id): Engine {
    e.(floor := AssistantSpeaking(g))
  }

  predicate Holds(floor: FloorState, g: Id) {
    (floor.AssistantSpeaking? || floor.SoftDucked?) && floor.generation == g
  }

  function Completed(e: Engine, g: Id): Engine {
    if Holds(e.floor, g) then e.(floor := Listening) else e
  }

  // ---------- the engine in its own form ----------

  class SessionEngine {
    const config: ChronosConfig
    var profile: InteractionProfile
    var state: FloorState
    var lastBackchannelUs: Option<nat>
    var lastMediaTimeUs: nat

    function State(): Engine
      reads this
    {
      Engine(config, profile, state, lastBackchannelUs, lastMediaTimeUs)
    }

    constructor (config: ChronosConfig, profile: InteractionProfile)
      ensures State() == Fresh(config, profile)
    {
      this.config, this.profile := config, profile;
      state, lastBackchannelUs, lastMediaTimeUs := Listening, None, 0;
    }

    method UpdateProfile(profile: InteractionProfile)
      modifies this
      ensures State() == old(State()).(profile := profile)
    {
      this.profile := profile;
    }

    method MarkResponseStarted(g: Id)
      modifies this
      ensures State() == Speaks(old(State()), g)
    {
      state := AssistantSpeaking(g);
    }

    method MarkResponseComplete(g: Id)
      modifies this
      ensures State() == Completed(old(State()), g)
    {
      match state {
        case AssistantSpeaking(active) =>
          if active == g {
            state := Listening;
          }
        case SoftDucked(active, _) =>
          if active == g {
            state := Listening;
          }
        case _ =>
      }
    }

    method ObserveListening(t: nat, o: Signals, speech: real) returns (decision: Option<InteractionAction>)
      requires state == Listening && speech == EffectiveSpeech(o)
      modifies this
      ensures (decision, State()) == Observed(old(State()), t, o)
    {
      if speech < OnThreshold(State()) {
        return None;
      }
      state := UserSpeaking(t);
      decision := Some(Listen);
    }

    method ObserveUserSpeaking(t: nat, o: Signals, speech: real,
                               since: nat) returns (decision: Option<InteractionAction>)
      requires state == UserSpeaking(since) && speech == EffectiveSpeech(o)
      modifies this
      ensures (decision, State()) == Observed(old(State()), t, o)
    {
      if speech <= config.speechOffThreshold {
        state := UserPause(since, t);
        return Some(HoldFloor);
      }
      if o.completion < config.turnCommitThreshold && ShouldBackchannel(State(), t, since) {
        lastBackchannelUs := Some(t);
        return Some(Backchannel);
      }
      decision := None;
    }

    method ObserveUserPause(t: nat, o: Signals, speech: real, since: nat,
                            silence: nat) returns (decision: Option<InteractionAction>)
      requires state == UserPause(since, silence) && speech == EffectiveSpeech(o)
      modifies this
      ensures (decision, State()) == Observed(old(State()), t, o)
    {
      if speech >= OnThreshold(State()) {
        state := UserSpeaking(since);
        return Some(Listen);
      }
      if !ShouldCommitResponse(State(), t, since, silence, o) {
        return None;
      }
      state := ResponsePending;
      decision := Some(StartResponse);
    }

    method ObserveResponsePending(t: nat, o: Signals, speech: real) returns (decision: Option<InteractionAction>)
      requires state == ResponsePending && speech == EffectiveSpeech(o)
      modifies this
      ensures (decision, State()) == Observed(old(State()), t, o)
    {
      if speech < OnThreshold(State()) {
        return None;
      }
      state := UserSpeaking(t);
      decision := Some(Replan);
    }

    method ObserveAssistantSpeaking(t: nat, o: Signals, speech: real,
                                    g: Id) returns (decision: Option<InteractionAction>)
      requires state == AssistantSpeaking(g) && speech == EffectiveSpeech(o)
      modifies this
      ensures (decision, State()) == Observed(old(State()), t, o)
    {
      if speech < OnThreshold(State()) {
        return None;
      }
      state := SoftDucked(g, t);
      decision := Some(SoftDuck);
    }

    method ObserveSoftDucked(t: nat, o: Signals, speech: real, g: Id,
                             since: nat) returns (decision: Option<InteractionAction>)
      requires state == SoftDucked(g, since) && speech == EffectiveSpeech(o)
      modifies this
      ensures (decision, State()) == Observed(old(State()), t, o)
    {
      if speech <= config.speechOffThreshold {
        state := AssistantSpeaking(g);
        return Some(InteractionAction.Resume);
      }
      if ElapsedMs(t, since) < BargeInCommitMs(State()) {
        return None;
      }
      state := Yielded;
      decision := Some(HardYield);
    }

    method ObserveYielded(t: nat, o: Signals, speech: real) returns (decision: Option<InteractionAction>)
      requires state == Yielded && speech == EffectiveSpeech(o)
      modifies this
      ensures (decision, State()) == Observed(old(State()), t, o)
    {
      if speech < OnThreshold(State()) {
        state := Listening;
        return None;
      }
      state := UserSpeaking(t);
      decision := Some(Listen);
    }

    method Observe(t: nat, o: Signals) returns (decision: Option<InteractionAction>)
      modifies this
      ensures (decision, State()) == Observed(old(State()), t, o)
    {
      var speech := EffectiveSpeech(o);
      match state {
        case Listening => decision := ObserveListening(t, o, speech);
        case UserSpeaking(since) => decision := ObserveUserSpeaking(t, o, speech, since);
        case UserPause(since, silence) => decision := ObserveUserPause(t, o, speech, since, silence);
        case ResponsePending => decision := ObserveResponsePending(t, o, speech);
        case AssistantSpeaking(g) => decision := ObserveAssistantSpeaking(t, o, speech, g);
        case SoftDucked(g, since) => decision := ObserveSoftDucked(t, o, speech, g, since);
        case Yielded => decision := ObserveYielded(t, o, speech);
      }
    }

    method Process(t: nat, o: Signals) returns (decisions: Option<seq<InteractionAction>>)
      modifies this
      ensures (decisions, State()) == Processed(old(State()), t, o)
    {
      if t < lastMediaTimeUs {
        return None;
      }
      lastMediaTimeUs := t;
      var decision := Observe(t, o);
      decisions := Some(if decision.None? then [] else [decision.value]);
    }
  }

  // ---------- runs of the engine ----------

  datatype EngineStep = Hear(t: nat, o: Signals) | Start(g: Id) | Complete(g: Id) |
    Configure(profile: InteractionProfile)

  function Stepped(e: Engine, step: EngineStep): Engine {
    match step
    case Hear(t, o) => Processed(e, t, o).1
    case Start(g) => Speaks(e, g)
    case Complete(g) => Completed(e, g)
    case Configure(profile) => e.(profile := profile)
  }

  function After(e: Engine, steps: seq<EngineStep>): Engine {
    if steps == [] then e else Stepped(After(e, steps[..|steps| - 1]), steps[|steps| - 1])
  }

  // What the engine decides at step `k`.
  function DecisionAt(e: Engine, steps: seq<EngineStep>, k: nat): Option<InteractionAction>
    requires k < |steps|
  {
    match steps[k]
    case Hear(t, o) =>
      var answer := Processed(After(e, steps[..k]), t, o).0;
      if answer.None? || answer.value == [] then None else Some(answer.value[0])
    case _ => None
  }

  // Step `k` is an observation the engine took, at time `t`.
  predicate HeardAt(e: Engine, steps: seq<EngineStep>, k: nat, t: nat) {
    k < |steps| && steps[k].Hear? && steps[k].t == t && After(e, steps[..k]).lastMediaTimeUs <= t
  }

  // From step `k`, at time `since`, the user has talked over the assistant without a break: the
  // engine ducked there, and no observation it took later, up to step `n`, fell to the off threshold.
  ghost predicate Overlaps(e: Engine, steps: seq<EngineStep>, k: nat, n: nat, since: nat) {
    && HeardAt(e, steps, k, since) && k < n <= |steps| && DecisionAt(e, steps, k) == Some(SoftDuck)
    && forall j :: k < j < n && steps[j].Hear? && HeardAt(e, steps, j, steps[j].t) ==>
         EffectiveSpeech(steps[j].o) > e.config.speechOffThreshold
  }

  lemma {:induction false} DuckedOverlaps(e: Engine, steps: seq<EngineStep>)
    requires e.floor.Listening?
    ensures After(e, steps).config == e.config
    ensures After(e, steps).floor.SoftDucked? ==>
              exists k: nat :: Overlaps(e, steps, k, |steps|, After(e, steps).floor.overlapSinceUs)
  {
    if steps != [] {
      var front, last := steps[..|steps| - 1], steps[|steps| - 1];
      DuckedOverlaps(e, front);
      var before, after := After(e, front), After(e, steps);
      if after.floor.SoftDucked? {
        if before.floor.SoftDucked? {
          var k: nat :| Overlaps(e, front, k, |front|, before.floor.overlapSinceUs);
          OverlapLasts(e, steps, k, before.floor.overlapSinceUs);
        } else {
          assert Overlaps(e, steps, |front|, |steps|, after.floor.overlapSinceUs);
        }
      }
    }
  }

  lemma OverlapLasts(e: Engine, steps: seq<EngineStep>, k: nat, since: nat)
    requires steps != []
    requires var front, last := steps[..|steps| - 1], steps[|steps| - 1];
             && Overlaps(e, front, k, |front|, since)
             && (last.Hear? && HeardAt(e, steps, |front|, last.t) ==>
                 EffectiveSpeech(last.o) > e.config.speechOffThreshold)
    ensures Overlaps(e, steps, k, |steps|, since)
  {
    var front := steps[..|steps| - 1];
    assert forall j :: 0 <= j < |front| ==> front[..j] == steps[..j] && front[j] == steps[j];
    hide Processed;
  }

  lemma YieldsLate(e: Engine, t: nat, o: Signals)
    requires Processed(e, t, o).0 == Some([HardYield])
    ensures e.floor.SoftDucked? && EffectiveSpeech(o) > e.config.speechOffThreshold
    ensures ElapsedMs(t, e.floor.overlapSinceUs) >= BargeInCommitMs(e)
  {
    hide EffectiveSpeech, OnThreshold;
  }

  // The engine yields only after the user has talked over the assistant without a break for the
  // configured time, counted from the frame on which it ducked.
  lemma BargeInIsSustained(e: Engine, steps: seq<EngineStep>, n: nat)
    requires e.floor.Listening? && n < |steps| && DecisionAt(e, steps, n) == Some(HardYield)
    ensures exists k: nat :: k < n && steps[k].Hear? && Overlaps(e, steps[..n + 1], k, n + 1, steps[k].t) &&
              ElapsedMs(steps[n].t, steps[k].t) >= BargeInCommitMs(After(e, steps[..n]))
    ensures e.config == DEFAULT_CONFIG ==> BargeInCommitMs(After(e, steps[..n])) >= 120
  {
    var front, upTo := steps[..n], steps[..n + 1];
    var before := After(e, front);
    YieldsLate(before, steps[n].t, steps[n].o);
    DuckedOverlaps(e, front);
    var since := before.floor.overlapSinceUs;
    var k: nat :| Overlaps(e, front, k, n, since);
    assert upTo[..|upTo| - 1] == front && upTo[n] == steps[n];
    hide After, Processed, DecisionAt;
    OverlapLasts(e, upTo, k, since);
    assert steps[k] == front[k];
  }

  // From step `k`, at time `since`, the user has paused: the engine held the floor for them there, and
  // no observation it took later, up to step `n`, reached the on threshold of its moment.
  ghost predicate Pauses(e: Engine, steps: seq<EngineStep>, k: nat, n: nat, since: nat) {
    && HeardAt(e, steps, k, since) && k < n <= |steps| && DecisionAt(e, steps, k) == Some(HoldFloor)
    && forall j :: k < j < n && steps[j].Hear? && HeardAt(e, steps, j, steps[j].t) ==>
         EffectiveSpeech(steps[j].o) < OnThreshold(After(e, steps[..j]))
  }

  lemma PauseLasts(e: Engine, steps: seq<EngineStep>, k: nat, since: nat)
    requires steps != []
    requires var front, last := steps[..|steps| - 1], steps[|steps| - 1];
             && Pauses(e, front, k, |front|, since)
             && (last.Hear? && HeardAt(e, steps, |front|, last.t) ==>
                   EffectiveSpeech(last.o) < OnThreshold(After(e, front)))
    ensures Pauses(e, steps, k, |steps|, since)
  {
    var front := steps[..|steps| - 1];
    assert forall j :: 0 <= j < |front| ==> front[..j] == steps[..j] && front[j] == steps[j];
    hide Processed, OnThreshold;
  }

  lemma PauseStep(e: Engine, step: EngineStep)
    requires Stepped(e, step).floor.UserPause?
    ensures if e.floor.UserPause? then
              Stepped(e, step).floor == e.floor &&
              (step.Hear? && e.lastMediaTimeUs <= step.t ==> EffectiveSpeech(step.o) < OnThreshold(e))
            else
              step.Hear? && e.lastMediaTimeUs <= step.t == Stepped(e, step).floor.silenceSinceUs &&
              Processed(e, step.t, step.o).0 == Some([HoldFloor])
  {
    hide EffectiveSpeech;
  }

  lemma {:induction false} PausedSince(e: Engine, steps: seq<EngineStep>)
    requires e.floor.Listening?
    ensures After(e, steps).floor.UserPause? ==>
              exists k: nat :: Pauses(e, steps, k, |steps|, After(e, steps).floor.silenceSinceUs)
  {
    hide EffectiveSpeech, OnThreshold, Processed, Stepped;
    if steps != [] {
      var front, last := steps[..|steps| - 1], steps[|steps| - 1];
      PausedSince(e, front);
      var before, after := After(e, front), After(e, steps);
      if after.floor.UserPause? {
        PauseStep(before, last);
        if before.floor.UserPause? {
          var k: nat :| Pauses(e, front, k, |front|, before.floor.silenceSinceUs);
          PauseLasts(e, steps, k, before.floor.silenceSinceUs);
        } else {
          assert Pauses(e, steps, |front|, |steps|, after.floor.silenceSinceUs);
        }
      }
    }
  }

  lemma AnswersLate(e: Engine, t: nat, o: Signals)
    requires Processed(e, t, o).0 == Some([StartResponse])
    ensures e.floor.UserPause? && ElapsedMs(t, e.floor.silenceSinceUs) >= e.profile.pauseToleranceMs
    ensures ElapsedMs(e.floor.silenceSinceUs, e.floor.speechSinceUs) >= e.config.minimumUserTurnMs
    ensures o.completion >= e.config.turnCommitThreshold || o.finality >= e.config.turnCommitThreshold
    ensures EffectiveSpeech(o) < OnThreshold(e)
  {
    hide EffectiveSpeech;
  }

  // The engine starts a response only in a pause it has tolerated for as long as the profile asks,
  // with no speech since the pause began, and when the turn sounds complete.
  lemma ResponseNeedsPause(e: Engine, steps: seq<EngineStep>, n: nat)
    requires e.floor.Listening? && n < |steps| && DecisionAt(e, steps, n) == Some(StartResponse)
    ensures exists k: nat :: k < n && steps[k].Hear? && Pauses(e, steps[..n + 1], k, n + 1, steps[k].t) &&
              ElapsedMs(steps[n].t, steps[k].t) >= After(e, steps[..n]).profile.pauseToleranceMs
    ensures steps[n].o.completion >= e.config.turnCommitThreshold || steps[n].o.finality >= e.config.turnCommitThreshold
  {
    var front, upTo := steps[..n], steps[..n + 1];
    var before := After(e, front);
    AnswersLate(before, steps[n].t, steps[n].o);
    DuckedOverlaps(e, front);
    PausedSince(e, front);
    var since := before.floor.silenceSinceUs;
    var k: nat :| Pauses(e, front, k, n, since);
    assert upTo[..|upTo| - 1] == front && upTo[n] == steps[n];
    hide After, Processed, DecisionAt, OnThreshold;
    PauseLasts(e, upTo, k, since);
    assert steps[k] == front[k];
  }
}
