// What the interaction engine takes for the user's speech, in the signals themselves, and how its
// decisions are spaced over runs.
module Hearing {
  import opened Protocol
  import opened Chronos

  // ---------- arithmetic of the three signals ----------

  lemma ProductGrows(a: real, b: real, c: real, d: real)
    requires 0.0 <= a <= c && 0.0 <= b <= d
    ensures 0.0 <= a * b <= c * d
  {
    assert a * b <= c * b;
    assert c * b <= c * d;
  }

  // Nothing is left of a signal that is all echo or in another's voice, and never more than all of it.
  lemma WeighedDown(s: real, a: real, b: real)
    requires 0.0 <= a <= 1.0 && 0.0 <= b <= 1.0
    ensures a == 0.0 || b == 0.0 ==> s * a * b == 0.0
    ensures s <= 0.0 ==> s * a * b <= 0.0
    ensures s >= 0.0 ==> s * a * b <= s
  {
    if s >= 0.0 {
      ProductGrows(a, b, 1.0, 1.0);
      ProductGrows(s, a * b, s, 1.0);
      assert s * a * b == s * (a * b);
    } else {
      ProductGrows(-s, a, -s, a);
      ProductGrows((-s) * a, b, (-s) * a, b);
      assert s * a * b == -((-s) * a * b);
    }
  }

  // The lower threshold is neither negative nor as high as the upper one of this sensitivity.
  predicate Sane(e: Engine) {
    var on, off := e.config.speechOnThreshold, e.config.speechOffThreshold;
    0.0 <= off &&
    match e.profile.interruptionSensitivity
    case Conservative => off < on + 0.1 && off < 0.9
    case Balanced => off < on
    case Responsive => off < on - 0.12 || off < 0.4
  }

  lemma DefaultIsSane(e: Engine)
    requires e.config == DEFAULT_CONFIG
    ensures Sane(e)
  {
  }

  lemma OnAboveOff(e: Engine)
    requires Sane(e)
    ensures OnThreshold(e) > e.config.speechOffThreshold
  {
  }

  // ---------- one observation ----------

  // Nothing of the user's is to be heard.
  predicate Unheard(e: Engine, o: Signals) {
    o.echo >= 1.0 || o.target <= 0.0 || o.speech <= e.config.speechOffThreshold
  }

  lemma UnheardIsSilence(e: Engine, o: Signals)
    requires 0.0 <= e.config.speechOffThreshold && Unheard(e, o)
    ensures EffectiveSpeech(o) <= e.config.speechOffThreshold
  {
    var a, b := 1.0 - Clamp(o.echo), Clamp(o.target);
    WeighedBelow(o.speech, a, b, e.config.speechOffThreshold);
    ClampBelow(o.speech * a * b, e.config.speechOffThreshold);
  }

  lemma WeighedBelow(s: real, a: real, b: real, limit: real)
    requires 0.0 <= a <= 1.0 && 0.0 <= b <= 1.0 && 0.0 <= limit
    requires a == 0.0 || b == 0.0 || s <= limit
    ensures s * a * b <= limit
  {
    WeighedDown(s, a, b);
    var weighed := s * a * b;
    if a == 0.0 || b == 0.0 {
      assert weighed == 0.0;
    } else {
      assert weighed <= s || weighed <= 0.0;
    }
  }

  lemma ClampBelow(x: real, limit: real)
    requires x <= limit && 0.0 <= limit
    ensures Clamp(x) <= limit
  {
  }

  // What is all echo, or in another's voice, or too faint ends an overlap and begins a pause, and never
  // brings a decision that takes the user for speaking.
  lemma UnheardIsIgnored(e: Engine, t: nat, o: Signals)
    requires Sane(e) && Unheard(e, o) && e.lastMediaTimeUs <= t
    ensures var (answer, after) := Processed(e, t, o);
            && answer.Some?
            && (forall a :: a in answer.value ==> a == HoldFloor || a == StartResponse || a == InteractionAction.Resume)
            && match e.floor
               case UserSpeaking(since) => answer.value == [HoldFloor] && after.floor == UserPause(since, t)
               case SoftDucked(g, _) =>
                 answer.value == [InteractionAction.Resume] && after.floor == AssistantSpeaking(g)
               case Yielded => answer.value == [] && after.floor == Listening
               case UserPause(_, _) => answer.value == [] ==> after.floor == e.floor
               case _ => answer.value == [] && after.floor == e.floor
  {
    UnheardIsSilence(e, o);
    OnAboveOff(e);
    hide EffectiveSpeech, OnThreshold;
  }

  // It takes such thresholds: a listening engine hears nothing in what is unheard exactly if they are.
  lemma SaneExactly(e: Engine)
    requires e.floor == Listening && 0.0 <= e.config.speechOffThreshold <= 1.0
    ensures (forall t, o :: e.lastMediaTimeUs <= t && Unheard(e, o) ==> Processed(e, t, o).0 == Some([])) <==> Sane(e)
  {
    if Sane(e) {
      forall t, o | e.lastMediaTimeUs <= t && Unheard(e, o)
        ensures Processed(e, t, o).0 == Some([])
      {
        UnheardIsIgnored(e, t, o);
      }
    } else {
      var o := Signals(e.config.speechOffThreshold, 0.0, 1.0, 0.0, 0.0);
      assert EffectiveSpeech(o) == e.config.speechOffThreshold >= OnThreshold(e) by {
        assert o.speech * (1.0 - Clamp(o.echo)) * Clamp(o.target) == o.speech;
      }
      assert Unheard(e, o) && Processed(e, e.lastMediaTimeUs, o).0 == Some([Listen]);
    }
  }

  // The user is plain to hear at this sensitivity.
  predicate Loud(e: Engine, o: Signals) {
    o.echo <= 0.0 && o.target >= 1.0 &&
    match e.profile.interruptionSensitivity
    case Conservative => o.speech >= e.config.speechOnThreshold + 0.1 || o.speech >= 0.9
    case Balanced => o.speech >= e.config.speechOnThreshold
    case Responsive => o.speech >= e.config.speechOnThreshold - 0.12 && o.speech >= 0.4
  }

  lemma LoudIsSpeech(e: Engine, o: Signals)
    requires e.config.speechOnThreshold <= 1.0 && Loud(e, o)
    ensures EffectiveSpeech(o) >= OnThreshold(e)
  {
    assert o.speech * (1.0 - Clamp(o.echo)) * Clamp(o.target) == o.speech;
  }

  // How long an overlap must last at this sensitivity.
  predicate LongEnough(e: Engine, t: nat, sinceUs: nat) {
    var c := e.config.bargeInCommitMs;
    (if t >= sinceUs then (t - sinceUs) / 1_000 else 0) >=
    match e.profile.interruptionSensitivity
    case Conservative => c + 80
    case Balanced => c
    case Responsive => if c >= 140 then c - 60 else 80
  }

  // What is plain to hear is listened to, ducks the assistant, replaces a pending response, and in an
  // overlap yields exactly once that has lasted.
  lemma LoudIsHeard(e: Engine, t: nat, o: Signals)
    requires Sane(e) && e.config.speechOnThreshold <= 1.0 && Loud(e, o) && e.lastMediaTimeUs <= t
    ensures var (answer, after) := Processed(e, t, o);
            && answer.Some?
            && match e.floor
               case Listening => answer.value == [Listen] && after.floor == UserSpeaking(t)
               case Yielded => answer.value == [Listen] && after.floor == UserSpeaking(t)
               case UserPause(since, _) => answer.value == [Listen] && after.floor == UserSpeaking(since)
               case ResponsePending => answer.value == [Replan] && after.floor == UserSpeaking(t)
               case AssistantSpeaking(g) => answer.value == [SoftDuck] && after.floor == SoftDucked(g, t)
               case SoftDucked(g, since) =>
                 if LongEnough(e, t, since)
                 then answer.value == [HardYield] && after.floor == Yielded
                 else answer.value == [] && after.floor == e.floor
               case UserSpeaking(_) => after.floor == e.floor
  {
    LoudIsSpeech(e, o);
    OnAboveOff(e);
    hide EffectiveSpeech, OnThreshold;
  }

  // `p` is at least as plainly the user's as `o`.
  predicate Plainer(o: Signals, p: Signals) {
    o.speech <= p.speech && o.target <= p.target && p.echo <= o.echo &&
    p.completion == o.completion && p.finality == o.finality
  }

  lemma PlainerIsSpeech(o: Signals, p: Signals)
    requires Plainer(o, p) && EffectiveSpeech(o) > 0.0
    ensures EffectiveSpeech(p) >= EffectiveSpeech(o)
  {
    var a, b := 1.0 - Clamp(o.echo), Clamp(o.target);
    var c, d := 1.0 - Clamp(p.echo), Clamp(p.target);
    WeighedDown(o.speech, a, b);
    assert o.speech > 0.0;
    ProductGrows(o.speech, a, p.speech, c);
    ProductGrows(o.speech * a, b, p.speech * c, d);
  }

  predicate Attends(a: InteractionAction) {
    a == Listen || a == SoftDuck || a == Replan || a == HardYield
  }

  // Whatever is heard as the user speaking still is when it is plainer.
  lemma PlainerIsHeard(e: Engine, t: nat, o: Signals, p: Signals, action: InteractionAction)
    requires Sane(e) && Plainer(o, p) && Attends(action)
    requires Processed(e, t, o).0 == Some([action])
    ensures Processed(e, t, p) == Processed(e, t, o)
  {
    OnAboveOff(e);
    if EffectiveSpeech(o) > 0.0 {
      PlainerIsSpeech(o, p);
    }
    hide EffectiveSpeech, OnThreshold;
  }

  // ---------- overlaps and pauses over runs ----------

  // The engine ducked at step `k`, and all it took up to step `n` was the user's.
  ghost predicate OnlyTheUser(e: Engine, steps: seq<EngineStep>, k: nat, n: nat) {
    && k < n <= |steps| && DecisionAt(e, steps, k) == Some(SoftDuck)
    && forall j :: k < j < n && steps[j].Hear? && HeardAt(e, steps, j, steps[j].t) ==> !Unheard(e, steps[j].o)
  }

  lemma OverlapIsUser(e: Engine, steps: seq<EngineStep>, k: nat, n: nat, since: nat)
    requires Overlaps(e, steps, k, n, since) && 0.0 <= e.config.speechOffThreshold
    ensures OnlyTheUser(e, steps, k, n)
  {
    hide After, Processed, DecisionAt, EffectiveSpeech, Unheard;
    forall j | k < j < n && steps[j].Hear? && HeardAt(e, steps, j, steps[j].t) && Unheard(e, steps[j].o)
      ensures EffectiveSpeech(steps[j].o) <= e.config.speechOffThreshold
    {
      UnheardIsSilence(e, steps[j].o);
    }
  }

  lemma BargeInIsLongEnough(e: Engine, t: nat, sinceUs: nat)
    ensures ElapsedMs(t, sinceUs) >= BargeInCommitMs(e) <==> LongEnough(e, t, sinceUs)
  {
  }

  // A yield follows a duck after which everything heard was the user's, for as long as it takes.
  lemma YieldIsHeard(e: Engine, steps: seq<EngineStep>, n: nat)
    requires e.floor.Listening? && 0.0 <= e.config.speechOffThreshold
    requires n < |steps| && DecisionAt(e, steps, n) == Some(HardYield)
    ensures exists k: nat :: k < n && steps[k].Hear? && OnlyTheUser(e, steps[..n + 1], k, n + 1) &&
              LongEnough(After(e, steps[..n]), steps[n].t, steps[k].t)
  {
    BargeInIsSustained(e, steps, n);
    hide After, Processed, DecisionAt, Overlaps, OnlyTheUser, BargeInCommitMs, LongEnough;
    var k: nat :| k < n && steps[k].Hear? && Overlaps(e, steps[..n + 1], k, n + 1, steps[k].t) &&
      ElapsedMs(steps[n].t, steps[k].t) >= BargeInCommitMs(After(e, steps[..n]));
    OverlapIsUser(e, steps[..n + 1], k, n + 1, steps[k].t);
    BargeInIsLongEnough(After(e, steps[..n]), steps[n].t, steps[k].t);
  }

  // The engine held the floor at step `k`, and nothing it took up to step `n` was plain to hear.
  ghost predicate NothingLoud(e: Engine, steps: seq<EngineStep>, k: nat, n: nat) {
    && k < n <= |steps| && DecisionAt(e, steps, k) == Some(HoldFloor)
    && forall j :: k < j < n && steps[j].Hear? && HeardAt(e, steps, j, steps[j].t) ==>
         !Loud(After(e, steps[..j]), steps[j].o)
  }

  lemma PauseIsQuiet(e: Engine, steps: seq<EngineStep>, k: nat, n: nat, since: nat)
    requires e.floor.Listening? && Pauses(e, steps, k, n, since) && e.config.speechOnThreshold <= 1.0
    ensures NothingLoud(e, steps, k, n)
  {
    hide Processed, DecisionAt, EffectiveSpeech, OnThreshold, Loud, Stepped;
    forall j | k < j < n && steps[j].Hear? && HeardAt(e, steps, j, steps[j].t)
      ensures !Loud(After(e, steps[..j]), steps[j].o)
    {
      DuckedOverlaps(e, steps[..j]);
      QuietIsNotLoud(After(e, steps[..j]), steps[j].o);
    }
  }

  // A response follows a hold after which nothing was plain to hear.
  lemma ResponseIsUninterrupted(e: Engine, steps: seq<EngineStep>, n: nat)
    requires e.floor.Listening? && e.config.speechOnThreshold <= 1.0
    requires n < |steps| && DecisionAt(e, steps, n) == Some(StartResponse)
    ensures exists k: nat :: k < n && steps[k].Hear? && NothingLoud(e, steps[..n + 1], k, n + 1) &&
              ElapsedMs(steps[n].t, steps[k].t) >= After(e, steps[..n]).profile.pauseToleranceMs
  {
    ResponseNeedsPause(e, steps, n);
    hide After, Processed, DecisionAt, Pauses, NothingLoud;
    var k: nat :| k < n && steps[k].Hear? && Pauses(e, steps[..n + 1], k, n + 1, steps[k].t) &&
      ElapsedMs(steps[n].t, steps[k].t) >= After(e, steps[..n]).profile.pauseToleranceMs;
    PauseIsQuiet(e, steps[..n + 1], k, n + 1, steps[k].t);
  }

  lemma QuietIsNotLoud(e: Engine, o: Signals)
    requires e.config.speechOnThreshold <= 1.0 && EffectiveSpeech(o) < OnThreshold(e)
    ensures !Loud(e, o)
  {
    hide EffectiveSpeech, OnThreshold;
    if e.config.speechOnThreshold <= 1.0 && Loud(e, o) {
      LoudIsSpeech(e, o);
    }
  }

  // ---------- the assistant's part of the floor ----------

  // A response that starts takes the floor whoever has it; its completion frees the floor exactly if the
  // assistant still has it for that response.
  lemma ResponseHoldsFloor(e: Engine, g: Id, h: Id)
    ensures Stepped(e, Start(g)) == e.(floor := AssistantSpeaking(g))
    ensures var after := Stepped(e, EngineStep.Complete(h));
            match e.floor
            case AssistantSpeaking(active) => after == if active == h then e.(floor := Listening) else e
            case SoftDucked(active, _) => after == if active == h then e.(floor := Listening) else e
            case _ => after == e
  {
  }

  // So speech after the completion of a response is listened to and interrupts nothing.
  lemma SpeechAfterResponse(e: Engine, g: Id, t: nat, o: Signals)
    requires Sane(e) && e.config.speechOnThreshold <= 1.0 && Loud(e, o) && e.lastMediaTimeUs <= t
    ensures var after := Stepped(Stepped(e, Start(g)), EngineStep.Complete(g));
            Processed(after, t, o).0 == Some([Listen]) && Processed(after, t, o).1.floor == UserSpeaking(t)
  {
    ResponseHoldsFloor(e, g, g);
    ResponseHoldsFloor(Stepped(e, Start(g)), g, g);
    LoudIsHeard(Stepped(Stepped(e, Start(g)), EngineStep.Complete(g)), t, o);
    hide EffectiveSpeech, OnThreshold, Processed;
  }

  // ---------- the turn over runs ----------

  predicate TurnBegins(e: Engine, steps: seq<EngineStep>, j: nat, since: nat) {
    HeardAt(e, steps, j, since) &&
    (DecisionAt(e, steps, j) == Some(Listen) || DecisionAt(e, steps, j) == Some(Replan))
  }

  function SpeechSince(floor: FloorState): Option<nat> {
    match floor
    case UserSpeaking(since) => Some(since)
    case UserPause(since, _) => Some(since)
    case _ => None
  }

  lemma TurnStep(e: Engine, step: EngineStep)
    requires SpeechSince(Stepped(e, step).floor).Some?
    ensures SpeechSince(Stepped(e, step).floor) == SpeechSince(e.floor) ||
            (step.Hear? && e.lastMediaTimeUs <= step.t && SpeechSince(Stepped(e, step).floor) == Some(step.t) &&
             (Processed(e, step.t, step.o).0 == Some([Listen]) || Processed(e, step.t, step.o).0 == Some([Replan])))
  {
    hide EffectiveSpeech, OnThreshold;
  }

  lemma {:induction false} TurnBegan(e: Engine, steps: seq<EngineStep>)
    requires e.floor.Listening?
    ensures var since := SpeechSince(After(e, steps).floor);
            since.Some? ==> exists j: nat :: TurnBegins(e, steps, j, since.value)
  {
    hide Processed, Stepped;
    if steps != [] {
      var front, last := steps[..|steps| - 1], steps[|steps| - 1];
      TurnBegan(e, front);
      var before, after := After(e, front), After(e, steps);
      if SpeechSince(after.floor).Some? {
        TurnStep(before, last);
        if SpeechSince(after.floor) == SpeechSince(before.floor) {
          var j: nat :| TurnBegins(e, front, j, SpeechSince(before.floor).value);
          assert front[..j] == steps[..j];
          assert TurnBegins(e, steps, j, SpeechSince(after.floor).value);
        } else {
          assert TurnBegins(e, steps, |front|, last.t);
        }
      }
    }
  }

  // A response is started only to a turn that had lasted, when the pause began, as long as a turn must.
  lemma ResponseNeedsTurn(e: Engine, steps: seq<EngineStep>, n: nat)
    requires e.floor.Listening? && n < |steps| && DecisionAt(e, steps, n) == Some(StartResponse)
    ensures exists j: nat, k: nat :: j < n && k < n && steps[j].Hear? && steps[k].Hear? &&
              TurnBegins(e, steps[..n], j, steps[j].t) && Pauses(e, steps[..n], k, n, steps[k].t) &&
              ElapsedMs(steps[k].t, steps[j].t) >= e.config.minimumUserTurnMs
  {
    var front := steps[..n];
    var before := After(e, front);
    AnswersLate(before, steps[n].t, steps[n].o);
    DuckedOverlaps(e, front);
    TurnBegan(e, front);
    PausedSince(e, front);
    hide After, Processed, DecisionAt, OnThreshold, EffectiveSpeech;
    var j: nat :| TurnBegins(e, front, j, before.floor.speechSinceUs);
    var k: nat :| Pauses(e, front, k, n, before.floor.silenceSinceUs);
    assert front[j] == steps[j] && front[k] == steps[k];
  }

  // ---------- backchannels over runs ----------

  lemma BackchannelsWhen(e: Engine, t: nat, o: Signals)
    requires Processed(e, t, o).0 == Some([Backchannel])
    ensures e.lastMediaTimeUs <= t && Processed(e, t, o).1.lastBackchannelUs == Some(t)
    ensures e.profile.backchannels != Off && o.completion < e.config.turnCommitThreshold
    ensures e.floor.UserSpeaking? && ElapsedMs(t, e.floor.sinceUs) >= e.config.backchannelAfterMs
    ensures e.lastBackchannelUs.Some? ==>
              ElapsedMs(t, e.lastBackchannelUs.value) >= e.config.backchannelSpacingMs
  {
    hide EffectiveSpeech, OnThreshold;
  }

  lemma OtherStepsKeep(e: Engine, step: EngineStep)
    ensures Stepped(e, step).lastMediaTimeUs >= e.lastMediaTimeUs
    ensures Stepped(e, step).lastBackchannelUs == e.lastBackchannelUs ||
            (step.Hear? && Processed(e, step.t, step.o).0 == Some([Backchannel]))
  {
    hide EffectiveSpeech, OnThreshold;
  }

  lemma {:induction false} LastIsLatest(e: Engine, steps: seq<EngineStep>)
    requires e.lastBackchannelUs.None?
    ensures var after := After(e, steps);
            && (after.lastBackchannelUs.Some? ==> after.lastBackchannelUs.value <= after.lastMediaTimeUs)
            && forall i :: 0 <= i < |steps| && DecisionAt(e, steps, i) == Some(Backchannel) ==>
                 after.lastBackchannelUs.Some? && steps[i].t <= after.lastBackchannelUs.value
  {
    hide Processed, Stepped;
    if steps != [] {
      var front, last := steps[..|steps| - 1], steps[|steps| - 1];
      var before, after := After(e, front), After(e, steps);
      LastIsLatest(e, front);
      OtherStepsKeep(before, last);
      LatestStep(before, last);
      forall i | 0 <= i < |steps| && DecisionAt(e, steps, i) == Some(Backchannel)
        ensures after.lastBackchannelUs.Some? && steps[i].t <= after.lastBackchannelUs.value
      {
        assert steps[..i] == if i < |front| then front[..i] else front;
        if i < |front| {
          assert DecisionAt(e, front, i) == Some(Backchannel);
        }
      }
    }
  }

  lemma LatestStep(e: Engine, step: EngineStep)
    ensures step.Hear? && Processed(e, step.t, step.o).0.Some? && |Processed(e, step.t, step.o).0.value| > 0 &&
            Processed(e, step.t, step.o).0.value[0] == Backchannel ==>
              Stepped(e, step).lastBackchannelUs == Some(step.t) && Stepped(e, step).lastMediaTimeUs == step.t &&
              e.lastMediaTimeUs <= step.t
  {
    hide EffectiveSpeech, OnThreshold;
  }

  // Two backchannels of one run are spaced as configured, and each comes when they are wanted, to an
  // unfinished turn that has gone on long enough.
  lemma BackchannelsAreSpaced(e: Engine, steps: seq<EngineStep>, i: nat, n: nat)
    requires e.floor.Listening? && e.lastBackchannelUs.None? && i < n < |steps|
    requires DecisionAt(e, steps, i) == Some(Backchannel) && DecisionAt(e, steps, n) == Some(Backchannel)
    ensures ElapsedMs(steps[n].t, steps[i].t) >= e.config.backchannelSpacingMs
    ensures After(e, steps[..n]).profile.backchannels != Off
    ensures steps[n].o.completion < e.config.turnCommitThreshold
    ensures exists j: nat :: j < n && steps[j].Hear? && TurnBegins(e, steps[..n], j, steps[j].t) &&
              ElapsedMs(steps[n].t, steps[j].t) >= e.config.backchannelAfterMs
  {
    var front := steps[..n];
    var before := After(e, front);
    BackchannelsWhen(before, steps[n].t, steps[n].o);
    DuckedOverlaps(e, front);
    TurnBegan(e, front);
    LastIsLatest(e, front);
    assert front[..i] == steps[..i];
    assert DecisionAt(e, front, i) == Some(Backchannel);
    hide After, Processed, DecisionAt, OnThreshold, EffectiveSpeech;
    Sooner(steps[n].t, steps[i].t, before.lastBackchannelUs.value);
    var j: nat :| TurnBegins(e, front, j, before.floor.sinceUs);
    assert front[j] == steps[j];
  }

  lemma Sooner(t: nat, early: nat, late: nat)
    requires early <= late <= t
    ensures ElapsedMs(t, early) >= ElapsedMs(t, late)
  {
  }
}
