// The endpointing tracker: when silence after speech is long enough to answer, in exact rational
// arithmetic.
module Endpointing {
  import opened Protocol

  // One analysed frame; the semantic score says how complete the utterance sounds, if known.
  datatype Frame = Frame(timeUs: nat, durationMs: nat, speech: real, rms: real, semantic: Option<real>)

  datatype Tracker = Tracker(
    speechStarted: Option<nat>, silenceStarted: Option<nat>, speechMs: nat, silenceMs: nat,
    previousRms: real, fallingFrames: nat)

  const FRESH_TRACKER := Tracker(None, None, 0, 0, 0.0, 0)

  datatype Prediction = Prediction(speechMs: nat, silenceMs: nat, completion: real, finality: real, respond: bool)

  const SPEECH_THRESHOLD: real := 0.62
  const MAX_FALLING: nat := 12

  function Min32(n: nat): (m: nat)
    ensures m == n || n > U32_MAX == m
  {
    if n > U32_MAX then U32_MAX else n
  }

  function Clamp01(x: real): (c: real)
    ensures 0.0 <= c <= 1.0 && (0.0 <= x <= 1.0 ==> c == x)
  {
    if x < 0.0 then 0.0 else if x > 1.0 then 1.0 else x
  }

  function SaturatingSub(a: nat, b: nat): nat {
    if a < b then 0 else a - b
  }

  predicate Speaks(f: Frame) {
    f.speech >= SPEECH_THRESHOLD
  }

  function EnergyShaped(t: Tracker, rms: real): Tracker {
    var falling :=
      if rms < t.previousRms * 0.82 then
        if t.fallingFrames + 1 > MAX_FALLING then MAX_FALLING else t.fallingFrames + 1
      else if rms > t.previousRms * 1.12 then SaturatingSub(t.fallingFrames, 1)
      else t.fallingFrames;
    t.(fallingFrames := falling, previousRms := rms)
  }

  function SilenceScore(t: Tracker): real {
    Clamp01(t.silenceMs as real / 320.0)
  }

  function DurationScore(t: Tracker): real {
    Clamp01(t.speechMs as real / 500.0)
  }

  function FallScore(t: Tracker): real {
    Clamp01(t.fallingFrames as real / 5.0)
  }

  // A weighted sum of the two scores on top of a bonus.
  function Mix(silence: real, silenceWeight: real, bonus: real, duration: real, durationWeight: real): real {
    silence * silenceWeight + bonus + duration * durationWeight
  }

  function Completion(t: Tracker, semantic: Option<real>): real {
    match semantic
    case Some(sem) =>
      var weight := if sem >= 0.8 then 0.4 else 0.68;
      Clamp01(Mix(SilenceScore(t), weight, sem * 0.42, DurationScore(t), 1.0 - weight))
    case None => Clamp01(SilenceScore(t) * 0.7 + DurationScore(t) * 0.3)
  }

  function Finality(t: Tracker): real {
    Clamp01(SilenceScore(t) * 0.55 + FallScore(t) * 0.45)
  }

  predicate Responds(t: Tracker, semantic: Option<real>) {
    match semantic
    case Some(sem) =>
      (Completion(t, semantic) >= 0.68 && Finality(t) >= 0.48) ||
      (sem >= 0.85 && t.silenceMs >= 140) || (sem >= 0.95 && t.silenceMs >= 80)
    case None => Completion(t, semantic) >= 0.7 && Finality(t) >= 0.5
  }

  function Predicted(t: Tracker, semantic: Option<real>): Prediction {
    Prediction(t.speechMs, t.silenceMs, Completion(t, semantic), Finality(t), Responds(t, semantic))
  }

  function Observed(t: Tracker, f: Frame): Tracker {
    if Speaks(f) then
      EnergyShaped(t.(speechStarted := if t.speechStarted.Some? then t.speechStarted else Some(f.timeUs),
                      silenceStarted := None, silenceMs := 0, speechMs := Min32(t.speechMs + f.durationMs)), f.rms)
    else if t.speechStarted.None? then t.(previousRms := f.rms)
    else
      var start := if t.silenceStarted.Some? then t.silenceStarted.value else f.timeUs;
      EnergyShaped(t.(silenceStarted := Some(start), silenceMs := Min32(SaturatingSub(f.timeUs, start) / 1000)), f.rms)
  }

  function PredictionFor(t: Tracker, f: Frame): Prediction {
    if Speaks(f) then Prediction(Observed(t, f).speechMs, 0, 0.1, 0.1, false)
    else if t.speechStarted.None? then Prediction(0, 0, 0.0, 0.0, false)
    else Predicted(Observed(t, f), f.semantic)
  }

  class EndpointingTracker {
    var speechStarted: Option<nat>
    var silenceStarted: Option<nat>
    var speechMs: nat
    var silenceMs: nat
    var previousRms: real
    var fallingFrames: nat

    ghost function State(): Tracker
      reads this
    {
      Tracker(speechStarted, silenceStarted, speechMs, silenceMs, previousRms, fallingFrames)
    }

    constructor ()
      ensures State() == FRESH_TRACKER
    {
      speechStarted, silenceStarted, speechMs, silenceMs := None, None, 0, 0;
      previousRms, fallingFrames := 0.0, 0;
    }

    method Reset()
      modifies this
      ensures State() == FRESH_TRACKER
    {
      speechStarted, silenceStarted, speechMs, silenceMs := None, None, 0, 0;
      previousRms, fallingFrames := 0.0, 0;
    }

    method UpdateEnergyShape(rms: real)
      modifies this`previousRms, this`fallingFrames
      ensures State() == EnergyShaped(old(State()), rms)
    {
      if rms < previousRms * 0.82 {
        fallingFrames := if fallingFrames + 1 > MAX_FALLING then MAX_FALLING else fallingFrames + 1;
      } else if rms > previousRms * 1.12 {
        fallingFrames := SaturatingSub(fallingFrames, 1);
      }
      previousRms := rms;
    }

    method ObserveWithSemantic(f: Frame) returns (p: Prediction)
      modifies this
      ensures State() == Observed(old(State()), f) && p == PredictionFor(old(State()), f)
    {
      if f.speech >= SPEECH_THRESHOLD {
        if speechStarted.None? {
          speechStarted := Some(f.timeUs);
        }
        silenceStarted := None;
        silenceMs := 0;
        speechMs := Min32(speechMs + f.durationMs);
        UpdateEnergyShape(f.rms);
        return Prediction(speechMs, 0, 0.1, 0.1, false);
      }
      if speechStarted.None? {
        previousRms := f.rms;
        return Prediction(0, 0, 0.0, 0.0, false);
      }
      if silenceStarted.None? {
        silenceStarted := Some(f.timeUs);
      }
      silenceMs := Min32(SaturatingSub(f.timeUs, silenceStarted.value) / 1000);
      UpdateEnergyShape(f.rms);
      p := FinalityPrediction(f.semantic);
    }

    method FinalityPrediction(semantic: Option<real>) returns (p: Prediction)
      ensures p == Predicted(State(), semantic)
    {
      hide Mix, Clamp01;
      var silenceScore := Clamp01(silenceMs as real / 320.0);
      var durationScore := Clamp01(speechMs as real / 500.0);
      var fallScore := Clamp01(fallingFrames as real / 5.0);
      var completion: real;
      match semantic {
        case Some(sem) =>
          var silenceWeight := if sem >= 0.8 then 0.4 else 0.68;
          var durationWeight := 1.0 - silenceWeight;
          completion := Clamp01(Mix(silenceScore, silenceWeight, sem * 0.42, durationScore, durationWeight));
        case None =>
          completion := Clamp01(silenceScore * 0.7 + durationScore * 0.3);
      }
      var finality := Clamp01(silenceScore * 0.55 + fallScore * 0.45);
      var respond: bool;
      match semantic {
        case Some(sem) =>
          respond := (completion >= 0.68 && finality >= 0.48) ||
          (sem >= 0.85 && silenceMs >= 140) || (sem >= 0.95 && silenceMs >= 80);
        case None =>
          respond := completion >= 0.7 && finality >= 0.5;
      }
      p := Prediction(speechMs, silenceMs, completion, finality, respond);
    }
  }

  // ---------- runs since a reset ----------

  function After(frames: seq<Frame>): Tracker {
    if frames == [] then FRESH_TRACKER
    else Observed(After(frames[..|frames| - 1]), frames[|frames| - 1])
  }

  // The position of the last frame of speech, or -1.
  function LastSpeech(frames: seq<Frame>): (k: int)
    ensures -1 <= k < |frames|
    ensures k >= 0 ==> Speaks(frames[k])
    ensures forall i :: k < i < |frames| ==> !Speaks(frames[i])
  {
    if frames == [] then -1
    else if Speaks(frames[|frames| - 1]) then |frames| - 1
    else LastSpeech(frames[..|frames| - 1])
  }

  // The frames end in silence after speech.
  predicate InSilence(frames: seq<Frame>) {
    0 <= LastSpeech(frames) < |frames| - 1
  }

  // How long the silence has lasted: from the first silent frame after the last speech to the last
  // frame; nothing if the clock went back.
  function SilentUs(frames: seq<Frame>): nat
    requires InSilence(frames)
  {
    SaturatingSub(frames[|frames| - 1].timeUs, frames[LastSpeech(frames) + 1].timeUs)
  }

  function SpokenMs(frames: seq<Frame>): nat {
    if frames == [] then 0
    else
      var last := frames[|frames| - 1];
      SpokenMs(frames[..|frames| - 1]) + if Speaks(last) then last.durationMs else 0
  }

  // What the tracker's fields mean.
  lemma {:induction false} TrackerMeans(frames: seq<Frame>)
    ensures var t := After(frames);
            && (t.speechStarted.Some? <==> LastSpeech(frames) >= 0)
            && t.speechMs == Min32(SpokenMs(frames))
            && (t.silenceStarted.Some? <==> InSilence(frames))
            && (InSilence(frames) ==>
                  t.silenceStarted.value == frames[LastSpeech(frames) + 1].timeUs &&
                  t.silenceMs == Min32(SilentUs(frames) / 1000))
  {
    if frames != [] {
      var front := frames[..|frames| - 1];
      TrackerMeans(front);
      assert front == [] ==> LastSpeech(front) == -1;
    }
  }

  // The answer given to the last frame of a run.
  function Answer(frames: seq<Frame>): Prediction
    requires frames != []
  {
    PredictionFor(After(frames[..|frames| - 1]), frames[|frames| - 1])
  }

  lemma AnswerIs(frames: seq<Frame>)
    requires frames != []
    ensures InSilence(frames) ==> Answer(frames) == Predicted(After(frames), frames[|frames| - 1].semantic)
    ensures !InSilence(frames) ==> !Answer(frames).respond
  {
    var front := frames[..|frames| - 1];
    TrackerMeans(front);
    TrackerMeans(frames);
    hide EnergyShaped, Predicted;
  }

  // A response needs a silence at least this long, whatever the energy and the speech before it.
  lemma ResponseNeedsSilence(t: Tracker, semantic: Option<real>)
    requires semantic.Some? ==> 0.0 <= semantic.value <= 1.0
    requires Responds(t, semantic)
    ensures t.silenceMs >= if semantic.Some? then 18 else 183
  {
    var s, d, e := SilenceScore(t), DurationScore(t), FallScore(t);
    if semantic.None? {
      assert s * 0.7 + d * 0.3 >= 0.7;
      assert s >= 4.0 / 7.0;
    } else if t.silenceMs < 80 {
      assert s * 0.55 + e * 0.45 >= 0.48;
      assert s >= 3.0 / 55.0;
    }
  }

  lemma LongSilenceResponds(t: Tracker, semantic: Option<real>)
    requires semantic.Some? ==> 0.0 <= semantic.value <= 1.0
    requires t.silenceMs >= 320
    ensures Responds(t, semantic)
  {
    var s, d, e := SilenceScore(t), DurationScore(t), FallScore(t);
    assert s == 1.0;
    if semantic.Some? {
      var sem := semantic.value;
      if sem >= 0.8 {
        assert s * 0.4 + sem * 0.42 + d * (1.0 - 0.4) >= 0.68;
      } else {
        assert s * 0.68 + sem * 0.42 + d * (1.0 - 0.68) >= 0.68;
      }
    }
  }

  predicate ScoresValid(frames: seq<Frame>) {
    forall f :: f in frames && f.semantic.Some? ==> 0.0 <= f.semantic.value <= 1.0
  }

  // In every run since a reset: a response is given only in a silence after speech, and only when it
  // has lasted 183 ms, or 18 ms with a semantic score; and a silence of 320 ms always gets one.
  lemma EndpointingWindow(frames: seq<Frame>)
    requires frames != [] && ScoresValid(frames)
    ensures var semantic := frames[|frames| - 1].semantic;
            && (Answer(frames).respond ==>
                  InSilence(frames) && SilentUs(frames) >= if semantic.Some? then 18_000 else 183_000)
            && (InSilence(frames) && SilentUs(frames) >= 320_000 ==> Answer(frames).respond)
  {
    AnswerIs(frames);
    TrackerMeans(frames);
    var t, semantic := After(frames), frames[|frames| - 1].semantic;
    assert frames[|frames| - 1] in frames;
    hide Responds, After, Answer, LastSpeech, InSilence;
    if InSilence(frames) {
      if Responds(t, semantic) {
        ResponseNeedsSilence(t, semantic);
      }
      if t.silenceMs >= 320 {
        LongSilenceResponds(t, semantic);
      }
    }
  }

  // ---------- shortcuts and falling energy over runs ----------

  // Words that sound complete cut the wait short: 140 ms of silence at a score of 0.85, 80 ms at 0.95.
  predicate CutShort(silentUs: nat, semantic: Option<real>) {
    semantic.Some? &&
    ((semantic.value >= 0.85 && silentUs >= 140_000) || (semantic.value >= 0.95 && silentUs >= 80_000))
  }

  lemma ShortcutResponds(frames: seq<Frame>)
    requires frames != [] && InSilence(frames) && CutShort(SilentUs(frames), frames[|frames| - 1].semantic)
    ensures Answer(frames).respond
  {
    AnswerIs(frames);
    TrackerMeans(frames);
    hide After, Answer, LastSpeech, InSilence, Completion, Finality;
  }

  // Falls and rises of the loudness while a turn is on: 18 hundredths down, or 12 up, on the frame before.
  function Falls(frames: seq<Frame>): nat {
    if frames == [] then 0
    else
      var front, last := frames[..|frames| - 1], frames[|frames| - 1];
      Falls(front) + if front != [] && LastSpeech(frames) >= 0 && last.rms < front[|front| - 1].rms * 0.82 then 1 else 0
  }

  function Rises(frames: seq<Frame>): nat {
    if frames == [] then 0
    else
      var front, last := frames[..|frames| - 1], frames[|frames| - 1];
      Rises(front) + if front != [] && LastSpeech(frames) >= 0 && last.rms > front[|front| - 1].rms * 1.12 then 1 else 0
  }

  predicate Audible(frames: seq<Frame>) {
    forall f :: f in frames ==> f.rms >= 0.0
  }

  // The count of falling frames is at most the falls, twelve at most, and short of them by no more than
  // the rises.
  lemma {:induction false} FallingCounts(frames: seq<Frame>)
    requires Audible(frames)
    ensures var t := After(frames);
            var falls := if Falls(frames) < 12 then Falls(frames) else 12;
            && t.fallingFrames <= falls <= t.fallingFrames + Rises(frames)
            && (frames != [] ==> t.previousRms == frames[|frames| - 1].rms)
  {
    if frames != [] {
      var front, last := frames[..|frames| - 1], frames[|frames| - 1];
      FallingCounts(front);
      TrackerMeans(front);
      TrackerMeans(frames);
      assert last in frames;
      hide LastSpeech;
    }
  }

  // Silence and falls together must come to this much before anything but a shortcut is answered.
  predicate Enough(silentMs: nat, falls: nat, semantic: Option<real>) {
    55 * silentMs + 2_880 * falls >= if semantic.Some? then 15_360 else 16_000
  }

  lemma FinalityTakes(t: Tracker, semantic: Option<real>)
    requires Finality(t) >= if semantic.Some? then 0.48 else 0.5
    ensures Enough(t.silenceMs, t.fallingFrames, semantic)
  {
    assert t.silenceMs as real / 320.0 * 0.55 + t.fallingFrames as real / 5.0 * 0.45 >= Finality(t);
  }

  lemma RespondsTakes(t: Tracker, semantic: Option<real>)
    requires Responds(t, semantic)
    ensures Enough(t.silenceMs, t.fallingFrames, semantic) ||
            (semantic.Some? && ((semantic.value >= 0.85 && t.silenceMs >= 140) ||
                                (semantic.value >= 0.95 && t.silenceMs >= 80)))
  {
    hide Completion, Finality, Enough;
    if Finality(t) >= if semantic.Some? then 0.48 else 0.5 {
      FinalityTakes(t, semantic);
    }
  }

  // Without a shortcut an answer takes enough silence and falling energy: with no falls at all, 280 ms of
  // silence when there is a semantic score and 291 ms when there is none.
  lemma AnswerNeedsFalls(frames: seq<Frame>)
    requires frames != [] && Audible(frames) && Answer(frames).respond
    ensures var semantic := frames[|frames| - 1].semantic;
            InSilence(frames) &&
            (CutShort(SilentUs(frames), semantic) || Enough(SilentUs(frames) / 1000, Falls(frames), semantic))
    ensures var semantic := frames[|frames| - 1].semantic;
            Falls(frames) == 0 && !CutShort(SilentUs(frames), semantic) ==>
              SilentUs(frames) / 1000 >= if semantic.Some? then 280 else 291
  {
    var t, semantic := After(frames), frames[|frames| - 1].semantic;
    AnswerIs(frames);
    TrackerMeans(frames);
    FallingCounts(frames);
    hide After, Answer, LastSpeech, Falls, Responds;
    RespondsTakes(t, semantic);
  }

  // ---------- the bounds are met by runs ----------

  // Half a second of speech that halves in loudness with every frame, and then silence of the given
  // length, looked at twice.
  function Voice(k: nat, rms: real): Frame {
    Frame(k * 100_000, 100, 1.0, rms, None)
  }

  function Hush(timeUs: nat, semantic: Option<real>): Frame {
    Frame(timeUs, 100, 0.0, 0.03, semantic)
  }

  function DyingAway(): seq<Frame> {
    [Voice(0, 1.0), Voice(1, 0.5), Voice(2, 0.25), Voice(3, 0.125), Voice(4, 0.0625)]
  }

  function SilenceOf(lengthUs: nat, semantic: Option<real>): seq<Frame> {
    DyingAway() + [Hush(500_000, semantic)] + [Hush(500_000 + lengthUs, semantic)]
  }

  lemma AfterMore(frames: seq<Frame>, f: Frame)
    ensures After(frames + [f]) == Observed(After(frames), f)
    ensures LastSpeech(frames + [f]) == if Speaks(f) then |frames| else LastSpeech(frames)
  {
    assert (frames + [f])[..|frames|] == frames;
  }

  lemma AfterSpeech()
    ensures After(DyingAway()) == Tracker(Some(0), None, 500, 0, 0.0625, 4) && LastSpeech(DyingAway()) == 4
  {
    assert After([]) == FRESH_TRACKER && LastSpeech([]) == -1;
    hide After, LastSpeech;
    var one := [Voice(0, 1.0)];
    var two := one + [Voice(1, 0.5)];
    var three := two + [Voice(2, 0.25)];
    var four := three + [Voice(3, 0.125)];
    AfterMore([], Voice(0, 1.0));
    assert [] + one == one && After(one) == Tracker(Some(0), None, 100, 0, 1.0, 0);
    AfterMore(one, Voice(1, 0.5));
    assert After(two) == Tracker(Some(0), None, 200, 0, 0.5, 1);
    AfterMore(two, Voice(2, 0.25));
    assert After(three) == Tracker(Some(0), None, 300, 0, 0.25, 2);
    AfterMore(three, Voice(3, 0.125));
    assert After(four) == Tracker(Some(0), None, 400, 0, 0.125, 3);
    AfterMore(four, Voice(4, 0.0625));
    assert DyingAway() == four + [Voice(4, 0.0625)];
  }

  lemma SilenceIs(lengthUs: nat, semantic: Option<real>)
    requires lengthUs / 1000 <= U32_MAX
    ensures var frames := SilenceOf(lengthUs, semantic);
            && InSilence(frames) && SilentUs(frames) == lengthUs
            && Answer(frames).respond == Responds(Tracker(Some(0), Some(500_000), 500, lengthUs / 1000, 0.03, 5),
                                                  semantic)
  {
    var first := DyingAway() + [Hush(500_000, semantic)];
    var frames := SilenceOf(lengthUs, semantic);
    AfterSpeech();
    AfterMore(DyingAway(), Hush(500_000, semantic));
    AfterMore(first, Hush(500_000 + lengthUs, semantic));
    AnswerIs(frames);
    hide After, LastSpeech, Answer, Responds;
    assert frames[5] == Hush(500_000, semantic) && frames[6] == Hush(500_000 + lengthUs, semantic) && |frames| == 7;
    assert After(first) == Tracker(Some(0), Some(500_000), 500, 0, 0.03, 5);
  }

  lemma JustEnough()
    ensures Responds(Tracker(Some(0), Some(500_000), 500, 183, 0.03, 5), None)
    ensures Responds(Tracker(Some(0), Some(500_000), 500, 18, 0.03, 5), Some(1.0))
  {
  }

  // Both lower bounds are met by runs: a silence of exactly 183 ms is answered, and one of exactly
  // 18 ms whose words sound complete.
  lemma BoundsAreTight()
    ensures var frames := SilenceOf(183_000, None);
            ScoresValid(frames) && InSilence(frames) && SilentUs(frames) == 183_000 && Answer(frames).respond
    ensures var frames := SilenceOf(18_000, Some(1.0));
            ScoresValid(frames) && InSilence(frames) && SilentUs(frames) == 18_000 && Answer(frames).respond
  {
    hide After, LastSpeech, Answer, Responds, SilentUs, InSilence;
    SilenceIs(183_000, None);
    SilenceIs(18_000, Some(1.0));
    JustEnough();
  }
}
