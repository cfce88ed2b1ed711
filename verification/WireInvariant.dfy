// What stays true of the two channels: sequence numbers and event ids only grow, tags name drawn
// ids, and every committed response is closed before the next one is committed.
module WireInvariant {
  import opened Protocol
  import opened AnswerLease
  import opened Session

  // ---------- reading one log entry ----------

  // An entry that carries a number handed out for it: everything to the client except replays.
  predicate Numbered(e: Entry) {
    e.ToClient? && !(e.message.RawText? && e.message.replay)
  }

  function SequenceOf(e: Entry): nat
    requires e.ToClient?
  {
    match e.message
    case Control(envelope) => envelope.sequence
    case RawText(envelope, _) => envelope.sequence
    case Media(sequence, _, _) => sequence
  }

  // A freshly built envelope (not a replay, not a media packet).
  predicate Enveloped(e: Entry) {
    Numbered(e) && !e.message.Media?
  }

  function EventIdOf(e: Entry): Id
    requires Enveloped(e)
  {
    e.message.envelope.eventId
  }

  // The generation an entry to the client speaks for.
  function Tag(e: Entry): Option<Id> {
    match e
    case ToProvider(_) => None
    case ToClient(m) =>
      match m
      case Control(envelope) => envelope.generation
      case RawText(envelope, _) => envelope.generation
      case Media(_, _, g) => Some(g)
  }

  predicate IsCommit(e: Entry) {
    e.ToProvider? && e.input.CommitResponse?
  }

  // An entry that ends generation `g`: its cancellation, or its accepted completion.
  predicate Closes(e: Entry, g: Id) {
    e == ToProvider(CancelGeneration(g)) || IsCompletion(e, g)
  }

  predicate IsCompletion(e: Entry, g: Id) {
    e.ToClient? && e.message.Control? && e.message.envelope.generation == Some(g) &&
    e.message.envelope.event == ProviderState(Complete)
  }

  // ---------- the wire ----------

  // A copy sent out of the resume buffer.
  predicate IsReplay(e: Entry) {
    e.ToClient? && e.message.RawText? && e.message.replay
  }

  predicate OriginalOf(e: Entry, replay: Entry) {
    IsReplay(replay) && e == ToClient(RawText(replay.message.envelope, false))
  }

  // Every replayed entry was sent before as a ledger entry.
  ghost predicate ReplaysOk(log: seq<Entry>) {
    forall j :: 0 <= j < |log| && IsReplay(log[j]) ==> exists i :: 0 <= i < j && OriginalOf(log[i], log[j])
  }

  ghost predicate WireOk(log: seq<Entry>, sequence: nat, minted: nat) {
    && (forall i :: 0 <= i < |log| && Numbered(log[i]) ==> 0 < SequenceOf(log[i]) <= sequence)
    && (sequence < U64_MAX ==>
          ReplaysOk(log) &&
          forall i, j :: 0 <= i < j < |log| && Numbered(log[i]) && Numbered(log[j]) ==>
            SequenceOf(log[i]) < SequenceOf(log[j]))
    && (forall i :: 0 <= i < |log| && Enveloped(log[i]) ==> EventIdOf(log[i]) < minted)
    && (forall i, j :: 0 <= i < j < |log| && Enveloped(log[i]) && Enveloped(log[j]) ==>
          EventIdOf(log[i]) < EventIdOf(log[j]))
    && (forall i :: 0 <= i < |log| && Tag(log[i]).Some? ==> Tag(log[i]).value < minted)
  }

  lemma ReplaysAppend(log: seq<Entry>, e: Entry)
    requires ReplaysOk(log)
    requires IsReplay(e) ==> exists i :: 0 <= i < |log| && OriginalOf(log[i], e)
    ensures ReplaysOk(log + [e])
  {
    var longer := log + [e];
    forall j | 0 <= j < |longer| && IsReplay(longer[j])
      ensures exists i :: 0 <= i < j && OriginalOf(longer[i], longer[j])
    {
      if j < |log| {
        var i :| 0 <= i < j && OriginalOf(log[i], log[j]);
        assert OriginalOf(longer[i], longer[j]);
      } else {
        var i :| 0 <= i < |log| && OriginalOf(log[i], e);
        assert OriginalOf(longer[i], longer[j]);
      }
    }
  }

  lemma WireAppend(log: seq<Entry>, sequence: nat, minted: nat, e: Entry)
    requires WireOk(log, sequence, minted) && sequence <= U64_MAX
    requires Numbered(e) ==> SequenceOf(e) == NextSequence(sequence)
    requires Enveloped(e) ==> EventIdOf(e) == minted
    requires Tag(e).Some? ==> Tag(e).value < minted
    requires IsReplay(e) && sequence < U64_MAX ==> exists i :: 0 <= i < |log| && OriginalOf(log[i], e)
    ensures WireOk(log + [e], NextSequence(sequence), minted + 1)
    ensures !Numbered(e) ==> WireOk(log + [e], sequence, minted)
    ensures !Enveloped(e) ==> WireOk(log + [e], NextSequence(sequence), minted)
  {
    if sequence < U64_MAX {
      ReplaysAppend(log, e);
    }
    hide ReplaysOk;
  }

  // ---------- the provider ----------

  ghost predicate ClosedWithin(log: seq<Entry>, from: nat, to: nat, g: Id)
    requires to <= |log|
  {
    exists k :: from < k < to && Closes(log[k], g)
  }

  ghost predicate ProviderOk(log: seq<Entry>, active: Option<ActiveGeneration>, providerOpen: bool, version: nat,
                             minted: nat) {
    && (forall i :: 0 <= i < |log| && IsCommit(log[i]) ==>
          log[i].input.generation < minted && log[i].input.version <= version)
    && (forall i :: 0 <= i < |log| && IsCommit(log[i]) ==>
          !providerOpen || (active.Some? && active.value.id == log[i].input.generation) ||
          ClosedWithin(log, i, |log|, log[i].input.generation))
    && (forall i, j :: 0 <= i < j < |log| && IsCommit(log[i]) && IsCommit(log[j]) ==>
          log[i].input.generation < log[j].input.generation &&
          log[i].input.version <= log[j].input.version &&
          ClosedWithin(log, i, j, log[i].input.generation))
  }

  lemma ClosedStays(log: seq<Entry>, e: Entry, from: nat, to: nat, g: Id)
    requires to <= |log|
    ensures ClosedWithin(log, from, to, g) ==> ClosedWithin(log + [e], from, to, g)
    ensures ClosedWithin(log, from, |log|, g) ==> ClosedWithin(log + [e], from, |log + [e]|, g)
    ensures Closes(e, g) && from < |log| ==> ClosedWithin(log + [e], from, |log + [e]|, g)
  {
    var longer := log + [e];
    if ClosedWithin(log, from, to, g) {
      var k :| from < k < to && Closes(log[k], g);
      assert Closes(longer[k], g);
    }
    if ClosedWithin(log, from, |log|, g) {
      var k :| from < k < |log| && Closes(log[k], g);
      assert Closes(longer[k], g);
    }
    if Closes(e, g) && from < |log| {
      assert Closes(longer[|log|], g);
    }
  }

  // Anything but a commit may be appended; when it closes `g`, `g` need no longer be active.
  lemma ProviderAppend(log: seq<Entry>, active: Option<ActiveGeneration>, after: Option<ActiveGeneration>,
                       open: bool, version: nat, minted: nat, e: Entry)
    requires ProviderOk(log, active, open, version, minted)
    requires !IsCommit(e)
    requires after == active || (active.Some? && (Closes(e, active.value.id) || !open))
    ensures ProviderOk(log + [e], after, open, version, minted)
  {
    var longer := log + [e];
    forall i | 0 <= i < |longer| && IsCommit(longer[i])
      ensures !open || (after.Some? && after.value.id == longer[i].input.generation) ||
              ClosedWithin(longer, i, |longer|, longer[i].input.generation)
    {
      ClosedStays(log, e, i, |log|, log[i].input.generation);
    }
    forall i, j | 0 <= i < j < |longer| && IsCommit(longer[i]) && IsCommit(longer[j])
      ensures ClosedWithin(longer, i, j, longer[i].input.generation)
    {
      ClosedStays(log, e, i, j, log[i].input.generation);
    }
  }

  // A commit may be appended when nothing else is active.
  lemma ProviderCommit(log: seq<Entry>, active: ActiveGeneration, version: nat, minted: nat, timeUs: nat)
    requires ProviderOk(log, None, true, version, active.id)
    requires active.id < minted
    ensures ProviderOk(log + [ToProvider(CommitResponse(active.id, version, timeUs))], Some(active), true, version,
                       minted)
  {
    var e := ToProvider(CommitResponse(active.id, version, timeUs));
    var longer := log + [e];
    forall i | 0 <= i < |log| && IsCommit(log[i])
      ensures ClosedWithin(longer, i, |log|, log[i].input.generation)
      ensures ClosedWithin(longer, i, |longer|, log[i].input.generation)
    {
      ClosedStays(log, e, i, |log|, log[i].input.generation);
    }
    forall i, j | 0 <= i < j < |log| && IsCommit(log[i]) && IsCommit(log[j])
      ensures ClosedWithin(longer, i, j, log[i].input.generation)
    {
      ClosedStays(log, e, i, j, log[i].input.generation);
    }
  }
}
