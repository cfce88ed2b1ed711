// What the browser's sequence check lets through of everything the gateway sends over one
// connection, replays included.
module ClientReading {
  import opened Protocol
  import opened AnswerLease
  import opened TaskLedger
  import opened Session
  import opened WireInvariant
  import opened LedgerInvariant
  import opened BufferInvariant
  import opened SessionInvariant
  import opened SessionSteps
  import opened SessionTheorems
  import opened Egress

  // ---------- the check ----------

  // The last number seen after reading `numbers`: a rejected number leaves it alone.
  function LastSeen(last: nat, numbers: seq<nat>): nat {
    if numbers == [] then last
    else
      var before := LastSeen(last, numbers[..|numbers| - 1]);
      var n := numbers[|numbers| - 1];
      if n <= before then before else n
  }

  // `observeServerSequence` throws for none of `numbers`.
  predicate AcceptsAll(last: nat, numbers: seq<nat>) {
    numbers == [] ||
    (AcceptsAll(last, numbers[..|numbers| - 1]) && LastSeen(last, numbers[..|numbers| - 1]) < numbers[|numbers| - 1])
  }

  lemma {:induction false} AscendingAccepted(last: nat, numbers: seq<nat>)
    requires StrictlyAscending(numbers)
    ensures AcceptsAll(last, numbers) <==> numbers == [] || last < numbers[0]
    ensures numbers != [] && last < numbers[0] ==> LastSeen(last, numbers) == numbers[|numbers| - 1]
  {
    if numbers != [] {
      AscendingAccepted(last, numbers[..|numbers| - 1]);
    }
  }

  // The number of every message to the client, in the order sent.
  function Numbers(log: seq<Entry>): seq<nat> {
    if log == [] then []
    else
      var e := log[|log| - 1];
      Numbers(log[..|log| - 1]) + if e.ToClient? then [SequenceOf(e)] else []
  }

  ghost predicate NoCopies(log: seq<Entry>) {
    forall e :: e in log ==> !IsReplay(e)
  }

  lemma ReplaysPrefix(log: seq<Entry>, n: nat)
    requires ReplaysOk(log) && n <= |log|
    ensures ReplaysOk(log[..n])
  {
    var prefix := log[..n];
    forall j | 0 <= j < n && IsReplay(prefix[j])
      ensures exists i :: 0 <= i < j && OriginalOf(prefix[i], prefix[j])
    {
      var i :| 0 <= i < j && OriginalOf(log[i], log[j]);
      assert OriginalOf(prefix[i], prefix[j]);
    }
  }

  lemma WirePrefix(log: seq<Entry>, sequence: nat, minted: nat, n: nat)
    requires WireOk(log, sequence, minted) && sequence < U64_MAX && n <= |log|
    ensures WireOk(log[..n], sequence, minted)
  {
    ReplaysPrefix(log, n);
    hide ReplaysOk;
    assert forall i :: 0 <= i < n ==> log[..n][i] == log[i];
  }

  // After reading a log the client has last seen its largest number, the number of a fresh message,
  // and the check threw exactly at the copies.
  ghost predicate ReadWell(log: seq<Entry>) {
    var seen := LastSeen(0, Numbers(log));
    && (forall e :: e in log && e.ToClient? ==> SequenceOf(e) <= seen)
    && (seen == 0 || exists i :: 0 <= i < |log| && Numbered(log[i]) && SequenceOf(log[i]) == seen)
    && (AcceptsAll(0, Numbers(log)) <==> NoCopies(log))
  }

  lemma {:induction false} ReadsLog(log: seq<Entry>, sequence: nat, minted: nat)
    requires WireOk(log, sequence, minted) && sequence < U64_MAX
    ensures ReadWell(log)
  {
    if log != [] {
      var front, last := log[..|log| - 1], log[|log| - 1];
      WirePrefix(log, sequence, minted, |log| - 1);
      ReadsLog(front, sequence, minted);
      ReadsNext(log, sequence, minted);
    }
  }

  lemma ReadsNext(log: seq<Entry>, sequence: nat, minted: nat)
    requires log != [] && WireOk(log, sequence, minted) && sequence < U64_MAX
    requires ReadWell(log[..|log| - 1])
    ensures ReadWell(log)
  {
    hide WireOk, Numbers, LastSeen, AcceptsAll;
    var front, last := log[..|log| - 1], log[|log| - 1];
    var before := LastSeen(0, Numbers(front));
    assert forall e :: e in log <==> e in front || e == last;
    if before != 0 {
      var i :| 0 <= i < |front| && Numbered(front[i]) && SequenceOf(front[i]) == before;
      assert Numbered(log[i]) && SequenceOf(log[i]) == before;
    }
    if last.ToClient? {
      FreshOrCopy(log, sequence, minted, before);
      NumbersNext(log);
      assert Numbered(last) ==> Numbered(log[|log| - 1]);
    } else {
      NumbersSkip(log);
    }
  }

  lemma NumbersSkip(log: seq<Entry>)
    requires log != [] && !log[|log| - 1].ToClient?
    ensures Numbers(log) == Numbers(log[..|log| - 1])
  {
  }

  lemma NumbersNext(log: seq<Entry>)
    requires log != [] && log[|log| - 1].ToClient?
    ensures var before, n := LastSeen(0, Numbers(log[..|log| - 1])), SequenceOf(log[|log| - 1]);
            && LastSeen(0, Numbers(log)) == (if n <= before then before else n)
            && (AcceptsAll(0, Numbers(log)) <==> AcceptsAll(0, Numbers(log[..|log| - 1])) && before < n)
  {
    var numbers := Numbers(log);
    assert numbers[..|numbers| - 1] == Numbers(log[..|log| - 1]);
  }

  // The message after `front` is above everything seen exactly when it is fresh.
  lemma FreshOrCopy(log: seq<Entry>, sequence: nat, minted: nat, before: nat)
    requires log != [] && WireOk(log, sequence, minted) && sequence < U64_MAX && log[|log| - 1].ToClient?
    requires forall e :: e in log[..|log| - 1] && e.ToClient? ==> SequenceOf(e) <= before
    requires before == 0 ||
             exists i :: 0 <= i < |log| - 1 && Numbered(log[i]) && SequenceOf(log[i]) == before
    ensures before < SequenceOf(log[|log| - 1]) <==> !IsReplay(log[|log| - 1])
  {
    var front, last := log[..|log| - 1], log[|log| - 1];
    if IsReplay(last) {
      var i :| 0 <= i < |log| - 1 && OriginalOf(log[i], log[|log| - 1]);
      assert front[i] in front;
    } else {
      assert Numbered(log[|log| - 1]);
    }
  }

  // ---------- which steps send copies ----------

  // A live ledger entry above the cursor: the replay there is not empty.
  ghost predicate Owes(s: SessionState, cursor: nat, nowMs: nat) {
    exists e: Envelope :: e.sequence > cursor && ToClient(RawText(e, false)) in s.log &&
                          e.sequence !in s.tasks.purged && !TooOld(s.tasks, e.sequence, nowMs)
  }

  lemma OwesReplay(s: SessionState, cursor: nat, nowMs: nat)
    requires Inv(s, map[]) && s.sequence < U64_MAX
    ensures Owes(s, cursor, nowMs) <==> Replayed(s.tasks, cursor, nowMs) != []
  {
    hide LedgerOk, WireOk, ProviderOk, Replayed;
    ReplayMembers(s, cursor, nowMs);
    hide BufferOk;
    var replay := Replayed(s.tasks, cursor, nowMs);
    if replay != [] {
      assert replay[0] in replay;
    }
  }

  // A resume asked for at a cursor with a live ledger entry above it.
  ghost predicate Repeats(s: SessionState, input: Input) {
    s.open && input.stimulus.ResumeAsked? && input.stimulus.sameSession &&
    Owes(s, input.stimulus.lastSeen, input.oracle.clockMs)
  }

  lemma SaysNoCopies(s: SessionState, after: SessionState, kinds: set<Kind>)
    requires Says(s, after, kinds) && Duplicate !in kinds && NoCopies(s.log)
    ensures NoCopies(after.log)
  {
    forall i | 0 <= i < |after.log| ensures !IsReplay(after.log[i]) {
      if i < |s.log| {
        assert after.log[i] == s.log[i] && s.log[i] in s.log;
      } else {
        assert KindOf(after.log[i]) in kinds;
      }
    }
  }

  lemma {:induction false} ReplayCopies(s: SessionState, envelopes: seq<Envelope>)
    requires NoCopies(s.log)
    ensures NoCopies(ReplaySent(s, envelopes).log) <==> envelopes == []
    ensures envelopes != [] ==> exists e :: e in ReplaySent(s, envelopes).log && IsReplay(e)
  {
    if envelopes != [] {
      var last := ToClient(RawText(envelopes[|envelopes| - 1], true));
      assert last in ReplaySent(s, envelopes).log && IsReplay(last);
    }
  }

  lemma ResumeCopies(s: SessionState, timeUs: nat, same: bool, lastSeen: nat, clockMs: nat)
    requires NoCopies(s.log)
    ensures NoCopies(ResumeHandled(s, timeUs, same, lastSeen, clockMs).log) <==>
            !same || Replayed(s.tasks, lastSeen, clockMs) == []
  {
    ResumeAdds(s, timeUs, same, lastSeen, clockMs);
    hide Replayed, Purged, Says, NoneAdmitted;
    var after := ResumeHandled(s, timeUs, same, lastSeen, clockMs);
    var replay := Replayed(s.tasks, lastSeen, clockMs);
    if !same || replay == [] {
      hide ResumeHandled;
      SaysNoCopies(s, after, {Note});
    } else {
      var purged := s.(tasks := Purged(s.tasks, lastSeen, clockMs));
      ReplayCopies(purged, replay);
      var e :| e in ReplaySent(purged, replay).log && IsReplay(e);
      assert e in after.log;
    }
  }

  // A step on a log without copies adds one exactly when it answers a resume that is owed something.
  lemma StepCopies(s: SessionState, input: Input)
    requires Inv(s, map[]) && s.sequence < U64_MAX && NoCopies(s.log)
    ensures NoCopies(Step(s, input).log) <==> !Repeats(s, input)
  {
    hide Inv, NoCopies, Owes, Replayed;
    if s.open && input.stimulus.ResumeAsked? {
      hide ResumeHandled;
      OwesReplay(s, input.stimulus.lastSeen, input.oracle.clockMs);
      ResumeCopies(s, input.stimulus.timeUs, input.stimulus.sameSession, input.stimulus.lastSeen, input.oracle.clockMs);
    } else if s.open {
      StepAdds(s, input);
      hide Step;
      SaysNoCopies(s, Step(s, input), StepKinds(input.stimulus));
    }
  }

  lemma StepGrows(s: SessionState, input: Input)
    requires Inv(s, map[])
    ensures s.sequence <= Step(s, input).sequence
    ensures NoCopies(Step(s, input).log) ==> NoCopies(s.log)
  {
    StepOk(s, input, 0);
    hide Inv, Step, TasksKept;
    assert forall e :: e in s.log ==> e in Step(s, input).log;
  }

  // No resume of the run was owed anything when it was asked for.
  ghost predicate NoneRepeats(config: Config, inputs: seq<Input>) {
    forall k :: 0 <= k < |inputs| ==> !Repeats(Run(config, inputs[..k]), inputs[k])
  }

  lemma NoneRepeatsNext(config: Config, inputs: seq<Input>)
    requires inputs != []
    ensures var front, last := inputs[..|inputs| - 1], inputs[|inputs| - 1];
            NoneRepeats(config, inputs) <==> NoneRepeats(config, front) && !Repeats(Run(config, front), last)
  {
    hide Run, Repeats;
    var front := inputs[..|inputs| - 1];
    assert forall k :: 0 <= k < |front| ==> inputs[..k] == front[..k] && inputs[k] == front[k];
    assert inputs[..|front|] == front;
  }

  lemma {:induction false} RunCopies(config: Config, inputs: seq<Input>)
    requires Run(config, inputs).sequence < U64_MAX
    ensures NoCopies(Run(config, inputs).log) <==> NoneRepeats(config, inputs)
  {
    hide Inv, Repeats, Step, NoneRepeats;
    if inputs == [] {
      NothingRepeats(config);
    } else {
      var front, last := inputs[..|inputs| - 1], inputs[|inputs| - 1];
      var s := Run(config, front);
      RunOk(config, front);
      StepGrows(s, last);
      hide NoCopies;
      RunCopies(config, front);
      NoneRepeatsNext(config, inputs);
      if NoCopies(s.log) {
        StepCopies(s, last);
      }
    }
  }

  lemma NothingRepeats(config: Config)
    ensures NoneRepeats(config, [])
  {
  }

  // ---------- what the check does to a connection ----------

  // A client that reads one connection in order, from the first message on, meets a sequence
  // regression if and only if some resume of the run was asked for at a cursor with a live ledger
  // entry above it.
  lemma ConnectionAccepted(config: Config, inputs: seq<Input>)
    requires Run(config, inputs).sequence < U64_MAX
    ensures AcceptsAll(0, Numbers(Run(config, inputs).log)) <==> NoneRepeats(config, inputs)
  {
    hide NoneRepeats;
    var s := Run(config, inputs);
    RunOk(config, inputs);
    ReadsLog(s.log, s.sequence, s.minted);
    RunCopies(config, inputs);
  }

  function Sequences(envelopes: seq<Envelope>): seq<nat> {
    seq(|envelopes|, i requires 0 <= i < |envelopes| => envelopes[i].sequence)
  }

  // A live ledger entry above the cursor, numbered `last` or less.
  ghost predicate OwesUpTo(s: SessionState, cursor: nat, nowMs: nat, last: nat) {
    exists e: Envelope :: cursor < e.sequence <= last && ToClient(RawText(e, false)) in s.log &&
                          e.sequence !in s.tasks.purged && !TooOld(s.tasks, e.sequence, nowMs)
  }

  // The answer to one resume, for a client that has last seen `last`, whatever that is: it accepts
  // the replay and the Pong after it if and only if it has seen nothing from later on and no live
  // ledger entry lies above the cursor among what it has seen. In particular a client that asks from
  // what it last saw, or from further on, accepts all of the answer.
  lemma AnswerAccepted(config: Config, inputs: seq<Input>, cursor: nat, nowMs: nat, last: nat)
    requires Run(config, inputs).sequence < U64_MAX
    ensures var s := Run(config, inputs);
            var answer := Sequences(Replayed(s.tasks, cursor, nowMs)) + [NextSequence(s.sequence)];
            && (AcceptsAll(last, answer) <==> last <= s.sequence && !OwesUpTo(s, cursor, nowMs, last))
            && (last <= cursor && last <= s.sequence ==> AcceptsAll(last, answer))
  {
    hide Run, Step, Replayed, LedgerOk, BufferOk, ProviderOk, LeaseOk, AcceptsAll;
    var s := Run(config, inputs);
    var replay := Replayed(s.tasks, cursor, nowMs);
    RunOk(config, inputs);
    ReplayIsExact(config, inputs, cursor, nowMs);
    hide TooOld;
    forall e | e in replay
      ensures e.sequence <= s.sequence
    {
      var k :| 0 <= k < |s.log| && s.log[k] == ToClient(RawText(e, false));
      assert Numbered(s.log[k]);
    }
    hide Inv, WireOk;
    AnswerTaken(replay, last, s.sequence);
    if replay != [] {
      assert replay[0] in replay;
    }
    if OwesUpTo(s, cursor, nowMs, last) {
      var e: Envelope :| cursor < e.sequence <= last && ToClient(RawText(e, false)) in s.log &&
                         e.sequence !in s.tasks.purged && !TooOld(s.tasks, e.sequence, nowMs);
      assert e in replay;
      var i :| 0 <= i < |replay| && replay[i] == e;
    }
  }

  lemma AnswerTaken(replay: seq<Envelope>, last: nat, top: nat)
    requires top < U64_MAX
    requires forall e :: e in replay ==> e.sequence <= top
    requires forall a, b :: 0 <= a < b < |replay| ==> replay[a].sequence < replay[b].sequence
    ensures AcceptsAll(last, Sequences(replay) + [NextSequence(top)]) <==>
            last <= top && (replay == [] || last < replay[0].sequence)
  {
    assert forall a :: 0 <= a < |replay| ==> replay[a] in replay;
    AscendingAccepted(last, Sequences(replay) + [NextSequence(top)]);
  }

  // For a client that has read all that was sent before, this is: nothing is owed at all.
  lemma ReaderAcceptsAnswer(config: Config, inputs: seq<Input>, cursor: nat, nowMs: nat)
    requires Run(config, inputs).sequence < U64_MAX
    ensures var s := Run(config, inputs);
            var last := LastSeen(0, Numbers(s.log));
            var answer := Sequences(Replayed(s.tasks, cursor, nowMs)) + [NextSequence(s.sequence)];
            AcceptsAll(last, answer) <==> !Owes(s, cursor, nowMs)
  {
    hide Run, Step, Replayed, Numbers, LastSeen, LedgerOk, BufferOk, ProviderOk, LeaseOk, TooOld, AcceptsAll;
    var s := Run(config, inputs);
    RunOk(config, inputs);
    ReadsLog(s.log, s.sequence, s.minted);
    var last := LastSeen(0, Numbers(s.log));
    AnswerAccepted(config, inputs, cursor, nowMs, last);
    assert last <= s.sequence;
    hide Inv, WireOk;
    forall e: Envelope | ToClient(RawText(e, false)) in s.log
      ensures e.sequence <= last
    {
      assert SequenceOf(ToClient(RawText(e, false))) <= last;
    }
  }

  // A client that asks with what it has seen when only the first `n` entries had reached it is owed
  // something if and only if a live ledger entry was still on its way.
  lemma OwedIsInFlight(config: Config, inputs: seq<Input>, n: nat, nowMs: nat)
    requires Run(config, inputs).sequence < U64_MAX && n <= |Run(config, inputs).log|
    ensures var s := Run(config, inputs);
            Owes(s, LastSeen(0, Numbers(s.log[..n])), nowMs) <==>
            exists e: Envelope :: ToClient(RawText(e, false)) in s.log[n..] &&
                                  e.sequence !in s.tasks.purged && !TooOld(s.tasks, e.sequence, nowMs)
  {
    var s := Run(config, inputs);
    var cursor := LastSeen(0, Numbers(s.log[..n]));
    RunOk(config, inputs);
    hide Run, Step, LedgerOk, ProviderOk, BufferOk, LeaseOk;
    forall e: Envelope | ToClient(RawText(e, false)) in s.log
      ensures e.sequence > cursor <==> ToClient(RawText(e, false)) in s.log[n..]
    {
      AboveIsLater(s.log, s.sequence, s.minted, n, ToClient(RawText(e, false)));
    }
    assert forall e: Envelope :: ToClient(RawText(e, false)) in s.log[n..] ==> ToClient(RawText(e, false)) in s.log;
  }

  lemma AboveIsLater(log: seq<Entry>, sequence: nat, minted: nat, n: nat, e: Entry)
    requires WireOk(log, sequence, minted) && sequence < U64_MAX && n <= |log|
    requires e in log && IsLedgerEntry(e)
    ensures SequenceOf(e) > LastSeen(0, Numbers(log[..n])) <==> e in log[n..]
  {
    WirePrefix(log, sequence, minted, n);
    ReadsLog(log[..n], sequence, minted);
    var seen := LastSeen(0, Numbers(log[..n]));
    var k :| 0 <= k < |log| && log[k] == e;
    assert Numbered(log[k]);
    if k < n {
      assert log[..n][k] in log[..n];
      forall j | n <= j < |log| ensures log[j] != e {
        assert Numbered(log[k]) && (Numbered(log[j]) ==> SequenceOf(log[k]) < SequenceOf(log[j]));
      }
    } else {
      assert log[n..][k - n] == e;
      if seen != 0 {
        var i :| 0 <= i < |log[..n]| && Numbered(log[..n][i]) && SequenceOf(log[..n][i]) == seen;
        assert Numbered(log[i]);
      }
    }
  }

  lemma {:induction false} ReplayDrawsNothing(s: SessionState, envelopes: seq<Envelope>)
    ensures ReplaySent(s, envelopes).sequence == s.sequence
  {
    if envelopes != [] {
      ReplayDrawsNothing(s, envelopes[..|envelopes| - 1]);
    }
  }

  lemma AskedAlone(config: Config, o: Oracle, id: Id)
    ensures var s := Run(config, [Input(TaskAsked(0, TaskRequested(id, "x", None, [], None)), o)]);
            && |s.log| == 2 && Numbers(s.log) == [1, 2] && s.open && s.sequence == 2
            && s.log[1].ToClient? && IsLedgerEntry(s.log[1]) && SequenceOf(s.log[1]) == 2
            && s.tasks.purged == {} && !TooOld(s.tasks, 2, o.clockMs)
  {
    var request := TaskRequested(id, "x", None, [], None);
    var ask := Input(TaskAsked(0, request), o);
    var start := Run(config, []);
    assert [ask][..0] == [] && Run(config, [ask]) == Step(start, ask);
    assert !Rejects(start.tasks, request) by {
      assert request.intent[0] == 'x';
    }
    var s := TaskRequestHandled(start, 0, request, o.clockMs);
    assert s.log == [start.log[0], s.log[1]];
    assert [start.log[0], s.log[1]][..1] == start.log && start.log[..0] == [];
    assert Numbers(start.log) == [1];
  }

  lemma TripsAt(config: Config, inputs: seq<Input>, resume: Input)
    requires Run(config, inputs).sequence < U64_MAX - 1 && Repeats(Run(config, inputs), resume)
    ensures !AcceptsAll(0, Numbers(Run(config, inputs + [resume]).log))
  {
    hide NoneRepeats, Step, Owes;
    var longer := inputs + [resume];
    assert longer[..|longer| - 1] == inputs;
    NoneRepeatsNext(config, longer);
    ResumeDraws(Run(config, inputs), resume);
    assert Run(config, longer) == Step(Run(config, inputs), resume);
    hide Run;
    ConnectionAccepted(config, longer);
  }

  lemma ResumeDraws(s: SessionState, resume: Input)
    requires s.open && resume.stimulus.ResumeAsked? && resume.stimulus.sameSession
    ensures Step(s, resume).sequence == NextSequence(s.sequence)
  {
    var cursor, nowMs := resume.stimulus.lastSeen, resume.oracle.clockMs;
    ReplayDrawsNothing(s.(tasks := Purged(s.tasks, cursor, nowMs)), Replayed(s.tasks, cursor, nowMs));
    hide Replayed, Purged;
  }

  // Such a run: a task is admitted, and while its acknowledgement is on the way the client asks to
  // resume from 1, the number of the only message it has read. The copy of the acknowledgement
  // trips the check.
  lemma InFlightResumeTrips(config: Config, o: Oracle, id: Id)
    ensures var ask := Input(TaskAsked(0, TaskRequested(id, "x", None, [], None)), o);
            var resume := Input(ResumeAsked(0, true, 1), o);
            && Numbers(Run(config, [ask]).log) == [1, 2] && LastSeen(0, [1]) == 1
            && !AcceptsAll(0, Numbers(Run(config, [ask, resume]).log))
  {
    var ask := Input(TaskAsked(0, TaskRequested(id, "x", None, [], None)), o);
    var resume := Input(ResumeAsked(0, true, 1), o);
    AskedAlone(config, o, id);
    hide Run;
    assert [ask] + [resume] == [ask, resume];
    assert Repeats(Run(config, [ask]), resume) by {
      var s := Run(config, [ask]);
      assert ToClient(RawText(s.log[1].message.envelope, false)) in s.log;
    }
    TripsAt(config, [ask], resume);
  }

  // ---------- the browser as it is shipped ----------

  // The browser asks to resume once a connection, when the session is announced and before it can
  // ask for anything: no resume of the run comes after a task was asked for.
  ghost predicate ResumesFirst(inputs: seq<Input>) {
    forall i, k :: 0 <= i < k < |inputs| && inputs[i].stimulus.TaskAsked? ==> !inputs[k].stimulus.ResumeAsked?
  }

  ghost predicate NothingAsked(inputs: seq<Input>) {
    forall i :: 0 <= i < |inputs| ==> !inputs[i].stimulus.TaskAsked?
  }

  lemma EnumeratesSome(ids: seq<Id>, s: set<Id>)
    requires Enumerates(ids, s) && ids != []
    ensures ids[0] in s
  {
  }

  lemma NothingToArrange(order: seq<Id>)
    ensures Arrange(order, {}) == []
  {
    if Arrange(order, {}) != [] {
      EnumeratesSome(Arrange(order, {}), {});
    }
  }

  lemma {:induction false} MarksKeepTasks(s: SessionState, timeUs: nat, g: Id, phases: seq<LatencyPhase>)
    ensures MarksSent(s, timeUs, g, phases).tasks == s.tasks
  {
    if phases != [] {
      MarksKeepTasks(s, timeUs, g, phases[..|phases| - 1]);
    }
  }

  lemma BindsNothing(g: Id)
    ensures PendingBound(EMPTY_LEDGER, g) == EMPTY_LEDGER
  {
  }

  lemma {:induction false} DecidedKeepsEmpty(s: SessionState, actions: seq<InteractionAction>, timeUs: nat)
    requires s.tasks == EMPTY_LEDGER
    ensures Decided(s, actions, timeUs).tasks == EMPTY_LEDGER
  {
    if actions != [] {
      var front, last := actions[..|actions| - 1], actions[|actions| - 1];
      DecidedKeepsEmpty(s, front, timeUs);
      var t := Decided(s, front, timeUs);
      var tag := if last == HardYield && t.active.Some? then Some(t.active.value.id) else None;
      var sent := Sent(t, timeUs, InteractionDecision(last), tag);
      BindsNothing(sent.minted);
      hide Decided, PendingBound;
    }
  }

  lemma AudioKeepsEmpty(s: SessionState, t: nat, full: bool, report: bool, publish: bool, answer: EngineAnswer)
    requires s.tasks == EMPTY_LEDGER
    ensures AudioHandled(s, t, full, report, publish, answer).tasks == EMPTY_LEDGER
  {
    var observed := Observed(FrameOffered(s, t, full, report), t, publish);
    assert observed.tasks == EMPTY_LEDGER;
    hide FrameOffered, Observed, Decided;
    if answer.Decisions? {
      DecidedKeepsEmpty(observed, answer.actions, t);
    }
  }

  lemma EventKeepsEmpty(s: SessionState, g: Id, event: Event, timeUs: nat, o: Oracle)
    requires s.tasks == EMPTY_LEDGER
    ensures EventAccepted(s, g, event, timeUs, o).tasks == EMPTY_LEDGER
  {
    var (sent, emitted) := EventEmitted(s, event, g, timeUs, o.verdict);
    assert sent.tasks == EMPTY_LEDGER;
    hide EventEmitted, Arrange;
    NothingToArrange(o.evidenceOrder);
    NothingToArrange(o.completionOrder);
    assert BoundTo(EMPTY_LEDGER, g) == {};
    assert EvidenceCollected(sent, g, emitted, timeUs, o.evidenceOrder, o.clockMs).tasks == EMPTY_LEDGER;
    hide EvidenceCollected;
  }

  lemma AcceptedKeepsEmpty(s: SessionState, g: Id, offsetUs: nat, output: ProviderOutput, o: Oracle)
    requires s.active.Some? && s.tasks == EMPTY_LEDGER
    ensures Accepted(s, g, offsetUs, output, o).tasks == EMPTY_LEDGER
  {
    var (latency, marks) := Observe(s.active.value.latency, output);
    var timeUs := SaturatingAdd(s.active.value.baseUs, offsetUs);
    var observed := s.(active := Some(s.active.value.(latency := latency)));
    hide Observe, MarksSent, Arrange, EventAccepted;
    MarksKeepTasks(observed, timeUs, g, marks);
    var marked := MarksSent(observed, timeUs, g, marks);
    NothingToArrange(o.expiryOrder);
    assert Expired(EMPTY_LEDGER, timeUs / 1000) == {};
    var checked := DeadlinesEnforced(marked, timeUs, o.expiryOrder, o.clockMs);
    assert checked.tasks == EMPTY_LEDGER;
    hide DeadlinesEnforced;
    if output.ProviderEvent? {
      EventKeepsEmpty(checked, g, output.event, timeUs, o);
    }
  }

  lemma NothingToReplay(cursor: nat, nowMs: nat)
    ensures Replayed(EMPTY_LEDGER, cursor, nowMs) == [] && Purged(EMPTY_LEDGER, cursor, nowMs) == EMPTY_LEDGER
  {
    assert Live(EMPTY_LEDGER, cursor, nowMs) == {} && Dead(EMPTY_LEDGER, cursor, nowMs) == {};
  }

  // Only a request for a task puts anything into an empty ledger.
  lemma StepKeepsEmpty(s: SessionState, input: Input)
    requires s.tasks == EMPTY_LEDGER && !input.stimulus.TaskAsked?
    ensures Step(s, input).tasks == EMPTY_LEDGER
  {
    var o := input.oracle;
    hide AudioHandled, Accepted, Replayed, Purged, PendingBound;
    match input.stimulus {
      case ResumeAsked(_, _, lastSeen) => NothingToReplay(lastSeen, o.clockMs);
      case AudioArrived(t, full, report, publish, answer) => AudioKeepsEmpty(s, t, full, report, publish, answer);
      case TranscriptFinal(t) => BindsNothing(s.minted);
      case FromProvider(e) =>
        if s.active.Some? && e.generation.Some? {
          AcceptedKeepsEmpty(s, e.generation.value, e.mediaOffsetUs, e.output, o);
        }
      case _ =>
    }
  }

  lemma {:induction false} RunKeepsEmpty(config: Config, inputs: seq<Input>)
    requires NothingAsked(inputs)
    ensures Run(config, inputs).tasks == EMPTY_LEDGER
  {
    hide Step;
    if inputs != [] {
      RunKeepsEmpty(config, inputs[..|inputs| - 1]);
      StepKeepsEmpty(Run(config, inputs[..|inputs| - 1]), inputs[|inputs| - 1]);
    }
  }

  // With resumes only there, nothing is ever owed and every replay is empty, so the check never
  // throws.
  lemma ShippedBrowserAccepts(config: Config, inputs: seq<Input>)
    requires ResumesFirst(inputs) && Run(config, inputs).sequence < U64_MAX
    ensures NoneRepeats(config, inputs) && AcceptsAll(0, Numbers(Run(config, inputs).log))
  {
    hide Run, TasksKept, Owes;
    forall k | 0 <= k < |inputs|
      ensures !Repeats(Run(config, inputs[..k]), inputs[k])
    {
      if inputs[k].stimulus.ResumeAsked? {
        assert NothingAsked(inputs[..k]);
        RunKeepsEmpty(config, inputs[..k]);
        RunFollows(config, inputs[..k], inputs[k..], 0);
        assert inputs[..k] + inputs[k..] == inputs;
        NothingOwed(config, inputs[..k], inputs[k].stimulus.lastSeen, inputs[k].oracle.clockMs);
      }
    }
    ConnectionAccepted(config, inputs);
  }

  lemma NothingOwed(config: Config, inputs: seq<Input>, cursor: nat, nowMs: nat)
    requires Run(config, inputs).tasks == EMPTY_LEDGER
    ensures Run(config, inputs).sequence < U64_MAX ==> !Owes(Run(config, inputs), cursor, nowMs)
  {
    hide Run, Replayed;
    RunOk(config, inputs);
    NothingToReplay(cursor, nowMs);
    if Run(config, inputs).sequence < U64_MAX {
      OwesReplay(Run(config, inputs), cursor, nowMs);
    }
  }
}
