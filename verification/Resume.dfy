// Resume across the two peers: replaying the gateway's buffer to a client that already saw part of
// it leaves the client where uninterrupted delivery would have.
module Resume {
  import opened Protocol
  import opened TaskLedger
  import opened Session
  import opened WireInvariant
  import opened LedgerInvariant
  import opened BufferInvariant
  import opened SessionInvariant
  import opened SessionSteps
  import opened SessionTheorems
  import opened ClientLedger
  import opened ClientReading

  // ---------- what the client reads ----------

  function MessageOf(e: Envelope): LedgerMessage {
    match e.event
    case TaskAcknowledgedEvent(ack) => Ack(ack.taskId, true, Some(ack.deadlineMs), ack.provider, ack.warnings)
    case TaskOutcomeEvent(o) => Outcome(o.taskId, Some(o.result), o.summary, o.evidenceIds, o.error)
    case EvidenceLinkEvent(link) => Link(Some(link.source), Some(link.target))
    case _ => Unrelated
  }

  // Envelopes delivered in order, each at the client's own time.
  function Deliveries(envelopes: seq<Envelope>, clock: Envelope -> nat): seq<ClientStep> {
    seq(|envelopes|, i requires 0 <= i < |envelopes| => Deliver(MessageOf(envelopes[i]), clock(envelopes[i])))
  }

  // The ledger envelopes the gateway sent, in the order it sent them.
  function LedgerSent(log: seq<Entry>): seq<Envelope> {
    if log == [] then []
    else
      var e := log[|log| - 1];
      LedgerSent(log[..|log| - 1]) + if IsLedgerEntry(e) then [e.message.envelope] else []
  }

  function AboveCursor(envelopes: seq<Envelope>, cursor: nat): seq<Envelope> {
    if envelopes == [] then []
    else
      var e := envelopes[|envelopes| - 1];
      AboveCursor(envelopes[..|envelopes| - 1], cursor) + if e.sequence > cursor then [e] else []
  }

  function UpToCursor(envelopes: seq<Envelope>, cursor: nat): seq<Envelope> {
    if envelopes == [] then []
    else
      var e := envelopes[|envelopes| - 1];
      UpToCursor(envelopes[..|envelopes| - 1], cursor) + if e.sequence > cursor then [] else [e]
  }

  // ---------- two rails that differ in times only ----------

  function Undated(entry: TaskEntry): TaskEntry {
    entry.(acknowledgedAtMs := None, resolvedAtMs := None)
  }

  ghost predicate SameButTimes(c: Rail, d: Rail) {
    && |c.tasks| == |d.tasks| && (forall i :: 0 <= i < |c.tasks| ==> Undated(c.tasks[i]) == Undated(d.tasks[i]))
    && c.evidenceIndex == d.evidenceIndex && c.resolvedTaskIds == d.resolvedTaskIds
    && c.latencies.Keys == d.latencies.Keys && c.pendingSentAt.Keys == d.pendingSentAt.Keys
  }

  lemma SameEntries(c: Rail, d: Rail, id: Id)
    requires SameButTimes(c, d)
    ensures Find(c.tasks, id) == Find(d.tasks, id)
    ensures Known(c, id) ==>
              Undated(TaskAt(c, id)) == Undated(TaskAt(d, id)) && TaskAt(c, id).status == TaskAt(d, id).status &&
              TaskAt(c, id).evidenceIds == TaskAt(d, id).evidenceIds
  {
    forall i | 0 <= i < |c.tasks|
      ensures c.tasks[i].id == d.tasks[i].id && c.tasks[i].status == d.tasks[i].status
      ensures c.tasks[i].evidenceIds == d.tasks[i].evidenceIds
    {
      assert Undated(c.tasks[i]) == Undated(d.tasks[i]);
      assert Undated(c.tasks[i]).id == c.tasks[i].id && Undated(c.tasks[i]).status == c.tasks[i].status;
    }
    FindSame(c.tasks, d.tasks, id);
  }

  lemma SamePut(c: Rail, d: Rail, id: Id, x: TaskEntry, y: TaskEntry)
    requires SameButTimes(c, d) && Known(c, id) && Known(d, id) && Find(c.tasks, id) == Find(d.tasks, id)
    requires Undated(x) == Undated(y)
    ensures |Put(c, id, x)| == |Put(d, id, y)|
    ensures forall i :: 0 <= i < |Put(c, id, x)| ==> Undated(Put(c, id, x)[i]) == Undated(Put(d, id, y)[i])
  {
    hide Find, Undated;
  }

  lemma AckSame(c: Rail, d: Rail, m: LedgerMessage, t: nat, u: nat)
    requires SameButTimes(c, d) && m.Ack? && m.deadlineMs.Some?
    ensures SameButTimes(AckApplied(c, m, t), AckApplied(d, m, u))
  {
    SameEntries(c, d, m.ackTask);
    if !AckInert(c, m) {
      var x := TaskAt(c, m.ackTask).(status := Acknowledged, acknowledgedAtMs := Some(t), deadlineMs := m.deadlineMs,
                                    provider := m.provider, warnings := m.warnings);
      var y := TaskAt(d, m.ackTask).(status := Acknowledged, acknowledgedAtMs := Some(u), deadlineMs := m.deadlineMs,
                                    provider := m.provider, warnings := m.warnings);
      assert Undated(x) == Undated(TaskAt(c, m.ackTask)).(status := Acknowledged, deadlineMs := m.deadlineMs,
                                                         provider := m.provider, warnings := m.warnings);
      SamePut(c, d, m.ackTask, x, y);
      hide Put, TaskAt, Find, Undated;
    }
  }

  lemma OutcomeSame(c: Rail, d: Rail, m: LedgerMessage, t: nat, u: nat)
    requires SameButTimes(c, d) && m.Outcome?
    ensures SameButTimes(OutcomeApplied(c, m, t), OutcomeApplied(d, m, u))
  {
    SameEntries(c, d, m.outcomeTask);
    hide CitedAll;
    if !OutcomeInert(c, m) {
      var x := TaskAt(c, m.outcomeTask).(status := ClientLedger.Resolved(m.result.value), summary := Some(m.summary),
                                        evidenceIds := m.evidenceIds, error := m.error, resolvedAtMs := Some(t));
      var y := TaskAt(d, m.outcomeTask).(status := ClientLedger.Resolved(m.result.value), summary := Some(m.summary),
                                        evidenceIds := m.evidenceIds, error := m.error, resolvedAtMs := Some(u));
      assert Undated(x) == Undated(TaskAt(c, m.outcomeTask)).(
                             status := ClientLedger.Resolved(m.result.value), summary := Some(m.summary),
                             evidenceIds := m.evidenceIds, error := m.error);
      SamePut(c, d, m.outcomeTask, x, y);
      hide Put, TaskAt, Find, Undated;
    }
  }

  lemma LinkSame(c: Rail, d: Rail, m: LedgerMessage)
    requires SameButTimes(c, d) && m.Link?
    ensures SameButTimes(LinkApplied(c, m), LinkApplied(d, m))
  {
    if !LinkInert(c, m) {
      var source, target := m.source.value, m.target.value;
      SameEntries(c, d, source);
      if Known(c, source) && target !in TaskAt(c, source).evidenceIds {
        var x := TaskAt(c, source).(evidenceIds := TaskAt(c, source).evidenceIds + [target]);
        var y := TaskAt(d, source).(evidenceIds := TaskAt(d, source).evidenceIds + [target]);
        assert Undated(x) == Undated(TaskAt(c, source)).(evidenceIds := TaskAt(c, source).evidenceIds + [target]);
        SamePut(c, d, source, x, y);
      }
      hide Put, TaskAt, Find, Undated;
    }
  }

  lemma AppliedSameButTimes(c: Rail, d: Rail, e: Envelope, t: nat, u: nat)
    requires SameButTimes(c, d)
    ensures SameButTimes(Applied(c, MessageOf(e), t), Applied(d, MessageOf(e), u))
  {
    hide SameButTimes, AckApplied, OutcomeApplied, LinkApplied;
    var m := MessageOf(e);
    match m {
      case Ack(_, _, _, _, _) => AckSame(c, d, m, t, u);
      case Outcome(_, _, _, _, _) => OutcomeSame(c, d, m, t, u);
      case Link(_, _) => LinkSame(c, d, m);
      case Unrelated =>
    }
  }

  lemma {:induction false} DeliveriesSameButTimes(c: Rail, d: Rail, envelopes: seq<Envelope>, now: Envelope -> nat,
                                                  later: Envelope -> nat)
    requires SameButTimes(c, d)
    ensures SameButTimes(After(c, Deliveries(envelopes, now)), After(d, Deliveries(envelopes, later)))
    decreases |envelopes|
  {
    hide SameButTimes;
    if envelopes != [] {
      var front, last := envelopes[..|envelopes| - 1], envelopes[|envelopes| - 1];
      DeliveriesSameButTimes(c, d, front, now, later);
      assert Deliveries(envelopes, now)[..|front|] == Deliveries(front, now);
      assert Deliveries(envelopes, later)[..|front|] == Deliveries(front, later);
      AppliedSameButTimes(After(c, Deliveries(front, now)), After(d, Deliveries(front, later)), last, now(last),
                          later(last));
    }
  }

  // ---------- the replay is a suffix of what was sent ----------

  ghost predicate Rising(envelopes: seq<Envelope>) {
    forall a, b :: 0 <= a < b < |envelopes| ==> envelopes[a].sequence < envelopes[b].sequence
  }

  lemma {:induction false} RisingUnique(a: seq<Envelope>, b: seq<Envelope>)
    requires Rising(a) && Rising(b) && forall e: Envelope :: e in a <==> e in b
    ensures a == b
  {
    assert b != [] ==> b[0] in b;
    if a == [] {
    } else {
      var i, j := |a| - 1, |b| - 1;
      assert a[i] in b && b != [] && b[j] in a;
      assert a[i] == b[j];
      forall e: Envelope ensures e in a[..i] <==> e in b[..j] {
        assert e in a[..i] <==> e in a && e.sequence != a[i].sequence;
        assert e in b[..j] <==> e in b && e.sequence != b[j].sequence;
      }
      RisingUnique(a[..i], b[..j]);
      assert a == a[..i] + [a[i]] && b == b[..j] + [b[j]];
    }
  }

  lemma {:induction false} LedgerSentMembers(log: seq<Entry>)
    ensures forall e: Envelope :: e in LedgerSent(log) <==> ToClient(RawText(e, false)) in log
  {
    if log != [] {
      var front, last := log[..|log| - 1], log[|log| - 1];
      LedgerSentMembers(front);
      assert forall x :: x in log <==> x in front || x == last;
      if IsLedgerEntry(last) {
        assert last == ToClient(RawText(last.message.envelope, false));
        assert forall e: Envelope :: e in LedgerSent(log) <==> e in LedgerSent(front) || e == last.message.envelope;
      }
    }
  }

  lemma {:induction false} LedgerSentRises(log: seq<Entry>, sequence: nat, minted: nat)
    requires WireOk(log, sequence, minted) && sequence < U64_MAX
    ensures Rising(LedgerSent(log))
  {
    if log != [] {
      var front, last := log[..|log| - 1], log[|log| - 1];
      LedgerSentRises(front, sequence, minted);
      LedgerSentMembers(front);
      if IsLedgerEntry(last) {
        var sent := LedgerSent(front);
        forall a | 0 <= a < |sent| ensures sent[a].sequence < last.message.envelope.sequence {
          assert sent[a] in sent;
          var k :| 0 <= k < |front| && front[k] == ToClient(RawText(sent[a], false));
          assert Numbered(log[k]) && Numbered(log[|log| - 1]);
        }
      }
    }
  }

  lemma {:induction false} AboveCursorMembers(envelopes: seq<Envelope>, cursor: nat)
    ensures forall e: Envelope :: e in AboveCursor(envelopes, cursor) <==> e in envelopes && e.sequence > cursor
    ensures Rising(envelopes) ==> Rising(AboveCursor(envelopes, cursor))
  {
    if envelopes != [] {
      var front, last := envelopes[..|envelopes| - 1], envelopes[|envelopes| - 1];
      AboveCursorMembers(front, cursor);
      assert forall e: Envelope :: e in envelopes <==> e in front || e == last;
      var above := AboveCursor(front, cursor);
      if Rising(envelopes) {
        assert Rising(front);
        forall a | 0 <= a < |above| ensures above[a].sequence < last.sequence {
          assert above[a] in above;
        }
      }
    }
  }

  lemma {:induction false} NoneAbove(envelopes: seq<Envelope>, cursor: nat)
    requires forall e :: e in envelopes ==> e.sequence <= cursor
    ensures AboveCursor(envelopes, cursor) == []
  {
    if envelopes != [] {
      NoneAbove(envelopes[..|envelopes| - 1], cursor);
      assert envelopes[|envelopes| - 1] in envelopes;
    }
  }

  lemma RisingFront(envelopes: seq<Envelope>)
    requires Rising(envelopes) && envelopes != []
    ensures Rising(envelopes[..|envelopes| - 1])
    ensures forall e :: e in envelopes[..|envelopes| - 1] ==> e.sequence < envelopes[|envelopes| - 1].sequence
    ensures forall e: Envelope :: e in envelopes <==>
            e in envelopes[..|envelopes| - 1] || e == envelopes[|envelopes| - 1]
  {
  }

  lemma CursorNothing(cursor: nat)
    ensures AboveCursor([], cursor) == [] && UpToCursor([], cursor) == []
  {
  }

  lemma AboveUnfold(envelopes: seq<Envelope>, cursor: nat)
    requires envelopes != []
    ensures var front, last := envelopes[..|envelopes| - 1], envelopes[|envelopes| - 1];
            AboveCursor(envelopes, cursor) ==
            if last.sequence > cursor then AboveCursor(front, cursor) + [last] else AboveCursor(front, cursor)
  {
  }

  lemma UpToMore(envelopes: seq<Envelope>, e: Envelope, cursor: nat)
    ensures UpToCursor(envelopes + [e], cursor) ==
            if e.sequence > cursor then UpToCursor(envelopes, cursor) else UpToCursor(envelopes, cursor) + [e]
  {
    assert (envelopes + [e])[..|envelopes|] == envelopes;
  }

  // A rising sequence falls apart at any cursor into what is up to it and what is above it.
  lemma {:induction false} CursorSplits(envelopes: seq<Envelope>, low: nat, high: nat)
    requires Rising(envelopes) && low <= high
    ensures AboveCursor(envelopes, low) == UpToCursor(AboveCursor(envelopes, low), high) + AboveCursor(envelopes, high)
    ensures forall e: Envelope :: e in UpToCursor(AboveCursor(envelopes, low), high) ==>
            e in envelopes && low < e.sequence <= high
  {
    hide AboveCursor, UpToCursor, Rising;
    if envelopes == [] {
      CursorNothing(low);
      CursorNothing(high);
    } else {
      var front, last := envelopes[..|envelopes| - 1], envelopes[|envelopes| - 1];
      RisingFront(envelopes);
      CursorSplits(front, low, high);
      AboveUnfold(envelopes, low);
      AboveUnfold(envelopes, high);
      var above := AboveCursor(front, low);
      UpToMore(above, last, high);
      if last.sequence <= high {
        NoneAbove(front, high);
      } else {
        SplitGrows(AboveCursor(envelopes, low), above, UpToCursor(above, high), AboveCursor(front, high), last);
      }
    }
  }

  lemma SplitGrows(longer: seq<Envelope>, above: seq<Envelope>, upTo: seq<Envelope>, rest: seq<Envelope>,
                   last: Envelope)
    requires above == upTo + rest && longer == above + [last]
    ensures longer == upTo + (rest + [last])
  {
  }

  // Nothing above the cursor has been dropped from the buffer, and nothing there is too old now.
  ghost predicate NothingExpired(t: TaskState, cursor: nat, nowMs: nat) {
    forall q :: q > cursor ==> q !in t.purged && !TooOld(t, q, nowMs)
  }

  // With nothing expired the replay is what was sent above the cursor, in the order it was sent.
  lemma ReplayIsSuffix(config: Config, inputs: seq<Input>, cursor: nat, nowMs: nat)
    requires var s := Run(config, inputs); s.sequence < U64_MAX && NothingExpired(s.tasks, cursor, nowMs)
    ensures var s := Run(config, inputs);
            Rising(LedgerSent(s.log)) && Replayed(s.tasks, cursor, nowMs) == AboveCursor(LedgerSent(s.log), cursor)
  {
    hide Run, Step, Replayed, LedgerOk, ProviderOk, BufferOk, LeaseOk;
    var s := Run(config, inputs);
    RunOk(config, inputs);
    LedgerSentRises(s.log, s.sequence, s.minted);
    LedgerSentMembers(s.log);
    AboveCursorMembers(LedgerSent(s.log), cursor);
    ReplayIsExact(config, inputs, cursor, nowMs);
    RisingUnique(Replayed(s.tasks, cursor, nowMs), AboveCursor(LedgerSent(s.log), cursor));
  }

  // ---------- resuming ----------

  // Along `history` the client was handed `m`, and has since asked only for tasks `m` does not name.
  ghost predicate Seen(history: seq<ClientStep>, m: LedgerMessage) {
    exists k :: 0 <= k < |history| && history[k].Deliver? && history[k].message == m &&
                forall i :: k < i < |history| && history[i].Request? ==> history[i].id !in Names(m)
  }

  // A client whose history covers everything sent in (low, high], whatever else it did and in
  // whatever order, ends up the same (times aside) from the replay above `low` as from being sent
  // only what is above `high`.
  lemma ResumeIsInvisible(config: Config, inputs: seq<Input>, nowMs: nat, low: nat, high: nat,
                          c: Rail, history: seq<ClientStep>, clock: Envelope -> nat, later: Envelope -> nat)
    requires var s := Run(config, inputs); s.sequence < U64_MAX && NothingExpired(s.tasks, low, nowMs)
    requires low <= high
    requires forall e :: e in LedgerSent(Run(config, inputs).log) && low < e.sequence <= high ==>
             Seen(history, MessageOf(e))
    ensures var s := Run(config, inputs);
            SameButTimes(After(c, history + Deliveries(Replayed(s.tasks, low, nowMs), later)),
                         After(c, history + Deliveries(AboveCursor(LedgerSent(s.log), high), clock)))
  {
    hide Run, Step, Replayed, SameButTimes, Seen;
    var s := Run(config, inputs);
    ReplayIsSuffix(config, inputs, low, nowMs);
    var sent := LedgerSent(s.log);
    CursorSplits(sent, low, high);
    var again, unseen := UpToCursor(AboveCursor(sent, low), high), AboveCursor(sent, high);
    SplitDelivery(c, history, again, unseen, later);
    SpentDelivery(c, history, again, later);
    AfterConcat(c, history, Deliveries(unseen, clock));
    SelfSame(After(c, history));
    DeliveriesSameButTimes(After(c, history), After(c, history), unseen, later, clock);
  }

  lemma SelfSame(c: Rail)
    ensures SameButTimes(c, c)
  {
  }

  lemma DeliveriesConcat(es: seq<Envelope>, more: seq<Envelope>, clock: Envelope -> nat)
    ensures Deliveries(es + more, clock) == Deliveries(es, clock) + Deliveries(more, clock)
  {
  }

  lemma SplitDelivery(c: Rail, history: seq<ClientStep>, again: seq<Envelope>, more: seq<Envelope>,
                      clock: Envelope -> nat)
    ensures After(c, history + Deliveries(again + more, clock)) ==
            After(After(After(c, history), Deliveries(again, clock)), Deliveries(more, clock))
  {
    DeliveriesConcat(again, more, clock);
    AfterConcat(c, history, Deliveries(again + more, clock));
    AfterConcat(After(c, history), Deliveries(again, clock), Deliveries(more, clock));
  }

  lemma SpentDelivery(c: Rail, history: seq<ClientStep>, again: seq<Envelope>, clock: Envelope -> nat)
    requires forall e :: e in again ==> Seen(history, MessageOf(e))
    ensures After(After(c, history), Deliveries(again, clock)) == After(c, history)
  {
    forall i | 0 <= i < |again|
      ensures Inert(After(c, history), MessageOf(again[i]))
    {
      assert again[i] in again;
      var m := MessageOf(again[i]);
      var k :| 0 <= k < |history| && history[k].Deliver? && history[k].message == m &&
               forall j :: k < j < |history| && history[j].Request? ==> history[j].id !in Names(m);
      DeliveredIsInert(c, history, k);
    }
    InertRunIsNoOp(After(c, history), Deliveries(again, clock));
  }

  lemma DeliveredIsSeen(envelopes: seq<Envelope>, clock: Envelope -> nat, e: Envelope)
    requires e in envelopes
    ensures Seen(Deliveries(envelopes, clock), MessageOf(e))
  {
    var k :| 0 <= k < |envelopes| && envelopes[k] == e;
    assert Deliveries(envelopes, clock)[k].message == MessageOf(e);
  }

  // The plain case: delivered up to `high`, cut off, resumed from any cursor `low` at or below it.
  // The client's ledger is what delivery of everything sent would have made it.
  lemma ResumeEqualsUninterrupted(config: Config, inputs: seq<Input>, nowMs: nat, low: nat, high: nat,
                                  c: Rail, clock: Envelope -> nat, later: Envelope -> nat)
    requires var s := Run(config, inputs); s.sequence < U64_MAX && NothingExpired(s.tasks, low, nowMs)
    requires low <= high
    ensures var s := Run(config, inputs);
            var sent := LedgerSent(s.log);
            SameButTimes(After(c, Deliveries(UpToCursor(sent, high), clock) +
                               Deliveries(Replayed(s.tasks, low, nowMs), later)),
                         After(c, Deliveries(sent, clock)))
  {
    hide Run, Step, Replayed, SameButTimes, Seen, Deliveries;
    var s := Run(config, inputs);
    ReplayIsSuffix(config, inputs, low, nowMs);
    var sent := LedgerSent(s.log);
    var history := Deliveries(UpToCursor(sent, high), clock);
    UpToMembers(sent, high);
    forall e | e in sent && low < e.sequence <= high
      ensures Seen(history, MessageOf(e))
    {
      DeliveredIsSeen(UpToCursor(sent, high), clock, e);
    }
    ResumeIsInvisible(config, inputs, nowMs, low, high, c, history, clock, later);
    DeliveriesConcat(UpToCursor(sent, high), AboveCursor(sent, high), clock);
  }

  lemma {:induction false} UpToMembers(envelopes: seq<Envelope>, cursor: nat)
    requires Rising(envelopes)
    ensures forall e: Envelope :: e in envelopes && e.sequence <= cursor ==> e in UpToCursor(envelopes, cursor)
    ensures envelopes == UpToCursor(envelopes, cursor) + AboveCursor(envelopes, cursor)
  {
    if envelopes != [] {
      var front, last := envelopes[..|envelopes| - 1], envelopes[|envelopes| - 1];
      RisingFront(envelopes);
      hide Rising;
      UpToMembers(front, cursor);
      assert envelopes == front + [last];
      if last.sequence <= cursor {
        NoneAbove(front, cursor);
      }
    }
  }

  // ---------- a client that drops what its sequence check rejects ----------

  // The message handler: the check comes first and throws away the whole message, so nothing of it
  // is applied. Audio packets pass the check as well and are none of the ledger's business.
  datatype Reader = Reader(last: nat, rail: Rail)

  function Read(r: Reader, e: Entry, clock: Envelope -> nat): Reader {
    if !e.ToClient? || SequenceOf(e) <= r.last then r
    else
      Reader(SequenceOf(e),
             if e.message.Media? then r.rail
             else Applied(r.rail, MessageOf(e.message.envelope), clock(e.message.envelope)))
  }

  function ReadAll(r: Reader, log: seq<Entry>, clock: Envelope -> nat): Reader {
    if log == [] then r else Read(ReadAll(r, log[..|log| - 1], clock), log[|log| - 1], clock)
  }

  // The fresh messages to the client, in the order sent.
  function FreshSent(log: seq<Entry>): seq<Envelope> {
    if log == [] then []
    else
      FreshSent(log[..|log| - 1]) + if Enveloped(log[|log| - 1]) then [log[|log| - 1].message.envelope] else []
  }

  lemma {:induction false} ReaderSeen(r: Reader, log: seq<Entry>, clock: Envelope -> nat)
    ensures ReadAll(r, log, clock).last == LastSeen(r.last, Numbers(log))
  {
    if log != [] {
      var front, last := log[..|log| - 1], log[|log| - 1];
      ReaderSeen(r, front, clock);
      if last.ToClient? {
        var numbers := Numbers(log);
        assert numbers[..|numbers| - 1] == Numbers(front);
      } else {
        assert Numbers(log) == Numbers(front);
      }
      hide Applied, MessageOf;
    }
  }

  lemma {:induction false} ReaderTakesFresh(c: Rail, log: seq<Entry>, sequence: nat, minted: nat,
                                            clock: Envelope -> nat)
    requires WireOk(log, sequence, minted) && sequence < U64_MAX
    ensures ReadAll(Reader(0, c), log, clock).rail == After(c, Deliveries(FreshSent(log), clock))
  {
    hide WireOk, Applied, MessageOf;
    if log != [] {
      var front, last := log[..|log| - 1], log[|log| - 1];
      WirePrefix(log, sequence, minted, |log| - 1);
      ReaderTakesFresh(c, front, sequence, minted, clock);
      var before := ReadAll(Reader(0, c), front, clock);
      ReaderSeen(Reader(0, c), front, clock);
      ReadsLog(front, sequence, minted);
      if last.ToClient? {
        assert forall i :: 0 <= i < |front| ==> front[i] == log[i];
        FreshOrCopy(log, sequence, minted, before.last);
      }
      if Enveloped(last) {
        DeliveredNext(c, FreshSent(front), last.message.envelope, clock);
      } else {
        assert FreshSent(log) == FreshSent(front);
      }
      hide ReadWell, FreshSent;
    }
  }

  lemma DeliveredNext(c: Rail, envelopes: seq<Envelope>, e: Envelope, clock: Envelope -> nat)
    ensures After(c, Deliveries(envelopes + [e], clock)) ==
            Applied(After(c, Deliveries(envelopes, clock)), MessageOf(e), clock(e))
  {
    var steps := Deliveries(envelopes + [e], clock);
    assert steps[..|steps| - 1] == Deliveries(envelopes, clock);
  }

  // Over one connection, whatever resumes it holds, the browser's ledger is what every fresh message
  // delivered once makes it: each copy is rejected, and nothing else is.
  lemma CopiesNeverReachLedger(config: Config, inputs: seq<Input>, c: Rail, clock: Envelope -> nat)
    requires Run(config, inputs).sequence < U64_MAX
    ensures var s := Run(config, inputs);
            ReadAll(Reader(0, c), s.log, clock).rail == After(c, Deliveries(FreshSent(s.log), clock))
  {
    hide Run, Step, LedgerOk, WireOk, ProviderOk, BufferOk, LeaseOk;
    var s := Run(config, inputs);
    RunOk(config, inputs);
    ReaderTakesFresh(c, s.log, s.sequence, s.minted, clock);
  }

  // What passes the check of a client that has last seen `last`.
  function Passed(last: nat, envelopes: seq<Envelope>): seq<Envelope> {
    if envelopes == [] then []
    else
      var front, e := envelopes[..|envelopes| - 1], envelopes[|envelopes| - 1];
      Passed(last, front) + if LastSeen(last, Sequences(front)) < e.sequence then [e] else []
  }

  lemma {:induction false} RisingPassed(last: nat, envelopes: seq<Envelope>)
    requires Rising(envelopes)
    ensures Passed(last, envelopes) == AboveCursor(envelopes, last)
    ensures LastSeen(last, Sequences(envelopes)) ==
            if envelopes != [] && last < envelopes[|envelopes| - 1].sequence then envelopes[|envelopes| - 1].sequence
            else last
  {
    if envelopes != [] {
      var front, e := envelopes[..|envelopes| - 1], envelopes[|envelopes| - 1];
      RisingFront(envelopes);
      assert front != [] ==> front[|front| - 1] in front;
      hide Rising, AboveCursor;
      RisingPassed(last, front);
      var numbers := Sequences(envelopes);
      assert numbers[..|numbers| - 1] == Sequences(front);
      assert AboveCursor(envelopes, last) == AboveCursor(front, last) + if e.sequence > last then [e] else [];
    }
  }

  lemma {:induction false} AboveTwice(envelopes: seq<Envelope>, low: nat, last: nat)
    ensures AboveCursor(AboveCursor(envelopes, low), last) == AboveCursor(envelopes, if low < last then last else low)
  {
    if envelopes != [] {
      var front, e := envelopes[..|envelopes| - 1], envelopes[|envelopes| - 1];
      AboveTwice(front, low, last);
      var above := AboveCursor(front, low);
      assert (above + [e])[..|above|] == above;
      assert AboveCursor(above + [e], last) == AboveCursor(above, last) + if e.sequence > last then [e] else [];
      assert AboveCursor(envelopes, low) == above + if e.sequence > low then [e] else [];
      var high := if low < last then last else low;
      assert AboveCursor(envelopes, high) == AboveCursor(front, high) + if e.sequence > high then [e] else [];
      hide AboveCursor;
      if e.sequence <= low {
        assert AboveCursor(envelopes, low) == above;
      }
    }
  }

  // Such a client that was sent everything up to `last` and then a replay from `low` has, for its
  // ledger, been handed exactly what was sent, each message once and in order, if and only if
  // nothing was sent between the two; a cursor at or below what it has seen always does.
  lemma SkippingClientCompletes(config: Config, inputs: seq<Input>, nowMs: nat, low: nat, last: nat)
    requires var s := Run(config, inputs); s.sequence < U64_MAX && NothingExpired(s.tasks, low, nowMs)
    ensures var s := Run(config, inputs);
            var sent := LedgerSent(s.log);
            UpToCursor(sent, last) + Passed(last, Replayed(s.tasks, low, nowMs)) == sent <==>
            forall e :: e in sent ==> !(last < e.sequence <= low)
  {
    hide Run, Step, Replayed;
    var s := Run(config, inputs);
    ReplayIsSuffix(config, inputs, low, nowMs);
    var sent := LedgerSent(s.log);
    AboveCursorMembers(sent, low);
    AboveCursorMembers(sent, last);
    hide NothingExpired, LedgerSent, Rising;
    RisingPassed(last, AboveCursor(sent, low));
    AboveTwice(sent, low, last);
    UpToMembers(sent, last);
    CompletesExactly(sent, low, last);
  }

  lemma CompletesExactly(sent: seq<Envelope>, low: nat, last: nat)
    requires Rising(sent)
    ensures UpToCursor(sent, last) + AboveCursor(sent, if low < last then last else low) == sent <==>
            forall e :: e in sent ==> !(last < e.sequence <= low)
  {
    UpToMembers(sent, last);
    AboveCursorMembers(sent, low);
    AboveCursorMembers(sent, last);
    if low > last {
      var upTo := UpToCursor(sent, last);
      assert upTo + AboveCursor(sent, low) == sent ==> AboveCursor(sent, low) == sent[|upTo|..];
      if forall e :: e in sent ==> !(last < e.sequence <= low) {
        assert forall e: Envelope :: e in AboveCursor(sent, low) <==> e in AboveCursor(sent, last);
        RisingUnique(AboveCursor(sent, low), AboveCursor(sent, last));
      }
      assert AboveCursor(sent, last) == sent[|upTo|..];
    }
  }
}
