// What stays true of the resume buffer: its two indexes are inverse to each other, it holds
// ledger envelopes exactly as they were sent, and it holds all of them except those it has dropped
// as too old. Sequence numbers must not have saturated: from then on they repeat.
module BufferInvariant {
  import opened Protocol
  import opened TaskLedger
  import opened Session
  import opened WireInvariant
  import opened LedgerInvariant

  ghost predicate IndexesInverse(t: TaskState) {
    && (forall id :: id in t.bufferedById ==>
          t.bufferedById[id] in t.bufferedBySeq && t.bufferedBySeq[t.bufferedById[id]].eventId == id)
    && (forall q :: q in t.bufferedBySeq ==>
          t.bufferedBySeq[q].eventId in t.bufferedById && t.bufferedById[t.bufferedBySeq[q].eventId] == q)
  }

  ghost predicate EntriesOk(t: TaskState, log: seq<Entry>, sequence: nat, minted: nat) {
    && (forall q :: q in t.bufferedBySeq ==>
          q <= sequence && t.bufferedBySeq[q].envelope.sequence == q &&
          t.bufferedBySeq[q].envelope.eventId == t.bufferedBySeq[q].eventId < minted &&
          ToClient(RawText(t.bufferedBySeq[q].envelope, false)) in log)
    && (forall q :: q in t.purged ==> q <= sequence && q !in t.bufferedBySeq)
  }

  predicate Kept(t: TaskState, envelope: Envelope) {
    envelope.sequence in t.purged ||
    (envelope.sequence in t.bufferedBySeq && t.bufferedBySeq[envelope.sequence].envelope == envelope)
  }

  ghost predicate AllKept(t: TaskState, log: seq<Entry>) {
    forall i :: 0 <= i < |log| && IsLedgerEntry(log[i]) ==> Kept(t, log[i].message.envelope)
  }

  ghost predicate BufferOk(t: TaskState, log: seq<Entry>, sequence: nat, minted: nat) {
    && (forall q :: q in t.bufferedBySeq ==> t.bufferedBySeq[q].envelope.generation.None?)
    && (sequence < U64_MAX ==> IndexesInverse(t) && EntriesOk(t, log, sequence, minted) && AllKept(t, log))
  }

  predicate SameBuffer(t: TaskState, after: TaskState) {
    after.bufferedById == t.bufferedById && after.bufferedBySeq == t.bufferedBySeq && after.purged == t.purged
  }

  lemma BufferKept(t: TaskState, after: TaskState, log: seq<Entry>, sequence: nat, minted: nat)
    requires BufferOk(t, log, sequence, minted) && SameBuffer(t, after)
    ensures BufferOk(after, log, sequence, minted)
  {
  }

  // Growing the counters, and the log by anything that is not a ledger entry.
  lemma BufferGrows(t: TaskState, log: seq<Entry>, sequence: nat, minted: nat, more: seq<Entry>, sequence': nat,
                    minted': nat)
    requires BufferOk(t, log, sequence, minted)
    requires sequence <= sequence' && minted <= minted'
    requires forall e :: e in more ==> !IsLedgerEntry(e)
    ensures BufferOk(t, log + more, sequence', minted')
  {
  }

  // Buffering and sending a freshly numbered envelope.
  lemma BufferSends(t: TaskState, log: seq<Entry>, sequence: nat, minted: nat, envelope: Envelope, nowMs: nat)
    requires BufferOk(t, log, sequence, minted)
    requires envelope.sequence == NextSequence(sequence) && envelope.eventId == minted && envelope.generation.None?
    ensures BufferOk(Buffered(t, envelope.sequence, minted, envelope, nowMs),
                     log + [ToClient(RawText(envelope, false))],
                     envelope.sequence, minted + 1)
  {
    if envelope.sequence < U64_MAX {
      IndexesGrow(t, sequence, minted, envelope, nowMs);
      EntriesGrow(t, log, sequence, minted, envelope, nowMs);
      KeptGrows(t, log, sequence, envelope, nowMs);
    }
  }

  lemma IndexesGrow(t: TaskState, sequence: nat, minted: nat, envelope: Envelope, nowMs: nat)
    requires IndexesInverse(t) && envelope.eventId == minted
    requires forall q :: q in t.bufferedBySeq ==> q < envelope.sequence && t.bufferedBySeq[q].eventId < minted
    ensures minted !in t.bufferedById
    ensures IndexesInverse(Buffered(t, envelope.sequence, minted, envelope, nowMs))
  {
    assert forall id :: id in t.bufferedById ==> t.bufferedBySeq[t.bufferedById[id]].eventId == id;
  }

  lemma EntriesGrow(t: TaskState, log: seq<Entry>, sequence: nat, minted: nat, envelope: Envelope, nowMs: nat)
    requires EntriesOk(t, log, sequence, minted) && sequence < envelope.sequence && envelope.eventId == minted
    ensures EntriesOk(Buffered(t, envelope.sequence, minted, envelope, nowMs),
                      log + [ToClient(RawText(envelope, false))],
                      envelope.sequence, minted + 1)
  {
    var e := ToClient(RawText(envelope, false));
    assert (log + [e])[|log|] == e;
  }

  lemma KeptGrows(t: TaskState, log: seq<Entry>, sequence: nat, envelope: Envelope, nowMs: nat)
    requires AllKept(t, log) && envelope.eventId !in t.bufferedById
    requires forall q :: q in t.bufferedBySeq ==> q < envelope.sequence
    ensures AllKept(Buffered(t, envelope.sequence, envelope.eventId, envelope, nowMs),
                    log + [ToClient(RawText(envelope, false))])
  {
  }

  // Expiry drops exactly the listed sequences, from both indexes.
  lemma {:induction false} ForgetDrops(t: TaskState, qs: seq<nat>)
    ensures var r := Forget(t, qs);
            && (forall q :: q in r.bufferedBySeq <==> q in t.bufferedBySeq && q !in qs)
            && (forall q :: q in r.bufferedBySeq ==> r.bufferedBySeq[q] == t.bufferedBySeq[q])
            && (forall q :: q in r.purged <==> q in t.purged || (q in qs && q in t.bufferedBySeq))
            && r == t.(bufferedById := r.bufferedById, bufferedBySeq := r.bufferedBySeq, purged := r.purged)
    ensures IndexesInverse(t) ==> IndexesInverse(Forget(t, qs))
  {
    if qs != [] {
      var front, last := qs[..|qs| - 1], qs[|qs| - 1];
      ForgetDrops(t, front);
      assert forall q :: q in qs <==> q in front || q == last;
      var r := Forget(t, front);
      ForgetOneDrops(r, last);
    }
  }

  lemma ForgetOneDrops(t: TaskState, x: nat)
    ensures var r := ForgetOne(t, x);
            && (forall q :: q in r.bufferedBySeq <==> q in t.bufferedBySeq && q != x)
            && (forall q :: q in r.bufferedBySeq ==> r.bufferedBySeq[q] == t.bufferedBySeq[q])
            && (forall q :: q in r.purged <==> q in t.purged || (q == x && x in t.bufferedBySeq))
            && r == t.(bufferedById := r.bufferedById, bufferedBySeq := r.bufferedBySeq, purged := r.purged)
    ensures IndexesInverse(t) ==> IndexesInverse(ForgetOne(t, x))
  {
  }

  lemma BufferForgets(t: TaskState, log: seq<Entry>, sequence: nat, minted: nat, qs: seq<nat>)
    requires BufferOk(t, log, sequence, minted)
    ensures BufferOk(Forget(t, qs), log, sequence, minted)
  {
    ForgetDrops(t, qs);
  }
}
