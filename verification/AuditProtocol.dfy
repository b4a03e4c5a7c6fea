/** A control plane and its witness over a network that loses, delays and repeats
    messages, with crashes on both sides between any two durable writes. */
module AuditProtocol {
  import opened Common
  import opened AuditChain
  import opened AuditClients

  /** The witness's durable position in one workspace's chain. */
  datatype Checkpoint = Checkpoint(sequence: int, head: string, key: string, epoch: int, recovery: Option<string>)

  datatype Record = Record(batch: Batch, receipt: Receipt)

  /** `sent` is every batch ever posted and `answers` every receipt ever returned;
      `witnessKey` is the receipt key the witness is configured with. */
  datatype System = System(
    log: seq<string>, client: Option<SyncState>, rekeyed: nat, sent: set<Batch>, answers: set<Receipt>,
    witnessKey: string, checkpoint: Option<Checkpoint>, records: map<string, Record>)

  datatype Step =
    | Append(event: string)
    | Persist(settings: Settings, nonce: Fresh, trust: Trust)
    | Send
    | Configure(key: string)
    | Write(batch: Batch, mayRotate: bool)
    | Advance(batch: Batch, mayRotate: bool)
    | Answer(batch: Batch)
    | Confirm(receipt: Receipt, trust: Trust)

  // ----------------------------------------------------------------- the witness

  /** Where a witness stands before its first checkpoint. */
  function Standing(s: System): Checkpoint {
    if s.checkpoint.Some? then s.checkpoint.value else Checkpoint(0, GENESIS, s.witnessKey, 1, None)
  }

  function ReceiptFor(c: Crypto, b: Batch, rotating: bool): Receipt {
    Receipt(b.body.workspace, b.body.witnessId, b.body.fromSeq, b.body.toSeq, b.body.head, c.digest(b),
            b.body.key, b.body.recovery, b.body.epoch, b.body.key, rotating)
  }

  function Result(b: Batch): Checkpoint {
    Checkpoint(b.body.toSeq, b.body.head, b.body.key, b.body.epoch, b.body.recovery)
  }

  /** A cached receipt may be returned only while it describes the checkpoint. */
  predicate ReceiptIsCurrent(r: Receipt, at: Checkpoint) {
    r.toSeq == at.sequence && r.head == at.head && r.key == at.key && r.epoch == at.epoch && r.recovery == at.recovery
  }

  /** The witness would accept this batch as the next one. */
  predicate Acceptable(c: Crypto, s: System, b: Batch, mayRotate: bool) {
    var at := Standing(s);
    && Accepts(c, b.body, b.body.workspace, b.body.witnessId, at.sequence, at.head)
    && b.body.key == s.witnessKey && b.body.epoch == NextEpoch(Some(at.key), at.epoch, b.body.key)
    && (at.recovery.Some? ==> b.body.recovery == at.recovery)
    && (b.body.key != at.key ==> mayRotate)
  }

  predicate HasRecord(c: Crypto, s: System, b: Batch) {
    c.digest(b) in s.records && s.records[c.digest(b)].batch == b
  }

  predicate IsCurrent(c: Crypto, s: System, b: Batch) {
    HasRecord(c, s, b) && ReceiptIsCurrent(s.records[c.digest(b)].receipt, Standing(s))
  }

  /** A record left without its checkpoint is taken up only with the key
      transition that the checkpoint then needs. */
  predicate Recoverable(c: Crypto, s: System, b: Batch)
    requires HasRecord(c, s, b)
  {
    b.body.key != Standing(s).key ==> s.records[c.digest(b)].receipt.hasTransition
  }

  // ------------------------------------------------------------------- the steps

  predicate Enabled(c: Crypto, s: System, step: Step) {
    match step
    case Append(_) => true
    case Persist(settings, nonce, trust) =>
      PendingOf(s.client).None? && Passes(c, s.client, s.log, settings, trust)
      && Generated(c, nonce)
    case Send => PendingOf(s.client).Some?
    case Configure(_) => true
    case Write(b, mayRotate) => b in s.sent && c.digest(b) !in s.records && Acceptable(c, s, b, mayRotate)
    case Advance(b, mayRotate) =>
      b in s.sent && HasRecord(c, s, b) && !IsCurrent(c, s, b) && Acceptable(c, s, b, mayRotate) && Recoverable(c, s, b)
    case Answer(b) => b in s.sent && IsCurrent(c, s, b)
    case Confirm(r, trust) =>
      PendingOf(s.client).Some? && PendingOf(s.client).value.body.toSeq >= 0 && r in s.answers
      && ReceiptAccepted(c, r, PendingOf(s.client).value, PendingOf(s.client).value.body.key, CurrentKey(s.client), trust)
  }

  function Do(c: Crypto, s: System, step: Step): System
    requires Enabled(c, s, step)
  {
    match step
    case Append(event) => s.(log := s.log + [event])
    case Persist(settings, nonce, trust) =>
      s.(client := Some(Awaiting(s.client, settings, RecoveryFor(s.client, settings.recovery).value,
                                 Chosen(c, s.client, s.log, settings, nonce, trust))))
    case Send => s.(sent := s.sent + {PendingOf(s.client).value})
    case Configure(key) => s.(witnessKey := key)
    case Write(b, _) =>
      s.(records := s.records[c.digest(b) := Record(b, ReceiptFor(c, b, b.body.key != Standing(s).key))])
    case Advance(b, _) => s.(checkpoint := Some(Result(b)))
    case Answer(b) => s.(answers := s.answers + {s.records[c.digest(b)].receipt})
    case Confirm(r, _) =>
      var st := s.client.value;
      var b := st.pending.value;
      s.(client := Some(Settled(st, b, r)), rekeyed := if b.body.key == st.key then s.rekeyed else s.rekeyed + 1)
  }

  // --------------------------------------------------------------- the invariant

  /** A batch the client confirmed earlier. */
  predicate Past(st: SyncState, b: Batch) {
    && st.confirmed.Some? && b.body.toSeq <= st.sequence && b.body.epoch <= st.epoch && b.body.recovery == st.recovery
    && b.body.fromSeq == b.body.toSeq - |b.body.items| + 1
  }

  predicate SentFits(c: Crypto, s: System, b: Batch) {
    s.client.Some? && (s.client.value.pending == Some(b) || (Past(s.client.value, b) && HasRecord(c, s, b)))
  }

  function ConfirmedAt(st: SyncState): Checkpoint {
    Checkpoint(st.sequence, st.head, st.key, st.epoch, st.recovery)
  }

  /** The witness stands where this batch leads. It may do so without ever having
      written a checkpoint: an empty first batch leads to where it starts. */
  predicate There(s: System, b: Batch) {
    || s.checkpoint == Some(Result(b))
    || (s.checkpoint.None? && b.body.toSeq == 0 && b.body.epoch == 1 && b.body.recovery.None?)
  }

  /** The witness stands at the client's confirmed pair, or one pending batch
      further. Before anything was accepted it has no checkpoint. */
  predicate InStep(c: Crypto, s: System) {
    match s.client
    case None => s.checkpoint.None?
    case Some(st) =>
      || (st.confirmed.None? && s.checkpoint.None?)
      || (st.confirmed.Some? && s.checkpoint == Some(ConfirmedAt(st)))
      || (s.checkpoint.None? && st.sequence == 0 && st.epoch == 1 && st.recovery.None?)
      || (st.pending.Some? && s.checkpoint == Some(Result(st.pending.value)) && HasRecord(c, s, st.pending.value))
  }

  ghost predicate Digests(c: Crypto) {
    forall a, b :: c.digest(a) == c.digest(b) ==> a == b
  }

  ghost predicate RecordsFit(c: Crypto, s: System) {
    forall k :: k in s.records ==>
      && k == c.digest(s.records[k].batch) && s.records[k].batch in s.sent
      && (s.records[k].receipt == ReceiptFor(c, s.records[k].batch, true)
          || s.records[k].receipt == ReceiptFor(c, s.records[k].batch, false))
  }

  /** A receipt for the pending batch is out only once the checkpoint is there. */
  ghost predicate AnswersFit(c: Crypto, s: System) {
    forall r :: r in s.answers ==>
      exists b :: b in s.sent && HasRecord(c, s, b) && r.batchSha256 == c.digest(b)
                  && (s.client.Some? && s.client.value.pending == Some(b) ==> There(s, b))
  }

  ghost predicate SystemInv(c: Crypto, s: System) {
    && ClientFits(c, s.client, s.log, s.rekeyed)
    && (forall b :: b in s.sent ==> SentFits(c, s, b))
    && RecordsFit(c, s) && AnswersFit(c, s) && InStep(c, s)
  }

  /** Nothing was written yet and the witness is not configured with any key. */
  const START := System([], None, 0, {}, {}, "", None, map[])

  /** Agreement: the witness's checkpoint is always a true prefix of the local log
      with its chain head, and it is the client's confirmed pair or the one its
      pending batch leads to; and a client that confirmed any event has a witness
      that wrote one. */
  predicate Agreement(c: Crypto, s: System) {
    if s.checkpoint.None? then CurrentSequence(s.client) == 0
    else
      var at := s.checkpoint.value;
      && s.client.Some? && at.sequence >= 0 && HistoryAgrees(c, s.log, at.sequence, at.head)
      && (at == ConfirmedAt(s.client.value)
          || (s.client.value.pending.Some? && at == Result(s.client.value.pending.value)))
  }

  lemma InvImpliesAgreement(c: Crypto, s: System)
    requires SystemInv(c, s)
    ensures Agreement(c, s)
  {
  }

  /** A batch confirmed earlier can never move the witness again: either its own
      receipt is still current, or the witness refuses it. */
  lemma PastBatchesAreInert(c: Crypto, s: System, b: Batch, mayRotate: bool)
    requires SystemInv(c, s) && b in s.sent && s.client.Some? && s.client.value.pending != Some(b)
    ensures !Enabled(c, s, Write(b, mayRotate)) && !Enabled(c, s, Advance(b, mayRotate))
  {
    assert SentFits(c, s, b);
    if Acceptable(c, s, b, mayRotate) {
      var at := Standing(s);
      assert b.body.toSeq == at.sequence && |b.body.items| == 0;
      assert EventsOf(b.body.items) == [] && b.body.head == at.head;
    }
  }

  // ------------------------------------------------------- every step keeps it

  lemma PastStaysPast(st: SyncState, after: SyncState, b: Batch)
    requires Past(st, b) && after.confirmed.Some?
    requires after.sequence >= st.sequence && after.epoch >= st.epoch && after.recovery == st.recovery
    ensures Past(after, b)
  {
  }

  lemma PersistKeepsInv(c: Crypto, s: System, settings: Settings, nonce: Fresh, trust: Trust)
    requires Sound(c) && Digests(c) && SystemInv(c, s) && Enabled(c, s, Persist(settings, nonce, trust))
    ensures SystemInv(c, Do(c, s, Persist(settings, nonce, trust)))
  {
    var after := Do(c, s, Persist(settings, nonce, trust));
    PersistKeepsFit(c, s.client, s.log, s.rekeyed, settings, nonce, trust);
    forall b | b in after.sent ensures SentFits(c, after, b) {
      assert SentFits(c, s, b);
      assert Past(s.client.value, b);
    }
    PersistKeepsAnswers(c, s, settings, nonce, trust);
  }

  lemma PersistKeepsAnswers(c: Crypto, s: System, settings: Settings, nonce: Fresh, trust: Trust)
    requires Sound(c) && Digests(c) && SystemInv(c, s) && Enabled(c, s, Persist(settings, nonce, trust))
    ensures AnswersFit(c, Do(c, s, Persist(settings, nonce, trust)))
  {
    var after := Do(c, s, Persist(settings, nonce, trust));
    var st := after.client.value;
    PersistKeepsFit(c, s.client, s.log, s.rekeyed, settings, nonce, trust);
    forall r | r in after.answers
      ensures exists b :: b in after.sent && HasRecord(c, after, b) && r.batchSha256 == c.digest(b)
                          && (st.pending == Some(b) ==> There(after, b))
    {
      var b :| b in s.sent && HasRecord(c, s, b) && r.batchSha256 == c.digest(b);
      assert SentFits(c, s, b);
      if st.pending == Some(b) {
        PastEqualToPending(c, after, b);
      }
    }
  }

  /** A new batch identical to an old one asks for nothing: it leads back to the
      confirmed pair. */
  lemma PastEqualToPending(c: Crypto, s: System, b: Batch)
    requires s.client.Some? && StateFits(c, s.client.value, s.log, s.rekeyed)
    requires s.client.value.pending == Some(b) && Past(s.client.value, b)
    ensures Result(b) == ConfirmedAt(s.client.value)
  {
    assert |b.body.items| == 0 && EventsOf(b.body.items) == [];
  }

  lemma SendKeepsInv(c: Crypto, s: System)
    requires SystemInv(c, s) && Enabled(c, s, Send)
    ensures SystemInv(c, Do(c, s, Send))
  {
    var after := Do(c, s, Send);
    forall b | b in after.sent ensures SentFits(c, after, b) {
      if b in s.sent {
        assert SentFits(c, s, b);
      }
    }
    forall r | r in after.answers
      ensures exists b :: b in after.sent && HasRecord(c, after, b) && r.batchSha256 == c.digest(b)
                          && (after.client.value.pending == Some(b) ==> There(after, b))
    {
      var b :| b in s.sent && HasRecord(c, s, b) && r.batchSha256 == c.digest(b)
               && (s.client.Some? && s.client.value.pending == Some(b) ==> There(s, b));
      assert b in after.sent && HasRecord(c, after, b);
    }
  }

  lemma AppendKeepsInv(c: Crypto, s: System, event: string)
    requires SystemInv(c, s)
    ensures SystemInv(c, Do(c, s, Append(event)))
  {
    AppendKeepsFit(c, s.client, s.log, s.rekeyed, event);
    var after := Do(c, s, Append(event));
    SameButLog(c, s, after);
  }

  /** Only the log or the witness's configuration differs. */
  lemma SameButLog(c: Crypto, s: System, after: System)
    requires SystemInv(c, s) && ClientFits(c, after.client, after.log, after.rekeyed)
    requires after.client == s.client && after.sent == s.sent && after.answers == s.answers
    requires after.checkpoint == s.checkpoint && after.records == s.records
    ensures SystemInv(c, after)
  {
    forall b | b in after.sent ensures SentFits(c, after, b) {
      assert SentFits(c, s, b);
    }
    forall r | r in after.answers
      ensures exists b :: b in after.sent && HasRecord(c, after, b) && r.batchSha256 == c.digest(b)
                          && (after.client.Some? && after.client.value.pending == Some(b) ==> There(after, b))
    {
      var b :| b in s.sent && HasRecord(c, s, b) && r.batchSha256 == c.digest(b)
               && (s.client.Some? && s.client.value.pending == Some(b) ==> There(s, b));
      assert HasRecord(c, after, b);
    }
  }

  /** Adding records takes nothing away. */
  lemma MoreRecordsKeepRest(c: Crypto, s: System, after: System)
    requires SystemInv(c, s) && after == s.(records := after.records)
    requires forall k :: k in s.records ==> k in after.records && after.records[k] == s.records[k]
    ensures (forall b :: b in after.sent ==> SentFits(c, after, b)) && AnswersFit(c, after) && InStep(c, after)
  {
    forall b | b in after.sent ensures SentFits(c, after, b) {
      assert SentFits(c, s, b);
    }
    forall r | r in after.answers
      ensures exists b :: b in after.sent && HasRecord(c, after, b) && r.batchSha256 == c.digest(b)
                          && (after.client.Some? && after.client.value.pending == Some(b) ==> There(after, b))
    {
      var b :| b in s.sent && HasRecord(c, s, b) && r.batchSha256 == c.digest(b)
               && (s.client.Some? && s.client.value.pending == Some(b) ==> There(s, b));
      assert HasRecord(c, after, b);
    }
  }

  lemma WriteKeepsInv(c: Crypto, s: System, batch: Batch, mayRotate: bool)
    requires Digests(c) && SystemInv(c, s) && Enabled(c, s, Write(batch, mayRotate))
    ensures SystemInv(c, Do(c, s, Write(batch, mayRotate)))
  {
    MoreRecordsKeepRest(c, s, Do(c, s, Write(batch, mayRotate)));
  }

  lemma AdvanceKeepsInv(c: Crypto, s: System, batch: Batch, mayRotate: bool)
    requires Digests(c) && SystemInv(c, s) && Enabled(c, s, Advance(batch, mayRotate))
    ensures SystemInv(c, Do(c, s, Advance(batch, mayRotate)))
  {
    assert SentFits(c, s, batch);
    if s.client.value.pending != Some(batch) {
      PastBatchesAreInert(c, s, batch, mayRotate);
      assert false;
    }
    var after := Do(c, s, Advance(batch, mayRotate));
    forall b | b in after.sent ensures SentFits(c, after, b) {
      assert SentFits(c, s, b);
    }
    forall r | r in after.answers
      ensures exists b :: b in after.sent && HasRecord(c, after, b) && r.batchSha256 == c.digest(b)
                          && (after.client.value.pending == Some(b) ==> There(after, b))
    {
      var b :| b in s.sent && HasRecord(c, s, b) && r.batchSha256 == c.digest(b);
      assert HasRecord(c, after, b);
    }
  }

  lemma AnswerKeepsInv(c: Crypto, s: System, batch: Batch)
    requires Digests(c) && SystemInv(c, s) && Enabled(c, s, Answer(batch))
    ensures SystemInv(c, Do(c, s, Answer(batch)))
  {
    var after := Do(c, s, Answer(batch));
    forall b | b in after.sent ensures SentFits(c, after, b) {
      assert SentFits(c, s, b);
    }
    forall r | r in after.answers
      ensures exists b :: b in after.sent && HasRecord(c, after, b) && r.batchSha256 == c.digest(b)
                          && (after.client.Some? && after.client.value.pending == Some(b) ==> There(after, b))
    {
      if r in s.answers {
        var b :| b in s.sent && HasRecord(c, s, b) && r.batchSha256 == c.digest(b)
                 && (s.client.Some? && s.client.value.pending == Some(b) ==> There(s, b));
        assert HasRecord(c, after, b);
      } else {
        assert HasRecord(c, after, batch) && SentFits(c, s, batch);
        CurrentMeansThere(c, s, batch);
      }
    }
  }

  /** A receipt for the pending batch is current only once the checkpoint is there. */
  lemma CurrentMeansThere(c: Crypto, s: System, b: Batch)
    requires SystemInv(c, s) && b in s.sent && IsCurrent(c, s, b)
    ensures s.client.Some? && s.client.value.pending == Some(b) ==> There(s, b)
  {
  }

  /** A receipt the client accepts is for its pending batch, and the witness stands
      where that batch leads. */
  lemma ConfirmedIsThere(c: Crypto, s: System, r: Receipt, trust: Trust)
    requires Digests(c) && SystemInv(c, s) && Enabled(c, s, Confirm(r, trust))
    ensures var b := s.client.value.pending.value; b in s.sent && HasRecord(c, s, b) && There(s, b)
  {
    var b :| b in s.sent && HasRecord(c, s, b) && r.batchSha256 == c.digest(b)
             && (s.client.Some? && s.client.value.pending == Some(b) ==> There(s, b));
  }

  lemma ConfirmKeepsSent(c: Crypto, s: System, r: Receipt, trust: Trust, b: Batch)
    requires Digests(c) && SystemInv(c, s) && Enabled(c, s, Confirm(r, trust)) && b in s.sent
    ensures SentFits(c, Do(c, s, Confirm(r, trust)), b)
  {
    var st := s.client.value;
    ConfirmedIsThere(c, s, r, trust);
    assert SentFits(c, s, b);
    if b != st.pending.value {
      PastStaysPast(st, Settled(st, st.pending.value, r), b);
    }
  }

  lemma ConfirmKeepsAnswers(c: Crypto, s: System, r: Receipt, trust: Trust)
    requires Digests(c) && SystemInv(c, s) && Enabled(c, s, Confirm(r, trust))
    ensures AnswersFit(c, Do(c, s, Confirm(r, trust)))
  {
    var after := Do(c, s, Confirm(r, trust));
    forall x | x in after.answers
      ensures exists b :: b in after.sent && HasRecord(c, after, b) && x.batchSha256 == c.digest(b)
                          && (after.client.Some? && after.client.value.pending == Some(b) ==> There(after, b))
    {
      var b :| b in s.sent && HasRecord(c, s, b) && x.batchSha256 == c.digest(b);
      assert HasRecord(c, after, b);
    }
  }

  lemma ConfirmKeepsInv(c: Crypto, s: System, r: Receipt, trust: Trust)
    requires Sound(c) && Digests(c) && SystemInv(c, s) && Enabled(c, s, Confirm(r, trust))
    ensures SystemInv(c, Do(c, s, Confirm(r, trust)))
  {
    var st := s.client.value;
    ConfirmKeepsFit(c, st, s.log, s.rekeyed, r);
    ConfirmedIsThere(c, s, r, trust);
    ConfirmKeepsAnswers(c, s, r, trust);
    forall b | b in s.sent ensures SentFits(c, Do(c, s, Confirm(r, trust)), b) {
      ConfirmKeepsSent(c, s, r, trust, b);
    }
  }

  lemma StepKeepsInv(c: Crypto, s: System, step: Step)
    requires Sound(c) && Digests(c) && SystemInv(c, s) && Enabled(c, s, step)
    ensures SystemInv(c, Do(c, s, step))
  {
    match step {
      case Append(event) => AppendKeepsInv(c, s, event);
      case Persist(settings, nonce, trust) => PersistKeepsInv(c, s, settings, nonce, trust);
      case Send => SendKeepsInv(c, s);
      case Configure(_) => SameButLog(c, s, Do(c, s, step));
      case Write(b, mayRotate) => WriteKeepsInv(c, s, b, mayRotate);
      case Advance(b, mayRotate) => AdvanceKeepsInv(c, s, b, mayRotate);
      case Answer(b) => AnswerKeepsInv(c, s, b);
      case Confirm(r, trust) => ConfirmKeepsInv(c, s, r, trust);
    }
  }

  predicate Runnable(c: Crypto, s: System, steps: seq<Step>)
    decreases |steps|
  {
    steps == [] || (Enabled(c, s, steps[0]) && Runnable(c, Do(c, s, steps[0]), steps[1..]))
  }

  function Reached(c: Crypto, s: System, steps: seq<Step>): System
    requires Runnable(c, s, steps)
    decreases |steps|
  {
    if steps == [] then s else Reached(c, Do(c, s, steps[0]), steps[1..])
  }

  lemma {:induction false} RunKeepsInv(c: Crypto, s: System, steps: seq<Step>)
    requires Sound(c) && Digests(c) && SystemInv(c, s) && Runnable(c, s, steps)
    ensures SystemInv(c, Reached(c, s, steps))
    decreases |steps|
  {
    if steps != [] {
      StepKeepsInv(c, s, steps[0]);
      RunKeepsInv(c, Do(c, s, steps[0]), steps[1..]);
    }
  }

  /** The two ends never fork, whatever is lost, repeated or delayed. */
  lemma EndsNeverFork(c: Crypto, steps: seq<Step>)
    requires Sound(c) && Digests(c) && Runnable(c, START, steps)
    ensures Agreement(c, Reached(c, START, steps))
  {
    RunKeepsInv(c, START, steps);
    InvImpliesAgreement(c, Reached(c, START, steps));
  }

  /** The witness neither answers this batch nor takes it. */
  predicate Refuses(c: Crypto, s: System, b: Batch, mayRotate: bool) {
    !Enabled(c, s, Answer(b)) && !Enabled(c, s, Write(b, mayRotate)) && !Enabled(c, s, Advance(b, mayRotate))
  }

  /** There is a checkpoint to go on from, or the batch asks for the first epoch. */
  predicate Continues(s: System, b: Batch) {
    s.checkpoint.Some? || b.body.epoch == 1
  }

  // ---------------------------------------------------- how it can get stuck

  ghost predicate Leads(c: Crypto, s: System, steps: seq<Step>, t: System) {
    Runnable(c, s, steps) && Reached(c, s, steps) == t
  }

  lemma {:induction false} LeadsOn(c: Crypto, s: System, steps: seq<Step>, t: System, next: Step)
    requires Leads(c, s, steps, t) && Enabled(c, t, next)
    ensures Leads(c, s, steps + [next], Do(c, t, next))
    decreases |steps|
  {
    if steps == [] {
      assert (steps + [next])[1..] == [];
    } else {
      assert (steps + [next])[1..] == steps[1..] + [next];
      LeadsOn(c, Do(c, s, steps[0]), steps[1..], t, next);
    }
  }

  const ALL_TRUSTED := Trust(true, true, true)

  /** A client's settings with another receipt key. */
  function Asking(base: Settings, key: string): Settings {
    base.(key := key)
  }

  /** The batch, receipt and state of a client that exported an empty log. */
  function EmptyBatch(c: Crypto, base: Settings, key: string, epoch: int, nonce: Fresh): Batch {
    Signed(c, BodyFrom(c, [], Asking(base, key), epoch, 0, GENESIS, nonce), base.signer)
  }

  function FirstState(base: Settings, key: string, b: Batch): SyncState {
    SyncState(base.workspace, base.witnessId, base.endpoint, key, 1, None, 0, GENESIS, None, Some(b))
  }

  function FirstSystem(c: Crypto, base: Settings, key: string, nonce: Fresh): System {
    var b := EmptyBatch(c, base, key, 1, nonce);
    var r := ReceiptFor(c, b, false);
    System([], Some(Settled(FirstState(base, key, b), b, r)), 0, {b}, {r}, key, None, map[c.digest(b) := Record(b, r)])
  }

  lemma EmptyBatchIsAccepted(c: Crypto, base: Settings, key: string, epoch: int, nonce: Fresh)
    requires Sound(c) && base.recovery.None? && epoch >= 1 && c.named(key) && Generated(c, nonce)
    ensures Accepts(c, EmptyBatch(c, base, key, epoch, nonce).body, base.workspace, base.witnessId, 0, GENESIS)
    ensures EmptyBatch(c, base, key, epoch, nonce).body.head == GENESIS && EmptyBatch(c, base, key, epoch, nonce).body.toSeq == 0
  {
    BuiltBatchesAreAccepted(c, [], Asking(base, key), epoch, 0, GENESIS, nonce);
  }

  /** The witness records an empty first batch, dies before its checkpoint, and
      later answers from the record. */
  lemma FirstBatchLeavesNoCheckpoint(c: Crypto, base: Settings, key: string, nonce: Fresh) returns (steps: seq<Step>)
    requires Sound(c) && base.recovery.None? && c.named(key) && Generated(c, nonce)
    ensures Leads(c, START, steps, FirstSystem(c, base, key, nonce))
  {
    var b := EmptyBatch(c, base, key, 1, nonce);
    var r := ReceiptFor(c, b, false);
    EmptyBatchIsAccepted(c, base, key, 1, nonce);
    var persist := Persist(Asking(base, key), nonce, ALL_TRUSTED);
    var s1 := START.(client := Some(FirstState(base, key, b)));
    LeadsOn(c, START, [], START, persist);
    assert Do(c, START, persist) == s1;
    LeadsOn(c, START, [] + [persist], s1, Send);
    var s2 := s1.(sent := {b});
    LeadsOn(c, START, [] + [persist] + [Send], s2, Configure(key));
    var s3 := s2.(witnessKey := key);
    LeadsOn(c, START, [] + [persist] + [Send] + [Configure(key)], s3, Write(b, false));
    var s4 := s3.(records := map[c.digest(b) := Record(b, r)]);
    assert Do(c, s3, Write(b, false)) == s4;
    steps := [] + [persist] + [Send] + [Configure(key)] + [Write(b, false)];
    LeadsOn(c, START, steps, s4, Answer(b));
    var s5 := s4.(answers := {r});
    LeadsOn(c, START, steps + [Answer(b)], s5, Confirm(r, ALL_TRUSTED));
    assert Do(c, s5, Confirm(r, ALL_TRUSTED)) == FirstSystem(c, base, key, nonce);
    steps := steps + [Answer(b)] + [Confirm(r, ALL_TRUSTED)];
  }

  // ------------------------------------------------- stuck for ever, or not at all

  /** The client waits for a later key epoch than the first at a witness that has
      no checkpoint. */
  ghost predicate Stranded(c: Crypto, s: System, b: Batch) {
    SystemInv(c, s) && PendingOf(s.client) == Some(b) && !Continues(s, b)
  }

  lemma StrandedStep(c: Crypto, s: System, b: Batch, step: Step)
    requires Sound(c) && Digests(c) && Stranded(c, s, b) && Enabled(c, s, step)
    ensures Stranded(c, Do(c, s, step), b)
  {
    StepKeepsInv(c, s, step);
    match step {
      case Write(x, mayRotate) => StrandedTakesNothing(c, s, b, x, mayRotate);
      case Advance(x, mayRotate) => StrandedTakesNothing(c, s, b, x, mayRotate);
      case Confirm(r, trust) => ConfirmedIsThere(c, s, r, trust);
      case _ =>
    }
  }

  lemma StrandedTakesNothing(c: Crypto, s: System, b: Batch, x: Batch, mayRotate: bool)
    requires Stranded(c, s, b)
    ensures !Enabled(c, s, Write(x, mayRotate)) && !Enabled(c, s, Advance(x, mayRotate))
    ensures !Enabled(c, s, Answer(b))
  {
    if x in s.sent && x != b {
      PastBatchesAreInert(c, s, x, mayRotate);
    }
  }

  /** Nothing that client, witness or network can do ends this: the same batch
      stays pending, and the witness refuses it, whatever it is configured with
      and whatever rotation it would allow. */
  lemma {:induction false} StrandedForEver(c: Crypto, s: System, b: Batch, more: seq<Step>, mayRotate: bool)
    requires Sound(c) && Digests(c) && Stranded(c, s, b) && Runnable(c, s, more)
    ensures var later := Reached(c, s, more);
      Stranded(c, later, b) && PendingOf(later.client) == Some(b) && Refuses(c, later, b, mayRotate)
    decreases |more|
  {
    if more == [] {
      StrandedTakesNothing(c, s, b, b, mayRotate);
    } else {
      StrandedStep(c, s, b, more[0]);
      StrandedForEver(c, Do(c, s, more[0]), b, more[1..], mayRotate);
    }
  }

  /** A receipt for a pending batch that changes the key carries the transition. */
  ghost predicate TransitionsFit(c: Crypto, s: System) {
    forall b :: PendingOf(s.client) == Some(b) && HasRecord(c, s, b) && b.body.key != s.client.value.key
      ==> s.records[c.digest(b)].receipt.hasTransition
  }

  lemma PersistKeepsTransitions(c: Crypto, s: System, step: Step)
    requires Sound(c) && Digests(c) && SystemInv(c, s) && step.Persist? && Enabled(c, s, step)
    ensures TransitionsFit(c, Do(c, s, step))
  {
    PersistKeepsInv(c, s, step.settings, step.nonce, step.trust);
    var after := Do(c, s, step);
    forall b | PendingOf(after.client) == Some(b) && HasRecord(c, after, b) ensures b.body.key == after.client.value.key {
      assert HasRecord(c, s, b) && b in s.sent && SentFits(c, s, b);
      PastEqualToPending(c, after, b);
    }
  }

  lemma WriteKeepsTransitions(c: Crypto, s: System, step: Step)
    requires Sound(c) && Digests(c) && SystemInv(c, s) && TransitionsFit(c, s) && step.Write? && Enabled(c, s, step)
    ensures TransitionsFit(c, Do(c, s, step))
  {
  }

  lemma StepKeepsTransitions(c: Crypto, s: System, step: Step)
    requires Sound(c) && Digests(c) && SystemInv(c, s) && TransitionsFit(c, s) && Enabled(c, s, step)
    ensures TransitionsFit(c, Do(c, s, step))
  {
    if step.Persist? {
      PersistKeepsTransitions(c, s, step);
    } else if step.Write? {
      WriteKeepsTransitions(c, s, step);
    }
  }

  lemma {:induction false} RunKeepsTransitions(c: Crypto, s: System, steps: seq<Step>)
    requires Sound(c) && Digests(c) && SystemInv(c, s) && TransitionsFit(c, s) && Runnable(c, s, steps)
    ensures SystemInv(c, Reached(c, s, steps)) && TransitionsFit(c, Reached(c, s, steps))
    decreases |steps|
  {
    if steps != [] {
      StepKeepsInv(c, s, steps[0]);
      StepKeepsTransitions(c, s, steps[0]);
      RunKeepsTransitions(c, Do(c, s, steps[0]), steps[1..]);
    }
  }

  /** What a witness does with the sent pending batch, in any configuration: it
      answers what it already stands at; and otherwise takes the batch exactly
      when it is configured with the batch's key, may rotate to it if it is new,
      and does not have to start a later key epoch without a checkpoint. */
  lemma PendingIsRefusedExactlyWhen(c: Crypto, steps: seq<Step>, mayRotate: bool)
    requires Sound(c) && Digests(c) && Runnable(c, START, steps)
    requires var s := Reached(c, START, steps); PendingOf(s.client).Some? && PendingOf(s.client).value in s.sent
    ensures var s := Reached(c, START, steps);
      var b := PendingOf(s.client).value;
      Refuses(c, s, b, mayRotate)
      <==> !IsCurrent(c, s, b)
           && !(s.witnessKey == b.body.key && (b.body.key != Standing(s).key ==> mayRotate) && Continues(s, b))
  {
    RunKeepsTransitions(c, START, steps);
    var s := Reached(c, START, steps);
    var b := PendingOf(s.client).value;
    if !IsCurrent(c, s, b) {
      PendingIsAcceptable(c, s, b, mayRotate);
      if HasRecord(c, s, b) && b.body.key == s.witnessKey {
        PendingIsRecoverable(c, s, b);
      }
      OnlyAcceptableIsTaken(c, s, b, mayRotate);
    }
  }

  lemma OnlyAcceptableIsTaken(c: Crypto, s: System, b: Batch, mayRotate: bool)
    requires Digests(c) && RecordsFit(c, s) && b in s.sent && !IsCurrent(c, s, b)
    requires HasRecord(c, s, b) && b.body.key == s.witnessKey ==> Recoverable(c, s, b)
    ensures Refuses(c, s, b, mayRotate) <==> !Acceptable(c, s, b, mayRotate)
  {
    if c.digest(b) in s.records {
      assert HasRecord(c, s, b);
    }
  }

  lemma PendingIsRecoverable(c: Crypto, s: System, b: Batch)
    requires SystemInv(c, s) && TransitionsFit(c, s) && PendingOf(s.client) == Some(b) && HasRecord(c, s, b)
    requires b.body.key == s.witnessKey
    ensures Recoverable(c, s, b)
  {
  }

  lemma PendingIsAcceptable(c: Crypto, s: System, b: Batch, mayRotate: bool)
    requires Sound(c) && Digests(c) && SystemInv(c, s) && PendingOf(s.client) == Some(b) && !IsCurrent(c, s, b)
    ensures Acceptable(c, s, b, mayRotate)
            <==> s.witnessKey == b.body.key && (b.body.key != Standing(s).key ==> mayRotate) && Continues(s, b)
  {
  }

  /** The state a run can get to, with the batch still waiting to be confirmed. */
  ghost predicate Waits(c: Crypto, t: System, b: Batch) {
    && SystemInv(c, t) && TransitionsFit(c, t) && PendingOf(t.client) == Some(b) && b in t.sent && Continues(t, b)
  }

  lemma StepWaits(c: Crypto, s: System, more: seq<Step>, t: System, b: Batch, step: Step)
    requires Sound(c) && Digests(c) && Waits(c, t, b) && Leads(c, s, more, t) && Enabled(c, t, step)
    requires step.Configure? || step.Write? || step.Advance?
    ensures Waits(c, Do(c, t, step), b) && Leads(c, s, more + [step], Do(c, t, step))
  {
    LeadsOn(c, s, more, t, step);
    StepKeepsInv(c, t, step);
    StepKeepsTransitions(c, t, step);
  }

  lemma WaitingIsTaken(c: Crypto, t: System, b: Batch)
    requires Sound(c) && Digests(c) && Waits(c, t, b) && !IsCurrent(c, t, b) && t.witnessKey == b.body.key
    ensures if c.digest(b) in t.records then Enabled(c, t, Advance(b, true)) else Enabled(c, t, Write(b, true))
  {
    PendingIsAcceptable(c, t, b, true);
    if c.digest(b) in t.records {
      assert HasRecord(c, t, b);
      PendingIsRecoverable(c, t, b);
    }
  }

  /** With the key configured and a rotation allowed, the witness ends up where
      the batch leads. */
  lemma WitnessCatchesUp(c: Crypto, s: System, b: Batch) returns (more: seq<Step>, t: System)
    requires Sound(c) && Digests(c) && Waits(c, s, b)
    ensures Leads(c, s, more, t) && Waits(c, t, b) && IsCurrent(c, t, b)
  {
    more, t := [], s;
    if !IsCurrent(c, t, b) {
      StepWaits(c, s, more, t, b, Configure(b.body.key));
      more, t := more + [Configure(b.body.key)], Do(c, t, Configure(b.body.key));
      if !IsCurrent(c, t, b) {
        WaitingIsTaken(c, t, b);
        if c.digest(b) !in t.records {
          StepWaits(c, s, more, t, b, Write(b, true));
          more, t := more + [Write(b, true)], Do(c, t, Write(b, true));
        }
        if !IsCurrent(c, t, b) {
          WaitingIsTaken(c, t, b);
          StepWaits(c, s, more, t, b, Advance(b, true));
          more, t := more + [Advance(b, true)], Do(c, t, Advance(b, true));
          AdvancedIsCurrent(c, t, b);
        }
      }
    }
  }

  lemma AdvancedIsCurrent(c: Crypto, t: System, b: Batch)
    requires SystemInv(c, t) && HasRecord(c, t, b) && t.checkpoint == Some(Result(b))
    ensures IsCurrent(c, t, b)
  {
  }

  lemma CaughtUpIsConfirmed(c: Crypto, t: System, b: Batch)
    requires Sound(c) && Digests(c) && Waits(c, t, b) && IsCurrent(c, t, b)
    ensures var r := t.records[c.digest(b)].receipt;
      && Enabled(c, t, Answer(b)) && Enabled(c, Do(c, t, Answer(b)), Confirm(r, ALL_TRUSTED))
      && PendingOf(Do(c, Do(c, t, Answer(b)), Confirm(r, ALL_TRUSTED)).client).None?
  {
  }

  ghost predicate CanBeConfirmed(c: Crypto, s: System) {
    exists more :: Runnable(c, s, more) && PendingOf(Reached(c, s, more).client).None?
  }

  /** Whatever happens next, the batch stays pending and the witness refuses it. */
  ghost predicate RefusedForEver(c: Crypto, s: System, b: Batch) {
    forall more, mayRotate :: Runnable(c, s, more) ==>
      PendingOf(Reached(c, s, more).client) == Some(b) && Refuses(c, Reached(c, s, more), b, mayRotate)
  }

  lemma StrandedIsRefused(c: Crypto, s: System, b: Batch)
    requires Sound(c) && Digests(c) && Stranded(c, s, b)
    ensures RefusedForEver(c, s, b) && !CanBeConfirmed(c, s)
  {
    assert RefusedForEver(c, s, b) by {
      forall more, mayRotate | Runnable(c, s, more)
        ensures PendingOf(Reached(c, s, more).client) == Some(b)
        ensures Refuses(c, Reached(c, s, more), b, mayRotate)
      {
        StrandedForEver(c, s, b, more, mayRotate);
      }
    }
    forall more | Runnable(c, s, more) ensures PendingOf(Reached(c, s, more).client).Some? {
      StrandedForEver(c, s, b, more, true);
    }
  }

  lemma ContinuingIsConfirmed(c: Crypto, s: System, b: Batch)
    requires Sound(c) && Digests(c) && Waits(c, s, b)
    ensures CanBeConfirmed(c, s)
  {
    var more, t := WitnessCatchesUp(c, s, b);
    CaughtUpIsConfirmed(c, t, b);
    var answer, confirm := Answer(b), Confirm(t.records[c.digest(b)].receipt, ALL_TRUSTED);
    LeadsOn(c, s, more, t, answer);
    LeadsOn(c, s, more + [answer], Do(c, t, answer), confirm);
    assert Runnable(c, s, more + [answer] + [confirm]);
  }

  lemma ConfirmedIsNotRefused(c: Crypto, s: System, b: Batch)
    requires CanBeConfirmed(c, s)
    ensures !RefusedForEver(c, s, b)
  {
    var more :| Runnable(c, s, more) && PendingOf(Reached(c, s, more).client).None?;
    var refused := Refuses(c, Reached(c, s, more), b, true);
    assert !(PendingOf(Reached(c, s, more).client) == Some(b) && refused);
  }

  /** A sent batch can still be confirmed, by some run, exactly when a checkpoint
      exists or the batch asks for the first key epoch; otherwise it is pending
      and refused for ever. */
  lemma ConfirmableExactlyWhen(c: Crypto, steps: seq<Step>)
    requires Sound(c) && Digests(c) && Runnable(c, START, steps)
    requires var s := Reached(c, START, steps); PendingOf(s.client).Some? && PendingOf(s.client).value in s.sent
    ensures var s := Reached(c, START, steps);
      && (CanBeConfirmed(c, s) <==> Continues(s, PendingOf(s.client).value))
      && (RefusedForEver(c, s, PendingOf(s.client).value) <==> !Continues(s, PendingOf(s.client).value))
  {
    RunKeepsTransitions(c, START, steps);
    var s := Reached(c, START, steps);
    var b := PendingOf(s.client).value;
    if Continues(s, b) {
      ContinuingIsConfirmed(c, s, b);
      ConfirmedIsNotRefused(c, s, b);
    } else {
      StrandedIsRefused(c, s, b);
    }
  }

  /** Such a client can then strand itself by rotating the receipt key: its batch
      asks for the second key epoch, a witness without a checkpoint takes the new
      key for its first, and it refuses that batch in every later state. So it goes
      under any settings that name no recovery key. */
  lemma RotationCanStrandAClient(c: Crypto, base: Settings, first: string, second: string, a: Fresh, b: Fresh)
    returns (steps: seq<Step>)
    requires Sound(c) && Digests(c) && first != second && base.recovery.None?
    requires c.named(first) && c.named(second) && Generated(c, a) && Generated(c, b)
    ensures Runnable(c, START, steps)
    ensures var s := Reached(c, START, steps);
      && PendingOf(s.client) == Some(EmptyBatch(c, base, second, 2, b)) && PendingOf(s.client).value in s.sent
      && s.witnessKey == PendingOf(s.client).value.body.key
      && RefusedForEver(c, s, PendingOf(s.client).value)
  {
    var start := FirstBatchLeavesNoCheckpoint(c, base, first, a);
    var s;
    steps, s := RotateAfterEmptyBatch(c, base, first, second, a, b, start);
    RunKeepsInv(c, START, steps);
    StrandedIsRefused(c, s, PendingOf(s.client).value);
  }

  lemma RotateAfterEmptyBatch(c: Crypto, base: Settings, first: string, second: string, a: Fresh, b: Fresh, start: seq<Step>)
    returns (steps: seq<Step>, s: System)
    requires Sound(c) && Digests(c) && first != second && base.recovery.None?
    requires c.named(first) && c.named(second) && Generated(c, a) && Generated(c, b)
    requires Leads(c, START, start, FirstSystem(c, base, first, a))
    ensures Leads(c, START, steps, s)
    ensures s.checkpoint.None? && PendingOf(s.client) == Some(EmptyBatch(c, base, second, 2, b))
    ensures PendingOf(s.client).value in s.sent && s.witnessKey == second
  {
    steps := start;
    EmptyBatchIsAccepted(c, base, first, 1, a);
    s := FirstSystem(c, base, first, a);
    LeadsOn(c, START, steps, s, Configure(second));
    steps, s := steps + [Configure(second)], s.(witnessKey := second);
    var persist := Persist(Asking(base, second), b, ALL_TRUSTED);
    LeadsOn(c, START, steps, s, persist);
    steps, s := steps + [persist], Do(c, s, persist);
    assert s.client.value.pending == Some(EmptyBatch(c, base, second, 2, b));
    LeadsOn(c, START, steps, s, Send);
    steps, s := steps + [Send], Do(c, s, Send);
  }
}
