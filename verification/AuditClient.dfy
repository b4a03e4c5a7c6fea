/** The control plane's side of the audit: one state file per witness, rewritten
    twice per sync, before the batch is sent and after its receipt is verified. */
module AuditClients {
  import opened Common
  import opened AuditChain

  datatype Receipt = Receipt(
    workspace: string, witnessId: string, fromSeq: int, toSeq: int, head: string, batchSha256: string,
    key: string, recovery: Option<string>, epoch: int, signedBy: string, hasTransition: bool)

  datatype Confirmed = Confirmed(batch: Batch, receipt: Receipt)

  datatype SyncState = SyncState(
    workspace: string, witnessId: string, endpoint: string, key: string, epoch: int, recovery: Option<string>,
    sequence: nat, head: string, confirmed: Option<Confirmed>, pending: Option<Batch>)

  /** What the trust stores say: of the stored receipt, of a new receipt, and of
      the key transition inside it. */
  datatype Trust = Trust(history: bool, receipt: bool, transition: bool)

  /** How one sync's exchange with the witness goes. */
  datatype Fate = DiesUnwritten | DiesUnsent | NoAnswer | Answered(receipt: Receipt)

  // ------------------------------------------------------------------ the checks

  predicate ReceiptMatches(c: Crypto, r: Receipt, b: Batch, key: string) {
    && r.signedBy == key && r.workspace == b.body.workspace && r.witnessId == b.body.witnessId
    && r.fromSeq == b.body.fromSeq && r.toSeq == b.body.toSeq && r.head == b.body.head && r.batchSha256 == c.digest(b)
    && r.key == key && r.recovery == b.body.recovery && r.epoch == b.body.epoch
  }

  predicate ReceiptAccepted(c: Crypto, r: Receipt, b: Batch, key: string, previous: Option<string>, trust: Trust) {
    && trust.receipt && ReceiptMatches(c, r, b, key)
    && (previous.Some? && previous.value != key ==> r.hasTransition && trust.transition)
  }

  predicate ConfirmedStateHolds(c: Crypto, st: SyncState, trust: Trust) {
    IsSha256(st.head)
    && match st.confirmed
       case None => st.sequence == 0 && st.head == GENESIS
       case Some(done) =>
         && trust.history && ReceiptMatches(c, done.receipt, done.batch, st.key)
         && done.batch.body.toSeq == st.sequence && done.batch.body.head == st.head
         && done.batch.body.recovery == st.recovery && done.batch.body.epoch == st.epoch
  }

  /** The recovery key an invocation ends up with, or a mismatch. */
  function RecoveryFor(state: Option<SyncState>, asked: Option<string>): Result<Option<string>, AuditError> {
    if state.None? then Ok(asked)
    else if asked.None? && state.value.recovery.Some? then Ok(state.value.recovery)
    else if state.value.recovery != asked then Err(OtherSettings)
    else Ok(asked)
  }

  predicate SameSettings(state: Option<SyncState>, s: Settings) {
    state.Some? ==> state.value.endpoint == s.endpoint && state.value.workspace == s.workspace
                    && state.value.witnessId == s.witnessId
  }

  function CurrentKey(state: Option<SyncState>): Option<string> {
    if state.Some? then Some(state.value.key) else None
  }

  function CurrentEpoch(state: Option<SyncState>): int {
    if state.Some? then state.value.epoch else 1
  }

  function CurrentSequence(state: Option<SyncState>): nat {
    if state.Some? then state.value.sequence else 0
  }

  function CurrentHead(state: Option<SyncState>): string {
    if state.Some? then state.value.head else GENESIS
  }

  /** A stored pending batch may be sent again: it is exactly what this invocation
      would stand behind, and the local log still leads to its head. */
  predicate Reusable(c: Crypto, b: Batch, state: Option<SyncState>, s: Settings, log: seq<string>) {
    && b.body.endpoint == s.endpoint && b.body.key == s.key && b.body.recovery == s.recovery
    && b.body.epoch == NextEpoch(CurrentKey(state), CurrentEpoch(state), s.key)
    && Accepts(c, b.body, s.workspace, s.witnessId, CurrentSequence(state), CurrentHead(state))
    && b.signer == s.signer && b.signature == c.sign(b.body, s.signer)
    && b.body.toSeq >= 0 && HistoryAgrees(c, log, b.body.toSeq, b.body.head)
  }

  /** The key names an invocation was given are well-formed. */
  predicate Named(c: Crypto, key: string, recovery: Option<string>) {
    c.named(key) && (recovery.Some? ==> c.named(recovery.value))
  }

  function PendingOf(state: Option<SyncState>): Option<Batch> {
    if state.Some? then state.value.pending else None
  }

  /** An invocation gets past its checks. */
  predicate Passes(c: Crypto, state: Option<SyncState>, log: seq<string>, s: Settings, trust: Trust) {
    && Named(c, s.key, s.recovery) && SameSettings(state, s) && RecoveryFor(state, s.recovery).Ok?
    && (state.Some? ==> ConfirmedStateHolds(c, state.value, trust))
    && HistoryAgrees(c, log, CurrentSequence(state), CurrentHead(state))
    && (PendingOf(state).Some? ==>
          Reusable(c, PendingOf(state).value, state, s.(recovery := RecoveryFor(state, s.recovery).value), log))
  }

  /** The batch it then works with: the stored one, or a new one. */
  function Chosen(c: Crypto, state: Option<SyncState>, log: seq<string>, s: Settings, nonce: Fresh, trust: Trust): Batch
    requires Passes(c, state, log, s, trust)
  {
    if PendingOf(state).Some? then PendingOf(state).value
    else
      Signed(c, BodyFrom(c, log, s.(recovery := RecoveryFor(state, s.recovery).value),
                         NextEpoch(CurrentKey(state), CurrentEpoch(state), s.key),
                         CurrentSequence(state), CurrentHead(state), nonce), s.signer)
  }

  /** The state file once the batch is persisted. */
  function Awaiting(state: Option<SyncState>, s: Settings, recovery: Option<string>, b: Batch): SyncState {
    if PendingOf(state).Some? then state.value
    else SyncState(s.workspace, s.witnessId, s.endpoint, if state.Some? then state.value.key else s.key,
                   CurrentEpoch(state), recovery, CurrentSequence(state), CurrentHead(state),
                   if state.Some? then state.value.confirmed else None, Some(b))
  }

  /** The state file once its receipt is verified. */
  function Settled(st: SyncState, b: Batch, r: Receipt): SyncState
    requires b.body.toSeq >= 0
  {
    st.(key := b.body.key, epoch := b.body.epoch, sequence := b.body.toSeq, head := b.body.head,
        confirmed := Some(Confirmed(b, r)), pending := None)
  }

  // ------------------------------------------------------------- the invariant

  /** The pending batch continues the confirmed checkpoint along the local log. */
  predicate PendingFits(c: Crypto, st: SyncState, log: seq<string>, b: Batch) {
    && Accepts(c, b.body, st.workspace, st.witnessId, st.sequence, st.head)
    && b.body.endpoint == st.endpoint && b.body.recovery == st.recovery
    && b.body.epoch == NextEpoch(Some(st.key), st.epoch, b.body.key)
    && b.signature == c.sign(b.body, b.signer)
    && HistoryAgrees(c, log, b.body.toSeq, b.body.head)
  }

  /** The confirmed pair is a true prefix of the log with its chain head, and the
      state file agrees with itself. `rekeyed` counts confirmed key changes. */
  predicate StateFits(c: Crypto, st: SyncState, log: seq<string>, rekeyed: nat) {
    && HistoryAgrees(c, log, st.sequence, st.head) && st.epoch == 1 + rekeyed && IsSha256(st.head)
    && (st.recovery.Some? ==> c.named(st.recovery.value))
    && (match st.confirmed
        case None => st.sequence == 0 && rekeyed == 0 && st.pending.Some? && st.pending.value.body.key == st.key
        case Some(done) =>
          && ReceiptMatches(c, done.receipt, done.batch, st.key)
          && done.batch.body.toSeq == st.sequence && done.batch.body.head == st.head
          && done.batch.body.recovery == st.recovery && done.batch.body.epoch == st.epoch)
    && (st.pending.Some? ==> PendingFits(c, st, log, st.pending.value))
  }

  predicate ClientFits(c: Crypto, state: Option<SyncState>, log: seq<string>, rekeyed: nat) {
    if state.None? then rekeyed == 0 else StateFits(c, state.value, log, rekeyed)
  }

  /** The state file after a receipt: nothing pending, and that receipt, for these
      settings, saying the state's own pair, which is a prefix of the log. */
  predicate ConfirmedBy(c: Crypto, st: SyncState, log: seq<string>, s: Settings, r: Receipt) {
    && st.pending.None? && st.confirmed.Some? && st.confirmed.value.receipt == r
    && r.signedBy == s.key && r.workspace == s.workspace && r.witnessId == s.witnessId
    && r.batchSha256 == c.digest(st.confirmed.value.batch) && r.key == s.key && r.epoch == st.epoch
    && st.workspace == s.workspace && st.witnessId == s.witnessId && st.key == s.key
    && r.toSeq == st.sequence <= |log| && r.head == st.head && ChainHead(c, log[..st.sequence]) == st.head
  }

  lemma AppendKeepsFit(c: Crypto, state: Option<SyncState>, log: seq<string>, rekeyed: nat, event: string)
    requires ClientFits(c, state, log, rekeyed)
    ensures ClientFits(c, state, log + [event], rekeyed)
  {
    if state.Some? {
      assert (log + [event])[..state.value.sequence] == log[..state.value.sequence];
      if state.value.pending.Some? {
        var to := state.value.pending.value.body.toSeq;
        assert (log + [event])[..to] == log[..to];
      }
    }
  }

  /** A request id and a time as the client itself generates them. */
  predicate Generated(c: Crypto, nonce: Fresh) {
    IsRequestId(nonce.requestId) && c.dated(nonce.requestedAt)
  }

  /** Persisting a newly built batch keeps the invariant. */
  lemma PersistKeepsFit(c: Crypto, state: Option<SyncState>, log: seq<string>, rekeyed: nat, s: Settings,
      nonce: Fresh, trust: Trust)
    requires Sound(c) && ClientFits(c, state, log, rekeyed) && Passes(c, state, log, s, trust)
    requires Generated(c, nonce)
    ensures var recovery := RecoveryFor(state, s.recovery).value;
      var st := Awaiting(state, s, recovery, Chosen(c, state, log, s, nonce, trust));
      StateFits(c, st, log, rekeyed) && st.pending == Some(Chosen(c, state, log, s, nonce, trust))
      && st.sequence == CurrentSequence(state) && st.head == CurrentHead(state)
  {
    if PendingOf(state).None? {
      var used := s.(recovery := RecoveryFor(state, s.recovery).value);
      var epoch := NextEpoch(CurrentKey(state), CurrentEpoch(state), s.key);
      BuiltBatchesAreAccepted(c, log, used, epoch, CurrentSequence(state), CurrentHead(state), nonce);
      assert log[..|log|] == log;
    }
  }

  /** Confirming the pending batch keeps the invariant: the pair moves on to a
      longer prefix, and the epoch counts the change of key, if there was one. */
  lemma ConfirmKeepsFit(c: Crypto, st: SyncState, log: seq<string>, rekeyed: nat, r: Receipt)
    requires Sound(c) && StateFits(c, st, log, rekeyed) && st.pending.Some?
    requires ReceiptMatches(c, r, st.pending.value, st.pending.value.body.key)
    ensures var b := st.pending.value;
      && b.body.toSeq >= st.sequence
      && StateFits(c, Settled(st, b, r), log, if b.body.key == st.key then rekeyed else rekeyed + 1)
  {
    var b := st.pending.value;
    ExtendIsHash(c, st.head, st.sequence, EventsOf(b.body.items));
  }

  /** A client that persisted a batch can always send it again: nothing it did
      itself, and no event logged since, makes it refuse its own pending batch. */
  lemma PendingStaysReusable(c: Crypto, st: SyncState, log: seq<string>, rekeyed: nat, s: Settings, trust: Trust)
    requires StateFits(c, st, log, rekeyed) && st.pending.Some? && trust.history
    requires var b := st.pending.value;
      s == Settings(st.workspace, st.witnessId, st.endpoint, b.signer, b.body.key, st.recovery)
    ensures Passes(c, Some(st), log, s, trust)
  {
    ChainOfNothing(c);
  }

  lemma ChainOfNothing(c: Crypto)
    ensures forall log: seq<string> :: ChainHead(c, log[..0]) == GENESIS
  {
  }

  class AuditClient {
    const c: Crypto
    var log: seq<string>
    var state: Option<SyncState>
    /** Batches sent since the last confirmation, and confirmed key changes. */
    ghost var sent: set<Batch>
    ghost var rekeyed: nat

    ghost predicate Valid()
      reads this
    {
      && Sound(c) && ClientFits(c, state, log, rekeyed)
      && (forall b :: b in sent ==> PendingOf(state) == Some(b))
    }

    constructor (c: Crypto)
      requires Sound(c)
      ensures Valid() && this.c == c && log == [] && state == None && sent == {}
    {
      this.c, this.log, this.state, this.sent, this.rekeyed := c, [], None, {}, 0;
    }

    method Append(event: string)
      requires Valid()
      modifies this`log
      ensures Valid() && log == old(log) + [event]
    {
      AppendKeepsFit(c, state, log, rekeyed, event);
      log := log + [event];
    }

    /** Every check a sync makes before it writes anything. */
    method Check(s: Settings, trust: Trust) returns (reply: Result<Option<string>, AuditError>)
      requires Sound(c)
      ensures reply.Ok? <==> Passes(c, state, log, s, trust)
      ensures reply.Ok? ==> reply == RecoveryFor(state, s.recovery)
    {
      if !c.named(s.key) || (s.recovery.Some? && !c.named(s.recovery.value)) {
        return Err(BadRequest);
      }
      var recovery := s.recovery;
      if state.Some? {
        var previous := state.value;
        if previous.endpoint != s.endpoint || previous.workspace != s.workspace || previous.witnessId != s.witnessId {
          return Err(OtherSettings);
        }
        if recovery.None? && previous.recovery.Some? {
          recovery := previous.recovery;
        } else if previous.recovery != recovery {
          return Err(OtherSettings);
        }
        if !ConfirmedStateHolds(c, previous, trust) {
          return Err(Untrusted);
        }
      }
      var history := ValidateLocalHistory(c, log, CurrentSequence(state), CurrentHead(state));
      if history.Fail? {
        return Err(history.error);
      }
      if PendingOf(state).Some? {
        var b := PendingOf(state).value;
        if b.body.endpoint != s.endpoint || b.body.key != s.key || b.body.recovery != recovery {
          return Err(OtherSettings);
        }
        if b.body.epoch != NextEpoch(CurrentKey(state), CurrentEpoch(state), s.key) {
          return Err(BadEpoch);
        }
        var replay := ValidateAuditBatch(c, b.body, s.workspace, s.witnessId, CurrentSequence(state), CurrentHead(state));
        if replay.Err? {
          return Err(replay.error);
        }
        if b.signer != s.signer || b.signature != c.sign(b.body, s.signer) {
          return Err(OtherSettings);
        }
        var leads := ValidateLocalHistory(c, log, replay.value.0, replay.value.1);
        if leads.Fail? {
          return Err(leads.error);
        }
      }
      return Ok(recovery);
    }

    /** The stored batch, or a newly built and signed one. */
    method Prepare(s: Settings, nonce: Fresh, trust: Trust) returns (reply: Result<Batch, AuditError>)
      requires Sound(c)
      ensures reply.Ok? <==> Passes(c, state, log, s, trust)
      ensures reply.Ok? ==> reply.value == Chosen(c, state, log, s, nonce, trust)
    {
      var recovery := Check(s, trust);
      if recovery.Err? {
        return Err(recovery.error);
      }
      if PendingOf(state).Some? {
        return Ok(PendingOf(state).value);
      }
      var used := s.(recovery := recovery.value);
      reply := BuildBatch(c, log, used, CurrentKey(state), CurrentEpoch(state), CurrentSequence(state), CurrentHead(state), nonce);
    }

    /** Makes a new batch durable before anything is sent. */
    method Persist(s: Settings, ghost nonce: Fresh, ghost trust: Trust, batch: Batch)
      requires Valid() && Passes(c, state, log, s, trust) && batch == Chosen(c, state, log, s, nonce, trust)
      requires Generated(c, nonce)
      modifies this`state
      ensures Valid() && state == Some(old(Awaiting(state, s, RecoveryFor(state, s.recovery).value, batch)))
      ensures state.value.pending == Some(batch) && batch.body.key == s.key
      ensures state.value.sequence == old(CurrentSequence(state)) && CurrentEpoch(state) == old(CurrentEpoch(state))
      ensures state.value.workspace == s.workspace && state.value.witnessId == s.witnessId
      ensures state.value.key == if old(CurrentKey(state)).Some? then old(CurrentKey(state)).value else s.key
    {
      PersistKeepsFit(c, state, log, rekeyed, s, nonce, trust);
      if PendingOf(state).None? {
        var current := CurrentKey(state);
        var key := if current.Some? then current.value else s.key;
        state := Some(SyncState(s.workspace, s.witnessId, s.endpoint, key, CurrentEpoch(state), batch.body.recovery,
                                CurrentSequence(state), CurrentHead(state),
                                if state.Some? then state.value.confirmed else None, Some(batch)));
      }
    }

    /** Sends the persisted batch, and confirms it if a valid receipt comes back. */
    method Deliver(s: Settings, current: Option<string>, batch: Batch, trust: Trust, fate: Fate)
      returns (synced: Result<bool, AuditError>)
      requires Valid() && state.Some? && state.value.pending == Some(batch) && batch.body.key == s.key
      requires !fate.DiesUnwritten? && !fate.DiesUnsent?
      requires state.value.workspace == s.workspace && state.value.witnessId == s.witnessId
      requires current == Some(state.value.key) || (current.None? && state.value.key == s.key)
      modifies this`state, this`sent, this`rekeyed
      ensures Valid()
      ensures synced == Ok(true) || synced.Err?
      ensures synced == Ok(true) <==> fate.Answered? && ReceiptAccepted(c, fate.receipt, batch, s.key, current, trust)
      ensures synced == Ok(true) <==>
        && fate.Answered? && trust.receipt && fate.receipt.signedBy == s.key && fate.receipt.key == s.key
        && fate.receipt.workspace == batch.body.workspace && fate.receipt.witnessId == batch.body.witnessId
        && fate.receipt.fromSeq == batch.body.fromSeq && fate.receipt.toSeq == batch.body.toSeq
        && fate.receipt.head == batch.body.head && fate.receipt.batchSha256 == c.digest(batch)
        && fate.receipt.recovery == batch.body.recovery && fate.receipt.epoch == batch.body.epoch
        && (current.Some? && current.value != s.key ==> fate.receipt.hasTransition && trust.transition)
      ensures synced == Ok(true) ==>
        var was := old(state.value);
        && batch.body.toSeq >= was.sequence
        && state == Some(Settled(was, batch, fate.receipt))
        && state == Some(SyncState(was.workspace, was.witnessId, was.endpoint, s.key, batch.body.epoch, was.recovery,
                                   batch.body.toSeq, batch.body.head, Some(Confirmed(batch, fate.receipt)), None))
        && sent == {} && rekeyed == old(rekeyed) + (if s.key == was.key then 0 else 1)
        && ConfirmedBy(c, state.value, log, s, fate.receipt)
      ensures synced.Err? ==> state == old(state) && sent == old(sent) + {batch} && rekeyed == old(rekeyed)
    {
      sent := sent + {batch};
      if fate.NoAnswer? {
        return Err(NotRecorded);
      }
      if !trust.receipt || !ReceiptMatches(c, fate.receipt, batch, s.key) {
        return Err(WrongReceipt);
      }
      if current.Some? && current.value != s.key && !(fate.receipt.hasTransition && trust.transition) {
        return Err(BadTransition);
      }
      ConfirmKeepsFit(c, state.value, log, rekeyed, fate.receipt);
      rekeyed := rekeyed + (if batch.body.key == state.value.key then 0 else 1);
      state := Some(SyncState(state.value.workspace, state.value.witnessId, state.value.endpoint, s.key, batch.body.epoch,
                              state.value.recovery, batch.body.toSeq, batch.body.head,
                              Some(Confirmed(batch, fate.receipt)), None));
      sent := {};
      return Ok(true);
    }

    /** One sync, ended early by a crash or a lost answer at any point. Whatever
        happens, the confirmed pair stays a prefix of the log with its chain head,
        never moves back, and at most one distinct batch has been sent since the
        last confirmation. */
    method Sync(s: Settings, nonce: Fresh, dryRun: bool, trust: Trust, fate: Fate)
      returns (synced: Result<bool, AuditError>)
      requires Valid() && Generated(c, nonce)
      modifies this`state, this`sent, this`rekeyed
      ensures Valid() && CurrentSequence(state) >= old(CurrentSequence(state))
      ensures rekeyed == old(rekeyed) + if synced == Ok(true) && old(CurrentKey(state)) !in {None, Some(s.key)} then 1 else 0
      ensures !old(Passes(c, state, log, s, trust)) || dryRun || fate.DiesUnwritten? ==>
        state == old(state) && sent == old(sent) && synced != Ok(true)
      ensures old(Passes(c, state, log, s, trust)) && !dryRun && !fate.DiesUnwritten? ==>
        var b := old(Chosen(c, state, log, s, nonce, trust));
        var st := old(Awaiting(state, s, RecoveryFor(state, s.recovery).value, Chosen(c, state, log, s, nonce, trust)));
        if fate.Answered? && ReceiptAccepted(c, fate.receipt, b, s.key, old(CurrentKey(state)), trust)
        then b.body.toSeq >= 0 && state == Some(Settled(st, b, fate.receipt)) && sent == {} && synced == Ok(true)
        else state == Some(st) && sent == (if fate.DiesUnsent? then old(sent) else old(sent) + {b}) && synced != Ok(true)
      ensures synced == Ok(true) ==>
        !dryRun && fate.Answered? && trust.receipt && state.Some? && ConfirmedBy(c, state.value, log, s, fate.receipt)
      ensures synced == Ok(true) && old(state).Some? && old(state).value.key != s.key ==>
        trust.transition && fate.receipt.hasTransition && CurrentEpoch(state) == old(state).value.epoch + 1
      ensures synced != Ok(true) && old(state).Some? ==>
        state.Some? && state.value.(pending := None) == old(state).value.(pending := None)
      ensures synced != Ok(true) && old(state).None? && state.Some? ==>
        state.value.confirmed.None? && state.value.sequence == 0 && state.value.epoch == 1 && state.value.key == s.key
    {
      var prepared := Prepare(s, nonce, trust);
      if prepared.Err? {
        return Err(prepared.error);
      }
      if dryRun || fate.DiesUnwritten? {
        return Ok(false);
      }
      var batch, current := prepared.value, CurrentKey(state);
      Persist(s, nonce, trust, batch);
      if fate.DiesUnsent? {
        return Ok(false);
      }
      synced := Deliver(s, current, batch, trust, fate);
    }
  }
}
