/** What the two ends of the audit accept and refuse, on the values that travel
    and the events alone. */
module AuditRefusals {
  import opened Common
  import opened AuditChain
  import opened AuditClients
  import P = AuditProtocol

  // --------------------------------------------------------------------- the chain

  /** The heads a replay goes through: each is one link further than the one before. */
  predicate Links(c: Crypto, n: nat, events: seq<string>, heads: seq<string>) {
    && |heads| == |events| + 1
    && forall i :: 0 <= i < |events| ==> heads[i + 1] == c.advance(heads[i], n + i + 1, events[i])
  }

  lemma {:induction false} LinksEndAtTheHead(c: Crypto, n: nat, events: seq<string>, heads: seq<string>)
    requires Links(c, n, events, heads)
    ensures Extend(c, heads[0], n, events) == heads[|events|]
    decreases |events|
  {
    if events != [] {
      var k := |events| - 1;
      assert events == events[..k] + [events[k]];
      assert heads[..k + 1][0] == heads[0];
      LinksEndAtTheHead(c, n, events[..k], heads[..k + 1]);
      ExtendSnoc(c, heads[0], n, events[..k], events[k]);
    }
  }

  lemma {:induction false} EveryReplayHasLinks(c: Crypto, head: string, n: nat, events: seq<string>)
    returns (heads: seq<string>)
    ensures Links(c, n, events, heads) && heads[0] == head
    decreases |events|
  {
    if events == [] {
      heads := [head];
    } else {
      var k := |events| - 1;
      var before := EveryReplayHasLinks(c, head, n, events[..k]);
      heads := before + [c.advance(before[k], n + k + 1, events[k])];
    }
  }

  /** A log is accepted for a checkpoint exactly when it is long enough and the chain
      from sixty-four zeros through its first events ends at the checkpoint's head. */
  lemma HistoryAgreesExactlyWhen(c: Crypto, log: seq<string>, sequence: nat, head: string)
    ensures HistoryAgrees(c, log, sequence, head) <==>
      && sequence <= |log|
      && exists heads :: Links(c, 0, log[..sequence], heads) && heads[sequence] == head
           && |heads[0]| == 64 && forall i :: 0 <= i < 64 ==> heads[0][i] == '0'
  {
    if sequence <= |log| {
      var heads := EveryReplayHasLinks(c, GENESIS, 0, log[..sequence]);
      LinksEndAtTheHead(c, 0, log[..sequence], heads);
      forall other | Links(c, 0, log[..sequence], other) && |other[0]| == 64 && (forall i :: 0 <= i < 64 ==> other[0][i] == '0')
        ensures other[sequence] == heads[sequence] {
        assert other[0] == GENESIS;
        LinksEndAtTheHead(c, 0, log[..sequence], other);
      }
    }
  }

  // -------------------------------------------------------------------- the batches

  /** A verifier takes a batch exactly when it is well-formed, addressed to it, starts
      at its checkpoint, numbers its events in order, and claims the head that the
      chain through those events really ends at. */
  lemma AcceptsExactlyWhen(c: Crypto, b: Body, workspace: string, witnessId: string, n: int, head: string)
    ensures Accepts(c, b, workspace, witnessId, n, head) <==>
      && n >= 0 && |head| == 64 && IsLowerHex(head)
      && b.workspace == workspace && b.witnessId == witnessId && |b.requestId| == 32 && IsLowerHex(b.requestId)
      && c.dated(b.requestedAt) && c.named(b.key) && (b.recovery.None? || c.named(b.recovery.value)) && b.epoch >= 1
      && b.previousHead == head && b.fromSeq == n + 1 && b.toSeq == n + |b.items|
      && (forall i :: 0 <= i < |b.items| ==> b.items[i].sequence == n + i + 1)
      && exists heads :: Links(c, n, EventsOf(b.items), heads) && heads[0] == head && heads[|b.items|] == b.head
  {
    if n >= 0 {
      var events := EventsOf(b.items);
      var heads := EveryReplayHasLinks(c, head, n, events);
      LinksEndAtTheHead(c, n, events, heads);
      forall other | Links(c, n, events, other) && other[0] == head ensures other[|events|] == heads[|events|] {
        LinksEndAtTheHead(c, n, events, other);
      }
    }
  }

  /** A batch is good for one workspace, one witness and one checkpoint only. */
  lemma MovedBatchesAreRefused(c: Crypto, b: Body, workspace: string, witnessId: string, n: int, head: string,
      otherWorkspace: string, otherWitness: string, m: int, otherHead: string)
    requires Accepts(c, b, workspace, witnessId, n, head)
    requires otherWorkspace != workspace || otherWitness != witnessId || m != n || otherHead != head
    ensures !Accepts(c, b, otherWorkspace, otherWitness, m, otherHead)
  {
  }

  /** Whoever changes, drops, adds or renumbers an event of an accepted batch, but
      not its claims, makes it unacceptable. */
  lemma AlteredBatchesAreRefused(c: Crypto, b: Body, items: seq<Item>, workspace: string, witnessId: string, n: int,
      head: string)
    requires CollisionFree(c) && Accepts(c, b, workspace, witnessId, n, head) && items != b.items
    ensures !Accepts(c, b.(items := items), workspace, witnessId, n, head)
  {
    if Accepts(c, b.(items := items), workspace, witnessId, n, head) {
      HeadsIdentifyHistories(c, head, n, EventsOf(items), EventsOf(b.items));
      forall i | 0 <= i < |items| ensures items[i] == b.items[i] {
        assert items[i].sequence == n + i + 1;
        assert b.items[i].sequence == n + i + 1;
        assert EventsOf(items)[i] == EventsOf(b.items)[i];
      }
      assert false;
    }
  }

  // --------------------------------------------------------------------- the client

  /** A receipt confirms a batch exactly when it is trusted and says of the workspace,
      the witness, the range, the head, the digest, the keys and the epoch what the
      batch said; and a changed key needs a trusted transition in it. */
  lemma ReceiptConfirmsExactlyWhen(c: Crypto, r: Receipt, b: Batch, key: string, previous: Option<string>, trust: Trust)
    ensures ReceiptAccepted(c, r, b, key, previous, trust) <==>
      && trust.receipt && (previous in {None, Some(key)} || (r.hasTransition && trust.transition))
      && r == Receipt(b.body.workspace, b.body.witnessId, b.body.fromSeq, b.body.toSeq, b.body.head, c.digest(b),
                      key, b.body.recovery, b.body.epoch, key, r.hasTransition)
  {
  }

  /** A first sync needs well-formed key names and nothing else, and sends the whole
      log, numbered from one, in the first epoch. */
  lemma FirstBatch(c: Crypto, log: seq<string>, s: Settings, nonce: Fresh, trust: Trust)
    ensures Passes(c, None, log, s, trust) <==> c.named(s.key) && (s.recovery.Some? ==> c.named(s.recovery.value))
    ensures Passes(c, None, log, s, trust) ==>
      var b := Chosen(c, None, log, s, nonce, trust);
      && b.signer == s.signer && b.signature == c.sign(b.body, s.signer)
      && b.body.workspace == s.workspace && b.body.witnessId == s.witnessId && b.body.endpoint == s.endpoint
      && b.body.requestId == nonce.requestId && b.body.requestedAt == nonce.requestedAt
      && b.body.key == s.key && b.body.recovery == s.recovery && b.body.epoch == 1
      && b.body.fromSeq == 1 && b.body.toSeq == |log| && b.body.previousHead == GENESIS
      && HistoryAgrees(c, log, |log|, b.body.head) && |b.body.items| == |log|
      && forall i :: 0 <= i < |log| ==> b.body.items[i] == Item(i + 1, log[i])
  {
    ChainOfNothing(c);
    assert log[..|log|] == log;
  }

  /** A client that waits for nothing starts a sync exactly when it is asked for the
      identity it has, may name its recovery key or leave it out, still trusts its last
      receipt, and has a log that leads through its checkpoint. */
  lemma NextSyncStartsExactlyWhen(c: Crypto, st: SyncState, log: seq<string>, s: Settings, trust: Trust)
    requires st.pending.None?
    ensures Passes(c, Some(st), log, s, trust) <==>
      && c.named(s.key) && (s.recovery.Some? ==> c.named(s.recovery.value))
      && s.workspace == st.workspace && s.witnessId == st.witnessId && s.endpoint == st.endpoint
      && s.recovery in {None, st.recovery} && |st.head| == 64 && IsLowerHex(st.head)
      && (if st.confirmed.None? then st.sequence == 0 && st.head == GENESIS
          else
            var b := st.confirmed.value.batch.body;
            && trust.history && b.toSeq == st.sequence && b.head == st.head && b.epoch == st.epoch
            && b.recovery == st.recovery
            && ReceiptAccepted(c, st.confirmed.value.receipt, st.confirmed.value.batch, st.key, None,
                               Trust(true, true, true)))
      && HistoryAgrees(c, log, st.sequence, st.head)
  {
  }

  /** What it then sends: the events after its checkpoint, in the epoch of its key. */
  lemma NextBatch(c: Crypto, st: SyncState, log: seq<string>, s: Settings, nonce: Fresh, trust: Trust)
    requires st.pending.None? && Passes(c, Some(st), log, s, trust)
    ensures var b := Chosen(c, Some(st), log, s, nonce, trust);
      && b.signer == s.signer && b.signature == c.sign(b.body, s.signer)
      && b.body.workspace == s.workspace && b.body.witnessId == s.witnessId && b.body.endpoint == s.endpoint
      && b.body.key == s.key && b.body.recovery == st.recovery
      && b.body.epoch == (if s.key == st.key then st.epoch else st.epoch + 1)
      && b.body.fromSeq == st.sequence + 1 && b.body.toSeq == |log| && b.body.previousHead == st.head
      && HistoryAgrees(c, log, |log|, b.body.head) && |b.body.items| == |log| - st.sequence
      && forall i :: 0 <= i < |b.body.items| ==> b.body.items[i] == Item(st.sequence + i + 1, log[st.sequence + i])
  {
    assert log[..|log|] == log;
  }

  /** A batch waiting for its receipt is sent again only for the key, the signer, the
      endpoint and the recovery key it was made for, and only along the local log. */
  lemma OnlyItsOwnBatchIsSentAgain(c: Crypto, st: SyncState, log: seq<string>, s: Settings, nonce: Fresh, trust: Trust)
    requires st.pending.Some? && Passes(c, Some(st), log, s, trust)
    ensures Chosen(c, Some(st), log, s, nonce, trust) == st.pending.value
    ensures var b := st.pending.value;
      && b.body.key == s.key && b.signer == s.signer && b.signature == c.sign(b.body, s.signer)
      && b.body.endpoint == s.endpoint && b.body.workspace == s.workspace && b.body.witnessId == s.witnessId
      && b.body.recovery == st.recovery && s.recovery in {None, st.recovery}
      && b.body.epoch == (if s.key == st.key then st.epoch else st.epoch + 1)
      && b.body.previousHead == st.head && b.body.fromSeq == st.sequence + 1
      && b.body.toSeq == st.sequence + |b.body.items| <= |log|
      && HistoryAgrees(c, log, b.body.toSeq, b.body.head) && HistoryAgrees(c, log, st.sequence, st.head)
  {
  }

  // -------------------------------------------------------------------- the witness

  /** A witness takes a batch up exactly when the batch continues its checkpoint, asks
      for the key it is configured with in the epoch that key has here, keeps its
      recovery key, and a changed key was allowed. Without a checkpoint it stands at
      nothing, with its own key in the first epoch. */
  lemma WitnessTakesExactlyWhen(c: Crypto, s: P.System, b: Batch, mayRotate: bool)
    ensures P.Acceptable(c, s, b, mayRotate) <==>
      if s.checkpoint.None?
      then Accepts(c, b.body, b.body.workspace, b.body.witnessId, 0, GENESIS) && b.body.key == s.witnessKey && b.body.epoch == 1
      else
        var at := s.checkpoint.value;
        && Accepts(c, b.body, b.body.workspace, b.body.witnessId, at.sequence, at.head) && b.body.key == s.witnessKey
        && (at.recovery.None? || b.body.recovery == at.recovery)
        && (if s.witnessKey == at.key then b.body.epoch == at.epoch else b.body.epoch == at.epoch + 1 && mayRotate)
  {
  }

  /** The witness records the first batch, moves to its end and answers, */
  lemma FirstBatchIsTaken(c: Crypto, s: P.System, b: Batch)
    requires b in s.sent && s.checkpoint.None? && s.records == map[] && s.witnessKey == b.body.key
    requires Accepts(c, b.body, b.body.workspace, b.body.witnessId, 0, GENESIS) && b.body.epoch == 1
    requires b.body.items != [] || b.body.recovery.Some?
    ensures P.Enabled(c, s, P.Write(b, false))
    ensures var written := P.Do(c, s, P.Write(b, false));
      && P.Enabled(c, written, P.Advance(b, false))
      && var advanced := P.Do(c, written, P.Advance(b, false));
      && P.Enabled(c, advanced, P.Answer(b))
      && P.Do(c, advanced, P.Answer(b)) == advanced.(answers := advanced.answers + {Answered(c, b)})
      && advanced.client == s.client
      && advanced.checkpoint == Some(P.Checkpoint(b.body.toSeq, b.body.head, b.body.key, 1, b.body.recovery))
  {
  }

  /** What a receipt for a batch under an unchanged key says. */
  function Answered(c: Crypto, b: Batch): Receipt {
    Receipt(b.body.workspace, b.body.witnessId, b.body.fromSeq, b.body.toSeq, b.body.head, c.digest(b),
            b.body.key, b.body.recovery, b.body.epoch, b.body.key, false)
  }

  /** and the first sync of a workspace goes through: the answer of a witness with the
      client's key and without a checkpoint confirms the whole log in the first epoch. */
  lemma FirstSyncGoesThrough(c: Crypto, s: P.System, settings: Settings, nonce: Fresh, trust: Trust)
    requires Sound(c) && s.client.None? && s.checkpoint.None? && s.records == map[]
    requires c.named(settings.key) && (settings.recovery.Some? ==> c.named(settings.recovery.value))
    requires s.witnessKey == settings.key && trust.receipt && Generated(c, nonce)
    requires s.log != [] || settings.recovery.Some?
    ensures P.Enabled(c, s, P.Persist(settings, nonce, trust))
    ensures var b := Chosen(c, None, s.log, settings, nonce, trust);
      var persisted := P.Do(c, s, P.Persist(settings, nonce, trust));
      && P.Enabled(c, persisted, P.Send)
      && var sent := P.Do(c, persisted, P.Send);
      && P.Enabled(c, sent, P.Write(b, false))
      && var written := P.Do(c, sent, P.Write(b, false));
      && P.Enabled(c, written, P.Advance(b, false))
      && var advanced := P.Do(c, written, P.Advance(b, false));
      && P.Enabled(c, advanced, P.Answer(b))
      && var answered := P.Do(c, advanced, P.Answer(b));
      && P.Enabled(c, answered, P.Confirm(Answered(c, b), trust))
      && var done := P.Do(c, answered, P.Confirm(Answered(c, b), trust));
      && done.checkpoint == Some(P.Checkpoint(|s.log|, ChainHead(c, s.log), settings.key, 1, settings.recovery))
      && done.client == Some(SyncState(settings.workspace, settings.witnessId, settings.endpoint, settings.key, 1,
                                       settings.recovery, |s.log|, ChainHead(c, s.log),
                                       Some(Confirmed(b, Answered(c, b))), None))
  {
    FirstBatch(c, s.log, settings, nonce, trust);
    assert s.log[..|s.log|] == s.log;
    var b := Chosen(c, None, s.log, settings, nonce, trust);
    BuiltBatchesAreAccepted(c, s.log, settings, 1, 0, GENESIS, nonce);
    FirstBatchIsTaken(c, P.Do(c, P.Do(c, s, P.Persist(settings, nonce, trust)), P.Send), b);
  }
}
