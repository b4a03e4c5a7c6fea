/** The audit hash chain, the batches a control plane exports from it, and the
    checks that both ends make before they trust one. */
module AuditChain {
  import opened Common

  function Zeros(n: nat): (s: string)
    ensures |s| == n && forall i :: 0 <= i < n ==> s[i] == '0'
  {
    if n == 0 then "" else Zeros(n - 1) + "0"
  }

  const GENESIS := Zeros(64)

  datatype Item = Item(sequence: int, event: string)

  datatype Body = Body(
    workspace: string, witnessId: string, endpoint: string, requestId: string, requestedAt: string,
    key: string, recovery: Option<string>, epoch: int, fromSeq: int, toSeq: int,
    previousHead: string, head: string, items: seq<Item>)

  /** A signed batch. */
  datatype Batch = Batch(body: Body, signer: string, signature: string)

  /** What the model takes from outside: one link of the chain, deterministic
      signing, batch digests, and the syntax of key names and timestamps. */
  datatype Crypto = Crypto(
    advance: (string, nat, string) -> string, sign: (Body, string) -> string, digest: Batch -> string,
    named: string -> bool, dated: string -> bool)

  ghost predicate Sound(c: Crypto) {
    forall head, n, event :: IsSha256(c.advance(head, n, event))
  }

  ghost predicate CollisionFree(c: Crypto) {
    forall g, h, n, x, y :: c.advance(g, n, x) == c.advance(h, n, y) ==> g == h && x == y
  }

  // ------------------------------------------------------------------ the chain

  /** The head after these events follow the n already chained. */
  function Extend(c: Crypto, head: string, n: nat, events: seq<string>): string
    decreases |events|
  {
    if events == [] then head else Extend(c, c.advance(head, n + 1, events[0]), n + 1, events[1..])
  }

  function ChainHead(c: Crypto, events: seq<string>): string {
    Extend(c, GENESIS, 0, events)
  }

  /** Chain splitting: replaying a suffix from the prefix's head is replaying all. */
  lemma {:induction false} ExtendSplits(c: Crypto, head: string, n: nat, before: seq<string>, after: seq<string>)
    ensures Extend(c, head, n, before + after) == Extend(c, Extend(c, head, n, before), n + |before|, after)
    decreases |before|
  {
    if before == [] {
      assert before + after == after;
    } else {
      assert (before + after)[1..] == before[1..] + after;
      ExtendSplits(c, c.advance(head, n + 1, before[0]), n + 1, before[1..], after);
    }
  }

  lemma ExtendSnoc(c: Crypto, head: string, n: nat, events: seq<string>, event: string)
    ensures Extend(c, head, n, events + [event]) == c.advance(Extend(c, head, n, events), n + |events| + 1, event)
  {
    ExtendSplits(c, head, n, events, [event]);
  }

  lemma {:induction false} ExtendIsHash(c: Crypto, head: string, n: nat, events: seq<string>)
    requires Sound(c) && IsSha256(head)
    ensures IsSha256(Extend(c, head, n, events))
    decreases |events|
  {
    if events != [] {
      ExtendIsHash(c, c.advance(head, n + 1, events[0]), n + 1, events[1..]);
    }
  }

  /** Equally long histories with the same head are the same history. */
  lemma {:induction false} HeadsIdentifyHistories(c: Crypto, head: string, n: nat, a: seq<string>, b: seq<string>)
    requires CollisionFree(c) && |a| == |b| && Extend(c, head, n, a) == Extend(c, head, n, b)
    ensures a == b
    decreases |a|
  {
    if a != [] {
      var k := |a| - 1;
      assert a == a[..k] + [a[k]] && b == b[..k] + [b[k]];
      ExtendSnoc(c, head, n, a[..k], a[k]);
      ExtendSnoc(c, head, n, b[..k], b[k]);
      HeadsIdentifyHistories(c, head, n, a[..k], b[..k]);
    }
  }

  /** The head of a log, or of its first `limit` events. */
  method ComputeChainHead(c: Crypto, events: seq<string>, limit: Option<nat>) returns (head: string)
    ensures head == ChainHead(c, if limit.Some? && limit.value < |events| then events[..limit.value] else events)
  {
    head := GENESIS;
    var selected := if limit.Some? && limit.value < |events| then events[..limit.value] else events;
    for i := 0 to |selected|
      invariant head == ChainHead(c, selected[..i])
    {
      ExtendSnoc(c, GENESIS, 0, selected[..i], selected[i]);
      assert selected[..i + 1] == selected[..i] + [selected[i]];
      head := c.advance(head, i + 1, selected[i]);
    }
    assert selected[..|selected|] == selected;
  }

  // -------------------------------------------------------------- local history

  datatype AuditError =
    | RolledBack | Forked | BadCheckpoint | WrongIdentity | BadRequest | BadEpoch | WrongHead | WrongRange | BadItems
    | OtherSettings | Untrusted | WrongReceipt | BadTransition | NotRecorded

  /** A local log agrees with a confirmed checkpoint. */
  predicate HistoryAgrees(c: Crypto, log: seq<string>, sequence: nat, head: string) {
    sequence <= |log| && ChainHead(c, log[..sequence]) == head
  }

  method ValidateLocalHistory(c: Crypto, log: seq<string>, sequence: nat, head: string)
    returns (check: Check<AuditError>)
    ensures check.Pass? <==> HistoryAgrees(c, log, sequence, head)
    ensures check == Fail(RolledBack) <==> |log| < sequence
  {
    if sequence > |log| {
      return Fail(RolledBack);
    }
    var actual := ComputeChainHead(c, log, Some(sequence));
    if sequence == |log| {
      assert log[..sequence] == log;
    }
    return if actual != head then Fail(Forked) else Pass;
  }

  /** Tamper evidence: with a collision-free hash a log is accepted exactly when it
      extends the events that were confirmed, so no truncation, edit or reordering
      inside the confirmed prefix goes unnoticed. */
  lemma OnlyExtensionsAgree(c: Crypto, log: seq<string>, confirmed: seq<string>)
    requires CollisionFree(c)
    ensures HistoryAgrees(c, log, |confirmed|, ChainHead(c, confirmed)) <==> confirmed <= log
  {
    if HistoryAgrees(c, log, |confirmed|, ChainHead(c, confirmed)) {
      HeadsIdentifyHistories(c, GENESIS, 0, log[..|confirmed|], confirmed);
    }
    if confirmed <= log {
      assert log[..|confirmed|] == confirmed;
    }
  }

  /** Any edit of one confirmed event is refused. */
  lemma EditsAreRefused(c: Crypto, confirmed: seq<string>, later: seq<string>, at: nat, event: string)
    requires CollisionFree(c) && at < |confirmed| && confirmed[at] != event
    ensures !HistoryAgrees(c, confirmed[at := event] + later, |confirmed|, ChainHead(c, confirmed))
  {
    var log := confirmed[at := event] + later;
    OnlyExtensionsAgree(c, log, confirmed);
    assert log[at] == event;
  }

  // ------------------------------------------------------------------- batches

  predicate IsRequestId(s: string) {
    |s| == 32 && IsLowerHex(s)
  }

  function EventsOf(items: seq<Item>): seq<string> {
    seq(|items|, i requires 0 <= i < |items| => items[i].event)
  }

  function ItemsFrom(log: seq<string>, n: nat): seq<Item>
    requires n <= |log|
  {
    seq(|log| - n, i requires 0 <= i < |log| - n => Item(n + i + 1, log[n + i]))
  }

  /** The batch is well-formed and addressed to this witness and workspace. */
  predicate Addressed(c: Crypto, b: Body, workspace: string, witnessId: string) {
    && b.workspace == workspace && b.witnessId == witnessId && IsRequestId(b.requestId) && c.dated(b.requestedAt)
    && c.named(b.key) && (b.recovery.Some? ==> c.named(b.recovery.value)) && b.epoch >= 1
  }

  predicate Numbered(items: seq<Item>, n: nat) {
    forall i :: 0 <= i < |items| ==> items[i].sequence == n + i + 1
  }

  /** The batch continues this checkpoint and its head is what its events chain to. */
  predicate Continues(c: Crypto, b: Body, n: nat, head: string) {
    && b.previousHead == head && b.fromSeq == n + 1 && b.toSeq == n + |b.items| && Numbered(b.items, n)
    && b.head == Extend(c, head, n, EventsOf(b.items))
  }

  predicate Accepts(c: Crypto, b: Body, workspace: string, witnessId: string, n: int, head: string) {
    n >= 0 && IsSha256(head) && Addressed(c, b, workspace, witnessId) && Continues(c, b, n, head)
  }

  /** Validates and independently replays one batch from a checkpoint. */
  method ValidateAuditBatch(c: Crypto, b: Body, workspace: string, witnessId: string, n: int, previousHead: string)
    returns (reply: Result<(int, string), AuditError>)
    ensures reply.Ok? <==> Accepts(c, b, workspace, witnessId, n, previousHead)
    ensures reply.Ok? ==> reply.value == (b.toSeq, b.head)
  {
    if !IsSha256(previousHead) || n < 0 {
      return Err(BadCheckpoint);
    }
    if b.workspace != workspace || b.witnessId != witnessId {
      return Err(WrongIdentity);
    }
    if !IsRequestId(b.requestId) || !c.dated(b.requestedAt) || !c.named(b.key)
       || (b.recovery.Some? && !c.named(b.recovery.value)) {
      return Err(BadRequest);
    }
    if b.epoch < 1 {
      return Err(BadEpoch);
    }
    if b.previousHead != previousHead {
      return Err(WrongHead);
    }
    if b.fromSeq != n + 1 || b.toSeq != n + |b.items| {
      return Err(WrongRange);
    }
    ghost var events := EventsOf(b.items);
    var head := previousHead;
    for i := 0 to |b.items|
      invariant head == Extend(c, previousHead, n, events[..i])
      invariant forall j :: 0 <= j < i ==> b.items[j].sequence == n + j + 1
    {
      if b.items[i].sequence != n + i + 1 {
        return Err(BadItems);
      }
      ExtendSnoc(c, previousHead, n, events[..i], events[i]);
      assert events[..i + 1] == events[..i] + [events[i]];
      head := c.advance(head, n + i + 1, b.items[i].event);
    }
    assert events[..|b.items|] == events;
    if b.head != head {
      return Err(WrongHead);
    }
    return Ok((b.toSeq, head));
  }

  /** The receipt-key epoch a request for `key` belongs to. */
  function NextEpoch(current: Option<string>, epoch: int, key: string): int {
    if current.Some? && current.value != key then epoch + 1 else epoch
  }

  /** What one invocation was asked for. */
  datatype Settings = Settings(workspace: string, witnessId: string, endpoint: string, signer: string, key: string,
                               recovery: Option<string>)

  /** Fresh values for a newly built batch. */
  datatype Fresh = Fresh(requestId: string, requestedAt: string)

  function BodyFrom(c: Crypto, log: seq<string>, s: Settings, epoch: int, n: nat, head: string, nonce: Fresh): Body
    requires n <= |log|
  {
    Body(s.workspace, s.witnessId, s.endpoint, nonce.requestId, nonce.requestedAt, s.key, s.recovery, epoch,
         n + 1, |log|, head, ChainHead(c, log), ItemsFrom(log, n))
  }

  function Signed(c: Crypto, b: Body, signer: string): Batch {
    Batch(b, signer, c.sign(b, signer))
  }

  method BuildBatch(c: Crypto, log: seq<string>, s: Settings, current: Option<string>, epoch: int, n: nat, head: string,
                    nonce: Fresh)
    returns (reply: Result<Batch, AuditError>)
    ensures reply.Ok? <==> HistoryAgrees(c, log, n, head)
    ensures reply.Ok? ==>
      reply.value == Signed(c, BodyFrom(c, log, s, NextEpoch(current, epoch, s.key), n, head, nonce), s.signer)
  {
    var check := ValidateLocalHistory(c, log, n, head);
    if check.Fail? {
      return Err(check.error);
    }
    var whole := ComputeChainHead(c, log, None);
    var keyEpoch := if current.Some? && current.value != s.key then epoch + 1 else epoch;
    var body := Body(s.workspace, s.witnessId, s.endpoint, nonce.requestId, nonce.requestedAt, s.key, s.recovery, keyEpoch,
                     n + 1, |log|, head, whole, ItemsFrom(log, n));
    return Ok(Batch(body, s.signer, c.sign(body, s.signer)));
  }

  /** Producer and verifier agree: a batch built from a log that extends a
      checkpoint is accepted from that checkpoint, and leads to the whole log. */
  lemma BuiltBatchesAreAccepted(c: Crypto, log: seq<string>, s: Settings, epoch: int, n: nat, head: string,
      nonce: Fresh)
    requires Sound(c) && HistoryAgrees(c, log, n, head) && epoch >= 1
    requires IsRequestId(nonce.requestId) && c.dated(nonce.requestedAt)
    requires c.named(s.key) && (s.recovery.Some? ==> c.named(s.recovery.value))
    ensures var b := BodyFrom(c, log, s, epoch, n, head, nonce);
      && Accepts(c, b, s.workspace, s.witnessId, n, head)
      && b.toSeq == |log| && b.head == ChainHead(c, log)
  {
    var b := BodyFrom(c, log, s, epoch, n, head, nonce);
    ExtendIsHash(c, GENESIS, 0, log[..n]);
    ExtendSplits(c, GENESIS, 0, log[..n], log[n..]);
    assert log[..n] + log[n..] == log;
    assert EventsOf(b.items) == log[n..];
  }

  /** And conversely a verifier that holds the true checkpoint accepts only batches
      that carry the events of some log extending it. */
  lemma AcceptedBatchesExtend(c: Crypto, b: Body, workspace: string, witnessId: string, log: seq<string>)
    requires Accepts(c, b, workspace, witnessId, |log|, ChainHead(c, log))
    ensures b.head == ChainHead(c, log + EventsOf(b.items)) && b.toSeq == |log + EventsOf(b.items)|
  {
    ExtendSplits(c, GENESIS, 0, log, EventsOf(b.items));
  }
}
