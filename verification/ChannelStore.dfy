/**
 The tables of the channel store and its transactions: durable ingest, leases on
 received events, and the atomic hand-over from an event to its replies.
 */
module ChannelStore {
  import opened Options
  import opened Chunking
  import opened Delivery

  datatype InboxKey = InboxKey(platform: string, event: string)

  // Where the polling of one stream stands, and under which numbering of updates.
  datatype Offset = Offset(next: nat, epoch: nat, bot: Option<string>)

  datatype Audit = Audit(key: InboxKey, allowed: bool)

  datatype Error = BadArgument | Transition | DifferentContent | DuplicateDownstream

  // A row per message, with equal content if it is already there.
  predicate CanEnqueue(outbox: map<string, OutboxRow>, message: OutboundMessage) {
    message.key in outbox ==> outbox[message.key].message == message
  }

  function Enqueued(outbox: map<string, OutboxRow>, message: OutboundMessage, now: int): map<string, OutboxRow> {
    if message.key in outbox then outbox else outbox[message.key := NewOutbox(message, now)]
  }

  // Every message of a batch in turn; None when one of them clashes.
  function EnqueuedAll(outbox: map<string, OutboxRow>, batch: seq<OutboundMessage>, now: int): Option<map<string,
                       OutboxRow>> {
    if batch == [] then Some(outbox)
    else
      var prior := EnqueuedAll(outbox, batch[..|batch| - 1], now);
      var last := batch[|batch| - 1];
      if prior.Some? && CanEnqueue(prior.value, last) then Some(Enqueued(prior.value, last, now)) else None
  }

  function FirstKey(batch: seq<OutboundMessage>): Option<string> {
    if batch == [] then None else Some(batch[0].key)
  }

  // All messages of the batch are there, with their content.
  predicate InFull(outbox: map<string, OutboxRow>, batch: seq<OutboundMessage>) {
    forall m <- batch :: m.key in outbox && outbox[m.key].message == m
  }

  // No message is lost or altered, and none is sent again once it was sent.
  predicate OutboxGrows(before: map<string, OutboxRow>, after: map<string, OutboxRow>) {
    forall key <- before :: key in after && OutboxEvolves(before[key], after[key])
  }

  predicate InboxGrows(before: map<InboxKey, InboxRow>, after: map<InboxKey, InboxRow>) {
    forall key <- before :: key in after && InboxEvolves(before[key], after[key])
  }

  lemma {:induction false} EnqueuedAllGrows(outbox: map<string, OutboxRow>, batch: seq<OutboundMessage>, now: int)
    requires EnqueuedAll(outbox, batch, now).Some? && forall key <- outbox :: OutboxInv(outbox[key])
    ensures var after := EnqueuedAll(outbox, batch, now).value;
            && OutboxGrows(outbox, after) && InFull(after, batch)
            && (forall key <- outbox :: after[key] == outbox[key])
            && (forall key <- after :: OutboxInv(after[key]))
  {
    if batch != [] {
      EnqueuedAllGrows(outbox, batch[..|batch| - 1], now);
      assert batch == batch[..|batch| - 1] + [batch[|batch| - 1]];
    }
  }

  /** Enqueueing adds the messages of the batch, unsent, and nothing else. */
  lemma {:induction false} EnqueuedAllAddsOnly(outbox: map<string, OutboxRow>, batch: seq<OutboundMessage>, now: int,
                                               key: string)
    requires EnqueuedAll(outbox, batch, now).Some? && key in EnqueuedAll(outbox, batch, now).value && key !in outbox
    ensures EnqueuedAll(outbox, batch, now).value[key].attempts == 0
    ensures EnqueuedAll(outbox, batch, now).value[key].status == Pending
    ensures EnqueuedAll(outbox, batch, now).value[key].message in batch
    ensures EnqueuedAll(outbox, batch, now).value[key].message.key == key
  {
    if batch != [] {
      var rest := batch[..|batch| - 1];
      assert batch == rest + [batch[|batch| - 1]];
      if key in EnqueuedAll(outbox, rest, now).value { EnqueuedAllAddsOnly(outbox, rest, now, key); }
    }
  }

  /** A batch is refused exactly when one of its keys already stands for another
      content, in the outbox or earlier in the batch. */
  lemma {:induction false} EnqueuedAllIff(outbox: map<string, OutboxRow>, batch: seq<OutboundMessage>, now: int)
    requires forall key <- outbox :: OutboxInv(outbox[key])
    ensures EnqueuedAll(outbox, batch, now).Some? <==>
            (forall m <- batch :: CanEnqueue(outbox, m)) && (forall m <- batch, n <- batch :: m.key == n.key ==> m == n)
  {
    if batch != [] {
      var rest, last := batch[..|batch| - 1], batch[|batch| - 1];
      assert batch == rest + [last];
      assert last in batch && forall m <- rest :: m in batch;
      assert forall m <- batch :: m in rest || m == last;
      EnqueuedAllIff(outbox, rest, now);
      if EnqueuedAll(outbox, rest, now).Some? {
        EnqueuedAllGrows(outbox, rest, now);
        if last.key in EnqueuedAll(outbox, rest, now).value && last.key !in outbox { EnqueuedAllAddsOnly(outbox, rest, now, last.key); }
      }
    }
  }

  lemma EnqueueKeeps(outbox: map<string, OutboxRow>, batch: seq<OutboundMessage>, now: int)
    requires EnqueuedAll(outbox, batch, now).Some? && forall key <- outbox :: OutboxInv(outbox[key])
    ensures var after := EnqueuedAll(outbox, batch, now).value;
            OutboxGrows(outbox, after) && InFull(after, batch) && forall key <- after :: OutboxInv(after[key])
  {
    EnqueuedAllGrows(outbox, batch, now);
  }

  lemma EnqueueCounts(outbox: map<string, OutboxRow>, batch: seq<OutboundMessage>, now: int, retries: map<string, nat>,
                      sends: multiset<string>)
    requires EnqueuedAll(outbox, batch, now).Some? && Counted(outbox, retries, sends) && forall key <- outbox :: OutboxInv(outbox[key])
    ensures Counted(EnqueuedAll(outbox, batch, now).value, retries, sends)
  {
    var after := EnqueuedAll(outbox, batch, now).value;
    EnqueuedAllGrows(outbox, batch, now);
    forall key <- after
      ensures Promised(after[key]) == 1 + RetriesOf(retries, key) && sends[key] <= after[key].attempts
    {
      if key !in outbox { EnqueuedAllAddsOnly(outbox, batch, now, key); }
    }
  }

  // The inbox rows that name a downstream key are one per key.
  predicate UniqueDownstream(inbox: map<InboxKey, InboxRow>) {
    forall a <- inbox, b <- inbox :: inbox[a].downstream.Some? && inbox[a].downstream == inbox[b].downstream ==> a == b
  }

  // A new event is refused only if its downstream key is taken.
  function IngestError(inbox: map<InboxKey, InboxRow>, key: InboxKey, allowed: bool, downstream: Option<string>): Option<Error> {
    if key !in inbox && allowed && downstream.Some? && exists k <- inbox :: inbox[k].downstream == downstream
    then Some(DuplicateDownstream) else None
  }

  // Each stored event was audited exactly once.
  predicate AuditedOnce(inbox: map<InboxKey, InboxRow>, audit: seq<Audit>) {
    && (set a <- audit :: a.key) == inbox.Keys
    && (forall i, j | 0 <= i < j < |audit| :: audit[i].key != audit[j].key)
  }

  // The replies of every event that completed with replies are all in the outbox.
  predicate Answered(inbox: map<InboxKey, InboxRow>, outbox: map<string, OutboxRow>, replies: map<InboxKey,
                     seq<OutboundMessage>>) {
    forall key <- replies :: key in inbox && inbox[key].status == InboxCompleted && InFull(outbox, replies[key])
  }

  function RetriesOf(retries: map<string, nat>, key: string): nat {
    if key in retries then retries[key] else 0
  }

  // A message is claimed once, plus once for each retry, and sent at most once a claim.
  predicate Counted(outbox: map<string, OutboxRow>, retries: map<string, nat>, sends: multiset<string>) {
    && (forall key <- outbox :: Promised(outbox[key]) == 1 + RetriesOf(retries, key) && sends[key] <= outbox[key].attempts)
    && (forall key <- retries :: key in outbox) && (forall key :: key in sends ==> key in outbox)
  }

  // A handler runs at most once a claim.
  predicate Handled(inbox: map<InboxKey, InboxRow>, handled: multiset<InboxKey>) {
    forall key :: key in handled ==> key in inbox && handled[key] <= inbox[key].attempts
  }

  lemma HandledGrows(before: map<InboxKey, InboxRow>, after: map<InboxKey, InboxRow>, handled: multiset<InboxKey>)
    requires Handled(before, handled) && InboxGrows(before, after)
    ensures Handled(after, handled)
  {
    forall key | key in handled ensures key in after && handled[key] <= after[key].attempts {
      assert InboxEvolves(before[key], after[key]);
    }
  }

  class Store {
    var inbox: map<InboxKey, InboxRow>
    var outbox: map<string, OutboxRow>
    var offsets: map<string, Offset>
    var audit: seq<Audit>
    // The batch with which each event was completed.
    ghost var replies: map<InboxKey, seq<OutboundMessage>>
    // The retries operators asked for, and every message handed to an adapter.
    ghost var retries: map<string, nat>
    ghost var sends: multiset<string>
    // Every event handed to a handler.
    ghost var handled: multiset<InboxKey>

    ghost predicate Valid()
      reads this
    {
      && (forall key <- inbox :: InboxInv(inbox[key])) && (forall key <- outbox :: OutboxInv(outbox[key]))
      && UniqueDownstream(inbox) && AuditedOnce(inbox, audit) && Answered(inbox, outbox, replies)
      && Counted(outbox, retries, sends) && Handled(inbox, handled)
    }

    // What every transaction keeps.
    twostate predicate Evolved()
      reads this
    {
      && InboxGrows(old(inbox), inbox) && OutboxGrows(old(outbox), outbox) && old(audit) <= audit
      && (forall key <- old(replies) :: key in replies && replies[key] == old(replies[key]))
      && old(sends) <= sends && old(handled) <= handled
    }

    constructor ()
      ensures Valid() && inbox == map[] && outbox == map[] && offsets == map[] && audit == [] && replies == map[]
    {
      inbox, outbox, offsets, audit, replies := map[], map[], map[], [], map[];
      retries, sends, handled := map[], multiset{}, multiset{};
    }

    // --- ingest ---

    // Insert an event unless it is there; a new one is audited in the same transaction.
    method Insert(key: InboxKey, allowed: bool, downstream: Option<string>, now: int)
      returns (error: Option<Error>, duplicate: bool)
      requires Valid()
      modifies `inbox, `audit
      ensures Valid() && Evolved()
      ensures duplicate <==> key in old(inbox)
      ensures error == IngestError(old(inbox), key, allowed, downstream)
      ensures if duplicate || error.Some? then inbox == old(inbox) && audit == old(audit)
              else inbox == old(inbox)[key := NewInbox(allowed, downstream, now)] && audit == old(audit) + [Audit(key, allowed)]
    {
      hide Counted, Handled, AuditedOnce, InFull, Answered, UniqueDownstream;
      if key in inbox { return None, true; }
      var row := NewInbox(allowed, downstream, now);
      if row.downstream.Some? && exists k <- inbox :: inbox[k].downstream == row.downstream { return Some(DuplicateDownstream), false; }
      NewEventIsAudited(inbox, audit, key, row, Audit(key, allowed));
      NewEventKeeps(inbox, outbox, replies, key, row);
      HandledGrows(inbox, inbox[key := row], handled);
      inbox := inbox[key := row];
      audit := audit + [Audit(key, allowed)];
      return None, false;
    }

    function TelegramKey(epoch: nat, update: nat): InboxKey {
      InboxKey("telegram", Decimal(epoch) + ":" + Decimal(update))
    }

    function TelegramDownstream(epoch: nat, update: nat): string {
      "telegram:update:" + Decimal(epoch) + ":" + Decimal(update)
    }

    /** Store a polled update and move the offset past it, in one transaction: the
        offset never covers an update that is not durable, and an update delivered
        again adds nothing. */
    method IngestTelegramUpdate(stream: string, update: int, allowed: bool, now: int)
      returns (error: Option<Error>, duplicate: bool, nextOffset: nat)
      requires Valid()
      modifies `inbox, `audit, `offsets
      ensures Valid() && Evolved()
      ensures error == if update < 0 then Some(BadArgument)
                       else
                         var epoch := if stream in old(offsets) then old(offsets)[stream].epoch else 0;
                         IngestError(old(inbox), TelegramKey(epoch, update), allowed, Some(TelegramDownstream(epoch, update)))
      ensures error.Some? ==> inbox == old(inbox) && audit == old(audit) && offsets == old(offsets)
      ensures error.None? ==>
                update >= 0 &&
                var epoch := if stream in old(offsets) then old(offsets)[stream].epoch else 0;
                var key := TelegramKey(epoch, update);
                && key in inbox && (duplicate <==> key in old(inbox)) && (duplicate ==> inbox == old(inbox) && audit == old(audit))
                && (!duplicate ==> inbox == old(inbox)[key := inbox[key]])
                && stream in offsets && offsets == old(offsets)[stream := offsets[stream]] && offsets[stream].next == nextOffset
                && offsets[stream].epoch == epoch && nextOffset > update
                && (stream in old(offsets) ==> nextOffset >= old(offsets)[stream].next)
    {
      hide Counted, Handled, AuditedOnce, InFull, Answered, UniqueDownstream;
      if update < 0 { return Some(BadArgument), false, 0; }
      var offset := if stream in offsets then offsets[stream] else Offset(0, 0, None);
      var key := TelegramKey(offset.epoch, update);
      error, duplicate := Insert(key, allowed, Some(TelegramDownstream(offset.epoch, update)), now);
      if error.Some? { return error, duplicate, 0; }
      nextOffset := if update + 1 > offset.next then update + 1 else offset.next;
      offsets := offsets[stream := offset.(next := nextOffset)];
    }

    method IngestEnvelope(key: InboxKey, allowed: bool, downstream: Option<string>, now: int)
      returns (error: Option<Error>, duplicate: bool)
      requires Valid()
      modifies `inbox, `audit
      ensures Valid() && Evolved()
      ensures if key in old(inbox) || error.Some? then inbox == old(inbox) && audit == old(audit)
              else inbox == old(inbox)[key := NewInbox(allowed, downstream, now)] && audit == old(audit) + [Audit(key, allowed)]
      ensures duplicate <==> key in old(inbox)
      ensures error == IngestError(old(inbox), key, allowed, downstream)
    {
      error, duplicate := Insert(key, allowed, downstream, now);
    }

    // The offset only moves forward, but for a new epoch.
    method SetTelegramOffset(stream: string, next: int) returns (error: Option<Error>)
      modifies `offsets
      ensures error.Some? <==> next < 0
      ensures error.Some? ==> offsets == old(offsets)
      ensures error.None? ==> stream in offsets && offsets == old(offsets)[stream := offsets[stream]]
                              && offsets[stream].next >= next
                              && (stream in old(offsets) ==> offsets[stream] == old(offsets)[stream].(next := offsets[stream].next)
                                                             && offsets[stream].next >= old(offsets)[stream].next)
    {
      if next < 0 { return Some(BadArgument); }
      var offset := if stream in offsets then offsets[stream] else Offset(0, 0, None);
      offsets := offsets[stream := offset.(next := if next > offset.next then next else offset.next)];
      return None;
    }

    method BeginTelegramEpoch(stream: string, next: int) returns (error: Option<Error>, epoch: nat)
      modifies `offsets
      ensures error.Some? <==> next < 0
      ensures error.Some? ==> offsets == old(offsets)
      ensures error.None? ==> var bot := if stream in old(offsets) then old(offsets)[stream].bot else None;
                              offsets == old(offsets)[stream := Offset(next, epoch, bot)]
                              && epoch == 1 + if stream in old(offsets) then old(offsets)[stream].epoch else 0
    {
      if next < 0 { return Some(BadArgument), 0; }
      var offset := if stream in offsets then offsets[stream] else Offset(0, 0, None);
      epoch := offset.epoch + 1;
      offsets := offsets[stream := Offset(next, epoch, offset.bot)];
      return None, epoch;
    }

    // Another bot numbers its updates anew.
    method BindTelegramIdentity(stream: string, bot: string) returns (error: Option<Error>, epoch: nat)
      modifies `offsets
      ensures error.Some? <==> bot == ""
      ensures error.Some? ==> offsets == old(offsets)
      ensures error.None? ==> stream in offsets && epoch == offsets[stream].epoch
      ensures error.None? ==>
                var was := if stream in old(offsets) then old(offsets)[stream] else Offset(0, 0, None);
                offsets == old(offsets)[stream := if was.bot.Some? && was.bot.value != bot then Offset(0, was.epoch + 1, Some(bot))
                                                  else was.(bot := Some(bot))]
    {
      if bot == "" { return Some(BadArgument), 0; }
      if stream !in offsets {
        offsets := offsets[stream := Offset(0, 0, Some(bot))];
        return None, 0;
      }
      var offset := offsets[stream];
      epoch := offset.epoch;
      if offset.bot.None? {
        offsets := offsets[stream := offset.(bot := Some(bot))];
      } else if offset.bot.value != bot {
        epoch := epoch + 1;
        offsets := offsets[stream := Offset(0, epoch, Some(bot))];
      } else {
        assert offsets[stream := offset] == offsets;
      }
      return None, epoch;
    }

    // --- received events ---

    method RecoverInboxLeases(now: int)
      requires Valid()
      modifies `inbox
      ensures Valid() && Evolved()
      ensures inbox == RecoverInbox(old(inbox), now)
    {
      hide Counted, Handled, AuditedOnce, InFull, Answered, UniqueDownstream;
      RecoverInboxKeeps(inbox, outbox, audit, replies, now);
      HandledGrows(inbox, RecoverInbox(inbox, now), handled);
      inbox := RecoverInbox(inbox, now);
    }

    /** Recover expired leases, then lease the oldest waiting event. */
    method ClaimInbox(owner: string, lease: int, platform: Option<string>, now: int)
      returns (error: Option<Error>, claimed: Option<InboxKey>)
      requires Valid()
      modifies `inbox
      ensures Valid() && Evolved()
      ensures error.Some? <==> owner == ""
      ensures error.Some? ==> inbox == old(inbox) && claimed.None?
      ensures error.None? ==> FirstWaiting(RecoverInbox(old(inbox), now), platform, claimed)
      ensures error.None? ==> inbox == if claimed.None? then RecoverInbox(old(inbox), now)
                                       else LeasedEvent(RecoverInbox(old(inbox), now), claimed.value, owner, now + lease)
      ensures claimed.Some? ==> claimed.value in inbox && handled[claimed.value] < inbox[claimed.value].attempts
    {
      hide Counted, Handled, AuditedOnce, InFull, Answered, UniqueDownstream, RecoverInbox, InboxGrows, OutboxGrows, FirstWaiting;
      if owner == "" {
        NothingGrows(inbox, outbox);
        return Some(BadArgument), None;
      }
      RecoverInboxLeases(now);
      ghost var recovered := inbox;
      claimed := OldestWaiting(platform);
      if claimed.Some? {
        IsWaiting(inbox, platform, claimed.value, handled);
        var row := inbox[claimed.value];
        UpdateInbox(claimed.value, ClaimIn(owner, now + lease));
        inbox := inbox[claimed.value := row.(status := Processing, owner := Some(owner), expiresAt := Some(now + lease),
                                             attempts := row.attempts + 1)];
        UpdateGrows(recovered, claimed.value, inbox[claimed.value]);
        GrowsTransitive(old(inbox), recovered, inbox);
      }
      return None, claimed;
    }

    method OldestWaiting(platform: Option<string>) returns (oldest: Option<InboxKey>)
      ensures FirstWaiting(inbox, platform, oldest)
    {
      oldest := None;
      var todo := inbox.Keys;
      while todo != {}
        invariant todo <= inbox.Keys
        invariant oldest.Some? ==> Waiting(inbox, platform, oldest.value)
        invariant forall key <- inbox.Keys - todo :: Waiting(inbox, platform, key) ==>
                    oldest.Some? && inbox[oldest.value].createdAt <= inbox[key].createdAt
        decreases |todo|
      {
        var key :| key in todo;
        todo := todo - {key};
        if Waiting(inbox, platform, key) && (oldest.None? || inbox[key].createdAt < inbox[oldest.value].createdAt) { oldest := Some(key); }
      }
    }

    // A guarded update of one event keeps everything else.
    lemma UpdateInbox(key: InboxKey, op: InboxOp)
      requires Valid() && key in inbox
      ensures var row := NextIn(inbox[key], op);
              && InboxInv(row) && InboxEvolves(inbox[key], row)
              && UniqueDownstream(inbox[key := row]) && AuditedOnce(inbox[key := row], audit)
              && Answered(inbox[key := row], outbox, replies) && Handled(inbox[key := row], handled)
    {
      hide Counted;
      NextInKeeps(inbox[key], op);
    }

    method HeartbeatInbox(key: InboxKey, owner: string, lease: int, now: int) returns (error: Option<Error>)
      requires Valid()
      modifies `inbox
      ensures Valid() && Evolved() && PerformedIn(old(inbox), key, HeartbeatIn(owner, now + lease, now), error, inbox)
    {
      hide Counted, Handled, AuditedOnce, InFull, Answered, UniqueDownstream;
      if key !in inbox || !HoldsEvent(inbox[key], owner, now) { return Some(Transition); }
      UpdateInbox(key, HeartbeatIn(owner, now + lease, now));
      inbox := inbox[key := inbox[key].(expiresAt := Some(now + lease))];
      return None;
    }

    method LinkInboxRun(key: InboxKey, downstream: string, run: string, now: int) returns (error: Option<Error>)
      requires Valid()
      modifies `inbox
      ensures Valid() && Evolved()
      ensures if run == "" then error == Some(BadArgument) && inbox == old(inbox)
              else PerformedIn(old(inbox), key, LinkIn(downstream, run, now), error, inbox)
    {
      hide Counted, Handled, AuditedOnce, InFull, Answered, UniqueDownstream;
      if run == "" { return Some(BadArgument); }
      if key !in inbox { return Some(Transition); }
      var row := inbox[key];
      if row.downstream != Some(downstream) || row.status != Processing || row.expiresAt.None? || row.expiresAt.value <= now {
        return Some(Transition);
      }
      if row.run.Some? && row.run.value != run { return Some(Transition); }
      UpdateInbox(key, LinkIn(downstream, run, now));
      inbox := inbox[key := row.(run := Some(run))];
      return None;
    }

    method FinishInbox(key: InboxKey, owner: string, verdict: InboxStatus, run: Option<string>,
                       outboxKey: Option<string>, now: int)
      returns (error: Option<Error>)
      requires Valid() && Finished(verdict)
      modifies `inbox
      ensures Valid() && Evolved() && PerformedIn(old(inbox), key, FinishIn(owner, verdict, run, outboxKey, now), error, inbox)
    {
      hide Counted, Handled, AuditedOnce, InFull, Answered, UniqueDownstream;
      if key !in inbox || !HoldsEvent(inbox[key], owner, now) { return Some(Transition); }
      UpdateInbox(key, FinishIn(owner, verdict, run, outboxKey, now));
      var row := inbox[key];
      inbox := inbox[key := row.(status := verdict, owner := None, expiresAt := None,
                                 run := if run.Some? then run else row.run,
                                 outboxKey := if outboxKey.Some? then outboxKey else row.outboxKey)];
      return None;
    }

    // The outbox after enqueueing a batch, message by message.
    method EnqueueBatch(batch: seq<OutboundMessage>, now: int) returns (enqueued: Option<map<string, OutboxRow>>)
      ensures enqueued == EnqueuedAll(outbox, batch, now)
    {
      var rows := outbox;
      for n := 0 to |batch|
        invariant EnqueuedAll(outbox, batch[..n], now) == Some(rows)
      {
        assert batch[..n + 1][..n] == batch[..n];
        if batch[n].key in rows && rows[batch[n].key].message != batch[n] {
          ClashStays(outbox, batch, n + 1, now);
          return None;
        }
        if batch[n].key !in rows { rows := rows[batch[n].key := NewOutbox(batch[n], now)]; }
      }
      assert batch[..|batch|] == batch;
      return Some(rows);
    }

    /** Complete an event and enqueue its replies in one transaction: the batch is
        enqueued in full by the one handler whose lease still holds, or nothing at
        all changes. */
    method CompleteInboxWithOutbox(key: InboxKey, owner: string, batch: seq<OutboundMessage>, run: Option<string>, now: int)
      returns (error: Option<Error>)
      requires Valid()
      modifies `inbox, `outbox, `replies
      ensures Valid() && Evolved()
      ensures error.Some? ==> inbox == old(inbox) && outbox == old(outbox) && replies == old(replies)
      ensures error.None? <==> EnqueuedAll(old(outbox), batch, now).Some? && key in old(inbox) && HoldsEvent(old(inbox)[key], owner, now)
      ensures error.None? ==>
                && outbox == EnqueuedAll(old(outbox), batch, now).value && InFull(outbox, batch)
                && inbox == old(inbox)[key := NextIn(old(inbox)[key], FinishIn(owner, InboxCompleted, run, FirstKey(batch), now))]
                && key !in old(replies) && replies == old(replies)[key := batch]
    {
      hide Counted, Handled, AuditedOnce, InFull, Answered, UniqueDownstream;
      var enqueued := EnqueueBatch(batch, now);
      if enqueued.None? { return Some(DifferentContent); }
      var rows := enqueued.value;
      if key !in inbox || !HoldsEvent(inbox[key], owner, now) { return Some(Transition); }
      hide InboxGrows, OutboxGrows, EnqueuedAll, InboxInv, OutboxInv, HoldsEvent;
      var first := FirstKey(batch);
      var row := inbox[key];
      var done := row.(status := InboxCompleted, owner := None, expiresAt := None,
                       run := if run.Some? then run else row.run,
                       outboxKey := if first.Some? then first else row.outboxKey);
      CompletionKeeps(key, owner, batch, run, now, first, done);
      outbox := rows;
      inbox := inbox[key := done];
      replies := replies[key := batch];
      return None;
    }

    lemma CompletionKeeps(key: InboxKey, owner: string, batch: seq<OutboundMessage>, run: Option<string>, now: int,
                          first: Option<string>, done: InboxRow)
      requires Valid() && key in inbox && HoldsEvent(inbox[key], owner, now) && EnqueuedAll(outbox, batch, now).Some?
      requires done == inbox[key].(status := InboxCompleted, owner := None, expiresAt := None,
                                   run := Coalesce(run, inbox[key].run), outboxKey := Coalesce(first, inbox[key].outboxKey))
      ensures ApplyIn(inbox[key], FinishIn(owner, InboxCompleted, run, first, now)) == Some(done)
      ensures var rows := EnqueuedAll(outbox, batch, now).value;
              && InboxInv(done) && (forall k <- rows :: OutboxInv(rows[k])) && InFull(rows, batch)
              && UniqueDownstream(inbox[key := done]) && AuditedOnce(inbox[key := done], audit)
              && key !in replies && Answered(inbox[key := done], rows, replies[key := batch])
              && Counted(rows, retries, sends) && Handled(inbox[key := done], handled)
              && InboxGrows(inbox, inbox[key := done]) && OutboxGrows(outbox, rows)
    {
      hide Counted, Handled, AuditedOnce, InFull, Answered, UniqueDownstream, InboxGrows, OutboxGrows, EnqueuedAll;
      UpdateInbox(key, FinishIn(owner, InboxCompleted, run, first, now));
      EnqueueKeeps(outbox, batch, now);
      EnqueueCounts(outbox, batch, now, retries, sends);
      UpdateGrows(inbox, key, done);
      AnsweredStays(inbox, inbox[key := done], outbox, EnqueuedAll(outbox, batch, now).value, replies, key, batch);
    }

    // --- messages to be sent ---

    method EnqueueOutbox(message: OutboundMessage, now: int) returns (error: Option<Error>)
      requires Valid()
      modifies `outbox
      ensures Valid() && Evolved()
      ensures if CanEnqueue(old(outbox), message) then error.None? && outbox == Enqueued(old(outbox), message, now)
              else error == Some(DifferentContent) && outbox == old(outbox)
    {
      hide Counted, Handled, AuditedOnce, Answered, UniqueDownstream;
      if message.key in outbox && outbox[message.key].message != message { return Some(DifferentContent); }
      var rows := if message.key in outbox then outbox else outbox[message.key := NewOutbox(message, now)];
      assert [message][..0] == [];
      assert EnqueuedAll(outbox, [message], now) == Some(rows);
      EnqueueKeeps(outbox, [message], now);
      EnqueueCounts(outbox, [message], now, retries, sends);
      AnsweredGrows(inbox, outbox, rows, replies);
      outbox := rows;
      return None;
    }

    // A guarded update of one message keeps everything else.
    lemma UpdateOutbox(key: string, op: OutboxOp)
      requires Valid() && key in outbox
      ensures var row := NextOut(outbox[key], op);
              && OutboxInv(row) && OutboxEvolves(outbox[key], row) && Answered(inbox, outbox[key := row], replies)
              && (if op.RetryOut? && ApplyOut(outbox[key], op).Some?
                  then Counted(outbox[key := row], retries[key := RetriesOf(retries, key) + 1], sends)
                  else Counted(outbox[key := row], retries, sends))
    {
      hide Handled, AuditedOnce, UniqueDownstream;
      NextOutKeeps(outbox[key], op);
      AnsweredGrows(inbox, outbox, outbox[key := NextOut(outbox[key], op)], replies);
    }

    // A send whose lease expired is not tried again: its outcome is unknown.
    method RecoverOutboxLeases(now: int)
      requires Valid()
      modifies `outbox
      ensures Valid() && Evolved()
      ensures outbox == RecoverOutbox(old(outbox), now)
    {
      hide Handled, AuditedOnce, UniqueDownstream, InFull, Answered;
      RecoverOutboxKeeps(outbox, retries, sends, now);
      AnsweredGrows(inbox, outbox, RecoverOutbox(outbox, now), replies);
      outbox := RecoverOutbox(outbox, now);
    }

    /** Recover expired leases, then lease the oldest pending message. */
    method ClaimOutbox(owner: string, lease: int, platform: Option<string>, now: int)
      returns (error: Option<Error>, claimed: Option<string>)
      requires Valid()
      modifies `outbox
      ensures Valid() && Evolved()
      ensures error.Some? <==> owner == ""
      ensures error.Some? ==> outbox == old(outbox) && claimed.None?
      ensures error.None? ==> FirstPending(RecoverOutbox(old(outbox), now), platform, claimed)
      ensures error.None? ==> outbox == if claimed.None? then RecoverOutbox(old(outbox), now)
                                        else LeasedMessage(RecoverOutbox(old(outbox), now), claimed.value, owner, now + lease)
      ensures claimed.Some? ==> claimed.value in outbox && sends[claimed.value] < outbox[claimed.value].attempts
    {
      claimed := None;
      hide Handled, AuditedOnce, InFull, Answered, UniqueDownstream, RecoverOutbox, InboxGrows, OutboxGrows, FirstPending, Counted;
      if owner == "" {
        NothingGrows(inbox, outbox);
        return Some(BadArgument), None;
      }
      RecoverOutboxLeases(now);
      NothingGrows(inbox, outbox);
      ghost var recovered := outbox;
      claimed := OldestPending(platform);
      if claimed.Some? {
        IsPending(outbox, platform, claimed.value, retries, sends);
        var row := outbox[claimed.value];
        UpdateOutbox(claimed.value, ClaimOut(owner, now + lease));
        outbox := outbox[claimed.value := row.(status := Sending, owner := Some(owner), expiresAt := Some(now + lease),
                                               attempts := row.attempts + 1)];
        OutboxUpdateGrows(recovered, claimed.value, outbox[claimed.value]);
        OutboxGrowsTransitive(old(outbox), recovered, outbox);
      }
      return None, claimed;
    }

    method OldestPending(platform: Option<string>) returns (oldest: Option<string>)
      ensures FirstPending(outbox, platform, oldest)
    {
      oldest := None;
      var todo := outbox.Keys;
      while todo != {}
        invariant todo <= outbox.Keys
        invariant oldest.Some? ==> PendingFor(outbox, platform, oldest.value)
        invariant forall key <- outbox.Keys - todo :: PendingFor(outbox, platform, key) ==>
                    oldest.Some? && outbox[oldest.value].createdAt <= outbox[key].createdAt
        decreases |todo|
      {
        var key :| key in todo;
        todo := todo - {key};
        if PendingFor(outbox, platform, key) && (oldest.None? || outbox[key].createdAt < outbox[oldest.value].createdAt) { oldest := Some(key); }
      }
    }

    method HeartbeatOutbox(key: string, owner: string, lease: int, now: int) returns (error: Option<Error>)
      requires Valid()
      modifies `outbox
      ensures Valid() && Evolved() && PerformedOut(old(outbox), key, HeartbeatOut(owner, now + lease, now), error, outbox)
    {
      hide Handled, AuditedOnce, InFull, Answered, UniqueDownstream, Counted;
      if key !in outbox || !HoldsSend(outbox[key], owner, now) { return Some(Transition); }
      UpdateOutbox(key, HeartbeatOut(owner, now + lease, now));
      outbox := outbox[key := outbox[key].(expiresAt := Some(now + lease))];
      return None;
    }

    method FinishOutbox(key: string, owner: string, verdict: OutboxStatus, now: int) returns (error: Option<Error>)
      requires Valid() && verdict in {Sent, Unknown, SendFailed}
      modifies `outbox
      ensures Valid() && Evolved() && PerformedOut(old(outbox), key, FinishOut(owner, verdict, now), error, outbox)
    {
      hide Handled, AuditedOnce, InFull, Answered, UniqueDownstream, Counted;
      if key !in outbox || !HoldsSend(outbox[key], owner, now) { return Some(Transition); }
      UpdateOutbox(key, FinishOut(owner, verdict, now));
      outbox := outbox[key := outbox[key].(status := verdict, owner := None, expiresAt := None)];
      return None;
    }

    method ResolveOutbox(key: string, sent: bool, note: string) returns (error: Option<Error>)
      requires Valid()
      modifies `outbox
      ensures Valid() && Evolved()
      ensures if note == "" then error == Some(BadArgument) && outbox == old(outbox)
              else PerformedOut(old(outbox), key, ResolveOut(sent, note), error, outbox)
    {
      hide Handled, AuditedOnce, InFull, Answered, UniqueDownstream, Counted;
      if note == "" { return Some(BadArgument); }
      if key !in outbox || outbox[key].status != Unknown { return Some(Transition); }
      UpdateOutbox(key, ResolveOut(sent, note));
      outbox := outbox[key := outbox[key].(status := if sent then Sent else SendFailed)];
      return None;
    }

    // Only an operator puts a message back.
    method RetryOutbox(key: string, note: string) returns (error: Option<Error>)
      requires Valid()
      modifies `outbox, `retries
      ensures Valid() && Evolved()
      ensures if note == "" then error == Some(BadArgument) && outbox == old(outbox)
              else PerformedOut(old(outbox), key, RetryOut(note), error, outbox)
      ensures retries == if error.None? then old(retries)[key := RetriesOf(old(retries), key) + 1] else old(retries)
    {
      hide Handled, AuditedOnce, InFull, Answered, UniqueDownstream, Counted;
      if note == "" { return Some(BadArgument); }
      if key !in outbox || outbox[key].status !in {Unknown, SendFailed} { return Some(Transition); }
      UpdateOutbox(key, RetryOut(note));
      outbox := outbox[key := outbox[key].(status := Pending)];
      retries := retries[key := RetriesOf(retries, key) + 1];
      return None;
    }

    // --- what is handed out ---

    ghost method HandToAdapter(key: string)
      requires Valid() && key in outbox && sends[key] < outbox[key].attempts
      modifies `sends
      ensures Valid() && Evolved() && sends == old(sends) + multiset{key}
    {
      hide Handled, AuditedOnce, InFull, Answered, UniqueDownstream;
      NothingGrows(inbox, outbox);
      sends := sends + multiset{key};
    }

    ghost method HandToHandler(key: InboxKey)
      requires Valid() && key in inbox && handled[key] < inbox[key].attempts
      modifies `handled
      ensures Valid() && Evolved() && handled == old(handled) + multiset{key}
    {
      hide Counted, AuditedOnce, InFull, Answered, UniqueDownstream;
      NothingGrows(inbox, outbox);
      handled := handled + multiset{key};
    }

    // Whatever other workers and operators do meanwhile; callers may rely on the
    // contract alone.
    method Others()
      requires Valid()
      modifies this
      ensures Valid() && Evolved()
    {
      var now: int := *;
      if * { RecoverOutboxLeases(now); } else { RecoverInboxLeases(now); }
    }
  }

  predicate PendingFor(outbox: map<string, OutboxRow>, platform: Option<string>, key: string) {
    key in outbox && outbox[key].status == Pending && (platform.None? || outbox[key].message.envelope.platform == platform.value)
  }

  predicate FirstPending(outbox: map<string, OutboxRow>, platform: Option<string>, claimed: Option<string>) {
    match claimed
    case None => forall key <- outbox :: !PendingFor(outbox, platform, key)
    case Some(first) => PendingFor(outbox, platform, first) &&
                        forall key <- outbox :: PendingFor(outbox, platform, key) ==>
                                  outbox[first].createdAt <= outbox[key].createdAt
  }

  lemma IsPending(outbox: map<string, OutboxRow>, platform: Option<string>, key: string, retries: map<string, nat>,
                  sends: multiset<string>)
    requires FirstPending(outbox, platform, Some(key)) && Counted(outbox, retries, sends)
    ensures key in outbox && outbox[key].status == Pending && sends[key] <= outbox[key].attempts
  {
  }

  function RecoverOutbox(outbox: map<string, OutboxRow>, now: int): map<string, OutboxRow> {
    map key <- outbox :: NextOut(outbox[key], RecoverOut(now))
  }

  lemma RecoverOutboxKeeps(outbox: map<string, OutboxRow>, retries: map<string, nat>, sends: multiset<string>, now: int)
    requires (forall key <- outbox :: OutboxInv(outbox[key])) && Counted(outbox, retries, sends)
    ensures var after := RecoverOutbox(outbox, now);
            && OutboxGrows(outbox, after) && (forall key <- after :: OutboxInv(after[key])) && Counted(after, retries, sends)
  {
    forall key <- outbox
      ensures var row := NextOut(outbox[key], RecoverOut(now)); OutboxInv(row) && OutboxEvolves(outbox[key], row) && Promised(row) == Promised(outbox[key])
    {
      NextOutKeeps(outbox[key], RecoverOut(now));
    }
  }

  lemma OutboxUpdateGrows(outbox: map<string, OutboxRow>, key: string, row: OutboxRow)
    requires key in outbox && OutboxEvolves(outbox[key], row)
    ensures OutboxGrows(outbox, outbox[key := row])
  {
  }

  lemma OutboxGrowsTransitive(a: map<string, OutboxRow>, b: map<string, OutboxRow>, c: map<string, OutboxRow>)
    requires OutboxGrows(a, b) && OutboxGrows(b, c)
    ensures OutboxGrows(a, c)
  {
    forall key <- a ensures key in c && OutboxEvolves(a[key], c[key]) {
      assert OutboxEvolves(a[key], b[key]) && OutboxEvolves(b[key], c[key]);
    }
  }

  lemma AnsweredGrows(inbox: map<InboxKey, InboxRow>, before: map<string, OutboxRow>, after: map<string, OutboxRow>,
                      replies: map<InboxKey, seq<OutboundMessage>>)
    requires Answered(inbox, before, replies) && OutboxGrows(before, after)
    ensures Answered(inbox, after, replies)
  {
    forall k <- replies ensures InFull(after, replies[k]) {
      forall m <- replies[k] ensures m.key in after && after[m.key].message == m {
        assert OutboxEvolves(before[m.key], after[m.key]);
      }
    }
  }

  predicate PerformedOut(before: map<string, OutboxRow>, key: string, op: OutboxOp, error: Option<Error>,
                         after: map<string, OutboxRow>) {
    if key in before && ApplyOut(before[key], op).Some? then error.None? && after == before[key := ApplyOut(before[key], op).value]
    else error == Some(Transition) && after == before
  }

  predicate Waiting(inbox: map<InboxKey, InboxRow>, platform: Option<string>, key: InboxKey) {
    key in inbox && inbox[key].status == Received && (platform.None? || key.platform == platform.value)
  }

  predicate FirstWaiting(inbox: map<InboxKey, InboxRow>, platform: Option<string>, claimed: Option<InboxKey>) {
    match claimed
    case None => forall key <- inbox :: !Waiting(inbox, platform, key)
    case Some(first) => Waiting(inbox, platform, first) &&
                        forall key <- inbox :: Waiting(inbox, platform, key) ==> inbox[first].createdAt <= inbox[key].createdAt
  }

  // The rows after one of them was leased.
  function LeasedEvent(inbox: map<InboxKey, InboxRow>, key: InboxKey, owner: string, expiry: int): map<InboxKey, InboxRow>
    requires key in inbox
  {
    inbox[key := NextIn(inbox[key], ClaimIn(owner, expiry))]
  }

  function LeasedMessage(outbox: map<string, OutboxRow>, key: string, owner: string, expiry: int): map<string, OutboxRow>
    requires key in outbox
  {
    outbox[key := NextOut(outbox[key], ClaimOut(owner, expiry))]
  }

  lemma IsWaiting(inbox: map<InboxKey, InboxRow>, platform: Option<string>, key: InboxKey, handled: multiset<InboxKey>)
    requires FirstWaiting(inbox, platform, Some(key)) && Handled(inbox, handled)
    ensures key in inbox && inbox[key].status == Received && handled[key] <= inbox[key].attempts
  {
    assert key in handled || handled[key] == 0;
  }

  lemma NothingGrows(inbox: map<InboxKey, InboxRow>, outbox: map<string, OutboxRow>)
    ensures InboxGrows(inbox, inbox) && OutboxGrows(outbox, outbox)
  {
  }

  lemma UpdateGrows(inbox: map<InboxKey, InboxRow>, key: InboxKey, row: InboxRow)
    requires key in inbox && InboxEvolves(inbox[key], row)
    ensures InboxGrows(inbox, inbox[key := row])
  {
  }

  lemma GrowsTransitive(a: map<InboxKey, InboxRow>, b: map<InboxKey, InboxRow>, c: map<InboxKey, InboxRow>)
    requires InboxGrows(a, b) && InboxGrows(b, c)
    ensures InboxGrows(a, c)
  {
    forall key <- a ensures key in c && InboxEvolves(a[key], c[key]) {
      assert InboxEvolves(a[key], b[key]) && InboxEvolves(b[key], c[key]);
    }
  }

  function RecoverInbox(inbox: map<InboxKey, InboxRow>, now: int): map<InboxKey, InboxRow> {
    map key <- inbox :: NextIn(inbox[key], RecoverIn(now))
  }

  lemma RecoverInboxKeeps(inbox: map<InboxKey, InboxRow>, outbox: map<string, OutboxRow>, audit: seq<Audit>,
                          replies: map<InboxKey, seq<OutboundMessage>>, now: int)
    requires (forall key <- inbox :: InboxInv(inbox[key])) && UniqueDownstream(inbox) && AuditedOnce(inbox, audit) && Answered(inbox, outbox, replies)
    ensures var after := RecoverInbox(inbox, now);
            && InboxGrows(inbox, after) && (forall key <- after :: InboxInv(after[key]))
            && UniqueDownstream(after) && AuditedOnce(after, audit) && Answered(after, outbox, replies)
  {
    hide InFull;
    assert RecoverInbox(inbox, now).Keys == inbox.Keys;
    forall key <- inbox ensures InboxInv(NextIn(inbox[key], RecoverIn(now))) && InboxEvolves(inbox[key], NextIn(inbox[key], RecoverIn(now))) {
      NextInKeeps(inbox[key], RecoverIn(now));
    }
  }

  // A guarded update: performed as the row machine says, or refused.
  predicate PerformedIn(before: map<InboxKey, InboxRow>, key: InboxKey, op: InboxOp, error: Option<Error>,
                        after: map<InboxKey, InboxRow>) {
    if key in before && ApplyIn(before[key], op).Some? then error.None? && after == before[key := ApplyIn(before[key], op).value]
    else error == Some(Transition) && after == before
  }

  lemma NewEventIsAudited(inbox: map<InboxKey, InboxRow>, audit: seq<Audit>, key: InboxKey, row: InboxRow, entry: Audit)
    requires AuditedOnce(inbox, audit) && key !in inbox && entry.key == key
    ensures AuditedOnce(inbox[key := row], audit + [entry])
  {
    var longer := audit + [entry];
    assert (set a <- longer :: a.key) == (set a <- audit :: a.key) + {key} by {
      assert forall a :: a in longer <==> a in audit || a == entry;
      assert entry in longer;
    }
    forall i, j | 0 <= i < j < |longer| ensures longer[i].key != longer[j].key {
      if j == |audit| { assert audit[i] in audit; }
    }
  }

  lemma NewEventKeeps(inbox: map<InboxKey, InboxRow>, outbox: map<string, OutboxRow>, replies: map<InboxKey,
                      seq<OutboundMessage>>,
                      key: InboxKey, row: InboxRow)
    requires key !in inbox && UniqueDownstream(inbox) && Answered(inbox, outbox, replies) && (forall k <- inbox :: InboxInv(inbox[k])) && InboxInv(row)
    requires row.downstream.Some? ==> forall k <- inbox :: inbox[k].downstream != row.downstream
    ensures UniqueDownstream(inbox[key := row]) && Answered(inbox[key := row], outbox, replies)
    ensures InboxGrows(inbox, inbox[key := row])
  {
  }

  lemma {:induction false} ClashStays(outbox: map<string, OutboxRow>, batch: seq<OutboundMessage>, n: nat, now: int)
    requires n <= |batch| && EnqueuedAll(outbox, batch[..n], now).None?
    ensures EnqueuedAll(outbox, batch, now).None?
    decreases |batch| - n
  {
    if n < |batch| {
      assert batch[..n + 1][..n] == batch[..n];
      ClashStays(outbox, batch, n + 1, now);
    } else {
      assert batch[..n] == batch;
    }
  }

  lemma AnsweredStays(inbox: map<InboxKey, InboxRow>, inboxAfter: map<InboxKey, InboxRow>, before: map<string,
                      OutboxRow>, after: map<string, OutboxRow>,
                      replies: map<InboxKey, seq<OutboundMessage>>, key: InboxKey, batch: seq<OutboundMessage>)
    requires Answered(inbox, before, replies) && InboxGrows(inbox, inboxAfter) && OutboxGrows(before, after)
    requires key in inbox && !Finished(inbox[key].status) && key in inboxAfter && inboxAfter[key].status == InboxCompleted
    requires InFull(after, batch)
    ensures key !in replies && Answered(inboxAfter, after, replies[key := batch])
  {
    forall k <- replies ensures k in inboxAfter && inboxAfter[k] == inbox[k] && InFull(after, replies[k]) {
      assert InboxEvolves(inbox[k], inboxAfter[k]);
      forall m <- replies[k] ensures m.key in after && after[m.key].message == m {
        assert OutboxEvolves(before[m.key], after[m.key]);
      }
    }
  }
}
