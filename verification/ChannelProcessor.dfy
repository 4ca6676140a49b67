/**
 One worker between the tables, the handlers and the platform: it claims an event
 or a message, hands it out once, and records the outcome.
 */
module ChannelProcessor {
  import opened Options
  import opened Chunking
  import opened Delivery
  import opened ChannelStore
  import JournalTypes
  import JournalSpec
  import JournalHistory

  // Nothing to do, done, or the exception that ended the call.
  datatype Outcome = Idle | Done | Raised

  datatype Reply = Accepted | Refused(deliveryUnknown: bool)

  // What was known of a message when its delivery was recorded: what the platform
  // said, the time, and whether the worker still had its lease.
  datatype Told = Told(reply: Reply, now: int, held: bool)

  // What was known of an event when its outcome was recorded: the handler's messages,
  // None when it raised; the parts they were prepared in; the time; and whether the
  // worker still had its lease.
  datatype Heard = Heard(messages: Option<seq<OutboundMessage>>, parts: seq<seq<OutboundMessage>>, now: int, held: bool)

  lemma GrowsThrough(inbox0: map<InboxKey, InboxRow>, inbox1: map<InboxKey, InboxRow>, inbox2: map<InboxKey, InboxRow>,
                     outbox0: map<string, OutboxRow>, outbox1: map<string, OutboxRow>, outbox2: map<string, OutboxRow>)
    requires InboxGrows(inbox0, inbox1) && InboxGrows(inbox1, inbox2) && OutboxGrows(outbox0, outbox1)
    requires OutboxGrows(outbox1, outbox2)
    ensures InboxGrows(inbox0, inbox2) && OutboxGrows(outbox0, outbox2)
  {
    GrowsTransitive(inbox0, inbox1, inbox2);
    OutboxGrowsTransitive(outbox0, outbox1, outbox2);
  }

  // What the adapter sends for one message.
  ghost predicate PreparedFrom(message: OutboundMessage, limit: Option<int>, part: seq<OutboundMessage>) {
    if limit.None? then part == [message] else exists pieces :: SentAs(message, limit.value, part, pieces)
  }

  function Flatten(parts: seq<seq<OutboundMessage>>): seq<OutboundMessage> {
    if parts == [] then [] else Flatten(parts[..|parts| - 1]) + parts[|parts| - 1]
  }

  lemma FlattenMore(parts: seq<seq<OutboundMessage>>, part: seq<OutboundMessage>)
    ensures Flatten(parts + [part]) == Flatten(parts) + part
  {
    assert (parts + [part])[..|parts|] == parts;
  }

  // What the workers, the operators and the platform do, one after another.
  datatype Turn =
    | Receive(event: InboxKey, allowed: bool, downstream: Option<string>, now: int)
    | Poll(stream: string, update: int, allowed: bool, now: int)
    | Enqueue(message: OutboundMessage, now: int)
    | Process
    | Send
    | Resolve(key: string, sent: bool, note: string)
    | Retry(key: string, note: string)

  class Processor {
    const store: Store
    const owner: string
    const platform: string
    const lease: int
    // The limit of an adapter that prepares messages by splitting them.
    const limit: Option<int>

    constructor (store: Store, owner: string, platform: string, lease: int, limit: Option<int>)
      ensures this.store == store
    {
      this.store, this.owner, this.platform, this.lease, this.limit := store, owner, platform, lease, limit;
    }

    // The adapter takes every one of the messages.
    predicate Sendable(messages: seq<OutboundMessage>) {
      forall m <- messages :: m.envelope.platform == platform && (limit.Some? ==> !TooSmall(m.text, limit.value))
    }

    /** The handler's messages as the adapter will send them, each message in its
        chunks and in order; None exactly when the adapter refuses one of them. */
    method Prepare(messages: seq<OutboundMessage>)
      returns (prepared: Option<seq<OutboundMessage>>, ghost parts: seq<seq<OutboundMessage>>)
      ensures prepared.Some? <==> Sendable(messages)
      ensures prepared.Some? ==> |parts| == |messages| && prepared.value == Flatten(parts)
                                 && forall n | 0 <= n < |messages| :: PreparedFrom(messages[n], limit, parts[n])
    {
      hide SentAs;
      var result: seq<OutboundMessage> := [];
      parts := [];
      for n := 0 to |messages|
        invariant |parts| == n && result == Flatten(parts)
        invariant forall k | 0 <= k < n :: messages[k].envelope.platform == platform && (limit.Some? ==> !TooSmall(messages[k].text, limit.value))
        invariant forall k | 0 <= k < n :: PreparedFrom(messages[k], limit, parts[k])
      {
        assert messages[n] in messages;
        if messages[n].envelope.platform != platform { return None, []; }
        var part := [messages[n]];
        if limit.Some? {
          var chunks, pieces := ChunkOutbound(messages[n], limit.value);
          if chunks.None? { return None, []; }
          part := chunks.value;
          assert SentAs(messages[n], limit.value, part, pieces);
        }
        FlattenMore(parts, part);
        parts := parts + [part];
        result := result + part;
      }
      return Some(result), parts;
    }

    /** Claim one event, run its handler once, and hand over its replies with the
        completion of the event, or record that it failed. */
    method ProcessInboxOnce() returns (outcome: Outcome, ghost claimed: Option<InboxKey>, ghost heard: Heard)
      requires store.Valid()
      modifies store
      ensures store.Valid() && store.Evolved()
      // It is idle exactly if no event of the platform waits; it raises without one only
      // for a worker without a name.
      ensures claimed.None? ==> outcome == if owner == "" then Raised else Idle
      ensures outcome == Idle ==> claimed.None? && forall key <- store.inbox :: key.platform == platform ==> store.inbox[key].status != Received
      ensures claimed.Some? ==> claimed.value.platform == platform && store.handled[claimed.value] > old(store.handled[claimed.value])
      ensures outcome == Done ==> claimed.Some? && claimed.value in store.replies
                                  && store.inbox[claimed.value].status == InboxCompleted && InFull(store.outbox, store.replies[claimed.value])
      ensures claimed.Some? ==> Concluded(store.inbox, store.outbox, store.replies, claimed.value, outcome, heard)
    {
      hide UniqueDownstream, AuditedOnce, Counted, Handled, Answered, InFull, FirstWaiting, RecoverInbox, InboxGrows, OutboxGrows;
      var now: int := *;
      heard := Heard(None, [], now, false);
      var error, key := store.ClaimInbox(owner, lease, Some(platform), now);
      claimed := key;
      if error.Some? { return Raised, None, heard; }
      IsNext(RecoverInbox(old(store.inbox), now), key);
      if key.None? { return Idle, None, heard; }
      ghost var inbox, outbox := store.inbox, store.outbox;
      store.HandToHandler(key.value);
      GrowsThrough(old(store.inbox), inbox, store.inbox, old(store.outbox), outbox, store.outbox);
      inbox, outbox := store.inbox, store.outbox;
      outcome, heard := Conclude(key.value);
      GrowsThrough(old(store.inbox), inbox, store.inbox, old(store.outbox), outbox, store.outbox);
    }

    lemma IsNext(inbox: map<InboxKey, InboxRow>, claimed: Option<InboxKey>)
      requires FirstWaiting(inbox, Some(platform), claimed)
      ensures claimed.Some? ==> claimed.value.platform == platform
      ensures claimed.None? ==> forall key <- inbox :: key.platform == platform ==> inbox[key].status != Received
    {
      forall key <- inbox | key.platform == platform && claimed.None? ensures inbox[key].status != Received {
        assert !Waiting(inbox, Some(platform), key);
      }
    }

    /** Done means that the event is answered with exactly the handler's messages, each
        in its parts.  With its lease, the worker fails the event only if the handler
        raised, the adapter refuses one of the messages, or the outbox has one of their
        keys with other content; without, it leaves the event as it is. */
    ghost predicate Concluded(inbox: map<InboxKey, InboxRow>, outbox: map<string, OutboxRow>, replies: map<InboxKey, seq<OutboundMessage>>,
                              key: InboxKey, outcome: Outcome, heard: Heard) {
      match outcome
      case Idle => false
      case Done =>
        && heard.held && heard.messages.Some? && Sendable(heard.messages.value) && key in replies && replies[key] == Flatten(heard.parts)
        && |heard.parts| == |heard.messages.value|
        && forall n | 0 <= n < |heard.parts| :: PreparedFrom(heard.messages.value[n], limit, heard.parts[n])
      case Raised =>
        if heard.held then
          && key in inbox && inbox[key].status == InboxFailed
          && (heard.messages.None? || !Sendable(heard.messages.value) || EnqueuedAll(outbox, Flatten(heard.parts), heard.now).None?)
        else
          key in inbox ==> !HoldsEvent(inbox[key], owner, heard.now)
    }

    // The handler has been started for an event; what becomes of it.
    method Conclude(key: InboxKey) returns (outcome: Outcome, ghost heard: Heard)
      requires store.Valid()
      modifies store
      ensures store.Valid() && store.Evolved()
      ensures outcome != Idle
      ensures outcome == Done ==> key in store.replies && store.inbox[key].status == InboxCompleted && InFull(store.outbox, store.replies[key])
      ensures Concluded(store.inbox, store.outbox, store.replies, key, outcome, heard)
    {
      hide UniqueDownstream, AuditedOnce, Counted, Handled, Answered, InFull, InboxGrows, OutboxGrows, EnqueuedAll, PreparedFrom;
      hide Concluded, Sendable, PerformedIn, NextIn, ApplyIn;
      store.Others();
      ghost var inbox, outbox := store.inbox, store.outbox;
      var now: int, messages: Option<seq<OutboundMessage>>, run: Option<string> := *, *, *;
      heard := Heard(messages, [], now, key in store.inbox && HoldsEvent(store.inbox[key], owner, now));
      if messages.Some? {
        var prepared, parts := Prepare(messages.value);
        heard := heard.(parts := parts);
        if prepared.Some? {
          var error := store.CompleteInboxWithOutbox(key, owner, prepared.value, run, now);
          GrowsThrough(old(store.inbox), inbox, store.inbox, old(store.outbox), outbox, store.outbox);
          if error.None? {
            IsAnswered(store.inbox, store.outbox, store.replies, key);
            DoneIsConcluded(store.inbox, store.outbox, store.replies, key, heard);
            return Done, heard;
          }
          inbox, outbox := store.inbox, store.outbox;
        }
      }
      ghost var before := store.inbox;
      var error := store.FinishInbox(key, owner, InboxFailed, None, None, now);
      FailedIsConcluded(before, store.inbox, store.outbox, store.replies, key, error, heard);
      GrowsThrough(old(store.inbox), inbox, store.inbox, old(store.outbox), outbox, store.outbox);
      return Raised, heard;
    }

    lemma DoneIsConcluded(inbox: map<InboxKey, InboxRow>, outbox: map<string, OutboxRow>, replies: map<InboxKey, seq<OutboundMessage>>,
                          key: InboxKey, heard: Heard)
      requires heard.held && heard.messages.Some? && Sendable(heard.messages.value) && key in replies && replies[key] == Flatten(heard.parts)
      requires |heard.parts| == |heard.messages.value|
      requires forall n | 0 <= n < |heard.parts| :: PreparedFrom(heard.messages.value[n], limit, heard.parts[n])
      ensures Concluded(inbox, outbox, replies, key, Done, heard)
    {
    }

    lemma FailedIsConcluded(before: map<InboxKey, InboxRow>, after: map<InboxKey, InboxRow>, outbox: map<string, OutboxRow>,
                            replies: map<InboxKey, seq<OutboundMessage>>, key: InboxKey, error: Option<Error>, heard: Heard)
      requires PerformedIn(before, key, FinishIn(owner, InboxFailed, None, None, heard.now), error, after)
      requires heard.held <==> key in before && HoldsEvent(before[key], owner, heard.now)
      requires heard.held ==>
                 heard.messages.None? || !Sendable(heard.messages.value) || EnqueuedAll(outbox, Flatten(heard.parts), heard.now).None?
      ensures Concluded(after, outbox, replies, key, Raised, heard)
    {
      hide EnqueuedAll, Sendable;
    }

    lemma IsAnswered(inbox: map<InboxKey, InboxRow>, outbox: map<string, OutboxRow>, replies: map<InboxKey,
                     seq<OutboundMessage>>, key: InboxKey)
      requires Answered(inbox, outbox, replies) && key in replies
      ensures key in inbox && inbox[key].status == InboxCompleted && InFull(outbox, replies[key])
    {
    }

    /** Claim one message, hand it to the adapter once, and record what is known
        of its delivery.  A failed send is never repeated here. */
    method SendOutboxOnce() returns (outcome: Outcome, ghost claimed: Option<string>, ghost told: Told)
      requires store.Valid()
      modifies store
      ensures store.Valid() && store.Evolved()
      // It is idle exactly if no message of the platform waits; it raises without one only
      // for a worker without a name.
      ensures claimed.None? ==> outcome == if owner == "" then Raised else Idle
      ensures outcome == Idle ==> claimed.None? && forall key <- store.outbox ::
                                    store.outbox[key].message.envelope.platform == platform ==> store.outbox[key].status != Pending
      ensures claimed.Some? ==> store.sends[claimed.value] > old(store.sends[claimed.value])
      ensures claimed.Some? ==> claimed.value in old(store.outbox) && old(store.outbox)[claimed.value].message.envelope.platform == platform
      ensures claimed.Some? ==> Noted(store.outbox, claimed.value, outcome, told)
    {
      hide UniqueDownstream, AuditedOnce, Counted, Handled, Answered, InFull, FirstPending, RecoverOutbox, InboxGrows, OutboxGrows;
      var now: int := *;
      told := Told(Accepted, now, false);
      var error, key := store.ClaimOutbox(owner, lease, Some(platform), now);
      claimed := key;
      if error.Some? { return Raised, None, told; }
      NoneIsPending(RecoverOutbox(old(store.outbox), now), key);
      if key.Some? { RecoveryKeepsMessage(old(store.outbox), now, key.value); }
      if key.None? { return Idle, None, told; }
      ghost var inbox, outbox := store.inbox, store.outbox;
      store.HandToAdapter(key.value);
      GrowsThrough(old(store.inbox), inbox, store.inbox, old(store.outbox), outbox, store.outbox);
      inbox, outbox := store.inbox, store.outbox;
      outcome, told := Record(key.value);
      GrowsThrough(old(store.inbox), inbox, store.inbox, old(store.outbox), outbox, store.outbox);
    }

    lemma RecoveryKeepsMessage(outbox: map<string, OutboxRow>, now: int, key: string)
      requires key in RecoverOutbox(outbox, now)
      ensures key in outbox && RecoverOutbox(outbox, now)[key].message == outbox[key].message
    {
    }

    lemma NoneIsPending(outbox: map<string, OutboxRow>, claimed: Option<string>)
      requires FirstPending(outbox, Some(platform), claimed)
      ensures claimed.None? ==> forall key <- outbox :: outbox[key].message.envelope.platform == platform ==> outbox[key].status != Pending
      ensures claimed.Some? ==> claimed.value in outbox && outbox[claimed.value].message.envelope.platform == platform
    {
      forall key <- outbox | outbox[key].message.envelope.platform == platform && claimed.None? ensures outbox[key].status != Pending {
        assert !PendingFor(outbox, Some(platform), key);
      }
    }

    /** With its lease, the worker records what the platform said: sent, surely not
        sent, or unknown.  Without, it leaves the message as it is. */
    predicate Noted(outbox: map<string, OutboxRow>, key: string, outcome: Outcome, told: Told) {
      && key in outbox && outcome == (if told.held && told.reply.Accepted? then Done else Raised)
      && if told.held then
           outbox[key].status == match told.reply
                                 case Accepted => Sent
                                 case Refused(deliveryUnknown) => if deliveryUnknown then Unknown else SendFailed
         else
           !HoldsSend(outbox[key], owner, told.now)
    }

    method Record(key: string) returns (outcome: Outcome, ghost told: Told)
      requires store.Valid() && key in store.outbox
      modifies store
      ensures store.Valid() && store.Evolved()
      ensures Noted(store.outbox, key, outcome, told)
    {
      hide UniqueDownstream, AuditedOnce, Counted, Handled, Answered, InFull, InboxGrows, OutboxGrows;
      store.Others();
      ghost var inbox, outbox := store.inbox, store.outbox;
      OutboxStays(old(store.outbox), outbox, key);
      var now: int, reply: Reply := *, *;
      told := Told(reply, now, HoldsSend(store.outbox[key], owner, now));
      match reply
      case Accepted =>
        var error := store.FinishOutbox(key, owner, Sent, now);
        GrowsThrough(old(store.inbox), inbox, store.inbox, old(store.outbox), outbox, store.outbox);
        return if error.None? then Done else Raised, told;
      case Refused(deliveryUnknown) =>
        var _ := store.FinishOutbox(key, owner, if deliveryUnknown then Unknown else SendFailed, now);
        GrowsThrough(old(store.inbox), inbox, store.inbox, old(store.outbox), outbox, store.outbox);
        return Raised, told;
    }

    lemma OutboxStays(before: map<string, OutboxRow>, after: map<string, OutboxRow>, key: string)
      requires OutboxGrows(before, after) && key in before
      ensures key in after
    {
    }

    method Take(turn: Turn)
      requires store.Valid()
      modifies store
      ensures store.Valid() && store.Evolved()
    {
      match turn
      case Receive(event, allowed, downstream, now) => var _, _ := store.IngestEnvelope(event, allowed, downstream, now);
      case Poll(stream, update, allowed, now) => var _, _, _ := store.IngestTelegramUpdate(stream, update, allowed, now);
      case Enqueue(message, now) => var _ := store.EnqueueOutbox(message, now);
      case Process => var _, _, _ := ProcessInboxOnce();
      case Send => var _, _, _ := SendOutboxOnce();
      case Resolve(key, sent, note) => var _ := store.ResolveOutbox(key, sent, note);
      case Retry(key, note) => var _ := store.RetryOutbox(key, note);
    }

    /** Any turns in any order, other workers going on in between: no row is lost,
        no content altered and nothing sent once is sent again; a message was handed
        to the platform at most once plus once for each retry an operator asked for;
        an answered event is completed and has its replies enqueued in full. */
    method Serve(turns: seq<Turn>)
      requires store.Valid()
      modifies store
      ensures store.Valid() && store.Evolved()
      ensures forall key <- store.outbox :: store.sends[key] <= store.outbox[key].attempts <= 1 + RetriesOf(store.retries, key)
      ensures forall event <- store.replies ::
                event in store.inbox && store.inbox[event].status == InboxCompleted && InFull(store.outbox, store.replies[event])
      ensures forall event :: event in store.handled ==>
                event in store.inbox && store.handled[event] <= store.inbox[event].attempts
    {
      hide UniqueDownstream, AuditedOnce, Counted, Handled, Answered, InFull, InboxGrows, OutboxGrows;
      NothingGrows(store.inbox, store.outbox);
      for n := 0 to |turns|
        invariant store.Valid()
        invariant InboxGrows(old(store.inbox), store.inbox) && OutboxGrows(old(store.outbox), store.outbox)
        invariant old(store.audit) <= store.audit && old(store.sends) <= store.sends && old(store.handled) <= store.handled
        invariant forall key <- old(store.replies) :: key in store.replies && store.replies[key] == old(store.replies[key])
      {
        ghost var inbox, outbox := store.inbox, store.outbox;
        Take(turns[n]);
        GrowsThrough(old(store.inbox), inbox, store.inbox, old(store.outbox), outbox, store.outbox);
      }
      forall key <- store.outbox
        ensures store.sends[key] <= store.outbox[key].attempts <= 1 + RetriesOf(store.retries, key)
      {
        DeliveryIsBounded(store, key);
      }
      forall event <- store.replies
        ensures event in store.inbox && store.inbox[event].status == InboxCompleted && InFull(store.outbox, store.replies[event])
      {
        IsAnswered(store.inbox, store.outbox, store.replies, event);
      }
      EachIsHandled(store.inbox, store.handled);
    }
  }

  lemma EachIsHandled(inbox: map<InboxKey, InboxRow>, handled: multiset<InboxKey>)
    requires Handled(inbox, handled)
    ensures forall event :: event in handled ==> event in inbox && handled[event] <= inbox[event].attempts
  {
  }

  // A message is claimed at most once plus once for each retry an operator asked for.
  lemma DeliveryIsBounded(store: Store, key: string)
    requires store.Valid() && key in store.outbox
    ensures store.sends[key] <= store.outbox[key].attempts <= 1 + RetriesOf(store.retries, key)
  {
    assert Promised(store.outbox[key]) == 1 + RetriesOf(store.retries, key);
  }

  /** However often the handler of an event runs, its downstream key names one run
      of the journal, and no other event of the store has that key. */
  lemma EventNamesOneRun(store: Store, event: InboxKey, s: JournalTypes.State, run: string, identity: JournalTypes.RunIdentity,
                         ops: seq<JournalSpec.Op>, rerun: string)
    requires store.Valid() && event in store.inbox && store.inbox[event].downstream.Some?
    requires JournalHistory.KeysResolve(s) && JournalSpec.CreateRun(s, run, identity, store.inbox[event].downstream).Commit?
    ensures forall other <- store.inbox :: other != event ==> store.inbox[other].downstream != store.inbox[event].downstream
    ensures var key := store.inbox[event].downstream;
            var t := JournalSpec.Exec(JournalSpec.Next(s, JournalSpec.CreateRunOp(run, identity, key)), ops);
            && key.value in t.externalKeys && t.externalKeys[key.value] in t.runs
            && JournalSpec.CreateRun(t, rerun, identity, key) == JournalTypes.Commit(JournalTypes.Nothing)
  {
    JournalHistory.ExternalKeyNamesOneRun(s, run, identity, store.inbox[event].downstream.value, ops, rerun, identity);
  }
}
