/**
 * consumer.go: the consumer delivery loop.  A consumer owns a failure-count
 * table keyed by whole messages.  Each iteration of its loop reads new
 * entries, runs the user callback on each of them, hands the messages that
 * reached the retry limit to the dead-letter mailbox, then reads and handles
 * this consumer's pending entries.
 *
 * Everything outside the loop is an oracle: the outcome of each callback, the
 * exchange behind each read and each acknowledgement, and the answer of a
 * user-supplied mailbox.  The loop's calls to those oracles are returned as
 * a trace of `Call`s, in the order they are made.
 */
module Consumers {
  import opened Common
  import opened Redigo
  import opened Redis
  import opened MqOptions

  /** One call the loop makes to the outside world, with its outcome. */
  datatype Call =
    | ReadNew                              // XReadGroupNewMsg
    | ReadPending                          // XReadGroupOldMsg
    | Callback(msg: MsgEntity, ok: bool)   // the user callback
    | Ack(msgID: string, ok: bool)         // XAck
    | Deliver(msg: MsgEntity, ok: bool)    // DeadLetterMailbox.Deliver

  /** Oracles for one handled batch, indexed by position in the batch. */
  datatype Batch = Batch(callbackOk: nat -> bool, ackReply: nat -> Exchange)

  /** Oracles for one dead-letter scan, per message (each key is visited once). */
  datatype Escalation = Escalation(sinkAccepts: MsgEntity -> bool, ackReply: MsgEntity -> Exchange)

  /**
   * Oracles for one iteration of the loop.  `stopRequested` says that `Stop`
   * was called while this iteration ran.
   */
  datatype Round = Round(
    newRead: Exchange,
    newBatch: Batch,
    escalation: Escalation,
    pendingRead: Exchange,
    pendingBatch: Batch,
    stopRequested: bool)

  /** How far an iteration got. */
  datatype Phase = Stopped | ReceiveFailed | PendingFailed | Completed

  datatype ParamError = MissingCallback | MissingClient | EmptyIdentity

  /** The failure-count table. */
  type Table = map<MsgEntity, int>

  /** The count Go reads for a message: zero when it has no entry. */
  function Count(t: Table, m: MsgEntity): int {
    if m in t then t[m] else 0
  }

  /** Entries are created by a failure and only ever incremented. */
  predicate CountsPositive(t: Table) {
    forall m :: m in t ==> t[m] >= 1
  }

  /** `m` has the same entry (or the same absence of one) in both tables. */
  predicate SameEntry(a: Table, b: Table, m: MsgEntity) {
    (m in a <==> m in b) && (m in a ==> a[m] == b[m])
  }

  // ---------------------------------------------------------------------
  // Construction

  /** `checkParam`: the first missing piece, in the order the source tests them. */
  function CheckParam(hasCallback: bool, client: Option<Client>, topic: string, groupID: string, consumerID: string)
    : (r: Option<ParamError>)
    ensures r.None? <==> hasCallback && client.Some? && topic != "" && groupID != "" && consumerID != ""
    ensures r == Some(MissingCallback) <==> !hasCallback
    ensures r == Some(MissingClient) <==> hasCallback && client.None?
  {
    if !hasCallback then Some(MissingCallback)
    else if client.None? then Some(MissingClient)
    else if topic == "" || consumerID == "" || groupID == "" then Some(EmptyIdentity)
    else None
  }

  // ---------------------------------------------------------------------
  // Reading

  /** `receive` and `receivePending`: no message is an empty batch, other errors pass through. */
  function Received(res: Result<seq<MsgEntity>, Error>): (r: Result<seq<MsgEntity>, Error>)
    ensures res == Failure(NoMsg) ==> r == Success([])
    ensures res.Success? ==> r == res
    ensures res.Failure? && res.error != NoMsg ==> r == res
  {
    if res.Failure? && res.error == NoMsg then Success([]) else res
  }

  /** `time.Duration.Milliseconds`: Go's integer division truncates toward zero. */
  function Milliseconds(d: int): (ms: int)
    ensures d >= 0 ==> 0 <= ms && ms * 1_000_000 <= d < (ms + 1) * 1_000_000
    ensures d < 0 ==> ms <= 0 && d <= ms * 1_000_000 && (ms - 1) * 1_000_000 < d
  {
    if d >= 0 then d / 1_000_000 else -((-d) / 1_000_000)
  }

  // ---------------------------------------------------------------------
  // Handling a batch

  /** Whether acknowledging `msgID` with this exchange succeeds. */
  predicate AckOk(topic: string, groupID: string, msgID: string, ex: Exchange) {
    XAck(topic, groupID, msgID, ex).None?
  }

  /** The table after one message: a failure counts, an acknowledged success clears. */
  function HandleOne(t: Table, m: MsgEntity, callbackOk: bool, acked: bool): Table {
    if !callbackOk then t[m := Count(t, m) + 1]
    else if acked then t - {m}
    else t
  }

  /** The table after `handlerMsg` ran over a batch. */
  function Handled(topic: string, groupID: string, t: Table, msgs: seq<MsgEntity>, b: Batch): (r: Table)
    ensures forall m :: m in r ==> m in t || m in msgs
    decreases |msgs|
  {
    if msgs == [] then t
    else
      var i := |msgs| - 1;
      HandleOne(Handled(topic, groupID, t, msgs[..i], b), msgs[i], b.callbackOk(i),
                AckOk(topic, groupID, msgs[i].MsgID, b.ackReply(i)))
  }

  /** The calls `handlerMsg` makes for the message at position `i`. */
  function MessageCalls(topic: string, groupID: string, m: MsgEntity, i: nat, b: Batch): seq<Call> {
    if b.callbackOk(i) then [Callback(m, true), Ack(m.MsgID, AckOk(topic, groupID, m.MsgID, b.ackReply(i)))]
    else [Callback(m, false)]
  }

  /** The calls `handlerMsg` makes for a batch. */
  function HandleCalls(topic: string, groupID: string, msgs: seq<MsgEntity>, b: Batch): (r: seq<Call>)
    ensures |msgs| <= |r| <= 2 * |msgs|
    ensures forall j :: 0 <= j < |r| ==> r[j].Callback? || r[j].Ack?
    decreases |msgs|
  {
    if msgs == [] then []
    else
      var i := |msgs| - 1;
      HandleCalls(topic, groupID, msgs[..i], b) + MessageCalls(topic, groupID, msgs[i], i, b)
  }

  /** A message whose positions lie before `k` is, after the batch, as it was after the first `k` messages. */
  lemma {:induction false} HandledUnchangedFrom(topic: string, groupID: string, t: Table, msgs: seq<MsgEntity>,
                                                b: Batch, k: nat, m: MsgEntity)
    requires k <= |msgs|
    requires forall i :: k <= i < |msgs| ==> msgs[i] != m
    ensures SameEntry(Handled(topic, groupID, t, msgs, b), Handled(topic, groupID, t, msgs[..k], b), m)
    decreases |msgs|
  {
    if |msgs| == k {
      assert msgs[..k] == msgs;
    } else {
      var n := |msgs| - 1;
      assert msgs[..n][..k] == msgs[..k];
      HandledUnchangedFrom(topic, groupID, t, msgs[..n], b, k, m);
    }
  }

  /** Entries of messages that are not in the batch are left alone. */
  lemma HandledLeavesOthers(topic: string, groupID: string, t: Table, msgs: seq<MsgEntity>, b: Batch, m: MsgEntity)
    requires m !in msgs
    ensures SameEntry(Handled(topic, groupID, t, msgs, b), t, m)
  {
    HandledUnchangedFrom(topic, groupID, t, msgs, b, 0, m);
  }

  /**
   * What the last occurrence of a message in a batch does to its entry: a
   * failed callback adds exactly one, a success whose ack succeeds removes
   * it, a success whose ack fails leaves it as it was.
   */
  lemma LastOccurrenceDecides(topic: string, groupID: string, t: Table, msgs: seq<MsgEntity>, b: Batch, k: nat)
    requires k < |msgs|
    requires forall i :: k < i < |msgs| ==> msgs[i] != msgs[k]
    ensures var m, before, after := msgs[k], Handled(topic, groupID, t, msgs[..k], b), Handled(topic, groupID, t, msgs, b);
            && (!b.callbackOk(k) ==> m in after && after[m] == Count(before, m) + 1)
            && (b.callbackOk(k) && AckOk(topic, groupID, m.MsgID, b.ackReply(k)) ==> m !in after)
            && (b.callbackOk(k) && !AckOk(topic, groupID, m.MsgID, b.ackReply(k)) ==> SameEntry(after, before, m))
  {
    HandledUnchangedFrom(topic, groupID, t, msgs, b, k + 1, msgs[k]);
    assert msgs[..k + 1][..k] == msgs[..k];
  }

  /** Every count stays at least one. */
  lemma {:induction false} HandledKeepsPositive(topic: string, groupID: string, t: Table, msgs: seq<MsgEntity>, b: Batch)
    requires CountsPositive(t)
    ensures CountsPositive(Handled(topic, groupID, t, msgs, b))
    decreases |msgs|
  {
    if msgs != [] {
      HandledKeepsPositive(topic, groupID, t, msgs[..|msgs| - 1], b);
    }
  }

  /** When no callback for `m` succeeds, its count grows by the number of times it was in the batch. */
  lemma {:induction false} FailuresAccumulate(topic: string, groupID: string, t: Table, msgs: seq<MsgEntity>,
                                              b: Batch, m: MsgEntity)
    requires forall i :: 0 <= i < |msgs| && msgs[i] == m ==> !b.callbackOk(i)
    ensures Count(Handled(topic, groupID, t, msgs, b), m) == Count(t, m) + multiset(msgs)[m]
    decreases |msgs|
  {
    if msgs != [] {
      var n := |msgs| - 1;
      FailuresAccumulate(topic, groupID, t, msgs[..n], b, m);
      assert msgs == msgs[..n] + [msgs[n]];
    }
  }

  /** The message a call ran the callback on, if it is a callback. */
  function CallbackMsg(call: Call): seq<MsgEntity> {
    if call.Callback? then [call.msg] else []
  }

  /** The messages the callback was run on, in call order. */
  function CallbackMsgs(calls: seq<Call>): seq<MsgEntity>
  {
    if calls == [] then [] else CallbackMsg(calls[0]) + CallbackMsgs(calls[1..])
  }

  lemma {:induction false} CallbackMsgsAppend(a: seq<Call>, c: seq<Call>)
    ensures CallbackMsgs(a + c) == CallbackMsgs(a) + CallbackMsgs(c)
  {
    if a == [] {
      assert a + c == c;
    } else {
      var ac := a + c;
      assert ac[0] == a[0];
      assert ac[1..] == a[1..] + c;
      CallbackMsgsAppend(a[1..], c);
      calc {
        CallbackMsgs(ac);
        CallbackMsg(a[0]) + CallbackMsgs(a[1..] + c);
        CallbackMsg(a[0]) + (CallbackMsgs(a[1..]) + CallbackMsgs(c));
        (CallbackMsg(a[0]) + CallbackMsgs(a[1..])) + CallbackMsgs(c);
        CallbackMsgs(a) + CallbackMsgs(c);
      }
    }
  }

  /** The calls for one message hold exactly one callback, on that message. */
  lemma MessageCallsCallback(topic: string, groupID: string, m: MsgEntity, i: nat, b: Batch)
    ensures CallbackMsgs(MessageCalls(topic, groupID, m, i, b)) == [m]
  {
    var seg := MessageCalls(topic, groupID, m, i, b);
    if b.callbackOk(i) {
      assert seg[1..][1..] == [];
      assert CallbackMsgs(seg[1..]) == [];
    } else {
      assert seg[1..] == [];
    }
  }

  /** The callback runs exactly once per message, in batch order. */
  lemma {:induction false} CallbacksInBatchOrder(topic: string, groupID: string, msgs: seq<MsgEntity>, b: Batch)
    ensures CallbackMsgs(HandleCalls(topic, groupID, msgs, b)) == msgs
    decreases |msgs|
  {
    if msgs != [] {
      var n := |msgs| - 1;
      var prefix := HandleCalls(topic, groupID, msgs[..n], b);
      var seg := MessageCalls(topic, groupID, msgs[n], n, b);
      CallbacksInBatchOrder(topic, groupID, msgs[..n], b);
      CallbackMsgsAppend(prefix, seg);
      MessageCallsCallback(topic, groupID, msgs[n], n, b);
      calc {
        CallbackMsgs(HandleCalls(topic, groupID, msgs, b));
        CallbackMsgs(prefix + seg);
        CallbackMsgs(prefix) + CallbackMsgs(seg);
        msgs[..n] + [msgs[n]];
        msgs;
      }
    }
  }

  /**
   * The at-least-once discipline of a handled batch: every call is a callback
   * or an ack; an ack comes right after a successful callback on the same
   * message id; and every successful callback is followed by its ack.
   */
  predicate AcksFollowSuccesses(calls: seq<Call>) {
    && (forall j :: 0 <= j < |calls| ==> calls[j].Callback? || calls[j].Ack?)
    && (forall j :: 0 <= j < |calls| && calls[j].Ack? ==>
          j > 0 && calls[j - 1].Callback? && calls[j - 1].ok && calls[j - 1].msg.MsgID == calls[j].msgID)
    && (forall j :: 0 <= j < |calls| && calls[j].Callback? && calls[j].ok ==> j + 1 < |calls| && calls[j + 1].Ack?)
  }

  lemma {:induction false} HandleCallsAckAfterSuccess(topic: string, groupID: string, msgs: seq<MsgEntity>, b: Batch)
    ensures AcksFollowSuccesses(HandleCalls(topic, groupID, msgs, b))
    decreases |msgs|
  {
    if msgs != [] {
      var n := |msgs| - 1;
      var prefix := HandleCalls(topic, groupID, msgs[..n], b);
      var seg := MessageCalls(topic, groupID, msgs[n], n, b);
      HandleCallsAckAfterSuccess(topic, groupID, msgs[..n], b);
      var all := prefix + seg;
      assert all == HandleCalls(topic, groupID, msgs, b);
      forall j | 0 <= j < |all| && all[j].Ack?
        ensures j > 0 && all[j - 1].Callback? && all[j - 1].ok && all[j - 1].msg.MsgID == all[j].msgID
      {
        if j < |prefix| {
          assert prefix[j].Ack?;
        }
      }
      forall j | 0 <= j < |all| && all[j].Callback? && all[j].ok
        ensures j + 1 < |all| && all[j + 1].Ack?
      {
        if j < |prefix| {
          assert prefix[j].Callback? && prefix[j].ok;
        }
      }
    }
  }

  // ---------------------------------------------------------------------
  // Dead-letter escalation

  /** The messages that have reached the retry limit. */
  function Due(t: Table, limit: int): set<MsgEntity> {
    set m | m in t && t[m] >= limit
  }

  /** A sequence that lists every element of `s` exactly once. */
  ghost predicate IsEnumeration(order: seq<MsgEntity>, s: set<MsgEntity>) {
    && (forall i, j :: 0 <= i < j < |order| ==> order[i] != order[j])
    && (forall m :: m in s <==> m in order)
  }

  /**
   * The table after `deliverDeadLetter`: entries under the limit stay as they
   * were; an entry at or over the limit is removed exactly when its ack succeeds.
   */
  function DeadLettered(topic: string, groupID: string, t: Table, limit: int, e: Escalation): (r: Table)
    ensures forall m :: m in t && t[m] < limit ==> m in r && r[m] == t[m]
    ensures forall m :: m in t && t[m] >= limit ==> (m in r <==> !AckOk(topic, groupID, m.MsgID, e.ackReply(m)))
    ensures forall m :: m in r ==> m in t && r[m] == t[m]
  {
    DeadLetteredWithin(topic, groupID, t, limit, e, t.Keys)
  }

  /** The table once the scan has visited the keys in `visited`. */
  function DeadLetteredWithin(topic: string, groupID: string, t: Table, limit: int, e: Escalation,
                              visited: set<MsgEntity>): Table
  {
    map m | m in t && !(m in visited && t[m] >= limit && AckOk(topic, groupID, m.MsgID, e.ackReply(m))) :: t[m]
  }

  /** Visiting one more key removes it exactly when it is due and its ack succeeds. */
  lemma DeadLetteredWithinStep(topic: string, groupID: string, t: Table, limit: int, e: Escalation,
                               visited: set<MsgEntity>, m: MsgEntity)
    requires m in t && m !in visited
    ensures var before := DeadLetteredWithin(topic, groupID, t, limit, e, visited);
            var after := DeadLetteredWithin(topic, groupID, t, limit, e, visited + {m});
            && m in before && before[m] == t[m]
            && after == if t[m] >= limit && AckOk(topic, groupID, m.MsgID, e.ackReply(m)) then before - {m} else before
  {
  }

  /** The answer of the mailbox: the default logger always accepts. */
  function Accepted(mailbox: Mailbox, e: Escalation, m: MsgEntity): (ok: bool)
    ensures mailbox == DeadLetterLogger ==> ok
    ensures mailbox.CustomMailbox? ==> ok == e.sinkAccepts(m)
  {
    match mailbox
    case DeadLetterLogger => true
    case CustomMailbox(_) => e.sinkAccepts(m)
  }

  /** The calls of a dead-letter scan that visits the due messages in `order`: a delivery, then an ack. */
  function DeadLetterCalls(topic: string, groupID: string, mailbox: Mailbox, order: seq<MsgEntity>, e: Escalation)
    : (r: seq<Call>)
    ensures |r| == 2 * |order|
    ensures forall j :: 0 <= j < |r| ==> r[j].Deliver? || r[j].Ack?
    decreases |order|
  {
    if order == [] then []
    else
      var n := |order| - 1;
      var m := order[n];
      DeadLetterCalls(topic, groupID, mailbox, order[..n], e)
        + [Deliver(m, Accepted(mailbox, e, m)), Ack(m.MsgID, AckOk(topic, groupID, m.MsgID, e.ackReply(m)))]
  }

  /** Each due message gets one delivery, immediately followed by one ack attempt, whatever the mailbox said. */
  lemma {:induction false} DeadLetterCallsShape(topic: string, groupID: string, mailbox: Mailbox,
                                                order: seq<MsgEntity>, e: Escalation, k: nat)
    requires k < |order|
    ensures var calls := DeadLetterCalls(topic, groupID, mailbox, order, e);
            && |calls| == 2 * |order|
            && calls[2 * k] == Deliver(order[k], Accepted(mailbox, e, order[k]))
            && calls[2 * k + 1] == Ack(order[k].MsgID, AckOk(topic, groupID, order[k].MsgID, e.ackReply(order[k])))
    decreases |order|
  {
    var n := |order| - 1;
    if k < n {
      DeadLetterCallsShape(topic, groupID, mailbox, order[..n], e, k);
    } else if n > 0 {
      DeadLetterCallsShape(topic, groupID, mailbox, order[..n], e, n - 1);
    }
  }

  /** Dead lettering keeps every count at least one. */
  lemma DeadLetteredKeepsPositive(topic: string, groupID: string, t: Table, limit: int, e: Escalation)
    requires CountsPositive(t)
    ensures CountsPositive(DeadLettered(topic, groupID, t, limit, e))
  {
  }

  /** With a retry limit of zero every message with an entry is due at the next scan. */
  lemma ZeroLimitMakesAllDue(t: Table)
    requires CountsPositive(t)
    ensures Due(t, 0) == t.Keys
  {
  }

  /**
   * A message whose callback fails twice, with a dead-letter scan under a
   * retry limit of two in between (as one iteration handles it as new and
   * then as pending), is due at the next scan.
   */
  lemma TwoFailuresReachLimitTwo(topic: string, groupID: string, t: Table, m: MsgEntity,
                                 first: Batch, e: Escalation, second: Batch)
    requires m !in t
    requires !first.callbackOk(0) && !second.callbackOk(0)
    ensures var t1 := Handled(topic, groupID, t, [m], first);
            var t2 := Handled(topic, groupID, DeadLettered(topic, groupID, t1, 2, e), [m], second);
            Count(t1, m) == 1 && m in Due(t2, 2)
  {
    var t1 := Handled(topic, groupID, t, [m], first);
    LastOccurrenceDecides(topic, groupID, t, [m], first, 0);
    assert [m][..0] == [];
    var d := DeadLettered(topic, groupID, t1, 2, e);
    assert Count(d, m) == 1;
  }

  // ---------------------------------------------------------------------
  // The consumer

  class Consumer {
    const client: Client
    const topic: string
    const groupID: string
    const consumerID: string
    /** The repaired options; Go keeps them behind a pointer nobody writes after construction. */
    const opts: ConsumerSettings
    var failureCounts: Table
    /** The consumer's context has been cancelled. */
    var stopped: bool

    ghost predicate Valid()
      reads this
    {
      && topic != "" && groupID != "" && consumerID != ""
      && IsRepaired(opts)
      && CountsPositive(failureCounts)
    }

    /** The mailbox `repairConsumer` guarantees. */
    function Mailbox(): Mailbox
      requires IsRepaired(opts)
    {
      opts.deadLetterMailbox.value
    }

    constructor (client: Client, topic: string, groupID: string, consumerID: string, opts: ConsumerSettings)
      requires topic != "" && groupID != "" && consumerID != ""
      requires IsRepaired(opts)
      ensures Valid()
      ensures this.client == client && this.topic == topic && this.groupID == groupID
      ensures this.consumerID == consumerID && this.opts == opts
      ensures failureCounts == map[] && !stopped
    {
      this.client, this.topic, this.groupID, this.consumerID := client, topic, groupID, consumerID;
      this.opts := opts;
      failureCounts := map[];
      stopped := false;
    }

    /** `Stop`: cancels the context and nothing else, so a second call changes nothing. */
    method Stop()
      modifies this`stopped
      ensures stopped
      ensures failureCounts == old(failureCounts)
    {
      stopped := true;
    }

    /** `receive`. */
    method Receive(ex: Exchange) returns (r: Result<seq<MsgEntity>, Error>)
      ensures r == Received(ReadGroup(groupID, consumerID, topic, ex, client.toText))
    {
      r := XReadGroupNewMsg(client, groupID, consumerID, topic, Milliseconds(opts.receiveTimeout), ex);
      if r.Failure? && r.error == NoMsg {
        r := Success([]);
      }
    }

    /** `receivePending`. */
    method ReceivePending(ex: Exchange) returns (r: Result<seq<MsgEntity>, Error>)
      ensures r == Received(ReadGroup(groupID, consumerID, topic, ex, client.toText))
    {
      r := XReadGroupOldMsg(client, groupID, consumerID, topic, ex);
      if r.Failure? && r.error == NoMsg {
        r := Success([]);
      }
    }

    /** `handlerMsg`. */
    method HandlerMsg(messages: seq<MsgEntity>, b: Batch) returns (calls: seq<Call>)
      requires Valid()
      modifies this`failureCounts
      ensures Valid()
      ensures failureCounts == Handled(topic, groupID, old(failureCounts), messages, b)
      ensures calls == HandleCalls(topic, groupID, messages, b)
    {
      calls := [];
      for i := 0 to |messages|
        invariant CountsPositive(failureCounts)
        invariant failureCounts == Handled(topic, groupID, old(failureCounts), messages[..i], b)
        invariant calls == HandleCalls(topic, groupID, messages[..i], b)
      {
        assert messages[..i + 1][..i] == messages[..i];
        var msg := messages[i];
        if !b.callbackOk(i) {
          calls := calls + [Callback(msg, false)];
          failureCounts := failureCounts[msg := Count(failureCounts, msg) + 1];
          continue;
        }
        calls := calls + [Callback(msg, true)];
        var err := XAck(topic, groupID, msg.MsgID, b.ackReply(i));
        calls := calls + [Ack(msg.MsgID, err.None?)];
        if err.Some? {
          continue;
        }
        failureCounts := failureCounts - {msg};
      }
      assert messages[..|messages|] == messages;
    }

    /**
     * `deliverDeadLetter`.  Go ranges over the map in no fixed order; the
     * model visits the keys in an arbitrary order and returns the order in
     * which it visited the due ones.
     */
    method DeliverDeadLetter(e: Escalation) returns (order: seq<MsgEntity>, calls: seq<Call>)
      requires Valid()
      modifies this`failureCounts
      ensures Valid()
      ensures IsEnumeration(order, Due(old(failureCounts), opts.maxRetryLimit))
      ensures calls == DeadLetterCalls(topic, groupID, Mailbox(), order, e)
      ensures failureCounts == DeadLettered(topic, groupID, old(failureCounts), opts.maxRetryLimit, e)
    {
      ghost var t0 := failureCounts;
      ghost var visited: set<MsgEntity> := {};
      var limit := opts.maxRetryLimit;
      var remaining := failureCounts.Keys;
      order, calls := [], [];
      while remaining != {}
        invariant remaining == t0.Keys - visited && visited <= t0.Keys
        invariant failureCounts == DeadLetteredWithin(topic, groupID, t0, limit, e, visited)
        invariant forall i, j :: 0 <= i < j < |order| ==> order[i] != order[j]
        invariant forall m :: m in order <==> m in visited && t0[m] >= limit
        invariant calls == DeadLetterCalls(topic, groupID, Mailbox(), order, e)
        decreases remaining
      {
        var msg :| msg in remaining;
        DeadLetteredWithinStep(topic, groupID, t0, limit, e, visited, msg);
        remaining := remaining - {msg};
        visited := visited + {msg};
        if failureCounts[msg] < limit {
          continue;
        }
        var accepted := Accepted(Mailbox(), e, msg);
        calls := calls + [Deliver(msg, accepted)];
        var err := XAck(topic, groupID, msg.MsgID, e.ackReply(msg));
        calls := calls + [Ack(msg.MsgID, err.None?)];
        assert (order + [msg])[..|order|] == order;
        order := order + [msg];
        if err.Some? {
          continue;
        }
        failureCounts := failureCounts - {msg};
      }
      assert visited == t0.Keys;
    }

    /**
     * What one iteration of `run` does when the context is not cancelled:
     * a read error ends the iteration at once; otherwise the new batch is
     * handled and the dead-letter scan runs; a pending-read error then ends
     * the iteration, and otherwise the pending batch is handled too.
     */
    ghost predicate Iteration(t0: Table, r: Round, order: seq<MsgEntity>, phase: Phase, t: Table, calls: seq<Call>)
      requires IsRepaired(opts)
    {
      var incoming := Received(ReadGroup(groupID, consumerID, topic, r.newRead, client.toText));
      if incoming.Failure? then
        phase == ReceiveFailed && t == t0 && calls == [ReadNew]
      else
        var t1 := Handled(topic, groupID, t0, incoming.value, r.newBatch);
        var t2 := DeadLettered(topic, groupID, t1, opts.maxRetryLimit, r.escalation);
        var head := [ReadNew] + HandleCalls(topic, groupID, incoming.value, r.newBatch)
                    + DeadLetterCalls(topic, groupID, Mailbox(), order, r.escalation) + [ReadPending];
        var pending := Received(ReadGroup(groupID, consumerID, topic, r.pendingRead, client.toText));
        && IsEnumeration(order, Due(t1, opts.maxRetryLimit))
        && if pending.Failure? then
             phase == PendingFailed && t == t2 && calls == head
           else
             && phase == Completed
             && t == Handled(topic, groupID, t2, pending.value, r.pendingBatch)
             && calls == head + HandleCalls(topic, groupID, pending.value, r.pendingBatch)
    }

    /** One pass of the `for` loop in `run`, starting with its cancellation check. */
    method RunOnce(r: Round) returns (phase: Phase, deadOrder: seq<MsgEntity>, calls: seq<Call>)
      requires Valid()
      modifies this`failureCounts
      ensures Valid()
      ensures stopped <==> phase == Stopped
      ensures stopped ==> failureCounts == old(failureCounts) && calls == []
      ensures !stopped ==> Iteration(old(failureCounts), r, deadOrder, phase, failureCounts, calls)
    {
      deadOrder, calls := [], [];
      if stopped {
        return Stopped, deadOrder, calls;
      }
      calls := [ReadNew];
      var msgs := Receive(r.newRead);
      if msgs.Failure? {
        return ReceiveFailed, deadOrder, calls;
      }
      var handled := HandlerMsg(msgs.value, r.newBatch);
      calls := calls + handled;
      var dead;
      deadOrder, dead := DeliverDeadLetter(r.escalation);
      calls := calls + dead + [ReadPending];
      var pendingMsgs := ReceivePending(r.pendingRead);
      if pendingMsgs.Failure? {
        return PendingFailed, deadOrder, calls;
      }
      handled := HandlerMsg(pendingMsgs.value, r.pendingBatch);
      calls := calls + handled;
      phase := Completed;
    }

    /**
     * One pass of `run` as the loop sees it: whether it got past the
     * cancellation check, with the consumer still valid.
     */
    method Iterate(r: Round) returns (ran: bool)
      requires Valid()
      modifies this`failureCounts
      ensures Valid()
      ensures ran <==> !stopped
      ensures stopped ==> failureCounts == old(failureCounts)
    {
      var phase, _, _ := RunOnce(r);
      ran := phase != Stopped;
    }

    /**
     * `run`: iterations follow one another until the context is cancelled;
     * no error ends the loop.  Returns the number of iterations that ran.
     */
    method Run(rounds: seq<Round>) returns (executed: nat)
      requires Valid()
      modifies this
      ensures Valid()
      ensures executed <= |rounds|
      ensures old(stopped) ==> executed == 0 && failureCounts == old(failureCounts)
      ensures forall j :: 0 <= j < executed - 1 ==> !rounds[j].stopRequested
      ensures stopped <==> old(stopped) || exists j :: 0 <= j < executed && rounds[j].stopRequested
      ensures executed < |rounds| ==> stopped
    {
      executed := 0;
      while executed < |rounds|
        invariant Valid()
        invariant executed <= |rounds|
        invariant old(stopped) ==> executed == 0 && failureCounts == old(failureCounts)
        invariant forall j :: 0 <= j < executed - 1 ==> !rounds[j].stopRequested
        invariant stopped <==> old(stopped) || (executed > 0 && rounds[executed - 1].stopRequested)
      {
        var ran := Iterate(rounds[executed]);
        if !ran {
          break;
        }
        if rounds[executed].stopRequested {
          Stop();
        }
        executed := executed + 1;
      }
    }
  }

  /**
   * `NewConsumer`: fails with the `checkParam` error and no consumer, or
   * returns a consumer with an empty table whose options are the given ones
   * applied in order to a zero struct and then repaired.
   */
  method NewConsumer(client: Option<Client>, topic: string, groupID: string, consumerID: string,
                     hasCallback: bool, opts: seq<ConsumerOption>)
    returns (c: Consumer?, err: Option<ParamError>)
    ensures err == CheckParam(hasCallback, client, topic, groupID, consumerID)
    ensures err.Some? <==> c == null
    ensures c != null ==> fresh(c) && c.Valid() && c.failureCounts == map[] && !c.stopped
    ensures c != null ==> c.client == client.value && c.topic == topic && c.groupID == groupID &&
                          c.consumerID == consumerID
    ensures c != null ==> c.opts == RepairConsumer(Applied(ZERO_SETTINGS, opts))
  {
    var options := new ConsumerOptions();
    err := CheckParam(hasCallback, client, topic, groupID, consumerID);
    if err.Some? {
      return null, err;
    }
    options.ApplyAll(opts);
    options.Repair();
    c := new Consumer(client.value, topic, groupID, consumerID, options.Value());
  }
}
