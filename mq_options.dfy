/**
 * option.go: the producer and consumer option structs, the `With*` setters
 * that each assign one field, and the repair functions that replace
 * out-of-range values by defaults.  Durations are Go `time.Duration` values,
 * i.e. nanosecond counts.
 */
module MqOptions {
  import opened Common

  const SECOND: int := 1_000_000_000
  const DEFAULT_MSG_QUEUE_LEN: int := 500
  const DEFAULT_RECEIVE_TIMEOUT: int := 2 * SECOND
  const DEFAULT_MAX_RETRY_LIMIT: int := 3
  const DEFAULT_DEAD_LETTER_DELIVER_TIMEOUT: int := SECOND
  const DEFAULT_HANDLE_MSG_TIMEOUT: int := SECOND

  /** A dead-letter sink: the logging default, or one supplied by the user. */
  datatype Mailbox = DeadLetterLogger | CustomMailbox(name: string)

  // ---------------------------------------------------------------------
  // Producer options

  datatype ProducerOption = WithMsgQueueLen(len: int)

  /** `repairProducer` on the queue length: always a positive bound afterwards. */
  function RepairProducer(msgQueueLen: int): (r: int)
    ensures r > 0
    ensures msgQueueLen > 0 ==> r == msgQueueLen
    ensures msgQueueLen <= 0 ==> r == DEFAULT_MSG_QUEUE_LEN
  {
    if msgQueueLen <= 0 then DEFAULT_MSG_QUEUE_LEN else msgQueueLen
  }

  class ProducerOptions {
    var msgQueueLen: int

    /** `&ProducerOptions{}`. */
    constructor ()
      ensures msgQueueLen == 0
    {
      msgQueueLen := 0;
    }

    /** Runs the closure `WithMsgQueueLen` returns. */
    method Apply(opt: ProducerOption)
      modifies this
      ensures msgQueueLen == opt.len
    {
      msgQueueLen := opt.len;
    }

    /** The option loop of `NewProducer`: the last setter wins. */
    method ApplyAll(opts: seq<ProducerOption>)
      modifies this
      ensures msgQueueLen == if opts == [] then old(msgQueueLen) else opts[|opts| - 1].len
    {
      for i := 0 to |opts|
        invariant msgQueueLen == if i == 0 then old(msgQueueLen) else opts[i - 1].len
      {
        Apply(opts[i]);
      }
    }

    /** `repairProducer`. */
    method Repair()
      modifies this
      ensures msgQueueLen == RepairProducer(old(msgQueueLen))
    {
      if msgQueueLen <= 0 {
        msgQueueLen := DEFAULT_MSG_QUEUE_LEN;
      }
    }
  }

  // ---------------------------------------------------------------------
  // Consumer options

  /** The value of a `ConsumerOptions` struct. */
  datatype ConsumerSettings = ConsumerSettings(
    receiveTimeout: int,
    maxRetryLimit: int,
    deadLetterMailbox: Option<Mailbox>,
    deadLetterDeliverTimeout: int,
    handleMsgTimeout: int)

  /** `ConsumerOptions{}`: every field at its Go zero value. */
  const ZERO_SETTINGS := ConsumerSettings(0, 0, None, 0, 0)

  /** The closures returned by the `With*` functions, one constructor each. */
  datatype ConsumerOption =
    | WithReceiveTimeout(timeout: int)
    | WithMaxRetryLimit(limit: int)
    | WithDeadLetterMailbox(mailbox: Option<Mailbox>)
    | WithDeadLetterDeliverTimeout(timeout: int)
    | WithHandleMsgTimeout(timeout: int)

  datatype Field = ReceiveTimeout | MaxRetryLimit | DeadLetterMailbox | DeadLetterDeliverTimeout | HandleMsgTimeout

  datatype FieldValue = IntValue(n: int) | MailboxValue(mailbox: Option<Mailbox>)

  function FieldOf(s: ConsumerSettings, f: Field): FieldValue {
    match f
    case ReceiveTimeout => IntValue(s.receiveTimeout)
    case MaxRetryLimit => IntValue(s.maxRetryLimit)
    case DeadLetterMailbox => MailboxValue(s.deadLetterMailbox)
    case DeadLetterDeliverTimeout => IntValue(s.deadLetterDeliverTimeout)
    case HandleMsgTimeout => IntValue(s.handleMsgTimeout)
  }

  /** The field an option assigns. */
  function Target(opt: ConsumerOption): Field {
    match opt
    case WithReceiveTimeout(_) => ReceiveTimeout
    case WithMaxRetryLimit(_) => MaxRetryLimit
    case WithDeadLetterMailbox(_) => DeadLetterMailbox
    case WithDeadLetterDeliverTimeout(_) => DeadLetterDeliverTimeout
    case WithHandleMsgTimeout(_) => HandleMsgTimeout
  }

  /** The value an option assigns. */
  function Assigned(opt: ConsumerOption): FieldValue {
    match opt
    case WithReceiveTimeout(t) => IntValue(t)
    case WithMaxRetryLimit(n) => IntValue(n)
    case WithDeadLetterMailbox(m) => MailboxValue(m)
    case WithDeadLetterDeliverTimeout(t) => IntValue(t)
    case WithHandleMsgTimeout(t) => IntValue(t)
  }

  /** Running one option closure: exactly one field changes. */
  function ApplyOption(s: ConsumerSettings, opt: ConsumerOption): (r: ConsumerSettings)
    ensures FieldOf(r, Target(opt)) == Assigned(opt)
    ensures forall f :: f != Target(opt) ==> FieldOf(r, f) == FieldOf(s, f)
  {
    match opt
    case WithReceiveTimeout(t) => s.(receiveTimeout := t)
    case WithMaxRetryLimit(n) => s.(maxRetryLimit := n)
    case WithDeadLetterMailbox(m) => s.(deadLetterMailbox := m)
    case WithDeadLetterDeliverTimeout(t) => s.(deadLetterDeliverTimeout := t)
    case WithHandleMsgTimeout(t) => s.(handleMsgTimeout := t)
  }

  /** The options applied in order, first to last. */
  function Applied(s: ConsumerSettings, opts: seq<ConsumerOption>): (r: ConsumerSettings)
    ensures opts == [] ==> r == s
    ensures opts != [] ==> FieldOf(r, Target(opts[|opts| - 1])) == Assigned(opts[|opts| - 1])
    decreases |opts|
  {
    if opts == [] then s
    else ApplyOption(Applied(s, opts[..|opts| - 1]), opts[|opts| - 1])
  }

  /** A field that no option targets keeps its value. */
  lemma {:induction false} UnsetFieldKept(s: ConsumerSettings, opts: seq<ConsumerOption>, f: Field)
    requires forall k :: 0 <= k < |opts| ==> Target(opts[k]) != f
    ensures FieldOf(Applied(s, opts), f) == FieldOf(s, f)
    decreases |opts|
  {
    if opts != [] {
      UnsetFieldKept(s, opts[..|opts| - 1], f);
    }
  }

  /** The last option that targets a field decides its value. */
  lemma {:induction false} LastSetterWins(s: ConsumerSettings, opts: seq<ConsumerOption>, j: nat)
    requires j < |opts|
    requires forall k :: j < k < |opts| ==> Target(opts[k]) != Target(opts[j])
    ensures FieldOf(Applied(s, opts), Target(opts[j])) == Assigned(opts[j])
    decreases |opts|
  {
    if j < |opts| - 1 {
      LastSetterWins(s, opts[..|opts| - 1], j);
    }
  }

  /** The state `repairConsumer` leaves behind. */
  predicate IsRepaired(s: ConsumerSettings) {
    && s.receiveTimeout >= 0
    && s.maxRetryLimit >= 0
    && s.deadLetterMailbox.Some?
    && s.deadLetterDeliverTimeout > 0
    && s.handleMsgTimeout > 0
  }

  /**
   * `repairConsumer`: negative receive timeout and retry limit, a missing
   * mailbox, and non-positive deliver and handle timeouts get their defaults.
   */
  function RepairConsumer(s: ConsumerSettings): (r: ConsumerSettings)
    ensures IsRepaired(r)
    ensures IsRepaired(s) ==> r == s
    ensures r.receiveTimeout == if s.receiveTimeout < 0 then DEFAULT_RECEIVE_TIMEOUT else s.receiveTimeout
    ensures r.maxRetryLimit == if s.maxRetryLimit < 0 then DEFAULT_MAX_RETRY_LIMIT else s.maxRetryLimit
    ensures r.deadLetterMailbox == if s.deadLetterMailbox.None? then Some(DeadLetterLogger) else s.deadLetterMailbox
    ensures r.deadLetterDeliverTimeout ==
              if s.deadLetterDeliverTimeout <= 0 then DEFAULT_DEAD_LETTER_DELIVER_TIMEOUT else s.deadLetterDeliverTimeout
    ensures r.handleMsgTimeout == if s.handleMsgTimeout <= 0 then DEFAULT_HANDLE_MSG_TIMEOUT else s.handleMsgTimeout
  {
    var s1 := if s.receiveTimeout < 0 then s.(receiveTimeout := DEFAULT_RECEIVE_TIMEOUT) else s;
    var s2 := if s1.maxRetryLimit < 0 then s1.(maxRetryLimit := DEFAULT_MAX_RETRY_LIMIT) else s1;
    var s3 := if s2.deadLetterMailbox.None? then s2.(deadLetterMailbox := Some(DeadLetterLogger)) else s2;
    var s4 := if s3.deadLetterDeliverTimeout <= 0 then s3.(deadLetterDeliverTimeout := DEFAULT_DEAD_LETTER_DELIVER_TIMEOUT) else s3;
    if s4.handleMsgTimeout <= 0 then s4.(handleMsgTimeout := DEFAULT_HANDLE_MSG_TIMEOUT) else s4
  }

  /** Repairing twice is the same as repairing once. */
  lemma RepairConsumerIdempotent(s: ConsumerSettings)
    ensures RepairConsumer(RepairConsumer(s)) == RepairConsumer(s)
  {
  }

  /**
   * With no options at all the zero receive timeout and the zero retry limit
   * are kept, while both other timeouts become one second and the logger
   * becomes the mailbox.
   */
  lemma NoOptionsSettings()
    ensures RepairConsumer(Applied(ZERO_SETTINGS, [])) ==
              ConsumerSettings(0, 0, Some(DeadLetterLogger), SECOND, SECOND)
  {
  }

  class ConsumerOptions {
    var receiveTimeout: int
    var maxRetryLimit: int
    var deadLetterMailbox: Option<Mailbox>
    var deadLetterDeliverTimeout: int
    var handleMsgTimeout: int

    function Value(): ConsumerSettings
      reads this
    {
      ConsumerSettings(receiveTimeout, maxRetryLimit, deadLetterMailbox, deadLetterDeliverTimeout, handleMsgTimeout)
    }

    /** `&ConsumerOptions{}`. */
    constructor ()
      ensures Value() == ZERO_SETTINGS
    {
      receiveTimeout, maxRetryLimit, deadLetterMailbox := 0, 0, None;
      deadLetterDeliverTimeout, handleMsgTimeout := 0, 0;
    }

    /** Runs one option closure on the struct. */
    method Apply(opt: ConsumerOption)
      modifies this
      ensures Value() == ApplyOption(old(Value()), opt)
    {
      match opt
      case WithReceiveTimeout(t) => receiveTimeout := t;
      case WithMaxRetryLimit(n) => maxRetryLimit := n;
      case WithDeadLetterMailbox(m) => deadLetterMailbox := m;
      case WithDeadLetterDeliverTimeout(t) => deadLetterDeliverTimeout := t;
      case WithHandleMsgTimeout(t) => handleMsgTimeout := t;
    }

    /** The option loop of `NewConsumer`. */
    method ApplyAll(opts: seq<ConsumerOption>)
      modifies this
      ensures Value() == Applied(old(Value()), opts)
    {
      for i := 0 to |opts|
        invariant Value() == Applied(old(Value()), opts[..i])
      {
        Apply(opts[i]);
        assert opts[..i + 1][..i] == opts[..i];
      }
      assert opts[..|opts|] == opts;
    }

    /** `repairConsumer`, in place. */
    method Repair()
      modifies this
      ensures Value() == RepairConsumer(old(Value()))
    {
      if receiveTimeout < 0 {
        receiveTimeout := DEFAULT_RECEIVE_TIMEOUT;
      }
      if maxRetryLimit < 0 {
        maxRetryLimit := DEFAULT_MAX_RETRY_LIMIT;
      }
      if deadLetterMailbox.None? {
        deadLetterMailbox := Some(DeadLetterLogger);
      }
      if deadLetterDeliverTimeout <= 0 {
        deadLetterDeliverTimeout := DEFAULT_DEAD_LETTER_DELIVER_TIMEOUT;
      }
      if handleMsgTimeout <= 0 {
        handleMsgTimeout := DEFAULT_HANDLE_MSG_TIMEOUT;
      }
    }
  }
}
