# redis-mq consumer core, in Dafny

A model of the core of `redis-mq`: a message queue built on Redis streams with
consumer groups. The model covers:

- **The consumer delivery loop** (`consumer.go`), module `Consumers`. A
  `Consumer` owns a failure-count table keyed by whole messages (id, key and
  value). Each iteration of its loop does four things in order:
  - reads new entries for its group;
  - runs the user callback on each one and acknowledges the successes;
  - hands every message whose count reached the retry limit to the
    dead-letter mailbox, then acknowledges it;
  - reads and handles this consumer's pending entries.

  A read error ends the current iteration only. The loop stops only when the
  consumer is stopped.
- **Option handling** (`option.go`, `redis/option.go`), modules `MqOptions`
  and `RedisOptions`. Each `With*` setter assigns one field, and options run in
  order. The repair functions then replace out-of-range values with defaults.
- **The command wrappers** (`redis/redis.go`), module `Redis`. This covers:
  - the argument checks that happen before a connection is taken;
  - the parser that turns an XREADGROUP reply into messages;
  - the XACK reply check;
  - the "ok" handling of the SET family;
  - the argument array of EVAL.
- **The reply conversions** from the Redis client library that these wrappers
  rely on (`conn.Do`, `redis.String`, `redis.Int64` and the
  `strconv.ParseInt` behind it), module `Redigo`.

Everything outside the process is an oracle, passed in as a value:

- the exchange behind each command: the pool fails, the connection fails, or
  a reply arrives;
- the result of each user callback;
- the answer of a user-supplied dead-letter mailbox. The default
  `DeadLetterLogger` always accepts.

The loop's methods return the calls they made, in order, as a `Call` trace.
The proofs use that trace to state call order: one callback per message, an
ack only after a successful callback, and a delivery and then an ack for
every due message.

Defaults of `repairConsumer` that matter for the loop:

- The receive timeout and the retry limit are replaced only when negative.
  So a consumer built without options sends `BLOCK 0`, which the server
  treats as no time limit (server semantics are left out), and has a zero
  retry limit (`MqOptions.NoOptionsSettings`). Each round of such a
  consumer therefore waits in the receive phase for a new entry before its
  dead-letter and pending phases run.
- With a zero retry limit, every message with a failure count is due at the
  next dead-letter scan (`Consumers.ZeroLimitMakesAllDue`).

## Model

| member | source | states |
|---|---|---|
| Redigo.Do | redis/redis.go:195-203 | a command error comes back only for a failed connection or an error reply, and otherwise the reply is passed on unchanged |
| Redigo.String | redis/redis.go:126 | the conversion succeeds exactly for a status or bulk reply with no prior error, and then yields that reply's text; otherwise it yields "": a prior error is passed through, nil gives `ErrNil`, an error reply gives the server error, any other type is an unexpected-type error |
| Redigo.Int64 | redis/redis.go:156 | a prior error is passed through with value 0; an integer reply converts to itself; a bulk reply is `ParseInt` of its text; nil gives (0, `ErrNil`); an error reply gives (0, server error); a status or array reply is an unexpected-type error |
| Redigo.ScanDigits | redis/redis.go:274 | the digit loop of `strconv.ParseUint` only finishes on an all-digit string, with a value that fits in a uint64 |
| Redigo.ScanDigitsValue | redis/redis.go:274 | the digit loop finishes exactly when the string is all digits and its decimal value (after the accumulator) fits in a uint64, and then it yields exactly that value |
| Redigo.DigitsNeverSyntax | redis/redis.go:274 | the digit loop never reports a syntax error on an all-digit string: it finishes or stops on overflow |
| Redigo.SyntaxAtNonDigit | redis/redis.go:274 | a non-digit reached while the digits before it still fit in a uint64 stops the digit loop with a syntax error |
| Redigo.ParseInt | redis/redis.go:274 | base-10 64-bit parsing: no error exactly when the part after an optional sign is non-empty, all digits and within the signed 64-bit range, and then the value is that decimal value with its sign; an empty part after the sign (including "", "+" and "-") is a syntax error with value 0; an all-digit part outside the signed range is a range error, whose value is the int64 bound of the sign (the largest value, or the smallest after a minus sign); a syntax error always carries 0 |
| Redigo.ParseIntSyntaxAt | redis/redis.go:274 | a non-digit after the sign, preceded by digits that fit in a uint64, makes the parse a syntax error with value 0 |
| Redigo.ParseIntExamples | redis/redis.go:274 | "-42" parses to -42, and "4x" is a syntax error |
| Redis.AsArray | redis/redis.go:204 | the array type assertion gives the elements of an array and the empty slice for anything else |
| Redis.EntryOf | redis/redis.go:217-232 | an entry converts exactly when it is a 2-item pair whose body has exactly 2 fields; the message is then (id, body[0], body[1]) |
| Redis.ParseEntries | redis/redis.go:213-235 | the entry list parses exactly when every entry is well formed, giving one message per entry in the same order; otherwise the whole result is "invalid msg format" with no partial list |
| Redis.ReadGroup | redis/redis.go:178-236 | empty group, consumer or topic fails with the argument error; pool and command errors pass through; "no message" exactly when the checks pass, the command succeeds and the top-level reply is not a non-empty array; a first stream element that is not a 2-item array gives "invalid msg format"; otherwise the result is exactly the parse of that element's entry list, and every success is such a parse |
| Redis.EmptyEntryListIsEmptyBatch | redis/redis.go:213-235 | a stream element whose entry list is empty or not an array reads as an empty batch with no error, not as "no message" |
| Redis.XReadGroup | redis/redis.go:178-236 | the parsing loop over the entries returns exactly `ReadGroup` |
| Redis.XReadGroupNewMsg | redis/redis.go:173-176 | reading new entries returns `ReadGroup` for the exchange |
| Redis.XReadGroupOldMsg | redis/redis.go:167-171 | reading pending entries returns `ReadGroup` for the exchange |
| Redis.XAddMsg | redis/redis.go:112-127 | an empty topic fails before the pool; otherwise the call succeeds exactly on a string reply and returns its text as the id |
| Redis.XGroupCreate | redis/redis.go:130-140 | succeeds exactly on a string reply and returns its text |
| Redis.XAck | redis/redis.go:143-165 | an empty topic, group or id fails before the pool; success exactly when the reply converts to the integer 1; an integer reply other than 1 is an invalid-reply error carrying that code |
| Redis.Get | redis/redis.go:238-251 | an empty key fails before the pool; a pool failure gives "" and the pool's error; with a connection the result is always `String` of what `Do` returned, so success comes exactly on a string reply, returning its text, and the nil reply of a missing key gives ("", `ErrNil`) |
| Redis.OkSpellings | redis/redis.go:270 | `strings.ToLower(s) == "ok"` holds for exactly six strings: o or O, then k, K or the Kelvin sign |
| Redis.SetReply | redis/redis.go:265-274 | a failed connection or an error reply gives -1 and that error; a status reply that lower-cases to "ok" gives 1; any other reply goes through `Int64`, so an integer reply gives itself and nil (SET NX on an existing key) gives (0, `ErrNil`); success implies a reply arrived |
| Redis.Set | redis/redis.go:253-275 | an empty key or value gives (-1, argument error); a pool failure gives -1 and an error; otherwise the reply handling of the SET family |
| Redis.SetNEX | redis/redis.go:277-300 | as `Set`, with its own argument error |
| Redis.SetNX | redis/redis.go:302-325 | as `Set`, with its own argument error |
| Redis.Del | redis/redis.go:327-342 | an empty key fails before the pool; success exactly when a non-error reply arrived |
| Redis.Incr | redis/redis.go:344-358 | an empty key or a pool failure gives -1 and an error; an integer reply is returned as is; a connection failure gives 0 and that error; with a non-empty key and a connection the result is always `Int64` of what `Do` returned, so an error reply gives (0, the server error), nil gives (0, `ErrNil`) and a bulk reply is parsed |
| Redis.EvalArgs | redis/redis.go:362-365 | the array has length 2+n, holding the script, then the key count, then keys and arguments in order |
| Redis.Eval | redis/redis.go:361-376 | a pool failure returns -1 and the error and sends nothing; otherwise exactly that argument array is sent and the command's reply and error are returned |
| MqOptions.RepairProducer | option.go:17-21 | the queue length is always positive afterwards: positive values kept, others become 500 |
| MqOptions.ProducerOptions.constructor | producer.go:17 | the struct starts at length 0 |
| MqOptions.ProducerOptions.Apply | option.go:11-15 | `WithMsgQueueLen` sets the length |
| MqOptions.ProducerOptions.ApplyAll | producer.go:20-22 | the last setter wins; with no options the length is unchanged |
| MqOptions.ProducerOptions.Repair | option.go:17-21 | the in-place repair leaves `RepairProducer` of the old length |
| MqOptions.Applied | consumer.go:61-63 | no options leave the struct as it was; otherwise the last option's field holds the value it assigns |
| MqOptions.ApplyOption | option.go:38-66 | each consumer setter assigns its own field to its value and leaves every other field as it was |
| MqOptions.UnsetFieldKept | consumer.go:61-63 | a field no option targets keeps its value through the option loop |
| MqOptions.LastSetterWins | consumer.go:61-63 | the last option that targets a field decides that field |
| MqOptions.RepairConsumer | option.go:68-88 | receive timeout < 0 becomes 2s, retry limit < 0 becomes 3, a nil mailbox becomes the logger, deliver and handle timeouts <= 0 become 1s; everything else is kept; the result satisfies the repaired invariant and is a fixpoint on repaired input |
| MqOptions.RepairConsumerIdempotent | option.go:68-88 | repairing twice equals repairing once |
| MqOptions.NoOptionsSettings | option.go:68-88 | with no options the zero receive timeout and zero retry limit are kept, the mailbox is the logger and both other timeouts are one second |
| MqOptions.ConsumerOptions.constructor | consumer.go:52 | the struct starts at its Go zero value |
| MqOptions.ConsumerOptions.Apply | option.go:38-66 | running one option closure changes the struct as `ApplyOption` |
| MqOptions.ConsumerOptions.ApplyAll | consumer.go:61-63 | the struct ends as the options applied in order |
| MqOptions.ConsumerOptions.Repair | option.go:68-88 | the in-place repair leaves `RepairConsumer` of the old struct |
| RedisOptions.ApplyOption | redis/option.go:26-51 | each client setter assigns only its own field (`WithWaitMode` sets wait to true) and never the endpoint |
| RedisOptions.Applied | redis/redis.go:38-40 | no sequence of options changes network, address or password |
| RedisOptions.UnsetFieldKept | redis/redis.go:38-40 | a field no option targets keeps its value |
| RedisOptions.LastSetterWins | redis/redis.go:38-40 | the last option that targets a field decides it |
| RedisOptions.RepairClient | redis/option.go:53-65 | negative max idle becomes 20, negative idle timeout 10, negative max active 100; non-negative values, wait and the endpoint are kept; the result is non-negative and a fixpoint on repaired input |
| RedisOptions.RepairClientIdempotent | redis/option.go:53-65 | a second repair changes nothing |
| RedisOptions.ClientOptions.constructor | redis/redis.go:31-35 | the struct holds the endpoint and zero for everything else |
| RedisOptions.ClientOptions.Apply | redis/option.go:26-51 | running one option closure changes the struct as `ApplyOption` |
| RedisOptions.ClientOptions.ApplyAll | redis/redis.go:56-58 | the struct ends as the options applied in order |
| RedisOptions.ClientOptions.Repair | redis/option.go:53-65 | the in-place repair leaves `RepairClient` of the old struct |
| Consumers.CheckParam | consumer.go:71-85 | no error exactly when callback and client are present and topic, group and consumer id are non-empty; a missing callback is reported first, then a missing client |
| Consumers.Received | consumer.go:127-143 | "no message" becomes an empty batch; every other error and every success passes through |
| Consumers.Milliseconds | consumer.go:128 | the block time is the timeout in whole milliseconds, truncated toward zero: for a non-negative timeout the largest whole count not above it, for a negative one the smallest not below it |
| Consumers.Handled | consumer.go:146-160 | the table after a batch has entries only for messages that had one before or are in the batch |
| Consumers.HandleCalls | consumer.go:146-160 | a batch makes between one and two calls per message, and every call is a callback or an ack |
| Consumers.HandledUnchangedFrom | consumer.go:146-160 | a message that does not occur at position k or later has, after the batch, the entry it had after the first k messages |
| Consumers.HandledLeavesOthers | consumer.go:146-160 | entries of messages not in the batch are unchanged |
| Consumers.LastOccurrenceDecides | consumer.go:147-159 | at a message's last occurrence: a failed callback adds exactly one to its count; success with a successful ack removes the entry; success with a failed ack leaves the entry exactly as it was |
| Consumers.HandledKeepsPositive | consumer.go:147-151 | every count in the table stays at least one |
| Consumers.FailuresAccumulate | consumer.go:147-151 | when no callback for a message succeeds, its count grows by the number of times it is in the batch |
| Consumers.CallbacksInBatchOrder | consumer.go:146-147 | the callback is run exactly once per message, in slice order |
| Consumers.HandleCallsAckAfterSuccess | consumer.go:147-157 | only callbacks and acks are made; an ack comes right after a successful callback on the same id; every successful callback is followed by its ack; a failed one never is |
| Consumers.DeadLettered | consumer.go:163-184 | entries under the limit are untouched; an entry at or over the limit is removed exactly when its ack succeeds; no entry is added or changed |
| Consumers.Accepted | deadLetter.go:22-25 | the default logger always accepts a dead letter; a custom mailbox answers through its oracle |
| Consumers.DeadLetterCalls | consumer.go:170-179 | a scan over the due messages makes exactly two calls per message, each a delivery or an ack |
| Consumers.DeadLetteredWithinStep | consumer.go:165-182 | visiting one key removes it exactly when it is due and its ack succeeds |
| Consumers.DeadLetterCallsShape | consumer.go:170-179 | each due message gets one delivery, then one ack attempt, whatever the mailbox answered; nothing else is called |
| Consumers.DeadLetteredKeepsPositive | consumer.go:163-184 | the scan keeps every count at least one |
| Consumers.ZeroLimitMakesAllDue | consumer.go:165-168 | with a retry limit of zero every message with an entry is due |
| Consumers.TwoFailuresReachLimitTwo | consumer.go:108-123 | a message failing as a new and then as a pending entry, with a scan under limit two in between, has count 1 after the first failure and is due at the next scan |
| Consumers.Consumer.constructor | consumer.go:43-55 | a consumer starts with an empty table and not stopped |
| Consumers.Consumer.Stop | consumer.go:88-90 | stopping sets the cancelled flag and nothing else, so a second call changes nothing |
| Consumers.Consumer.Receive | consumer.go:127-134 | the new-entry read with the receive timeout, with "no message" as an empty batch |
| Consumers.Consumer.ReceivePending | consumer.go:136-143 | the pending-entry read, with "no message" as an empty batch |
| Consumers.Consumer.HandlerMsg | consumer.go:145-161 | the table becomes `Handled` of the old table and the calls are `HandleCalls`; the consumer stays valid |
| Consumers.Consumer.DeliverDeadLetter | consumer.go:163-184 | the scan visits every due message exactly once in some order, makes the matching deliveries and acks, and leaves `DeadLettered` of the old table |
| Consumers.Consumer.RunOnce | consumer.go:94-123 | a stopped consumer returns without a call; otherwise the phases run in order: a read error ends the iteration with the table unchanged, and a pending-read error skips only pending handling |
| Consumers.Consumer.Iterate | consumer.go:94-99 | a pass goes beyond the cancellation check exactly when the consumer is not stopped, and a stopped consumer's table is unchanged; the consumer stays valid |
| Consumers.Consumer.Run | consumer.go:93-125 | iterations run until the consumer is stopped and no error ends the loop; the consumer ends stopped exactly when it was, or when a stop was requested during an executed round |
| Consumers.NewConsumer | consumer.go:40-69 | returns the `checkParam` error and no consumer, or a fresh valid consumer with an empty table whose options are the given ones applied in order to the zero struct and repaired |

## Left out

- Connection pooling and dialling (`getRedisPool`, `getRedisConn`, `GetConn`, `NewClient`'s pool construction): each command's use of a pooled connection is the `Exchange` value it receives. Only the option loops of `NewClient` and `NewClientWithPool` are modelled.
- The arguments sent with XADD, XREADGROUP, SET and the rest, and the maximum queue length passed to XADD: they only shape the command sent to the server. What comes back is the oracle. Only EVAL's argument array is modelled.
- Server-side consumer-group semantics: which consumer receives which entry, what is pending, and what XACK does on the server.
- `gocast.ToString`: the uninterpreted parameter `toText` of the `Client` value.
- The redigo library's own code: `Do`, `String` and `Int64` follow its documented behaviour for the reply kinds the model has. `Int64` on a bulk reply uses a model of `strconv.ParseInt` base 10, bit size 64.
- Goroutines, contexts and timeouts: `Stop` sets a flag that the loop checks at the top of each iteration. The handle and deliver timeouts only bound the oracles' calls, and a cancelled context inside an iteration is an oracle failure.
- Consumers.Consumer.Run: the unbounded `for` loop runs over a finite sequence of rounds. Its contract does not compose the rounds: it does not state the concatenated call trace or relate the final table to the rounds, beyond keeping the consumer valid (every count at least one). `RunOnce` states the trace and the table of each round.
- Consumers.Consumer.HandlerMsg, Consumers.Consumer.DeliverDeadLetter: the callback receives a pointer to the message, and the mailbox a pointer to its copy. The table key and the acknowledged id are read after those calls. So a callback or mailbox that changes the message would change which entry is counted or deleted and which id is acknowledged. The model passes messages by value and assumes callbacks and mailboxes do not change the message they are given.
- Go's map iteration order in `deliverDeadLetter`: the scan picks the next key arbitrarily, and the order in which it visited the due messages is returned.
- Logging (`log.ErrorContextFormat`) and `DeadLetterLogger.Deliver`, which only logs and succeeds.
- `SendMsg` in producer.go: a one-line call to `XAddMsg`.
- The callback's identity: the model records only whether one was given (`hasCallback`).
- Consumers.Consumer: the options are a value fixed at construction. Go holds them behind a pointer that nothing writes after `NewConsumer`.
- Error messages are kept as the constants of the command wrappers. `checkParam`'s three messages are the three `ParamError` values.
