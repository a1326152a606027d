/**
 * The command wrappers of redis/redis.go: argument validation that happens
 * before a connection is taken from the pool, the parsing of XREADGROUP
 * replies into messages, the XACK reply check, the "ok" handling of the SET
 * family and the argument array of EVAL.  Taking a connection and running the
 * command are the oracle `Exchange`.
 */
module Redis {
  import opened Common
  import opened Redigo

  /** One stream entry as the queue sees it. */
  datatype MsgEntity = MsgEntity(MsgID: string, Key: string, Val: string)

  /**
   * The client handle.  `toText` is the library conversion the client applies
   * to each field of a stream entry (gocast.ToString); it is left uninterpreted.
   */
  datatype Client = Client(toText: Reply -> string)

  const XADD_EMPTY := "redis XADD topic can't be empty"
  const XACK_EMPTY := "redis XAck topic | group_id | msg_ id can't be empty"
  const XREADGROUP_EMPTY := "redis XREADGROUP groupID/consumerID/topic can't be empty"
  const GET_EMPTY := "redis GET key can't be empty"
  const SET_EMPTY := "redis SET key or value can't be empty"
  const SETNEX_EMPTY := "redis SET keyNX or value can't be empty"
  const SETNX_EMPTY := "redis SET key NX or value can't be empty"
  const DEL_EMPTY := "redis DEL key can't be empty"
  const INCR_EMPTY := "redis INCR key can't be empty"

  // ---------------------------------------------------------------------
  // XREADGROUP reply parsing

  /** A Go type assertion to `[]interface{}`: anything but an array gives nil. */
  function AsArray(r: Reply): (elems: seq<Reply>)
    ensures r.Array? ==> elems == r.elems
    ensures !r.Array? ==> elems == []
  {
    if r.Array? then r.elems else []
  }

  /** One raw entry `[id, [key, value]]`, or None when it does not have that shape. */
  function EntryOf(entry: Reply, toText: Reply -> string): (m: Option<MsgEntity>)
    ensures m.Some? <==> |AsArray(entry)| == 2 && |AsArray(AsArray(entry)[1])| == 2
    ensures m.Some? ==> m.value == MsgEntity(toText(AsArray(entry)[0]),
                                             toText(AsArray(AsArray(entry)[1])[0]),
                                             toText(AsArray(AsArray(entry)[1])[1]))
  {
    var pair := AsArray(entry);
    if |pair| != 2 then None
    else
      var body := AsArray(pair[1]);
      if |body| != 2 then None
      else Some(MsgEntity(toText(pair[0]), toText(body[0]), toText(body[1])))
  }

  /**
   * The entries of a stream, in order: all of them are well formed and the
   * result holds one message per entry, or the whole list is refused.
   */
  function ParseEntries(entries: seq<Reply>, toText: Reply -> string): (r: Result<seq<MsgEntity>, Error>)
    ensures r.Success? <==> forall i :: 0 <= i < |entries| ==> EntryOf(entries[i], toText).Some?
    ensures r.Failure? ==> r.error == InvalidMsgFormat
    ensures r.Success? ==> |r.value| == |entries|
    ensures r.Success? ==> forall i :: 0 <= i < |entries| ==> EntryOf(entries[i], toText) == Some(r.value[i])
    decreases |entries|
  {
    if entries == [] then Success([])
    else
      var last := |entries| - 1;
      match ParseEntries(entries[..last], toText)
      case Failure(e) => Failure(e)
      case Success(msgs) =>
        match EntryOf(entries[last], toText)
        case None => Failure(InvalidMsgFormat)
        case Some(m) => Success(msgs + [m])
  }

  /** The entry list inside an XREADGROUP reply for one stream. */
  function StreamEntries(reply: Reply): seq<Reply>
    requires |AsArray(reply)| > 0 && |AsArray(AsArray(reply)[0])| == 2
  {
    AsArray(AsArray(AsArray(reply)[0])[1])
  }

  /**
   * What `xReadGroup` returns for a given exchange: argument errors first,
   * then pool and command errors, then the shape of the reply.
   */
  function ReadGroup(groupID: string, consumerID: string, topic: string, ex: Exchange, toText: Reply -> string)
    : (r: Result<seq<MsgEntity>, Error>)
    ensures groupID == "" || consumerID == "" || topic == "" ==> r == Failure(EmptyArgument(XREADGROUP_EMPTY))
    ensures r == Failure(NoMsg) <==>
              groupID != "" && consumerID != "" && topic != "" && ex.Connected? &&
              Do(ex.answer).1.None? && AsArray(Do(ex.answer).0) == []
    ensures r.Success? ==>
              ex.Connected? && ex.answer.Replied? &&
              |AsArray(ex.answer.reply)| > 0 && |AsArray(AsArray(ex.answer.reply)[0])| == 2 &&
              ParseEntries(StreamEntries(ex.answer.reply), toText) == r
    ensures groupID != "" && consumerID != "" && topic != "" ==>
              && (ex.PoolFailed? ==> r == Failure(Transport(ex.cause)))
              && (ex.Connected? && Do(ex.answer).1.Some? ==> r == Failure(Do(ex.answer).1.value))
    ensures groupID != "" && consumerID != "" && topic != "" && ex.Connected? && Do(ex.answer).1.None? &&
            |AsArray(ex.answer.reply)| > 0 ==>
              && (|AsArray(AsArray(ex.answer.reply)[0])| != 2 ==> r == Failure(InvalidMsgFormat))
              && (|AsArray(AsArray(ex.answer.reply)[0])| == 2 ==>
                    r == ParseEntries(StreamEntries(ex.answer.reply), toText))
  {
    if groupID == "" || consumerID == "" || topic == "" then Failure(EmptyArgument(XREADGROUP_EMPTY))
    else match ex
      case PoolFailed(cause) => Failure(Transport(cause))
      case Connected(answer) =>
        var (raw, err) := Do(answer);
        if err.Some? then Failure(err.value)
        else
          var reply := AsArray(raw);
          if |reply| == 0 then Failure(NoMsg)
          else
            var element := AsArray(reply[0]);
            if |element| != 2 then Failure(InvalidMsgFormat)
            else ParseEntries(AsArray(element[1]), toText)
  }

  /**
   * `xReadGroup`.  The block timeout and the pending flag only choose the
   * command sent ("0-0" for pending entries, ">" with BLOCK for new ones); the
   * parsing of what comes back is the same.
   */
  method XReadGroup(client: Client, groupID: string, consumerID: string, topic: string,
                    timeoutMilliseconds: int, pending: bool, ex: Exchange)
    returns (r: Result<seq<MsgEntity>, Error>)
    ensures r == ReadGroup(groupID, consumerID, topic, ex, client.toText)
  {
    if groupID == "" || consumerID == "" || topic == "" {
      return Failure(EmptyArgument(XREADGROUP_EMPTY));
    }
    if ex.PoolFailed? {
      return Failure(Transport(ex.cause));
    }
    var (raw, err) := Do(ex.answer);
    if err.Some? {
      return Failure(err.value);
    }
    var reply := AsArray(raw);
    if |reply| == 0 {
      return Failure(NoMsg);
    }
    var element := AsArray(reply[0]);
    if |element| != 2 {
      return Failure(InvalidMsgFormat);
    }
    var entries := AsArray(element[1]);
    var msgs: seq<MsgEntity> := [];
    for i := 0 to |entries|
      invariant ParseEntries(entries[..i], client.toText) == Success(msgs)
    {
      var entry := AsArray(entries[i]);
      if |entry| != 2 {
        assert EntryOf(entries[i], client.toText).None?;
        return Failure(InvalidMsgFormat);
      }
      var id := client.toText(entry[0]);
      var body := AsArray(entry[1]);
      if |body| != 2 {
        assert EntryOf(entries[i], client.toText).None?;
        return Failure(InvalidMsgFormat);
      }
      msgs := msgs + [MsgEntity(id, client.toText(body[0]), client.toText(body[1]))];
      assert entries[..i + 1][..i] == entries[..i];
    }
    assert entries[..|entries|] == entries;
    r := Success(msgs);
  }

  /** `XReadGroupNewMsg`: entries never delivered to the group, blocking up to the timeout. */
  method XReadGroupNewMsg(client: Client, groupID: string, consumerID: string, topic: string,
                          timeoutMilliseconds: int, ex: Exchange)
    returns (r: Result<seq<MsgEntity>, Error>)
    ensures r == ReadGroup(groupID, consumerID, topic, ex, client.toText)
  {
    r := XReadGroup(client, groupID, consumerID, topic, timeoutMilliseconds, false, ex);
  }

  /** `XReadGroupOldMsg`: entries delivered to this consumer and not yet acknowledged. */
  method XReadGroupOldMsg(client: Client, groupID: string, consumerID: string, topic: string, ex: Exchange)
    returns (r: Result<seq<MsgEntity>, Error>)
    ensures r == ReadGroup(groupID, consumerID, topic, ex, client.toText)
  {
    r := XReadGroup(client, groupID, consumerID, topic, 0, true, ex);
  }

  /**
   * A stream element whose entry list is empty or not an array reads as an
   * empty batch, not as "no message".
   */
  lemma EmptyEntryListIsEmptyBatch(groupID: string, consumerID: string, topic: string, id: Reply, entries: Reply,
                                   toText: Reply -> string)
    requires groupID != "" && consumerID != "" && topic != ""
    requires AsArray(entries) == []
    ensures ReadGroup(groupID, consumerID, topic, Connected(Replied(Array([Array([id, entries])]))), toText)
            == Success([])
  {
  }

  // ---------------------------------------------------------------------
  // XADD, XGROUP CREATE, XACK

  /** The command was answered with an integer reply. */
  predicate IntReply(ex: Exchange) {
    ex.Connected? && ex.answer.Replied? && ex.answer.reply.Int?
  }

  /** `XAddMsg`: the id the server assigned to the new entry. */
  function XAddMsg(topic: string, ex: Exchange): (r: Outcome<string>)
    ensures topic == "" ==> r == Outcome("", Some(EmptyArgument(XADD_EMPTY)))
    ensures r.err.None? <==>
              topic != "" && ex.Connected? && ex.answer.Replied? &&
              (ex.answer.reply.Bulk? || ex.answer.reply.Status?)
    ensures r.err.None? ==> r.value == ex.answer.reply.text
  {
    if topic == "" then Outcome("", Some(EmptyArgument(XADD_EMPTY)))
    else match ex
      case PoolFailed(cause) => Outcome("", Some(Transport(cause)))
      case Connected(answer) =>
        var (reply, err) := Do(answer);
        String(reply, err)
  }

  /** `XGroupCreate`: no argument check, the status reply is returned as text. */
  function XGroupCreate(ex: Exchange): (r: Outcome<string>)
    ensures r.err.None? <==> ex.Connected? && ex.answer.Replied? &&
                             (ex.answer.reply.Bulk? || ex.answer.reply.Status?)
    ensures r.err.None? ==> r.value == ex.answer.reply.text
  {
    match ex
    case PoolFailed(cause) => Outcome("", Some(Transport(cause)))
    case Connected(answer) =>
      var (reply, err) := Do(answer);
      String(reply, err)
  }

  /** `XAck`: succeeds only when all three arguments are given and exactly one entry was acknowledged. */
  function XAck(topic: string, groupID: string, msgID: string, ex: Exchange): (r: Option<Error>)
    ensures topic == "" || groupID == "" || msgID == "" ==> r == Some(EmptyArgument(XACK_EMPTY))
    ensures r.None? <==>
              topic != "" && groupID != "" && msgID != "" && ex.Connected? && ex.answer.Replied? &&
              Int64(ex.answer.reply, None) == Outcome(1, None)
    ensures topic != "" && groupID != "" && msgID != "" && IntReply(ex) ==>
              (r.None? <==> ex.answer.reply.n == 1) &&
              (ex.answer.reply.n != 1 ==> r == Some(InvalidReply(ex.answer.reply.n)))
  {
    if topic == "" || groupID == "" || msgID == "" then Some(EmptyArgument(XACK_EMPTY))
    else match ex
      case PoolFailed(cause) => Some(Transport(cause))
      case Connected(answer) =>
        var (reply, err) := Do(answer);
        var code := Int64(reply, err);
        if code.err.Some? then code.err
        else if code.value != 1 then Some(InvalidReply(code.value))
        else None
  }

  // ---------------------------------------------------------------------
  // Key/value commands

  /** The six strings that `strings.ToLower` maps to "ok"; the Kelvin sign lower-cases to 'k'. */
  const OK_SPELLINGS: set<string> := {"ok", "oK", "Ok", "OK", "o\U{212A}", "O\U{212A}"}

  /** `strings.ToLower(s) == "ok"`: the only runes that lower-case to 'o' and 'k' are these. */
  predicate LowersToOk(s: string) {
    |s| == 2 && (s[0] == 'o' || s[0] == 'O') && (s[1] == 'k' || s[1] == 'K' || s[1] == '\U{212A}')
  }

  /** A status reply counts as "ok" for exactly six spellings. */
  lemma OkSpellings(s: string)
    ensures LowersToOk(s) <==> s in OK_SPELLINGS
  {
    if |s| == 2 {
      assert s == [s[0], s[1]];
    }
  }

  /** `Get`. */
  function Get(key: string, ex: Exchange): (r: Outcome<string>)
    ensures key == "" ==> r == Outcome("", Some(EmptyArgument(GET_EMPTY)))
    ensures r.err.None? <==> key != "" && ex.Connected? && ex.answer.Replied? &&
                             (ex.answer.reply.Bulk? || ex.answer.reply.Status?)
    ensures r.err.None? ==> r.value == ex.answer.reply.text
    ensures key != "" && ex.PoolFailed? ==> r == Outcome("", Some(Transport(ex.cause)))
    ensures key != "" && ex.Connected? && ex.answer.Replied? && ex.answer.reply.Nil? ==> r == Outcome("", Some(ErrNil))
    ensures key != "" && ex.Connected? ==> r == String(Do(ex.answer).0, Do(ex.answer).1)
  {
    if key == "" then Outcome("", Some(EmptyArgument(GET_EMPTY)))
    else match ex
      case PoolFailed(cause) => Outcome("", Some(Transport(cause)))
      case Connected(answer) =>
        var (reply, err) := Do(answer);
        String(reply, err)
  }

  /**
   * The reply handling shared by Set, SetNX and SetNEX: a status reply that
   * reads "ok" in any case is 1, anything else goes through `Int64`.
   */
  function SetReply(answer: Answer): (r: Outcome<int>)
    ensures answer.Failed? ==> r.value == -1 && r.err == Some(Transport(answer.cause))
    ensures answer.Replied? && answer.reply.ErrorReply? ==> r == Outcome(-1, Some(ServerError(answer.reply.message)))
    ensures answer.Replied? && answer.reply.Status? && LowersToOk(answer.reply.text) ==> r == Outcome(1, None)
    ensures answer.Replied? && !answer.reply.ErrorReply? && !(answer.reply.Status? && LowersToOk(answer.reply.text)) ==>
              r == Int64(answer.reply, None)
    ensures answer.Replied? && answer.reply.Int? ==> r == Outcome(answer.reply.n, None)
    ensures answer.Replied? && answer.reply.Nil? ==> r == Outcome(0, Some(ErrNil))
    ensures r.err.None? ==> answer.Replied?
  {
    var (reply, err) := Do(answer);
    if err.Some? then Outcome(-1, err)
    else if reply.Status? && LowersToOk(reply.text) then Outcome(1, None)
    else Int64(reply, None)
  }

  /** `Set`. */
  function Set(key: string, value: string, ex: Exchange): (r: Outcome<int>)
    ensures key == "" || value == "" ==> r == Outcome(-1, Some(EmptyArgument(SET_EMPTY)))
    ensures ex.PoolFailed? ==> r.value == -1 && r.err.Some?
    ensures key != "" && value != "" && ex.Connected? ==> r == SetReply(ex.answer)
  {
    if key == "" || value == "" then Outcome(-1, Some(EmptyArgument(SET_EMPTY)))
    else match ex
      case PoolFailed(cause) => Outcome(-1, Some(Transport(cause)))
      case Connected(answer) => SetReply(answer)
  }

  /** `SetNEX`: SET with EX and NX; the expiry only shapes the command. */
  function SetNEX(key: string, value: string, expireSeconds: int, ex: Exchange): (r: Outcome<int>)
    ensures key == "" || value == "" ==> r == Outcome(-1, Some(EmptyArgument(SETNEX_EMPTY)))
    ensures ex.PoolFailed? ==> r.value == -1 && r.err.Some?
    ensures key != "" && value != "" && ex.Connected? ==> r == SetReply(ex.answer)
  {
    if key == "" || value == "" then Outcome(-1, Some(EmptyArgument(SETNEX_EMPTY)))
    else match ex
      case PoolFailed(cause) => Outcome(-1, Some(Transport(cause)))
      case Connected(answer) => SetReply(answer)
  }

  /** `SetNX`. */
  function SetNX(key: string, value: string, ex: Exchange): (r: Outcome<int>)
    ensures key == "" || value == "" ==> r == Outcome(-1, Some(EmptyArgument(SETNX_EMPTY)))
    ensures ex.PoolFailed? ==> r.value == -1 && r.err.Some?
    ensures key != "" && value != "" && ex.Connected? ==> r == SetReply(ex.answer)
  {
    if key == "" || value == "" then Outcome(-1, Some(EmptyArgument(SETNX_EMPTY)))
    else match ex
      case PoolFailed(cause) => Outcome(-1, Some(Transport(cause)))
      case Connected(answer) => SetReply(answer)
  }

  /** `Del`: only the error of the command matters. */
  function Del(key: string, ex: Exchange): (r: Option<Error>)
    ensures key == "" ==> r == Some(EmptyArgument(DEL_EMPTY))
    ensures r.None? <==> key != "" && ex.Connected? && ex.answer.Replied? && !ex.answer.reply.ErrorReply?
  {
    if key == "" then Some(EmptyArgument(DEL_EMPTY))
    else match ex
      case PoolFailed(cause) => Some(Transport(cause))
      case Connected(answer) => Do(answer).1
  }

  /** `Incr`: -1 for a missing key or pool failure, otherwise whatever `Int64` gives. */
  function Incr(key: string, ex: Exchange): (r: Outcome<int>)
    ensures key == "" ==> r == Outcome(-1, Some(EmptyArgument(INCR_EMPTY)))
    ensures ex.PoolFailed? ==> r.value == -1 && r.err.Some?
    ensures key != "" && IntReply(ex) ==> r == Outcome(ex.answer.reply.n, None)
    ensures key != "" && ex.Connected? && ex.answer.Failed? ==> r == Outcome(0, Some(Transport(ex.answer.cause)))
    ensures key != "" && ex.Connected? ==> r == Int64(Do(ex.answer).0, Do(ex.answer).1)
  {
    if key == "" then Outcome(-1, Some(EmptyArgument(INCR_EMPTY)))
    else match ex
      case PoolFailed(cause) => Outcome(-1, Some(Transport(cause)))
      case Connected(answer) =>
        var (reply, err) := Do(answer);
        Int64(reply, err)
  }

  // ---------------------------------------------------------------------
  // EVAL

  /** An argument of a command: a Go string, a Go int, or any other value passed through. */
  datatype Arg = StrArg(s: string) | IntArg(n: int) | ValueArg(v: Reply)

  /** The argument array of EVAL: the script, the key count, then keys and arguments in order. */
  method EvalArgs(src: string, keyCount: int, keysAndArgs: seq<Arg>) returns (args: array<Arg>)
    ensures args.Length == 2 + |keysAndArgs|
    ensures args[0] == StrArg(src) && args[1] == IntArg(keyCount)
    ensures args[2..] == keysAndArgs
  {
    args := new Arg[2 + |keysAndArgs|](_ => StrArg(""));
    args[0] := StrArg(src);
    args[1] := IntArg(keyCount);
    for i := 0 to |keysAndArgs|
      invariant args[0] == StrArg(src) && args[1] == IntArg(keyCount)
      invariant args[2..2 + i] == keysAndArgs[..i]
    {
      args[2 + i] := keysAndArgs[i];
    }
    assert args[2..] == args[2..2 + |keysAndArgs|];
    assert keysAndArgs[..|keysAndArgs|] == keysAndArgs;
  }

  /**
   * `Eval`: the argument array is built before a connection is taken; the
   * command is sent (`sent` holds its arguments) only when the pool gives one.
   */
  method Eval(src: string, keyCount: int, keysAndArgs: seq<Arg>, ex: Exchange)
    returns (r: Outcome<Reply>, sent: Option<seq<Arg>>)
    ensures ex.PoolFailed? ==> r == Outcome(Int(-1), Some(Transport(ex.cause))) && sent == None
    ensures ex.Connected? ==> sent == Some([StrArg(src), IntArg(keyCount)] + keysAndArgs)
    ensures ex.Connected? ==> r == Outcome(Do(ex.answer).0, Do(ex.answer).1)
  {
    var args := EvalArgs(src, keyCount, keysAndArgs);
    assert args[..] == [StrArg(src), IntArg(keyCount)] + args[2..];
    if ex.PoolFailed? {
      return Outcome(Int(-1), Some(Transport(ex.cause))), None;
    }
    var (reply, err) := Do(ex.answer);
    r := Outcome(reply, err);
    sent := Some(args[..]);
  }
}
