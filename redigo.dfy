/**
 * Reply values and errors of the Redis client library the queue is built on,
 * and the two reply conversions (`String`, `Int64`) that redis/redis.go applies
 * to what `conn.Do` returns.  Integer parsing follows Go's `strconv.ParseInt`
 * with base 10 and bit size 64, which `Int64` uses for bulk-string replies.
 */
module Redigo {
  import opened Common

  /** A RESP reply as the library hands it to Go code. */
  datatype Reply =
    | Nil                          // nil (e.g. a blocking read that timed out)
    | Int(n: int)                  // int64
    | Status(text: string)         // simple string, Go type string
    | Bulk(text: string)           // bulk string, Go type []byte
    | ErrorReply(message: string)  // server error, Go type redis.Error
    | Array(elems: seq<Reply>)     // []interface{}

  /** Every error value the modelled code can return. */
  datatype Error =
    | EmptyArgument(message: string)   // argument validation in redis.go
    | NoMsg                            // ErrNoMsg
    | InvalidMsgFormat                 // "invalid msg format"
    | InvalidReply(code: int)          // XACK replied something other than 1
    | Transport(cause: string)         // pool or network failure
    | ServerError(message: string)     // the server answered with an error reply
    | ErrNil                           // the library's ErrNil
    | UnexpectedType                   // conversion applied to a reply of the wrong type
    | NumberSyntax                     // strconv.ErrSyntax
    | NumberRange                      // strconv.ErrRange

  /** What the library answers to one command sent on a connection. */
  datatype Answer = Failed(cause: string) | Replied(reply: Reply)

  /**
   * What a command wrapper observes: either taking a connection from the pool
   * fails, or it gets a connection and the command is answered.
   */
  datatype Exchange = PoolFailed(cause: string) | Connected(answer: Answer)

  /** A Go pair `(value, error)`. */
  datatype Outcome<+T> = Outcome(value: T, err: Option<Error>)

  /**
   * `conn.Do`: a top-level error reply is returned both as the reply and as
   * the error; a failed exchange yields a nil reply and the error.
   */
  function Do(a: Answer): (r: (Reply, Option<Error>))
    ensures r.1.None? <==> a.Replied? && !a.reply.ErrorReply?
    ensures r.1.None? ==> r.0 == a.reply
  {
    match a
    case Failed(cause) => (Nil, Some(Transport(cause)))
    case Replied(ErrorReply(m)) => (ErrorReply(m), Some(ServerError(m)))
    case Replied(reply) => (reply, None)
  }

  /** `redis.String(reply, err)`. */
  function String(reply: Reply, err: Option<Error>): (r: Outcome<string>)
    ensures r.err.None? <==> err.None? && (reply.Status? || reply.Bulk?)
    ensures r.err.None? ==> r.value == reply.text
    ensures r.err.Some? ==> r.value == ""
    ensures err.Some? ==> r.err == err
    ensures err.None? && reply.Nil? ==> r.err == Some(ErrNil)
    ensures err.None? && reply.ErrorReply? ==> r.err == Some(ServerError(reply.message))
    ensures err.None? && (reply.Int? || reply.Array?) ==> r.err == Some(UnexpectedType)
  {
    if err.Some? then Outcome("", err)
    else match reply
      case Bulk(s) => Outcome(s, None)
      case Status(s) => Outcome(s, None)
      case Nil => Outcome("", Some(ErrNil))
      case ErrorReply(m) => Outcome("", Some(ServerError(m)))
      case _ => Outcome("", Some(UnexpectedType))
  }

  /** `redis.Int64(reply, err)`. */
  function Int64(reply: Reply, err: Option<Error>): (r: Outcome<int>)
    ensures err.Some? ==> r == Outcome(0, err)
    ensures err.None? && reply.Int? ==> r == Outcome(reply.n, None)
    ensures err.None? && reply.Bulk? ==> r == ParseInt(reply.text)
    ensures err.None? && reply.Nil? ==> r == Outcome(0, Some(ErrNil))
    ensures err.None? && reply.ErrorReply? ==> r == Outcome(0, Some(ServerError(reply.message)))
    ensures err.None? && (reply.Status? || reply.Array?) ==> r == Outcome(0, Some(UnexpectedType))
    ensures r.err.None? ==> reply.Int? || reply.Bulk?
  {
    if err.Some? then Outcome(0, err)
    else match reply
      case Int(n) => Outcome(n, None)
      case Bulk(s) => ParseInt(s)
      case Nil => Outcome(0, Some(ErrNil))
      case ErrorReply(m) => Outcome(0, Some(ServerError(m)))
      case _ => Outcome(0, Some(UnexpectedType))
  }

  const MAX_UINT64: nat := 0xFFFF_FFFF_FFFF_FFFF
  const INT64_CUTOFF: nat := 0x8000_0000_0000_0000   // 2^63

  datatype Scan = Scanned(n: nat) | SyntaxError | RangeError

  predicate IsDigit(c: char) { '0' <= c <= '9' }

  predicate AllDigits(s: string) {
    forall i :: 0 <= i < |s| ==> IsDigit(s[i])
  }

  function Pow10(k: nat): (p: nat)
    ensures p >= 1
  {
    if k == 0 then 1 else 10 * Pow10(k - 1)
  }

  /** The value of a string of decimal digits, most significant first. */
  function Decimal(ds: string): nat
    requires AllDigits(ds)
  {
    if ds == [] then 0
    else (ds[0] as int - '0' as int) * Pow10(|ds| - 1) + Decimal(ds[1..])
  }

  /**
   * The digit loop of `strconv.ParseUint` in base 10: it stops at the first
   * character that is not a digit, or as soon as the accumulated value would
   * exceed the largest uint64, whichever comes first.
   */
  function ScanDigits(s: string, acc: nat): (r: Scan)
    requires acc <= MAX_UINT64
    ensures r.Scanned? ==> r.n <= MAX_UINT64
    ensures r.Scanned? ==> AllDigits(s)
    decreases |s|
  {
    if s == [] then Scanned(acc)
    else if !IsDigit(s[0]) then SyntaxError
    else
      var next := acc * 10 + (s[0] as int - '0' as int);
      if next > MAX_UINT64 then RangeError else ScanDigits(s[1..], next)
  }

  lemma AllDigitsCons(s: string)
    requires s != []
    ensures AllDigits(s) <==> IsDigit(s[0]) && AllDigits(s[1..])
  {
    if IsDigit(s[0]) && AllDigits(s[1..]) {
      forall i | 0 <= i < |s| ensures IsDigit(s[i]) {
        if i > 0 { assert s[i] == s[1..][i - 1]; }
      }
    }
  }

  /** Shifting the accumulator by one digit position. */
  lemma ShiftDigit(acc: nat, d: nat, p: nat)
    requires p >= 1
    ensures acc * (10 * p) + d * p == (acc * 10 + d) * p
    ensures acc * 10 + d <= (acc * 10 + d) * p
  {
  }

  /**
   * The digit loop reads exactly the decimal value: it finishes precisely on
   * an all-digit string whose value, continuing `acc`, fits in a uint64, and
   * then yields that value.
   */
  lemma {:induction false} ScanDigitsValue(s: string, acc: nat)
    requires acc <= MAX_UINT64
    ensures ScanDigits(s, acc).Scanned? <==> AllDigits(s) && acc * Pow10(|s|) + Decimal(s) <= MAX_UINT64
    ensures ScanDigits(s, acc).Scanned? ==> ScanDigits(s, acc).n == acc * Pow10(|s|) + Decimal(s)
    decreases |s|
  {
    if s != [] {
      AllDigitsCons(s);
      if IsDigit(s[0]) {
        var d := s[0] as int - '0' as int;
        var next := acc * 10 + d;
        var p := Pow10(|s| - 1);
        assert Pow10(|s|) == 10 * p;
        ShiftDigit(acc, d, p);
        if AllDigits(s) {
          assert Decimal(s) == d * p + Decimal(s[1..]);
          assert acc * Pow10(|s|) + Decimal(s) == next * p + Decimal(s[1..]);
        }
        if next <= MAX_UINT64 {
          assert ScanDigits(s, acc) == ScanDigits(s[1..], next);
          ScanDigitsValue(s[1..], next);
        } else {
          assert ScanDigits(s, acc) == RangeError;
        }
      }
    }
  }

  /** The digit loop never reports a syntax error on an all-digit string. */
  lemma {:induction false} DigitsNeverSyntax(s: string, acc: nat)
    requires acc <= MAX_UINT64
    requires AllDigits(s)
    ensures !ScanDigits(s, acc).SyntaxError?
    decreases |s|
  {
    if s != [] {
      AllDigitsCons(s);
      var next := acc * 10 + (s[0] as int - '0' as int);
      if next <= MAX_UINT64 {
        DigitsNeverSyntax(s[1..], next);
      }
    }
  }

  /**
   * The digit loop reports a syntax error at a non-digit at position `i` when
   * the digits before it still fit in a uint64.
   */
  lemma {:induction false} SyntaxAtNonDigit(s: string, acc: nat, i: nat)
    requires acc <= MAX_UINT64
    requires i < |s| && !IsDigit(s[i])
    requires AllDigits(s[..i]) && acc * Pow10(i) + Decimal(s[..i]) <= MAX_UINT64
    ensures ScanDigits(s, acc) == SyntaxError
    decreases i
  {
    if i > 0 {
      var pre := s[..i];
      AllDigitsCons(pre);
      var d := s[0] as int - '0' as int;
      var next := acc * 10 + d;
      var p := Pow10(i - 1);
      assert Pow10(i) == 10 * p;
      ShiftDigit(acc, d, p);
      assert pre[1..] == s[1..][..i - 1];
      assert Decimal(pre) == d * p + Decimal(pre[1..]);
      assert acc * Pow10(i) + Decimal(pre) == next * p + Decimal(s[1..][..i - 1]);
      SyntaxAtNonDigit(s[1..], next, i - 1);
    }
  }

  /** The part of `s` after an optional sign. */
  function Unsigned(s: string): string {
    if s != [] && (s[0] == '+' || s[0] == '-') then s[1..] else s
  }

  /** The bounds of a signed 64-bit value, by sign. */
  predicate FitsInt64(negative: bool, magnitude: nat) {
    if negative then magnitude <= INT64_CUTOFF else magnitude < INT64_CUTOFF
  }

  /** `strconv.ParseInt(s, 10, 64)`, value included when it reports an error. */
  function ParseInt(s: string): (r: Outcome<int>)
    ensures -(INT64_CUTOFF as int) <= r.value < INT64_CUTOFF
    ensures r.err.Some? ==> r.err == Some(NumberSyntax) || r.err == Some(NumberRange)
    ensures r.err == Some(NumberSyntax) ==> r.value == 0
    ensures s == "" ==> r == Outcome(0, Some(NumberSyntax))
    ensures Unsigned(s) == "" ==> r == Outcome(0, Some(NumberSyntax))
    ensures var ds := Unsigned(s);
            ds != "" && AllDigits(ds) && !FitsInt64(s[0] == '-', Decimal(ds)) ==> r.err == Some(NumberRange)
    ensures r.err.None? <==>
              var ds := Unsigned(s);
              ds != "" && AllDigits(ds) && FitsInt64(s[0] == '-', Decimal(ds))
    ensures r.err.None? ==> r.value == if s[0] == '-' then -(Decimal(Unsigned(s)) as int) else Decimal(Unsigned(s))
    ensures s != "" && r.err == Some(NumberRange) ==>
              r.value == if s[0] == '-' then -(INT64_CUTOFF as int) else INT64_CUTOFF - 1
  {
    if s == "" then Outcome(0, Some(NumberSyntax))
    else
      var neg := s[0] == '-';
      var digits := Unsigned(s);
      ScanDigitsValue(digits, 0);
      assert AllDigits(digits) ==> !ScanDigits(digits, 0).SyntaxError? by {
        if AllDigits(digits) { DigitsNeverSyntax(digits, 0); }
      }
      var scan := if digits == "" then SyntaxError else ScanDigits(digits, 0);
      if scan.SyntaxError? then Outcome(0, Some(NumberSyntax))
      else
        var un := if scan.RangeError? then MAX_UINT64 else scan.n;
        var rangeErr := scan.RangeError?;
        if !neg && un >= INT64_CUTOFF then Outcome(INT64_CUTOFF - 1, Some(NumberRange))
        else if neg && un > INT64_CUTOFF then Outcome(-(INT64_CUTOFF as int), Some(NumberRange))
        else
          // a range error from the digit loop always lands in one of the two clamps
          assert !rangeErr;
          Outcome(if neg then -un else un, None)
  }

  /** A sample of the reference: "-42" parses to -42 and "4x" is a syntax error. */
  lemma ParseIntExamples()
    ensures ParseInt("-42") == Outcome(-42, None)
    ensures ParseInt("4x").err == Some(NumberSyntax)
  {
    assert Unsigned("-42") == "42";
    assert Decimal("42") == 42 by {
      assert "42"[1..] == "2";
      assert "2"[1..] == "";
    }
    assert "4x"[1..] == "x";
  }

  /**
   * A non-digit after the sign is a syntax error when the digits before it
   * fit in a uint64, however many digits follow it.
   */
  lemma ParseIntSyntaxAt(s: string, i: nat)
    requires i < |Unsigned(s)| && !IsDigit(Unsigned(s)[i])
    requires AllDigits(Unsigned(s)[..i]) && Decimal(Unsigned(s)[..i]) <= MAX_UINT64
    ensures ParseInt(s) == Outcome(0, Some(NumberSyntax))
  {
    SyntaxAtNonDigit(Unsigned(s), 0, i);
  }
}
