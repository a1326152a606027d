/**
 * redis/option.go: the client option struct, its `With*` setters and
 * `repairClient`, which replaces negative pool sizes and idle timeout by
 * defaults.  Network, address and password come from `NewClient`'s own
 * arguments and no option touches them.
 *
 * The option machinery mirrors the one in module MqOptions: the two option
 * structs are distinct Go types with their own field sets, so the lemmas
 * about the option loop are stated once per struct.
 */
module RedisOptions {

  const DEFAULT_IDLE_TIMEOUT_SECONDS: int := 10
  const DEFAULT_MAX_ACTIVE: int := 100
  const DEFAULT_MAX_IDLE: int := 20

  /** The value of a `ClientOptions` struct. */
  datatype ClientSettings = ClientSettings(
    maxIdle: int,
    idleTimeoutSeconds: int,
    maxActive: int,
    wait: bool,
    network: string,
    address: string,
    password: string)

  /** The closures returned by the `With*` functions. */
  datatype ClientOption =
    | WithMaxIdle(maxIdle: int)
    | WithIdleTimeoutSeconds(idleTimeoutSeconds: int)
    | WithMaxActive(maxActive: int)
    | WithWaitMode

  datatype Field = MaxIdle | IdleTimeoutSeconds | MaxActive | Wait

  datatype FieldValue = IntValue(n: int) | BoolValue(b: bool)

  function FieldOf(s: ClientSettings, f: Field): FieldValue {
    match f
    case MaxIdle => IntValue(s.maxIdle)
    case IdleTimeoutSeconds => IntValue(s.idleTimeoutSeconds)
    case MaxActive => IntValue(s.maxActive)
    case Wait => BoolValue(s.wait)
  }

  /** The field an option assigns. */
  function Target(opt: ClientOption): Field {
    match opt
    case WithMaxIdle(_) => MaxIdle
    case WithIdleTimeoutSeconds(_) => IdleTimeoutSeconds
    case WithMaxActive(_) => MaxActive
    case WithWaitMode => Wait
  }

  /** The value an option assigns; `WithWaitMode` always turns waiting on. */
  function Assigned(opt: ClientOption): FieldValue {
    match opt
    case WithMaxIdle(n) => IntValue(n)
    case WithIdleTimeoutSeconds(n) => IntValue(n)
    case WithMaxActive(n) => IntValue(n)
    case WithWaitMode => BoolValue(true)
  }

  /** The connection parameters no option may change. */
  predicate SameEndpoint(a: ClientSettings, b: ClientSettings) {
    a.network == b.network && a.address == b.address && a.password == b.password
  }

  /** Running one option closure: exactly one field changes. */
  function ApplyOption(s: ClientSettings, opt: ClientOption): (r: ClientSettings)
    ensures FieldOf(r, Target(opt)) == Assigned(opt)
    ensures forall f :: f != Target(opt) ==> FieldOf(r, f) == FieldOf(s, f)
    ensures SameEndpoint(r, s)
  {
    match opt
    case WithMaxIdle(n) => s.(maxIdle := n)
    case WithIdleTimeoutSeconds(n) => s.(idleTimeoutSeconds := n)
    case WithMaxActive(n) => s.(maxActive := n)
    case WithWaitMode => s.(wait := true)
  }

  /** The options applied in order, first to last; the endpoint never changes. */
  function Applied(s: ClientSettings, opts: seq<ClientOption>): (r: ClientSettings)
    ensures SameEndpoint(r, s)
    decreases |opts|
  {
    if opts == [] then s
    else ApplyOption(Applied(s, opts[..|opts| - 1]), opts[|opts| - 1])
  }

  /** A field that no option targets keeps its value. */
  lemma {:induction false} UnsetFieldKept(s: ClientSettings, opts: seq<ClientOption>, f: Field)
    requires forall k :: 0 <= k < |opts| ==> Target(opts[k]) != f
    ensures FieldOf(Applied(s, opts), f) == FieldOf(s, f)
    decreases |opts|
  {
    if opts != [] {
      UnsetFieldKept(s, opts[..|opts| - 1], f);
    }
  }

  /** The last option that targets a field decides its value. */
  lemma {:induction false} LastSetterWins(s: ClientSettings, opts: seq<ClientOption>, j: nat)
    requires j < |opts|
    requires forall k :: j < k < |opts| ==> Target(opts[k]) != Target(opts[j])
    ensures FieldOf(Applied(s, opts), Target(opts[j])) == Assigned(opts[j])
    decreases |opts|
  {
    if j < |opts| - 1 {
      LastSetterWins(s, opts[..|opts| - 1], j);
    }
  }

  predicate IsRepaired(s: ClientSettings) {
    s.maxIdle >= 0 && s.idleTimeoutSeconds >= 0 && s.maxActive >= 0
  }

  /** `repairClient`: only negative numbers are replaced. */
  function RepairClient(s: ClientSettings): (r: ClientSettings)
    ensures IsRepaired(r)
    ensures IsRepaired(s) ==> r == s
    ensures r.maxIdle == if s.maxIdle < 0 then DEFAULT_MAX_IDLE else s.maxIdle
    ensures r.idleTimeoutSeconds == if s.idleTimeoutSeconds < 0 then DEFAULT_IDLE_TIMEOUT_SECONDS else s.idleTimeoutSeconds
    ensures r.maxActive == if s.maxActive < 0 then DEFAULT_MAX_ACTIVE else s.maxActive
    ensures r.wait == s.wait && SameEndpoint(r, s)
  {
    var s1 := if s.maxIdle < 0 then s.(maxIdle := DEFAULT_MAX_IDLE) else s;
    var s2 := if s1.idleTimeoutSeconds < 0 then s1.(idleTimeoutSeconds := DEFAULT_IDLE_TIMEOUT_SECONDS) else s1;
    if s2.maxActive < 0 then s2.(maxActive := DEFAULT_MAX_ACTIVE) else s2
  }

  lemma RepairClientIdempotent(s: ClientSettings)
    ensures RepairClient(RepairClient(s)) == RepairClient(s)
  {
  }

  class ClientOptions {
    var maxIdle: int
    var idleTimeoutSeconds: int
    var maxActive: int
    var wait: bool
    var network: string
    var address: string
    var password: string

    function Value(): ClientSettings
      reads this
    {
      ClientSettings(maxIdle, idleTimeoutSeconds, maxActive, wait, network, address, password)
    }

    /** `&ClientOptions{network: network, address: address, password: password}`. */
    constructor (network: string, address: string, password: string)
      ensures Value() == ClientSettings(0, 0, 0, false, network, address, password)
    {
      maxIdle, idleTimeoutSeconds, maxActive, wait := 0, 0, 0, false;
      this.network, this.address, this.password := network, address, password;
    }

    /** Runs one option closure on the struct. */
    method Apply(opt: ClientOption)
      modifies this
      ensures Value() == ApplyOption(old(Value()), opt)
    {
      match opt
      case WithMaxIdle(n) => maxIdle := n;
      case WithIdleTimeoutSeconds(n) => idleTimeoutSeconds := n;
      case WithMaxActive(n) => maxActive := n;
      case WithWaitMode => wait := true;
    }

    /** The option loop of `NewClient` and `NewClientWithPool`. */
    method ApplyAll(opts: seq<ClientOption>)
      modifies this
      ensures Value() == Applied(old(Value()), opts)
    {
      for i := 0 to |opts|
        invariant Value() == Applied(old(Value()), opts[..i])
      {
        Apply(opts[i]);
        assert opts[..i + 1][..i] == opts[..i];
      }
      assert opts[..|opts|] == opts;
    }

    /** `repairClient`, in place. */
    method Repair()
      modifies this
      ensures Value() == RepairClient(old(Value()))
    {
      if maxIdle < 0 {
        maxIdle := DEFAULT_MAX_IDLE;
      }
      if idleTimeoutSeconds < 0 {
        idleTimeoutSeconds := DEFAULT_IDLE_TIMEOUT_SECONDS;
      }
      if maxActive < 0 {
        maxActive := DEFAULT_MAX_ACTIVE;
      }
    }
  }
}
