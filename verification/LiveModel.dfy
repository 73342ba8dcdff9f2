/** Native router state, command semantics and plans (scripts/routerkit_netcraze_live.py). */
module LiveModel {
  import opened Wrappers
  import opened Text
  import opened PlanModel

  datatype Proxy = Proxy(description: string, protocol: string, host: string, port: int, enabled: bool, auth: bool)

  datatype NativePolicy = NativePolicy(description: string, interfaces: seq<string>)

  /** The parsed running configuration: objects by native id, device assignments, and the default-policy guard. */
  datatype LiveState = LiveState(
    proxies: map<string, Proxy>, policies: map<string, NativePolicy>, assignments: map<string, string>,
    guard: seq<string>)

  datatype ObjectAction = Reuse | Create

  datatype BindingPlan = BindingPlan(
    slot: int, port: int, proxyId: string, policyId: string, proxyAction: ObjectAction, policyAction: ObjectAction)

  datatype AssignmentAction = NoAssignment | KeepAssignment | AssignNew | MoveAssignment

  datatype LivePlan = LivePlan(
    bindings: seq<BindingPlan>, devicePresent: bool, selectedSlot: Option<int>, assignment: AssignmentAction)

  datatype LiveError = Refused | RollbackUnproven

  const PROXY := "Proxy"
  const POLICY := "Policy"
  const MAX_INDEX := 15

  // ---- Native identifiers ----

  /** The number in `Proxy<n>` or `Policy<n>`; None for any other text. */
  function NumericId(prefix: string, id: string): Option<nat> {
    if prefix <= id && |id| > |prefix| && AllDigits(id[|prefix|..]) then Some(ParseDecimal(id[|prefix|..])) else None
  }

  predicate InRange(prefix: string, id: string) {
    NumericId(prefix, id).Some? && NumericId(prefix, id).value <= MAX_INDEX
  }

  function NativeId(prefix: string, n: nat): string {
    prefix + Decimal(n)
  }

  lemma {:induction false} NativeIdNumber(prefix: string, n: nat)
    ensures NumericId(prefix, NativeId(prefix, n)) == Some(n)
  {
    var id := NativeId(prefix, n);
    assert prefix <= id && id[|prefix|..] == Decimal(n);
    ParseInvertsDecimal(n);
  }

  /** No identifier in use carries the number n. */
  predicate NumberFree(used: set<string>, prefix: string, n: nat) {
    forall id :: id in used ==> NumericId(prefix, id) != Some(n)
  }

  /** The first unused number from n on, up to the supported maximum. */
  function FirstFree(used: set<string>, prefix: string, n: nat): (r: Option<nat>)
    requires n <= MAX_INDEX + 1
    ensures r.Some? ==> n <= r.value <= MAX_INDEX && NumberFree(used, prefix, r.value)
    ensures forall k :: n <= k < (if r.Some? then r.value else MAX_INDEX + 1) ==> !NumberFree(used, prefix, k)
    decreases MAX_INDEX + 1 - n
  {
    if n == MAX_INDEX + 1 then None
    else if NumberFree(used, prefix, n) then Some(n)
    else FirstFree(used, prefix, n + 1)
  }

  /** `_next_free`: every identifier in use must be in range, and the smallest free number is taken. */
  function NextFree(used: set<string>, prefix: string): (r: Result<string, LiveError>)
    ensures r.Ok? ==> InRange(prefix, r.value)
  {
    if (exists id :: id in used && !InRange(prefix, id)) || FirstFree(used, prefix, 0).None? then Err(Refused)
    else
      var n := FirstFree(used, prefix, 0).value;
      NativeIdNumber(prefix, n);
      Ok(NativeId(prefix, n))
  }

  /** A newly chosen identifier is unused, and every smaller number is taken. */
  lemma {:induction false} NextFreeIsLeast(used: set<string>, prefix: string)
    requires NextFree(used, prefix).Ok?
    ensures NextFree(used, prefix).value !in used
    ensures forall k: nat :: k < NumericId(prefix, NextFree(used, prefix).value).value ==> !NumberFree(used, prefix, k)
  {
    NativeIdNumber(prefix, FirstFree(used, prefix, 0).value);
  }

  // ---- Commands and what the router does with them ----

  datatype Command =
    | DescribeProxy(id: string, description: string)
    | SecurityPublic(id: string)
    | ProtocolSocks5(id: string)
    | Upstream(id: string, host: string, port: int)
    | Up(id: string)
    | DescribePolicy(id: string, description: string)
    | Permit(id: string, proxyId: string)
    | AssignHost(mac: string, policyId: string)
    | UnassignHost(mac: string)
    | RemoveInterface(id: string)
    | RemovePolicy(id: string)
    | Save

  /** An interface section as the parser first sees it. */
  const BLANK_PROXY := Proxy("", "", "", 0, false, false)
  const BLANK_POLICY := NativePolicy("", [])

  function ProxyOrBlank(st: LiveState, id: string): Proxy {
    if id in st.proxies then st.proxies[id] else BLANK_PROXY
  }

  function PolicyOrBlank(st: LiveState, id: string): NativePolicy {
    if id in st.policies then st.policies[id] else BLANK_POLICY
  }

  /** The effect of one accepted command on the configuration. */
  function Exec(st: LiveState, c: Command): LiveState {
    match c
    case DescribeProxy(id, text) => st.(proxies := st.proxies[id := ProxyOrBlank(st, id).(description := text)])
    case SecurityPublic(id) => st.(proxies := st.proxies[id := ProxyOrBlank(st, id)])
    case ProtocolSocks5(id) => st.(proxies := st.proxies[id := ProxyOrBlank(st, id).(protocol := SOCKS5)])
    case Upstream(id, host, port) =>
      st.(proxies := st.proxies[id := ProxyOrBlank(st, id).(host := host, port := port)])
    case Up(id) => st.(proxies := st.proxies[id := ProxyOrBlank(st, id).(enabled := true)])
    case DescribePolicy(id, text) => st.(policies := st.policies[id := PolicyOrBlank(st, id).(description := text)])
    case Permit(id, proxyId) =>
      var q := PolicyOrBlank(st, id);
      st.(policies := st.policies[id := q.(interfaces := q.interfaces + [proxyId])])
    case AssignHost(mac, policyId) => st.(assignments := st.assignments[mac := policyId])
    case UnassignHost(mac) => st.(assignments := st.assignments - {mac})
    case RemoveInterface(id) => st.(proxies := st.proxies - {id})
    case RemovePolicy(id) => st.(policies := st.policies - {id})
    case Save => st
  }

  function ExecAll(st: LiveState, cs: seq<Command>): LiveState
    decreases cs
  {
    if cs == [] then st else ExecAll(Exec(st, cs[0]), cs[1..])
  }

  lemma {:induction false} ExecAppended(st: LiveState, a: seq<Command>, b: seq<Command>)
    ensures ExecAll(st, a + b) == ExecAll(ExecAll(st, a), b)
    decreases a
  {
    if a == [] {
      assert a + b == b;
    } else {
      assert (a + b)[1..] == a[1..] + b;
      ExecAppended(Exec(st, a[0]), a[1..], b);
    }
  }

  // ---- Command rendering ----

  function ProxyCreateCommands(b: BindingPlan, p: Profile): seq<Command> {
    [DescribeProxy(b.proxyId, ConnectionName(p).text), SecurityPublic(b.proxyId), ProtocolSocks5(b.proxyId),
     Upstream(b.proxyId, p.host, p.port), Up(b.proxyId)]
  }

  function PolicyCreateCommands(b: BindingPlan, p: Profile): seq<Command> {
    [DescribePolicy(b.policyId, PolicyName(p).text), Permit(b.policyId, b.proxyId)]
  }

  // ---- Exactness ----

  /** Full semantic equivalence of a proxy with a desired endpoint, whatever it is called. */
  predicate ProxySemantic(x: Proxy, p: Profile) {
    x.protocol == SOCKS5 && x.host == p.host && x.port == p.port && x.enabled == p.enabled && !x.auth
  }

  predicate ProxyOwned(x: Proxy, p: Profile) {
    x.description == ConnectionName(p).text
  }

  predicate PolicySemantic(q: NativePolicy, proxyId: string) {
    q.interfaces == [proxyId]
  }

  predicate PolicyOwned(q: NativePolicy, p: Profile) {
    q.description == PolicyName(p).text
  }

  lemma {:induction false} OwnedNamesSeparatePorts(p: Profile, q: Profile)
    requires ConnectionName(p).text == ConnectionName(q).text || PolicyName(p).text == PolicyName(q).text
    ensures p.port == q.port
  {
    NamesSeparatePorts(p, q);
  }
}
