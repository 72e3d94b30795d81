/** The provider firewall table: the text loaded into nft, the JSON objects demanded back from it, and
    what both mean for packets. Models the pure part of backend/exitlane/container_runtime.py. */
module Firewall {
  import opened Options
  import opened Net
  import opened Text

  const TABLE := "exitlane_container_guard"
  const PROVIDERS: set<Interface> := {"wg-mullvad", "wg-pia", "wg-proton"}

  /** The protected ingress. */
  datatype Config = Config(interface: Interface, subnet: Subnet)

  /** What one table grants: the provider forwarding is open to, the guarded provider source addresses, and
      the provider interface those may leave by. */
  datatype Policy = Policy(interface: Option<Interface>, sources: seq<string>, probe: Option<Interface>)

  // ----- nft JSON objects -----

  datatype Left = Meta(key: string) | Payload(protocol: string, field: string)
  datatype Right = Word(text: string) | Prefix(address: string, length: nat) | Port(number: nat)
  datatype Expr = Match(op: string, left: Left, right: Right) | Drop | Accept | Masquerade | OtherExpr

  datatype Object =
    | Metainfo
    | Table(family: string, name: string)
    | Chain(family: string, table: string, name: string, kind: string, hook: string, priority: int, policy: string)
    | Rule(family: string, table: string, chain: string, expr: seq<Expr>)
    | Alien

  /** One base chain the guard must have. */
  datatype ChainSpec = ChainSpec(name: string, kind: string, priority: int, rules: seq<seq<Expr>>)

  function Is(left: Left, right: Right): Expr {
    Match("==", left, right)
  }

  function FromIngress(c: Config): Expr {
    Is(Meta("iifname"), Word(c.interface))
  }

  function FromSubnet(c: Config): Expr
    requires c.subnet.base < ADDRESSES
  {
    Is(Payload("ip", "saddr"), Prefix(Dotted(c.subnet.base), c.subnet.prefix))
  }

  function FromSource(address: string): Expr {
    Is(Payload("ip", "saddr"), Word(address))
  }

  function Leaving(interface: Interface): Expr {
    Is(Meta("oifname"), Word(interface))
  }

  function OverIpv4(): Expr {
    Is(Meta("nfproto"), Word("ipv4"))
  }

  function ToPort(protocol: string): Expr {
    Is(Payload(protocol, "dport"), Port(53))
  }

  predicate ConfigOk(c: Config) {
    && 0 < |c.interface| <= 15
    && Free(c.interface, ' ') && Free(c.interface, '\n') && Free(c.interface, '"')
    && c.subnet.base < ADDRESSES && c.subnet.prefix <= 31
  }

  function ForwardRules(c: Config, interface: Option<Interface>): seq<seq<Expr>>
    requires ConfigOk(c)
  {
    var blocks := [[FromIngress(c), Drop], [FromSubnet(c), Drop]];
    if interface.None? then blocks
    else [[FromIngress(c), OverIpv4(), Leaving(interface.value), Accept]] + blocks
  }

  function InputRules(c: Config): seq<seq<Expr>>
    requires ConfigOk(c)
  {
    [[FromIngress(c), ToPort("udp"), Drop], [FromIngress(c), ToPort("tcp"), Drop],
     [FromSubnet(c), ToPort("udp"), Drop], [FromSubnet(c), ToPort("tcp"), Drop]]
  }

  function SourceRules(address: string, probe: Option<Interface>): seq<seq<Expr>> {
    (if probe.Some? then [[FromSource(address), Leaving(probe.value), Accept]] else []) + [[FromSource(address), Drop]]
  }

  function OutputRules(sources: seq<string>, probe: Option<Interface>): seq<seq<Expr>> {
    if sources == [] then [] else SourceRules(sources[0], probe) + OutputRules(sources[1..], probe)
  }

  function NatRules(c: Config, interface: Interface): seq<seq<Expr>> {
    [[FromIngress(c), OverIpv4(), Leaving(interface), Masquerade]]
  }

  function Expected(c: Config, p: Policy): seq<ChainSpec>
    requires ConfigOk(c)
  {
    [ChainSpec("forward", "filter", -200, ForwardRules(c, p.interface)),
     ChainSpec("input", "filter", -200, InputRules(c)),
     ChainSpec("output", "filter", 0, OutputRules(p.sources, p.probe))] +
    if p.interface.None? then []
    else [ChainSpec("postrouting", "nat", 100, NatRules(c, p.interface.value))]
  }

  // ----- Exact recognition -----

  datatype Pick = AnyChain | ChainNamed(name: string) | AnyRule | RuleOf(chain: string)

  predicate Picked(o: Object, k: Pick) {
    match k
    case AnyChain => o.Chain?
    case ChainNamed(name) => o.Chain? && o.name == name
    case AnyRule => o.Rule?
    case RuleOf(chain) => o.Rule? && o.chain == chain
  }

  /** The picked objects of a listing, in its order. */
  function Select(data: seq<Object>, k: Pick): seq<Object> {
    if data == [] then [] else (if Picked(data[0], k) then [data[0]] else []) + Select(data[1..], k)
  }

  lemma {:induction false} Selected(data: seq<Object>, k: Pick)
    ensures forall o :: o in Select(data, k) <==> o in data && Picked(o, k)
  {
    if data != [] {
      Selected(data[1..], k);
    }
  }

  function Chains(data: seq<Object>): seq<Object> {
    Select(data, AnyChain)
  }

  function ChainsNamed(data: seq<Object>, name: string): (cs: seq<Object>)
    ensures forall o :: o in cs <==> o in data && o.Chain? && o.name == name
  {
    Selected(data, ChainNamed(name));
    Select(data, ChainNamed(name))
  }

  function Rules(data: seq<Object>): seq<Object> {
    Select(data, AnyRule)
  }

  function RulesIn(data: seq<Object>, chain: string): (rs: seq<Object>)
    ensures forall r :: r in rs <==> r.Rule? && r in data && r.chain == chain
  {
    Selected(data, RuleOf(chain));
    Select(data, RuleOf(chain))
  }

  function Exprs(rules: seq<Object>): seq<seq<Expr>>
    requires forall r | r in rules :: r.Rule?
  {
    if rules == [] then [] else [rules[0].expr] + Exprs(rules[1..])
  }

  /** The rule objects of one chain. */
  function RuleObjects(table: string, chain: string, rules: seq<seq<Expr>>): seq<Object> {
    if rules == [] then [] else [Rule("inet", table, chain, rules[0])] + RuleObjects(table, chain, rules[1..])
  }

  function RuleCount(specs: seq<ChainSpec>): nat {
    if specs == [] then 0 else |specs[0].rules| + RuleCount(specs[1..])
  }

  predicate ChainExact(data: seq<Object>, s: ChainSpec) {
    && ChainsNamed(data, s.name) == [Chain("inet", TABLE, s.name, s.kind, s.name, s.priority, "accept")]
    && (forall r | r in RulesIn(data, s.name) :: r.family == "inet" && r.table == TABLE)
    && Exprs(RulesIn(data, s.name)) == s.rules
  }

  /** A policy whose opened provider is the probed one, with its source guarded. */
  predicate Consistent(p: Policy) {
    && (p.interface.Some? ==> p.interface.value in PROVIDERS)
    && (p.probe.Some? ==> p.probe.value in PROVIDERS)
    && (p.interface.Some? ==> p.interface == p.probe && p.sources != [])
  }

  /** The listing shows exactly the table of `p`: the check that grants or refuses a policy. */
  predicate Exact(data: seq<Object>, c: Config, p: Policy)
    requires ConfigOk(c)
  {
    && Consistent(p)
    && (forall o | o in data :: !o.Alien?)
    && (forall o | o in data :: o.Table? ==> o.family == "inet" && o.name == TABLE)
    && |Chains(data)| == |Expected(c, p)|
    && |Rules(data)| == RuleCount(Expected(c, p))
    && (forall s | s in Expected(c, p) :: ChainExact(data, s))
  }

  // ----- What a listing does to packets -----

  datatype Protocol = Udp | Tcp | OtherProtocol

  datatype Packet = Packet(iif: Interface, oif: Interface, ipv4: bool, source: nat, protocol: Protocol, port: nat)

  function Power(n: nat): (r: nat)
    ensures r > 0
  {
    if n == 0 then 1 else 2 * Power(n - 1)
  }

  predicate InSubnet(a: nat, s: Subnet) {
    s.prefix <= 32 && a / Power(32 - s.prefix) == s.base / Power(32 - s.prefix)
  }

  /** Whether one expression lets the packet on to the next one. */
  predicate Matches(e: Expr, k: Packet) {
    e.Match? && e.op == "==" &&
    match (e.left, e.right)
    case (Meta(key), Word(text)) =>
      (key == "iifname" && k.iif == text) || (key == "oifname" && k.oif == text) ||
      (key == "nfproto" && text == "ipv4" && k.ipv4)
    case (Payload(protocol, field), Word(text)) =>
      protocol == "ip" && field == "saddr" && k.ipv4 && Address(text) == Some(k.source)
    case (Payload(protocol, field), Prefix(address, length)) =>
      protocol == "ip" && field == "saddr" && k.ipv4 && Address(address).Some? &&
      InSubnet(k.source, Subnet(Address(address).value, length))
    case (Payload(protocol, field), Port(number)) =>
      field == "dport" && k.port == number &&
      ((protocol == "udp" && k.protocol.Udp?) || (protocol == "tcp" && k.protocol.Tcp?))
    case _ => false
  }

  datatype Verdict = Dropped | Passed | Masqueraded | NoVerdict

  /** The verdict of one rule. */
  function RuleVerdict(exprs: seq<Expr>, k: Packet): Verdict {
    if exprs == [] then NoVerdict
    else match exprs[0]
      case Drop => Dropped
      case Accept => Passed
      case Masquerade => Masqueraded
      case _ => if Matches(exprs[0], k) then RuleVerdict(exprs[1..], k) else NoVerdict
  }

  /** The first rule with a verdict decides; a packet no rule decides takes the chain's policy. */
  function FirstMatch(rules: seq<seq<Expr>>, k: Packet, policy: string): Verdict {
    if rules == [] then (if policy == "drop" then Dropped else Passed)
    else
      var v := RuleVerdict(rules[0], k);
      if v.NoVerdict? then FirstMatch(rules[1..], k, policy) else v
  }

  /** Every base chain on the hook sees the packet; one drop is final. */
  predicate Crosses(data: seq<Object>, hook: string, k: Packet) {
    forall o | o in data && o.Chain? && o.hook == hook ::
      !FirstMatch(Exprs(RulesIn(data, o.name)), k, o.policy).Dropped?
  }

  predicate Translated(data: seq<Object>, k: Packet) {
    exists o | o in data && o.Chain? && o.kind == "nat" && o.hook == "postrouting" ::
      FirstMatch(Exprs(RulesIn(data, o.name)), k, o.policy).Masqueraded?
  }
}
