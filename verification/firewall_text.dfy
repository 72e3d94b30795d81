/** The text form of the provider table, as it is handed to nft, and nft's reading of that grammar. The
    printer and the JSON expectations are written independently; they must agree. */
module FirewallText {
  import opened Options
  import opened Net
  import opened Text
  import opened Firewall

  type Line = seq<string>

  // ----- The printer -----

  function Quote(s: string): string {
    "\"" + s + "\""
  }

  function SubnetText(s: Subnet): string
    requires s.base < ADDRESSES
  {
    Join([Dotted(s.base), Decimal(s.prefix)], '/')
  }

  function Header(name: string, kind: string, priority: string): Line {
    ["chain", name, "{", "type", kind, "hook", name, "priority", priority, "policy", "accept;"]
  }

  function ForwardLines(c: Config, interface: Option<Interface>): seq<Line>
    requires ConfigOk(c)
  {
    (if interface.None? then []
     else [["iifname", Quote(c.interface), "meta", "nfproto", "ipv4", "oifname", Quote(interface.value), "accept"]]) +
    [["iifname", Quote(c.interface), "drop"], ["ip", "saddr", SubnetText(c.subnet), "drop"]]
  }

  function InputLines(c: Config): seq<Line>
    requires ConfigOk(c)
  {
    [["iifname", Quote(c.interface), "udp", "dport", "53", "drop"],
     ["iifname", Quote(c.interface), "tcp", "dport", "53", "drop"],
     ["ip", "saddr", SubnetText(c.subnet), "udp", "dport", "53", "drop"],
     ["ip", "saddr", SubnetText(c.subnet), "tcp", "dport", "53", "drop"]]
  }

  function SourceLines(address: string, probe: Option<Interface>): seq<Line> {
    (if probe.None? then [] else [["ip", "saddr", address, "oifname", Quote(probe.value), "accept"]]) +
    [["ip", "saddr", address, "drop"]]
  }

  function OutputLines(sources: seq<string>, probe: Option<Interface>): seq<Line> {
    if sources == [] then [] else SourceLines(sources[0], probe) + OutputLines(sources[1..], probe)
  }

  function NatLines(c: Config, interface: Interface): seq<Line> {
    [["iifname", Quote(c.interface), "meta", "nfproto", "ipv4", "oifname", Quote(interface), "masquerade"]]
  }

  const END: Line := ["}"]

  function Block(header: Line, rules: seq<Line>): seq<Line> {
    [header] + rules + [END]
  }

  function TranslationBlock(c: Config, interface: Option<Interface>): seq<Line> {
    if interface.None? then [] else Block(Header("postrouting", "nat", "srcnat;"), NatLines(c, interface.value))
  }

  function Body(c: Config, p: Policy): seq<Line>
    requires ConfigOk(c)
  {
    Block(Header("forward", "filter", "-200;"), ForwardLines(c, p.interface)) +
    (Block(Header("input", "filter", "-200;"), InputLines(c)) +
     (Block(Header("output", "filter", "0;"), OutputLines(p.sources, p.probe)) +
      (TranslationBlock(c, p.interface) + [END, [""]])))
  }

  const OPENING: seq<Line> := [["destroy", "table", "inet", TABLE], ["table", "inet", TABLE, "{"]]

  function Glue(lines: seq<Line>): seq<string> {
    if lines == [] then [] else [Join(lines[0], ' ')] + Glue(lines[1..])
  }

  /** The text loaded into nft. */
  function GuardPayload(c: Config, p: Policy): string
    requires ConfigOk(c)
  {
    Join(Glue(OPENING + Body(c, p)), '\n')
  }

  // ----- The reader -----

  function Unglue(texts: seq<string>): seq<Line> {
    if texts == [] then [] else [Split(texts[0], ' ')] + Unglue(texts[1..])
  }

  function Unquote(s: string): Option<string> {
    if |s| >= 2 && s[0] == '"' && s[|s| - 1] == '"' then Some(s[1..|s| - 1]) else None
  }

  function ReadNetwork(s: string): Option<Right> {
    var parts := Split(s, '/');
    if |parts| == 1 && Address(s).Some? then Some(Word(s))
    else if |parts| == 2 && Address(parts[0]).Some? && Number(parts[1]).Some? then
      Some(Prefix(parts[0], Number(parts[1]).value))
    else None
  }

  function Cons(e: Expr, rest: Option<seq<Expr>>): Option<seq<Expr>> {
    if rest.None? then None else Some([e] + rest.value)
  }

  /** The expressions of one rule, from word `i` on. */
  function ReadRule(w: Line, i: nat): Option<seq<Expr>>
    requires i <= |w|
    decreases |w| - i
  {
    if i + 1 == |w| then
      if w[i] == "drop" then Some([Drop])
      else if w[i] == "accept" then Some([Accept])
      else if w[i] == "masquerade" then Some([Masquerade])
      else None
    else if i + 2 < |w| && (w[i] == "iifname" || w[i] == "oifname") && Unquote(w[i + 1]).Some? then
      Cons(Is(Meta(w[i]), Word(Unquote(w[i + 1]).value)), ReadRule(w, i + 2))
    else if i + 3 < |w| && w[i] == "meta" && w[i + 1] == "nfproto" then
      Cons(Is(Meta("nfproto"), Word(w[i + 2])), ReadRule(w, i + 3))
    else if i + 3 < |w| && w[i] == "ip" && w[i + 1] == "saddr" && ReadNetwork(w[i + 2]).Some? then
      Cons(Is(Payload("ip", "saddr"), ReadNetwork(w[i + 2]).value), ReadRule(w, i + 3))
    else if i + 3 < |w| && (w[i] == "udp" || w[i] == "tcp") && w[i + 1] == "dport" && Number(w[i + 2]).Some? then
      Cons(Is(Payload(w[i], "dport"), Port(Number(w[i + 2]).value)), ReadRule(w, i + 3))
    else None
  }

  function ReadPriority(s: string): Option<int> {
    if s == "-200;" then Some(-200) else if s == "0;" then Some(0) else if s == "srcnat;" then Some(100) else None
  }

  function ReadHeader(w: Line): Option<Object> {
    if |w| == 11 && w[0] == "chain" && w[2] == "{" && w[3] == "type" && w[5] == "hook" && w[7] == "priority" &&
       ReadPriority(w[8]).Some? && w[9] == "policy" && w[10] == "accept;"
    then Some(Chain("inet", TABLE, w[1], w[4], w[6], ReadPriority(w[8]).value, "accept"))
    else None
  }

  function Declare(o: Object, rest: Option<seq<Object>>): Option<seq<Object>> {
    if rest.None? then None else Some([o] + rest.value)
  }

  /** The objects a table body declares; `chain` is the chain being filled, if one is open. */
  function Load(lines: seq<Line>, chain: Option<string>): Option<seq<Object>> {
    if lines == [] then None
    else if lines[0] == END then
      if chain.Some? then Load(lines[1..], None)
      else if lines[1..] == [[""]] then Some([])
      else None
    else if chain.None? then
      var header := ReadHeader(lines[0]);
      if header.None? then None else Declare(header.value, Load(lines[1..], Some(header.value.name)))
    else
      var rule := ReadRule(lines[0], 0);
      if rule.None? then None
      else Declare(Rule("inet", TABLE, chain.value, rule.value), Load(lines[1..], chain))
  }

  /** What nft holds after loading a payload. */
  function LoadText(s: string): Option<seq<Object>> {
    var lines := Unglue(Split(s, '\n'));
    if OPENING <= lines then
      Declare(Table("inet", TABLE), Load(lines[|OPENING|..], None))
    else None
  }

  // ----- Reading undoes printing -----

  predicate Clean(w: string) {
    Free(w, ' ') && Free(w, '\n')
  }

  predicate CleanLine(l: Line) {
    |l| > 0 && forall i | 0 <= i < |l| :: Clean(l[i])
  }

  predicate CleanLines(ls: seq<Line>) {
    forall i | 0 <= i < |ls| :: CleanLine(ls[i])
  }

  lemma {:induction false} GlueReads(ls: seq<Line>)
    requires CleanLines(ls)
    ensures Unglue(Glue(ls)) == ls && |Glue(ls)| == |ls|
    ensures forall t | t in Glue(ls) :: Free(t, '\n')
  {
    if ls != [] {
      assert forall w | w in ls[0] :: Clean(w);
      SplitJoin(ls[0], ' ');
      JoinFree(ls[0], ' ', '\n');
      GlueReads(ls[1..]);
    }
  }

  lemma TextReads(ls: seq<Line>)
    requires CleanLines(ls) && ls != []
    ensures Unglue(Split(Join(Glue(ls), '\n'), '\n')) == ls
  {
    GlueReads(ls);
    SplitJoin(Glue(ls), '\n');
  }

  lemma WordsClean()
    ensures Clean("destroy") && Clean("table") && Clean("inet") && Clean(TABLE) && Clean("{") && Clean("}") && Clean("")
  {
  }

  lemma HeaderWordsClean()
    ensures Clean("chain") && Clean("type") && Clean("filter") && Clean("nat") && Clean("hook") && Clean("priority")
    ensures Clean("-200;") && Clean("0;") && Clean("srcnat;") && Clean("policy") && Clean("accept;")
  {
  }

  lemma HookWordsClean()
    ensures Clean("forward") && Clean("input") && Clean("output") && Clean("postrouting")
  {
  }

  lemma RuleWordsClean()
    ensures Clean("iifname") && Clean("oifname") && Clean("meta") && Clean("nfproto") && Clean("ipv4")
    ensures Clean("ip") && Clean("saddr") && Clean("udp") && Clean("tcp") && Clean("dport") && Clean("53")
    ensures Clean("drop") && Clean("accept") && Clean("masquerade")
  {
  }

  lemma HeaderClean(name: string, kind: string, priority: string)
    requires Clean(name) && Clean(kind) && Clean(priority)
    ensures CleanLine(Header(name, kind, priority))
  {
    HeaderWordsClean();
    WordsClean();
  }

  lemma QuoteReads(w: string)
    requires Clean(w)
    ensures Clean(Quote(w)) && Unquote(Quote(w)) == Some(w)
  {
    assert Quote(w)[1..|Quote(w)| - 1] == w;
  }

  lemma SubnetReads(s: Subnet)
    requires s.base < ADDRESSES
    ensures Clean(SubnetText(s)) && ReadNetwork(SubnetText(s)) == Some(Prefix(Dotted(s.base), s.prefix))
  {
    var parts := [Dotted(s.base), Decimal(s.prefix)];
    DottedReads(s.base);
    DecimalReads(s.prefix);
    SplitJoin(parts, '/');
    JoinFree(parts, '/', ' ');
    JoinFree(parts, '/', '\n');
  }

  lemma AddressReads(a: string)
    requires Address(a).Some?
    ensures Clean(a) && ReadNetwork(a) == Some(Word(a))
  {
    DottedReads(Address(a).value);
    CutWord(a, '/');
  }

  // ----- Reading a rule word by word -----

  lemma ReadVerdict(w: Line, i: nat)
    requires i + 1 == |w|
    ensures w[i] == "drop" ==> ReadRule(w, i) == Some([Drop])
    ensures w[i] == "accept" ==> ReadRule(w, i) == Some([Accept])
    ensures w[i] == "masquerade" ==> ReadRule(w, i) == Some([Masquerade])
  {
  }

  lemma ReadInterface(w: Line, i: nat, interface: Interface)
    requires i + 2 < |w| && (w[i] == "iifname" || w[i] == "oifname") && w[i + 1] == Quote(interface) && Clean(interface)
    ensures ReadRule(w, i) == Cons(Is(Meta(w[i]), Word(interface)), ReadRule(w, i + 2))
  {
    QuoteReads(interface);
  }

  lemma ReadFamily(w: Line, i: nat)
    requires i + 3 < |w| && w[i] == "meta" && w[i + 1] == "nfproto" && w[i + 2] == "ipv4"
    ensures ReadRule(w, i) == Cons(OverIpv4(), ReadRule(w, i + 3))
  {
  }

  lemma ReadSource(w: Line, i: nat)
    requires i + 3 < |w| && w[i] == "ip" && w[i + 1] == "saddr" && ReadNetwork(w[i + 2]).Some?
    ensures ReadRule(w, i) == Cons(Is(Payload("ip", "saddr"), ReadNetwork(w[i + 2]).value), ReadRule(w, i + 3))
  {
  }

  lemma ReadPort(w: Line, i: nat)
    requires i + 3 < |w| && (w[i] == "udp" || w[i] == "tcp") && w[i + 1] == "dport" && w[i + 2] == "53"
    ensures ReadRule(w, i) == Cons(ToPort(w[i]), ReadRule(w, i + 3))
  {
    assert Number("53") == Some(53) by {
      assert "53"[..1] == "5";
    }
  }

  lemma Two(a: Expr, b: Expr)
    ensures Cons(a, Some([b])) == Some([a, b])
  {
    assert [a] + [b] == [a, b];
  }

  lemma Three(a: Expr, b: Expr, d: Expr)
    ensures Cons(a, Cons(b, Some([d]))) == Some([a, b, d])
  {
    Two(b, d);
    assert [a] + [b, d] == [a, b, d];
  }

  lemma Four(a: Expr, b: Expr, d: Expr, e: Expr)
    ensures Cons(a, Cons(b, Cons(d, Some([e])))) == Some([a, b, d, e])
  {
    Three(b, d, e);
    assert [a] + [b, d, e] == [a, b, d, e];
  }

  /** One printed line is the expected rule. */
  ghost predicate RuleReads(line: Line, rule: seq<Expr>) {
    CleanLine(line) && |line| > 1 && ReadRule(line, 0) == Some(rule)
  }

  lemma DropReads(c: Config)
    requires ConfigOk(c)
    ensures RuleReads(["iifname", Quote(c.interface), "drop"], [FromIngress(c), Drop])
  {
    hide Clean, ReadRule, ReadNetwork, SubnetText, Address;
    var w := ["iifname", Quote(c.interface), "drop"];
    RuleWordsClean();
    QuoteReads(c.interface);
    ReadInterface(w, 0, c.interface);
    ReadVerdict(w, 2);
    Two(FromIngress(c), Drop);
  }

  lemma SourceDropReads(address: string, right: Right)
    requires Clean(address) && ReadNetwork(address) == Some(right)
    ensures RuleReads(["ip", "saddr", address, "drop"], [Is(Payload("ip", "saddr"), right), Drop])
  {
    hide Clean, ReadRule, ReadNetwork, SubnetText, Address;
    var w := ["ip", "saddr", address, "drop"];
    RuleWordsClean();
    ReadSource(w, 0);
    ReadVerdict(w, 3);
    Two(Is(Payload("ip", "saddr"), right), Drop);
  }

  lemma SourceAcceptReads(address: string, interface: Interface)
    requires Address(address).Some? && Clean(interface)
    ensures RuleReads(["ip", "saddr", address, "oifname", Quote(interface), "accept"],
                      [FromSource(address), Leaving(interface), Accept])
  {
    hide Clean, ReadRule, ReadNetwork, SubnetText, Address;
    var w := ["ip", "saddr", address, "oifname", Quote(interface), "accept"];
    RuleWordsClean();
    AddressReads(address);
    QuoteReads(interface);
    ReadVerdict(w, 5);
    ReadInterface(w, 3, interface);
    ReadSource(w, 0);
    Three(FromSource(address), Leaving(interface), Accept);
  }

  lemma OpenReads(c: Config, interface: Interface, verdict: string, e: Expr)
    requires ConfigOk(c) && Clean(interface)
    requires (verdict == "accept" && e == Accept) || (verdict == "masquerade" && e == Masquerade)
    ensures RuleReads(["iifname", Quote(c.interface), "meta", "nfproto", "ipv4", "oifname", Quote(interface), verdict],
                      [FromIngress(c), OverIpv4(), Leaving(interface), e])
  {
    hide Clean, ReadRule, ReadNetwork, SubnetText, Address;
    var w := ["iifname", Quote(c.interface), "meta", "nfproto", "ipv4", "oifname", Quote(interface), verdict];
    RuleWordsClean();
    QuoteReads(c.interface);
    QuoteReads(interface);
    ReadVerdict(w, 7);
    ReadInterface(w, 5, interface);
    ReadFamily(w, 2);
    ReadInterface(w, 0, c.interface);
    Four(FromIngress(c), OverIpv4(), Leaving(interface), e);
  }

  lemma PortReads(c: Config, protocol: string)
    requires ConfigOk(c) && (protocol == "udp" || protocol == "tcp")
    ensures RuleReads(["iifname", Quote(c.interface), protocol, "dport", "53", "drop"],
                      [FromIngress(c), ToPort(protocol), Drop])
  {
    hide Clean, ReadRule, ReadNetwork, SubnetText, Address;
    var w := ["iifname", Quote(c.interface), protocol, "dport", "53", "drop"];
    RuleWordsClean();
    QuoteReads(c.interface);
    ReadVerdict(w, 5);
    ReadPort(w, 2);
    ReadInterface(w, 0, c.interface);
    Three(FromIngress(c), ToPort(protocol), Drop);
  }

  lemma SubnetPortReads(c: Config, protocol: string)
    requires ConfigOk(c) && (protocol == "udp" || protocol == "tcp")
    ensures RuleReads(["ip", "saddr", SubnetText(c.subnet), protocol, "dport", "53", "drop"],
                      [FromSubnet(c), ToPort(protocol), Drop])
  {
    hide Clean, ReadRule, ReadNetwork, SubnetText, Address;
    var w := ["ip", "saddr", SubnetText(c.subnet), protocol, "dport", "53", "drop"];
    RuleWordsClean();
    SubnetReads(c.subnet);
    ReadVerdict(w, 6);
    ReadPort(w, 3);
    ReadSource(w, 0);
    Three(FromSubnet(c), ToPort(protocol), Drop);
  }
}
