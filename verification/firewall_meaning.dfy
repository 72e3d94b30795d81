/** What an exactly recognised provider table does to packets, hook by hook. */
module FirewallMeaning {
  import opened Options
  import opened Net
  import opened Text
  import opened Firewall

  // ----- An exact listing has no other chain -----

  function Others(data: seq<Object>): seq<Object> {
    if data == [] then []
    else
      (if data[0].Chain? && data[0].name !in {"forward", "input", "output", "postrouting"} then [data[0]] else []) +
      Others(data[1..])
  }

  lemma {:induction false} ChainCount(data: seq<Object>)
    ensures |Chains(data)| == |ChainsNamed(data, "forward")| + |ChainsNamed(data, "input")| +
                              |ChainsNamed(data, "output")| + |ChainsNamed(data, "postrouting")| + |Others(data)|
  {
    if data != [] {
      ChainCount(data[1..]);
      assert "input" != "forward" && "input"[0] != "output"[0];
    }
  }

  lemma {:induction false} OtherListed(data: seq<Object>, o: Object)
    requires o in data && o.Chain? && o.name !in {"forward", "input", "output", "postrouting"}
    ensures o in Others(data)
  {
    if data[0] != o {
      OtherListed(data[1..], o);
    }
  }

  function ChainObject(s: ChainSpec): Object {
    Chain("inet", TABLE, s.name, s.kind, s.name, s.priority, "accept")
  }

  /** The chains of an exact listing are the expected ones. */
  lemma OnlyExpected(data: seq<Object>, c: Config, p: Policy, o: Object)
    requires ConfigOk(c) && Exact(data, c, p) && o in data && o.Chain?
    ensures exists s :: s in Expected(c, p) && o == ChainObject(s)
  {
    var e := Expected(c, p);
    ChainCount(data);
    assert o in ChainsNamed(data, o.name);
    assert e[0] in e && e[1] in e && e[2] in e;
    assert ChainExact(data, e[0]) && ChainExact(data, e[1]) && ChainExact(data, e[2]);
    if p.interface.Some? {
      assert e[3] in e && ChainExact(data, e[3]);
    }
    assert |Others(data)| == 0;
    if o.name == "forward" {
      assert o == ChainObject(e[0]);
    } else if o.name == "input" {
      assert o == ChainObject(e[1]);
    } else if o.name == "output" {
      assert o == ChainObject(e[2]);
    } else if o.name == "postrouting" {
      assert o == ChainObject(e[3]);
    } else {
      OtherListed(data, o);
    }
  }

  /** On each hook an exact listing decides by the expected rules of that chain alone. */
  lemma HookDecides(data: seq<Object>, c: Config, p: Policy, i: nat, k: Packet)
    requires ConfigOk(c) && Exact(data, c, p) && i < |Expected(c, p)|
    ensures var s := Expected(c, p)[i]; Crosses(data, s.name, k) <==> !FirstMatch(s.rules, k, "accept").Dropped?
  {
    var e := Expected(c, p);
    var s := e[i];
    assert s in e && ChainExact(data, s);
    assert ChainObject(s) in ChainsNamed(data, s.name);
    forall o | o in data && o.Chain? && o.hook == s.name
      ensures o == ChainObject(s)
    {
      OnlyExpected(data, c, p, o);
    }
  }

  // ----- Evaluating short rules -----

  lemma OneCondition(a: Expr, v: Expr, k: Packet)
    requires a.Match?
    ensures RuleVerdict([a, v], k) == if Matches(a, k) then RuleVerdict([v], k) else NoVerdict
  {
    assert [a, v][1..] == [v];
  }

  lemma TwoConditions(a: Expr, b: Expr, v: Expr, k: Packet)
    requires a.Match? && b.Match?
    ensures RuleVerdict([a, b, v], k) == if Matches(a, k) && Matches(b, k) then RuleVerdict([v], k) else NoVerdict
  {
    assert [a, b, v][1..] == [b, v];
    OneCondition(b, v, k);
  }

  lemma ThreeConditions(a: Expr, b: Expr, d: Expr, v: Expr, k: Packet)
    requires a.Match? && b.Match? && d.Match?
    ensures RuleVerdict([a, b, d, v], k) ==
            if Matches(a, k) && Matches(b, k) && Matches(d, k) then RuleVerdict([v], k) else NoVerdict
  {
    assert [a, b, d, v][1..] == [b, d, v];
    TwoConditions(b, d, v, k);
  }

  lemma Verdicts(k: Packet)
    ensures RuleVerdict([Drop], k) == Dropped && RuleVerdict([Accept], k) == Passed
    ensures RuleVerdict([Masquerade], k) == Masqueraded
  {
  }

  lemma {:induction false} FirstMatchAppend(r: seq<seq<Expr>>, s: seq<seq<Expr>>, k: Packet, policy: string)
    ensures FirstMatch([], k, policy) == if policy == "drop" then Dropped else Passed
    ensures r != [] ==>
              FirstMatch(r + s, k, policy) ==
              if RuleVerdict(r[0], k).NoVerdict? then FirstMatch(r[1..] + s, k, policy) else RuleVerdict(r[0], k)
  {
    if r != [] {
      assert (r + s)[1..] == r[1..] + s;
    }
  }

  lemma SelectorMeaning(c: Config, k: Packet)
    requires ConfigOk(c)
    ensures Matches(FromIngress(c), k) <==> k.iif == c.interface
    ensures Matches(FromSubnet(c), k) <==> k.ipv4 && InSubnet(k.source, c.subnet)
    ensures Matches(OverIpv4(), k) <==> k.ipv4
    ensures Matches(ToPort("udp"), k) <==> k.protocol.Udp? && k.port == 53
    ensures Matches(ToPort("tcp"), k) <==> k.protocol.Tcp? && k.port == 53
    ensures forall i: Interface :: Matches(Leaving(i), k) <==> k.oif == i
    ensures forall s: string :: Matches(FromSource(s), k) <==> k.ipv4 && Address(s) == Some(k.source)
  {
    DottedReads(c.subnet.base);
    assert "iifname"[0] != "oifname"[0] && "nfproto"[0] != "iifname"[0] && "udp"[0] != "tcp"[0];
  }

  // ----- The four hooks -----

  predicate FromProtected(c: Config, k: Packet) {
    k.iif == c.interface || (k.ipv4 && InSubnet(k.source, c.subnet))
  }

  /** Forwarding: a packet of the protected interface crosses only over IPv4 into the opened provider; any
      other packet with a protected source does not cross; the rest is not concerned. */
  lemma ForwardMeaning(data: seq<Object>, c: Config, p: Policy, k: Packet)
    requires ConfigOk(c) && Exact(data, c, p)
    ensures Crosses(data, "forward", k) <==>
            if k.iif == c.interface then k.ipv4 && p.interface == Some(k.oif)
            else !(k.ipv4 && InSubnet(k.source, c.subnet))
  {
    HookDecides(data, c, p, 0, k);
    SelectorMeaning(c, k);
    Verdicts(k);
    OneCondition(FromIngress(c), Drop, k);
    OneCondition(FromSubnet(c), Drop, k);
    var blocks := [[FromIngress(c), Drop], [FromSubnet(c), Drop]];
    assert blocks[1..] == [[FromSubnet(c), Drop]];
    FirstMatchAppend(blocks, [], k, "accept");
    FirstMatchAppend(blocks[1..], [], k, "accept");
    assert blocks + [] == blocks && blocks[1..] + [] == blocks[1..] && blocks[1..][1..] + [] == [];
    if p.interface.Some? {
      ThreeConditions(FromIngress(c), OverIpv4(), Leaving(p.interface.value), Accept, k);
      var open := [[FromIngress(c), OverIpv4(), Leaving(p.interface.value), Accept]];
      FirstMatchAppend(open, blocks, k, "accept");
      assert open[1..] + blocks == blocks;
    }
  }

  /** Input: DNS from a protected interface or source never reaches the host. */
  lemma InputMeaning(data: seq<Object>, c: Config, p: Policy, k: Packet)
    requires ConfigOk(c) && Exact(data, c, p)
    ensures Crosses(data, "input", k) <==> !(FromProtected(c, k) && !k.protocol.OtherProtocol? && k.port == 53)
  {
    HookDecides(data, c, p, 1, k);
    SelectorMeaning(c, k);
    Verdicts(k);
    TwoConditions(FromIngress(c), ToPort("udp"), Drop, k);
    TwoConditions(FromIngress(c), ToPort("tcp"), Drop, k);
    TwoConditions(FromSubnet(c), ToPort("udp"), Drop, k);
    TwoConditions(FromSubnet(c), ToPort("tcp"), Drop, k);
    var rules := InputRules(c);
    FirstMatchAppend(rules, [], k, "accept");
    FirstMatchAppend(rules[1..], [], k, "accept");
    FirstMatchAppend(rules[2..], [], k, "accept");
    FirstMatchAppend(rules[3..], [], k, "accept");
    assert rules + [] == rules && rules[1..] + [] == rules[1..];
    assert rules[1..][1..] + [] == rules[2..] + [] && rules[2..][1..] + [] == rules[3..] + [];
    assert rules[3..][1..] + [] == [];
  }

  ghost predicate Guarded(sources: seq<string>, source: nat) {
    exists s :: s in sources && Address(s) == Some(source)
  }

  lemma {:induction false} OutputRulesMeaning(c: Config, sources: seq<string>, probe: Option<Interface>, k: Packet)
    requires ConfigOk(c)
    ensures FirstMatch(OutputRules(sources, probe), k, "accept").Dropped? <==>
            k.ipv4 && Guarded(sources, k.source) && probe != Some(k.oif)
  {
    FirstMatchAppend([], [], k, "accept");
    if sources != [] {
      var a, rest := sources[0], OutputRules(sources[1..], probe);
      OutputRulesMeaning(c, sources[1..], probe, k);
      SelectorMeaning(c, k);
      Verdicts(k);
      OneCondition(FromSource(a), Drop, k);
      var drop := [[FromSource(a), Drop]];
      FirstMatchAppend(drop, rest, k, "accept");
      assert drop[1..] + rest == rest;
      if probe.Some? {
        TwoConditions(FromSource(a), Leaving(probe.value), Accept, k);
        var both := SourceRules(a, probe);
        FirstMatchAppend(both, rest, k, "accept");
        assert both[1..] == drop;
      }
      assert Guarded(sources, k.source) <==> Address(a) == Some(k.source) || Guarded(sources[1..], k.source);
    }
  }

  /** Output: a packet from a registered provider source leaves by the probed provider interface or not at all. */
  lemma OutputMeaning(data: seq<Object>, c: Config, p: Policy, k: Packet)
    requires ConfigOk(c) && Exact(data, c, p)
    ensures Crosses(data, "output", k) <==> (k.ipv4 && Guarded(p.sources, k.source) ==> p.probe == Some(k.oif))
  {
    HookDecides(data, c, p, 2, k);
    OutputRulesMeaning(c, p.sources, p.probe, k);
  }

  /** Translation: exactly what may be forwarded into the opened provider is masqueraded. */
  lemma NatMeaning(data: seq<Object>, c: Config, p: Policy, k: Packet)
    requires ConfigOk(c) && Exact(data, c, p)
    ensures Translated(data, k) <==> k.iif == c.interface && k.ipv4 && p.interface == Some(k.oif)
  {
    var e := Expected(c, p);
    forall o | o in data && o.Chain? && o.kind == "nat"
      ensures p.interface.Some? && o == ChainObject(e[3])
    {
      OnlyExpected(data, c, p, o);
      assert "nat" != "filter";
    }
    if p.interface.Some? {
      var s := e[3];
      assert s in e && ChainExact(data, s);
      assert ChainObject(s) in ChainsNamed(data, s.name);
      SelectorMeaning(c, k);
      Verdicts(k);
      ThreeConditions(FromIngress(c), OverIpv4(), Leaving(p.interface.value), Masquerade, k);
      FirstMatchAppend(s.rules, [], k, "accept");
      assert s.rules + [] == s.rules && s.rules[1..] + [] == [];
    }
  }
}
