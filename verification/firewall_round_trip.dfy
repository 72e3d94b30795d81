/** The printed table, the demanded objects and the recognizer agree: loading what is printed yields an
    exact listing, and recognising an exact listing yields the sources it was printed for. */
module FirewallRoundTrip {
  import opened Options
  import opened Net
  import opened Text
  import opened Firewall
  import opened FirewallText
  import opened FirewallMeaning

  // ----- Every printed rule is the expected one -----

  ghost predicate Reads(lines: seq<Line>, rules: seq<seq<Expr>>) {
    |lines| == |rules| && forall i | 0 <= i < |lines| :: RuleReads(lines[i], rules[i])
  }

  lemma ReadsAppend(l: seq<Line>, r: seq<seq<Expr>>, m: seq<Line>, s: seq<seq<Expr>>)
    requires Reads(l, r) && Reads(m, s)
    ensures Reads(l + m, r + s)
  {
  }

  predicate Printable(p: Policy) {
    && (p.interface.Some? ==> Clean(p.interface.value))
    && (p.probe.Some? ==> Clean(p.probe.value))
    && (forall a | a in p.sources :: Address(a).Some?)
  }

  lemma ForwardReads(c: Config, interface: Option<Interface>)
    requires ConfigOk(c) && (interface.Some? ==> Clean(interface.value))
    ensures Reads(ForwardLines(c, interface), ForwardRules(c, interface))
  {
    hide RuleReads, SubnetText, Quote, Clean, FromIngress;
    var blocks := [["iifname", Quote(c.interface), "drop"], ["ip", "saddr", SubnetText(c.subnet), "drop"]];
    DropReads(c);
    SubnetReads(c.subnet);
    SourceDropReads(SubnetText(c.subnet), Prefix(Dotted(c.subnet.base), c.subnet.prefix));
    assert Reads(blocks, [[FromIngress(c), Drop], [FromSubnet(c), Drop]]);
    if interface.Some? {
      OpenReads(c, interface.value, "accept", Accept);
    }
  }

  lemma InputReads(c: Config)
    requires ConfigOk(c)
    ensures Reads(InputLines(c), InputRules(c))
  {
    hide RuleReads, SubnetText, Quote, FromIngress, FromSubnet, ConfigOk;
    PortReads(c, "udp");
    PortReads(c, "tcp");
    SubnetPortReads(c, "udp");
    SubnetPortReads(c, "tcp");
  }

  lemma SourceReads(a: string, probe: Option<Interface>)
    requires Address(a).Some? && (probe.Some? ==> Clean(probe.value))
    ensures Reads(SourceLines(a, probe), SourceRules(a, probe))
  {
    AddressReads(a);
    SourceDropReads(a, Word(a));
    if probe.Some? {
      SourceAcceptReads(a, probe.value);
    }
  }

  lemma {:induction false} OutputReads(sources: seq<string>, probe: Option<Interface>)
    requires (forall a | a in sources :: Address(a).Some?) && (probe.Some? ==> Clean(probe.value))
    ensures Reads(OutputLines(sources, probe), OutputRules(sources, probe))
  {
    if sources != [] {
      SourceReads(sources[0], probe);
      OutputReads(sources[1..], probe);
      ReadsAppend(SourceLines(sources[0], probe), SourceRules(sources[0], probe),
                  OutputLines(sources[1..], probe), OutputRules(sources[1..], probe));
    }
  }

  // ----- Loading chain by chain -----

  function BlockObjects(s: ChainSpec): seq<Object> {
    [ChainObject(s)] + RuleObjects(TABLE, s.name, s.rules)
  }

  function Listed(specs: seq<ChainSpec>): seq<Object> {
    if specs == [] then [] else BlockObjects(specs[0]) + Listed(specs[1..])
  }

  lemma {:induction false} LoadRules(lines: seq<Line>, rules: seq<seq<Expr>>, chain: string, rest: seq<Line>)
    requires Reads(lines, rules) && Load(rest, None).Some?
    ensures Load(lines + [END] + rest, Some(chain)) == Some(RuleObjects(TABLE, chain, rules) + Load(rest, None).value)
  {
    var all := lines + [END] + rest;
    if lines == [] {
      assert all[0] == END && all[1..] == rest;
      assert RuleObjects(TABLE, chain, rules) + Load(rest, None).value == Load(rest, None).value;
    } else {
      assert all[0] == lines[0] && all[1..] == lines[1..] + [END] + rest;
      assert RuleReads(lines[0], rules[0]) && lines[0] != END;
      LoadRules(lines[1..], rules[1..], chain, rest);
      var o := Rule("inet", TABLE, chain, rules[0]);
      assert [o] + (RuleObjects(TABLE, chain, rules[1..]) + Load(rest, None).value) ==
             RuleObjects(TABLE, chain, rules) + Load(rest, None).value;
    }
  }

  lemma HeaderReads(s: ChainSpec, priority: string)
    requires ReadPriority(priority) == Some(s.priority)
    ensures ReadHeader(Header(s.name, s.kind, priority)) == Some(ChainObject(s))
    ensures Header(s.name, s.kind, priority) != END
  {
    assert |Header(s.name, s.kind, priority)| == 11;
  }

  lemma LoadHeader(header: Line, o: Object, rest: seq<Line>)
    requires header != END && ReadHeader(header) == Some(o)
    ensures Load([header] + rest, None) == Declare(o, Load(rest, Some(o.name)))
  {
    assert ([header] + rest)[1..] == rest;
  }

  lemma LoadBlock(s: ChainSpec, priority: string, lines: seq<Line>, rest: seq<Line>)
    requires ReadPriority(priority) == Some(s.priority)
    requires Reads(lines, s.rules) && Load(rest, None).Some?
    ensures Load(Block(Header(s.name, s.kind, priority), lines) + rest, None) ==
            Some(BlockObjects(s) + Load(rest, None).value)
  {
    var header := Header(s.name, s.kind, priority);
    HeaderReads(s, priority);
    LoadHeader(header, ChainObject(s), lines + [END] + rest);
    LoadRules(lines, s.rules, s.name, rest);
    assert Block(header, lines) + rest == [header] + (lines + [END] + rest);
    assert [ChainObject(s)] + (RuleObjects(TABLE, s.name, s.rules) + Load(rest, None).value) ==
           BlockObjects(s) + Load(rest, None).value;
  }

  lemma {:induction false} LineClean(ls: seq<Line>, ms: seq<Line>)
    requires CleanLines(ls) && CleanLines(ms)
    ensures CleanLines(ls + ms)
  {
    forall i | 0 <= i < |ls + ms|
      ensures CleanLine((ls + ms)[i])
    {
      assert (ls + ms)[i] == if i < |ls| then ls[i] else ms[i - |ls|];
    }
  }

  lemma BlockClean(name: string, kind: string, priority: string, lines: seq<Line>, rules: seq<seq<Expr>>)
    requires Clean(name) && Clean(kind) && Clean(priority) && Reads(lines, rules)
    ensures CleanLines(Block(Header(name, kind, priority), lines))
  {
    HeaderClean(name, kind, priority);
    WordsClean();
    assert forall i | 0 <= i < |lines| :: RuleReads(lines[i], rules[i]);
    LineClean([Header(name, kind, priority)], lines);
    LineClean([Header(name, kind, priority)] + lines, [END]);
  }

  /** Putting one more chain in front of a readable body. */
  lemma BlockLoads(s: ChainSpec, priority: string, lines: seq<Line>, rest: seq<Line>, specs: seq<ChainSpec>)
    requires ReadPriority(priority) == Some(s.priority) && Reads(lines, s.rules)
    requires Clean(s.name) && Clean(s.kind) && Clean(priority)
    requires CleanLines(rest) && Load(rest, None) == Some(Listed(specs))
    ensures var all := Block(Header(s.name, s.kind, priority), lines) + rest;
            CleanLines(all) && Load(all, None) == Some(Listed([s] + specs))
  {
    BlockClean(s.name, s.kind, priority, lines, s.rules);
    LoadBlock(s, priority, lines, rest);
    LineClean(Block(Header(s.name, s.kind, priority), lines), rest);
    assert ([s] + specs)[1..] == specs;
  }

  lemma EndLoads()
    ensures CleanLines([END, [""]]) && Load([END, [""]], None) == Some(Listed([]))
  {
    WordsClean();
    assert [END, [""]][1..] == [[""]];
  }

  lemma TailLoads(c: Config, p: Policy)
    requires ConfigOk(c) && Printable(p)
    ensures var tail := TranslationBlock(c, p.interface) + [END, [""]];
            CleanLines(tail) && Load(tail, None) == Some(Listed(Expected(c, p)[3..]))
  {
    EndLoads();
    if p.interface.Some? {
      var s, lines := Expected(c, p)[3], NatLines(c, p.interface.value);
      OpenReads(c, p.interface.value, "masquerade", Masquerade);
      assert Reads(lines, s.rules);
      HeaderWordsClean();
      HookWordsClean();
      BlockLoads(s, "srcnat;", lines, [END, [""]], []);
      assert Expected(c, p)[3..] == [s] + [];
    } else {
      assert TranslationBlock(c, p.interface) + [END, [""]] == [END, [""]];
      assert Expected(c, p)[3..] == [];
    }
  }

  /** The printed body declares the expected chains with the expected rules, in order. */
  lemma BodyLoads(c: Config, p: Policy)
    requires ConfigOk(c) && Printable(p)
    ensures CleanLines(Body(c, p)) && Load(Body(c, p), None) == Some(Listed(Expected(c, p)))
  {
    hide Load, CleanLines, OutputLines, InputLines, ForwardLines, TranslationBlock, Reads;
    hide OutputRules, InputRules, ForwardRules, Listed, Clean;
    var e := Expected(c, p);
    var tail := TranslationBlock(c, p.interface) + [END, [""]];
    var output := Block(Header("output", "filter", "0;"), OutputLines(p.sources, p.probe)) + tail;
    var input := Block(Header("input", "filter", "-200;"), InputLines(c)) + output;
    HeaderWordsClean();
    HookWordsClean();
    TailLoads(c, p);
    OutputReads(p.sources, p.probe);
    BlockLoads(e[2], "0;", OutputLines(p.sources, p.probe), tail, e[3..]);
    InputReads(c);
    assert [e[2]] + e[3..] == e[2..];
    BlockLoads(e[1], "-200;", InputLines(c), output, e[2..]);
    ForwardReads(c, p.interface);
    assert [e[1]] + e[2..] == e[1..];
    BlockLoads(e[0], "-200;", ForwardLines(c, p.interface), input, e[1..]);
    assert [e[0]] + e[1..] == e;
  }

  /** Loading the printed text yields the expected objects, for every ingress, provider and source list. */
  lemma PrintedLoads(c: Config, p: Policy)
    requires ConfigOk(c) && Printable(p)
    ensures LoadText(GuardPayload(c, p)) == Some([Table("inet", TABLE)] + Listed(Expected(c, p)))
  {
    hide Body, Listed, Expected, Clean, ConfigOk, Printable;
    BodyLoads(c, p);
    WordsClean();
    assert CleanLines(OPENING);
    LineClean(OPENING, Body(c, p));
    TextReads(OPENING + Body(c, p));
    assert (OPENING + Body(c, p))[|OPENING|..] == Body(c, p);
  }

  // ----- The printed table is exact -----

  lemma {:induction false} RuleObjectsListed(table: string, chain: string, rules: seq<seq<Expr>>, name: string)
    ensures var d := RuleObjects(table, chain, rules);
            && (forall o | o in d :: o.Rule? && o.family == "inet" && o.table == table)
            && ChainsNamed(d, name) == [] && Chains(d) == [] && |Rules(d)| == |rules|
            && RulesIn(d, name) == (if name == chain then d else [])
            && Exprs(d) == rules
  {
    if rules != [] {
      RuleObjectsListed(table, chain, rules[1..], name);
      assert RuleObjects(table, chain, rules)[1..] == RuleObjects(table, chain, rules[1..]);
    }
  }

  lemma SelectStep(o: Object, d: seq<Object>, k: Pick)
    ensures Select([o] + d, k) == (if Picked(o, k) then [o] else []) + Select(d, k)
  {
    assert ([o] + d)[1..] == d;
  }

  lemma {:induction false} SelectAppend(d: seq<Object>, e: seq<Object>, k: Pick)
    ensures Select(d + e, k) == Select(d, k) + Select(e, k)
  {
    hide Picked;
    if d == [] {
      assert d + e == e;
    } else {
      SelectAppend(d[1..], e, k);
      SelectStep(d[0], d[1..] + e, k);
      SelectStep(d[0], d[1..], k);
      assert d + e == [d[0]] + (d[1..] + e) && d == [d[0]] + d[1..];
    }
  }

  lemma {:induction false} SelectNone(d: seq<Object>, k: Pick)
    requires forall o | o in d :: !Picked(o, k)
    ensures Select(d, k) == []
  {
    if d != [] {
      SelectNone(d[1..], k);
    }
  }

  lemma ListingAppend(d: seq<Object>, e: seq<Object>, name: string)
    ensures Chains(d + e) == Chains(d) + Chains(e) && Rules(d + e) == Rules(d) + Rules(e)
    ensures ChainsNamed(d + e, name) == ChainsNamed(d, name) + ChainsNamed(e, name)
    ensures RulesIn(d + e, name) == RulesIn(d, name) + RulesIn(e, name)
  {
    SelectAppend(d, e, AnyChain);
    SelectAppend(d, e, AnyRule);
    SelectAppend(d, e, ChainNamed(name));
    SelectAppend(d, e, RuleOf(name));
  }

  lemma BlockListed(s: ChainSpec, name: string)
    ensures var d := BlockObjects(s);
            && (forall o | o in d :: o.Rule? || o.Chain?)
            && |Chains(d)| == 1 && |Rules(d)| == |s.rules|
            && ChainsNamed(d, name) == (if name == s.name then [ChainObject(s)] else [])
            && RulesIn(d, name) == (if name == s.name then RuleObjects(TABLE, s.name, s.rules) else [])
  {
    RuleObjectsListed(TABLE, s.name, s.rules, name);
    assert BlockObjects(s)[1..] == RuleObjects(TABLE, s.name, s.rules);
  }

  predicate NamesDiffer(specs: seq<ChainSpec>) {
    forall i, j | 0 <= i < j < |specs| :: specs[i].name != specs[j].name
  }

  ghost predicate Named(specs: seq<ChainSpec>, name: string) {
    exists i :: 0 <= i < |specs| && specs[i].name == name
  }

  lemma {:induction false} SpecsListed(specs: seq<ChainSpec>, name: string)
    requires NamesDiffer(specs)
    ensures var d := Listed(specs);
            && (forall o | o in d :: o.Rule? || o.Chain?)
            && |Chains(d)| == |specs| && |Rules(d)| == RuleCount(specs)
            && (!Named(specs, name) ==> ChainsNamed(d, name) == [] && RulesIn(d, name) == [])
            && (forall s | s in specs && s.name == name ::
                  ChainsNamed(d, name) == [ChainObject(s)] && RulesIn(d, name) == RuleObjects(TABLE, name, s.rules))
  {
    if specs != [] {
      var rest := specs[1..];
      BlockListed(specs[0], name);
      SpecsListed(rest, name);
      ListingAppend(BlockObjects(specs[0]), Listed(rest), name);
      assert Named(specs, name) <==> specs[0].name == name || Named(rest, name);
    }
  }

  lemma ExpectedNamesDiffer(c: Config, p: Policy)
    requires ConfigOk(c)
    ensures NamesDiffer(Expected(c, p))
  {
    assert |"forward"| == 7 && |"input"| == 5 && |"output"| == 6 && |"postrouting"| == 11;
  }

  /** A leading table object selects nothing. */
  lemma TableSkipped(d: seq<Object>, name: string)
    ensures var t := [Table("inet", TABLE)] + d;
            && Chains(t) == Chains(d) && Rules(t) == Rules(d)
            && ChainsNamed(t, name) == ChainsNamed(d, name) && RulesIn(t, name) == RulesIn(d, name)
  {
    assert ([Table("inet", TABLE)] + d)[1..] == d;
  }

  lemma TableListed(specs: seq<ChainSpec>, s: ChainSpec)
    requires NamesDiffer(specs)
    ensures var d := [Table("inet", TABLE)] + Listed(specs);
            && (forall o | o in d :: !o.Alien? && (o.Table? ==> o == Table("inet", TABLE)))
            && |Chains(d)| == |specs| && |Rules(d)| == RuleCount(specs)
            && (s in specs ==> ChainExact(d, s))
  {
    SpecsListed(specs, s.name);
    TableSkipped(Listed(specs), s.name);
    RuleObjectsListed(TABLE, s.name, s.rules, s.name);
  }

  /** The expected objects are exactly what the recognition of their policy demands. */
  lemma ListingExact(c: Config, p: Policy)
    requires ConfigOk(c) && Consistent(p)
    ensures Exact([Table("inet", TABLE)] + Listed(Expected(c, p)), c, p)
  {
    var e := Expected(c, p);
    ExpectedNamesDiffer(c, p);
    TableListed(e, e[0]);
    forall s | s in e
      ensures ChainExact([Table("inet", TABLE)] + Listed(e), s)
    {
      TableListed(e, s);
    }
  }

  // ----- A listing determines its policy -----

  lemma {:induction false} OutputRulesDetermine(s: seq<string>, p: Option<Interface>,
                                                t: seq<string>, q: Option<Interface>)
    requires OutputRules(s, p) == OutputRules(t, q)
    ensures s == t && (s != [] ==> p == q)
  {
    if s != [] && t != [] {
      var a, b := SourceRules(s[0], p), SourceRules(t[0], q);
      var l := OutputRules(s, p);
      assert l[0] == a[0] && l[0] == b[0];
      assert FromSource(s[0]) == a[0][0] == b[0][0] == FromSource(t[0]);
      assert |a[0]| == (if p.Some? then 3 else 2) && |b[0]| == (if q.Some? then 3 else 2);
      if p.Some? {
        assert Leaving(p.value) == a[0][1] == b[0][1] == Leaving(q.value);
      }
      assert a == b;
      assert l[|a|..] == OutputRules(s[1..], p) == OutputRules(t[1..], q);
      OutputRulesDetermine(s[1..], p, t[1..], q);
      assert s == [s[0]] + s[1..] && t == [t[0]] + t[1..];
    }
  }

  lemma ForwardRulesDetermine(c: Config, i: Option<Interface>, d: Config, j: Option<Interface>)
    requires ConfigOk(c) && ConfigOk(d) && ForwardRules(c, i) == ForwardRules(d, j)
    ensures c == d && i == j
  {
    var l, m := ForwardRules(c, i), ForwardRules(d, j);
    assert |l| == (if i.Some? then 3 else 2) && |m| == (if j.Some? then 3 else 2);
    assert l[|l| - 2] == m[|l| - 2] && l[|l| - 1] == m[|l| - 1];
    assert FromIngress(c) == l[|l| - 2][0] == FromIngress(d);
    assert FromSubnet(c) == l[|l| - 1][0] == FromSubnet(d);
    DottedReads(c.subnet.base);
    DottedReads(d.subnet.base);
    if i.Some? {
      assert Leaving(i.value) == l[0][2] == m[0][2] == Leaving(j.value);
    }
  }

  /** The table printed for one ingress and policy passes the check for another only if they grant the same. */
  lemma ListingDetermines(c: Config, p: Policy, d: Config, q: Policy)
    requires ConfigOk(c) && ConfigOk(d)
    ensures Exact([Table("inet", TABLE)] + Listed(Expected(c, p)), d, q) <==>
            Consistent(q) && c == d && p.interface == q.interface && p.sources == q.sources &&
            (p.probe == q.probe || p.sources == [])
  {
    var data := [Table("inet", TABLE)] + Listed(Expected(c, p));
    var e, f := Expected(c, p), Expected(d, q);
    ExpectedNamesDiffer(c, p);
    if Exact(data, d, q) {
      assert f[0] in f && f[2] in f && e[0] in e && e[2] in e;
      assert ChainExact(data, f[0]) && ChainExact(data, f[2]);
      TableListed(e, e[0]);
      TableListed(e, e[2]);
      ForwardRulesDetermine(c, p.interface, d, q.interface);
      OutputRulesDetermine(p.sources, p.probe, q.sources, q.probe);
    }
    if Consistent(q) && c == d && p.interface == q.interface && p.sources == q.sources {
      if p.probe == q.probe || p.sources == [] {
        assert OutputRules(p.sources, p.probe) == OutputRules(q.sources, q.probe);
        assert e == f;
        ListingExact(d, q);
      }
    }
  }
}
