/** Recognition of an earlier provider table at startup: the source addresses are inferred from the output
    chain and the whole listing is then compared with every policy they could belong to. */
module FirewallRecognition {
  import opened Options
  import opened Net
  import opened Text
  import opened Firewall
  import opened FirewallText
  import opened FirewallMeaning
  import opened FirewallRoundTrip

  const SOURCE_BUDGET: nat := 64
  const INTERFACES: seq<Option<Interface>> := [None, Some("wg-mullvad"), Some("wg-pia"), Some("wg-proton")]

  /** An address a provider may use: not "this network", loopback, link-local, multicast or reserved. */
  predicate Usable(a: nat) {
    a / 0x100_0000 != 0 && a / 0x100_0000 != 127 && a / 0x1_0000 != 0xA9FE && a / 0x100_0000 < 224
  }

  predicate Allowed(text: string) {
    Address(text).Some? && Usable(Address(text).value)
  }

  /** A policy the lifecycle can write. */
  predicate Writable(p: Policy) {
    && Consistent(p)
    && Ascending(p.sources)
    && |p.sources| <= SOURCE_BUDGET
    && forall a | a in p.sources :: Allowed(a)
  }

  /** The listing is the exact table of some policy with these sources. */
  ghost predicate Recognised(data: seq<Object>, c: Config, sources: seq<string>)
    requires ConfigOk(c)
  {
    exists p: Policy :: Writable(p) && p.sources == sources && Exact(data, c, p)
  }

  /** The source an output rule is for, when it has the one shape recognition admits. */
  function RuleSource(o: Object): (a: Option<string>)
    requires o.Rule?
    ensures a.Some? <==> exists s :: Allowed(s) && o.expr != [] && o.expr[0] == FromSource(s)
    ensures a.Some? ==> Allowed(a.value) && o.expr != [] && o.expr[0] == FromSource(a.value)
  {
    if o.expr != [] && o.expr[0].Match? && o.expr[0].op == "==" && o.expr[0].left == Payload("ip", "saddr") &&
       o.expr[0].right.Word? && Allowed(o.expr[0].right.text)
    then
      assert o.expr[0] == FromSource(o.expr[0].right.text);
      Some(o.expr[0].right.text)
    else None
  }

  // ----- The output chain of an exact listing names its sources -----

  lemma {:induction false} OutputRulesSources(sources: seq<string>, probe: Option<Interface>)
    ensures forall r | r in OutputRules(sources, probe) :: r != [] && exists a :: a in sources && r[0] == FromSource(a)
    ensures forall a | a in sources :: [FromSource(a), Drop] in OutputRules(sources, probe)
  {
    if sources != [] {
      var first, rest := SourceRules(sources[0], probe), OutputRules(sources[1..], probe);
      OutputRulesSources(sources[1..], probe);
      assert sources[0] in sources && forall a | a in sources[1..] :: a in sources;
      assert forall r | r in first :: r != [] && r[0] == FromSource(sources[0]);
      assert [FromSource(sources[0]), Drop] == first[|first| - 1];
      assert forall a | a in sources :: a == sources[0] || a in sources[1..];
    }
  }

  lemma {:induction false} ExprsMember(rules: seq<Object>, e: seq<Expr>)
    requires forall r | r in rules :: r.Rule?
    ensures e in Exprs(rules) <==> exists r :: r in rules && r.expr == e
  {
    if rules != [] {
      ExprsMember(rules[1..], e);
      assert forall r | r in rules :: r == rules[0] || r in rules[1..];
      assert rules[0] in rules && forall r | r in rules[1..] :: r in rules;
    }
  }

  ghost predicate NamesSource(o: Object, a: string) {
    o.Rule? && o.chain == "output" && RuleSource(o) == Some(a)
  }

  /** In an exact listing the output rules name exactly the policy's sources. */
  lemma SourcesNamed(data: seq<Object>, c: Config, p: Policy)
    requires ConfigOk(c) && Writable(p) && Exact(data, c, p)
    ensures forall o | o in data && o.Rule? && o.chain == "output" ::
              RuleSource(o).Some? && RuleSource(o).value in p.sources
    ensures forall a | a in p.sources :: exists o :: o in data && NamesSource(o, a)
  {
    var s := Expected(c, p)[2];
    assert s in Expected(c, p) && ChainExact(data, s);
    OutputRulesSources(p.sources, p.probe);
    forall o | o in data && o.Rule? && o.chain == "output"
      ensures RuleSource(o).Some? && RuleSource(o).value in p.sources
    {
      ExprsMember(RulesIn(data, "output"), o.expr);
      assert o in RulesIn(data, "output");
      assert o.expr in OutputRules(p.sources, p.probe);
    }
    forall a | a in p.sources
      ensures exists o :: o in data && NamesSource(o, a)
    {
      ExprsMember(RulesIn(data, "output"), [FromSource(a), Drop]);
      var o :| o in RulesIn(data, "output") && o.expr == [FromSource(a), Drop];
      assert NamesSource(o, a);
    }
  }

  /** An ascending list of the named sources is the policy's own list. */
  lemma SourcesInferred(data: seq<Object>, c: Config, p: Policy, sources: seq<string>)
    requires ConfigOk(c) && Writable(p) && Exact(data, c, p)
    requires Ascending(sources) && forall a :: a in sources <==> exists o :: o in data && NamesSource(o, a)
    ensures sources == p.sources
  {
    SourcesNamed(data, c, p);
    AscendingUnique(sources, p.sources);
  }

  /** A listing has at most one list of sources to be recognised with. */
  lemma RecognitionUnique(data: seq<Object>, c: Config, s: seq<string>, t: seq<string>)
    requires ConfigOk(c) && Recognised(data, c, s) && Recognised(data, c, t)
    ensures s == t
  {
    var p :| Writable(p) && p.sources == s && Exact(data, c, p);
    var q :| Writable(q) && q.sources == t && Exact(data, c, q);
    SourcesNamed(data, c, p);
    SourcesNamed(data, c, q);
    AscendingUnique(s, t);
  }

  /** Every policy that can be written is recognised from its own printed text, with its own sources. */
  lemma PrintedRecognised(c: Config, p: Policy)
    requires ConfigOk(c) && Writable(p)
    ensures LoadText(GuardPayload(c, p)).Some?
    ensures Exact(LoadText(GuardPayload(c, p)).value, c, p)
    ensures Recognised(LoadText(GuardPayload(c, p)).value, c, p.sources)
  {
    ProvidersClean();
    PrintedLoads(c, p);
    ListingExact(c, p);
  }

  lemma ProvidersClean()
    ensures forall i | i in PROVIDERS :: Clean(i)
  {
    assert Clean("wg-mullvad") && Clean("wg-pia") && Clean("wg-proton");
  }

  // ----- The recognizer -----

  ghost predicate NamedWithin(data: seq<Object>, n: nat, a: string)
    requires n <= |data|
  {
    exists j :: 0 <= j < n && NamesSource(data[j], a)
  }

  lemma NamedStep(data: seq<Object>, n: nat, a: string)
    requires n < |data|
    ensures NamedWithin(data, n + 1, a) <==> NamedWithin(data, n, a) || NamesSource(data[n], a)
  {
  }

  /** Collects the sources the output rules name, in order and once each. */
  method InferSources(data: seq<Object>) returns (r: Option<seq<string>>)
    ensures r.Some? ==> Ascending(r.value) && (forall a | a in r.value :: Allowed(a))
    ensures r.Some? ==> forall a :: a in r.value <==> exists o :: o in data && NamesSource(o, a)
    ensures r.None? <==> exists o :: o in data && o.Rule? && o.chain == "output" && RuleSource(o).None?
  {
    var sources: seq<string> := [];
    for i := 0 to |data|
      invariant Ascending(sources) && (forall a | a in sources :: Allowed(a))
      invariant forall a :: a in sources <==> NamedWithin(data, i, a)
      invariant forall o | o in data[..i] && o.Rule? && o.chain == "output" :: RuleSource(o).Some?
    {
      forall a: string {
        NamedStep(data, i, a);
      }
      assert data[..i + 1] == data[..i] + [data[i]];
      if data[i].Rule? && data[i].chain == "output" {
        var a := RuleSource(data[i]);
        if a.None? {
          return None;
        }
        sources := Insert(a.value, sources);
      }
    }
    assert data[..|data|] == data;
    return Some(sources);
  }

  /** Startup's check of an earlier table: it is accepted exactly when it is the table of a policy the
      lifecycle can write, and the sources adopted are that policy's. */
  method ValidatePreviousPolicy(data: seq<Object>, c: Config) returns (r: Option<seq<string>>)
    requires ConfigOk(c)
    ensures r.Some? ==> Recognised(data, c, r.value)
    ensures r.None? ==> forall s :: !Recognised(data, c, s)
  {
    hide Exact, Allowed, NamesSource;
    var inferred := InferSources(data);
    if inferred.None? || |inferred.value| > SOURCE_BUDGET {
      NotRecognised(data, c, inferred);
      return None;
    }
    var sources := inferred.value;
    for i := 0 to |INTERFACES|
      invariant forall a, b | 0 <= a < i && 0 <= b < |INTERFACES| ::
                  !Exact(data, c, Policy(INTERFACES[a], sources, INTERFACES[b]))
    {
      for j := 0 to |INTERFACES|
        invariant forall b | 0 <= b < j :: !Exact(data, c, Policy(INTERFACES[i], sources, INTERFACES[b]))
      {
        if Exact(data, c, Policy(INTERFACES[i], sources, INTERFACES[j])) {
          ExactIsWritable(data, c, Policy(INTERFACES[i], sources, INTERFACES[j]));
          return Some(sources);
        }
      }
    }
    NoneExact(data, c, sources);
    return None;
  }

  lemma ExactIsWritable(data: seq<Object>, c: Config, p: Policy)
    requires ConfigOk(c) && Exact(data, c, p)
    requires Ascending(p.sources) && |p.sources| <= SOURCE_BUDGET && forall a | a in p.sources :: Allowed(a)
    ensures Writable(p)
  {
  }

  lemma NotRecognised(data: seq<Object>, c: Config, inferred: Option<seq<string>>)
    requires ConfigOk(c)
    requires match inferred
             case None => exists o :: o in data && o.Rule? && o.chain == "output" && RuleSource(o).None?
             case Some(sources) =>
               && |sources| > SOURCE_BUDGET && Ascending(sources)
               && forall a :: a in sources <==> exists o :: o in data && NamesSource(o, a)
    ensures forall s :: !Recognised(data, c, s)
  {
    forall p: Policy | Writable(p)
      ensures !Exact(data, c, p)
    {
      if Exact(data, c, p) {
        SourcesNamed(data, c, p);
        if inferred.Some? {
          SourcesInferred(data, c, p, inferred.value);
        }
      }
    }
  }

  lemma PolicyTried(data: seq<Object>, c: Config, p: Policy, sources: seq<string>)
    requires ConfigOk(c) && Writable(p) && Exact(data, c, p)
    requires Ascending(sources) && forall a :: a in sources <==> exists o :: o in data && NamesSource(o, a)
    ensures exists a, b | 0 <= a < |INTERFACES| && 0 <= b < |INTERFACES| ::
              p == Policy(INTERFACES[a], sources, INTERFACES[b])
  {
    SourcesInferred(data, c, p, sources);
    var a := Place(p.interface);
    var b := Place(p.probe);
    assert p == Policy(INTERFACES[a], sources, INTERFACES[b]);
  }

  lemma NoneExact(data: seq<Object>, c: Config, sources: seq<string>)
    requires ConfigOk(c) && Ascending(sources)
    requires forall a :: a in sources <==> exists o :: o in data && NamesSource(o, a)
    requires forall a, b | 0 <= a < |INTERFACES| && 0 <= b < |INTERFACES| ::
               !Exact(data, c, Policy(INTERFACES[a], sources, INTERFACES[b]))
    ensures forall s :: !Recognised(data, c, s)
  {
    forall p: Policy | Writable(p)
      ensures !Exact(data, c, p)
    {
      if Exact(data, c, p) {
        PolicyTried(data, c, p, sources);
      }
    }
  }

  lemma Place(interface: Option<Interface>) returns (i: nat)
    requires interface.Some? ==> interface.value in PROVIDERS
    ensures i < |INTERFACES| && INTERFACES[i] == interface
  {
    i := if interface.None? then 0
         else if interface.value == "wg-mullvad" then 1
         else if interface.value == "wg-pia" then 2
         else 3;
  }
}
