/** The maintenance guard: an independent table that only drops, armed over every ingress identity a
    recovery may touch. Models backend/exitlane/container_maintenance.py. */
module MaintenanceGuard {
  import opened Options
  import opened Net
  import opened Text
  import opened Firewall
  import FirewallText
  import FirewallMeaning
  import FirewallRoundTrip

  const MAINTENANCE_TABLE := "exitlane_recovery_guard"

  predicate IdentityOk(id: Identity) {
    id.subnet.base < ADDRESSES && id.subnet.prefix <= 31
  }

  predicate AllOk(ids: set<Identity>) {
    forall id | id in ids :: IdentityOk(id)
  }

  // ----- The order of identities in the table -----

  predicate Earlier(a: Identity, b: Identity)
    requires IdentityOk(a) && IdentityOk(b)
  {
    Before(a.interface, b.interface) ||
    (a.interface == b.interface && Before(FirewallText.SubnetText(a.subnet), FirewallText.SubnetText(b.subnet)))
  }

  lemma EarlierTotal(a: Identity, b: Identity)
    requires IdentityOk(a) && IdentityOk(b)
    ensures a == b || Earlier(a, b) || Earlier(b, a)
    ensures !(Earlier(a, b) && Earlier(b, a)) && !Earlier(a, a)
  {
    BeforeTotal(a.interface, b.interface);
    BeforeTotal(FirewallText.SubnetText(a.subnet), FirewallText.SubnetText(b.subnet));
    FirewallText.SubnetReads(a.subnet);
    FirewallText.SubnetReads(b.subnet);
    DottedReads(a.subnet.base);
    DottedReads(b.subnet.base);
  }

  lemma EarlierTransitive(a: Identity, b: Identity, c: Identity)
    requires IdentityOk(a) && IdentityOk(b) && IdentityOk(c) && Earlier(a, b) && Earlier(b, c)
    ensures Earlier(a, c)
  {
    if Before(a.interface, b.interface) && Before(b.interface, c.interface) {
      BeforeTransitive(a.interface, b.interface, c.interface);
    } else if a.interface == b.interface == c.interface {
      BeforeTransitive(FirewallText.SubnetText(a.subnet), FirewallText.SubnetText(b.subnet),
                       FirewallText.SubnetText(c.subnet));
    }
  }

  predicate First(ids: set<Identity>, a: Identity)
    requires AllOk(ids)
  {
    a in ids && forall b | b in ids :: b == a || Earlier(a, b)
  }

  lemma {:induction false} FirstExists(ids: set<Identity>)
    requires AllOk(ids) && ids != {}
    ensures exists a :: First(ids, a)
    decreases |ids|
  {
    var x :| x in ids;
    var rest := ids - {x};
    assert ids == rest + {x};
    if rest == {} {
      assert First(ids, x);
    } else {
      FirstExists(rest);
      var a :| First(rest, a);
      EarlierTotal(a, x);
      if Earlier(a, x) {
        assert First(ids, a);
      } else {
        forall b | b in ids
          ensures b == x || Earlier(x, b)
        {
          if b != x && b != a {
            EarlierTransitive(x, a, b);
          }
        }
        assert First(ids, x);
      }
    }
  }

  lemma FirstUnique(ids: set<Identity>, a: Identity, b: Identity)
    requires AllOk(ids) && First(ids, a) && First(ids, b)
    ensures a == b
  {
    EarlierTotal(a, b);
  }

  /** The identities in their order. */
  function Canonical(ids: set<Identity>): (r: seq<Identity>)
    requires AllOk(ids)
    ensures forall id :: id in r <==> id in ids
    decreases |ids|
  {
    if ids == {} then []
    else
      FirstExists(ids);
      assert forall a, b | First(ids, a) && First(ids, b) :: a == b by {
        forall a, b | First(ids, a) && First(ids, b)
          ensures a == b
        {
          FirstUnique(ids, a, b);
        }
      }
      var a :| a in ids && First(ids, a);
      [a] + Canonical(ids - {a})
  }

  // ----- The table -----

  function FromInterface(id: Identity): seq<Expr> {
    [Is(Meta("iifname"), Word(id.interface)), Drop]
  }

  function FromAddresses(id: Identity): seq<Expr>
    requires IdentityOk(id)
  {
    [Is(Payload("ip", "saddr"), Prefix(Dotted(id.subnet.base), id.subnet.prefix)), Drop]
  }

  /** The rules of one chain: its own output has no ingress interface to match. */
  function ChainRules(chain: string, ids: seq<Identity>): seq<seq<Expr>>
    requires forall id | id in ids :: IdentityOk(id)
  {
    if ids == [] then []
    else
      (if chain == "output" then [] else [FromInterface(ids[0])]) + [FromAddresses(ids[0])] +
      ChainRules(chain, ids[1..])
  }

  function BaseChain(name: string, policy: string): Object {
    Chain("inet", MAINTENANCE_TABLE, name, "filter", name, -300, policy)
  }

  function Declarations(open: bool): seq<Object> {
    [Table("inet", MAINTENANCE_TABLE), BaseChain("forward", if open then "accept" else "drop"),
     BaseChain("input", "accept"), BaseChain("output", "accept")]
  }

  function RulesFor(chain: string, ids: set<Identity>): seq<Object>
    requires AllOk(ids)
  {
    RuleObjects(MAINTENANCE_TABLE, chain, ChainRules(chain, Canonical(ids)))
  }

  /** The whole table, declarations ahead of rules. */
  function Objects(ids: set<Identity>): seq<Object>
    requires AllOk(ids)
  {
    Declarations(ids != {}) + (RulesFor("forward", ids) + (RulesFor("input", ids) + RulesFor("output", ids)))
  }

  // ----- What it does to packets -----

  predicate OfAddresses(id: Identity, k: Packet) {
    k.ipv4 && InSubnet(k.source, id.subnet)
  }

  /** The packet carries the identity, as far as the hook can see. */
  predicate Carries(hook: string, id: Identity, k: Packet) {
    (hook != "output" && k.iif == id.interface) || OfAddresses(id, k)
  }

  lemma IdentityRules(id: Identity, k: Packet)
    requires IdentityOk(id)
    ensures RuleVerdict(FromInterface(id), k) == if k.iif == id.interface then Dropped else NoVerdict
    ensures RuleVerdict(FromAddresses(id), k) == if OfAddresses(id, k) then Dropped else NoVerdict
  {
    var c := Config(id.interface, id.subnet);
    FirewallMeaning.Verdicts(k);
    FirewallMeaning.OneCondition(FromIngress(c), Drop, k);
    FirewallMeaning.OneCondition(FromSubnet(c), Drop, k);
    DottedReads(id.subnet.base);
    assert "iifname"[0] != "oifname"[0] && "nfproto"[0] != "iifname"[0];
  }

  lemma {:induction false} ChainRulesMeaning(hook: string, ids: seq<Identity>, k: Packet, policy: string)
    requires forall id | id in ids :: IdentityOk(id)
    ensures FirstMatch(ChainRules(hook, ids), k, policy).Dropped? <==>
            policy == "drop" || exists id | id in ids :: Carries(hook, id, k)
  {
    if ids != [] {
      var rest := ChainRules(hook, ids[1..]);
      ChainRulesMeaning(hook, ids[1..], k, policy);
      IdentityRules(ids[0], k);
      FirewallMeaning.FirstMatchAppend([FromAddresses(ids[0])], rest, k, policy);
      assert [FromAddresses(ids[0])][1..] + rest == rest;
      if hook != "output" {
        var tail := [FromAddresses(ids[0])] + rest;
        FirewallMeaning.FirstMatchAppend([FromInterface(ids[0])], tail, k, policy);
        assert [FromInterface(ids[0])][1..] + tail == tail;
        assert ChainRules(hook, ids) == [FromInterface(ids[0])] + tail;
      } else {
        assert ChainRules(hook, ids) == [FromAddresses(ids[0])] + rest;
      }
      assert forall id | id in ids :: id == ids[0] || id in ids[1..];
      assert ids[0] in ids && forall id | id in ids[1..] :: id in ids;
    }
  }

  predicate IsHook(hook: string) {
    hook == "forward" || hook == "input" || hook == "output"
  }

  lemma RulesForListed(chain: string, ids: set<Identity>, hook: string)
    requires AllOk(ids)
    ensures forall o | o in RulesFor(chain, ids) :: o.Rule?
    ensures RulesIn(RulesFor(chain, ids), hook) == if hook == chain then RulesFor(chain, ids) else []
    ensures Exprs(RulesFor(chain, ids)) == ChainRules(chain, Canonical(ids))
  {
    hide Canonical;
    FirewallRoundTrip.RuleObjectsListed(MAINTENANCE_TABLE, chain, ChainRules(chain, Canonical(ids)), hook);
  }

  lemma DeclarationsListed(open: bool, hook: string)
    requires IsHook(hook)
    ensures RulesIn(Declarations(open), hook) == []
    ensures forall o | o in Declarations(open) && o.Chain? && o.hook == hook ::
              o == BaseChain(hook, if hook == "forward" && !open then "drop" else "accept")
    ensures BaseChain(hook, if hook == "forward" && !open then "drop" else "accept") in Declarations(open)
  {
    hide Select;
    var d := Declarations(open);
    assert |"forward"| == 7 && |"input"| == 5 && |"output"| == 6;
    assert d[1] in d && d[2] in d && d[3] in d;
    FirewallRoundTrip.SelectNone(d, RuleOf(hook));
  }

  lemma TableListed(ids: set<Identity>, hook: string)
    requires AllOk(ids) && IsHook(hook)
    ensures Exprs(RulesIn(Objects(ids), hook)) == ChainRules(hook, Canonical(ids))
    ensures forall o | o in Objects(ids) && o.Chain? && o.hook == hook ::
              o == BaseChain(hook, if hook == "forward" && ids == {} then "drop" else "accept")
    ensures BaseChain(hook, if hook == "forward" && ids == {} then "drop" else "accept") in Objects(ids)
  {
    hide Canonical, ChainRules, RulesFor, Declarations, Select, BaseChain, AllOk, Exprs;
    var d, f := Declarations(ids != {}), RulesFor("forward", ids);
    var i, o := RulesFor("input", ids), RulesFor("output", ids);
    DeclarationsListed(ids != {}, hook);
    RulesForListed("forward", ids, hook);
    RulesForListed("input", ids, hook);
    RulesForListed("output", ids, hook);
    FirewallRoundTrip.SelectAppend(d, f + (i + o), RuleOf(hook));
    FirewallRoundTrip.SelectAppend(f, i + o, RuleOf(hook));
    FirewallRoundTrip.SelectAppend(i, o, RuleOf(hook));
    assert RulesIn(Objects(ids), hook) == RulesFor(hook, ids);
  }

  /** A packet crosses a hook of the table exactly when it carries no armed identity; with none armed, nothing
      is forwarded. */
  lemma MaintenanceMeaning(ids: set<Identity>, hook: string, k: Packet)
    requires AllOk(ids) && IsHook(hook)
    ensures Crosses(Objects(ids), hook, k) <==>
            !(hook == "forward" && ids == {}) && forall id | id in ids :: !Carries(hook, id, k)
  {
    hide Canonical, ChainRules, Objects;
    TableListed(ids, hook);
    ChainRulesMeaning(hook, Canonical(ids), k, if hook == "forward" && ids == {} then "drop" else "accept");
  }

  /** With both tables loaded a packet must cross the chains of both. */
  predicate Forwarded(provider: seq<Object>, maintenance: seq<Object>, k: Packet) {
    Crosses(provider, "forward", k) && Crosses(maintenance, "forward", k)
  }

  /** Whatever the provider table accepts, no packet of an armed interface or subnet is forwarded; and with
      no identity armed, none at all. */
  lemma MaintenanceDominates(provider: seq<Object>, ids: set<Identity>, k: Packet)
    requires AllOk(ids)
    requires ids == {} || exists id | id in ids :: k.iif == id.interface || OfAddresses(id, k)
    ensures !Forwarded(provider, Objects(ids), k)
  {
    MaintenanceMeaning(ids, "forward", k);
  }

  /** More identities drop more, on every hook, as long as the smaller set was not empty. */
  lemma MoreDropsMore(ids: set<Identity>, more: set<Identity>, hook: string, k: Packet)
    requires AllOk(more) && ids <= more && ids != {} && IsHook(hook) && Crosses(Objects(more), hook, k)
    ensures Crosses(Objects(ids), hook, k)
  {
    MaintenanceMeaning(ids, hook, k);
    MaintenanceMeaning(more, hook, k);
  }

  /** Every packet of these identities is dropped, whatever the provider table accepts. */
  ghost predicate Shut(table: Option<seq<Object>>, ids: set<Identity>) {
    table.Some? &&
    forall id: Identity, k: Packet, provider: seq<Object> |
      id in ids && (k.iif == id.interface || OfAddresses(id, k)) ::
      !Forwarded(provider, table.value, k)
  }

  lemma TableShuts(ids: set<Identity>, armed: set<Identity>)
    requires AllOk(ids) && armed <= ids
    ensures Shut(Some(Objects(ids)), armed)
  {
    forall id: Identity, k: Packet, provider: seq<Object> | id in armed && (k.iif == id.interface || OfAddresses(id, k))
      ensures !Forwarded(provider, Objects(ids), k)
    {
      MaintenanceDominates(provider, ids, k);
    }
  }

  /** Whatever crosses the new table crosses the old one. */
  ghost predicate Stricter(before: Option<seq<Object>>, after: Option<seq<Object>>) {
    before.Some? && after.Some? &&
    forall hook: string, k: Packet | IsHook(hook) && Crosses(after.value, hook, k) :: Crosses(before.value, hook, k)
  }

  lemma LargerIsStricter(held: set<Identity>, armed: set<Identity>, ids: set<Identity>)
    requires AllOk(held) && AllOk(ids) && held != {} && armed <= ids && Objects(held) == Objects(armed)
    ensures Stricter(Some(Objects(held)), Some(Objects(ids))) && ids != {}
  {
    hide Canonical, ChainRules, RulesFor;
    assert Objects(held)[1] == BaseChain("forward", "accept");
    assert Objects(armed)[1] == BaseChain("forward", if armed == {} then "drop" else "accept");
    assert |"drop"| != |"accept"|;
    forall hook: string, k: Packet | IsHook(hook) && Crosses(Objects(ids), hook, k)
      ensures Crosses(Objects(held), hook, k)
    {
      MoreDropsMore(armed, ids, hook, k);
    }
  }

  // ----- Arming and releasing -----

  datatype Fate = Works | Fails(effect: bool)

  class Guard {
    var identities: set<Identity>
    var active: bool
    var kernel: Option<seq<Object>>  // the table as nft lists it
    var fates: seq<Fate>
    ghost var held: set<Identity>    // the identities of the table last put in place
    ghost var dropped: bool          // a release was attempted since

    /** While armed the table in place covers every armed identity, unless a release that reported failure
        already removed it. */
    ghost predicate Valid()
      reads this
    {
      && AllOk(identities) && AllOk(held) && |identities| <= GUARD_BUDGET
      && (!active ==> identities == {})
      && (active && !dropped ==> identities <= held && kernel == Some(Objects(held)))
    }

    constructor (kernel: Option<seq<Object>>, fates: seq<Fate>)
      ensures Valid() && !active && this.kernel == kernel && this.fates == fates
    {
      identities, active := {}, false;
      this.kernel, this.fates := kernel, fates;
      held, dropped := {}, false;
    }

    method Take() returns (f: Fate)
      modifies this`fates
      ensures old(fates) == [] ==> f.Works? && fates == []
    {
      if fates == [] {
        f := Works;
      } else {
        f := fates[0];
        fates := fates[1..];
      }
    }

    /** Reads the table back; only the exact drop policy of these identities passes. */
    method Observe(ids: set<Identity>) returns (ok: bool)
      requires AllOk(ids)
      modifies this`fates
      ensures ok ==> kernel == Some(Objects(ids))
      ensures old(fates) == [] ==> fates == [] && (ok <==> kernel == Some(Objects(ids)))
    {
      var f := Take();
      ok := f.Works? && kernel == Some(Objects(ids));
    }

    /** Puts the table of more identities in place, in one nft transaction. */
    method Publish(ids: set<Identity>) returns (ok: bool)
      requires AllOk(ids) && |ids| <= GUARD_BUDGET && identities <= ids && Valid()
      requires active ==> (dropped || kernel == Some(Objects(identities)))
      modifies this`kernel, this`fates, this`held, this`identities, this`active, this`dropped
      ensures Valid()
      ensures (kernel == old(kernel) && held == old(held)) || (kernel == Some(Objects(ids)) && held == ids)
      ensures ok ==> active && identities == ids && kernel == Some(Objects(ids)) && held == ids && !dropped
      ensures !ok ==> active == old(active) && identities == old(identities) && dropped == old(dropped)
      ensures old(fates) == [] ==> ok && fates == []
    {
      hide Objects;
      var f := Take();
      if f.Fails? {
        return false;
      }
      f := Take();
      if f.Works? || f.effect {
        kernel := Some(Objects(ids));
        held := ids;
      }
      ok := f.Works?;
      if ok {
        identities, active, dropped := ids, true, false;
      }
    }

    /** Arms the guard over more identities; what is armed only grows. A failed extension leaves the old
        table or already the larger one. */
    method Arm(requested: seq<Identity>) returns (ok: bool)
      requires Valid() && forall id | id in requested :: IdentityOk(id)
      modifies this
      ensures Valid()
      ensures var ids := old(identities) + set id | id in requested;
              && (ok ==> active && !dropped && identities == ids && held == ids && kernel == Some(Objects(ids)))
              && (identities == old(identities) || identities == ids)
              && (kernel == old(kernel) || kernel == Some(Objects(ids)))
      ensures old(active) ==> active && old(identities) <= identities && (dropped ==> old(dropped))
      ensures old(active) && !old(dropped) && old(held) != {} ==> held != {} && Stricter(old(kernel), kernel)
      ensures var wanted := set id | id in requested;
              old(fates) == [] ==>
                (ok <==> && |requested| <= GUARD_BUDGET && |old(identities) + wanted| <= GUARD_BUDGET
                         && (old(kernel).Some? ==>
                               old(kernel) == Some(Objects(if old(active) then old(identities) else wanted))))
    {
      hide Objects, Crosses;
      if |requested| > GUARD_BUDGET {
        return false;
      }
      var wanted := set id | id in requested;
      var f := Take();
      if f.Fails? {
        return false;
      }
      if kernel.Some? {
        ok := Observe(if active then identities else wanted);
        if !ok {
          return;
        }
      }
      var ids := identities + wanted;
      if |ids| > GUARD_BUDGET {
        return false;
      }
      if active && !dropped && held != {} {
        LargerIsStricter(held, identities, ids);
      }
      ok := Publish(ids);
      if ok {
        ok := Observe(ids);
      }
    }

    /** Takes the guard away; it must first read back exactly as armed. */
    method Release() returns (ok: bool)
      requires Valid()
      modifies this
      ensures Valid()
      ensures ok ==> !active && identities == {} && kernel.None?
      ensures !ok ==> active == old(active) && identities == old(identities)
      ensures kernel == old(kernel) || (kernel.None? && old(active) && old(kernel) == Some(Objects(old(identities))))
      ensures !ok && kernel == old(kernel) ==> dropped == old(dropped)
      ensures old(fates) == [] ==> (ok <==> old(active) && old(kernel) == Some(Objects(old(identities))))
    {
      hide Objects;
      if !active {
        return false;
      }
      ok := Observe(identities);
      if !ok {
        return;
      }
      var f := Take();
      if f.Works? || f.effect {
        kernel := None;
        dropped := true;
      }
      ok := f.Works?;
      if ok {
        active, identities := false, {};
      }
    }

    /** From one successful arming on, over any further armings, failed or not, and until a release: every
        packet of every identity armed so far is dropped, whatever the provider table accepts. */
    method ArmMore(requests: seq<seq<Identity>>)
      requires Valid() && active && !dropped
      requires forall r, id | r in requests && id in r :: IdentityOk(id)
      modifies this
      ensures Valid() && active && !dropped && old(identities) <= identities
      ensures Shut(kernel, identities)
      ensures old(held) != {} ==> Stricter(old(kernel), kernel)
    {
      hide Objects, Crosses, Shut;
      for i := 0 to |requests|
        invariant Valid() && active && !dropped && old(identities) <= identities
        invariant old(held) != {} ==> held != {} && Stricter(old(kernel), kernel)
      {
        var _ := Arm(requests[i]);
      }
      TableShuts(held, identities);
    }
  }
}
