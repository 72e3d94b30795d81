/** Runs of the policy machine from a fresh process that open a table, and that leave it open behind a cache
    that says nothing: what the theorems about every run speak of does happen. */
module PolicyWitness {
  import opened Options
  import opened Net
  import opened Text
  import opened Firewall
  import opened FirewallRecognition
  import opened PolicyMachine
  import opened PolicyInvariant
  import opened PolicySafety
  import opened PolicyRuns

  type Schedule = seq<(nat, Action)>

  // ----- Schedules of one task, phase by phase -----

  function Passing(w: Schedule, t: nat, n: nat): Schedule {
    if n == 0 then w else Passing(w, t, n - 1) + [(t, Ends(Passes))]
  }

  /** Calls and gets the policy lock. */
  function Entering(w: Schedule, t: nat, call: Call): Schedule {
    w + [(t, Called(call))] + [(t, Acquires)]
  }

  function ArmRun(w: Schedule, t: nat): Schedule {
    Passing(Entering(w, t, ArmGuard), t, 5)
  }

  function StartRun(w: Schedule, t: nat, owner: nat, item: Item): Schedule {
    Passing(Entering(w, t, Start(owner, item)), t, 9) + [(t, Acquires)]
  }

  function ProbeRun(w: Schedule, t: nat, item: Item): Schedule {
    Passing(w + [(t, Called(Probe(item)))], t, 2) + [(t, Acquires)]
  }

  function CommitRun(w: Schedule, t: nat, item: Item): Schedule {
    Passing(Entering(w, t, CommitCall(item)), t, 5)
  }

  /** Arm, start, probe, commit, and nothing fails. */
  function OpeningRun(t: nat, owner: nat, item: Item): Schedule {
    CommitRun(ProbeRun(StartRun(ArmRun([], t), t, owner, item), t, item), t, item)
  }

  /** A probe fails; the table that should revoke the opening cannot be written, nor can the blocked one. */
  function LosingRun(w: Schedule, t: nat, item: Item): Schedule {
    Passing(w + [(t, Called(Probe(item)))] + [(t, Ends(Raises(Lifecycle, false)))] + [(t, Acquires)], t, 2)
    + [(t, Ends(Raises(Lifecycle, false)))] + [(t, Ends(Raises(Cancelled, false)))]
  }

  lemma RunStep(s: State, w: Schedule, t: nat, a: Action)
    ensures Run(s, w + [(t, a)]) == Step(Run(s, w), t, a)
  {
    hide Step;
    assert (w + [(t, a)])[..|w|] == w;
  }

  function Passed(s: State, t: nat, n: nat): State {
    if n == 0 then s else Pass(Passed(s, t, n - 1), t)
  }

  lemma {:induction false} RunPasses(s: State, w: Schedule, t: nat, n: nat)
    ensures Run(s, Passing(w, t, n)) == Passed(Run(s, w), t, n)
  {
    hide Run, Step;
    if n > 0 {
      RunPasses(s, w, t, n - 1);
      RunStep(s, Passing(w, t, n - 1), t, Ends(Passes));
    }
  }

  function Entered(s: State, t: nat, call: Call): State {
    Step(Step(s, t, Called(call)), t, Acquires)
  }

  lemma RunEnters(s: State, w: Schedule, t: nat, call: Call)
    ensures Run(s, Entering(w, t, call)) == Entered(Run(s, w), t, call)
  {
    hide Run, Step;
    RunStep(s, w, t, Called(call));
    RunStep(s, w + [(t, Called(call))], t, Acquires);
  }

  // ----- The phases -----

  /** Nothing is going on. */
  predicate Resting(s: State, t: nat) {
    Inv(s) && s.lock.None? && s.mutation.None? && (t in s.tasks ==> s.tasks[t].Done?)
  }

  lemma StepInv(s: State, t: nat, a: Action)
    requires Inv(s)
    ensures Inv(Step(s, t, a))
  {
    hide Inv, Step;
    StepKeeps(s, t, a);
  }

  /** The sources an arming adopts. */
  function Adopted(n: Network): seq<string> {
    if n.kernel.Holds? then n.kernel.policy.sources else n.sources
  }

  /** A table the arming process recognises, or none. */
  predicate Armable(n: Network) {
    !n.kernel.Foreign? && (n.kernel.Holds? ==> n.kernel.config == n.config)
  }

  lemma ArmEnters(s: State, t: nat)
    requires Resting(s, t)
    ensures var u := Entered(s, t, ArmGuard); At(u, t, Arming(ArmListing)) && u.net == s.net && Alone(u, t)
  {
    hide Inv;
    StepInv(s, t, Called(ArmGuard));
    StepInv(Step(s, t, Called(ArmGuard)), t, Acquires);
  }

  /** One undisturbed step of an arming. */
  lemma ArmPasses(s: State, t: nat, stage: ArmStage)
    requires At(s, t, Arming(stage)) && Alone(s, t) && Armable(s.net)
    ensures Pass(s, t) == Arm(s, t, stage, Passes) && Inv(Pass(s, t)) && Alone(Pass(s, t), t)
  {
    hide Inv, Forgotten, Blocked;
    StepInv(s, t, Ends(Passes));
  }

  /** The table in the kernel is the blocked one and the cache knows it. */
  predicate BlockedBy(s: State, t: nat, config: Config, sources: seq<string>) {
    && Resting(s, t) && Trusted(s)
    && s.net.config == config && s.net.sources == sources && s.net.kernel == Holds(config, Policy(None, sources, None))
    && s.net.interface.None? && s.net.probe.None? && s.net.committed.None?
  }

  lemma ArmFinishes(s: State, t: nat)
    requires At(s, t, Arming(ArmApplying)) && Alone(s, t) && Armable(s.net) && s.net.probe.None?
    ensures BlockedBy(Passed(s, t, 2), t, s.net.config, s.net.sources)
  {
    hide Inv, Pass;
    ArmPasses(s, t, ArmApplying);
    var u := Pass(s, t);
    ArmPasses(u, t, ArmObserving);
    assert Passed(s, t, 2) == Pass(Pass(Passed(s, t, 0), t), t);
  }

  lemma ArmPhase(s: State, t: nat)
    requires Resting(s, t) && Armable(s.net)
    ensures BlockedBy(Passed(Entered(s, t, ArmGuard), t, 5), t, s.net.config, Adopted(s.net))
  {
    hide Inv, Pass, Entered, BlockedBy;
    ArmEnters(s, t);
    var a := Entered(s, t, ArmGuard);
    ArmPasses(a, t, ArmListing);
    var b := Pass(a, t);
    ArmPasses(b, t, ArmProvider);
    var c := Pass(b, t);
    ArmPasses(c, t, ArmChecking);
    ArmFinishes(Pass(c, t), t);
    assert Passed(a, t, 3) == Pass(c, t) by {
      assert Passed(a, t, 2) == Pass(Passed(a, t, 1), t) == Pass(Pass(Passed(a, t, 0), t), t);
    }
    PassedAdds(a, t, 3, 2);
  }

  lemma {:induction false} PassedAdds(s: State, t: nat, m: nat, n: nat)
    ensures Passed(Passed(s, t, m), t, n) == Passed(s, t, m + n)
  {
    hide Pass;
    if n > 0 {
      PassedAdds(s, t, m, n - 1);
    }
  }

  /** A generation is registered and its table blocks all but its own probe. */
  predicate Registers(s: State, t: nat, config: Config, sources: seq<string>, item: Item) {
    && Resting(s, t) && Trusted(s) && Agrees(s.net) && s.net.candidate == Some(item)
    && s.net.config == config && s.net.sources == sources
    && s.net.kernel == Holds(config, Policy(None, sources, Some(item.interface)))
    && s.net.interface.None? && s.net.probe == Some(item.interface)
  }

  lemma StartEnters(s: State, t: nat, owner: nat, item: Item)
    requires Resting(s, t) && ItemOk(item)
    ensures var u := Entered(s, t, Start(owner, item));
            && At(u, t, Rewriting(StartRevoke(owner, item), Listing(Blocked(s.net)))) && Alone(u, t)
            && u.net == s.net.(committed := None)
  {
    hide Inv, ItemOk;
    StepInv(s, t, Called(Start(owner, item)));
    StepInv(Step(s, t, Called(Start(owner, item))), t, Acquires);
  }

  /** The first rewrite of a start blocks, and the second one is asked for. */
  lemma StartRevokes(s: State, t: nat, owner: nat, item: Item, p: Policy)
    requires At(s, t, Rewriting(StartRevoke(owner, item), Listing(p))) && Agrees(s.net) && Alone(s, t)
    requires Ascending(p.sources) && Registrable(s.net.(sources := p.sources), item)
    ensures var u := Passed(s, t, 4);
            var target := Policy(None, Insert(item.address, p.sources), Some(item.interface));
            && At(u, t, Rewriting(StartRegister(owner, item), Listing(target))) && Agrees(u.net) && Alone(u, t)
            && u.net.config == s.net.config
  {
    hide Inv, Pass, Agrees, Registrable, Ascending, Insert;
    RewriteLands(s, t, StartRevoke(owner, item), p);
    var u := Pass(Pass(Pass(s, t), t), t);
    RewritePasses(u, t, StartRevoke(owner, item), Observing(p));
    PassedFour(s, t);
    assert Registrable(u.net, item) by {
      RegistrableAlike(s.net.(sources := p.sources), u.net, item);
    }
  }

  lemma RegistrableAlike(n: Network, m: Network, item: Item)
    requires Ascending(n.sources) && m.sources == n.sources && Registrable(n, item)
    ensures Registrable(m, item)
  {
  }

  lemma PassedFour(s: State, t: nat)
    ensures Passed(s, t, 3) == Pass(Pass(Pass(s, t), t), t) && Passed(s, t, 4) == Pass(Passed(s, t, 3), t)
  {
    hide Pass;
    assert Passed(s, t, 1) == Pass(Passed(s, t, 0), t);
    assert Passed(s, t, 2) == Pass(Passed(s, t, 1), t);
  }

  /** The second rewrite registers the source, and the generation begins. */
  lemma StartRegisters(s: State, t: nat, owner: nat, item: Item, p: Policy)
    requires At(s, t, Rewriting(StartRegister(owner, item), Listing(p))) && Agrees(s.net) && Alone(s, t)
    ensures var u := Passed(s, t, 4);
            && Inv(u) && t in u.tasks && u.tasks[t] == Starting(item, u.net.epoch) && u.lock.None? && Alone(u, t)
            && Trusted(u) && Agrees(u.net) && u.net.candidate == Some(item) && u.net.config == s.net.config
            && u.net.sources == p.sources && u.net.probe == p.probe && u.net.interface == p.interface
            && u.net.kernel == Holds(s.net.config, p)
  {
    hide Inv, Pass;
    RewriteLands(s, t, StartRegister(owner, item), p);
    var u := Pass(Pass(Pass(s, t), t), t);
    RewritePasses(u, t, StartRegister(owner, item), Observing(p));
    PassedFour(s, t);
  }

  /** The provider comes up and the start is confirmed. */
  lemma StartConfirms(s: State, t: nat, item: Item)
    requires Inv(s) && t in s.tasks && s.tasks[t] == Starting(item, s.net.epoch) && s.lock.None? && Alone(s, t)
    requires s.net.candidate == Some(item)
    ensures var u := Step(Pass(s, t), t, Acquires);
            Resting(u, t) && u.net == s.net && u.written == s.written && (Fallen(u) <==> Fallen(s))
  {
    hide Inv;
    StepInv(s, t, Ends(Passes));
    StepInv(Pass(s, t), t, Acquires);
  }

  lemma StartPhase(s: State, t: nat, owner: nat, item: Item, config: Config, sources: seq<string>)
    requires BlockedBy(s, t, config, sources) && Ascending(sources) && ItemOk(item)
    requires Registrable(s.net, item)
    ensures var u := Step(Passed(Entered(s, t, Start(owner, item)), t, 9), t, Acquires);
            Registers(u, t, config, Insert(item.address, sources), item)
  {
    hide Inv, Pass, Step, Entered, Ascending, Registrable, Insert, ItemOk, Resting, Trusted, Agrees;
    assert Resting(s, t) && Agrees(s.net.(committed := None)) by {
      BlockedAgrees(s.net.(committed := None));
    }
    StartEnters(s, t, owner, item);
    var a := Entered(s, t, Start(owner, item));
    RegistrableAlike(s.net, a.net.(sources := sources), item);
    StartRevokes(a, t, owner, item, Blocked(s.net));
    var b := Passed(a, t, 4);
    var target := Policy(None, Insert(item.address, sources), Some(item.interface));
    StartRegisters(b, t, owner, item, target);
    var c := Passed(b, t, 4);
    StartConfirms(c, t, item);
    assert Passed(c, t, 1) == Pass(Passed(c, t, 0), t);
    PassedAdds(a, t, 4, 4);
    PassedAdds(a, t, 8, 1);
    TrustedAlike(c, Step(Pass(c, t), t, Acquires));
  }

  lemma TrustedAlike(s: State, u: State)
    requires Trusted(s) && u.written == s.written && (Fallen(u) <==> Fallen(s))
    ensures Trusted(u)
  {
  }

  lemma BlockedAgrees(n: Network)
    requires n.kernel == Holds(n.config, Policy(None, n.sources, None)) && n.interface.None? && n.probe.None?
    ensures Agrees(n)
  {
  }

  /** The only task waits at `pc`, outside both locks. */
  predicate WaitsAt(s: State, t: nat, pc: Pc) {
    Inv(s) && s.lock.None? && s.mutation.None? && t in s.tasks && s.tasks[t] == pc
  }

  predicate SameNet(s: State, u: State) {
    u.net == s.net && u.written == s.written && (Fallen(u) <==> Fallen(s))
  }

  lemma ProbeBegins(s: State, t: nat, item: Item)
    requires Resting(s, t) && ItemOk(item) && s.net.candidate == Some(item)
    ensures var u := Step(s, t, Called(Probe(item)));
            WaitsAt(u, t, Probing(s.net, item, 0)) && SameNet(s, u)
  {
    hide Inv, ItemOk;
    StepInv(s, t, Called(Probe(item)));
  }

  lemma RoundEnds(s: State, t: nat, item: Item, begun: Network, round: nat, r: Result)
    requires WaitsAt(s, t, Probing(begun, item, round))
    ensures var u := Step(s, t, Ends(r)); WaitsAt(u, t, AfterRound(s.net, begun, item, round, r)) && SameNet(s, u)
  {
    hide Inv, Current;
    StepInv(s, t, Ends(r));
  }

  lemma ProbeProves(s: State, t: nat, item: Item, begun: Network)
    requires WaitsAt(s, t, ProbeEnding(begun, item, true)) && Current(s.net, begun.epoch, item)
    ensures var u := Step(s, t, Acquires);
            && Resting(u, t) && Proven(u.net, item) && u.written == s.written && (Fallen(u) <==> Fallen(s))
            && u.net == s.net.(proof := u.net.proof)
  {
    hide Inv;
    StepInv(s, t, Acquires);
  }

  lemma ProbePhase(s: State, t: nat, item: Item)
    requires Resting(s, t) && ItemOk(item) && s.net.candidate == Some(item)
    ensures var u := Step(Passed(Step(s, t, Called(Probe(item))), t, 2), t, Acquires);
            && Resting(u, t) && Proven(u.net, item) && u.written == s.written && (Fallen(u) <==> Fallen(s))
            && u.net == s.net.(proof := u.net.proof)
  {
    hide Inv, ItemOk, Step, Resting, Proven, Fallen;
    ProbeBegins(s, t, item);
    var a := Step(s, t, Called(Probe(item)));
    RoundEnds(a, t, item, s.net, 0, Passes);
    var b := Pass(a, t);
    RoundEnds(b, t, item, s.net, 1, Passes);
    ProbeProves(Pass(b, t), t, item, s.net);
    assert Passed(a, t, 2) == Pass(b, t) by {
      assert Passed(a, t, 1) == Pass(Passed(a, t, 0), t);
    }
  }

  lemma CommitEnters(s: State, t: nat, item: Item)
    requires Resting(s, t) && ItemOk(item) && Proven(s.net, item)
    ensures var u := Entered(s, t, CommitCall(item));
            At(u, t, CommitProving(item)) && u.net == s.net && Alone(u, t)
  {
    hide Inv, ItemOk, Proven;
    StepInv(s, t, Called(CommitCall(item)));
    StepInv(Step(s, t, Called(CommitCall(item))), t, Acquires);
  }

  /** The table forwards to the item's interface, and everything agrees on it. */
  predicate Forwards(s: State, t: nat, item: Item) {
    && Resting(s, t) && Trusted(s) && KernelOpen(s) && Agrees(s.net)
    && s.net.kernel.policy.interface == Some(item.interface) && s.net.interface == Some(item.interface)
    && s.net.candidate == Some(item) && s.net.committed == Some(Commitment(s.net.epoch, item))
  }

  lemma CommitPhase(s: State, t: nat, item: Item)
    requires Resting(s, t) && ItemOk(item) && Proven(s.net, item) && Agrees(s.net)
    ensures Forwards(Passed(Entered(s, t, CommitCall(item)), t, 5), t, item)
  {
    hide Inv, Pass, Entered, Agrees, ItemOk;
    CommitEnters(s, t, item);
    var a := Entered(s, t, CommitCall(item));
    CommitOpens(a, t, item);
    PassedFour(a, t);
    var b := Passed(a, t, 4);
    assert Passed(a, t, 5) == Pass(b, t);
    assert Inv(Pass(b, t)) by {
      PassedInv(a, t, 5);
    }
  }

  lemma {:induction false} PassedInv(s: State, t: nat, n: nat)
    requires Inv(s)
    ensures Inv(Passed(s, t, n))
  {
    hide Inv, Step;
    if n > 0 {
      PassedInv(s, t, n - 1);
      StepInv(Passed(s, t, n - 1), t, Ends(Passes));
    }
  }

  // ----- An open table -----

  /** The guard recognises the table it finds, and the item's address fits beside the sources adopted from it. */
  predicate Startable(n: Network, item: Item) {
    Armable(n) && Ascending(Adopted(n)) && Registrable(n.(sources := Adopted(n)), item)
  }

  /** On a clean kernel that is every provider generation with an allowed address. */
  lemma CleanStartable(s: State, item: Item)
    requires Fresh(s) && s.net.kernel.Absent? && ItemOk(item) && Allowed(item.address)
    ensures Startable(s.net, item)
  {
    hide Allowed;
  }

  /** From every fresh process over a table it recognises, and for every provider generation it may register,
      the undisturbed run opens the table for exactly that generation. */
  lemma OpensFromFresh(s: State, t: nat, owner: nat, item: Item)
    requires Fresh(s) && Startable(s.net, item)
    ensures Forwards(Run(s, OpeningRun(t, owner, item)), t, item)
  {
    hide Fresh, Inv, Run, Step, Passing, Entering, Passed, Entered, Adopted, Registrable, Ascending, Resting, Forwards;
    hide BlockedBy, Registers, Proven, Agrees, ItemOk;
    assert ItemOk(item) by {
      StartableItem(s.net, item);
    }
    FreshRests(s, t);
    ArmPhase(s, t);
    RunArms(s, [], t);
    var a := Run(s, ArmRun([], t));
    BlockedNet(a, t, s.net.config, Adopted(s.net));
    RegistrableAlike(s.net.(sources := Adopted(s.net)), a.net, item);
    StartPhase(a, t, owner, item, s.net.config, Adopted(s.net));
    RunStarts(s, ArmRun([], t), t, owner, item);
    var b := Run(s, StartRun(ArmRun([], t), t, owner, item));
    RegisteredNet(b, t, s.net.config, Insert(item.address, Adopted(s.net)), item);
    ProbePhase(b, t, item);
    RunProbes(s, StartRun(ArmRun([], t), t, owner, item), t, item);
    var c := Run(s, ProbeRun(StartRun(ArmRun([], t), t, owner, item), t, item));
    AgreesAlike(b.net, c.net);
    CommitPhase(c, t, item);
    RunCommits(s, ProbeRun(StartRun(ArmRun([], t), t, owner, item), t, item), t, item);
  }

  lemma StartableItem(n: Network, item: Item)
    requires Startable(n, item)
    ensures ItemOk(item)
  {
  }

  lemma FreshRests(s: State, t: nat)
    requires Fresh(s)
    ensures Resting(s, t) && Run(s, []) == s
  {
    hide Inv;
    FreshInv(s);
  }

  lemma BlockedNet(s: State, t: nat, config: Config, sources: seq<string>)
    requires BlockedBy(s, t, config, sources)
    ensures s.net.sources == sources
  {
  }

  lemma RegisteredNet(s: State, t: nat, config: Config, sources: seq<string>, item: Item)
    requires Registers(s, t, config, sources, item)
    ensures Resting(s, t) && s.net.candidate == Some(item) && Agrees(s.net)
  {
  }

  lemma AgreesAlike(n: Network, m: Network)
    requires Agrees(n) && m == n.(proof := m.proof, committed := m.committed)
    ensures Agrees(m)
  {
  }

  lemma RunArms(s: State, w: Schedule, t: nat)
    ensures Run(s, ArmRun(w, t)) == Passed(Entered(Run(s, w), t, ArmGuard), t, 5)
  {
    hide Run, Passing, Entering, Passed, Entered;
    RunEnters(s, w, t, ArmGuard);
    RunPasses(s, Entering(w, t, ArmGuard), t, 5);
  }

  lemma RunStarts(s: State, w: Schedule, t: nat, owner: nat, item: Item)
    ensures Run(s, StartRun(w, t, owner, item)) ==
            Step(Passed(Entered(Run(s, w), t, Start(owner, item)), t, 9), t, Acquires)
  {
    hide Run, Step, Passing, Entering, Passed, Entered;
    RunEnters(s, w, t, Start(owner, item));
    RunPasses(s, Entering(w, t, Start(owner, item)), t, 9);
    RunStep(s, Passing(Entering(w, t, Start(owner, item)), t, 9), t, Acquires);
  }

  lemma RunProbes(s: State, w: Schedule, t: nat, item: Item)
    ensures Run(s, ProbeRun(w, t, item)) == Step(Passed(Step(Run(s, w), t, Called(Probe(item))), t, 2), t, Acquires)
  {
    hide Run, Step, Passing, Passed;
    RunStep(s, w, t, Called(Probe(item)));
    RunPasses(s, w + [(t, Called(Probe(item)))], t, 2);
    RunStep(s, Passing(w + [(t, Called(Probe(item)))], t, 2), t, Acquires);
  }

  lemma RunCommits(s: State, w: Schedule, t: nat, item: Item)
    ensures Run(s, CommitRun(w, t, item)) == Passed(Entered(Run(s, w), t, CommitCall(item)), t, 5)
  {
    hide Run, Passing, Entering, Passed, Entered;
    RunEnters(s, w, t, CommitCall(item));
    RunPasses(s, Entering(w, t, CommitCall(item)), t, 5);
  }

  // ----- An open table that nobody owns up to -----

  /** A probe fails, and its generation is to be revoked. */
  function ProbeFails(s: State, t: nat, item: Item): State {
    Step(Step(Step(s, t, Called(Probe(item))), t, Ends(Raises(Lifecycle, false))), t, Acquires)
  }

  lemma ProbeRevokes(s: State, t: nat, item: Item, begun: Network)
    requires WaitsAt(s, t, ProbeEnding(begun, item, false)) && Current(s.net, begun.epoch, item)
    ensures var u := Step(s, t, Acquires);
            && At(u, t, Rewriting(ProbeRevoke, Listing(Policy(None, s.net.sources, s.net.probe)))) && Alone(u, t)
            && u.net == s.net.(proof := None, committed := None) && u.written == s.written
  {
    hide Inv;
    StepInv(s, t, Acquires);
  }

  lemma ProbeFailure(s: State, t: nat, item: Item)
    requires Resting(s, t) && ItemOk(item) && s.net.candidate == Some(item)
    ensures var u := ProbeFails(s, t, item);
            && At(u, t, Rewriting(ProbeRevoke, Listing(Policy(None, s.net.sources, s.net.probe)))) && Alone(u, t)
            && u.net == s.net.(proof := None, committed := None) && u.written == s.written
  {
    hide Inv, ItemOk, Step, Resting, At, Alone, Fallen;
    ProbeBegins(s, t, item);
    var a := Step(s, t, Called(Probe(item)));
    RoundEnds(a, t, item, s.net, 0, Raises(Lifecycle, false));
    ProbeRevokes(Step(a, t, Ends(Raises(Lifecycle, false))), t, item, s.net);
  }

  /** Neither the revoking table nor the blocked one can be written, and the task is cancelled. */
  function WriteFails(s: State, t: nat): State {
    Step(Step(s, t, Ends(Raises(Lifecycle, false))), t, Ends(Raises(Cancelled, false)))
  }

  lemma ApplyingFails(s: State, t: nat, p: Policy)
    requires At(s, t, Rewriting(ProbeRevoke, Applying(p)))
    ensures var u := Step(s, t, Ends(Raises(Lifecycle, false)));
            && At(u, t, Rewriting(ProbeRevoke, Reapplying(Lifecycle))) && u.net.kernel == s.net.kernel
            && u.written == s.written
  {
    hide Inv;
    StepInv(s, t, Ends(Raises(Lifecycle, false)));
  }

  lemma WriteFailure(s: State, t: nat, p: Policy)
    requires At(s, t, Rewriting(ProbeRevoke, Applying(p))) && KernelOpen(s)
    ensures var u := WriteFails(s, t);
            && u.lock.None? && KernelOpen(u) && u.net.kernel == s.net.kernel && Fallen(u)
            && u.net.interface.None? && u.net.committed.None?
  {
    hide Inv, Step, Fallen;
    ApplyingFails(s, t, p);
    var a := Step(s, t, Ends(Raises(Lifecycle, false)));
    LastResortsLeaveOpen(a, t, Rewriting(ProbeRevoke, Reapplying(Lifecycle)), Raises(Cancelled, false));
  }

  lemma LosePhase(s: State, t: nat, item: Item)
    requires Forwards(s, t, item) && ItemOk(item)
    ensures var u := WriteFails(Passed(ProbeFails(s, t, item), t, 2), t);
            && u.lock.None? && KernelOpen(u) && u.net.kernel == s.net.kernel && Fallen(u)
            && u.net.interface.None? && u.net.committed.None?
  {
    hide Inv, Pass, ItemOk, ProbeFails, WriteFails, Agrees, Fallen, Alone;
    ProbeFailure(s, t, item);
    var a := ProbeFails(s, t, item);
    var p := Policy(None, s.net.sources, s.net.probe);
    AgreesAlike(s.net, a.net);
    ListingPasses(a, t, ProbeRevoke, p);
    CheckingPasses(Pass(a, t), t, ProbeRevoke, p);
    var b := Pass(Pass(a, t), t);
    assert Passed(a, t, 2) == b by {
      assert Passed(a, t, 1) == Pass(Passed(a, t, 0), t);
    }
    assert b.written by {
      PassesWritten(a, t, p);
    }
    WriteFailure(b, t, p);
  }

  lemma PassesWritten(s: State, t: nat, p: Policy)
    requires At(s, t, Rewriting(ProbeRevoke, Listing(p))) && Agrees(s.net) && s.written
    ensures Pass(Pass(s, t), t).written
  {
    hide Inv, Agrees, Failed;
  }

  /** The same process then loses that table: it stays open while the cache says nothing is. */
  lemma LosesFromFresh(s: State, t: nat, owner: nat, item: Item)
    requires Fresh(s) && Startable(s.net, item)
    ensures var u := Run(s, LosingRun(OpeningRun(t, owner, item), t, item));
            && u.lock.None? && KernelOpen(u) && u.net.kernel.policy.interface == Some(item.interface)
            && Fallen(u) && u.net.interface.None? && u.net.committed.None?
  {
    hide Fresh, Inv, Run, Step, Ascending, Registrable, Adopted, OpeningRun, LosingRun, ItemOk, ProbeFails, WriteFails;
    hide Passed, Fallen, Agrees, Resting, Trusted;
    StartableItem(s.net, item);
    OpensFromFresh(s, t, owner, item);
    var a := Run(s, OpeningRun(t, owner, item));
    LosePhase(a, t, item);
    RunLoses(s, OpeningRun(t, owner, item), t, item);
  }

  lemma RunLoses(s: State, w: Schedule, t: nat, item: Item)
    ensures Run(s, LosingRun(w, t, item)) == WriteFails(Passed(ProbeFails(Run(s, w), t, item), t, 2), t)
  {
    hide Run, Step, Passing, Passed;
    var a := w + [(t, Called(Probe(item)))];
    RunStep(s, w, t, Called(Probe(item)));
    RunStep(s, a, t, Ends(Raises(Lifecycle, false)));
    var b := a + [(t, Ends(Raises(Lifecycle, false)))];
    RunStep(s, b, t, Acquires);
    var c := Passing(b + [(t, Acquires)], t, 2);
    RunPasses(s, b + [(t, Acquires)], t, 2);
    RunStep(s, c, t, Ends(Raises(Lifecycle, false)));
    RunStep(s, c + [(t, Ends(Raises(Lifecycle, false)))], t, Ends(Raises(Cancelled, false)));
  }
}
