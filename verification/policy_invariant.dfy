/** What every interleaving of the policy machine keeps, and how it survives one task moving on. */
module PolicyInvariant {
  import opened Options
  import opened Net
  import opened Text
  import opened Firewall
  import opened FirewallRecognition
  import opened PolicyMachine

  // ----- The invariant -----

  predicate SourcesOk(sources: seq<string>) {
    Ascending(sources) && |sources| <= SOURCE_BUDGET && forall a | a in sources :: Allowed(a)
  }

  predicate Registered(n: Network, item: Item) {
    ItemOk(item) && item.address in n.sources && n.kernel.Holds? && item.address in n.kernel.policy.sources
  }

  predicate ProofCurrent(n: Network, p: Proof) {
    Current(n, p.epoch, p.item) && p.at <= n.clock
  }

  /** A commitment is for the current generation and cached interface, and the kernel forwards to no other. */
  predicate CommitCurrent(n: Network, c: Commitment) {
    && Current(n, c.epoch, c.item) && n.interface == Some(c.item.interface)
    && (n.kernel.Holds? && n.kernel.policy.interface.Some? ==> n.kernel.policy.interface == n.interface)
  }

  predicate NetOk(n: Network) {
    && ConfigOk(n.config)
    && SourcesOk(n.sources)
    && (n.probe.Some? ==> n.probe.value in PROVIDERS)
    && (n.kernel.Holds? ==> ConfigOk(n.kernel.config) && Writable(n.kernel.policy))
    && (n.candidate.Some? ==> Registered(n, n.candidate.value))
    && (n.proof.Some? ==> ProofCurrent(n, n.proof.value))
    && (n.committed.Some? ==> CommitCurrent(n, n.committed.value))
  }

  /** Epochs only grow, and one epoch has one candidate. */
  predicate Evolves(n: Network, m: Network) {
    n.epoch <= m.epoch && (n.epoch == m.epoch ==> n.candidate == m.candidate) && n.clock <= m.clock
  }

  /** A table this rewrite may write. */
  predicate Fits(n: Network, job: Job, p: Policy) {
    && Writable(p)
    && (forall a | a in n.sources :: a in p.sources)
    && (p.interface.Some? <==> job.Commit?)
    && (job.Commit? ==> p.interface == Some(job.item.interface) && p.probe == p.interface)
    && (job.Commit? ==> job.item.address in p.sources)
    && (job.StartRegister? ==> job.item.address in p.sources)
  }

  predicate Unchanged(asked: Network, n: Network) {
    n.epoch == asked.epoch && n.candidate == asked.candidate && n.proof == asked.proof
  }

  predicate JobOk(n: Network, job: Job) {
    && (job.StartRevoke? || job.StartRegister? || job.Commit? || job.CommitUndo? ==> ItemOk(job.item))
    && (job.Commit? ==> Proven(job.asked, job.item) && Unchanged(job.asked, n))
    && (!job.Commit? ==> n.committed.None?)
  }

  predicate StageOk(n: Network, job: Job, stage: Stage) {
    match stage
    case Listing(p) => Fits(n, job, p)
    case Checking(p) => Fits(n, job, p)
    case Applying(p) => Fits(n, job, p) && n.sources == p.sources && n.probe == p.probe
    case Observing(p) =>
      && Fits(n, job, p) && n.sources == p.sources && n.probe == p.probe
      && n.interface == p.interface && n.kernel == Holds(n.config, p)
    case _ => n.interface.None? && n.committed.None? && n.probe.None?
  }

  predicate BlockOk(n: Network, owned: map<nat, nat>, job: Job) {
    job.Block? ==>
      MayTearDown(n, owned, job.owner, job.interface) &&
      (n.candidate.Some? ==> n.candidate.value.interface == job.interface)
  }

  /** A probe remembers the generation it began with. */
  predicate ProbeOk(n: Network, begun: Network, item: Item) {
    begun.candidate == Some(item) && ItemOk(item) && Evolves(begun, n)
  }

  predicate PcOk(n: Network, owned: map<nat, nat>, pc: Pc) {
    match pc
    case Probing(begun, item, _) => ProbeOk(n, begun, item)
    case ProbeEnding(begun, item, _) => ProbeOk(n, begun, item)
    case ProbeCancelled(begun, item) => ProbeOk(n, begun, item)
    case StartWaiting(_, item) => ItemOk(item)
    case BlockWaiting(owner, interface) => MayTearDown(n, owned, owner, interface)
    case CommitWaiting(item) => ItemOk(item)
    case CommitCancelled(item) => ItemOk(item)
    case CommitProving(item) => ItemOk(item)
    case RebindWaiting(target) => ConfigOk(target)
    case Rewriting(job, stage) => JobOk(n, job) && StageOk(n, job, stage) && BlockOk(n, owned, job)
    case Rebinding(target, original, _) => ConfigOk(target) && ConfigOk(original)
    case _ => true
  }

  predicate TaskOk(s: State, t: nat, pc: Pc) {
    PcOk(s.net, s.owned, pc) && (Holding(pc) <==> s.lock == Some(t)) && (Mutating(pc) ==> s.mutation == Some(t))
  }

  predicate TasksOk(s: State) {
    (s.lock.Some? ==> s.lock.value in s.tasks) && forall t | t in s.tasks :: TaskOk(s, t, s.tasks[t])
  }

  predicate EvidenceOk(e: Evidence) {
    e.begun.candidate.Some? && e.begun.candidate == e.ended.candidate && e.begun.epoch == e.ended.epoch &&
    e.begun.clock <= e.ended.clock
  }

  /** Some probe that began and ended under this very generation produced the proof. */
  predicate Backed(evidence: set<Evidence>, p: Proof) {
    exists e | e in evidence :: e.ended.epoch == p.epoch && e.ended.candidate == Some(p.item) && e.ended.clock == p.at
  }

  predicate OpeningOk(evidence: set<Evidence>, o: Opening) {
    && o.asked.candidate.Some?
    && Proven(o.asked, o.asked.candidate.value)
    && Backed(evidence, o.asked.proof.value)
    && Unchanged(o.asked, o.taken)
    && o.policy.interface == Some(o.asked.candidate.value.interface)
    && o.policy.probe == o.policy.interface
    && o.asked.candidate.value.address in o.policy.sources
  }

  predicate TeardownOk(d: Teardown) {
    d.revoked.candidate.Some? ==>
      d.revoked.candidate.value.interface == d.interface && d.owned == Some(d.revoked.epoch)
  }

  predicate LogsOk(s: State) {
    && (forall e | e in s.evidence :: EvidenceOk(e))
    && (forall o | o in s.openings :: OpeningOk(s.evidence, o))
    && (forall d | d in s.teardowns :: TeardownOk(d))
    && (s.net.proof.Some? ==> Backed(s.evidence, s.net.proof.value))
  }

  predicate KernelOpen(s: State) {
    s.written && s.net.kernel.Holds? && s.net.kernel.policy.interface.Some?
  }

  /** An open table in the kernel was asked for. */
  predicate OpenedOnRequest(s: State) {
    KernelOpen(s) ==> exists o | o in s.openings :: o.policy == s.net.kernel.policy
  }

  /** The cache owns up to the open table, which was asked for by the current generation. */
  predicate Owns(s: State)
    requires s.net.kernel.Holds?
  {
    && s.net.interface == s.net.kernel.policy.interface
    && exists o | o in s.openings ::
         o.policy == s.net.kernel.policy && o.asked.epoch == s.net.epoch && o.asked.candidate == s.net.candidate
  }

  /** Since the last write reported to have passed, something failed that the code keeps no record of. */
  predicate Fallen(s: State) {
    s.removed || s.lost || s.unrestored
  }

  predicate Admitted(s: State) {
    KernelOpen(s) ==> Owns(s) || Fallen(s)
  }

  /** The places at which the holder of the lock is still busy blocking the table. */
  predicate Excused(pc: Pc) {
    || (pc.Rewriting? && (pc.stage.Reapplying? || pc.stage.Removing?))
    || (pc.Rebinding? && (pc.rebind.RebindApplying? || pc.rebind.RebindRestoring?))
  }

  predicate Blocking(s: State) {
    s.lock.Some? && s.lock.value in s.tasks && Excused(s.tasks[s.lock.value])
  }

  predicate Core(s: State) {
    NetOk(s.net) && LogsOk(s) && OpenedOnRequest(s)
  }

  predicate Inv(s: State) {
    Core(s) && TasksOk(s) && (Admitted(s) || Blocking(s))
  }

  /** What one step keeps. */
  predicate Keeps(s: State, u: State) {
    Inv(u) && Evolves(s.net, u.net)
  }

  // ----- Small changes of the shared policy -----

  lemma NetForgets(n: Network)
    requires NetOk(n)
    ensures NetOk(n.(committed := None)) && NetOk(n.(proof := None)) && NetOk(n.(probe := None))
    ensures NetOk(n.(active := false))
    ensures NetOk(n.(interface := None, committed := None, probe := None))
  {
    hide SourcesOk, Writable, ConfigOk;
  }

  lemma NetGeneration(n: Network, candidate: Option<Item>)
    requires NetOk(n) && n.committed.None? && (candidate.Some? ==> Registered(n, candidate.value))
    ensures NetOk(Generation(n, candidate))
  {
    hide SourcesOk, Writable, ConfigOk;
  }

  lemma NetCached(n: Network, sources: seq<string>, probe: Option<Interface>)
    requires NetOk(n) && SourcesOk(sources) && (probe.Some? ==> probe.value in PROVIDERS)
    requires forall a | a in n.sources :: a in sources
    ensures NetOk(n.(sources := sources, probe := probe))
  {
    hide SourcesOk, Writable, ConfigOk;
  }

  lemma NetWritten(n: Network, config: Config, p: Policy)
    requires NetOk(n) && ConfigOk(config) && Writable(p)
    requires forall a | a in n.sources :: a in p.sources
    requires n.committed.Some? && p.interface.Some? ==> p.interface == n.interface
    ensures NetOk(n.(kernel := Holds(config, p)))
  {
    hide SourcesOk, Writable, ConfigOk;
  }

  lemma NetOpened(n: Network, interface: Option<Interface>)
    requires NetOk(n) && (n.committed.Some? ==> interface == n.interface)
    ensures NetOk(n.(interface := interface))
  {
    hide SourcesOk, Writable, ConfigOk;
  }

  lemma NetCommits(n: Network, item: Item)
    requires NetOk(n) && n.candidate == Some(item) && n.interface == Some(item.interface)
    requires n.kernel.Holds? && n.kernel.policy.interface == n.interface
    ensures NetOk(n.(committed := Some(Commitment(n.epoch, item))))
  {
    hide SourcesOk, Writable, ConfigOk;
  }

  lemma NetProven(n: Network, item: Item)
    requires NetOk(n) && n.candidate == Some(item)
    ensures NetOk(n.(proof := Some(Proof(n.epoch, item, n.clock))))
  {
    hide SourcesOk, Writable, ConfigOk;
  }

  lemma NetRebound(n: Network, config: Config, interface: Option<Interface>, probe: Option<Interface>)
    requires NetOk(n) && ConfigOk(config) && (probe.None? || probe == n.probe)
    ensures NetOk(Forgotten(n).(config := config, interface := interface, probe := probe))
  {
    hide SourcesOk, Writable, ConfigOk;
  }

  /** The histories do not care about the cache. */
  lemma CoreCached(s: State, u: State)
    requires Core(s) && NetOk(u.net)
    requires u.evidence == s.evidence && u.openings == s.openings && u.teardowns == s.teardowns
    requires u.written == s.written && u.net.kernel == s.net.kernel
    requires u.net.proof == s.net.proof || u.net.proof.None?
    ensures Core(u)
  {
    hide NetOk, OpeningOk, EvidenceOk, TeardownOk, Backed;
  }

  /** Neither does an open table care about the rest of the cache. */
  lemma AdmittedStays(s: State, u: State)
    requires Admitted(s)
    requires u.openings == s.openings && u.written == s.written && u.net.kernel == s.net.kernel
    requires u.net.interface == s.net.interface && u.net.epoch == s.net.epoch && u.net.candidate == s.net.candidate
    requires Fallen(s) ==> Fallen(u)
    ensures Admitted(u)
  {
  }

  // ----- One task moves, the others stay in order -----

  /** What a step of `t` may do to the shared policy before it moves on. */
  predicate Updates(s: State, u: State, t: nat) {
    && u.tasks == s.tasks && u.lock == s.lock && u.mutation == s.mutation
    && Evolves(s.net, u.net)
    && (u.net == s.net || s.lock.None? || s.lock == Some(t))
    && (u.owned == s.owned || s.mutation == Some(t))
    && (s.mutation == Some(t) || u.net.epoch == s.net.epoch || u.net.candidate.None?)
  }

  predicate MayMove(s: State, t: nat, pc: Pc) {
    && (Holding(pc) ==> s.lock.None? || s.lock == Some(t))
    && (Mutating(pc) ==> s.mutation.None? || s.mutation == Some(t))
  }

  lemma OthersStay(s: State, u: State, t: nat, pc: Pc, v: nat)
    requires TasksOk(s) && Updates(s, u, t) && MayMove(s, t, pc) && v in s.tasks && v != t
    ensures TaskOk(Moves(u, t, pc), v, s.tasks[v])
  {
    hide ItemOk, ConfigOk, StageOk, JobOk;
    assert TaskOk(s, v, s.tasks[v]);
  }

  lemma TasksMove(s: State, u: State, t: nat, pc: Pc)
    requires TasksOk(s) && Updates(s, u, t) && MayMove(s, t, pc) && PcOk(u.net, u.owned, pc)
    ensures TasksOk(Moves(u, t, pc))
  {
    hide PcOk, Updates;
    forall v | v in s.tasks && v != t
      ensures TaskOk(Moves(u, t, pc), v, s.tasks[v])
    {
      OthersStay(s, u, t, pc, v);
    }
    assert u.tasks == s.tasks && u.lock == s.lock && u.mutation == s.mutation by {
      UpdatesFrame(s, u, t);
    }
  }

  lemma UpdatesFrame(s: State, u: State, t: nat)
    requires Updates(s, u, t)
    ensures u.tasks == s.tasks && u.lock == s.lock && u.mutation == s.mutation && Evolves(s.net, u.net)
  {
  }

  lemma MoveKeeps(s: State, u: State, t: nat, pc: Pc)
    requires TasksOk(s) && Updates(s, u, t) && MayMove(s, t, pc)
    requires Core(u) && PcOk(u.net, u.owned, pc)
    requires Admitted(u) || (Excused(pc) && Holding(pc))
    ensures Keeps(s, Moves(u, t, pc))
  {
    hide TasksOk, PcOk, Updates, NetOk, OpeningOk, EvidenceOk, TeardownOk, Backed;
    TasksMove(s, u, t, pc);
    UpdatesFrame(s, u, t);
    CoreCached(u, Moves(u, t, pc));
    if Admitted(u) {
      AdmittedStays(u, Moves(u, t, pc));
    }
  }
}
