/** Provider policy generations: start, probe, commit, stop, re-arm and rebind interleaving over one shared
    policy under two locks. Every awaited command is one step, which may pass, raise without effect or raise
    after its effect. Models backend/exitlane/container_egress.py with container_runtime.py. */
module PolicyMachine {
  import opened Options
  import opened Net
  import opened Text
  import opened Firewall
  import opened FirewallRecognition

  // ----- The shared policy -----

  /** A provider generation. */
  datatype Item = Item(interface: Interface, address: string, generation: string)

  datatype Proof = Proof(epoch: nat, item: Item, at: nat)

  datatype Commitment = Commitment(epoch: nat, item: Item)

  /** The guard table in the kernel. Whatever recognition would refuse is foreign. */
  datatype Kernel = Absent | Foreign | Holds(config: Config, policy: Policy)

  datatype Network = Network(
    config: Config,
    epoch: nat,
    candidate: Option<Item>,
    proof: Option<Proof>,
    committed: Option<Commitment>,
    interface: Option<Interface>,
    sources: seq<string>,
    probe: Option<Interface>,
    kernel: Kernel,
    active: bool,
    clock: nat)

  const PROOF_LIFETIME: nat := 5

  predicate ItemOk(item: Item) {
    item.interface in PROVIDERS
  }

  /** The check of a listed table against the cached policy: FirewallRoundTrip.ListingDetermines says when
      the listing of one policy is exact for another. */
  predicate Agrees(n: Network) {
    && n.kernel.Holds?
    && n.kernel.config == n.config
    && Consistent(Policy(n.interface, n.sources, n.probe))
    && n.kernel.policy.interface == n.interface
    && n.kernel.policy.sources == n.sources
    && (n.kernel.policy.probe == n.probe || n.sources == [])
  }

  predicate Proven(n: Network, item: Item) {
    && n.candidate == Some(item)
    && n.proof.Some? && n.proof.value.epoch == n.epoch && n.proof.value.item == item
    && n.clock - n.proof.value.at <= PROOF_LIFETIME
  }

  predicate Current(n: Network, epoch: nat, item: Item) {
    epoch == n.epoch && n.candidate == Some(item)
  }

  /** A new generation. */
  function Generation(n: Network, candidate: Option<Item>): Network {
    n.(epoch := n.epoch + 1, candidate := candidate, proof := None)
  }

  function Forgotten(n: Network): Network {
    Generation(n, None).(committed := None)
  }

  function Blocked(n: Network): Policy {
    Policy(None, n.sources, None)
  }

  // ----- Tasks -----

  datatype Fault = Lifecycle | Provider | Decoding | Cancelled

  /** How an awaited command ends. */
  datatype Result = Passes | Raises(fault: Fault, effect: bool)

  /** What a policy rewrite is for. */
  datatype Job =
    | Block(owner: nat, interface: Interface)
    | StartRevoke(owner: nat, item: Item)
    | StartRegister(owner: nat, item: Item)
    | StartUndo
    | ProbeRevoke
    | ProbeUndo
    | Commit(item: Item, asked: Network)
    | CommitUndo(item: Item)
    | CommitRevoke

  datatype Stage =
    | Listing(target: Policy)
    | Checking(target: Policy)
    | Applying(target: Policy)
    | Observing(target: Policy)
    | Reapplying(fault: Fault)
    | Reobserving(fault: Fault)
    | Removing(fault: Fault)

  datatype ArmStage = ArmListing | ArmProvider | ArmChecking | ArmApplying | ArmObserving

  datatype RebindStage =
    | RebindObserving | RebindProvider | RebindChecking | RebindApplying | RebindProving | RebindRestoring
    | RebindReobserving

  /** Where a task is. */
  datatype Pc =
    | Done
    // Outside the policy lock.
    | Probing(begun: Network, item: Item, round: nat)
    | ProbeEnding(begun: Network, item: Item, ready: bool)
    | ProbeCancelled(begun: Network, item: Item)
    | StartWaiting(owner: nat, item: Item)
    | Starting(item: Item, epoch: nat)
    | StartChecking(item: Item, epoch: nat)
    | StartFailing(item: Item, epoch: nat)
    | BlockWaiting(owner: nat, interface: Interface)
    | TearingDown
    | CommitWaiting(item: Item)
    | CommitCancelled(item: Item)
    | ArmWaiting
    | RebindWaiting(target: Config)
    // Holding the policy lock.
    | Rewriting(job: Job, stage: Stage)
    | CommitProving(item: Item)
    | Arming(arm: ArmStage)
    | Rebinding(target: Config, original: Config, rebind: RebindStage)

  predicate Holding(pc: Pc) {
    pc.Rewriting? || pc.CommitProving? || pc.Arming? || pc.Rebinding?
  }

  /** Tasks inside a start, stop or commit hold the mutation lock throughout. */
  predicate Mutating(pc: Pc) {
    match pc
    case StartWaiting(_, _) | Starting(_, _) | StartChecking(_, _) | StartFailing(_, _) => true
    case BlockWaiting(_, _) | TearingDown | CommitWaiting(_) | CommitCancelled(_) | CommitProving(_) => true
    case Rewriting(job, _) => !job.ProbeRevoke? && !job.ProbeUndo?
    case _ => false
  }

  // ----- History -----

  /** The policy when a successful probe began and when it recorded its proof. */
  datatype Evidence = Evidence(begun: Network, ended: Network)

  /** The policy when an opening was asked for and when the kernel took it. */
  datatype Opening = Opening(asked: Network, taken: Network, policy: Policy)

  /** The policy when a teardown revoked it, and the generation the caller owned. */
  datatype Teardown = Teardown(interface: Interface, revoked: Network, owned: Option<nat>)

  /** Since the last write that was reported to have passed: `removed`, a failed rewrite fell back to removing
      the ingress; `lost`, it could not even do that; `unrestored`, a rebind could neither apply its table nor
      restore the old one. */
  datatype State = State(
    net: Network,
    owned: map<nat, nat>,
    lock: Option<nat>,
    mutation: Option<nat>,
    tasks: map<nat, Pc>,
    evidence: set<Evidence>,
    openings: set<Opening>,
    teardowns: set<Teardown>,
    written: bool,
    removed: bool,
    lost: bool,
    unrestored: bool)

  function Owned(s: State, owner: nat): Option<nat> {
    if owner in s.owned then Some(s.owned[owner]) else None
  }

  /** Task `t` goes on, holding what its new place holds. */
  function Moves(s: State, t: nat, pc: Pc): State {
    s.(tasks := s.tasks[t := pc],
       lock := if Holding(pc) then Some(t) else if s.lock == Some(t) then None else s.lock,
       mutation := if Mutating(pc) then Some(t) else if s.mutation == Some(t) then None else s.mutation)
  }

  /** The kernel takes a table. */
  function Write(s: State, config: Config, policy: Policy, asked: Network): State {
    s.(net := s.net.(kernel := Holds(config, policy)),
       written := true,
       openings := if policy.interface.Some? then s.openings + {Opening(asked, s.net, policy)} else s.openings)
  }

  /** The command that wrote the table passed, so it is known what the kernel holds. */
  function Known(s: State): State {
    s.(removed := false, lost := false, unrestored := false)
  }

  function Asked(s: State, job: Job): Network {
    if job.Commit? then job.asked else s.net
  }

  // ----- Rewriting the policy -----

  /** Revoking forgets the commitment before anything else; only a probe keeps its own interface open. */
  function Revoke(s: State, t: nat, job: Job, keep: bool): State {
    var n := s.net.(committed := None);
    var target := Policy(None, n.sources, if keep then n.probe else None);
    Moves(s.(net := n), t, Rewriting(job, Listing(target)))
  }

  predicate Registrable(n: Network, item: Item)
    requires Ascending(n.sources)
  {
    item.interface in PROVIDERS && Allowed(item.address) && |Insert(item.address, n.sources)| <= SOURCE_BUDGET
  }

  function Register(s: State, t: nat, owner: nat, item: Item): State {
    if Ascending(s.net.sources) && Registrable(s.net, item) then
      var target := Policy(None, Insert(item.address, s.net.sources), Some(item.interface));
      Moves(s, t, Rewriting(StartRegister(owner, item), Listing(target)))
    else Moves(s, t, Done)
  }

  /** What follows a rewrite that went through. */
  function Finished(s: State, t: nat, job: Job): State {
    match job
    case Block(owner, interface) =>
      var noted := s.(teardowns := s.teardowns + {Teardown(interface, s.net, Owned(s, owner))});
      Moves(noted.(net := Generation(s.net, None)), t, TearingDown)
    case StartRevoke(owner, item) => Register(s, t, owner, item)
    case StartRegister(owner, item) =>
      var n := Generation(s.net, Some(item));
      Moves(s.(net := n, owned := s.owned[owner := n.epoch]), t, Starting(item, n.epoch))
    case StartUndo => Moves(s.(net := Generation(s.net, None)), t, Done)
    case ProbeRevoke => Moves(s, t, Done)
    case ProbeUndo => Moves(s.(net := s.net.(proof := None)), t, Done)
    case Commit(item, _) => Moves(s.(net := s.net.(committed := Some(Commitment(s.net.epoch, item)))), t, Done)
    case CommitUndo(_) => Moves(s, t, Done)
    case CommitRevoke => Moves(s.(net := s.net.(proof := None)), t, Done)
  }

  /** What follows a commit that raised. */
  function CommitFailed(s: State, t: nat, item: Item, fault: Fault): State {
    match fault
    case Lifecycle | Provider => Revoke(s.(net := s.net.(proof := None)), t, CommitUndo(item), false)
    case Cancelled => Moves(s, t, CommitCancelled(item))
    case Decoding => Moves(s, t, Done)
  }

  /** What follows a rewrite that raised. */
  function Failed(s: State, t: nat, job: Job, fault: Fault): State {
    match job
    case Commit(item, _) => CommitFailed(s, t, item, fault)
    case CommitUndo(item) => if fault.Cancelled? then Moves(s, t, CommitCancelled(item)) else Moves(s, t, Done)
    case _ => Moves(s, t, Done)
  }

  /** An unproven table is replaced by the blocked one; the cache claims nothing in the meantime. */
  function Recover(s: State, t: nat, job: Job, fault: Fault): State {
    Moves(s.(net := s.net.(interface := None, committed := None, probe := None)), t, Rewriting(job, Reapplying(fault)))
  }

  function AfterListing(s: State, t: nat, job: Job, p: Policy, r: Result): State {
    if r.Raises? then Failed(s, t, job, r.fault)
    else if !Agrees(s.net) then Failed(s, t, job, Lifecycle)
    else Moves(s, t, Rewriting(job, Checking(p)))
  }

  function AfterChecking(s: State, t: nat, job: Job, p: Policy, r: Result): State {
    if r.Raises? then Failed(s, t, job, r.fault)
    else Moves(s.(net := s.net.(sources := p.sources, probe := p.probe)), t, Rewriting(job, Applying(p)))
  }

  function AfterApplying(s: State, t: nat, job: Job, p: Policy, r: Result): State {
    if r.Passes? then
      var w := Known(Write(s, s.net.config, p, Asked(s, job)));
      Moves(w.(net := w.net.(interface := p.interface)), t, Rewriting(job, Observing(p)))
    else Recover(if r.effect then Write(s, s.net.config, p, Asked(s, job)) else s, t, job, r.fault)
  }

  function AfterObserving(s: State, t: nat, job: Job, r: Result): State {
    if r.Raises? then Recover(s, t, job, r.fault)
    else if !Agrees(s.net) then Recover(s, t, job, Lifecycle)
    else Finished(s, t, job)
  }

  function AfterReapplying(s: State, t: nat, job: Job, f: Fault, r: Result): State {
    var w := if r.Passes? || r.effect then Write(s, s.net.config, Blocked(s.net), s.net) else s;
    if r.Passes? then Moves(Known(w), t, Rewriting(job, Reobserving(f)))
    else if r.fault.Cancelled? then Failed(w.(lost := true), t, job, Cancelled)
    else Moves(w, t, Rewriting(job, Removing(f)))
  }

  function AfterReobserving(s: State, t: nat, job: Job, f: Fault, r: Result): State {
    if r.Passes? && Agrees(s.net) then Failed(s, t, job, f)
    else if r.Raises? && r.fault.Cancelled? then Failed(s.(lost := true), t, job, Cancelled)
    else Moves(s, t, Rewriting(job, Removing(f)))
  }

  function AfterRemoving(s: State, t: nat, job: Job, f: Fault, r: Result): State {
    if !s.net.active then Failed(s.(lost := true), t, job, f)
    else if r.Passes? then Failed(s.(net := s.net.(active := false), removed := true), t, job, f)
    else Failed(s.(lost := true), t, job, r.fault)
  }

  function Rewrite(s: State, t: nat, job: Job, stage: Stage, r: Result): State {
    match stage
    case Listing(p) => AfterListing(s, t, job, p, r)
    case Checking(p) => AfterChecking(s, t, job, p, r)
    case Applying(p) => AfterApplying(s, t, job, p, r)
    case Observing(_) => AfterObserving(s, t, job, r)
    case Reapplying(f) => AfterReapplying(s, t, job, f, r)
    case Reobserving(f) => AfterReobserving(s, t, job, f, r)
    case Removing(f) => AfterRemoving(s, t, job, f, r)
  }

  // ----- Arming and rebinding -----

  function Arm(s: State, t: nat, stage: ArmStage, r: Result): State {
    match stage
    case ArmListing =>
      if r.Raises? || s.net.kernel.Foreign? || (s.net.kernel.Holds? && s.net.kernel.config != s.net.config) then
        Moves(s, t, Done)
      else
        var n := if s.net.kernel.Holds? then s.net.(sources := s.net.kernel.policy.sources) else s.net;
        Moves(s.(net := n), t, Arming(ArmProvider))
    case ArmProvider =>
      if r.Raises? then Moves(s, t, Done) else Moves(s.(net := s.net.(probe := None)), t, Arming(ArmChecking))
    case ArmChecking => if r.Raises? then Moves(s, t, Done) else Moves(s, t, Arming(ArmApplying))
    case ArmApplying =>
      var w := if r.Passes? || r.effect then Write(s, s.net.config, Blocked(s.net), s.net) else s;
      if r.Raises? then Moves(w, t, Done)
      else Moves(Known(w).(net := Forgotten(w.net).(interface := None)), t, Arming(ArmObserving))
    case ArmObserving => Moves(s, t, Done)
  }

  function Rebound(n: Network, config: Config): Network {
    Forgotten(n).(config := config, interface := None, probe := None)
  }

  function Rebind(s: State, t: nat, target: Config, original: Config, stage: RebindStage, r: Result): State {
    match stage
    case RebindObserving =>
      if r.Raises? || !Agrees(s.net) then Moves(s, t, Done)
      else Moves(s, t, Rebinding(target, original, RebindProvider))
    case RebindProvider =>
      if r.Raises? then Moves(s, t, Done) else Moves(s, t, Rebinding(target, original, RebindChecking))
    case RebindChecking =>
      if r.Raises? then Moves(s, t, Done)
      else Moves(s.(net := Forgotten(s.net)), t, Rebinding(target, original, RebindApplying))
    case RebindApplying =>
      var w := if r.Passes? || r.effect then Write(s, target, Blocked(s.net), s.net) else s;
      if r.Raises? then Moves(w, t, Rebinding(target, original, RebindRestoring))
      else Moves(Known(w).(net := Rebound(w.net, target)), t, Rebinding(target, original, RebindProving))
    case RebindProving =>
      if r.Passes? && Agrees(s.net) then Moves(s, t, Done)
      else Moves(s, t, Rebinding(target, original, RebindRestoring))
    case RebindRestoring =>
      var w := if r.Passes? || r.effect then Write(s, original, Blocked(s.net), s.net) else s;
      if r.Raises? then Moves(w.(unrestored := w.unrestored || !r.effect), t, Done)
      else Moves(Known(w).(net := Rebound(w.net, original)), t, Rebinding(target, original, RebindReobserving))
    case RebindReobserving => Moves(s, t, Done)
  }

  // ----- Calls, lock acquisitions and awaited results outside the lock -----

  datatype Call =
    | Start(owner: nat, item: Item)
    | Probe(item: Item)
    | CommitCall(item: Item)
    | Stop(owner: nat, interface: Interface)
    | ArmGuard
    | RebindIngress(target: Config)

  /** A caller that owns nothing current may not tear down the current generation of its interface. */
  predicate MayTearDown(n: Network, owned: map<nat, nat>, owner: nat, interface: Interface) {
    n.candidate.Some? && n.candidate.value.interface == interface ==> owner in owned && owned[owner] == n.epoch
  }

  /** Where a call first waits, if it is let in. */
  function FirstPlace(s: State, call: Call): Option<Pc> {
    match call
    case Start(owner, item) => if s.mutation.None? && ItemOk(item) then Some(StartWaiting(owner, item)) else None
    case Probe(item) => if ItemOk(item) && s.net.candidate == Some(item) then Some(Probing(s.net, item, 0)) else None
    case CommitCall(item) => if s.mutation.None? && ItemOk(item) then Some(CommitWaiting(item)) else None
    case Stop(owner, interface) =>
      if s.mutation.None? && MayTearDown(s.net, s.owned, owner, interface) then Some(BlockWaiting(owner, interface))
      else None
    case ArmGuard => Some(ArmWaiting)
    case RebindIngress(target) => if ConfigOk(target) then Some(RebindWaiting(target)) else None
  }

  /** A call takes the mutation lock if it needs it and runs up to its first wait. */
  function Begin(s: State, t: nat, call: Call): State {
    var place := FirstPlace(s, call);
    if place.None? then s else Moves(s, t, place.value)
  }

  /** A waiting task gets the free policy lock and runs up to its next wait. */
  function Acquire(s: State, t: nat, pc: Pc): State {
    match pc
    case ProbeEnding(begun, item, ready) =>
      if !Current(s.net, begun.epoch, item) then Moves(s, t, Done)
      else if ready then
        var n := s.net.(proof := Some(Proof(begun.epoch, item, s.net.clock)));
        Moves(s.(net := n, evidence := s.evidence + {Evidence(begun, s.net)}), t, Done)
      else Revoke(s.(net := s.net.(proof := None)), t, ProbeRevoke, true)
    case ProbeCancelled(begun, item) =>
      if Current(s.net, begun.epoch, item) then Revoke(s, t, ProbeUndo, true) else Moves(s, t, Done)
    case StartWaiting(owner, item) => Revoke(s, t, StartRevoke(owner, item), false)
    case StartChecking(item, epoch) =>
      if Current(s.net, epoch, item) then Moves(s, t, Done) else Moves(s, t, StartFailing(item, epoch))
    case StartFailing(item, epoch) =>
      if epoch == s.net.epoch then Revoke(s, t, StartUndo, false) else Moves(s, t, Done)
    case BlockWaiting(owner, interface) =>
      if s.net.candidate.Some? && s.net.candidate.value.interface != interface then Moves(s, t, TearingDown)
      else Revoke(s, t, Block(owner, interface), false)
    case CommitWaiting(item) =>
      if Proven(s.net, item) then Moves(s, t, CommitProving(item)) else Moves(s, t, Done)
    case CommitCancelled(item) =>
      if s.net.candidate == Some(item) then Revoke(s, t, CommitRevoke, false) else Moves(s, t, Done)
    case ArmWaiting => Moves(s, t, Arming(ArmListing))
    case RebindWaiting(target) => Moves(s, t, Rebinding(target, s.net.config, RebindObserving))
    case _ => s
  }

  /** Where an ended round of a probe leads. */
  function AfterRound(n: Network, begun: Network, item: Item, round: nat, r: Result): Pc {
    if r.Passes? then
      if !Current(n, begun.epoch, item) then ProbeEnding(begun, item, false)
      else if round == 1 then ProbeEnding(begun, item, true)
      else Probing(begun, item, round + 1)
    else if r.fault.Cancelled? then ProbeCancelled(begun, item)
    else if r.fault.Decoding? then Done
    else ProbeEnding(begun, item, false)
  }

  /** Where an ended await outside the policy lock leads; a waiting task can only be cancelled. */
  function NextPlace(n: Network, pc: Pc, r: Result): Option<Pc> {
    var cancelled := r.Raises? && r.fault.Cancelled?;
    match pc
    case Probing(begun, item, round) => Some(AfterRound(n, begun, item, round, r))
    case Starting(item, epoch) => Some(if r.Passes? then StartChecking(item, epoch) else StartFailing(item, epoch))
    case TearingDown => Some(Done)
    case StartChecking(item, epoch) => if cancelled then Some(StartFailing(item, epoch)) else None
    case CommitWaiting(item) => if cancelled then Some(CommitCancelled(item)) else None
    case _ => if cancelled then Some(Done) else None
  }

  /** An await outside the policy lock ends. */
  function Awaited(s: State, t: nat, pc: Pc, r: Result): State {
    var place := NextPlace(s.net, pc, r);
    if place.None? then s else Moves(s, t, place.value)
  }

  /** An await under the policy lock ends. */
  function Held(s: State, t: nat, pc: Pc, r: Result): State {
    match pc
    case Rewriting(job, stage) => Rewrite(s, t, job, stage, r)
    case CommitProving(item) =>
      if r.Raises? then CommitFailed(s, t, item, r.fault)
      else if !Proven(s.net, item) then CommitFailed(s, t, item, Lifecycle)
      else
        var target := Policy(Some(item.interface), s.net.sources, Some(item.interface));
        Moves(s, t, Rewriting(Commit(item, s.net), Listing(target)))
    case Arming(stage) => Arm(s, t, stage, r)
    case Rebinding(target, original, stage) => Rebind(s, t, target, original, stage, r)
    case _ => s
  }

  datatype Action = Called(call: Call) | Acquires | Ends(result: Result) | Ticks(span: nat)

  /** One step of task `t`; an action its place does not admit changes nothing. */
  function Step(s: State, t: nat, a: Action): State {
    match a
    case Ticks(span) => s.(net := s.net.(clock := s.net.clock + span))
    case Called(call) => if t in s.tasks && s.tasks[t] != Done then s else Begin(s, t, call)
    case Acquires => if t in s.tasks && s.lock.None? then Acquire(s, t, s.tasks[t]) else s
    case Ends(r) =>
      if t !in s.tasks || s.tasks[t].Done? then s
      else if Holding(s.tasks[t]) then Held(s, t, s.tasks[t], r)
      else Awaited(s, t, s.tasks[t], r)
  }

  function Run(s: State, schedule: seq<(nat, Action)>): State {
    if schedule == [] then s
    else
      var last := schedule[|schedule| - 1];
      Step(Run(s, schedule[..|schedule| - 1]), last.0, last.1)
  }

  /** A fresh process: nothing granted, and whatever table an earlier process left in the kernel. */
  predicate Fresh(s: State) {
    && ConfigOk(s.net.config)
    && s.net.candidate.None? && s.net.proof.None? && s.net.committed.None?
    && s.net.interface.None? && s.net.sources == [] && s.net.probe.None?
    && (s.net.kernel.Holds? ==> ConfigOk(s.net.kernel.config) && Writable(s.net.kernel.policy))
    && s.owned == map[] && s.lock.None? && s.mutation.None? && s.tasks == map[]
    && s.evidence == {} && s.openings == {} && s.teardowns == {}
    && !s.written && !s.removed && !s.lost && !s.unrestored
  }
}
