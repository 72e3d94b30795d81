/** Every step of the policy machine keeps the invariant. */
module PolicySafety {
  import opened Options
  import opened Net
  import opened Text
  import opened Firewall
  import opened FirewallRecognition
  import opened PolicyMachine
  import opened PolicyInvariant

  // ----- The pieces of a step -----

  /** Tasks that hold the policy lock, or may take it. */
  predicate Enters(s: State, t: nat) {
    s.lock.None? || s.lock == Some(t)
  }

  /** What a step of `t` has made of the shared policy so far is in order. */
  predicate Under(s: State, u: State, t: nat) {
    TasksOk(s) && Updates(s, u, t) && Core(u) && Enters(s, t)
  }

  predicate MayRewrite(s: State, t: nat, job: Job) {
    Mutating(Rewriting(job, Reapplying(Lifecycle))) ==> s.mutation == Some(t)
  }

  /** Another cache over the same table and generation. */
  predicate SameTable(n: Network, m: Network) {
    m.kernel == n.kernel && m.epoch == n.epoch && m.candidate == n.candidate && m.clock == n.clock &&
    (m.proof == n.proof || m.proof.None?)
  }

  lemma Recached(s: State, u: State, t: nat, n: Network)
    requires Under(s, u, t) && NetOk(n) && SameTable(u.net, n)
    ensures Under(s, u.(net := n), t)
    ensures Admitted(u) && n.interface == u.net.interface ==> Admitted(u.(net := n))
  {
    hide TasksOk, NetOk, LogsOk, OpenedOnRequest, Owns;
    CoreCached(u, u.(net := n));
    if Admitted(u) && n.interface == u.net.interface {
      AdmittedStays(u, u.(net := n));
    }
  }

  lemma GoesOn(s: State, u: State, t: nat, pc: Pc)
    requires Under(s, u, t) && (Mutating(pc) ==> s.mutation.None? || s.mutation == Some(t))
    requires PcOk(u.net, u.owned, pc) && (Admitted(u) || (Excused(pc) && Holding(pc)))
    ensures Keeps(s, Moves(u, t, pc))
  {
    hide Keeps, TasksOk, Updates, Core, Admitted, PcOk, Mutating, Excused;
    MoveKeeps(s, u, t, pc);
  }

  lemma BlockedFits(n: Network, job: Job, p: Policy)
    requires NetOk(n) && !job.Commit? && !job.StartRegister?
    requires p.interface.None? && p.sources == n.sources && (p.probe.None? || p.probe == n.probe)
    ensures Fits(n, job, p)
  {
    hide Allowed, Ascending, Registered, ConfigOk, ProofCurrent, CommitCurrent;
  }

  lemma RevokeKeeps(s: State, u: State, t: nat, job: Job, keep: bool)
    requires Under(s, u, t) && Admitted(u)
    requires Mutating(Rewriting(job, Reapplying(Lifecycle))) ==> s.mutation.None? || s.mutation == Some(t)
    requires !job.Commit? && !job.StartRegister? && (job.StartRevoke? || job.CommitUndo? ==> ItemOk(job.item))
    requires BlockOk(u.net, u.owned, job)
    ensures Keeps(s, Revoke(u, t, job, keep))
  {
    hide Keeps, TasksOk, Updates, NetOk, LogsOk, OpenedOnRequest, Admitted, Fits, ItemOk;
    var n := u.net.(committed := None);
    NetForgets(u.net);
    Recached(s, u, t, n);
    var target := Policy(None, n.sources, if keep then n.probe else None);
    BlockedFits(n, job, target);
    GoesOn(s, u.(net := n), t, Rewriting(job, Listing(target)));
  }

  lemma LogsWritten(s: State, u: State, o: Opening)
    requires LogsOk(s) && OpeningOk(s.evidence, o)
    requires u.evidence == s.evidence && u.teardowns == s.teardowns && u.net.proof == s.net.proof
    requires u.openings == s.openings + {o} || u.openings == s.openings
    ensures LogsOk(u)
  {
    hide OpeningOk, EvidenceOk, TeardownOk, Backed;
  }

  /** Writing a table keeps the candidate registered and the openings justified. */
  lemma WriteKeeps(s: State, config: Config, p: Policy, asked: Network)
    requires Core(s) && ConfigOk(config) && Writable(p)
    requires forall a | a in s.net.sources :: a in p.sources
    requires p.interface.Some? ==> OpeningOk(s.evidence, Opening(asked, s.net, p))
    requires s.net.committed.Some? && p.interface.Some? ==> p.interface == s.net.interface
    ensures Core(Write(s, config, p, asked))
  {
    hide NetOk, OpeningOk, EvidenceOk, TeardownOk, Backed, Writable, ConfigOk;
    var u := Write(s, config, p, asked);
    NetWritten(s.net, config, p);
    if p.interface.Some? {
      var o := Opening(asked, s.net, p);
      LogsWritten(s, u, o);
      assert o in u.openings;
    }
  }

  lemma BlockedWritable(n: Network)
    requires NetOk(n)
    ensures Writable(Blocked(n)) && ConfigOk(n.config)
  {
    hide Allowed, Ascending, Registered, ConfigOk, ProofCurrent, CommitCurrent;
  }

  /** Writing the blocked table, under this ingress or another. */
  lemma BlockKeeps(s: State, t: nat, config: Config)
    requires Under(s, s, t) && s.lock == Some(t) && ConfigOk(config)
    ensures var w := Write(s, config, Blocked(s.net), s.net);
            Under(s, w, t) && Admitted(w) && Under(s, Known(w), t) && Admitted(Known(w))
  {
    hide TasksOk, NetOk, LogsOk, OpenedOnRequest, Owns, Writable, ConfigOk;
    BlockedWritable(s.net);
    var w := Write(s, config, Blocked(s.net), s.net);
    WriteKeeps(s, config, Blocked(s.net), s.net);
    CoreCached(w, Known(w));
  }

  lemma CommitFailedKeeps(s: State, u: State, t: nat, item: Item, f: Fault)
    requires Under(s, u, t) && Admitted(u) && s.mutation == Some(t) && ItemOk(item)
    ensures Keeps(s, CommitFailed(u, t, item, f))
  {
    hide Keeps, TasksOk, Updates, NetOk, LogsOk, OpenedOnRequest, Admitted, ItemOk, Revoke;
    if f.Lifecycle? || f.Provider? {
      NetForgets(u.net);
      Recached(s, u, t, u.net.(proof := None));
      RevokeKeeps(s, u.(net := u.net.(proof := None)), t, CommitUndo(item), false);
    } else {
      GoesOn(s, u, t, if f.Cancelled? then CommitCancelled(item) else Done);
    }
  }

  lemma FailedKeeps(s: State, u: State, t: nat, job: Job, f: Fault)
    requires Under(s, u, t) && Admitted(u) && JobOk(u.net, job) && MayRewrite(s, t, job)
    ensures Keeps(s, Failed(u, t, job, f))
  {
    hide Keeps, Under, Admitted, CommitFailed, ItemOk, Proven, Unchanged;
    if job.Commit? {
      CommitFailedKeeps(s, u, t, job.item, f);
    } else {
      GoesOn(s, u, t, if job.CommitUndo? && f.Cancelled? then CommitCancelled(job.item) else Done);
    }
  }

  lemma RecoverKeeps(s: State, u: State, t: nat, job: Job, f: Fault)
    requires Under(s, u, t) && JobOk(u.net, job) && MayRewrite(s, t, job) && BlockOk(u.net, u.owned, job)
    ensures Keeps(s, Recover(u, t, job, f))
  {
    hide Keeps, TasksOk, Updates, NetOk, LogsOk, OpenedOnRequest, Admitted, ItemOk, Proven;
    var n := u.net.(interface := None, committed := None, probe := None);
    NetForgets(u.net);
    Recached(s, u, t, n);
    GoesOn(s, u.(net := n), t, Rewriting(job, Reapplying(f)));
  }

  lemma InsertFits(n: Network, owner: nat, item: Item)
    requires NetOk(n) && Registrable(n, item)
    ensures Fits(n, StartRegister(owner, item), Policy(None, Insert(item.address, n.sources), Some(item.interface)))
  {
    hide Allowed, Registered, ConfigOk, ProofCurrent, CommitCurrent;
  }

  lemma RegisterKeeps(s: State, t: nat, owner: nat, item: Item)
    requires Under(s, s, t) && Admitted(s) && s.mutation == Some(t) && ItemOk(item) && s.net.committed.None?
    ensures Keeps(s, Register(s, t, owner, item))
  {
    hide Keeps, TasksOk, Updates, LogsOk, OpenedOnRequest, Admitted, ItemOk, Ascending, Registrable, Fits;
    if Ascending(s.net.sources) && Registrable(s.net, item) {
      InsertFits(s.net, owner, item);
      var target := Policy(None, Insert(item.address, s.net.sources), Some(item.interface));
      GoesOn(s, s, t, Rewriting(StartRegister(owner, item), Listing(target)));
    } else {
      GoesOn(s, s, t, Done);
    }
  }

  // ----- Rewriting -----

  /** Task `t` holds the lock at this place. */
  predicate At(s: State, t: nat, pc: Pc) {
    Inv(s) && t in s.tasks && s.tasks[t] == pc && s.lock == Some(t) && Holding(pc)
  }

  lemma Holder(s: State, t: nat, pc: Pc)
    requires At(s, t, pc)
    ensures Under(s, s, t) && PcOk(s.net, s.owned, pc) && (Mutating(pc) ==> s.mutation == Some(t))
    ensures Excused(pc) || Admitted(s)
  {
    hide NetOk, LogsOk, OpenedOnRequest, PcOk, Admitted;
    assert TaskOk(s, t, s.tasks[t]);
  }

  /** What a rewrite may rely on. */
  predicate Rewrites(s: State, t: nat, job: Job, stage: Stage) {
    && Under(s, s, t) && s.lock == Some(t) && MayRewrite(s, t, job)
    && JobOk(s.net, job) && StageOk(s.net, job, stage) && BlockOk(s.net, s.owned, job)
  }

  lemma Rewriter(s: State, t: nat, job: Job, stage: Stage)
    requires At(s, t, Rewriting(job, stage))
    ensures Rewrites(s, t, job, stage) && (stage.Reapplying? || stage.Removing? || Admitted(s))
  {
    hide Inv, Under, JobOk, StageOk, BlockOk, Admitted;
    Holder(s, t, Rewriting(job, stage));
  }

  lemma ListingKeeps(s: State, t: nat, job: Job, p: Policy, r: Result)
    requires Rewrites(s, t, job, Listing(p)) && Admitted(s)
    ensures Keeps(s, AfterListing(s, t, job, p, r))
  {
    hide Keeps, Under, JobOk, BlockOk, Admitted, Fits, Agrees, Failed;
    if r.Raises? || !Agrees(s.net) {
      FailedKeeps(s, s, t, job, if r.Raises? then r.fault else Lifecycle);
    } else {
      GoesOn(s, s, t, Rewriting(job, Checking(p)));
    }
  }

  lemma FittingCache(n: Network, job: Job, p: Policy)
    requires NetOk(n) && JobOk(n, job) && Fits(n, job, p)
    ensures var m := n.(sources := p.sources, probe := p.probe);
            NetOk(m) && JobOk(m, job) && Fits(m, job, p) && SameTable(n, m)
  {
    hide NetOk, Allowed, Ascending, ConfigOk, ItemOk, Proven;
    NetCached(n, p.sources, p.probe);
  }

  lemma CheckingKeeps(s: State, t: nat, job: Job, p: Policy, r: Result)
    requires Rewrites(s, t, job, Checking(p)) && Admitted(s)
    ensures Keeps(s, AfterChecking(s, t, job, p, r))
  {
    hide Keeps, TasksOk, Updates, NetOk, LogsOk, OpenedOnRequest, JobOk, Admitted, Fits, SameTable, Failed;
    if r.Raises? {
      FailedKeeps(s, s, t, job, r.fault);
    } else {
      var n := s.net.(sources := p.sources, probe := p.probe);
      FittingCache(s.net, job, p);
      Recached(s, s, t, n);
      GoesOn(s, s.(net := n), t, Rewriting(job, Applying(p)));
    }
  }

  lemma AskedOpening(s: State, job: Job, p: Policy)
    requires Core(s) && JobOk(s.net, job) && Fits(s.net, job, p) && p.interface.Some?
    ensures OpeningOk(s.evidence, Opening(Asked(s, job), s.net, p))
    ensures s.net.committed.Some? ==> p.interface == s.net.interface
    ensures Asked(s, job).epoch == s.net.epoch && Asked(s, job).candidate == s.net.candidate
  {
    hide OpenedOnRequest, Backed, Allowed, Ascending, Registered, ConfigOk, ItemOk, Writable;
  }

  /** The table goes to the kernel, whatever the command then reports. */
  lemma WrittenKeeps(s: State, t: nat, job: Job, p: Policy)
    requires Rewrites(s, t, job, Applying(p))
    ensures var w := Write(s, s.net.config, p, Asked(s, job)); Under(s, w, t) && JobOk(w.net, job)
  {
    hide TasksOk, NetOk, LogsOk, OpenedOnRequest, OpeningOk, ItemOk, Proven, Writable, ConfigOk;
    BlockedWritable(s.net);
    if p.interface.Some? {
      AskedOpening(s, job, p);
    }
    WriteKeeps(s, s.net.config, p, Asked(s, job));
  }

  lemma OpenedCache(s: State, job: Job, p: Policy)
    requires Core(s) && JobOk(s.net, job) && Fits(s.net, job, p)
    ensures var w := Write(s, s.net.config, p, Asked(s, job));
            NetOk(w.net) ==>
              NetOk(w.net.(interface := p.interface)) && Admitted(Known(w).(net := w.net.(interface := p.interface)))
  {
    hide LogsOk, OpenedOnRequest, OpeningOk, Allowed, Ascending, Registered, ConfigOk, ItemOk, Writable;
    var w := Write(s, s.net.config, p, Asked(s, job));
    if p.interface.Some? {
      AskedOpening(s, job, p);
      assert Opening(Asked(s, job), s.net, p) in w.openings;
    }
    if NetOk(w.net) {
      NetOpened(w.net, p.interface);
    }
  }

  lemma AppliedKeeps(s: State, t: nat, job: Job, p: Policy)
    requires Rewrites(s, t, job, Applying(p))
    ensures Keeps(s, AfterApplying(s, t, job, p, Passes))
  {
    hide Keeps, TasksOk, NetOk, LogsOk, OpenedOnRequest, Admitted, ItemOk, Proven, Writable;
    WrittenKeeps(s, t, job, p);
    OpenedCache(s, job, p);
    var w := Write(s, s.net.config, p, Asked(s, job));
    var n := w.net.(interface := p.interface);
    Recached(s, w, t, n);
    CoreCached(w.(net := n), Known(w).(net := n));
    GoesOn(s, Known(w).(net := n), t, Rewriting(job, Observing(p)));
  }

  lemma ApplyingKeeps(s: State, t: nat, job: Job, p: Policy, r: Result)
    requires Rewrites(s, t, job, Applying(p))
    ensures Keeps(s, AfterApplying(s, t, job, p, r))
  {
    hide Keeps, Under, JobOk, StageOk, Asked, Recover;
    if r.Passes? {
      AppliedKeeps(s, t, job, p);
    } else {
      WrittenKeeps(s, t, job, p);
      RecoverKeeps(s, if r.effect then Write(s, s.net.config, p, Asked(s, job)) else s, t, job, r.fault);
    }
  }

  /** A new generation starts with nothing proven or committed, over a blocked table. */
  lemma GenerationKeeps(s: State, u: State, t: nat, candidate: Option<Item>, owned: map<nat, nat>)
    requires Under(s, u, t) && u.net.committed.None? && u.net.epoch == s.net.epoch && u.owned == s.owned
    requires u.net.kernel.Holds? && u.net.kernel.policy.interface.None?
    requires candidate.Some? ==> s.mutation == Some(t) && Registered(u.net, candidate.value)
    requires owned == u.owned || s.mutation == Some(t)
    ensures var v := u.(net := Generation(u.net, candidate), owned := owned); Under(s, v, t) && Admitted(v)
  {
    hide TasksOk, NetOk, LogsOk, OpenedOnRequest, Owns, Registered;
    NetGeneration(u.net, candidate);
    CoreCached(u, u.(net := Generation(u.net, candidate), owned := owned));
  }

  lemma RegisteredKeeps(s: State, t: nat, owner: nat, item: Item, p: Policy)
    requires Rewrites(s, t, StartRegister(owner, item), Observing(p))
    ensures Keeps(s, Finished(s, t, StartRegister(owner, item)))
  {
    hide Keeps, Under, Admitted, ItemOk, Writable;
    var g := Generation(s.net, Some(item));
    GenerationKeeps(s, s, t, Some(item), s.owned[owner := g.epoch]);
    GoesOn(s, s.(net := g, owned := s.owned[owner := g.epoch]), t, Starting(item, g.epoch));
  }

  lemma LogsNoted(s: State, d: Teardown)
    requires Core(s) && TeardownOk(d)
    ensures Core(s.(teardowns := s.teardowns + {d}))
  {
    hide NetOk, OpeningOk, EvidenceOk, TeardownOk, Backed;
  }

  lemma TornDownKeeps(s: State, t: nat, owner: nat, interface: Interface, p: Policy)
    requires Rewrites(s, t, Block(owner, interface), Observing(p))
    ensures Keeps(s, Finished(s, t, Block(owner, interface)))
  {
    hide Keeps, TasksOk, NetOk, LogsOk, OpenedOnRequest, Admitted, Writable;
    var d := Teardown(interface, s.net, Owned(s, owner));
    LogsNoted(s, d);
    var noted := s.(teardowns := s.teardowns + {d});
    GenerationKeeps(s, noted, t, None, s.owned);
    GoesOn(s, noted.(net := Generation(s.net, None)), t, TearingDown);
  }

  lemma CommittedKeeps(s: State, t: nat, item: Item, asked: Network, p: Policy)
    requires Rewrites(s, t, Commit(item, asked), Observing(p)) && Admitted(s)
    ensures Keeps(s, Finished(s, t, Commit(item, asked)))
  {
    hide Keeps, TasksOk, Updates, NetOk, LogsOk, OpenedOnRequest, Admitted, ItemOk, Writable;
    var n := s.net.(committed := Some(Commitment(s.net.epoch, item)));
    NetCommits(s.net, item);
    Recached(s, s, t, n);
    GoesOn(s, s.(net := n), t, Done);
  }

  lemma UnprovenKeeps(s: State, t: nat)
    requires Under(s, s, t) && Admitted(s)
    ensures Keeps(s, Moves(s.(net := s.net.(proof := None)), t, Done)) && Keeps(s, Moves(s, t, Done))
  {
    hide Keeps, TasksOk, Updates, NetOk, LogsOk, OpenedOnRequest, Admitted;
    NetForgets(s.net);
    Recached(s, s, t, s.net.(proof := None));
    GoesOn(s, s.(net := s.net.(proof := None)), t, Done);
    GoesOn(s, s, t, Done);
  }

  lemma FinishedKeeps(s: State, t: nat, job: Job, p: Policy)
    requires Rewrites(s, t, job, Observing(p)) && Admitted(s)
    ensures Keeps(s, Finished(s, t, job))
  {
    hide Keeps, Under, Admitted, ItemOk, Proven, Writable, Register, Registered;
    match job
    case Block(owner, interface) => TornDownKeeps(s, t, owner, interface, p);
    case StartRevoke(owner, item) => RegisterKeeps(s, t, owner, item);
    case StartRegister(owner, item) => RegisteredKeeps(s, t, owner, item, p);
    case StartUndo =>
      GenerationKeeps(s, s, t, None, s.owned);
      GoesOn(s, s.(net := Generation(s.net, None)), t, Done);
    case Commit(item, asked) => CommittedKeeps(s, t, item, asked, p);
    case _ => UnprovenKeeps(s, t);
  }

  lemma ObservingKeeps(s: State, t: nat, job: Job, p: Policy, r: Result)
    requires Rewrites(s, t, job, Observing(p)) && Admitted(s)
    ensures Keeps(s, AfterObserving(s, t, job, r))
  {
    hide Keeps, Under, JobOk, StageOk, BlockOk, Admitted, Agrees, Recover, Finished;
    if r.Raises? || !Agrees(s.net) {
      RecoverKeeps(s, s, t, job, if r.Raises? then r.fault else Lifecycle);
    } else {
      FinishedKeeps(s, t, job, p);
    }
  }

  /** Giving up a recovery is remembered. */
  lemma AbandonedKeeps(s: State, u: State, t: nat, job: Job, f: Fault)
    requires Under(s, u, t) && JobOk(u.net, job) && MayRewrite(s, t, job)
    ensures Keeps(s, Failed(u.(lost := true), t, job, f))
  {
    hide Keeps, TasksOk, NetOk, LogsOk, OpenedOnRequest, Owns, JobOk, MayRewrite, Failed;
    CoreCached(u, u.(lost := true));
    FailedKeeps(s, u.(lost := true), t, job, f);
  }

  lemma ReapplyingFailed(s: State, u: State, t: nat, job: Job, f: Fault, g: Fault)
    requires Rewrites(s, t, job, Reapplying(f)) && Under(s, u, t)
    requires u.net == s.net.(kernel := u.net.kernel) && u.owned == s.owned
    ensures Keeps(s, if g.Cancelled? then Failed(u.(lost := true), t, job, g)
                     else Moves(u, t, Rewriting(job, Removing(f))))
  {
    hide Keeps, Under, Admitted, ItemOk, Proven, Failed;
    if g.Cancelled? {
      AbandonedKeeps(s, u, t, job, g);
    } else {
      GoesOn(s, u, t, Rewriting(job, Removing(f)));
    }
  }

  lemma ReappliedKeeps(s: State, t: nat, job: Job, f: Fault)
    requires Rewrites(s, t, job, Reapplying(f))
    ensures var w := Write(s, s.net.config, Blocked(s.net), s.net);
            Under(s, w, t) && Keeps(s, Moves(Known(w), t, Rewriting(job, Reobserving(f))))
  {
    hide Keeps, TasksOk, Updates, NetOk, LogsOk, OpenedOnRequest, Admitted, ItemOk, Proven;
    BlockedWritable(s.net);
    BlockKeeps(s, t, s.net.config);
    var w := Write(s, s.net.config, Blocked(s.net), s.net);
    GoesOn(s, Known(w), t, Rewriting(job, Reobserving(f)));
  }

  lemma ReapplyingKeeps(s: State, t: nat, job: Job, f: Fault, r: Result)
    requires Rewrites(s, t, job, Reapplying(f))
    ensures Keeps(s, AfterReapplying(s, t, job, f, r))
  {
    hide Keeps, Under, JobOk, StageOk, BlockOk, Failed;
    ReappliedKeeps(s, t, job, f);
    if r.Raises? {
      ReapplyingFailed(s, if r.effect then Write(s, s.net.config, Blocked(s.net), s.net) else s, t, job, f, r.fault);
    }
  }

  lemma ReobservingKeeps(s: State, t: nat, job: Job, f: Fault, r: Result)
    requires Rewrites(s, t, job, Reobserving(f)) && Admitted(s)
    ensures Keeps(s, AfterReobserving(s, t, job, f, r))
  {
    hide Keeps, Under, JobOk, BlockOk, Admitted, Agrees, Failed;
    if r.Passes? && Agrees(s.net) {
      FailedKeeps(s, s, t, job, f);
    } else if r.Raises? && r.fault.Cancelled? {
      AbandonedKeeps(s, s, t, job, Cancelled);
    } else {
      GoesOn(s, s, t, Rewriting(job, Removing(f)));
    }
  }

  lemma RemovedKeeps(s: State, t: nat, job: Job, f: Fault)
    requires Rewrites(s, t, job, Removing(f))
    ensures Keeps(s, Failed(s.(net := s.net.(active := false), removed := true), t, job, f))
  {
    hide Keeps, TasksOk, NetOk, LogsOk, OpenedOnRequest, Owns, ItemOk, Proven, Failed;
    var n := s.net.(active := false);
    NetForgets(s.net);
    CoreCached(s, s.(net := n, removed := true));
    FailedKeeps(s, s.(net := n, removed := true), t, job, f);
  }

  lemma RemovingKeeps(s: State, t: nat, job: Job, f: Fault, r: Result)
    requires Rewrites(s, t, job, Removing(f))
    ensures Keeps(s, AfterRemoving(s, t, job, f, r))
  {
    hide Keeps, Under, JobOk, StageOk, BlockOk, Failed;
    if !s.net.active || r.Raises? {
      AbandonedKeeps(s, s, t, job, if s.net.active then r.fault else f);
    } else {
      RemovedKeeps(s, t, job, f);
    }
  }

  lemma RewriteKeeps(s: State, t: nat, job: Job, stage: Stage, r: Result)
    requires At(s, t, Rewriting(job, stage))
    ensures Keeps(s, Rewrite(s, t, job, stage, r))
  {
    hide Keeps, Rewrites, Admitted, Inv;
    hide AfterListing, AfterChecking, AfterApplying, AfterObserving, AfterReapplying, AfterReobserving, AfterRemoving;
    Rewriter(s, t, job, stage);
    match stage
    case Listing(p) => ListingKeeps(s, t, job, p, r);
    case Checking(p) => CheckingKeeps(s, t, job, p, r);
    case Applying(p) => ApplyingKeeps(s, t, job, p, r);
    case Observing(p) => ObservingKeeps(s, t, job, p, r);
    case Reapplying(f) => ReapplyingKeeps(s, t, job, f, r);
    case Reobserving(f) => ReobservingKeeps(s, t, job, f, r);
    case Removing(f) => RemovingKeeps(s, t, job, f, r);
  }

  // ----- Arming and rebinding -----

  /** Forgetting the generation over a blocked table. */
  lemma ForgetKeeps(s: State, w: State, t: nat, config: Config, probe: Option<Interface>, pc: Pc)
    requires Under(s, w, t) && ConfigOk(config) && (probe.None? || probe == w.net.probe)
    requires w.net.kernel.Holds? && w.net.kernel.policy.interface.None?
    requires w.net.epoch == s.net.epoch && !Mutating(pc) && (pc.Arming? || pc.Rebinding?)
    requires pc.Rebinding? ==> ConfigOk(pc.target) && ConfigOk(pc.original)
    ensures Keeps(s, Moves(w.(net := Forgotten(w.net).(config := config, interface := None, probe := probe)), t, pc))
  {
    hide Keeps, TasksOk, NetOk, LogsOk, OpenedOnRequest, Owns, ConfigOk;
    var n := Forgotten(w.net).(config := config, interface := None, probe := probe);
    NetRebound(w.net, config, None, probe);
    CoreCached(w, w.(net := n));
    GoesOn(s, w.(net := n), t, pc);
  }

  lemma ArmKeeps(s: State, t: nat, stage: ArmStage, r: Result)
    requires At(s, t, Arming(stage))
    ensures Keeps(s, Arm(s, t, stage, r))
  {
    hide Keeps, Inv, Under, Admitted, Write, Known, Forgotten;
    Holder(s, t, Arming(stage));
    match stage
    case ArmListing => ArmListingKeeps(s, t, r);
    case ArmProvider => ArmProviderKeeps(s, t, r);
    case ArmChecking => GoesOn(s, s, t, if r.Raises? then Done else Arming(ArmApplying));
    case ArmApplying => ArmApplyingKeeps(s, t, r);
    case ArmObserving => GoesOn(s, s, t, Done);
  }

  lemma KernelCache(n: Network)
    requires NetOk(n) && n.kernel.Holds?
    ensures NetOk(n.(sources := n.kernel.policy.sources))
  {
    hide Allowed, Ascending, ConfigOk;
  }

  lemma ArmListingKeeps(s: State, t: nat, r: Result)
    requires Under(s, s, t) && Admitted(s)
    ensures Keeps(s, Arm(s, t, ArmListing, r))
  {
    hide Keeps, TasksOk, Updates, NetOk, LogsOk, OpenedOnRequest, Admitted;
    if r.Raises? || s.net.kernel.Foreign? || (s.net.kernel.Holds? && s.net.kernel.config != s.net.config) {
      GoesOn(s, s, t, Done);
    } else if s.net.kernel.Holds? {
      var n := s.net.(sources := s.net.kernel.policy.sources);
      KernelCache(s.net);
      Recached(s, s, t, n);
      GoesOn(s, s.(net := n), t, Arming(ArmProvider));
    } else {
      GoesOn(s, s, t, Arming(ArmProvider));
    }
  }

  lemma ArmProviderKeeps(s: State, t: nat, r: Result)
    requires Under(s, s, t) && Admitted(s)
    ensures Keeps(s, Arm(s, t, ArmProvider, r))
  {
    hide Keeps, TasksOk, Updates, NetOk, LogsOk, OpenedOnRequest, Admitted;
    if r.Raises? {
      GoesOn(s, s, t, Done);
    } else {
      var n := s.net.(probe := None);
      NetForgets(s.net);
      Recached(s, s, t, n);
      GoesOn(s, s.(net := n), t, Arming(ArmChecking));
    }
  }

  lemma ArmApplyingKeeps(s: State, t: nat, r: Result)
    requires Under(s, s, t) && s.lock == Some(t) && Admitted(s)
    ensures Keeps(s, Arm(s, t, ArmApplying, r))
  {
    hide Keeps, TasksOk, Updates, NetOk, LogsOk, OpenedOnRequest, Admitted, ConfigOk;
    BlockedWritable(s.net);
    BlockKeeps(s, t, s.net.config);
    var w := Write(s, s.net.config, Blocked(s.net), s.net);
    if r.Raises? {
      GoesOn(s, if r.effect then w else s, t, Done);
    } else {
      ForgetKeeps(s, Known(w), t, s.net.config, s.net.probe, Arming(ArmObserving));
    }
  }

  lemma RebindKeeps(s: State, t: nat, target: Config, original: Config, stage: RebindStage, r: Result)
    requires At(s, t, Rebinding(target, original, stage))
    ensures Keeps(s, Rebind(s, t, target, original, stage, r))
  {
    hide Keeps, Inv, Under, Admitted, Agrees, ConfigOk, Write, Known, Rebound, Forgotten;
    Holder(s, t, Rebinding(target, original, stage));
    match stage
    case RebindObserving =>
      GoesOn(s, s, t,
             if r.Raises? || !Agrees(s.net) then Done else Rebinding(target, original, RebindProvider));
    case RebindProvider =>
      GoesOn(s, s, t, if r.Raises? then Done else Rebinding(target, original, RebindChecking));
    case RebindChecking => RebindCheckingKeeps(s, t, target, original, r);
    case RebindApplying => RebindApplyingKeeps(s, t, target, original, r);
    case RebindProving =>
      GoesOn(s, s, t,
             if r.Passes? && Agrees(s.net) then Done else Rebinding(target, original, RebindRestoring));
    case RebindRestoring => RebindRestoringKeeps(s, t, target, original, r);
    case RebindReobserving => GoesOn(s, s, t, Done);
  }

  lemma RebindCheckingKeeps(s: State, t: nat, target: Config, original: Config, r: Result)
    requires Under(s, s, t) && Admitted(s) && s.lock == Some(t) && ConfigOk(target) && ConfigOk(original)
    ensures Keeps(s, Rebind(s, t, target, original, RebindChecking, r))
  {
    hide Keeps, TasksOk, NetOk, LogsOk, OpenedOnRequest, Admitted, ConfigOk;
    if r.Raises? {
      GoesOn(s, s, t, Done);
    } else {
      var n := Forgotten(s.net);
      BlockedWritable(s.net);
      NetRebound(s.net, s.net.config, s.net.interface, s.net.probe);
      CoreCached(s, s.(net := n));
      GoesOn(s, s.(net := n), t, Rebinding(target, original, RebindApplying));
    }
  }

  lemma RebindApplyingKeeps(s: State, t: nat, target: Config, original: Config, r: Result)
    requires Under(s, s, t) && s.lock == Some(t) && ConfigOk(target) && ConfigOk(original)
    ensures Keeps(s, Rebind(s, t, target, original, RebindApplying, r))
  {
    hide Keeps, TasksOk, Updates, NetOk, LogsOk, OpenedOnRequest, Admitted, ConfigOk;
    BlockKeeps(s, t, target);
    var w := Write(s, target, Blocked(s.net), s.net);
    if r.Raises? {
      GoesOn(s, if r.effect then w else s, t, Rebinding(target, original, RebindRestoring));
    } else {
      ForgetKeeps(s, Known(w), t, target, None, Rebinding(target, original, RebindProving));
    }
  }

  lemma UnrestoredKeeps(s: State, t: nat)
    requires Under(s, s, t)
    ensures Keeps(s, Moves(s.(unrestored := true), t, Done))
  {
    hide Keeps, TasksOk, NetOk, LogsOk, OpenedOnRequest, Owns;
    CoreCached(s, s.(unrestored := true));
    GoesOn(s, s.(unrestored := true), t, Done);
  }

  lemma RebindRestoringKeeps(s: State, t: nat, target: Config, original: Config, r: Result)
    requires Under(s, s, t) && s.lock == Some(t) && ConfigOk(target) && ConfigOk(original)
    ensures Keeps(s, Rebind(s, t, target, original, RebindRestoring, r))
  {
    hide Keeps, Under, Admitted, ConfigOk;
    BlockKeeps(s, t, original);
    var w := Write(s, original, Blocked(s.net), s.net);
    if r.Passes? {
      ForgetKeeps(s, Known(w), t, original, None, Rebinding(target, original, RebindReobserving));
    } else if r.effect {
      GoesOn(s, w, t, Done);
    } else {
      UnrestoredKeeps(s, t);
    }
  }

  // ----- Every step -----

  lemma HeldKeeps(s: State, t: nat, pc: Pc, r: Result)
    requires At(s, t, pc)
    ensures Keeps(s, Held(s, t, pc, r))
  {
    hide Keeps, Inv, Rewrite, Arm, Rebind, CommitFailed, Proven;
    match pc
    case Rewriting(job, stage) => RewriteKeeps(s, t, job, stage, r);
    case CommitProving(item) => ProvingKeeps(s, t, item, r);
    case Arming(stage) => ArmKeeps(s, t, stage, r);
    case Rebinding(target, original, stage) => RebindKeeps(s, t, target, original, stage, r);
  }

  lemma CommitFits(n: Network, item: Item)
    requires NetOk(n) && Proven(n, item)
    ensures Fits(n, Commit(item, n), Policy(Some(item.interface), n.sources, Some(item.interface)))
  {
    hide Allowed, Ascending, ConfigOk, ProofCurrent, CommitCurrent;
  }

  /** An opening is asked for only with a matching proof that is fresh enough. */
  lemma ProvingKeeps(s: State, t: nat, item: Item, r: Result)
    requires At(s, t, CommitProving(item))
    ensures Keeps(s, Held(s, t, CommitProving(item), r))
  {
    hide Keeps, Inv, TasksOk, Updates, NetOk, LogsOk, OpenedOnRequest, Admitted, ItemOk, Proven, Fits, CommitFailed;
    Holder(s, t, CommitProving(item));
    if r.Raises? || !Proven(s.net, item) {
      CommitFailedKeeps(s, s, t, item, if r.Raises? then r.fault else Lifecycle);
    } else {
      CommitFits(s.net, item);
      var target := Policy(Some(item.interface), s.net.sources, Some(item.interface));
      GoesOn(s, s, t, Rewriting(Commit(item, s.net), Listing(target)));
    }
  }

  /** A task outside the policy lock goes on to another wait. */
  lemma IdleMoveKeeps(s: State, t: nat, pc: Pc)
    requires Inv(s) && s.lock != Some(t) && !Holding(pc) && MayMove(s, t, pc) && PcOk(s.net, s.owned, pc)
    ensures Keeps(s, Moves(s, t, pc))
  {
    hide TasksOk, NetOk, LogsOk, OpenedOnRequest, Owns, PcOk, Mutating, Excused;
    TasksMove(s, s, t, pc);
    CoreCached(s, Moves(s, t, pc));
    if Admitted(s) {
      AdmittedStays(s, Moves(s, t, pc));
    }
  }

  lemma TaskFacts(s: State, t: nat)
    requires Inv(s)
    ensures t in s.tasks ==> TaskOk(s, t, s.tasks[t])
    ensures t !in s.tasks ==> s.lock != Some(t)
    ensures Evolves(s.net, s.net)
  {
    hide LogsOk, OpenedOnRequest, NetOk, TaskOk, Admitted;
  }

  lemma StillKeeps(s: State)
    requires Inv(s)
    ensures Keeps(s, s)
  {
    hide Inv;
  }

  /** A call is let in only where it may wait. */
  lemma FirstPlaceOk(s: State, t: nat, call: Call)
    requires FirstPlace(s, call).Some?
    ensures var pc := FirstPlace(s, call).value;
            !Holding(pc) && MayMove(s, t, pc) && PcOk(s.net, s.owned, pc)
  {
    hide ItemOk, ConfigOk, MayTearDown;
  }

  lemma BeginKeeps(s: State, t: nat, call: Call)
    requires Inv(s) && (t in s.tasks ==> s.tasks[t].Done?)
    ensures Keeps(s, Begin(s, t, call))
  {
    hide Keeps, Inv, FirstPlace, PcOk, MayMove, Mutating, Moves;
    TaskFacts(s, t);
    StillKeeps(s);
    if FirstPlace(s, call).Some? {
      FirstPlaceOk(s, t, call);
      IdleMoveKeeps(s, t, FirstPlace(s, call).value);
    }
  }

  /** Where an await outside the lock leads is as much in order as where it was. */
  lemma NextPlaceOk(s: State, t: nat, pc: Pc, r: Result)
    requires TaskOk(s, t, pc) && !Holding(pc) && NextPlace(s.net, pc, r).Some?
    ensures var next := NextPlace(s.net, pc, r).value;
            !Holding(next) && MayMove(s, t, next) && PcOk(s.net, s.owned, next)
  {
    hide ProbeOk, ItemOk, ConfigOk, MayTearDown, Current;
  }

  lemma AwaitedKeeps(s: State, t: nat, pc: Pc, r: Result)
    requires Inv(s) && t in s.tasks && s.tasks[t] == pc && !Holding(pc)
    ensures Keeps(s, Awaited(s, t, pc, r))
  {
    hide Keeps, Inv, NextPlace, PcOk, MayMove, Mutating, Holding, Moves;
    TaskFacts(s, t);
    StillKeeps(s);
    if NextPlace(s.net, pc, r).Some? {
      NextPlaceOk(s, t, pc, r);
      IdleMoveKeeps(s, t, NextPlace(s.net, pc, r).value);
    }
  }

  /** The free lock finds the policy in order. */
  predicate Waits(s: State, t: nat, pc: Pc) {
    s.lock.None? && Inv(s) && t in s.tasks && s.tasks[t] == pc
  }

  lemma Waiter(s: State, t: nat, pc: Pc)
    requires Waits(s, t, pc)
    ensures Under(s, s, t) && Admitted(s) && PcOk(s.net, s.owned, pc)
    ensures !Holding(pc) && (Mutating(pc) ==> s.mutation == Some(t))
  {
    hide NetOk, LogsOk, OpenedOnRequest, PcOk, Admitted, Mutating, Holding, Excused;
    assert TaskOk(s, t, s.tasks[t]);
  }

  lemma ProbeEndKeeps(s: State, t: nat, begun: Network, item: Item, ready: bool)
    requires Under(s, s, t) && Admitted(s) && ProbeOk(s.net, begun, item)
    ensures Keeps(s, Acquire(s, t, ProbeEnding(begun, item, ready)))
  {
    hide Keeps, TasksOk, Updates, NetOk, LogsOk, OpenedOnRequest, Admitted, ProbeOk, Revoke, Current;
    if !Current(s.net, begun.epoch, item) {
      GoesOn(s, s, t, Done);
    } else if ready {
      ProvenKeeps(s, t, begun, item);
    } else {
      NetForgets(s.net);
      Recached(s, s, t, s.net.(proof := None));
      RevokeKeeps(s, s.(net := s.net.(proof := None)), t, ProbeRevoke, true);
    }
  }

  lemma BackedGrows(a: set<Evidence>, b: set<Evidence>, p: Proof)
    requires Backed(a, p) && a <= b
    ensures Backed(b, p)
  {
    var e :| e in a && e.ended.epoch == p.epoch && e.ended.candidate == Some(p.item) && e.ended.clock == p.at;
    assert e in b;
  }

  lemma LogsProven(s: State, u: State, e: Evidence)
    requires LogsOk(s) && EvidenceOk(e) && e.ended.candidate.Some? && u.evidence == s.evidence + {e}
    requires u.openings == s.openings && u.teardowns == s.teardowns
    requires u.net.proof == Some(Proof(e.ended.epoch, e.ended.candidate.value, e.ended.clock))
    ensures LogsOk(u)
  {
    hide TeardownOk, Unchanged;
    assert e in u.evidence;
    assert Backed(u.evidence, u.net.proof.value);
    forall o | o in s.openings
      ensures OpeningOk(u.evidence, o)
    {
      assert OpeningOk(s.evidence, o);
      BackedGrows(s.evidence, u.evidence, o.asked.proof.value);
    }
  }

  /** A proof is recorded only for the generation its probe began with. */
  lemma ProvenKeeps(s: State, t: nat, begun: Network, item: Item)
    requires Under(s, s, t) && Admitted(s) && ProbeOk(s.net, begun, item) && Current(s.net, begun.epoch, item)
    ensures var n := s.net.(proof := Some(Proof(begun.epoch, item, s.net.clock)));
            Keeps(s, Moves(s.(net := n, evidence := s.evidence + {Evidence(begun, s.net)}), t, Done))
  {
    hide Keeps, TasksOk, NetOk, LogsOk, Admitted, ItemOk;
    var e := Evidence(begun, s.net);
    var n := s.net.(proof := Some(Proof(begun.epoch, item, s.net.clock)));
    var u := s.(net := n, evidence := s.evidence + {e});
    NetProven(s.net, item);
    LogsProven(s, u, e);
    AdmittedStays(s, u);
    GoesOn(s, u, t, Done);
  }

  lemma AcquireKeeps(s: State, t: nat, pc: Pc)
    requires Waits(s, t, pc)
    ensures Keeps(s, Acquire(s, t, pc))
  {
    hide Keeps, Inv, Under, Admitted, ProbeOk, ItemOk, ConfigOk, Current, Proven, MayTearDown, Revoke;
    Waiter(s, t, pc);
    match pc
    case ProbeEnding(begun, item, ready) => ProbeEndKeeps(s, t, begun, item, ready);
    case ProbeCancelled(begun, item) =>
      if Current(s.net, begun.epoch, item) {
        RevokeKeeps(s, s, t, ProbeUndo, true);
      } else {
        GoesOn(s, s, t, Done);
      }
    case StartWaiting(owner, item) => RevokeKeeps(s, s, t, StartRevoke(owner, item), false);
    case StartChecking(item, epoch) =>
      GoesOn(s, s, t, if Current(s.net, epoch, item) then Done else StartFailing(item, epoch));
    case StartFailing(item, epoch) =>
      if epoch == s.net.epoch {
        RevokeKeeps(s, s, t, StartUndo, false);
      } else {
        GoesOn(s, s, t, Done);
      }
    case BlockWaiting(owner, interface) => BlockWaitingKeeps(s, t, owner, interface);
    case CommitWaiting(item) => GoesOn(s, s, t, if Proven(s.net, item) then CommitProving(item) else Done);
    case CommitCancelled(item) =>
      if s.net.candidate == Some(item) {
        RevokeKeeps(s, s, t, CommitRevoke, false);
      } else {
        GoesOn(s, s, t, Done);
      }
    case ArmWaiting => GoesOn(s, s, t, Arming(ArmListing));
    case RebindWaiting(target) => RebindWaitingKeeps(s, t, target);
    case _ => StillKeeps(s);
  }

  lemma BlockWaitingKeeps(s: State, t: nat, owner: nat, interface: Interface)
    requires Under(s, s, t) && Admitted(s) && s.mutation == Some(t) && MayTearDown(s.net, s.owned, owner, interface)
    ensures Keeps(s, Acquire(s, t, BlockWaiting(owner, interface)))
  {
    hide Keeps, Under, Admitted, MayTearDown, Revoke;
    if s.net.candidate.Some? && s.net.candidate.value.interface != interface {
      GoesOn(s, s, t, TearingDown);
    } else {
      RevokeKeeps(s, s, t, Block(owner, interface), false);
    }
  }

  lemma RebindWaitingKeeps(s: State, t: nat, target: Config)
    requires Under(s, s, t) && Admitted(s) && ConfigOk(target)
    ensures Keeps(s, Acquire(s, t, RebindWaiting(target)))
  {
    hide Keeps, TasksOk, Updates, NetOk, LogsOk, OpenedOnRequest, Admitted, ConfigOk;
    BlockedWritable(s.net);
    GoesOn(s, s, t, Rebinding(target, s.net.config, RebindObserving));
  }

  /** Time passes for every task alike. */
  lemma TaskLater(s: State, u: State, t: nat, pc: Pc)
    requires TaskOk(s, t, pc) && u == s.(net := s.net.(clock := u.net.clock)) && s.net.clock <= u.net.clock
    ensures TaskOk(u, t, pc)
  {
    hide ItemOk, ConfigOk, Proven, Writable;
  }

  lemma NetLater(n: Network, span: nat)
    requires NetOk(n)
    ensures NetOk(n.(clock := n.clock + span))
  {
    hide SourcesOk, Writable, ConfigOk;
  }

  lemma TickKeeps(s: State, span: nat)
    requires Inv(s)
    ensures Keeps(s, s.(net := s.net.(clock := s.net.clock + span)))
  {
    hide NetOk, LogsOk, OpenedOnRequest, TaskOk, Owns, Excused;
    var u := s.(net := s.net.(clock := s.net.clock + span));
    NetLater(s.net, span);
    CoreCached(s, u);
    if Admitted(s) {
      AdmittedStays(s, u);
    }
    forall t | t in s.tasks
      ensures TaskOk(u, t, u.tasks[t])
    {
      TaskLater(s, u, t, s.tasks[t]);
    }
  }

  /** Every step of every task keeps the invariant. */
  lemma StepKeeps(s: State, t: nat, a: Action)
    requires Inv(s)
    ensures Keeps(s, Step(s, t, a))
  {
    hide Keeps, Inv, PcOk, Mutating, Begin, Acquire, Held, Awaited;
    TaskFacts(s, t);
    StillKeeps(s);
    match a
    case Ticks(span) => TickKeeps(s, span);
    case Called(call) =>
      if !(t in s.tasks && s.tasks[t] != Done) {
        BeginKeeps(s, t, call);
      }
    case Acquires =>
      if t in s.tasks && s.lock.None? {
        AcquireKeeps(s, t, s.tasks[t]);
      }
    case Ends(r) =>
      if t in s.tasks && !s.tasks[t].Done? {
        if Holding(s.tasks[t]) {
          HeldKeeps(s, t, s.tasks[t], r);
        } else {
          AwaitedKeeps(s, t, s.tasks[t], r);
        }
      }
  }
}
