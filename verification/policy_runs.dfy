/** What holds after every run of the policy machine, down to the packets its table lets through. */
module PolicyRuns {
  import opened Options
  import opened Net
  import opened Text
  import opened Firewall
  import opened FirewallText
  import opened FirewallMeaning
  import opened FirewallRecognition
  import opened PolicyMachine
  import opened PolicyInvariant
  import opened PolicySafety

  // ----- Whole runs -----

  lemma {:induction false} RunKeeps(s: State, schedule: seq<(nat, Action)>)
    requires Fresh(s)
    ensures Inv(Run(s, schedule))
  {
    hide Fresh, Inv, Step;
    if schedule == [] {
      FreshInv(s);
    } else {
      var before, last := schedule[..|schedule| - 1], schedule[|schedule| - 1];
      RunKeeps(s, before);
      StepKeeps(Run(s, before), last.0, last.1);
    }
  }

  lemma FreshInv(s: State)
    requires Fresh(s)
    ensures Inv(s)
  {
    hide Allowed;
  }

  /** Epochs never decrease, and within an epoch the candidate never changes. */
  lemma {:induction false} EpochsGrow(s: State, schedule: seq<(nat, Action)>, i: nat)
    requires Fresh(s) && i <= |schedule|
    ensures Evolves(Run(s, schedule[..i]).net, Run(s, schedule).net)
  {
    hide Fresh, Inv, Step;
    if i == |schedule| {
      assert schedule[..i] == schedule;
    } else {
      var before, last := schedule[..|schedule| - 1], schedule[|schedule| - 1];
      EpochsGrow(s, before, i);
      RunKeeps(s, before);
      StepKeeps(Run(s, before), last.0, last.1);
      assert before[..i] == schedule[..i];
    }
  }

  /** After any interleaving: a proof held is for the current epoch and candidate; a commitment held is too,
      and the cached forwarding interface is its own. */
  lemma PolicyAgreement(s: State, schedule: seq<(nat, Action)>)
    requires Fresh(s)
    ensures var n := Run(s, schedule).net;
            && (n.proof.Some? ==> n.proof.value.epoch == n.epoch && n.candidate == Some(n.proof.value.item))
            && (n.committed.Some? ==>
                  && n.committed.value.epoch == n.epoch && n.candidate == Some(n.committed.value.item)
                  && n.interface == Some(n.committed.value.item.interface))
  {
    hide Fresh, Run, LogsOk, OpenedOnRequest, TasksOk, Admitted, SourcesOk, Writable;
    RunKeeps(s, schedule);
  }

  /** After any interleaving, every table ever opened was asked for under a matching proof at most five
      seconds old, taken by the kernel under the same generation, and that proof came from a probe that
      began and ended in it. */
  lemma NoStaleOpening(s: State, schedule: seq<(nat, Action)>, o: Opening)
    requires Fresh(s) && o in Run(s, schedule).openings
    ensures o.policy.interface.Some? && o.asked.candidate.Some? && o.asked.proof.Some?
    ensures var item, proof := o.asked.candidate.value, o.asked.proof.value;
            && o.policy.interface == Some(item.interface) && o.policy.probe == o.policy.interface
            && item.address in o.policy.sources
            && proof.item == item && proof.epoch == o.asked.epoch && o.asked.clock - proof.at <= PROOF_LIFETIME
            && o.taken.epoch == o.asked.epoch && o.taken.candidate == Some(item) && o.taken.proof == Some(proof)
            && exists e | e in Run(s, schedule).evidence ::
                 && e.begun.epoch == e.ended.epoch == proof.epoch
                 && e.begun.candidate == e.ended.candidate == Some(item)
                 && e.begun.clock <= e.ended.clock == proof.at
  {
    hide Fresh, Run, NetOk, OpenedOnRequest, TasksOk, Admitted, TeardownOk;
    var u := Run(s, schedule);
    RunKeeps(s, schedule);
    assert OpeningOk(u.evidence, o);
    var e :| e in u.evidence && e.ended.epoch == o.asked.proof.value.epoch &&
             e.ended.candidate == Some(o.asked.proof.value.item) && e.ended.clock == o.asked.proof.value.at;
    assert EvidenceOk(e);
  }

  /** A kernel table that forwards was opened on request. While nobody holds the policy lock it belongs to the
      current generation and the cache says so too, unless since the last write that passed the recovery of a
      failed rewrite fell back to removing the ingress or gave up, or a rebind could not restore its table. */
  lemma OpenTableExplained(s: State, schedule: seq<(nat, Action)>)
    requires Fresh(s)
    ensures var u := Run(s, schedule);
            KernelOpen(u) ==>
              && (exists o | o in u.openings :: o.policy == u.net.kernel.policy)
              && (u.lock.None? && !u.removed && !u.lost && !u.unrestored ==>
                    && u.net.candidate.Some? && u.net.interface == Some(u.net.candidate.value.interface)
                    && u.net.kernel.policy.interface == u.net.interface
                    && exists o | o in u.openings ::
                         o.policy == u.net.kernel.policy && o.asked.epoch == u.net.epoch &&
                         o.asked.candidate == u.net.candidate)
  {
    hide Fresh, Run, Inv;
    RunKeeps(s, schedule);
    if KernelOpen(Run(s, schedule)) {
      OpenedFor(Run(s, schedule));
    }
  }

  /** The opening that explains an open table. */
  lemma OpenedFor(u: State)
    requires Inv(u) && KernelOpen(u)
    ensures exists o | o in u.openings :: o.policy == u.net.kernel.policy
    ensures u.lock.None? && !Fallen(u) ==>
              && u.net.candidate.Some? && u.net.interface == Some(u.net.candidate.value.interface)
              && u.net.kernel.policy.interface == u.net.interface
              && exists o | o in u.openings ::
                   o.policy == u.net.kernel.policy && o.asked.epoch == u.net.epoch &&
                   o.asked.candidate == u.net.candidate
  {
    hide NetOk, TasksOk, EvidenceOk, TeardownOk, Backed, Proven;
    if u.lock.None? && !Fallen(u) {
      var o :| o in u.openings && o.policy == u.net.kernel.policy && o.asked.epoch == u.net.epoch &&
               o.asked.candidate == u.net.candidate;
      assert OpeningOk(u.evidence, o);
    }
  }

  /** A last resort that leaves the kernel as it is. */
  predicate LastResort(pc: Pc, r: Result) {
    || (pc.Rewriting? && pc.stage.Reapplying? && r == Raises(Cancelled, false))
    || (pc.Rewriting? && pc.stage.Removing?)
    || (pc.Rebinding? && pc.rebind.RebindRestoring? && r.Raises? && !r.effect)
  }

  /** Each of these does leave a forwarding table behind; after a rewrite the cache no longer owns up to it. */
  lemma LastResortsLeaveOpen(s: State, t: nat, pc: Pc, r: Result)
    requires At(s, t, pc) && KernelOpen(s) && LastResort(pc, r)
    requires pc.Rewriting? ==> !pc.job.Commit? && !pc.job.CommitUndo?
    ensures var u := Step(s, t, Ends(r));
            && u.lock.None? && KernelOpen(u) && u.net.kernel == s.net.kernel && Fallen(u)
            && (pc.Rewriting? ==> u.net.interface.None? && u.net.committed.None?)
  {
    hide Inv, Under, JobOk, BlockOk, Admitted, ConfigOk, Agrees;
    if pc.Rewriting? {
      Rewriter(s, t, pc.job, pc.stage);
    }
  }

  /** The table in the kernel, as nft lists what was loaded. */
  function Loaded(k: Kernel): Option<seq<Object>>
    requires k.Holds? && ConfigOk(k.config)
  {
    LoadText(GuardPayload(k.config, k.policy))
  }

  lemma HeldTable(u: State)
    requires Inv(u) && u.net.kernel.Holds?
    ensures var k := u.net.kernel;
            ConfigOk(k.config) && Writable(k.policy) && Loaded(k).Some? &&
            Exact(Loaded(k).value, k.config, k.policy) && Recognised(Loaded(k).value, k.config, k.policy.sources)
  {
    hide LogsOk, OpenedOnRequest, TasksOk, Admitted, Allowed, Ascending, LoadText, GuardPayload, Exact;
    PrintedRecognised(u.net.kernel.config, u.net.kernel.policy);
  }

  /** Whatever a run leaves in the kernel, a later process recognises, with exactly its sources. */
  lemma TablesRecognised(s: State, schedule: seq<(nat, Action)>)
    requires Fresh(s) && Run(s, schedule).net.kernel.Holds?
    ensures var k := Run(s, schedule).net.kernel;
            ConfigOk(k.config) && Loaded(k).Some? && Recognised(Loaded(k).value, k.config, k.policy.sources)
  {
    hide Fresh, Run, Inv, Loaded;
    RunKeeps(s, schedule);
    HeldTable(Run(s, schedule));
  }

  /** A teardown revokes a current generation only of its own interface and only for the instance that
      started that very generation. */
  lemma TeardownsOwned(s: State, schedule: seq<(nat, Action)>, d: Teardown)
    requires Fresh(s) && d in Run(s, schedule).teardowns && d.revoked.candidate.Some?
    ensures d.revoked.candidate.value.interface == d.interface && d.owned == Some(d.revoked.epoch)
  {
    hide Fresh, Run, NetOk, OpenedOnRequest, TasksOk, Admitted, OpeningOk, EvidenceOk, Backed;
    RunKeeps(s, schedule);
    assert TeardownOk(d);
  }

  /** After any run that wrote the table, a packet of the protected interface is forwarded only over IPv4 and
      only into a provider that was opened with a fresh proof of its own generation. While nobody holds the
      policy lock that is the current candidate, opened in the current epoch, unless a fallback was taken since
      the last write that passed. */
  lemma ForwardedOnlyIfProven(s: State, schedule: seq<(nat, Action)>, k: Packet)
    requires Fresh(s) && Run(s, schedule).written && Run(s, schedule).net.kernel.Holds?
    requires k.iif == Run(s, schedule).net.kernel.config.interface
    ensures var u := Run(s, schedule);
            ConfigOk(u.net.kernel.config) && Loaded(u.net.kernel).Some? &&
            (Crosses(Loaded(u.net.kernel).value, "forward", k) ==>
               && k.ipv4
               && (exists o | o in u.openings ::
                     OpeningOk(u.evidence, o) && o.asked.candidate.value.interface == k.oif)
               && (u.lock.None? && !u.removed && !u.lost && !u.unrestored ==>
                     && u.net.candidate.Some? && u.net.candidate.value.interface == k.oif
                     && exists o | o in u.openings ::
                          OpeningOk(u.evidence, o) && o.asked.epoch == u.net.epoch &&
                          o.asked.candidate == u.net.candidate))
  {
    hide Fresh, Run, Inv, LoadText, GuardPayload, Crosses, Exact, OpeningOk, Loaded, Owns;
    var u := Run(s, schedule);
    RunKeeps(s, schedule);
    HeldTable(u);
    ForwardMeaning(Loaded(u.net.kernel).value, u.net.kernel.config, u.net.kernel.policy, k);
    if Crosses(Loaded(u.net.kernel).value, "forward", k) {
      ForwardsInto(u, k.oif);
    }
  }

  lemma ForwardsInto(u: State, oif: Interface)
    requires Inv(u) && u.written && u.net.kernel.Holds? && u.net.kernel.policy.interface == Some(oif)
    ensures exists o | o in u.openings :: OpeningOk(u.evidence, o) && o.asked.candidate.value.interface == oif
    ensures u.lock.None? && !Fallen(u) ==>
              && u.net.candidate.Some? && u.net.candidate.value.interface == oif
              && exists o | o in u.openings ::
                   OpeningOk(u.evidence, o) && o.asked.epoch == u.net.epoch && o.asked.candidate == u.net.candidate
  {
    hide NetOk, TasksOk, EvidenceOk, TeardownOk, Backed, Proven;
    var o :| o in u.openings && o.policy == u.net.kernel.policy;
    assert OpeningOk(u.evidence, o);
    if u.lock.None? && !Fallen(u) {
      OpenedFor(u);
    }
  }

  /** What the status of a provider reports as connected. */
  predicate ReportsConnected(n: Network, item: Item, ready: bool) {
    ready && n.committed == Some(Commitment(n.epoch, item)) && n.interface == Some(item.interface)
  }

  /** A provider reported as connected is the current candidate, and the kernel forwards to no other one. */
  lemma ConnectedIsCurrent(s: State, schedule: seq<(nat, Action)>, item: Item, ready: bool)
    requires Fresh(s) && ReportsConnected(Run(s, schedule).net, item, ready)
    ensures var n := Run(s, schedule).net;
            && n.candidate == Some(item)
            && (n.kernel.Holds? && n.kernel.policy.interface.Some? ==>
                  n.kernel.policy.interface == Some(item.interface))
  {
    hide Fresh, Run, LogsOk, OpenedOnRequest, TasksOk, Admitted, SourcesOk, Writable;
    RunKeeps(s, schedule);
  }

  // ----- What an undisturbed rewrite achieves -----

  function Pass(s: State, t: nat): State {
    Step(s, t, Ends(Passes))
  }

  /** No other task holds the mutation lock. */
  predicate Alone(s: State, t: nat) {
    s.mutation.None? || s.mutation == Some(t)
  }

  /** A write passed since the last resort, if any was taken. */
  predicate Trusted(s: State) {
    s.written && !Fallen(s)
  }

  lemma RewritePasses(s: State, t: nat, job: Job, stage: Stage)
    requires At(s, t, Rewriting(job, stage))
    ensures Pass(s, t) == Rewrite(s, t, job, stage, Passes) && Inv(Pass(s, t))
  {
    hide Inv, Rewrite;
    RewriteKeeps(s, t, job, stage, Passes);
  }

  lemma ListingPasses(s: State, t: nat, job: Job, p: Policy)
    requires At(s, t, Rewriting(job, Listing(p))) && Agrees(s.net)
    ensures At(Pass(s, t), t, Rewriting(job, Checking(p))) && Pass(s, t).net == s.net
    ensures Alone(s, t) ==> Alone(Pass(s, t), t)
  {
    hide Inv, Pass, Agrees, Failed;
    RewritePasses(s, t, job, Listing(p));
  }

  lemma CheckingPasses(s: State, t: nat, job: Job, p: Policy)
    requires At(s, t, Rewriting(job, Checking(p)))
    ensures At(Pass(s, t), t, Rewriting(job, Applying(p)))
    ensures Pass(s, t).net == s.net.(sources := p.sources, probe := p.probe)
    ensures Alone(s, t) ==> Alone(Pass(s, t), t)
  {
    hide Inv, Pass, Failed;
    RewritePasses(s, t, job, Checking(p));
  }

  lemma ApplyingPasses(s: State, t: nat, job: Job, p: Policy)
    requires At(s, t, Rewriting(job, Applying(p)))
    ensures At(Pass(s, t), t, Rewriting(job, Observing(p)))
    ensures Pass(s, t).net == s.net.(interface := p.interface, kernel := Holds(s.net.config, p))
    ensures Agrees(Pass(s, t).net) && Trusted(Pass(s, t)) && (Alone(s, t) ==> Alone(Pass(s, t), t))
  {
    hide Inv, Pass, Under, JobOk, BlockOk, Admitted, Allowed, Ascending, Recover;
    Rewriter(s, t, job, Applying(p));
    RewritePasses(s, t, job, Applying(p));
  }

  /** A rewrite whose commands all pass ends with its table in the kernel and in the cache. */
  lemma RewriteLands(s: State, t: nat, job: Job, p: Policy)
    requires At(s, t, Rewriting(job, Listing(p))) && Agrees(s.net)
    ensures var u := Pass(Pass(Pass(s, t), t), t);
            && At(u, t, Rewriting(job, Observing(p))) && Pass(u, t) == Finished(u, t, job)
            && u.net == s.net.(sources := p.sources, probe := p.probe, interface := p.interface,
                               kernel := Holds(s.net.config, p))
            && Agrees(u.net) && Trusted(u) && (Alone(s, t) ==> Alone(u, t))
  {
    hide Inv, Pass, Agrees, Finished, Alone, Trusted;
    ListingPasses(s, t, job, p);
    var a := Pass(s, t);
    CheckingPasses(a, t, job, p);
    var b := Pass(a, t);
    ApplyingPasses(b, t, job, p);
    ObservingPasses(Pass(b, t), t, job, p);
  }

  lemma ObservingPasses(s: State, t: nat, job: Job, p: Policy)
    requires At(s, t, Rewriting(job, Observing(p))) && Agrees(s.net)
    ensures Pass(s, t) == Finished(s, t, job)
  {
    hide Inv, Pass, Agrees, Finished, Recover;
    RewritePasses(s, t, job, Observing(p));
  }

  lemma ProvingPasses(s: State, t: nat, item: Item)
    requires At(s, t, CommitProving(item)) && Proven(s.net, item)
    ensures var target := Policy(Some(item.interface), s.net.sources, Some(item.interface));
            At(Pass(s, t), t, Rewriting(Commit(item, s.net), Listing(target))) && Pass(s, t).net == s.net &&
            (Alone(s, t) ==> Alone(Pass(s, t), t))
  {
    hide Inv, Proven, CommitFailed;
    ProvingKeeps(s, t, item, Passes);
  }

  /** A commit of a freshly proven candidate, undisturbed, opens forwarding for exactly its interface. */
  lemma CommitOpens(s: State, t: nat, item: Item)
    requires At(s, t, CommitProving(item)) && Proven(s.net, item) && Agrees(s.net)
    ensures var u := Pass(Pass(Pass(Pass(Pass(s, t), t), t), t), t);
            && u.lock.None? && u.net.committed == Some(Commitment(s.net.epoch, item))
            && u.net.interface == Some(item.interface)
            && u.net.kernel == Holds(s.net.config, Policy(Some(item.interface), s.net.sources, Some(item.interface)))
            && Trusted(u) && Agrees(u.net) && u.net.epoch == s.net.epoch && u.net.candidate == s.net.candidate
            && t in u.tasks && u.tasks[t].Done? && (Alone(s, t) ==> u.mutation.None?)
  {
    hide Inv, Pass, Proven;
    ProvingPasses(s, t, item);
    var target := Policy(Some(item.interface), s.net.sources, Some(item.interface));
    RewriteLands(Pass(s, t), t, Commit(item, s.net), target);
  }
}
