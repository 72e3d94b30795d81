/** The journaled restore and the startup that finishes it, step by step, under every failure.
    Each external step takes its fate from a script: it works, it raises with or without its effect,
    or the process dies with or without it. Models backend/exitlane/container_recovery.py. */
module RecoveryCoordinator {
  import opened Options
  import opened Net
  import opened RecoveryState
  import opened RecoveryTrace

  /** What a failing step leaves half done: which derived files were written, an unfinished tree,
      and whether the killed worker was inside a transaction. */
  datatype Residue = Residue(written: set<string>, tree: Option<Layout>, torn: bool)

  datatype Fate = Works | Tears | Fails(effect: bool, residue: Residue) | Dies(effect: bool, residue: Residue)

  datatype Code =
    | StepFailed | StateInvalid | StateHot | StatePending | IngressInvalid | GuardInvalid | Missing | JournalInvalid
    | Exists | ConfirmationRequired
    | RecoveryNeeded | RolledBack

  datatype Flow = Next | Raised(code: Code) | Died {
    predicate IsFailure() {
      !Next?
    }
    function PropagateFailure(): Flow
      requires !Next?
    {
      this
    }
  }

  /** The stage a restore reports when it fails. */
  datatype Step = Preparing | Guarding | Quiescing | Snapshotting | Resetting | PublishingFiles | Revoking
                | Reconciling | CheckingHealth | CommittingJournal | Reopening | CleaningUp

  /** What a run is made of. */
  datatype Op =
    | Start(transaction: string, key: string, initial: bool)
    | Restoring(transaction: string, backup: Pair, confirmed: bool)
    | Working(database: Database, cut: bool)

  /** At most one step fails, nothing dies, and no worker is killed inside a transaction. */
  predicate Tame(f: seq<Fate>) {
    forall i | 0 <= i < |f| :: f[i].Works? || (i == |f| - 1 && f[i].Fails? && !f[i].residue.torn)
  }

  /** A script was used up by steps that raise only for a cause: the one scripted failure, unless the data
      themselves (`sound`) forbid going on. */
  predicate Spent(before: seq<Fate>, after: seq<Fate>, r: Flow, sound: bool) {
    |after| <= |before| &&
    (Tame(before) ==>
       Tame(after) && !r.Died? && (sound ==> r.Next? || (r.Raised? && before != [] && after == [])))
  }

  /** Nothing fails but the last scripted step, which raises without effect. */
  predicate Late(f: seq<Fate>) {
    |f| > 0 && (forall i | 0 <= i < |f| - 1 :: f[i].Works?) &&
    f[|f| - 1].Fails? && !f[|f| - 1].effect && !f[|f| - 1].residue.torn
  }

  /** With the failure further off than `n` steps, exactly `n` steps were taken and all worked. */
  predicate Walked(before: seq<Fate>, after: seq<Fate>, r: Flow, n: nat) {
    Late(before) && |before| > n ==> r.Next? && Late(after) && |after| == |before| - n
  }

  /** A tree with the three files of a pair and no directory yet. */
  function FilesOf(p: Pair): Layout {
    Tree(p).(wireguard := None, egress := None)
  }

  function WithoutEgress(p: Pair): Pair {
    p.(egress := map[])
  }

  /** After `lead` more steps and the part of a snapshot up to its still empty provider directory, the first
      provider file cannot be copied. */
  predicate StopsInside(f: seq<Fate>, p: Pair, lead: nat) {
    Late(f) && |f| == lead + 10 + 2 * |p.wireguard.Keys| && p.egress != map[]
  }

  predicate SameGuard(m: Monitor, n: Monitor) {
    m.armed == n.armed && m.covered == n.covered && m.quiet == n.quiet
  }

  /** The pair a backup turns into once installed. */
  function NewPair(backup: Pair): Pair {
    Rebuilt(Pair(Revoked(backup.database), backup.key, ManifestFor(backup.key), backup.wireguard, map[]))
  }

  function Staged(backup: Pair): Layout {
    Tree(Pair(backup.database, backup.key, ManifestFor(backup.key), backup.wireguard, map[]))
  }

  datatype Place = WireguardFiles | EgressFiles

  function Entries(l: Layout, p: Place): Option<Directory> {
    match p case WireguardFiles => l.wireguard case EgressFiles => l.egress
  }

  function WithEntries(l: Layout, p: Place, d: Directory): Layout {
    match p case WireguardFiles => l.(wireguard := Some(d)) case EgressFiles => l.(egress := Some(d))
  }

  function WithFile(l: Layout, f: File, source: Layout): Layout {
    match f
    case DatabasePart => l.(database := source.database)
    case KeyPart => l.(key := source.key)
    case ManifestPart => l.(manifest := source.manifest)
  }

  /** A tree that passes validation has the core of the pair in `live`, and no provider file it has not. */
  predicate Faithful(tree: Layout, live: Layout) {
    Whole(tree) ==>
      Standing(live) && SameCore(PairOf(tree), PairOf(live)) && PairOf(tree).egress.Keys <= PairOf(live).egress.Keys
  }

  /** A snapshot of `live` in which only the entries of `place` are still to come. */
  predicate Open(tree: Layout, place: Place, live: Layout) {
    Standing(live) &&
    match place
    case WireguardFiles => tree.egress.None?
    case EgressFiles => tree.(egress := live.egress) == Tree(PairOf(live))
  }

  lemma OpenIsFaithful(tree: Layout, place: Place, d: Directory, live: Layout)
    requires Open(tree, place, live) && d.Keys <= Entries(live, place).value.Keys
    ensures Open(WithEntries(tree, place, d), place, live) && Faithful(WithEntries(tree, place, d), live)
  {
  }

  /** A journaled restore of `backup` over the pair `before`, at whatever phase its receipt has reached. */
  predicate Underway(d: Disk, transaction: string, before: Pair, backup: Pair) {
    && Sound(before)
    && d.journal.Some? && d.journal.value.transaction == transaction
    && d.journal.value.ingress == Identities(before.database) + Identities(backup.database)
    && transaction in d.stage && d.stage[transaction].candidate == Some(Staged(backup))
    && var previous := d.stage[transaction].previous;
       match d.journal.value.phase
       case Prepared =>
         && Standing(d.live) && PairOf(d.live) == before
         && (previous.Some? && Whole(previous.value) ==>
               SameCore(PairOf(previous.value), before) && PairOf(previous.value).egress.Keys <= before.egress.Keys)
       case Committed =>
         previous == Some(Tree(before)) && Standing(d.live) && Rebuilt(PairOf(d.live)) == NewPair(backup)
       case SnapshotReady => previous == Some(Tree(before))
       case Publishing => previous == Some(Tree(before))
       case Installed => previous == Some(Tree(before))
       case Validated => previous == Some(Tree(before))
       case _ => false
  }

  /** The restore is past its snapshot receipt. */
  predicate Saved(d: Disk) {
    d.journal.Some? && !d.journal.value.phase.Prepared?
  }

  lemma UnderwayTruth(d: Disk, transaction: string, before: Pair, backup: Pair)
    requires Underway(d, transaction, before, backup)
    ensures Truth(d) == Some(if d.journal.value.phase.Committed? then NewPair(backup) else Rebuilt(before))
  {
  }

  /** Past its snapshot and before its commit, a restore does not depend on the live files. */
  lemma UnderwayFree(d: Disk, transaction: string, before: Pair, backup: Pair, l: Layout)
    requires Underway(d, transaction, before, backup) && !(d.journal.value.phase in {Prepared, Committed})
    ensures Underway(d.(live := l), transaction, before, backup)
  {
  }

  lemma UnderwayTorn(d: Disk, transaction: string, before: Pair, backup: Pair)
    requires Underway(d, transaction, before, backup)
    ensures Underway(d.(live := Torn(d.live)), transaction, before, backup)
  {
  }

  /** What a rollback finds: without a snapshot, the live pair is the one before the restore. */
  lemma UnderwayParts(d: Disk, transaction: string, before: Pair, backup: Pair)
    requires Underway(d, transaction, before, backup)
    ensures d.journal.Some? && transaction in d.stage && SameCore(Rebuilt(before), before) && Sound(before)
    ensures d.journal.value.ingress == Identities(before.database) + Identities(backup.database)
    ensures !HasPrevious(d, transaction) && Whole(d.live) ==>
              PairOf(d.live) == before && Truth(d) == Some(Rebuilt(PairOf(d.live)))
  {
  }

  /** The maintenance guard takes the receipt of a restore. */
  predicate Coverable(before: Pair, backup: Pair) {
    Securable(Identities(before.database) + Identities(backup.database))
  }

  /** A backup whose restore over a pair gets its first receipt. */
  predicate Installable(before: Pair, backup: Pair) {
    && Whole(Staged(backup)) && !backup.database.pending
    && IngressReadable(before.database) && IngressReadable(backup.database)
  }

  /** Such a restore goes through: the guard takes both lists and the new ingress can be brought up. */
  predicate Landable(before: Pair, backup: Pair) {
    Coverable(before, backup) && Reconcilable(backup.database)
  }

  /** Such a restore can be undone: the guard takes both lists and the old pair could start by itself. */
  predicate Undoable(before: Pair, backup: Pair) {
    Coverable(before, backup) && Resumable(before.database)
  }

  /** Lists that can be read make a receipt that only the guard's budget can refuse. */
  lemma UnionCoverable(before: Pair, backup: Pair)
    requires IngressReadable(before.database) && IngressReadable(backup.database)
    ensures Coverable(before, backup) <==>
            |Identities(before.database) + Identities(backup.database)| <= GUARD_BUDGET
  {
  }

  /** A volume and a backup that a restore can handle in every other respect. */
  predicate Losing(d: Disk, transaction: string, backup: Pair) {
    && d.journal.None? && Whole(d.live) && transaction !in d.stage && Installable(PairOf(d.live), backup)
    && Undoable(PairOf(d.live), backup)
  }

  lemma EmptyIsWhole(p: Pair)
    requires Sound(p)
    ensures Whole(Tree(WithoutEgress(p))) && PairOf(Tree(WithoutEgress(p))) == WithoutEgress(p)
  {
  }

  /** The volume with the receipt moved to another phase. */
  function Phased(d: Disk, phase: Phase): Disk
    requires d.journal.Some?
  {
    d.(journal := Some(d.journal.value.(phase := phase)))
  }

  /** A saved restore may move on to any later phase; to the commit only once the new pair is live. */
  lemma NextPhase(d: Disk, transaction: string, before: Pair, backup: Pair, phase: Phase)
    requires Recoverable(d) && Underway(d, transaction, before, backup)
    requires d.stage[transaction].previous == Some(Tree(before))
    requires phase in {SnapshotReady, Publishing, Installed, Validated} ||
             (phase.Committed? && Standing(d.live) && Rebuilt(PairOf(d.live)) == NewPair(backup))
    ensures Recoverable(Phased(d, phase)) && Underway(Phased(d, phase), transaction, before, backup)
  {
    UnderwayTruth(Phased(d, phase), transaction, before, backup);
  }

  /** An undisturbed rollback has a complete tree to go back to. */
  predicate CanUnwind(d: Disk, transaction: string) {
    if HasPrevious(d, transaction) then Whole(d.stage[transaction].previous.value) else Whole(d.live)
  }

  /** The live tree is the pair of the snapshot. */
  predicate Saves(d: Disk, transaction: string, live: Layout)
    requires HasPrevious(d, transaction) && Present(live)
  {
    Whole(d.stage[transaction].previous.value) && PairOf(live) == PairOf(d.stage[transaction].previous.value)
  }

  /** The live tree is the pair of the snapshot with its provider files rebuilt. */
  predicate Returned(d: Disk, transaction: string, live: Layout)
    requires HasPrevious(d, transaction) && Present(live)
  {
    Whole(d.stage[transaction].previous.value) &&
    PairOf(live) == Rebuilt(PairOf(d.stage[transaction].previous.value))
  }

  /** Going back to the snapshot loses nothing: it is complete, or whatever it misses can be derived. */
  predicate Exact(d: Disk, transaction: string, before: Pair) {
    HasPrevious(d, transaction) ==> d.stage[transaction].previous.value == Tree(before) || Derivable(before)
  }

  /** A rollback receipt selects the snapshot if that is complete, and otherwise keeps the live pair. */
  lemma RollbackPhase(d: Disk, transaction: string, before: Pair, backup: Pair)
    requires Recoverable(d) && Underway(d, transaction, before, backup) && HasPrevious(d, transaction)
    ensures var e := Phased(d, RollbackRequired);
            && Recoverable(e) && Truth(e).Some? && SameCore(Truth(e).value, before)
            && Source(e) == d.stage[transaction].previous
            && (Whole(Source(e).value) ==> Shielded(e) && SameCore(PairOf(Source(e).value), before))
            && (Exact(d, transaction, before) ==> Truth(e).value == Rebuilt(before))
  {
    UnderwayTruth(d, transaction, before, backup);
    var previous := d.stage[transaction].previous.value;
    if Whole(previous) && Derivable(before) {
      RebuiltAlike(PairOf(previous), before);
    }
  }

  /** Nothing but the snapshot of one transaction differs. */
  predicate SnapshotChange(a: Disk, b: Disk, transaction: string) {
    && transaction in a.stage && transaction in b.stage
    && b.stage[transaction].candidate == a.stage[transaction].candidate
    && b == a.(stage := a.stage[transaction := b.stage[transaction]])
    && Truth(b) == Truth(a)
  }

  lemma SnapshotSame(d: Disk, transaction: string)
    requires transaction in d.stage
    ensures SnapshotChange(d, d, transaction)
  {
  }

  lemma SnapshotChanges(a: Disk, b: Disk, c: Disk, transaction: string)
    requires SnapshotChange(a, b, transaction) && SnapshotChange(b, c, transaction)
    ensures SnapshotChange(a, c, transaction) && c.live == a.live
  {
    hide Truth;
  }

  lemma OneMore(entries: Directory, todo: set<string>, name: string)
    requires todo <= entries.Keys && name in todo
    ensures (entries - todo)[name := entries[name]] == entries - (todo - {name})
    ensures (entries - todo).Keys <= entries.Keys && |todo| == |todo - {name}| + 1
  {
  }

  /** A rollback of a saved restore has its snapshot to go back to. */
  lemma SavedUnwinds(d: Disk, transaction: string, before: Pair, backup: Pair)
    requires Underway(d, transaction, before, backup) && Saved(d)
    ensures CanUnwind(d, transaction) && HasPrevious(d, transaction)
    ensures d.stage[transaction].previous.value == Tree(before)
  {
  }

  /** Only the snapshot was made, and of that everything but the provider files. */
  predicate Stopped(before: Disk, after: Disk, transaction: string, p: Pair)
    requires transaction in before.stage
  {
    var stage := before.stage[transaction].(previous := Some(Tree(WithoutEgress(p))));
    after == before.(stage := before.stage[transaction := stage])
  }

  lemma StoppedUnwinds(d: Disk, e: Disk, transaction: string, p: Pair)
    requires transaction in d.stage && Stopped(d, e, transaction, p) && Sound(p)
    ensures e.journal == d.journal && HasPrevious(e, transaction) && CanUnwind(e, transaction)
    ensures Present(e.stage[transaction].previous.value)
    ensures PairOf(e.stage[transaction].previous.value) == WithoutEgress(p)
  {
    EmptyIsWhole(p);
  }

  class Coordinator {
    var disk: Disk
    var fates: seq<Fate>
    var at: Step
    ghost var trace: seq<Event>
    ghost var commits: nat  // committed receipts made durable so far
    ghost var half: bool    // the last restore rolled back over an incomplete snapshot

    ghost predicate Valid()
      reads this
    {
      Recoverable(disk) && Ordered(trace)
    }

    constructor (disk: Disk, fates: seq<Fate>)
      requires Recoverable(disk)
      ensures Valid() && this.disk == disk && this.fates == fates && trace == []
    {
      this.disk, this.fates, at := disk, fates, Preparing;
      trace, commits, half := [], 0, false;
    }

    ghost method Emit(e: Event)
      requires Ordered(trace) && Permitted(Watch(trace), e)
      modifies this`trace
      ensures Ordered(trace) && Watch(trace) == After(old(Watch(trace)), e)
    {
      Extended(trace, e);
      trace := trace + [e];
    }

    method Take() returns (f: Fate)
      modifies this`fates
      ensures |fates| <= |old(fates)|
      ensures Late(old(fates)) && |old(fates)| > 1 ==> f.Works? && Late(fates) && |fates| == |old(fates)| - 1
      ensures Late(old(fates)) && |old(fates)| == 1 ==> f.Fails? && !f.effect && !f.residue.torn && fates == []
      ensures Tame(old(fates)) ==>
                Tame(fates) &&
                (f.Works? || (f.Fails? && !f.residue.torn && old(fates) != [] && fates == []))
    {
      if fates == [] {
        f := Works;
      } else {
        f := fates[0];
        fates := fates[1..];
      }
    }

    /** A step without a durable effect of its own. */
    method Attempt() returns (r: Flow)
      modifies this`fates
      ensures Spent(old(fates), fates, r, true) && (r.Raised? ==> r.code.StepFailed?)
      ensures Walked(old(fates), fates, r, 1)
    {
      var f := Take();
      r := if f.Dies? then Died else if f.Fails? then Raised(StepFailed) else Next;
    }

    // ----- Hooks -----

    method Guard(identities: set<Identity>) returns (r: Flow)
      requires Ordered(trace)
      modifies this`fates, this`trace
      ensures Ordered(trace) && Spent(old(fates), fates, r, |identities| <= GUARD_BUDGET)
      ensures |identities| <= GUARD_BUDGET ==> Walked(old(fates), fates, r, 1)
      ensures r.Next? ==> |identities| <= GUARD_BUDGET
      ensures r.Next? ==> Watch(trace) == After(old(Watch(trace)), Armed(identities))
    {
      if |identities| > GUARD_BUDGET {
        return Raised(GuardInvalid);
      }
      :- Attempt();
      Emit(Armed(identities));
      return Next;
    }

    method Quiesce() returns (r: Flow)
      requires Valid()
      modifies this`disk, this`fates, this`trace
      ensures Valid() && Spent(old(fates), fates, r, true) && Walked(old(fates), fates, r, 1)
      ensures disk == old(disk) || disk == old(disk).(live := Torn(old(disk).live))
      ensures Tame(old(fates)) || Late(old(fates)) ==> disk == old(disk)
      ensures Truth(disk) == old(Truth(disk))
      ensures r.Next? ==> Watch(trace) == After(old(Watch(trace)), Quiesced)
    {
      var f := Take();
      TornKeeps(disk);
      if f.Tears? || (!f.Works? && f.residue.torn) {
        disk := disk.(live := Torn(disk.live));
      }
      if f.Dies? {
        return Died;
      }
      if f.Fails? {
        return Raised(StepFailed);
      }
      Emit(Quiesced);
      return Next;
    }

    method Health() returns (r: Flow)
      requires Ordered(trace)
      modifies this`fates, this`trace
      ensures Ordered(trace) && Spent(old(fates), fates, r, true)
      ensures r.Next? ==> Watch(trace) == After(After(old(Watch(trace)), WorkerMayRun), Healthy)
    {
      Emit(WorkerMayRun);
      :- Attempt();
      Emit(Healthy);
      return Next;
    }

    method Reopen() returns (r: Flow)
      requires Ordered(trace) && Watch(trace).ready == 3
      modifies this`fates, this`trace
      ensures Ordered(trace) && Spent(old(fates), fates, r, true)
      ensures r.Next? ==> Watch(trace) == After(old(Watch(trace)), Reopened)
    {
      var f := Take();
      if f.Works? || f.Tears? || f.effect {
        Emit(Reopened);
      }
      r := if f.Dies? then Died else if f.Fails? then Raised(StepFailed) else Next;
    }

    /** Strict validation of the live tree. */
    method Check() returns (r: Flow)
      requires Ordered(trace)
      modifies this`fates, this`trace
      ensures Ordered(trace) && Spent(old(fates), fates, r, Whole(disk.live))
      ensures Whole(disk.live) ==> Walked(old(fates), fates, r, 1)
      ensures r.Next? ==> Whole(disk.live) && Watch(trace) == After(old(Watch(trace)), Checked)
      ensures !r.Next? ==> trace == old(trace)
      ensures r == Raised(StateHot) ==> Validate(disk.live).HotJournal?
      ensures r.Raised? ==> r.code in {StepFailed, StateInvalid, StateHot}
      ensures Spent(old(fates), fates, if r == Raised(StateHot) then Next else r, Standing(disk.live))
    {
      r := Next;
      :- Attempt();
      match Validate(disk.live)
      case Invalid => return Raised(StateInvalid);
      case HotJournal => return Raised(StateHot);
      case Valid =>
        Emit(Checked);
        return Next;
    }

    /** Rebuilds the derived provider files of the live pair and brings its ingress up; a failure leaves some of
        the files rebuilt, and a pair with several interfaces is refused only after that. */
    method Reconcile() returns (r: Flow)
      requires Valid() && Whole(disk.live)
      modifies this`disk, this`fates, this`trace
      ensures Valid() && Spent(old(fates), fates, r, Reconcilable(PairOf(old(disk).live).database))
      ensures disk == old(disk).(live := disk.live) && Whole(disk.live)
      ensures r.Next? ==> Reconcilable(PairOf(old(disk).live).database)
      ensures Rebuilt(PairOf(disk.live)) == Rebuilt(PairOf(old(disk).live)) && Truth(disk) == old(Truth(disk))
      ensures r.Next? ==> PairOf(disk.live) == Rebuilt(PairOf(old(disk).live))
      ensures r.Next? ==> Watch(trace) == After(old(Watch(trace)), Reconciled)
    {
      var p := PairOf(disk.live);
      var f := Take();
      var done := if f.Works? || f.Tears? then p.database.projections.Keys
                  else if f.effect then f.residue.written
                  else {};
      RefreshKeeps(disk, done);
      disk := disk.(live := disk.live.(egress := Some(Refreshed(p.egress, p.database.projections, done))));
      if f.Dies? {
        return Died;
      }
      if f.Fails? {
        return Raised(StepFailed);
      }
      if !Reconcilable(p.database) {
        return Raised(IngressInvalid);
      }
      Emit(Reconciled);
      return Next;
    }

    // ----- Publication -----

    /** The live files may be changed: the receipt selects another complete tree, the guard covers every
        identity the receipt names, and the writers are stopped. */
    ghost predicate MayPublish()
      reads this
    {
      && Valid() && Shielded(disk) && DirectoriesMade(disk)
      && Watch(trace).armed && Watch(trace).quiet && disk.journal.value.ingress <= Watch(trace).covered
    }

    /** Only the live files changed, and neither what the volume stands for nor the guard did. */
    twostate predicate LiveOnly()
      reads this
    {
      && disk == old(disk).(live := disk.live) && Source(disk) == old(Source(disk))
      && Truth(disk) == old(Truth(disk))
      && SameGuard(old(Watch(trace)), Watch(trace))
    }

    /** One durable change of the live files. */
    method Write(next: Layout) returns (r: Flow)
      requires MayPublish() && next.wireguard.Some? && next.egress.Some?
      modifies this`disk, this`fates, this`trace
      ensures MayPublish() && LiveOnly() && Spent(old(fates), fates, r, true)
      ensures disk.live == old(disk).live || disk.live == next
      ensures r.Next? ==> disk.live == next
    {
      var f := Take();
      if f.Works? || f.Tears? || f.effect {
        LiveIsFree(disk, next);
        Emit(Published(disk.journal.value.ingress));
        disk := disk.(live := next);
      }
      r := if f.Dies? then Died else if f.Fails? then Raised(StepFailed) else Next;
    }

    method DropSidecars() returns (r: Flow)
      requires MayPublish()
      modifies this`disk, this`fates, this`trace
      ensures MayPublish() && LiveOnly() && Spent(old(fates), fates, r, true)
      ensures r.Next? ==> disk.live == old(disk).live.(sidecars := {})
    {
      var known := [WriteAhead, SharedMemory, RollbackJournal];
      for i := 0 to |known|
        invariant MayPublish() && LiveOnly() && Spent(old(fates), fates, Next, true)
        invariant disk.live == old(disk).live.(sidecars := disk.live.sidecars)
        invariant forall k | 0 <= k < i :: known[k] !in disk.live.sidecars
      {
        if known[i] in disk.live.sidecars {
          :- Write(disk.live.(sidecars := disk.live.sidecars - {known[i]}));
        }
      }
      assert WriteAhead == known[0] && SharedMemory == known[1] && RollbackJournal == known[2];
      NoSidecarLeft(disk.live.sidecars);
      return Next;
    }

    /** Copies a file beside its target, then renames it over the target. */
    method ReplaceFile(file: File, source: Layout) returns (r: Flow)
      requires MayPublish()
      modifies this`disk, this`fates, this`trace
      ensures MayPublish() && LiveOnly() && Spent(old(fates), fates, r, true)
      ensures r.Next? ==>
                disk.live == WithFile(old(disk).live, file, source)
                             .(temporaries := old(disk).live.temporaries - {file})
    {
      if file in disk.live.temporaries {
        :- Write(disk.live.(temporaries := disk.live.temporaries - {file}));
      }
      :- Write(disk.live.(temporaries := disk.live.temporaries + {file}));
      r := Write(WithFile(disk.live, file, source).(temporaries := disk.live.temporaries - {file}));
    }

    method EmptyDirectory(place: Place) returns (r: Flow)
      requires MayPublish()
      modifies this`disk, this`fates, this`trace
      ensures MayPublish() && LiveOnly() && Spent(old(fates), fates, r, true)
      ensures r.Next? ==> disk.live == WithEntries(old(disk).live, place, map[])
    {
      while Entries(disk.live, place).value.Keys != {}
        invariant MayPublish() && LiveOnly() && Spent(old(fates), fates, Next, true)
        invariant disk.live == WithEntries(old(disk).live, place, Entries(disk.live, place).value)
        decreases |Entries(disk.live, place).value.Keys|
      {
        var present := Entries(disk.live, place).value;
        var name :| name in present;
        assert (present - {name}).Keys == present.Keys - {name};
        :- Write(WithEntries(disk.live, place, present - {name}));
      }
      return Next;
    }

    /** Copies one file into a live directory; cut short, it leaves any content under that name. */
    method CopyInto(place: Place, name: string, content: string) returns (r: Flow)
      requires MayPublish()
      modifies this`disk, this`fates, this`trace
      ensures MayPublish() && LiveOnly() && Spent(old(fates), fates, r, true)
      ensures r.Next? ==>
                disk.live == WithEntries(old(disk).live, place, Entries(old(disk).live, place).value[name := content])
    {
      var torn: string := *;
      var present := Entries(disk.live, place).value;
      :- Write(WithEntries(disk.live, place, present[name := torn]));
      r := Write(WithEntries(disk.live, place, present[name := content]));
    }

    /** Empties a live directory entry by entry, then copies the source's entries; neither is atomic. */
    method FillDirectory(place: Place, entries: Directory) returns (r: Flow)
      requires MayPublish()
      modifies this`disk, this`fates, this`trace
      ensures MayPublish() && LiveOnly() && Spent(old(fates), fates, r, true)
      ensures r.Next? ==> disk.live == WithEntries(old(disk).live, place, entries)
    {
      r := Next;
      :- EmptyDirectory(place);
      var todo := entries.Keys;
      assert entries - todo == map[];
      while todo != {}
        invariant todo <= entries.Keys
        invariant MayPublish() && LiveOnly() && Spent(old(fates), fates, Next, true)
        invariant disk.live == WithEntries(old(disk).live, place, entries - todo)
      {
        var name :| name in todo;
        assert (entries - todo)[name := entries[name]] == entries - (todo - {name});
        :- CopyInto(place, name, entries[name]);
        todo := todo - {name};
      }
      assert entries - todo == entries;
      return Next;
    }

    method ReplaceFiles(source: Layout) returns (r: Flow)
      requires MayPublish()
      modifies this`disk, this`fates, this`trace
      ensures MayPublish() && LiveOnly() && Spent(old(fates), fates, r, true)
      ensures r.Next? ==>
                disk.live == source.(wireguard := old(disk).live.wireguard, egress := old(disk).live.egress,
                                     sidecars := {}, temporaries := {})
    {
      r := Next;
      :- DropSidecars();
      :- ReplaceFile(DatabasePart, source);
      :- ReplaceFile(KeyPart, source);
      :- ReplaceFile(ManifestPart, source);
      NoTemporaryLeft(disk.live.temporaries);
      return Next;
    }

    /** Makes the live files equal to a complete source, whatever they were, with no sidecar or temporary
        left; refuses any other source before touching them. */
    method Publish(source: Layout) returns (r: Flow)
      requires Whole(source) ==> MayPublish()
      requires Valid()
      modifies this`disk, this`fates, this`trace
      ensures Valid() && LiveOnly() && Spent(old(fates), fates, r, Whole(source))
      ensures !Whole(source) ==> !r.Next? && disk == old(disk)
      ensures Whole(source) ==> MayPublish()
      ensures r.Next? ==> disk.live == Tree(PairOf(source))
    {
      r := Next;
      :- Attempt();
      if !Whole(source) {
        return Raised(StateInvalid);
      }
      :- ReplaceFiles(source);
      :- FillDirectory(WireguardFiles, source.wireguard.value);
      r := FillDirectory(EgressFiles, source.egress.value);
    }

    // ----- The receipt -----

    /** Replaces the receipt atomically; the volume must be recoverable on both sides of the write. */
    method Record(receipt: Receipt) returns (r: Flow)
      requires Valid() && Recoverable(disk.(journal := Some(receipt)))
      modifies this`disk, this`fates, this`commits
      ensures Valid() && Spent(old(fates), fates, r, true) && Walked(old(fates), fates, r, 1)
      ensures (disk == old(disk) && commits == old(commits)) ||
              (disk == old(disk).(journal := Some(receipt)) &&
               commits == old(commits) + if receipt.phase.Committed? then 1 else 0)
      ensures r.Next? ==> disk.journal == Some(receipt)
    {
      var f := Take();
      if f.Works? || f.Tears? || f.effect {
        disk := disk.(journal := Some(receipt));
        commits := commits + if receipt.phase.Committed? then 1 else 0;
      }
      r := if f.Dies? then Died else if f.Fails? then Raised(StepFailed) else Next;
    }

    /** Rebuilds the projections of a validated pair, proves health and reopens. */
    method Prove(finalize: bool) returns (r: Flow)
      requires Valid() && Whole(disk.live) && Watch(trace).ready == 1
      modifies this`disk, this`fates, this`trace
      ensures Valid() && Truth(disk) == old(Truth(disk)) && disk == old(disk).(live := disk.live)
      ensures Whole(disk.live) && Rebuilt(PairOf(disk.live)) == Rebuilt(PairOf(old(disk).live))
      ensures r.Next? ==>
                PairOf(disk.live) == Rebuilt(PairOf(old(disk).live)) && Reconcilable(PairOf(old(disk).live).database)
      ensures Spent(old(fates), fates, r, Reconcilable(PairOf(old(disk).live).database))
    {
      r := Next;
      :- Reconcile();
      if finalize {
        :- Attempt();
      }
      :- Health();
      r := Reopen();
    }

    /** Validates, reconciles, proves health and reopens; the live pair keeps its meaning throughout. */
    method Resume(finalize: bool) returns (r: Flow)
      requires Valid()
      modifies this`disk, this`fates, this`trace
      ensures Valid() && Truth(disk) == old(Truth(disk)) && disk == old(disk).(live := disk.live)
      ensures Whole(old(disk).live) ==>
                Whole(disk.live) && Rebuilt(PairOf(disk.live)) == Rebuilt(PairOf(old(disk).live))
      ensures r.Next? ==>
                Whole(old(disk).live) && Resumable(PairOf(old(disk).live).database) &&
                PairOf(disk.live) == Rebuilt(PairOf(old(disk).live))
      ensures Spent(old(fates), fates, r, Whole(old(disk).live) && Resumable(PairOf(old(disk).live).database))
    {
      r := Next;
      :- Check();
      if PairOf(disk.live).database.pending {
        return Raised(StatePending);
      }
      r := Prove(finalize);
    }

    /** Removes the receipt first, then the staged files. */
    method Cleanup(transaction: string) returns (r: Flow)
      requires Valid() && Whole(disk.live) && disk.journal.Some?
      requires Truth(disk) == Some(Rebuilt(PairOf(disk.live)))
      modifies this`disk, this`fates
      ensures Valid() && Truth(disk) == old(Truth(disk)) && disk.live == old(disk).live
      ensures disk == old(disk) || disk.journal.None?
      ensures r.Next? ==> disk.journal.None? && transaction in old(disk).stage
      ensures Spent(old(fates), fates, r, transaction in old(disk).stage)
    {
      if transaction !in disk.stage {
        return Raised(Missing);
      }
      :- Attempt();
      var f := Take();
      if f.Works? || f.Tears? || f.effect {
        disk := disk.(journal := None);
      }
      if f.Dies? {
        return Died;
      }
      if f.Fails? {
        return Raised(StepFailed);
      }
      f := Take();
      if f.Works? || f.Tears? || f.effect {
        disk := disk.(stage := disk.stage - {transaction});
      }
      r := if f.Dies? then Died else if f.Fails? then Raised(StepFailed) else Next;
    }

    /** The end of every recovery: prove the live pair, reopen it, and drop the receipt. */
    method ResumeAndClean(transaction: string) returns (r: Flow)
      requires Valid() && disk.journal.Some?
      requires Whole(disk.live) ==> Truth(disk) == Some(Rebuilt(PairOf(disk.live)))
      modifies this`disk, this`fates, this`trace
      ensures Valid() && Truth(disk) == old(Truth(disk))
      ensures disk.journal.None? || disk == old(disk).(live := disk.live)
      ensures r.Next? ==>
                disk.journal.None? && Whole(disk.live) && Truth(disk) == Some(PairOf(disk.live)) &&
                Whole(old(disk).live) && Resumable(PairOf(old(disk).live).database) && transaction in old(disk).stage
      ensures Spent(old(fates), fates, r,
                    Whole(old(disk).live) && Resumable(PairOf(old(disk).live).database) &&
                    transaction in old(disk).stage)
    {
      r := Next;
      :- Resume(false);
      r := Cleanup(transaction);
    }

    /** Reads the receipt, arms its guard, stops the writers and resets the provider egress. */
    method Secure() returns (r: Flow)
      requires Valid() && disk.journal.Some?
      modifies this`disk, this`fates, this`trace
      ensures Valid() && Truth(disk) == old(Truth(disk))
      ensures Spent(old(fates), fates, r, Securable(old(disk).journal.value.ingress))
      ensures disk == old(disk) || disk == old(disk).(live := Torn(old(disk).live))
      ensures Tame(old(fates)) ==> disk == old(disk)
      ensures r.Next? ==>
                Watch(trace).armed && Watch(trace).quiet && disk.journal.value.ingress <= Watch(trace).covered
      ensures r.Next? ==> Securable(disk.journal.value.ingress)
    {
      r := Next;
      :- Attempt();
      if !Readable(disk.journal.value.ingress) {
        return Raised(JournalInvalid);
      }
      :- Guard(disk.journal.value.ingress);
      :- Quiesce();
      r := Attempt();
    }

    // ----- Startup -----

    /** Stages an empty pair for a first start; a failure leaves an unfinished candidate. */
    method StageEmpty(transaction: string, key: string) returns (r: Flow)
      requires Valid() && transaction in disk.stage
      requires disk.journal.Some? && disk.journal.value.phase.InitPreparing?
      modifies this`disk, this`fates
      ensures Valid() && Spent(old(fates), fates, r, true)
      ensures disk == old(disk).(stage := disk.stage) && transaction in disk.stage
      ensures r.Next? ==> disk.stage[transaction].candidate == Some(Tree(EmptyPair(key)))
    {
      var f := Take();
      var made := if f.Works? || f.Tears? then Some(Tree(EmptyPair(key))) else f.residue.tree;
      disk := disk.(stage := disk.stage[transaction := disk.stage[transaction].(candidate := made)]);
      r := if f.Dies? then Died else if f.Fails? then Raised(StepFailed) else Next;
    }

    /** Stages the empty pair and records that it is ready to be published. */
    method PrepareEmpty(transaction: string, key: string) returns (r: Flow)
      requires Valid() && disk.journal.Some?
      requires disk.journal.value.transaction == transaction && disk.journal.value.phase.InitPreparing?
      modifies this`disk, this`fates, this`commits
      ensures Valid() && Spent(old(fates), fates, r, true) && commits == old(commits)
      ensures disk.live == old(disk).live && disk.journal.Some? && disk.journal.value.transaction == transaction
      ensures transaction in disk.stage
      ensures r.Next? ==>
                transaction in disk.stage && disk.journal == Some(Receipt(transaction, InitReady, {})) &&
                Source(disk) == Some(Tree(EmptyPair(key)))
    {
      r := Next;
      :- StageEmpty(transaction, key);
      :- Attempt();
      r := Record(Receipt(transaction, InitReady, {}));
    }

    /** Makes the six directories of an empty volume and the first receipts. */
    method Initialise(transaction: string, key: string) returns (r: Flow)
      requires Valid() && disk.directories == 0 && disk.journal.None?
      modifies this`disk, this`fates, this`commits
      ensures Valid() && Spent(old(fates), fates, r, true) && commits == old(commits)
      ensures r.Next? ==>
                transaction in disk.stage && disk.journal == Some(Receipt(transaction, InitReady, {})) &&
                Source(disk) == Some(Tree(EmptyPair(key)))
    {
      for made := 0 to 6
        invariant Valid() && disk.journal.None? && disk.directories == made && disk.live.database.None?
        invariant disk.stage == map[]
        invariant made > 2 ==> disk.live.wireguard.Some?
        invariant made > 3 ==> disk.live.egress.Some?
        invariant Spent(old(fates), fates, Next, true) && commits == old(commits)
      {
        var f := Take();
        if f.Works? || f.Tears? || f.effect {
          var live := if made == 2 then disk.live.(wireguard := Some(map[]))
                      else if made == 3 then disk.live.(egress := Some(map[]))
                      else disk.live;
          disk := disk.(directories := made + 1, live := live);
        }
        if f.Dies? {
          return Died;
        }
        if f.Fails? {
          return Raised(StepFailed);
        }
      }
      :- Attempt();
      disk := disk.(stage := disk.stage[transaction := Stage(None, None)]);
      :- Record(Receipt(transaction, InitPreparing, {}));
      r := PrepareEmpty(transaction, key);
    }

    /** Makes the tree the receipt selects live, or keeps the live one, as the phase says. */
    method PublishSelected(key: string) returns (r: Flow)
      requires Valid() && disk.journal.Some?
      requires Watch(trace).armed && Watch(trace).quiet && disk.journal.value.ingress <= Watch(trace).covered
      modifies this`disk, this`fates, this`trace, this`commits
      ensures Valid() && disk.journal.Some? && disk.journal.value.transaction == old(disk).journal.value.transaction
      ensures commits == old(commits)
      ensures disk.journal.value.transaction in disk.stage <==> disk.journal.value.transaction in old(disk).stage
      ensures old(Truth(disk)).Some? ==> Truth(disk) == old(Truth(disk))
      ensures r.Next? ==>
                if old(disk).journal.value.phase.Prepared? then disk == old(disk)
                else Whole(disk.live) && Truth(disk) == Some(Rebuilt(PairOf(disk.live))) &&
                     if old(disk).journal.value.phase.InitPreparing? then PairOf(disk.live) == EmptyPair(key)
                     else
                       Source(old(disk)).Some? && Whole(Source(old(disk)).value) &&
                       PairOf(disk.live) == PairOf(Source(old(disk)).value)
      ensures Spent(old(fates), fates, r,
                    old(disk).journal.value.phase in {InitPreparing, Prepared} ||
                    (Source(old(disk)).Some? && Whole(Source(old(disk)).value)))
    {
      hide Ordered, Rebuilt;
      var transaction := disk.journal.value.transaction;
      if disk.journal.value.phase.InitPreparing? {
        :- PrepareEmpty(transaction, key);
      }
      var phase := disk.journal.value.phase;
      if phase.InitReady? {
        :- Publish(disk.stage[transaction].candidate.value);
      } else if phase.Committed? {
        :- Check();
      } else if !phase.Prepared? {
        :- Publish(disk.stage[transaction].previous.value);
      }
      return Next;
    }

    /** Finishes the transaction a receipt describes. */
    method FinishJournal(key: string) returns (r: Flow)
      requires Valid() && disk.journal.Some?
      modifies this`disk, this`fates, this`trace, this`commits
      ensures Valid() && commits == old(commits)
      ensures old(Truth(disk)).Some? ==> Truth(disk) == old(Truth(disk))
      ensures r.Next? ==>
                disk.journal.None? && Whole(disk.live) && Truth(disk) == Some(PairOf(disk.live)) &&
                CanFinish(old(disk)) && (old(Truth(disk)).None? ==> PairOf(disk.live) == EmptyPair(key))
      ensures Spent(old(fates), fates, r, CanFinish(old(disk)))
    {
      var transaction := disk.journal.value.transaction;
      :- Secure();
      :- PublishSelected(key);
      r := ResumeAndClean(transaction);
    }

    /** SQLite rolls its own interrupted transaction back, under the guard and without writers. */
    method RecoverDatabase() returns (r: Flow)
      requires Valid() && disk.journal.None? && Standing(disk.live) && Watch(trace).armed && Watch(trace).quiet
      modifies this`disk, this`fates
      ensures Valid() && disk == old(disk).(live := disk.live) && Truth(disk) == old(Truth(disk))
      ensures Standing(disk.live) && PairOf(disk.live) == PairOf(old(disk).live)
      ensures r.Next? ==> Whole(disk.live)
      ensures Spent(old(fates), fates, r, true)
    {
      var f := Take();
      if f.Works? || f.Tears? || f.effect {
        disk := disk.(live := disk.live.(database := Some(Settled(disk.live.database.value.database)),
                                         sidecars := disk.live.sidecars - {RollbackJournal}));
      }
      r := if f.Dies? then Died else if f.Fails? then Raised(StepFailed) else Next;
    }

    /** Validates the live tree, first letting SQLite finish an interrupted transaction. */
    method Settle() returns (r: Flow)
      requires Valid() && disk.journal.None?
      modifies this`disk, this`fates, this`trace
      ensures Valid() && Truth(disk) == old(Truth(disk)) && disk == old(disk).(live := disk.live)
      ensures Standing(old(disk).live) ==> Standing(disk.live) && PairOf(disk.live) == PairOf(old(disk).live)
      ensures r.Next? ==> Standing(old(disk).live) && Whole(disk.live)
      ensures Spent(old(fates), fates, r, Standing(old(disk).live))
    {
      r := Check();
      if r == Raised(StateHot) {
        :- Guard({});
        :- Quiesce();
        r := RecoverDatabase();
      }
    }

    /** A start without a receipt; `initial` is what the first-setup hook answered. */
    method StartClean(initial: bool) returns (r: Flow)
      requires Valid() && disk.journal.None?
      modifies this`disk, this`fates, this`trace
      ensures Valid() && Truth(disk) == old(Truth(disk))
      ensures r.Next? ==>
                disk.journal.None? && Whole(disk.live) && Truth(disk) == Some(PairOf(disk.live)) &&
                Standing(old(disk).live) && Resumable(PairOf(old(disk).live).database)
      ensures Spent(old(fates), fates, r, Standing(old(disk).live) && Resumable(PairOf(old(disk).live).database))
    {
      r := Next;
      :- Attempt();
      :- Settle();
      if !IngressReadable(PairOf(disk.live).database) {
        return Raised(IngressInvalid);
      }
      :- Guard(Identities(PairOf(disk.live).database));
      :- Quiesce();
      :- Attempt();
      r := Resume(initial);
    }

    /** Runs before ingress and workers, after any number of earlier cuts. What the volume stands for does
        not change; a completed start leaves exactly that live, with no receipt; and whether an undisturbed
        start completes is decided by the volume. */
    method Startup(transaction: string, key: string, initial: bool) returns (r: Flow)
      requires Valid()
      modifies this`disk, this`fates, this`trace, this`commits
      ensures Valid() && commits == old(commits)
      ensures old(Truth(disk)).Some? ==> Truth(disk) == old(Truth(disk))
      ensures r.Next? ==>
                disk.journal.None? && Whole(disk.live) && Truth(disk) == Some(PairOf(disk.live)) &&
                CanFinish(old(disk)) && (old(Truth(disk)).None? ==> PairOf(disk.live) == EmptyPair(key))
      ensures Spent(old(fates), fates, r, CanFinish(old(disk)))
    {
      if disk.directories == 0 && disk.journal.None? {
        :- Initialise(transaction, key);
      }
      if disk.journal.Some? {
        r := FinishJournal(key);
      } else {
        r := StartClean(initial);
      }
    }

    // ----- Snapshot -----

    /** A transaction before its snapshot receipt: the live pair is the one to preserve. */
    ghost predicate BeforeSnapshot(transaction: string)
      reads this
    {
      && Valid() && disk.journal.Some? && disk.journal.value.phase.Prepared?
      && disk.journal.value.transaction == transaction && transaction in disk.stage
    }

    /** Only the snapshot of one transaction changed. */
    twostate predicate SnapshotOnly(transaction: string)
      requires transaction in old(disk).stage
      reads this
    {
      SnapshotChange(old(disk), disk, transaction)
    }

    /** One durable change of the snapshot. */
    method Stow(transaction: string, tree: Layout) returns (r: Flow)
      requires BeforeSnapshot(transaction)
      modifies this`disk, this`fates
      ensures BeforeSnapshot(transaction) && SnapshotOnly(transaction) && Spent(old(fates), fates, r, true)
      ensures disk.stage[transaction].previous in {old(disk).stage[transaction].previous, Some(tree)}
      ensures r.Next? ==> disk.stage[transaction].previous == Some(tree)
      ensures Walked(old(fates), fates, r, 1)
      ensures Late(old(fates)) && |old(fates)| == 1 ==> r.Raised? && fates == [] && disk == old(disk)
    {
      var f := Take();
      if f.Works? || f.Tears? || f.effect {
        disk := disk.(stage := disk.stage[transaction := disk.stage[transaction].(previous := Some(tree))]);
      }
      r := if f.Dies? then Died else if f.Fails? then Raised(StepFailed) else Next;
    }

    /** Copies one file into a directory of the snapshot; cut short, it leaves any content under that name. */
    method StowEntry(transaction: string, place: Place, tree: Layout, name: string, content: string) returns (r: Flow)
      requires BeforeSnapshot(transaction) && Entries(tree, place).Some? && Open(tree, place, disk.live)
      requires disk.stage[transaction].previous == Some(tree) && name in Entries(disk.live, place).value
      requires Entries(tree, place).value.Keys <= Entries(disk.live, place).value.Keys
      modifies this`disk, this`fates
      ensures BeforeSnapshot(transaction) && SnapshotOnly(transaction) && Spent(old(fates), fates, r, true)
      ensures disk.stage[transaction].previous.Some? && Faithful(disk.stage[transaction].previous.value, disk.live)
      ensures r.Next? ==>
                disk.stage[transaction].previous
                == Some(WithEntries(tree, place, Entries(tree, place).value[name := content]))
      ensures Walked(old(fates), fates, r, 2)
      ensures Late(old(fates)) && |old(fates)| == 1 ==> r.Raised? && fates == [] && disk == old(disk)
    {
      hide Open, Faithful, Late, Tame, Recoverable, Ordered, Truth;
      var torn: string := *;
      var present := Entries(tree, place).value;
      OpenIsFaithful(tree, place, present, disk.live);
      OpenIsFaithful(tree, place, present[name := torn], disk.live);
      OpenIsFaithful(tree, place, present[name := content], disk.live);
      :- Stow(transaction, WithEntries(tree, place, present[name := torn]));
      r := Stow(transaction, WithEntries(tree, place, present[name := content]));
    }

    /** Copies entries into an empty directory of the snapshot, one by one. */
    method StowEntries(transaction: string, place: Place, tree: Layout, entries: Directory) returns (r: Flow)
      requires BeforeSnapshot(transaction) && Open(tree, place, disk.live)
      requires entries.Keys <= Entries(disk.live, place).value.Keys
      requires disk.stage[transaction].previous == Some(WithEntries(tree, place, map[]))
      modifies this`disk, this`fates
      ensures BeforeSnapshot(transaction) && SnapshotOnly(transaction) && Spent(old(fates), fates, r, true)
      ensures disk.stage[transaction].previous.Some? && Faithful(disk.stage[transaction].previous.value, disk.live)
      ensures r.Next? ==> disk.stage[transaction].previous == Some(WithEntries(tree, place, entries))
      ensures Walked(old(fates), fates, r, 2 * |entries.Keys|)
      ensures entries != map[] && Late(old(fates)) && |old(fates)| == 1 ==>
                r.Raised? && fates == [] && disk == old(disk)
    {
      hide Open, Faithful, Late, Tame, Recoverable, Ordered, Truth, SnapshotChange;
      var todo := entries.Keys;
      ghost var done: nat := 0;
      assert entries - todo == map[];
      SnapshotSame(disk, transaction);
      while todo != {}
        invariant todo <= entries.Keys
        invariant done + |todo| == |entries.Keys| && Walked(old(fates), fates, Next, 2 * done)
        invariant entries != map[] && Late(old(fates)) && |old(fates)| == 1 ==>
                    todo == entries.Keys && fates == old(fates) && disk == old(disk)
        invariant BeforeSnapshot(transaction) && SnapshotOnly(transaction) && Spent(old(fates), fates, Next, true)
        invariant disk.live == old(disk).live
        invariant disk.stage[transaction].previous == Some(WithEntries(tree, place, entries - todo))
      {
        var name :| name in todo;
        OpenIsFaithful(tree, place, entries - todo, disk.live);
        OneMore(entries, todo, name);
        ghost var middle := disk;
        r := StowEntry(transaction, place, WithEntries(tree, place, entries - todo), name, entries[name]);
        SnapshotChanges(old(disk), middle, disk, transaction);
        if !r.Next? {
          return;
        }
        todo, done := todo - {name}, done + 1;
      }
      assert entries - todo == entries;
      OpenIsFaithful(tree, place, entries, disk.live);
      return Next;
    }

    /** Copies a live directory into the snapshot. */
    method StowDirectory(transaction: string, place: Place, tree: Layout) returns (r: Flow)
      requires BeforeSnapshot(transaction) && Open(tree, place, disk.live)
      requires disk.stage[transaction].previous == Some(tree) && Entries(tree, place).None?
      modifies this`disk, this`fates
      ensures BeforeSnapshot(transaction) && SnapshotOnly(transaction) && Spent(old(fates), fates, r, true)
      ensures disk.stage[transaction].previous.Some? && Faithful(disk.stage[transaction].previous.value, disk.live)
      ensures r.Next? ==>
                disk.stage[transaction].previous == Some(WithEntries(tree, place, Entries(disk.live, place).value))
      ensures Walked(old(fates), fates, r, 1 + 2 * |Entries(old(disk).live, place).value.Keys|)
      ensures Entries(old(disk).live, place).value != map[] && Late(old(fates)) && |old(fates)| == 2 ==>
                r.Raised? && fates == [] && disk.stage[transaction].previous == Some(WithEntries(tree, place, map[]))
    {
      hide Late, Tame;
      OpenIsFaithful(tree, place, map[], disk.live);
      :- Stow(transaction, WithEntries(tree, place, map[]));
      r := StowEntries(transaction, place, tree, Entries(disk.live, place).value);
    }

    /** Goes through successive states of the snapshot, none of which has its last directory. */
    method StowStages(transaction: string, trees: seq<Layout>) returns (r: Flow)
      requires BeforeSnapshot(transaction) && |trees| > 0
      requires forall i | 0 <= i < |trees| :: trees[i].egress.None?
      requires var p := disk.stage[transaction].previous; p.Some? ==> p.value.egress.None?
      modifies this`disk, this`fates
      ensures BeforeSnapshot(transaction) && SnapshotOnly(transaction) && Spent(old(fates), fates, r, true)
      ensures var p := disk.stage[transaction].previous; p.Some? ==> p.value.egress.None?
      ensures r.Next? ==> disk.stage[transaction].previous == Some(trees[|trees| - 1])
      ensures Walked(old(fates), fates, r, |trees|)
    {
      hide Late, Tame;
      for i := 0 to |trees|
        invariant Walked(old(fates), fates, Next, i)
        invariant BeforeSnapshot(transaction) && SnapshotOnly(transaction) && Spent(old(fates), fates, Next, true)
        invariant var p := disk.stage[transaction].previous; p.Some? ==> p.value.egress.None?
        invariant i > 0 ==> disk.stage[transaction].previous == Some(trees[i - 1])
      {
        :- Stow(transaction, trees[i]);
      }
      return Next;
    }

    /** Copies the database, the key and the manifest into the snapshot. */
    method StowFiles(transaction: string) returns (r: Flow)
      requires BeforeSnapshot(transaction) && disk.stage[transaction].previous.None?
      modifies this`disk, this`fates
      ensures BeforeSnapshot(transaction) && SnapshotOnly(transaction)
      ensures var p := disk.stage[transaction].previous; p.Some? ==> p.value.egress.None?
      ensures r.Next? ==>
                Whole(disk.live) && disk.stage[transaction].previous == Some(FilesOf(PairOf(disk.live)))
      ensures Spent(old(fates), fates, r, Whole(old(disk).live))
      ensures Whole(old(disk).live) ==> Walked(old(fates), fates, r, 7)
    {
      hide Late, Tame, Recoverable, Ordered, Truth;
      r := Next;
      :- StowStages(transaction, [NOTHING]);
      if !Whole(disk.live) {
        return Raised(StateInvalid);
      }
      var p := PairOf(disk.live);
      var torn: string := *;
      var withDatabase := NOTHING.(database := Some(Settled(p.database)));
      var withKey := withDatabase.(key := Some(p.key));
      r := StowStages(transaction, [NOTHING.(database := Some(Unsettled(p.database))), withDatabase,
                                    withDatabase.(key := Some(torn)), withKey,
                                    withKey.(manifest := Some(torn)), FilesOf(p)]);
    }

    /** Copies the live tree aside. However far it gets, what it leaves never passes validation with another
        core than the live pair's or with a provider file the live pair has not. */
    method Snapshot(transaction: string) returns (r: Flow)
      requires BeforeSnapshot(transaction) && disk.stage[transaction].previous.None?
      modifies this`disk, this`fates
      ensures BeforeSnapshot(transaction) && SnapshotOnly(transaction)
      ensures disk.stage[transaction].previous.Some? ==> Faithful(disk.stage[transaction].previous.value, disk.live)
      ensures r.Next? ==> Whole(disk.live) && disk.stage[transaction].previous == Some(Tree(PairOf(disk.live)))
      ensures Spent(old(fates), fates, r, Whole(disk.live))
      ensures Whole(old(disk).live) && StopsInside(old(fates), PairOf(old(disk).live), 0) ==>
                r.Raised? && fates == [] &&
                disk.stage[transaction].previous == Some(Tree(WithoutEgress(PairOf(old(disk).live))))
    {
      hide Late, Tame, Recoverable, Ordered, Truth;
      r := Next;
      :- StowFiles(transaction);
      var p := PairOf(disk.live);
      :- StowDirectory(transaction, WireguardFiles, FilesOf(p));
      :- StowDirectory(transaction, EgressFiles, FilesOf(p).(wireguard := Some(p.wireguard)));
      r := Attempt();
    }

    // ----- Restore -----

    /** Empties the session tables of the installed database in one transaction. */
    method Revoke() returns (r: Flow)
      requires MayPublish() && Whole(disk.live)
      modifies this`disk, this`fates, this`trace
      ensures MayPublish() && LiveOnly() && Spent(old(fates), fates, r, true)
      ensures r.Next? ==>
                disk.live == old(disk).live.(database := Some(Settled(Revoked(PairOf(old(disk).live).database))),
                                             sidecars := old(disk).live.sidecars - {RollbackJournal})
    {
      var database := PairOf(disk.live).database;
      var sidecars := disk.live.sidecars;
      :- Write(disk.live.(database := Some(Unsettled(database)), sidecars := sidecars + {RollbackJournal}));
      r := Write(disk.live.(database := Some(Settled(Revoked(database))), sidecars := sidecars - {RollbackJournal}));
    }

    /** Moves the receipt of a saved restore to a later phase. */
    method Advance(transaction: string, phase: Phase, ghost before: Pair, ghost backup: Pair) returns (r: Flow)
      requires Valid() && Underway(disk, transaction, before, backup)
      requires disk.stage[transaction].previous == Some(Tree(before))
      requires phase in {SnapshotReady, RecoveryState.Publishing, Installed, Validated} ||
               (phase.Committed? && Standing(disk.live) && Rebuilt(PairOf(disk.live)) == NewPair(backup))
      modifies this`disk, this`fates, this`commits
      ensures Valid() && Underway(disk, transaction, before, backup) && Spent(old(fates), fates, r, true)
      ensures (disk == old(disk) && commits == old(commits)) ||
              (disk == Phased(old(disk), phase) && commits == old(commits) + if phase.Committed? then 1 else 0)
      ensures r.Next? ==> disk == Phased(old(disk), phase)
    {
      NextPhase(disk, transaction, before, backup, phase);
      r := Record(disk.journal.value.(phase := phase));
    }

    /** Saves the live pair under the first receipt. */
    method SaveAside(transaction: string, ghost before: Pair, ghost backup: Pair) returns (r: Flow)
      requires Valid() && Underway(disk, transaction, before, backup)
      requires disk.journal.value.phase.Prepared? && disk.stage[transaction].previous.None?
      modifies this`disk, this`fates, this`commits
      ensures Valid() && Underway(disk, transaction, before, backup) && commits == old(commits)
      ensures disk.journal.value.phase in {Prepared, SnapshotReady}
      ensures r.Next? ==> disk.journal.value.phase.SnapshotReady?
      ensures Spent(old(fates), fates, r, Whole(old(disk).live))
      ensures Whole(old(disk).live) && StopsInside(old(fates), before, 0) ==>
                r.Raised? && fates == [] && Stopped(old(disk), disk, transaction, before)
    {
      hide Recoverable, Ordered, Late, Tame, Truth, Shielded;
      r := Next;
      :- Snapshot(transaction);
      r := Advance(transaction, SnapshotReady, before, backup);
    }

    /** Guards, stops the writers, and saves the live pair. */
    method Save(transaction: string, ghost before: Pair, ghost backup: Pair) returns (r: Flow)
      requires Valid() && Underway(disk, transaction, before, backup)
      requires disk.journal.value.phase.Prepared? && disk.stage[transaction].previous.None?
      modifies this
      ensures Valid() && Underway(disk, transaction, before, backup) && commits == old(commits)
      ensures at in {Guarding, Quiescing, Snapshotting} && disk.journal.value.phase in {Prepared, SnapshotReady}
      ensures !at.Snapshotting? ==> disk.stage[transaction].previous.None? && disk.journal.value.phase.Prepared?
      ensures Tame(old(fates)) && !at.Snapshotting? ==> disk == old(disk)
      ensures r.Next? ==>
                disk.journal.value.phase.SnapshotReady? &&
                Watch(trace).armed && Watch(trace).quiet && disk.journal.value.ingress <= Watch(trace).covered
      ensures Spent(old(fates), fates, r,
                    Whole(old(disk).live) && |old(disk).journal.value.ingress| <= GUARD_BUDGET)
      ensures r.Next? ==> |old(disk).journal.value.ingress| <= GUARD_BUDGET
      ensures Whole(old(disk).live) && |old(disk).journal.value.ingress| <= GUARD_BUDGET &&
              StopsInside(old(fates), before, 2) ==>
                r.Raised? && fates == [] && at.Snapshotting? && Stopped(old(disk), disk, transaction, before)
    {
      hide Recoverable, Ordered, Late, Tame, Truth, Shielded, Identities;
      at := Guarding;
      :- Guard(disk.journal.value.ingress);
      at := Quiescing;
      :- Quiesce();
      at := Snapshotting;
      r := SaveAside(transaction, before, backup);
    }

    /** Publishes the staged pair under its receipts. */
    method PublishStaged(transaction: string, ghost before: Pair, backup: Pair) returns (r: Flow)
      requires Valid() && Underway(disk, transaction, before, backup) && disk.journal.value.phase.SnapshotReady?
      requires Whole(Staged(backup))
      requires Watch(trace).armed && Watch(trace).quiet && disk.journal.value.ingress <= Watch(trace).covered
      modifies this
      ensures Valid() && Underway(disk, transaction, before, backup) && commits == old(commits)
      ensures at in {Resetting, PublishingFiles}
      ensures disk.journal.value.phase in {SnapshotReady, RecoveryState.Publishing, Installed}
      ensures r.Next? ==>
                MayPublish() && disk.journal.value.phase.Installed? && disk.live == Staged(backup)
      ensures Spent(old(fates), fates, r, true)
    {
      hide Ordered, Late, Tame;
      at := Resetting;
      :- Attempt();
      :- Advance(transaction, RecoveryState.Publishing, before, backup);
      at := PublishingFiles;
      :- Publish(Staged(backup));
      r := Advance(transaction, Installed, before, backup);
    }

    /** Publishes the staged pair and revokes its sessions. */
    method Install(transaction: string, ghost before: Pair, backup: Pair) returns (r: Flow)
      requires Valid() && Underway(disk, transaction, before, backup) && disk.journal.value.phase.SnapshotReady?
      requires Whole(Staged(backup))
      requires Watch(trace).armed && Watch(trace).quiet && disk.journal.value.ingress <= Watch(trace).covered
      modifies this
      ensures Valid() && Underway(disk, transaction, before, backup) && commits == old(commits)
      ensures at in {Resetting, PublishingFiles, Revoking} && Saved(disk) && !disk.journal.value.phase.Committed?
      ensures r.Next? ==>
                disk.journal.value.phase.Installed? && Whole(disk.live) && Watch(trace).ready == 1 &&
                PairOf(disk.live) == PairOf(Staged(backup)).(database := Revoked(backup.database))
      ensures Spent(old(fates), fates, r, true)
    {
      hide Recoverable, Shielded, Ordered;
      r := Next;
      :- PublishStaged(transaction, before, backup);
      at := Revoking;
      :- Revoke();
      r := Check();
    }

    /** Rebuilds the provider files of the installed pair. */
    method ReconcileInstalled(transaction: string, ghost before: Pair, ghost backup: Pair) returns (r: Flow)
      requires Valid() && Underway(disk, transaction, before, backup) && disk.journal.value.phase.Installed?
      requires Whole(disk.live) && Watch(trace).ready == 1
      requires PairOf(disk.live) == PairOf(Staged(backup)).(database := Revoked(backup.database))
      modifies this`disk, this`fates, this`trace
      ensures Valid() && Underway(disk, transaction, before, backup) && disk.journal == old(disk).journal
      ensures disk.stage == old(disk).stage && Whole(disk.live)
      ensures r.Next? ==> PairOf(disk.live) == NewPair(backup) && Watch(trace).ready == 2
      ensures r.Next? ==> Reconcilable(backup.database)
      ensures Spent(old(fates), fates, r, Reconcilable(backup.database))
    {
      ghost var volume := disk;
      r := Reconcile();
      UnderwayFree(volume, transaction, before, backup, disk.live);
    }

    /** Proves the installed pair under the guard. */
    method ProveInstalled(transaction: string, ghost before: Pair, ghost backup: Pair) returns (r: Flow)
      requires Valid() && Underway(disk, transaction, before, backup) && disk.journal.value.phase.Installed?
      requires Whole(disk.live) && Watch(trace).ready == 1
      requires PairOf(disk.live) == PairOf(Staged(backup)).(database := Revoked(backup.database))
      modifies this
      ensures Valid() && Underway(disk, transaction, before, backup) && commits == old(commits)
      ensures at in {Reconciling, CheckingHealth, CommittingJournal}
      ensures disk.journal.value.phase in {Installed, Validated}
      ensures r.Next? ==>
                disk.journal.value.phase.Validated? && Watch(trace).ready == 3 && Whole(disk.live) &&
                PairOf(disk.live) == NewPair(backup) && Reconcilable(backup.database)
      ensures Spent(old(fates), fates, r, Reconcilable(backup.database))
    {
      hide Recoverable, Shielded, Ordered;
      at := Reconciling;
      :- ReconcileInstalled(transaction, before, backup);
      at := CheckingHealth;
      :- Health();
      at := CommittingJournal;
      r := Advance(transaction, Validated, before, backup);
    }

    /** Makes the commit durable, reopens and cleans up. */
    method Seal(transaction: string, ghost before: Pair, ghost backup: Pair) returns (r: Flow)
      requires Valid() && Underway(disk, transaction, before, backup) && disk.journal.value.phase.Validated?
      requires Watch(trace).ready == 3 && Whole(disk.live) && PairOf(disk.live) == NewPair(backup)
      modifies this
      ensures Valid() && at in {old(at), Reopening, CleaningUp}
      ensures disk.journal.Some? ==> Underway(disk, transaction, before, backup) && Saved(disk)
      ensures disk.journal.Some? && !disk.journal.value.phase.Committed? ==> commits == old(commits)
      ensures disk.journal.None? || disk.journal.value.phase.Committed? ==>
                commits == old(commits) + 1 && Truth(disk) == Some(NewPair(backup))
      ensures r.Next? ==> disk.journal.None? && Whole(disk.live) && PairOf(disk.live) == NewPair(backup)
      ensures disk.journal.None? ==> at.CleaningUp?
      ensures Spent(old(fates), fates, r, true)
    {
      hide Recoverable, Ordered;
      UnderwayTruth(disk, transaction, before, backup);
      :- Advance(transaction, RecoveryState.Committed, before, backup);
      UnderwayTruth(disk, transaction, before, backup);
      at := Reopening;
      :- Reopen();
      at := CleaningUp;
      r := Cleanup(transaction);
    }

    /** What the exception handler can work with: an open transaction, or one already cleaned up. */
    ghost predicate Unwinding(transaction: string, before: Pair, backup: Pair, committed: bool)
      reads this
    {
      && Valid()
      && (disk.journal.Some? ==> Underway(disk, transaction, before, backup))
      && (disk.journal.None? || disk.journal.value.phase.Committed? ==>
            committed && Truth(disk) == Some(NewPair(backup)))
    }

    /** The volume stands for the pair before the restore, with its provider files if `exact`, or for the
        new pair if its commit was made durable. */
    ghost predicate Kept(before: Pair, backup: Pair, exact: bool, committed: bool)
      reads this
    {
      Truth(disk).Some? &&
      ((SameCore(Truth(disk).value, before) && (exact ==> Truth(disk).value == Rebuilt(before))) ||
       (committed && Truth(disk).value == NewPair(backup)))
    }

    /** Everything between the first receipt and the end of a restore. */
    method Perform(transaction: string, ghost before: Pair, backup: Pair) returns (r: Flow)
      requires Valid() && Underway(disk, transaction, before, backup) && Whole(Staged(backup))
      requires disk.journal.value.phase.Prepared? && disk.stage[transaction].previous.None?
      modifies this
      ensures Unwinding(transaction, before, backup, commits > old(commits))
      ensures !at.Preparing?
      ensures at in {Guarding, Quiescing} ==>
                disk.journal.Some? && disk.stage[transaction].previous.None? &&
                disk.journal.value.phase.Prepared? && (Tame(old(fates)) ==> disk == old(disk))
      ensures at !in {Guarding, Quiescing, Snapshotting} && disk.journal.Some? ==> Saved(disk)
      ensures disk.journal.None? ==> at.CleaningUp?
      ensures r.Next? ==> disk.journal.None? && Whole(disk.live) && PairOf(disk.live) == NewPair(backup)
      ensures r.Next? ==>
                Reconcilable(backup.database) &&
                |Identities(before.database) + Identities(backup.database)| <= GUARD_BUDGET
      ensures Spent(old(fates), fates, r, Whole(old(disk).live) && Landable(before, backup))
      ensures Whole(old(disk).live) && Coverable(before, backup) && StopsInside(old(fates), before, 2) ==>
                r.Raised? && fates == [] && at.Snapshotting? && Stopped(old(disk), disk, transaction, before)
      ensures Whole(old(disk).live) && Coverable(before, backup) && old(fates) == [] && !r.Next? ==>
                disk.journal.Some? && Saved(disk)
    {
      hide Recoverable, Ordered, Late, Identities, Reconcilable;
      UnderwayTruth(disk, transaction, before, backup);
      UnderwayParts(disk, transaction, before, backup);
      :- Save(transaction, before, backup);
      :- Install(transaction, before, backup);
      :- ProveInstalled(transaction, before, backup);
      r := Seal(transaction, before, backup);
    }

    /** Records that the snapshot must come back, and publishes it. */
    method Republish(transaction: string, ghost before: Pair, ghost backup: Pair, ghost exact: bool) returns (r: Flow)
      requires Valid() && Underway(disk, transaction, before, backup) && HasPrevious(disk, transaction)
      requires exact ==> Exact(disk, transaction, before)
      requires Watch(trace).armed && Watch(trace).quiet && disk.journal.value.ingress <= Watch(trace).covered
      modifies this`disk, this`fates, this`trace, this`commits
      ensures Valid() && commits == old(commits)
      ensures disk == old(disk) ||
              (Truth(disk).Some? && SameCore(Truth(disk).value, before) &&
               (exact ==> Truth(disk).value == Rebuilt(before)))
      ensures r.Next? ==>
                disk.journal.Some? && transaction in disk.stage && Whole(disk.live) &&
                Truth(disk) == Some(Rebuilt(PairOf(disk.live))) && SameCore(PairOf(disk.live), before) &&
                (exact ==> Rebuilt(PairOf(disk.live)) == Rebuilt(before))
      ensures r.Next? ==> disk.live == Tree(PairOf(disk.live)) && Whole(old(disk).stage[transaction].previous.value)
      ensures r.Next? ==> PairOf(disk.live) == PairOf(old(disk).stage[transaction].previous.value)
      ensures Spent(old(fates), fates, r, Whole(old(disk).stage[transaction].previous.value))
    {
      hide Recoverable, Late, Rebuilt;
      var previous := disk.stage[transaction].previous.value;
      RollbackPhase(disk, transaction, before, backup);
      :- Record(disk.journal.value.(phase := RollbackRequired));
      r := Publish(previous);
    }

    /** Guards, stops the writers, and publishes the snapshot if there is one. */
    method Rewind(transaction: string, ghost before: Pair, ghost backup: Pair, ghost exact: bool, ghost committed: bool)
      returns (r: Flow)
      requires Unwinding(transaction, before, backup, committed) && disk.journal.Some?
      requires exact ==> Exact(disk, transaction, before)
      modifies this`disk, this`fates, this`trace, this`commits
      ensures Valid() && commits == old(commits) && Kept(before, backup, exact, committed)
      ensures r.Next? ==>
                && disk.journal.Some? && (Whole(disk.live) ==> Truth(disk) == Some(Rebuilt(PairOf(disk.live))))
                && (Whole(disk.live) ==> SameCore(PairOf(disk.live), before))
                && (Whole(disk.live) && exact ==> Rebuilt(PairOf(disk.live)) == Rebuilt(before))
                && transaction in disk.stage
                && (HasPrevious(old(disk), transaction) ==>
                      Whole(disk.live) && Saves(old(disk), transaction, disk.live))
      ensures Spent(old(fates), fates, r, Coverable(before, backup) && CanUnwind(old(disk), transaction))
      ensures r.Next? ==> Coverable(before, backup)
      ensures r.Next? && Tame(old(fates)) && CanUnwind(old(disk), transaction) ==> Whole(disk.live)
    {
      hide Underway, Truth, Rebuilt, Recoverable, Ordered, Late, Identities, Securable, NewPair;
      UnderwayTruth(disk, transaction, before, backup);
      UnderwayTorn(disk, transaction, before, backup);
      UnderwayParts(disk, transaction, before, backup);
      :- Secure();
      UnderwayParts(disk, transaction, before, backup);
      r := Next;
      if HasPrevious(disk, transaction) {
        r := Republish(transaction, before, backup, exact);
      }
    }

    /** Goes back to the saved pair. */
    method Unwind(transaction: string, ghost before: Pair, ghost backup: Pair, ghost exact: bool, ghost committed: bool)
      returns (r: Flow)
      requires Unwinding(transaction, before, backup, committed) && disk.journal.Some?
      requires exact ==> Exact(disk, transaction, before)
      modifies this`disk, this`fates, this`trace, this`commits
      ensures Valid() && commits == old(commits) && Kept(before, backup, exact, committed)
      ensures r.Next? ==>
                disk.journal.None? && Whole(disk.live) && Truth(disk) == Some(PairOf(disk.live)) &&
                SameCore(PairOf(disk.live), before) && (exact ==> PairOf(disk.live) == Rebuilt(before)) &&
                (HasPrevious(old(disk), transaction) ==> Returned(old(disk), transaction, disk.live))
      ensures Spent(old(fates), fates, r, Undoable(before, backup) && CanUnwind(old(disk), transaction))
      ensures r.Next? ==> Undoable(before, backup)
    {
      r := Next;
      :- Rewind(transaction, before, backup, exact, committed);
      r := ResumeAndClean(transaction);
    }

    /** The exception handler of a journaled restore: roll back, or keep the receipt and block again. */
    method Rollback(transaction: string, ghost before: Pair, ghost backup: Pair, ghost exact: bool,
                    ghost committed: bool)
      returns (r: Flow)
      requires Unwinding(transaction, before, backup, committed)
      requires exact ==> disk.journal.None? || Exact(disk, transaction, before)
      modifies this`disk, this`fates, this`trace, this`commits
      ensures Valid() && commits == old(commits) && Kept(before, backup, exact, committed)
      ensures r.Died? || r in {Raised(RolledBack), Raised(RecoveryNeeded)}
      ensures r == Raised(RolledBack) ==>
                disk.journal.None? && Whole(disk.live) && Truth(disk) == Some(PairOf(disk.live)) &&
                SameCore(PairOf(disk.live), before) && (exact ==> PairOf(disk.live) == Rebuilt(before)) &&
                (HasPrevious(old(disk), transaction) ==> Returned(old(disk), transaction, disk.live))
      ensures r == Raised(RolledBack) ==> Undoable(before, backup)
      ensures old(fates) == [] && old(disk).journal.Some? && Undoable(before, backup) &&
              CanUnwind(old(disk), transaction) ==>
                r == Raised(RolledBack)
    {
      r := Raised(Missing);
      if disk.journal.Some? {
        r := Unwind(transaction, before, backup, exact, committed);
      }
      if r.Next? {
        return Raised(RolledBack);
      }
      if r.Died? {
        return Died;
      }
      if disk.journal.Some? && Readable(disk.journal.value.ingress) {
        r := Guard(disk.journal.value.ingress);
        if r.Died? {
          return Died;
        }
      }
      r := Quiesce();
      if r.Died? {
        return Died;
      }
      return Raised(RecoveryNeeded);
    }

    /** Checks the archive and stages its pair. */
    method StageBackup(transaction: string, backup: Pair) returns (r: Flow)
      requires Valid() && disk.journal.None? && Whole(disk.live) && DirectoriesMade(disk)
      requires transaction in disk.stage && disk.stage[transaction] == Stage(None, None)
      modifies this`disk, this`fates
      ensures Valid() && disk == old(disk).(stage := disk.stage) && Truth(disk) == old(Truth(disk))
      ensures transaction in disk.stage && disk.stage[transaction].previous.None?
      ensures r.Next? ==>
                Installable(PairOf(disk.live), backup) && disk.stage[transaction].candidate == Some(Staged(backup))
      ensures r.Raised? ==> r.code !in {RolledBack, RecoveryNeeded}
      ensures Spent(old(fates), fates, r, Installable(PairOf(old(disk).live), backup))
      ensures Installable(PairOf(old(disk).live), backup) ==> Walked(old(fates), fates, r, 2)
    {
      r := Next;
      :- Attempt();
      if !Whole(Staged(backup)) {
        return Raised(StateInvalid);
      }
      if backup.database.pending {
        return Raised(StatePending);
      }
      var f := Take();
      var made := if f.Works? || f.Tears? then Some(Staged(backup)) else f.residue.tree;
      disk := disk.(stage := disk.stage[transaction := Stage(made, None)]);
      if f.Dies? {
        return Died;
      }
      if f.Fails? {
        return Raised(StepFailed);
      }
      if !IngressReadable(PairOf(disk.live).database) || !IngressReadable(backup.database) {
        return Raised(IngressInvalid);
      }
      return Next;
    }

    /** Stages the backup and writes the first receipt. */
    method Prepare(transaction: string, backup: Pair) returns (r: Flow)
      requires Valid() && disk.journal.None? && Whole(disk.live) && DirectoriesMade(disk)
      requires transaction in disk.stage && disk.stage[transaction] == Stage(None, None)
      modifies this`disk, this`fates, this`commits
      ensures Valid() && commits == old(commits) && disk.live == old(disk).live && Truth(disk) == old(Truth(disk))
      ensures transaction in disk.stage && disk.directories == 6
      ensures disk.journal.None? ||
              (disk.journal.value.phase.Prepared? && disk.journal.value.transaction == transaction)
      ensures r.Next? ==>
                disk.journal.Some? && Installable(PairOf(disk.live), backup) &&
                disk.stage[transaction].previous.None? && Underway(disk, transaction, PairOf(disk.live), backup)
      ensures r.Raised? ==> r.code !in {RolledBack, RecoveryNeeded}
      ensures Spent(old(fates), fates, r, Installable(PairOf(old(disk).live), backup))
      ensures Installable(PairOf(old(disk).live), backup) ==> Walked(old(fates), fates, r, 3)
    {
      hide Ordered, Late, Tame;
      r := Next;
      :- StageBackup(transaction, backup);
      r := Record(Receipt(transaction, Prepared, Identities(PairOf(disk.live).database) + Identities(backup.database)));
      if r.Raised? {
        return Raised(StepFailed);
      }
    }

    /** Drops the staged files of a restore that never got its receipt. */
    method Discard(transaction: string, error: Flow) returns (r: Flow)
      requires Valid() && error.Raised? && Standing(disk.live) && DirectoriesMade(disk)
      requires disk.journal.None? || disk.journal.value.phase.Prepared?
      modifies this`disk, this`fates
      ensures Valid() && disk.live == old(disk).live && Truth(disk) == old(Truth(disk))
      ensures r == error || r == Raised(StepFailed) || r.Died?
      ensures disk.journal == old(disk).journal
    {
      var f := Take();
      if f.Works? || f.Tears? || f.effect {
        disk := disk.(stage := disk.stage - {transaction});
      }
      r := if f.Dies? then Died else if f.Fails? then Raised(StepFailed) else error;
    }

    /** How a journaled restore may end: with the new pair, with a rollback, or with neither reported. */
    ghost predicate Truthful(before: Pair, backup: Pair, r: Flow)
      reads this
    {
      && (r.Next? ==> disk.journal.None? && Whole(disk.live) && PairOf(disk.live) == NewPair(backup))
      && (r == Raised(RolledBack) ==>
            disk.journal.None? && Whole(disk.live) && Truth(disk) == Some(PairOf(disk.live)) &&
            SameCore(PairOf(disk.live), before) && Undoable(before, backup) &&
            (!half || Derivable(before) ==> PairOf(disk.live) == Rebuilt(before)))
    }

    /** What a restore over one failure may demand recovery for: a snapshot that was cut, staged files that
        could not be removed, a pair that could not be brought back, or a refusal and a failure together. */
    predicate Needs(before: Pair, backup: Pair, script: seq<Fate>)
      reads this
    {
      at in {Snapshotting, CleaningUp} || !Undoable(before, backup) ||
      (!Landable(before, backup) && script != [])
    }

    /** Performs a journaled restore, or undoes it. */
    method Undertake(transaction: string, ghost before: Pair, backup: Pair) returns (r: Flow)
      requires Valid() && Underway(disk, transaction, before, backup) && Installable(before, backup) && !half
      requires disk.journal.value.phase.Prepared? && disk.stage[transaction].previous.None? && Whole(disk.live)
      modifies this
      ensures Valid() && Kept(before, backup, !half || Derivable(before), commits > old(commits))
      ensures Truthful(before, backup, r) && (r.Raised? ==> r.code in {RolledBack, RecoveryNeeded})
      ensures Tame(old(fates)) && r == Raised(RecoveryNeeded) ==> Needs(before, backup, old(fates))
      ensures old(fates) == [] && Landable(before, backup) ==> r.Next?
      ensures r.Next? ==> Landable(before, backup)
      ensures old(fates) == [] && !Landable(before, backup) && Undoable(before, backup) ==> r == Raised(RolledBack)
      ensures StopsInside(old(fates), before, 2) && Undoable(before, backup) ==>
                r == Raised(RolledBack) && PairOf(disk.live) == Rebuilt(WithoutEgress(before))
    {
      hide Recoverable, Ordered, Late, Truth, Underway, Rebuilt, SameCore, NewPair, Identities, IngressReadable;
      hide Coverable, Reconcilable, Sound, Derivable;
      UnionCoverable(before, backup);
      UnderwayParts(disk, transaction, before, backup);
      ghost var volume := disk;
      r := Perform(transaction, before, backup);
      if disk.journal.Some? {
        UnderwayTruth(disk, transaction, before, backup);
        UnderwayParts(disk, transaction, before, backup);
        if Saved(disk) {
          SavedUnwinds(disk, transaction, before, backup);
        }
      }
      if r.Raised? {
        if Stopped(volume, disk, transaction, before) {
          StoppedUnwinds(volume, disk, transaction, before);
        }
        half := disk.journal.Some? && HasPrevious(disk, transaction) &&
                disk.stage[transaction].previous.value != Tree(before);
        r := Rollback(transaction, before, backup, !half || Derivable(before), commits > old(commits));
      }
    }

    /** The transaction of a restore whose preconditions hold. */
    method Transact(transaction: string, backup: Pair, ghost before: Pair) returns (r: Flow)
      requires Valid() && disk.journal.None? && Whole(disk.live) && DirectoriesMade(disk)
      requires transaction in disk.stage && disk.stage[transaction] == Stage(None, None)
      requires before == PairOf(disk.live) && at.Preparing? && !half
      modifies this
      ensures Valid() && Kept(before, backup, !half || Derivable(before), commits > old(commits))
      ensures Truthful(before, backup, r)
      ensures r.Raised? && r.code !in {RolledBack, RecoveryNeeded} ==>
                disk.live == old(disk).live && Truth(disk) == old(Truth(disk))
      ensures Tame(old(fates)) && r == Raised(RecoveryNeeded) ==> Needs(before, backup, old(fates))
      ensures old(fates) == [] && Installable(before, backup) && Landable(before, backup) ==> r.Next?
      ensures r.Next? ==> Installable(before, backup) && Landable(before, backup)
      ensures old(fates) == [] && Installable(before, backup) && !Landable(before, backup) &&
              Undoable(before, backup) ==>
                r == Raised(RolledBack)
      ensures StopsInside(old(fates), before, 5) && Installable(before, backup) && Undoable(before, backup) ==>
                r == Raised(RolledBack) && PairOf(disk.live) == Rebuilt(WithoutEgress(before))
    {
      hide Recoverable, Ordered, Late;
      r := Prepare(transaction, backup);
      if r.Raised? {
        r := Discard(transaction, r);
        return;
      }
      if r.Died? {
        return;
      }
      r := Undertake(transaction, before, backup);
    }

    /** Refuses a restore that is unconfirmed, has an invalid live pair or another one unfinished; otherwise
        makes its staging directory. */
    method Admit(transaction: string, confirmed: bool) returns (r: Flow)
      requires Valid()
      modifies this`disk, this`fates, this`trace
      ensures Valid() && disk.live == old(disk).live && disk.journal == old(disk).journal
      ensures Truth(disk) == old(Truth(disk))
      ensures !r.Next? ==> disk == old(disk) && (r.Raised? ==> !r.code.RolledBack?)
      ensures r == Raised(RecoveryNeeded) ==> old(disk).journal.Some?
      ensures r.Next? ==> Whole(disk.live) && disk.journal.None? && DirectoriesMade(disk)
      ensures r.Next? ==> transaction in disk.stage && disk.stage[transaction] == Stage(None, None)
      ensures r.Next? ==> confirmed && transaction !in old(disk).stage
      ensures Spent(old(fates), fates, r,
                    confirmed && Whole(old(disk).live) && old(disk).journal.None? && transaction !in old(disk).stage)
      ensures confirmed && Whole(old(disk).live) && old(disk).journal.None? && transaction !in old(disk).stage ==>
                Walked(old(fates), fates, r, 2)
    {
      if !confirmed {
        return Raised(ConfirmationRequired);
      }
      :- Check();
      if disk.journal.Some? {
        return Raised(RecoveryNeeded);
      }
      if transaction in disk.stage {
        return Raised(Exists);
      }
      :- Attempt();
      disk := disk.(stage := disk.stage[transaction := Stage(None, None)]);
      return Next;
    }

    /** Replaces the live pair by a backup's, or leaves it; whatever fails and wherever the process dies, the
        volume stands for one of the two, and for the new one only if its commit was made durable. */
    method Restore(transaction: string, backup: Pair, confirmed: bool) returns (r: Flow)
      requires Valid()
      modifies this
      ensures Valid()
      ensures r.Next? ==> disk.journal.None? && Whole(disk.live) && PairOf(disk.live) == NewPair(backup)
      ensures r.Next? ==>
                confirmed && old(disk).journal.None? && Whole(old(disk).live) && transaction !in old(disk).stage &&
                Installable(PairOf(old(disk).live), backup) && Landable(PairOf(old(disk).live), backup)
      ensures old(Truth(disk)).None? ==> disk == old(disk) && !r.Next?
      ensures old(Truth(disk)).Some? ==>
                Kept(old(Truth(disk)).value, backup, !half || Derivable(old(Truth(disk)).value), commits > old(commits))
      ensures r == Raised(RolledBack) ==>
                disk.journal.None? && Whole(disk.live) && Truth(disk) == Some(PairOf(disk.live)) &&
                old(Truth(disk)).Some? && SameCore(PairOf(disk.live), old(Truth(disk)).value) &&
                Undoable(old(Truth(disk)).value, backup) &&
                (!half || Derivable(old(Truth(disk)).value) ==> PairOf(disk.live) == old(Truth(disk)).value)
      ensures r.Raised? && r.code !in {RolledBack, RecoveryNeeded} ==>
                disk.live == old(disk).live && Truth(disk) == old(Truth(disk))
      ensures Tame(old(fates)) && r == Raised(RecoveryNeeded) && old(disk).journal.None? ==>
                old(Truth(disk)).Some? && Needs(old(Truth(disk)).value, backup, old(fates))
      ensures old(fates) == [] && confirmed && old(disk).journal.None? && Whole(old(disk).live) &&
              transaction !in old(disk).stage && Installable(PairOf(old(disk).live), backup) ==>
                && (r.Next? <==> Landable(PairOf(old(disk).live), backup))
                && (r == Raised(RolledBack) <==> !r.Next? && Undoable(PairOf(old(disk).live), backup))
      ensures confirmed && Losing(old(disk), transaction, backup) &&
              StopsInside(old(fates), PairOf(old(disk).live), 7) ==>
                r == Raised(RolledBack) && PairOf(disk.live) == Rebuilt(WithoutEgress(PairOf(old(disk).live)))
    {
      hide Recoverable, Ordered, Late, Underway, Installable, Reconcilable, Identities;
      at, half := Preparing, false;
      :- Admit(transaction, confirmed);
      r := Transact(transaction, backup, PairOf(disk.live));
    }

    // ----- Runs -----

    /** Starts that may be cut, until one completes. */
    method StartUntilDone(starts: seq<Op>) returns (done: bool)
      requires Valid() && Truth(disk).Some?
      requires forall i | 0 <= i < |starts| :: starts[i].Start?
      modifies this`disk, this`fates, this`trace, this`commits
      ensures Valid() && Truth(disk) == old(Truth(disk)) && commits == old(commits)
      ensures done ==> disk.journal.None? && Whole(disk.live) && Truth(disk) == Some(PairOf(disk.live))
    {
      for i := 0 to |starts|
        invariant Valid() && Truth(disk) == old(Truth(disk)) && commits == old(commits)
      {
        var r := Startup(starts[i].transaction, starts[i].key, starts[i].initial);
        if r.Next? {
          return true;
        }
        if r.Died? {
          Emit(Ended);
        }
      }
      return false;
    }

    /** A restore, cut or not, followed by starts that may be cut again, until one completes: that one leaves
        all five components of the pair before the restore, or all of the new pair, and the latter only if
        the commit was made durable. */
    method RestoreThenStart(transaction: string, backup: Pair, starts: seq<Op>) returns (done: bool)
      requires Valid() && Truth(disk).Some?
      requires forall i | 0 <= i < |starts| :: starts[i].Start?
      modifies this
      ensures Valid()
      ensures done ==>
                disk.journal.None? && Whole(disk.live) &&
                (PairOf(disk.live) == old(Truth(disk)).value ||
                 (commits > old(commits) && PairOf(disk.live) == NewPair(backup)) ||
                 (half && !Derivable(old(Truth(disk)).value) && SameCore(PairOf(disk.live), old(Truth(disk)).value)))
    {
      hide Recoverable, Ordered, Late, Tame, Readable, IngressReadable, Installable, Losing, StopsInside, Identities;
      hide SameCore, Derivable, Whole, Shielded, Undoable, Landable, NewPair;
      var r := Restore(transaction, backup, true);
      if r.Died? {
        Emit(Ended);
      }
      done := StartUntilDone(starts);
    }

    /** The worker's own write to the live database, complete or cut by its death. */
    method Work(database: Database, cut: bool)
      requires Valid() && disk.journal.None? && Whole(disk.live)
      requires Sound(PairOf(disk.live).(database := database))
      modifies this`disk
      ensures Valid() && Truth(disk) == Some(Rebuilt(PairOf(old(disk).live).(database := database)))
    {
      disk := disk.(live := disk.live.(database := Some(Settled(database))));
      if cut {
        disk := disk.(live := Torn(disk.live));
      }
    }

    /** Any sequence of starts, restores and worker writes, under any script: the volume stays recoverable and
        every publication and reopening stays in order. */
    method Run(ops: seq<Op>)
      requires Valid()
      modifies this
      ensures Valid()
    {
      for i := 0 to |ops|
        invariant Valid()
      {
        var r := Next;
        match ops[i] {
          case Start(transaction, key, initial) =>
            r := Startup(transaction, key, initial);
          case Restoring(transaction, backup, confirmed) =>
            r := Restore(transaction, backup, confirmed);
          case Working(database, cut) =>
            if disk.journal.None? && Whole(disk.live) && Sound(PairOf(disk.live).(database := database)) {
              Work(database, cut);
            }
        }
        if r.Died? {
          Emit(Ended);
        }
      }
    }
  }

  /** The losing script: everything works until the first provider file is to be copied aside. */
  function LosingScript(p: Pair): (f: seq<Fate>)
    ensures Tame(f) && (p.egress != map[] ==> StopsInside(f, p, 7))
  {
    seq(16 + 2 * |p.wireguard.Keys|, _ => Works) + [Fails(false, Residue({}, None, false))]
  }

  /** For every volume with a provider file that cannot be derived, the script under which every restore of it
      reports a rollback with the file gone (the last clause of Coordinator.Restore), and that restore carried
      out. With every provider file derivable there is no such script: then Coordinator.Restore leaves all five
      components whenever it reports a rollback. */
  method LoseProviderFiles(disk: Disk, transaction: string, backup: Pair)
    returns (script: seq<Fate>, c: Coordinator, r: Flow)
    requires Recoverable(disk) && Losing(disk, transaction, backup) && !Derivable(PairOf(disk.live))
    ensures StopsInside(script, PairOf(disk.live), 7) && Tame(script)
    ensures r == Raised(RolledBack) && Whole(c.disk.live)
    ensures PairOf(c.disk.live) == Rebuilt(WithoutEgress(PairOf(disk.live))) != Rebuilt(PairOf(disk.live))
    ensures forall name | name in PairOf(disk.live).egress && name !in PairOf(disk.live).database.projections ::
              name !in PairOf(c.disk.live).egress
  {
    hide Recoverable;
    var before := PairOf(disk.live);
    script := LosingScript(before);
    c := new Coordinator(disk, script);
    r := c.Restore(transaction, backup, true);
    var name :| name in before.egress && name !in before.database.projections;
    assert name in Rebuilt(before).egress && name !in Rebuilt(WithoutEgress(before)).egress;
  }
}
