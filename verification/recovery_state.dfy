/** The durable volume of the container: the live components, the transaction receipt, the staged
    copies, and what they mean to a startup. Models the layout that
    backend/exitlane/container_recovery.py and container_state.py work on. */
module RecoveryState {
  import opened Options
  import opened Net

  type Directory = map<string, string>

  /** What the SQLite file stands for. `projections` are the provider files derived from its intents,
      `pending` is an intent that still needs recovery, and `ingress` lists the protected interfaces, the
      configured tunnel first, each with the configured subnet. */
  datatype Database = Database(
    key: string, records: string, sessions: set<string>, challenges: set<string>, enrollments: set<string>,
    projections: Directory, pending: bool, ingress: seq<Identity>)

  /** The five components that must belong together. */
  datatype Pair = Pair(database: Database, key: string, manifest: string, wireguard: Directory, egress: Directory)

  /** `Unsettled(d)`: cut inside a transaction; SQLite rolls back to `d` from the rollback journal. */
  datatype DatabaseFile = Settled(database: Database) | Unsettled(database: Database)

  /** The files SQLite keeps beside its database. */
  datatype Sidecar = WriteAhead | SharedMemory | RollbackJournal

  /** The components replaced by renaming a ".recovery-new" file over them. */
  datatype File = DatabasePart | KeyPart | ManifestPart

  /** One directory tree, complete or not. */
  datatype Layout = Layout(
    database: Option<DatabaseFile>, key: Option<string>, manifest: Option<string>,
    wireguard: Option<Directory>, egress: Option<Directory>, sidecars: set<Sidecar>, temporaries: set<File>)

  datatype Phase =
    | InitPreparing | InitReady | Prepared | SnapshotReady | Publishing | Installed | Validated | Committed
    | RollbackRequired

  datatype Receipt = Receipt(transaction: string, phase: Phase, ingress: set<Identity>)

  datatype Stage = Stage(candidate: Option<Layout>, previous: Option<Layout>)

  /** `directories` counts the six top directories made so far; zero is an empty root. */
  datatype Disk = Disk(directories: nat, live: Layout, journal: Option<Receipt>, stage: map<string, Stage>)

  const EGRESS_NAMES: set<string> := {"wg-mullvad.conf", "wg-pia.conf", "wg-proton.conf"}
  const NOTHING := Layout(None, None, None, None, None, {}, {})

  function ManifestFor(key: string): string {
    "master_key_sha256 of " + key
  }

  function Identities(d: Database): set<Identity> {
    set id | id in d.ingress
  }

  /** Whether the ingress facts of a database can be read: at most 32 listed interfaces, and a subnet of at
      least four addresses. */
  predicate IngressReadable(d: Database) {
    |d.ingress| <= 32 && forall id | id in d.ingress :: id.subnet.prefix <= 30
  }

  /** Whether a receipt over these identities can be read back. */
  predicate Readable(ingress: set<Identity>) {
    |ingress| <= 32 && forall id | id in ingress :: id.subnet.prefix <= 30
  }

  /** Whether a start gets past such a receipt: it can be read back and the maintenance guard takes it. */
  predicate Securable(ingress: set<Identity>) {
    |ingress| <= GUARD_BUDGET && forall id | id in ingress :: id.subnet.prefix <= 30
  }

  /** Whether the ingress a database describes can be brought up: readable, and at most one interface. */
  predicate Reconcilable(d: Database) {
    IngressReadable(d) && |Identities(d)| <= 1
  }

  /** Whether a recovery can end with this database live: nothing pending and an ingress to bring up. */
  predicate Resumable(d: Database) {
    !d.pending && Reconcilable(d)
  }

  /** The manifest and the sealed secrets belong to the key, and the configured tunnel has its file. */
  predicate Sound(p: Pair) {
    && p.manifest == ManifestFor(p.key)
    && p.database.key == p.key
    && p.egress.Keys <= EGRESS_NAMES
    && p.database.projections.Keys <= EGRESS_NAMES
    && (p.database.ingress != [] ==> p.database.ingress[0].interface + ".conf" in p.wireguard)
  }

  predicate Present(l: Layout) {
    l.database.Some? && l.key.Some? && l.manifest.Some? && l.wireguard.Some? && l.egress.Some?
  }

  function PairOf(l: Layout): Pair
    requires Present(l)
  {
    Pair(l.database.value.database, l.key.value, l.manifest.value, l.wireguard.value, l.egress.value)
  }

  datatype Verdict = Valid | HotJournal | Invalid

  /** Strict validation of one layout. */
  function Validate(l: Layout): Verdict {
    if !Present(l) || !Sound(PairOf(l)) then Invalid
    else if l.database.value.Settled? then Valid
    else if RollbackJournal in l.sidecars then HotJournal
    else Invalid
  }

  predicate Whole(l: Layout) {
    Validate(l).Valid?
  }

  /** A coherent pair, possibly with a SQLite rollback still to be done. */
  predicate Standing(l: Layout) {
    !Validate(l).Invalid?
  }

  /** The tree that holds exactly the pair `p`. */
  function Tree(p: Pair): Layout {
    Layout(Some(Settled(p.database)), Some(p.key), Some(p.manifest), Some(p.wireguard), Some(p.egress), {}, {})
  }

  /** A pair after its provider files have been rebuilt. */
  function Rebuilt(p: Pair): Pair {
    p.(egress := p.egress + p.database.projections)
  }

  /** The pair of a volume initialised with the random key `key`. */
  function EmptyPair(key: string): Pair {
    Pair(Database(key, "", {}, {}, {}, map[], false, []), key, ManifestFor(key), map[], map[])
  }

  function Revoked(d: Database): Database {
    d.(sessions := {}, challenges := {}, enrollments := {})
  }

  /** Everything but the provider files, which are derived. */
  predicate SameCore(p: Pair, q: Pair) {
    p.(egress := map[]) == q.(egress := map[])
  }

  predicate HasPrevious(d: Disk, transaction: string) {
    transaction in d.stage && d.stage[transaction].previous.Some?
  }

  predicate HasCandidate(d: Disk, transaction: string) {
    transaction in d.stage && d.stage[transaction].candidate.Some?
  }

  /** The phases whose receipt selects the snapshot. */
  predicate SelectsPrevious(phase: Phase) {
    phase in {SnapshotReady, Publishing, Installed, Validated, RollbackRequired}
  }

  /** The tree a startup would make live, or keep live. */
  function Source(d: Disk): Option<Layout> {
    match d.journal
    case None => Some(d.live)
    case Some(r) =>
      if r.phase.InitPreparing? then None
      else if r.phase.InitReady? then
        if HasCandidate(d, r.transaction) then d.stage[r.transaction].candidate else None
      else if SelectsPrevious(r.phase) then
        if HasPrevious(d, r.transaction) then d.stage[r.transaction].previous else None
      else Some(d.live)
  }

  /** The receipt selects a complete tree other than the live one, so the live files may be in any state. */
  predicate Shielded(d: Disk) {
    && d.journal.Some?
    && (d.journal.value.phase.InitReady? || SelectsPrevious(d.journal.value.phase))
    && Source(d).Some? && Whole(Source(d).value)
  }

  /** The pair the volume stands for: what the next completed startup leaves live. */
  function Truth(d: Disk): Option<Pair> {
    if Shielded(d) then Some(Rebuilt(PairOf(Source(d).value)))
    else if Standing(d.live) && !(d.journal.Some? && d.journal.value.phase in {InitPreparing, InitReady}) then
      Some(Rebuilt(PairOf(d.live)))
    else None
  }

  predicate DirectoriesMade(d: Disk) {
    d.directories == 6 && d.live.wireguard.Some? && d.live.egress.Some?
  }

  /** What every durable write keeps. Without a receipt the live pair stands, or the volume was never
      initialised; with one, the live pair stands or the receipt selects a complete tree. The guard a
      receipt names covers the pair it stands for and the pair it was to install. */
  predicate Recoverable(d: Disk) {
    match d.journal
    case None =>
      || (DirectoriesMade(d) && Standing(d.live))
      || (d.live.database.None? && d.directories <= 6 && (d.directories == 0 ==> d.stage == map[]))
    case Some(r) =>
      && DirectoriesMade(d)
      && (match r.phase
          case InitPreparing => r.transaction in d.stage
          case InitReady => Shielded(d) && !PairOf(Source(d).value).database.pending
          case Prepared => Standing(d.live)
          case Committed => Standing(d.live)
          case RollbackRequired => HasPrevious(d, r.transaction) && (Shielded(d) || Standing(d.live))
          case _ => Shielded(d))
      && (if r.phase in {InitPreparing, InitReady} then r.ingress == {} else Covered(d, r))
  }

  predicate Covered(d: Disk, r: Receipt) {
    && (forall id | id in r.ingress :: id.subnet.prefix <= 30)
    && (Truth(d).Some? ==> Identities(Truth(d).value.database) <= r.ingress)
    && (HasCandidate(d, r.transaction) && d.stage[r.transaction].candidate.value.database.Some? ==>
        Identities(d.stage[r.transaction].candidate.value.database.value.database) <= r.ingress)
  }

  /** Whether an undisturbed startup finishes, decided from the volume alone. */
  predicate CanFinish(d: Disk) {
    match d.journal
    case None =>
      || d.directories == 0
      || (Standing(d.live) && Resumable(PairOf(d.live).database))
    case Some(r) =>
      && Securable(r.ingress)
      && r.transaction in d.stage
      && (r.phase.InitPreparing? ||
          (Source(d).Some? && Whole(Source(d).value) && Resumable(PairOf(Source(d).value).database)))
  }

  /** The live files after a worker was killed inside a database transaction. */
  function Torn(l: Layout): Layout {
    if l.database.Some? && l.database.value.Settled? then
      l.(database := Some(Unsettled(l.database.value.database)), sidecars := l.sidecars + {RollbackJournal})
    else l
  }

  lemma NoSidecarLeft(s: set<Sidecar>)
    requires WriteAhead !in s && SharedMemory !in s && RollbackJournal !in s
    ensures s == {}
  {
    forall x | x in s
      ensures false
    {
      match x
      case WriteAhead =>
      case SharedMemory =>
      case RollbackJournal =>
    }
  }

  lemma NoTemporaryLeft(s: set<File>)
    requires DatabasePart !in s && KeyPart !in s && ManifestPart !in s
    ensures s == {}
  {
    forall x | x in s
      ensures false
    {
      match x
      case DatabasePart =>
      case KeyPart =>
      case ManifestPart =>
    }
  }

  /** While the receipt selects another complete tree, nothing written to the live files matters. */
  lemma LiveIsFree(d: Disk, l: Layout)
    requires Shielded(d) && DirectoriesMade(d) && l.wireguard.Some? && l.egress.Some?
    ensures var e := d.(live := l);
            Shielded(e) && DirectoriesMade(e) && Source(e) == Source(d) && Truth(e) == Truth(d) &&
            (Recoverable(d) ==> Recoverable(e))
  {
  }

  /** The provider files after the derived ones in `done` have been rewritten. */
  function Refreshed(egress: Directory, files: Directory, done: set<string>): (e: Directory)
    ensures e + files == egress + files
    ensures e.Keys <= egress.Keys + files.Keys
    ensures files.Keys <= done ==> e == egress + files
  {
    egress + (map n | n in files && n in done :: files[n])
  }

  /** Rewriting derived files, completely or not, does not change what the volume stands for. */
  lemma RefreshKeeps(d: Disk, done: set<string>)
    requires Recoverable(d) && Whole(d.live)
    ensures var p := PairOf(d.live);
            var e := d.(live := d.live.(egress := Some(Refreshed(p.egress, p.database.projections, done))));
            Recoverable(e) && Whole(e.live) && Truth(e) == Truth(d) && Rebuilt(PairOf(e.live)) == Rebuilt(p)
  {
  }

  /** Killing a writer costs no committed data. */
  lemma TornKeeps(d: Disk)
    requires Recoverable(d)
    ensures Recoverable(d.(live := Torn(d.live))) && Truth(d.(live := Torn(d.live))) == Truth(d)
  {
  }

  /** Every provider file can be rebuilt from the database. */
  predicate Derivable(p: Pair) {
    p.egress.Keys <= p.database.projections.Keys
  }

  /** Rebuilding forgets which of its derivable files a pair had. */
  lemma RebuiltAlike(p: Pair, q: Pair)
    requires SameCore(p, q) && Derivable(q) && p.egress.Keys <= q.egress.Keys
    ensures Rebuilt(p) == Rebuilt(q)
  {
    assert p.egress + p.database.projections == q.egress + q.database.projections;
  }

  // ----- Safe but not finishable -----

  /** The receipt names more identities than the maintenance guard takes. */
  predicate Crowded(d: Disk) {
    d.journal.Some? && |d.journal.value.ingress| > GUARD_BUDGET
  }

  /** The staged files of the receipt are gone. */
  predicate Unstaged(d: Disk) {
    d.journal.Some? && d.journal.value.transaction !in d.stage
  }

  /** The receipt keeps the live pair, whose worker was cut inside a database transaction. */
  predicate CutUnderReceipt(d: Disk) {
    d.journal.Some? && d.journal.value.phase in {Prepared, Committed} && Validate(d.live).HotJournal?
  }

  /** A rollback receipt over a snapshot that was only begun. */
  predicate HalfSaved(d: Disk) {
    d.journal.Some? && d.journal.value.phase.RollbackRequired? && !Shielded(d)
  }

  /** The pair itself still needs another recovery. */
  predicate Waiting(d: Disk) {
    Truth(d).Some? && Truth(d).value.database.pending
  }

  /** The pair lists several interfaces, or more than can be read. */
  predicate Irreconcilable(d: Disk) {
    Truth(d).Some? && !Reconcilable(Truth(d).value.database)
  }

  /** The volumes that keep their pair but that no start finishes are exactly these. */
  lemma StrandedExactly(d: Disk)
    requires Recoverable(d) && Truth(d).Some?
    ensures !CanFinish(d) <==>
            Crowded(d) || Unstaged(d) || CutUnderReceipt(d) || HalfSaved(d) || Waiting(d) || Irreconcilable(d)
  {
  }

  function Volume(live: Layout, phase: Phase, ingress: set<Identity>, stages: map<string, Stage>): Disk {
    Disk(6, live, Some(Receipt("t", phase, ingress)), stages)
  }

  /** Tunnels with different names on one subnet. */
  function Tunnels(base: nat, n: nat): seq<Identity>
    requires n <= 26
  {
    seq(n, i requires 0 <= i < n => Identity(['w', 'g', 'a' + i as char], Subnet(base, 24)))
  }

  lemma {:induction false} Distinct(s: seq<Identity>)
    requires forall i, j | 0 <= i < j < |s| :: s[i] != s[j]
    ensures |set id | id in s| == |s|
  {
    if s != [] {
      Distinct(s[1..]);
      assert s[0] !in s[1..];
      assert (set id | id in s) == {s[0]} + set id | id in s[1..];
    }
  }

  /** One running interface and a backup with `n` others make a receipt of one more. */
  lemma TunnelsCrowd(base: nat, other: nat, n: nat)
    requires base != other && n <= 26
    ensures (forall id | id in Tunnels(base, 1) + Tunnels(other, n) :: id.subnet.prefix <= 30)
    ensures var a, b := (set id | id in Tunnels(base, 1)), (set id | id in Tunnels(other, n));
            |a| == 1 && |b| == n && |a + b| == n + 1
  {
    Distinct(Tunnels(base, 1));
    Distinct(Tunnels(other, n));
    var a, b := (set id | id in Tunnels(base, 1)), (set id | id in Tunnels(other, n));
    assert a !! b;
    assert |a + b| == |a| + |b|;
  }

  lemma TreeStands(p: Pair)
    requires Sound(p)
    ensures Whole(Tree(p)) && PairOf(Tree(p)) == p
    ensures Standing(Torn(Tree(p))) && PairOf(Torn(Tree(p))) == p && Validate(Torn(Tree(p))).HotJournal?
  {
  }

  /** A first receipt that became durable although writing it raised, so that its staged files were
      discarded, over any sound pair without ingress. */
  lemma UnstagedVolume(p: Pair)
    requires Sound(p) && p.database.ingress == []
    ensures var d := Volume(Tree(p), Prepared, {}, map[]);
            Recoverable(d) && Truth(d) == Some(Rebuilt(p)) && Unstaged(d)
  {
    TreeStands(p);
  }

  /** A worker killed inside a database transaction before the snapshot, or after the commit. */
  lemma CutVolumes(p: Pair, phase: Phase)
    requires Sound(p) && p.database.ingress == [] && phase in {Prepared, Committed}
    ensures var d := Volume(Torn(Tree(p)), phase, {}, map["t" := Stage(None, None)]);
            Recoverable(d) && Truth(d) == Some(Rebuilt(p)) && CutUnderReceipt(d)
  {
    TreeStands(p);
  }

  /** A rollback receipt written after the snapshot raised half-way. */
  lemma HalfSavedVolume(p: Pair)
    requires Sound(p) && p.database.ingress == []
    ensures var d := Volume(Tree(p), RollbackRequired, {}, map["t" := Stage(None, Some(NOTHING))]);
            Recoverable(d) && Truth(d) == Some(Rebuilt(p)) && HalfSaved(d)
  {
    TreeStands(p);
  }

  /** Without a receipt a sound pair is finished exactly if nothing is pending and it lists at most one
      interface, with a subnet that can be read. */
  lemma PlainVolume(p: Pair)
    requires Sound(p)
    ensures var d := Disk(6, Tree(p), None, map[]);
            && Recoverable(d) && Truth(d) == Some(Rebuilt(p))
            && (CanFinish(d) <==> !p.database.pending && Reconcilable(p.database))
  {
    TreeStands(p);
  }

  /** Right after the first receipt of a restore of one readable ingress over another, a start finishes
      exactly if the running pair could start by itself and both lists together are within the guard's budget. */
  lemma FirstReceipt(before: Pair, backup: Pair)
    requires Sound(before) && IngressReadable(before.database) && IngressReadable(backup.database)
    ensures var union := Identities(before.database) + Identities(backup.database);
            var d := Volume(Tree(before), Prepared, union, map["t" := Stage(Some(Tree(backup)), None)]);
            && Recoverable(d) && Truth(d) == Some(Rebuilt(before))
            && (CanFinish(d) <==>
                  !before.database.pending && |Identities(before.database)| <= 1 && |union| <= GUARD_BUDGET)
  {
    hide Torn;
    TreeStands(before);
  }

  /** So one running interface is enough for a backup with eight others to strand the volume. */
  lemma EightMoreStrand(before: Pair, backup: Pair, base: nat, other: nat)
    requires Sound(before) && base != other
    requires before.database.ingress == Tunnels(base, 1) && backup.database.ingress == Tunnels(other, GUARD_BUDGET)
    ensures var union := Identities(before.database) + Identities(backup.database);
            var d := Volume(Tree(before), Prepared, union, map["t" := Stage(Some(Tree(backup)), None)]);
            Recoverable(d) && Readable(union) && Crowded(d) && !CanFinish(d) && Truth(d) == Some(Rebuilt(before))
  {
    TunnelsCrowd(base, other, GUARD_BUDGET);
    FirstReceipt(before, backup);
  }
}
