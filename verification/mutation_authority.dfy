/** The exclusive mutation lease: one owner at a time, tasks borrowed from it, revocation, draining, the
    quiescence a lost writer owes, and permanent poisoning. Every await is one step; cancellations during a
    drain or a quiesce call are swallowed by the shield loops and so change nothing. Models
    backend/exitlane/container_control.py. */
module MutationAuthority {
  import opened Options

  // ----- Requests and borrowed tasks -----

  /** Where a request is. `quiet`: no writer of the lease was running when the quiesce call began. */
  datatype Pc =
    | Done
    | Waiting(lease: bool)
    | Leased                                // the holder of a lease works until it sends the release
    | Calling                               // a backup or restore callback works
    | Interrupted(quiet: bool)              // the caller of a callback was lost: quiescing
    | Awaiting                              // waiting for the interrupted callback itself
    | LossDraining                          // waiting for the borrowed tasks of a lost owner
    | LossQuiescing(quiet: bool)
    | Closing(ok: bool)                     // waiting for the borrowed tasks before the release
    | FinalQuiescing(quiet: bool, ok: bool)
    | Acknowledging

  /** A task borrowed from a lease. */
  datatype Borrowed = Working(owner: nat) | Cleaning(owner: nat, quiet: bool)

  predicate Inside(pc: Pc) {
    !pc.Done? && !pc.Waiting? && !pc.Acknowledging?
  }

  /** What is running and owed at one moment. */
  datatype View = View(
    inside: set<nat>, borrowed: map<nat, Borrowed>, callbacks: set<nat>, lost: bool, proven: bool, poisoned: bool)

  datatype Entry = Admitted(who: nat, before: View) | Acknowledged(who: nat, before: View)

  /** `lost`: a writer of the last lease ended abnormally; `proven`: since then a quiesce call that began
      with no writer running returned true. */
  datatype State = State(
    lock: Option<nat>,
    owner: Option<nat>,
    revoking: bool,
    failed: bool,
    poisoned: bool,
    requests: map<nat, Pc>,
    borrowed: map<nat, Borrowed>,
    callbacks: set<nat>,
    lost: bool,
    proven: bool,
    log: set<Entry>)

  function Look(s: State): View {
    View((set t | t in s.requests && Inside(s.requests[t])), s.borrowed, s.callbacks, s.lost, s.proven, s.poisoned)
  }

  predicate Quiet(s: State) {
    s.borrowed == map[] && s.callbacks == {}
  }

  function Go(s: State, t: nat, pc: Pc): State {
    s.(requests := s.requests[t := pc])
  }

  // ----- Steps -----

  datatype Action =
    | Requests(lease: bool)
    | Granted
    | GivesUp
    | BodyEnds(ok: bool)
    | CallbackEnds
    | ResultRefused
    | Quiesces(safe: bool)
    | Joins
    | Borrows(id: nat)
    | BorrowedEnds(id: nat, ok: bool)
    | BorrowedQuiesces(id: nat, safe: bool)
    | Acks
    | Condemns

  /** The lock is free: a poisoned authority lets go of it at once, another one admits the request. */
  function Admit(s: State, t: nat, lease: bool): State {
    if s.poisoned then Go(s, t, Done)
    else
      Go(s, t, if lease then Leased else Calling).(
        lock := Some(t), owner := Some(t), revoking := false, failed := false, lost := false, proven := false,
        callbacks := if lease then s.callbacks else s.callbacks + {t},
        log := s.log + {Admitted(t, Look(s))})
  }

  function Lose(s: State): State {
    s.(lost := true, proven := false)
  }

  /** A quiesce call returns; anything but true closes the authority for good. */
  function Quiesced(s: State, quiet: bool, safe: bool): State {
    s.(proven := s.proven || (safe && quiet), poisoned := s.poisoned || !safe)
  }

  function Release(s: State, t: nat, ok: bool): State {
    Go(s, t, if ok then Acknowledging else Done).(owner := None, lock := None)
  }

  function EndBody(s: State, t: nat, pc: Pc, ok: bool): State {
    match pc
    case Leased =>
      if ok then Go(s, t, Closing(true)).(revoking := true) else Go(Lose(s), t, LossDraining).(revoking := true)
    case Calling =>
      if ok then (if t in s.callbacks then s else Go(s, t, Closing(true)).(revoking := true))
      else Go(Lose(s), t, Interrupted(Quiet(s)))
    case _ => s
  }

  function EndQuiesce(s: State, t: nat, pc: Pc, safe: bool): State {
    match pc
    case Interrupted(quiet) => Go(Quiesced(s, quiet, safe), t, Awaiting)
    case LossQuiescing(quiet) => Go(Quiesced(s, quiet, safe), t, Closing(false))
    case FinalQuiescing(quiet, ok) => Release(Quiesced(s, quiet, safe), t, ok && safe)
    case _ => s
  }

  function Join(s: State, t: nat, pc: Pc): State {
    match pc
    case Awaiting => if t in s.callbacks then s else Go(s, t, LossDraining).(revoking := true)
    case LossDraining => if s.borrowed == map[] then Go(s, t, LossQuiescing(Quiet(s))) else s
    case Closing(ok) =>
      if s.borrowed != map[] then s
      else if s.failed then Go(s, t, FinalQuiescing(Quiet(s), ok))
      else Release(s, t, ok)
    case _ => s
  }

  /** A task may be borrowed only from the undisturbed holder of a lease. */
  function Borrow(s: State, t: nat, id: nat): State {
    if s.owner == Some(t) && t in s.requests && s.requests[t].Leased? && !s.poisoned && !s.revoking && id !in s.borrowed
    then s.(borrowed := s.borrowed[id := Working(t)])
    else s
  }

  function EndBorrowed(s: State, id: nat, ok: bool): State {
    if id !in s.borrowed || s.borrowed[id].Cleaning? then s
    else if ok then s.(borrowed := s.borrowed - {id})
    else Lose(s).(revoking := true, failed := true, borrowed := s.borrowed[id := Cleaning(s.borrowed[id].owner, false)])
  }

  function EndBorrowedQuiesce(s: State, id: nat, safe: bool): State {
    if id !in s.borrowed || s.borrowed[id].Working? then s
    else Quiesced(s, s.borrowed[id].quiet, safe).(borrowed := s.borrowed - {id})
  }

  function Place(s: State, t: nat): Pc {
    if t in s.requests then s.requests[t] else Done
  }

  function Step(s: State, t: nat, a: Action): State {
    match a
    case Requests(lease) => if t in s.requests then s else Go(s, t, Waiting(lease))
    case Granted => if Place(s, t).Waiting? && s.lock.None? then Admit(s, t, Place(s, t).lease) else s
    case GivesUp => if Place(s, t).Waiting? then Go(s, t, Done) else s
    case BodyEnds(ok) => EndBody(s, t, Place(s, t), ok)
    case CallbackEnds => s.(callbacks := s.callbacks - {t})
    case ResultRefused =>
      if Place(s, t).Calling? && t !in s.callbacks then Go(Lose(s), t, LossDraining).(revoking := true) else s
    case Quiesces(safe) => EndQuiesce(s, t, Place(s, t), safe)
    case Joins => Join(s, t, Place(s, t))
    case Borrows(id) => Borrow(s, t, id)
    case BorrowedEnds(id, ok) => EndBorrowed(s, id, ok)
    case BorrowedQuiesces(id, safe) => EndBorrowedQuiesce(s, id, safe)
    case Acks =>
      if Place(s, t).Acknowledging? then Go(s, t, Done).(log := s.log + {Acknowledged(t, Look(s))}) else s
    case Condemns => s.(poisoned := true)
  }

  function Run(s: State, schedule: seq<(nat, Action)>): State {
    if schedule == [] then s
    else
      var last := schedule[|schedule| - 1];
      Step(Run(s, schedule[..|schedule| - 1]), last.0, last.1)
  }

  const FRESH := State(None, None, false, false, false, map[], map[], {}, false, false, {})

  // ----- The invariant -----

  /** What the holder of the lock knows about its own lease. */
  predicate HolderOk(s: State, pc: Pc) {
    && (s.borrowed != map[] ==> pc.Leased? || pc.LossDraining? || pc.Closing?)
    && (s.callbacks != {} ==> pc.Calling? || pc.Interrupted? || pc.Awaiting?)
    && (match pc
        case Leased => s.lost ==> s.failed && s.revoking
        case Calling => !s.lost
        case Interrupted(_) => s.lost
        case Awaiting => s.lost
        case LossDraining => s.lost && s.revoking
        case LossQuiescing(quiet) => s.lost && s.revoking && quiet
        case Closing(ok) =>
          s.revoking && (s.lost ==> s.failed || s.proven || s.poisoned) && (s.borrowed != map[] ==> ok)
        case FinalQuiescing(quiet, _) => s.revoking && quiet
        case _ => false)
  }

  predicate Idle(s: State) {
    s.owner.None? && s.borrowed == map[] && s.callbacks == {} && (s.lost ==> s.proven || s.poisoned)
  }

  predicate EntryOk(e: Entry) {
    match e
    case Admitted(_, v) =>
      v.inside == {} && v.borrowed == map[] && v.callbacks == {} && !v.poisoned && (v.lost ==> v.proven)
    case Acknowledged(who, v) =>
      who !in v.inside && who !in v.callbacks && forall id | id in v.borrowed :: v.borrowed[id].owner != who
  }

  predicate LockOk(s: State) {
    && (forall t | t in s.requests :: Inside(s.requests[t]) <==> s.lock == Some(t))
    && (s.lock.Some? ==> s.lock.value in s.requests && s.owner == s.lock && HolderOk(s, s.requests[s.lock.value]))
    && (s.lock.None? ==> Idle(s))
  }

  predicate Inv(s: State) {
    && LockOk(s)
    && (forall id | id in s.borrowed :: Some(s.borrowed[id].owner) == s.lock)
    && (forall t | t in s.callbacks :: s.lock == Some(t))
    && (forall e | e in s.log :: EntryOk(e))
  }

  /** Poison stays and admits nobody. */
  predicate Follows(s: State, u: State) {
    (s.poisoned ==> u.poisoned) && s.log <= u.log &&
    (s.poisoned ==> forall e | e in u.log && e.Admitted? :: e in s.log)
  }

  predicate Keeps(s: State, u: State) {
    Inv(u) && Follows(s, u)
  }

  // ----- Every step keeps it -----

  predicate Holds(s: State, t: nat, pc: Pc) {
    Inv(s) && t in s.requests && s.requests[t] == pc && s.lock == Some(t)
  }

  /** The holder goes on inside its lease; nobody else is concerned. */
  lemma HolderGoes(s: State, u: State, t: nat, pc: Pc)
    requires Inv(s) && s.lock == Some(t) && Inside(pc)
    requires u.lock == s.lock && u.owner == s.owner && u.requests == s.requests && u.borrowed == s.borrowed
    requires u.callbacks == s.callbacks && u.log == s.log && (s.poisoned ==> u.poisoned)
    requires HolderOk(u, pc)
    ensures Keeps(s, Go(u, t, pc))
  {
  }

  lemma ReleaseKeeps(s: State, u: State, t: nat, ok: bool)
    requires Inv(s) && s.lock == Some(t) && s.borrowed == map[] && s.callbacks == {}
    requires u == s.(proven := u.proven, poisoned := u.poisoned) && (s.poisoned ==> u.poisoned)
    requires u.lost ==> u.proven || u.poisoned
    ensures Keeps(s, Release(u, t, ok))
  {
  }

  lemma AdmitKeeps(s: State, t: nat, lease: bool)
    requires Inv(s) && t in s.requests && s.requests[t].Waiting? && s.lock.None?
    ensures Keeps(s, Admit(s, t, lease))
  {
    assert Look(s).inside == {};
  }

  lemma AckKeeps(s: State, t: nat)
    requires Inv(s) && t in s.requests && s.requests[t].Acknowledging?
    ensures Keeps(s, Go(s, t, Done).(log := s.log + {Acknowledged(t, Look(s))}))
  {
    var e := Acknowledged(t, Look(s));
    assert EntryOk(e);
  }

  lemma OutsideKeeps(s: State, t: nat, pc: Pc)
    requires Inv(s) && s.lock != Some(t) && !Inside(pc)
    ensures Keeps(s, Go(s, t, pc))
  {
  }

  lemma EndBodyKeeps(s: State, t: nat, pc: Pc, ok: bool)
    requires Holds(s, t, pc)
    ensures Keeps(s, EndBody(s, t, pc, ok))
  {
    hide Inv;
    HolderFacts(s, t);
    var lost := Lose(s);
    if pc.Leased? {
      HolderGoes(s, (if ok then s else lost).(revoking := true), t, if ok then Closing(true) else LossDraining);
    } else if pc.Calling? && !ok {
      HolderGoes(s, lost, t, Interrupted(Quiet(s)));
    } else if pc.Calling? && t !in s.callbacks {
      HolderGoes(s, s.(revoking := true), t, Closing(true));
    }
  }

  lemma HolderFacts(s: State, t: nat)
    requires Inv(s) && s.lock == Some(t)
    ensures t in s.requests && Inside(s.requests[t]) && HolderOk(s, s.requests[t]) && Follows(s, s)
    ensures t !in s.callbacks ==> s.callbacks == {}
  {
    if t !in s.callbacks {
      assert forall x | x in s.callbacks :: x == t;
    }
  }

  lemma RefusedKeeps(s: State, t: nat)
    requires Holds(s, t, Calling) && t !in s.callbacks
    ensures Keeps(s, Go(Lose(s), t, LossDraining).(revoking := true))
  {
    hide Inv;
    HolderFacts(s, t);
    HolderGoes(s, Lose(s).(revoking := true), t, LossDraining);
  }

  lemma EndQuiesceKeeps(s: State, t: nat, pc: Pc, safe: bool)
    requires Holds(s, t, pc)
    ensures Keeps(s, EndQuiesce(s, t, pc, safe))
  {
    hide Inv;
    HolderFacts(s, t);
    match pc
    case Interrupted(quiet) => HolderGoes(s, Quiesced(s, quiet, safe), t, Awaiting);
    case LossQuiescing(quiet) => HolderGoes(s, Quiesced(s, quiet, safe), t, Closing(false));
    case FinalQuiescing(quiet, ok) => ReleaseKeeps(s, Quiesced(s, quiet, safe), t, ok && safe);
    case _ =>
  }

  lemma JoinKeeps(s: State, t: nat, pc: Pc)
    requires Holds(s, t, pc)
    ensures Keeps(s, Join(s, t, pc))
  {
    hide Inv;
    HolderFacts(s, t);
    if pc.Awaiting? && t !in s.callbacks {
      HolderGoes(s, s.(revoking := true), t, LossDraining);
    } else if pc.LossDraining? && s.borrowed == map[] {
      HolderGoes(s, s, t, LossQuiescing(Quiet(s)));
    } else if pc.Closing? && s.borrowed == map[] {
      if s.failed {
        HolderGoes(s, s, t, FinalQuiescing(Quiet(s), pc.ok));
      } else {
        ReleaseKeeps(s, s, t, pc.ok);
      }
    }
  }

  /** The writers of a lease come and go while its holder stays where it is. */
  lemma WritersKeep(s: State, u: State)
    requires Inv(s) && u.lock == s.lock && u.owner == s.owner && u.requests == s.requests && u.log == s.log
    requires s.poisoned ==> u.poisoned
    requires forall id | id in u.borrowed :: Some(u.borrowed[id].owner) == u.lock
    requires u.callbacks <= s.callbacks
    requires s.lock.Some? ==> HolderOk(u, s.requests[s.lock.value])
    requires s.lock.None? ==> Idle(u)
    ensures Keeps(s, u)
  {
  }

  lemma BorrowKeeps(s: State, t: nat, id: nat)
    requires Inv(s)
    ensures Keeps(s, Borrow(s, t, id))
  {
    hide Inv, Keeps;
    PlaceFacts(s, t);
    WritersKeep(s, Borrow(s, t, id));
  }

  lemma EndBorrowedKeeps(s: State, id: nat, ok: bool)
    requires Inv(s)
    ensures Keeps(s, EndBorrowed(s, id, ok))
  {
    hide Inv, Keeps;
    PlaceFacts(s, 0);
    var u := EndBorrowed(s, id, ok);
    assert id in s.borrowed ==> s.borrowed != map[];
    WritersKeep(s, u);
  }

  lemma EndBorrowedQuiesceKeeps(s: State, id: nat, safe: bool)
    requires Inv(s)
    ensures Keeps(s, EndBorrowedQuiesce(s, id, safe))
  {
    hide Inv, Keeps;
    PlaceFacts(s, 0);
    assert id in s.borrowed ==> s.borrowed != map[];
    WritersKeep(s, EndBorrowedQuiesce(s, id, safe));
  }

  lemma PlaceFacts(s: State, t: nat)
    requires Inv(s)
    ensures Keeps(s, s) && (Inside(Place(s, t)) ==> Holds(s, t, Place(s, t)))
    ensures !Inside(Place(s, t)) ==> s.lock != Some(t)
    ensures s.lock.Some? ==> s.lock.value in s.requests && HolderOk(s, s.requests[s.lock.value])
    ensures s.lock.None? ==> Idle(s)
    ensures forall id | id in s.borrowed :: Some(s.borrowed[id].owner) == s.lock
  {
  }

  /** A step of the holder changes nothing for a request that is not inside. */
  lemma HolderSteps(s: State, t: nat, ok: bool)
    requires Inv(s)
    ensures var pc := Place(s, t);
            Keeps(s, EndBody(s, t, pc, ok)) && Keeps(s, EndQuiesce(s, t, pc, ok)) && Keeps(s, Join(s, t, pc))
  {
    hide Inv, Keeps, Idle, HolderOk;
    PlaceFacts(s, t);
    if Inside(Place(s, t)) {
      EndBodyKeeps(s, t, Place(s, t), ok);
      EndQuiesceKeeps(s, t, Place(s, t), ok);
      JoinKeeps(s, t, Place(s, t));
    }
  }

  lemma CallbackKeeps(s: State, t: nat)
    requires Inv(s)
    ensures Keeps(s, s.(callbacks := s.callbacks - {t}))
  {
    hide Inv, Keeps;
    PlaceFacts(s, t);
    WritersKeep(s, s.(callbacks := s.callbacks - {t}));
  }

  lemma CondemnKeeps(s: State)
    requires Inv(s)
    ensures Keeps(s, s.(poisoned := true))
  {
    hide Inv, Keeps;
    PlaceFacts(s, 0);
    WritersKeep(s, s.(poisoned := true));
  }

  lemma StepKeeps(s: State, t: nat, a: Action)
    requires Inv(s)
    ensures Keeps(s, Step(s, t, a))
  {
    hide Inv, Keeps, Idle, HolderOk, Admit, EndBody, EndQuiesce, Join, Borrow, EndBorrowed, EndBorrowedQuiesce;
    PlaceFacts(s, t);
    var pc := Place(s, t);
    match a
    case Requests(lease) => if t !in s.requests { OutsideKeeps(s, t, Waiting(lease)); }
    case Granted => if pc.Waiting? && s.lock.None? { AdmitKeeps(s, t, pc.lease); }
    case GivesUp => if pc.Waiting? { OutsideKeeps(s, t, Done); }
    case BodyEnds(ok) => HolderSteps(s, t, ok);
    case CallbackEnds => CallbackKeeps(s, t);
    case ResultRefused => if pc.Calling? && t !in s.callbacks { RefusedKeeps(s, t); }
    case Quiesces(safe) => HolderSteps(s, t, safe);
    case Joins => HolderSteps(s, t, true);
    case Borrows(id) => BorrowKeeps(s, t, id);
    case BorrowedEnds(id, ok) => EndBorrowedKeeps(s, id, ok);
    case BorrowedQuiesces(id, safe) => EndBorrowedQuiesceKeeps(s, id, safe);
    case Acks => if pc.Acknowledging? { AckKeeps(s, t); }
    case Condemns => CondemnKeeps(s);
  }

  // ----- Whole runs -----

  lemma {:induction false} RunKeeps(schedule: seq<(nat, Action)>)
    ensures Inv(Run(FRESH, schedule))
  {
    hide Step;
    if schedule != [] {
      var before, last := schedule[..|schedule| - 1], schedule[|schedule| - 1];
      RunKeeps(before);
      StepKeeps(Run(FRESH, before), last.0, last.1);
    }
  }

  /** No owner is admitted while another one, a task borrowed from one, or an interrupted callback is still
      running; and after a writer was lost, none is admitted before a quiesce call made with all of them
      stopped has returned true. */
  lemma LeaseExclusion(schedule: seq<(nat, Action)>, who: nat, before: View)
    requires Admitted(who, before) in Run(FRESH, schedule).log
    ensures before.inside == {} && before.borrowed == map[] && before.callbacks == {}
    ensures !before.poisoned && (before.lost ==> before.proven)
  {
    RunKeeps(schedule);
    assert EntryOk(Admitted(who, before));
  }

  /** A release is acknowledged only when its owner, its borrowed tasks and its callback are all gone. */
  lemma AcknowledgedAfterJoin(schedule: seq<(nat, Action)>, who: nat, before: View)
    requires Acknowledged(who, before) in Run(FRESH, schedule).log
    ensures who !in before.inside && who !in before.callbacks
    ensures forall id | id in before.borrowed :: before.borrowed[id].owner != who
  {
    RunKeeps(schedule);
    assert EntryOk(Acknowledged(who, before));
  }

  /** At every moment at most one request is inside, and everything borrowed or called is its own. */
  lemma OneOwner(schedule: seq<(nat, Action)>, t: nat, u: nat)
    requires var r := Run(FRESH, schedule).requests; t in r && u in r && Inside(r[t]) && Inside(r[u])
    ensures t == u && Run(FRESH, schedule).owner == Some(t) && Run(FRESH, schedule).callbacks <= {t}
    ensures forall id | id in Run(FRESH, schedule).borrowed :: Run(FRESH, schedule).borrowed[id].owner == t
  {
    RunKeeps(schedule);
  }

  /** Poison is permanent, and nobody is admitted after it. */
  lemma {:induction false} PoisonIsPermanent(schedule: seq<(nat, Action)>, i: nat)
    requires i <= |schedule| && Run(FRESH, schedule[..i]).poisoned
    ensures Run(FRESH, schedule).poisoned
    ensures forall e | e in Run(FRESH, schedule).log && e.Admitted? :: e in Run(FRESH, schedule[..i]).log
  {
    hide Inv, Step;
    if i == |schedule| {
      assert schedule[..i] == schedule;
    } else {
      var before, last := schedule[..|schedule| - 1], schedule[|schedule| - 1];
      assert before[..i] == schedule[..i];
      PoisonIsPermanent(before, i);
      RunKeeps(before);
      StepKeeps(Run(FRESH, before), last.0, last.1);
    }
  }

  /** While the lock is free, a loss is either proven harmless or has closed the authority. */
  lemma LossNeedsProof(schedule: seq<(nat, Action)>)
    requires Run(FRESH, schedule).lock.None? && Run(FRESH, schedule).lost
    ensures Run(FRESH, schedule).proven || Run(FRESH, schedule).poisoned
  {
    RunKeeps(schedule);
  }

  /** A free and unpoisoned authority serves the next lease from request to acknowledgement and is free again. */
  lemma LeaseCompletes(schedule: seq<(nat, Action)>, t: nat)
    requires var s := Run(FRESH, schedule); s.lock.None? && !s.poisoned && t !in s.requests
    ensures var a := Step(Step(Run(FRESH, schedule), t, Requests(true)), t, Granted);
            var b := Step(Step(a, t, BodyEnds(true)), t, Joins);
            && a.owner == Some(t) && !a.revoking && a.requests[t].Leased?
            && b.requests[t].Acknowledging? && b.lock.None? && b.owner.None? && !b.poisoned
  {
    RunKeeps(schedule);
  }
}
