/** The order in which a recovery run may arm the guard, stop writers, publish files and reopen. */
module RecoveryTrace {
  import opened Net

  datatype Event =
    | Armed(identities: set<Identity>)  // the maintenance guard was armed and read back
    | Quiesced                          // every writer was stopped and reaped
    | WorkerMayRun                      // health may start the application worker
    | Published(identities: set<Identity>)  // a live component was changed; `identities` are those of the receipt
    | Checked                           // the live pair passed strict validation
    | Reconciled
    | Healthy                           // the health hook returned true
    | Reopened
    | Ended                             // the process ended; the namespace and its guard are gone

  /** What the events so far establish. */
  datatype Monitor = Monitor(armed: bool, covered: set<Identity>, quiet: bool, ready: nat)

  const START := Monitor(false, {}, false, 0)

  /** `ready` counts validated, reconciled, healthy, in that order and since the last publication. */
  function After(m: Monitor, e: Event): Monitor {
    match e
    case Armed(ids) => m.(armed := true, covered := m.covered + ids)
    case Quiesced => m.(quiet := true)
    case WorkerMayRun => m.(quiet := false)
    case Published(_) => m.(ready := 0)
    case Checked => m.(ready := 1)
    case Reconciled => m.(ready := if m.ready >= 1 then 2 else 0)
    case Healthy => m.(ready := if m.ready >= 2 then 3 else 0)
    case Reopened => START.(quiet := m.quiet)
    case Ended => START
  }

  predicate Permitted(m: Monitor, e: Event) {
    match e
    case Published(ids) => m.armed && m.quiet && ids <= m.covered
    case Reopened => m.ready == 3
    case _ => true
  }

  function Watch(t: seq<Event>): Monitor {
    if t == [] then START else After(Watch(t[..|t| - 1]), t[|t| - 1])
  }

  predicate Ordered(t: seq<Event>) {
    t == [] || (Ordered(t[..|t| - 1]) && Permitted(Watch(t[..|t| - 1]), t[|t| - 1]))
  }

  lemma Extended(t: seq<Event>, e: Event)
    ensures Watch(t + [e]) == After(Watch(t), e)
    ensures Ordered(t + [e]) <==> Ordered(t) && Permitted(Watch(t), e)
  {
    assert (t + [e])[..|t|] == t;
  }

  // ----- What `Ordered` means, without the monitor -----

  /** `e` happened at `k`, before `i`, and nothing in between satisfies `stop`. */
  ghost predicate Since(t: seq<Event>, k: int, i: int, stop: Event -> bool) {
    0 <= k < i <= |t| && forall j | k < j < i :: !stop(t[j])
  }

  function Ends(e: Event): bool { e.Reopened? || e.Ended? }
  function Wakes(e: Event): bool { e.WorkerMayRun? || e.Ended? }
  function Unsettles(e: Event): bool { e.Published? || e.Reopened? || e.Ended? }

  lemma {:induction false} PrefixOrdered(t: seq<Event>, i: nat)
    requires Ordered(t) && i <= |t|
    ensures Ordered(t[..i])
    decreases |t|
  {
    if i == |t| {
      assert t[..i] == t;
    } else {
      PrefixOrdered(t[..|t| - 1], i);
      assert t[..|t| - 1][..i] == t[..i];
    }
  }

  lemma {:induction false} ArmedEarlier(t: seq<Event>) returns (k: int)
    requires Watch(t).armed
    ensures Since(t, k, |t|, Ends) && t[k].Armed?
    decreases |t|
  {
    var before, last := t[..|t| - 1], t[|t| - 1];
    if last.Armed? {
      k := |t| - 1;
    } else {
      k := ArmedEarlier(before);
      assert forall j | k < j < |before| :: t[j] == before[j];
    }
  }

  lemma {:induction false} CoveredEarlier(t: seq<Event>, id: Identity) returns (k: int)
    requires id in Watch(t).covered
    ensures Since(t, k, |t|, Ends) && t[k].Armed? && id in t[k].identities
    decreases |t|
  {
    var before, last := t[..|t| - 1], t[|t| - 1];
    if last.Armed? && id in last.identities {
      k := |t| - 1;
    } else {
      k := CoveredEarlier(before, id);
      assert forall j | k < j < |before| :: t[j] == before[j];
    }
  }

  lemma {:induction false} QuietEarlier(t: seq<Event>) returns (k: int)
    requires Watch(t).quiet
    ensures Since(t, k, |t|, Wakes) && t[k].Quiesced?
    decreases |t|
  {
    var before, last := t[..|t| - 1], t[|t| - 1];
    if last.Quiesced? {
      k := |t| - 1;
    } else {
      k := QuietEarlier(before);
      assert forall j | k < j < |before| :: t[j] == before[j];
    }
  }

  lemma {:induction false} CheckedEarlier(t: seq<Event>) returns (k: int)
    requires Watch(t).ready >= 1
    ensures Since(t, k, |t|, Unsettles) && t[k].Checked?
    decreases |t|
  {
    var before, last := t[..|t| - 1], t[|t| - 1];
    if last.Checked? {
      k := |t| - 1;
    } else {
      k := CheckedEarlier(before);
      assert forall j | k < j < |before| :: t[j] == before[j];
    }
  }

  lemma {:induction false} ReconciledEarlier(t: seq<Event>) returns (c: int, k: int)
    requires Watch(t).ready >= 2
    ensures c < k < |t| && Since(t, c, |t|, Unsettles) && t[c].Checked? && t[k].Reconciled?
    decreases |t|
  {
    var before, last := t[..|t| - 1], t[|t| - 1];
    if last.Reconciled? {
      c := CheckedEarlier(before);
      k := |t| - 1;
    } else {
      c, k := ReconciledEarlier(before);
    }
    assert forall j | c < j < |before| :: t[j] == before[j];
  }

  lemma {:induction false} HealthyEarlier(t: seq<Event>) returns (c: int, r: int, h: int)
    requires Watch(t).ready >= 3
    ensures c < r < h < |t| && Since(t, c, |t|, Unsettles)
    ensures t[c].Checked? && t[r].Reconciled? && t[h].Healthy?
    decreases |t|
  {
    var before, last := t[..|t| - 1], t[|t| - 1];
    if last.Healthy? {
      c, r := ReconciledEarlier(before);
      h := |t| - 1;
    } else {
      c, r, h := HealthyEarlier(before);
    }
    assert forall j | c < j < |before| :: t[j] == before[j];
  }

  /** In an ordered run, no live component changes unless the guard was armed since the last reopening,
      over every identity of the receipt, and the writers were stopped since a worker could last run. */
  lemma PublicationIsGuarded(t: seq<Event>, i: nat)
    requires Ordered(t) && i < |t| && t[i].Published?
    ensures exists a :: Since(t, a, i, Ends) && t[a].Armed?
    ensures exists q :: Since(t, q, i, Wakes) && t[q].Quiesced?
    ensures forall id | id in t[i].identities ::
              exists k :: Since(t, k, i, Ends) && t[k].Armed? && id in t[k].identities
  {
    PrefixOrdered(t, i + 1);
    var before := t[..i];
    assert t[..i + 1][..i] == before;
    assert forall j | 0 <= j < i :: t[j] == before[j];
    var a := ArmedEarlier(before);
    assert Since(t, a, i, Ends);
    var q := QuietEarlier(before);
    assert Since(t, q, i, Wakes);
    forall id | id in t[i].identities
      ensures exists k :: Since(t, k, i, Ends) && t[k].Armed? && id in t[k].identities
    {
      var k := CoveredEarlier(before, id);
      assert Since(t, k, i, Ends);
    }
  }

  /** In an ordered run, every reopening follows a validated pair, a reconcile and a healthy result, in
      that order, with no publication, reopening or death since. */
  lemma ReopeningIsEarned(t: seq<Event>, i: nat)
    requires Ordered(t) && i < |t| && t[i].Reopened?
    ensures exists c, r, h ::
              c < r < h < i && Since(t, c, i, Unsettles) && t[c].Checked? && t[r].Reconciled? && t[h].Healthy?
  {
    PrefixOrdered(t, i + 1);
    var before := t[..i];
    assert t[..i + 1][..i] == before;
    assert forall j | 0 <= j < i :: t[j] == before[j];
    var c, r, h := HealthyEarlier(before);
    assert Since(t, c, i, Unsettles) && t[c].Checked? && t[r].Reconciled? && t[h].Healthy?;
  }
}
