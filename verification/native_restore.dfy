/** The native restore: one guarded transaction over database, key and tunnel files with a snapshot and a
    rollback in the exception handler. Models restore_backup of backend/exitlane/lifecycle.py from the moment
    the backup has been validated. Every step takes its fate from a script: it works, or it raises or is
    interrupted, with or without its effect. */
module NativeRestore {
  import opened RecoveryState

  datatype Files = Files(database: Database, key: string, wireguard: Directory)

  /** `Errors` are caught by the handler, an interrupt is not. */
  datatype Flow = Next | Errors | Interrupts {
    predicate IsFailure() {
      !Next?
    }
    function PropagateFailure(): Flow
      requires !Next?
    {
      this
    }
  }

  datatype Fate = Works | Fails(flow: Flow, effect: bool)

  /** At most one step, the last scripted one, raises; nothing interrupts. */
  predicate Tame(fates: seq<Fate>) {
    forall i | 0 <= i < |fates| :: fates[i].Works? || (i == |fates| - 1 && fates[i].flow.Errors?)
  }

  /** A script was used up by steps that work unless the one failure was among them. */
  predicate Used(before: seq<Fate>, after: seq<Fate>, r: Flow) {
    && |after| <= |before|
    && (Tame(before) ==> Tame(after) && !r.Interrupts? && (r.Next? || after == []))
    && (before == [] ==> r.Next?)
  }

  /** A lifting of the forwarding guard. */
  datatype Lift = Lift(live: Files, started: bool, healthy: bool)

  lemma Smaller(d: Directory, name: string)
    requires name in d
    ensures |d - {name}| < |d|
  {
    assert (d - {name}).Keys == d.Keys - {name};
    assert |d - {name}| == |(d - {name}).Keys| && |d| == |d.Keys|;
  }

  class Restore {
    const service: bool                // a service callback was given
    const health: bool                 // a health callback was given
    const before: Files                // the files when the restore began
    const backup: Files                // the validated backup
    var live: Files
    var guard: bool
    var snapshot: Files
    var snapshotReady: bool
    var snapshotKept: bool
    var replaced: bool
    var cleanup: bool
    var fates: seq<Fate>
    ghost var started: bool            // the service started and was not stopped, nor its files changed, since
    ghost var healthy: bool            // and its health was confirmed
    ghost var lifts: seq<Lift>
    ghost var torn: bool               // lifting the guard raised after taking effect

    constructor (live: Files, backup: Files, service: bool, health: bool, fates: seq<Fate>)
      ensures Valid() && this.live == live == before && this.backup == backup && !guard && lifts == []
      ensures !snapshotReady && !replaced && !cleanup && !torn && !snapshotKept && this.fates == fates
    {
      this.live, before, this.backup, this.service, this.health := live, live, backup, service, health;
      guard, snapshot, snapshotReady, snapshotKept, replaced, cleanup := false, live, false, false, false, false;
      this.fates, started, healthy, lifts, torn := fates, false, false, [], false;
    }

    function Restored(): Files {
      backup.(database := Revoked(backup.database))
    }

    /** All files of one side. */
    predicate Coherent(f: Files) {
      f == before || f == Restored()
    }

    predicate LiftOk(l: Lift) {
      Coherent(l.live) && (service ==> l.started) && (health ==> l.healthy)
    }

    /** The guard was only ever lifted over one coherent, started and healthy side, and a ready snapshot is
        the state before the restore. */
    ghost predicate Valid()
      reads this
    {
      (forall l | l in lifts :: LiftOk(l)) && (snapshotReady ==> snapshot == before) &&
      (!snapshotReady ==> live == before && !replaced)
    }

    // ----- Single steps -----

    /** A step; `done` says whether its effect took place. */
    method Try() returns (r: Flow, done: bool)
      modifies this`fates
      ensures Used(old(fates), fates, r) && (r.Next? ==> done)
    {
      r, done := Next, true;
      if fates != [] {
        if fates[0].Fails? {
          r, done := fates[0].flow, fates[0].effect || fates[0].flow.Next?;
        }
        fates := fates[1..];
      }
    }

    method Stop() returns (r: Flow)
      modifies this`started, this`healthy, this`fates
      ensures Used(old(fates), fates, r)
    {
      r := Next;
      if service {
        var done: bool;
        r, done := Try();
        started, healthy := false, false;
      }
    }

    method Start() returns (r: Flow)
      modifies this`started, this`healthy, this`fates
      ensures (r.Next? && service ==> started) && Used(old(fates), fates, r)
    {
      r := Next;
      if service {
        var done: bool;
        r, done := Try();
        started, healthy := r.Next?, false;
      }
    }

    method Check() returns (r: Flow)
      modifies this`healthy, this`fates
      ensures (r.Next? && health ==> healthy) && Used(old(fates), fates, r)
    {
      r := Next;
      if health {
        var done: bool;
        r, done := Try();
        healthy := r.Next?;
      }
    }

    /** One durable change of the live files. */
    method Write(next: Files) returns (r: Flow)
      requires Valid() && snapshotReady
      modifies this`live, this`started, this`healthy, this`fates
      ensures Valid() && (live == old(live) || live == next) && Used(old(fates), fates, r)
      ensures r.Next? ==> live == next
    {
      var done: bool;
      r, done := Try();
      if done {
        live, started, healthy := next, false, false;
      }
    }

    /** Empties the tunnel directory entry by entry and fills it from the source. */
    method ReplaceWireguard(source: Directory) returns (r: Flow)
      requires Valid() && snapshotReady
      modifies this`live, this`started, this`healthy, this`fates
      ensures Valid() && live == old(live).(wireguard := live.wireguard) && Used(old(fates), fates, r)
      ensures r.Next? ==> live.wireguard == source
    {
      r := Next;
      while live.wireguard != map[]
        invariant Valid() && live == old(live).(wireguard := live.wireguard) && Used(old(fates), fates, Next)
        decreases |live.wireguard|
      {
        var name :| name in live.wireguard;
        Smaller(live.wireguard, name);
        :- Write(live.(wireguard := live.wireguard - {name}));
      }
      r := FillWireguard(source);
    }

    /** Copies the source into the emptied tunnel directory entry by entry. */
    method FillWireguard(source: Directory) returns (r: Flow)
      requires Valid() && snapshotReady && live.wireguard == map[]
      modifies this`live, this`started, this`healthy, this`fates
      ensures Valid() && live == old(live).(wireguard := live.wireguard) && Used(old(fates), fates, r)
      ensures r.Next? ==> live.wireguard == source
    {
      var todo := source.Keys;
      r := Next;
      assert source - todo == map[];
      while todo != {}
        invariant Valid() && todo <= source.Keys && live == old(live).(wireguard := source - todo)
        invariant r.Next? && Used(old(fates), fates, r)
      {
        var name :| name in todo;
        assert (source - todo)[name := source[name]] == source - (todo - {name});
        :- Write(live.(wireguard := live.wireguard[name := source[name]]));
        todo := todo - {name};
      }
      assert source - todo == source;
    }

    /** Lifts the guard; the caller has one coherent side started and healthy. */
    method Lower() returns (r: Flow)
      requires Valid() && Coherent(live) && (service ==> started) && (health ==> healthy)
      modifies this`guard, this`lifts, this`torn, this`fates
      ensures Used(old(fates), fates, r)
      ensures Valid() && (r.Next? ==> !guard && torn == old(torn))
      ensures (old(torn) ==> torn) && (guard ==> old(guard)) && (!r.Next? ==> guard == old(guard) || torn)
    {
      var done: bool;
      r, done := Try();
      if done {
        guard, torn := false, torn || !r.Next?;
        lifts := lifts + [Lift(live, started, healthy)];
      }
    }

    // ----- The transaction -----

    /** Copies the live files aside. */
    method Save() returns (r: Flow)
      requires Valid() && !snapshotReady
      modifies this`snapshot, this`snapshotReady, this`fates
      ensures Valid() && (snapshotReady <==> r.Next?) && Used(old(fates), fates, r)
    {
      var done: bool;
      r, done := Try();
      if r.Next? {
        snapshot, snapshotReady := live, true;
      }
    }

    /** Installs the backup with its sessions emptied. */
    method Install() returns (r: Flow)
      requires Valid() && snapshotReady
      modifies this`live, this`started, this`healthy, this`replaced, this`fates
      ensures Valid() && Used(old(fates), fates, r)
      ensures r.Next? ==> live == Restored()
    {
      var done: bool;
      r, done := Try();
      if !r.Next? {
        return;
      }
      :- Write(live.(database := backup.database));
      replaced := true;
      :- Write(live.(key := backup.key));
      :- ReplaceWireguard(backup.wireguard);
      r := Write(live.(database := Revoked(backup.database)));
    }

    /** Starts and proves the side that is installed, and lifts the guard. */
    method Expose() returns (r: Flow)
      requires Valid() && Coherent(live)
      modifies this`guard, this`lifts, this`torn, this`started, this`healthy, this`cleanup, this`fates
      ensures Used(old(fates), fates, r)
      ensures Valid() && (r.Next? ==> !guard && cleanup && torn == old(torn))
      ensures !r.Next? ==> cleanup == old(cleanup) && (guard == old(guard) || torn)
      ensures (old(torn) ==> torn) && (guard ==> old(guard))
    {
      r := Start();
      if !r.Next? {
        return;
      }
      :- Check();
      :- Lower();
      cleanup := true;
      return Next;
    }

    /** The exception handler: back to the snapshot, if one is ready. */
    method Recover() returns (r: Flow)
      requires Valid() && !cleanup
      modifies this`guard, this`lifts, this`torn, this`started, this`healthy, this`cleanup, this`live, this`fates
      ensures old(fates) == [] ==> r.Next?
      ensures Valid() && (guard ==> old(guard)) && !(old(torn) && !torn)
      ensures cleanup ==> live == before && !guard && snapshotReady
      ensures r.Next? ==> live == before && (snapshotReady ==> cleanup)
      ensures !cleanup ==> guard == old(guard) || torn
    {
      r := Stop();
      if !r.Next? || !snapshotReady {
        return;
      }
      var failed := false;
      if replaced && service {
        var done: bool;
        r, done := Try();
        if r.Interrupts? {
          return;
        }
        failed := r.Errors?;
      }
      :- Write(live.(database := snapshot.database));
      :- Write(live.(key := snapshot.key));
      :- ReplaceWireguard(snapshot.wireguard);
      if failed {
        return Errors;
      }
      r := Expose();
    }

    /** The guarded part of the restore. */
    method TryRestore() returns (r: Flow)
      requires Valid() && !snapshotReady && !cleanup
      modifies this`guard, this`lifts, this`torn, this`started, this`healthy, this`cleanup, this`live, this`snapshot
      modifies this`snapshotReady, this`replaced, this`fates
      ensures Used(old(fates), fates, r)
      ensures Valid() && (old(torn) ==> torn) && (guard ==> old(guard))
      ensures r.Next? ==> live == Restored() && !guard && cleanup && snapshotReady
      ensures !r.Next? ==> !cleanup && (guard == old(guard) || torn)
    {
      r := Stop();
      if !r.Next? {
        return;
      }
      :- Save();
      :- Install();
      r := Expose();
    }

    /** A whole restore of a validated backup. The guard is only lifted over one coherent side, started and
        healthy; live files that are not one side are never left without the snapshot; and with the guard
        still up a ready snapshot is kept. Undisturbed it installs the backup; one failure after the snapshot
        puts the old files back and lifts the guard over them. */
    method Perform() returns (returned: bool)
      requires Valid() && !snapshotReady && !cleanup && !torn && live == before
      modifies this
      ensures Valid()
      ensures returned ==> live == Restored() && !guard && !snapshotKept
      ensures snapshotReady && guard ==> snapshotKept && snapshot == before
      ensures snapshotReady && !snapshotKept ==> Coherent(live) && !guard
      ensures Coherent(live) || (snapshotReady && snapshotKept && snapshot == before)
      ensures !guard && !torn && snapshotReady ==> Coherent(live)
      ensures old(fates) == [] ==> returned
      ensures Tame(old(fates)) && snapshotReady ==> returned || (live == before && !guard && !snapshotKept)
    {
      var r, done := Try();
      guard := guard || done;
      if !r.Next? {
        return false;
      }
      r, done := Try();
      if !r.Next? {
        return false;
      }
      snapshotKept := true;
      r := TryRestore();
      returned := r.Next?;
      if r.Errors? {
        var _ := Recover();
      }
      if cleanup || !snapshotReady {
        snapshotKept := false;
      }
    }
  }
}
