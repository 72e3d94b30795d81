/** Switching the active VPN provider under a transition guard, with every exception and cancellation path.
    Models activate_vpn_provider and _rollback_provider_switch of backend/exitlane/main.py. Every external
    call takes its answer from a script: it goes well, reports something else, or raises, with or without
    its effect. */
module ProviderSwitch {
  import opened Options

  /** The previously active provider and the one switched to. */
  datatype Side = Source | Target

  datatype Link = Connected | Disconnected | Unclear

  datatype Facts = Facts(owner: Side, available: bool, protected: bool, interface: bool)

  /** How a call ends: normally, cancelled, with an HTTP error or with another exception. */
  datatype Flow = Next | Cancelled | Refused | Broken

  datatype Answer =
    | Fine
    | Reports(link: Link, available: bool, protected: bool, interface: bool)
    | Raises(flow: Flow, effect: bool)

  /** At most one answer, the last one, is not fine. */
  predicate Tame(answers: seq<Answer>) {
    forall i | 0 <= i < |answers| - 1 :: answers[i].Fine?
  }

  /** Answers were used up by a call that went well unless the one bad answer was among them. */
  predicate Used(before: seq<Answer>, after: seq<Answer>, well: bool) {
    && |after| <= |before|
    && (Tame(before) ==> Tame(after) && (well || after == []))
    && (before == [] ==> well)
  }

  datatype Event =
    | Released(facts: Facts, persisted: Side)   // the transition guard was lifted
    | ToldConnect(who: Side, other: Link)       // with the last observation of the other provider
    | ToldDisconnect(who: Side, guarded: bool)

  predicate Proven(f: Facts) {
    f.available && f.protected && f.interface
  }

  /** What every event of every run satisfies. `torn`: completing a transition raised after taking effect. */
  predicate EventOk(e: Event, torn: bool) {
    match e
    case Released(f, persisted) => Proven(f) && f.owner == persisted
    case ToldConnect(_, other) => other.Disconnected?
    case ToldDisconnect(_, guarded) => guarded || torn
  }

  predicate LogOk(log: seq<Event>, torn: bool) {
    forall e | e in log :: EventOk(e, torn)
  }

  class Switch {
    var persisted: Side          // the provider named by the settings
    var guard: bool              // the transition guard is in place
    var armed: bool              // the request still has to settle it
    var up: set<Side>            // the providers that are really connected
    var seen: map<Side, Link>    // the last observation of a provider since it was last told to connect
    var answers: seq<Answer>
    ghost var log: seq<Event>
    ghost var torn: bool
    ghost var lifter: Option<Side>  // whose facts lifted the guard
    ghost var began: bool           // the guard was armed for this request

    /** A request finds the active provider as its source, whatever is connected. */
    constructor (up: set<Side>, answers: seq<Answer>)
      ensures Fresh() && this.answers == answers && this.up == up && log == []
    {
      persisted, guard, armed, seen, this.up, this.answers := Source, false, false, map[], up, answers;
      log, torn, lifter, began := [], false, None, false;
    }

    ghost predicate Fresh()
      reads this
    {
      Valid() && persisted.Source? && !armed && !guard && lifter.None? && !torn && !began
    }

    /** All events are in order, and once armed the guard is up or was lifted for the provider the settings
        name. */
    ghost predicate Valid()
      reads this
    {
      && LogOk(log, torn)
      && (lifter.Some? && !torn && !guard ==> lifter == Some(persisted))
      && (began ==> guard || lifter.Some?)
    }

    predicate Saw(who: Side, link: Link)
      reads this
    {
      who in seen && seen[who] == link
    }

    function Actual(who: Side): Link
      reads this
    {
      if who in up then Connected else Disconnected
    }

    // ----- External calls -----

    method Take() returns (a: Answer)
      modifies this`answers
      ensures Used(old(answers), answers, a.Fine?)
      ensures old(answers) != [] ==> |answers| < |old(answers)|
    {
      if answers == [] {
        a := Fine;
      } else {
        a := answers[0];
        answers := answers[1..];
      }
    }

    method Await() returns (r: Flow)
      modifies this`answers
      ensures Used(old(answers), answers, r.Next?)
    {
      var a := Take();
      r := if a.Raises? then a.flow else Next;
    }

    /** A call with a verdict of its own. */
    method Ask() returns (r: Flow, ok: bool)
      modifies this`answers
      ensures Used(old(answers), answers, r.Next? && ok)
    {
      var a := Take();
      r := if a.Raises? then a.flow else Next;
      ok := a.Fine?;
    }

    /** Reads the state of a provider; a fine answer is the actual one. */
    method Observe(who: Side) returns (r: Flow, link: Link)
      modifies this`seen, this`answers
      ensures seen == old(seen) || seen == old(seen)[who := link]
      ensures r.Next? ==> Saw(who, link)
      ensures r.Next? && old(answers) == [] ==> link == Actual(who)
      ensures Used(old(answers), answers, r.Next?)
    {
      var a := Take();
      r := if a.Raises? then a.flow else Next;
      link := if a.Reports? then a.link else Actual(who);
      if r.Next? {
        seen := seen[who := link];
      }
    }

    /** Observes until the expected state, a deadline or a cancellation; an unreadable status is unclear. A fine
        answer says that the provider has reached the expected state. */
    method WaitFor(who: Side, expected: Link) returns (r: Flow, link: Link)
      requires expected != Unclear
      modifies this`seen, this`up, this`answers
      ensures up == old(up) || up == if expected.Connected? then old(up) + {who} else old(up) - {who}
      ensures old(answers) == [] ==> Actual(who) == expected
      ensures r.Next? || r.Cancelled?
      ensures seen == old(seen) || (who in seen && seen == old(seen)[who := seen[who]])
      ensures r.Next? ==> Saw(who, link)
      ensures Used(old(answers), answers, r.Next? && link == expected)
    {
      var a := Take();
      r, link := Next, if a.Fine? then expected else if a.Reports? then a.link else Unclear;
      while link != expected && a.Reports? && answers != []
        invariant Used(old(answers), answers, link == expected) && (a.Raises? ==> link == Unclear)
        invariant seen == old(seen) && up == old(up) && (old(answers) == [] ==> a.Fine?)
        decreases |answers|
      {
        a := Take();
        link := if a.Fine? then expected else if a.Reports? then a.link else Unclear;
      }
      if a.Fine? {
        up := if expected.Connected? then up + {who} else up - {who};
      }
      if a.Raises? && a.flow.Cancelled? {
        r := Cancelled;
        return;
      }
      seen := seen[who := link];
    }

    /** No provider is told to connect unless the other one was last seen disconnected. */
    method Connect(who: Side, other: Side) returns (r: Flow, ok: bool)
      requires Valid() && other != who && Saw(other, Disconnected)
      modifies this`seen, this`up, this`log, this`answers
      ensures Valid() && seen == old(seen) - {who} && Used(old(answers), answers, r.Next? && ok)
      ensures up == old(up) || up == old(up) + {who}
      ensures r.Next? && ok ==> up == old(up) + {who}
    {
      log := log + [ToldConnect(who, seen[other])];
      seen := seen - {who};
      var a := Take();
      r, ok := if a.Raises? then a.flow else Next, a.Fine?;
      if ok || (a.Raises? && a.effect) {
        up := up + {who};
      }
    }

    method Disconnect(who: Side) returns (r: Flow, ok: bool)
      requires Valid() && (guard || torn)
      modifies this`up, this`log, this`answers
      ensures Valid() && Used(old(answers), answers, r.Next? && ok)
      ensures up == old(up) || up == old(up) - {who}
      ensures r.Next? && ok ==> up == old(up) - {who}
    {
      log := log + [ToldDisconnect(who, guard)];
      var a := Take();
      r, ok := if a.Raises? then a.flow else Next, a.Fine?;
      if ok || (a.Raises? && a.effect) {
        up := up - {who};
      }
    }

    method NetworkFacts(who: Side) returns (r: Flow, facts: Facts)
      modifies this`answers
      ensures facts.owner == who && Used(old(answers), answers, r.Next? && Proven(facts))
    {
      var a := Take();
      r := if a.Raises? then a.flow else Next;
      facts := if a.Reports? then Facts(who, a.available, a.protected, a.interface) else Facts(who, true, true, true);
    }

    /** Writes the active provider to the settings; raising, it may have done so. */
    method Persist(who: Side) returns (r: Flow)
      requires Valid() && (guard || torn || lifter.None?)
      modifies this`persisted, this`answers
      ensures Valid() && (persisted == who || persisted == old(persisted))
      ensures r.Next? ==> persisted == who
      ensures Used(old(answers), answers, r.Next?)
    {
      var a := Take();
      r := if a.Raises? then a.flow else Next;
      if r.Next? || a.effect {
        persisted := who;
      }
    }

    method ArmGuard() returns (r: Flow)
      requires Valid()
      modifies this`guard, this`began, this`answers
      ensures Valid() && (old(guard) ==> guard) && (began <==> old(began) || r.Next?)
      ensures r.Next? ==> guard
      ensures Used(old(answers), answers, r.Next?)
    {
      var a := Take();
      r := if a.Raises? then a.flow else Next;
      guard := guard || r.Next? || a.effect;
      began := began || r.Next?;
    }

    /** Lifts the guard for proven facts of the persisted provider; raising, it may have done so. */
    method Complete(facts: Facts) returns (r: Flow)
      requires Valid() && Proven(facts) && facts.owner == persisted
      modifies this`guard, this`log, this`torn, this`lifter, this`answers
      ensures Valid() && (old(torn) ==> torn)
      ensures r.Next? ==> !guard && lifter == Some(persisted) && torn == old(torn)
      ensures !r.Next? ==> guard == old(guard) || torn
      ensures Used(old(answers), answers, r.Next?)
    {
      var a := Take();
      r := if a.Raises? then a.flow else Next;
      if r.Next? || a.effect {
        torn := torn || !r.Next?;
        guard, lifter := false, Some(facts.owner);
        log := log + [Released(facts, persisted)];
      }
    }

    /** Connects a provider while the management routes are kept in place; if they cannot be, the provider is
        told to disconnect again. */
    method ConnectWithRoutes(who: Side, other: Side) returns (r: Flow, ok: bool)
      requires Valid() && other != who && Saw(other, Disconnected) && (guard || torn)
      modifies this`seen, this`up, this`log, this`answers
      ensures Valid() && (seen == old(seen) || seen == old(seen) - {who})
      ensures old(answers) == [] ==> up == old(up) + {who}
      ensures Used(old(answers), answers, r.Next? && ok)
    {
      ok := false;
      r := Await();
      if !r.Next? {
        return;
      }
      r, ok := Connect(who, other);
      var routes := Await();
      if !routes.Next? {
        var _, _ := Disconnect(who);
        r := routes;
      }
    }

    /** Prepares a provider and connects it. */
    method ConnectPrepared(who: Side, other: Side) returns (r: Flow, ok: bool)
      requires Valid() && other != who && Saw(other, Disconnected) && (guard || torn)
      modifies this`seen, this`up, this`log, this`answers
      ensures Valid() && (seen == old(seen) || seen == old(seen) - {who})
      ensures old(answers) == [] ==> up == old(up) + {who}
      ensures Used(old(answers), answers, r.Next? && ok)
    {
      r, ok := Ask();
      if !r.Next? || !ok {
        r := if r.Next? then Broken else r;
        return;
      }
      r, ok := ConnectWithRoutes(who, other);
    }

    // ----- Rollback -----

    /** Makes sure the target is disconnected, or finds that it cannot. */
    method QuietTarget() returns (r: Flow, quiet: bool)
      requires Valid() && (guard || torn)
      modifies this`seen, this`up, this`log, this`answers
      ensures Valid() && (r.Next? && quiet ==> Saw(Target, Disconnected))
      ensures Used(old(answers), answers, r.Next? && quiet)
    {
      var link: Link;
      quiet := false;
      r, link := Observe(Target);
      if !r.Next? {
        return;
      }
      if link != Disconnected {
        var ok: bool;
        r, ok := Disconnect(Target);
        if !r.Next? {
          return;
        }
        r, link := WaitFor(Target, Disconnected);
        if !r.Next? {
          return;
        }
      }
      quiet := link == Disconnected;
    }

    /** Brings the source back, with the target seen disconnected. */
    method ReviveSource() returns (r: Flow, connected: bool)
      requires Valid() && (guard || torn) && Saw(Target, Disconnected)
      modifies this`seen, this`up, this`log, this`answers
      ensures Valid() && Used(old(answers), answers, r.Next? && connected)
    {
      var link: Link;
      connected := false;
      r, link := Observe(Source);
      if !r.Next? {
        return;
      }
      if link != Connected {
        var ok: bool;
        r, ok := ConnectPrepared(Source, Target);
        if !r.Next? || !ok {
          return;
        }
        r, link := WaitFor(Source, Connected);
        if !r.Next? {
          return;
        }
      }
      connected := link == Connected;
    }

    /** The guarded part of a rollback, exceptions not yet caught. */
    method TryRollback() returns (r: Flow, restored: bool)
      requires Valid() && (guard || torn)
      modifies this`seen, this`up, this`log, this`persisted, this`guard, this`torn, this`lifter, this`answers
      ensures Valid() && (old(torn) ==> torn)
      ensures r.Next? && restored ==> persisted.Source? && !guard && lifter == Some(Source)
      ensures !(r.Next? && restored) ==> guard == old(guard) || torn
      ensures Used(old(answers), answers, r.Next? && restored)
    {
      restored := false;
      var quiet, connected: bool;
      r, quiet := QuietTarget();
      if !r.Next? || !quiet {
        return;
      }
      if persisted != Source {
        r := Persist(Source);
        if !r.Next? {
          return;
        }
      }
      r, connected := ReviveSource();
      if !r.Next? || !connected {
        return;
      }
      var facts: Facts;
      r, facts := NetworkFacts(Source);
      if !r.Next? || !Proven(facts) {
        return;
      }
      r := Await();
      if !r.Next? {
        return;
      }
      r := Complete(facts);
      restored := r.Next?;
    }

    /** Restores the source while the guard stays up; only a cancellation leaves it as an exception. */
    method Rollback() returns (r: Flow, restored: bool)
      requires Valid() && (guard || torn)
      modifies this`seen, this`up, this`log, this`persisted, this`guard, this`torn, this`lifter, this`answers
      ensures Valid() && (old(torn) ==> torn)
      ensures r.Next? && restored ==> persisted.Source? && !guard && lifter == Some(Source)
      ensures !(r.Next? && restored) ==> guard == old(guard) || torn
      ensures Used(old(answers), answers, r.Next? && restored)
    {
      restored := false;
      r := Await();
      if !r.Next? {
        return;
      }
      r, restored := TryRollback();
      if !r.Next? && !r.Cancelled? {
        r, restored := Next, false;
      }
    }

    // ----- The switch -----

    /** A disconnect of the source that failed: rolled back and rejected, or reported as broken. */
    method RejectDisconnect() returns (r: Flow)
      requires Valid() && armed && (guard || torn)
      modifies this
      ensures Valid() && (old(torn) ==> torn) && began == old(began)
      ensures armed ==> guard || torn
      ensures r.Next? ==> !armed
      ensures !armed ==> persisted.Source? && !guard && lifter == Some(Source)
      ensures Used(old(answers), answers, !armed)
    {
      var restored: bool;
      r, restored := Rollback();
      if !r.Next? {
        return;
      }
      armed := !restored;
      if armed {
        return Broken;
      }
      r := Await();
    }

    /** Arms the guard and disconnects the source; afterwards the source was seen disconnected, or the
        request is over. */
    method LeaveSource() returns (r: Flow, left: bool)
      requires Fresh()
      modifies this
      ensures Valid() && (armed ==> guard || torn) && (armed ==> began)
      ensures began && !armed ==> persisted.Source? && !guard && lifter == Some(Source)
      ensures r.Next? && left ==> armed && guard && Saw(Source, Disconnected) && persisted.Source?
      ensures r.Next? && !left ==> began && !armed
      ensures old(answers) == [] ==> up == old(up) - {Source}
      ensures Used(old(answers), answers, r.Next? && left)
    {
      left := false;
      r := ArmGuard();
      if !r.Next? {
        return;
      }
      armed := true;
      var ok: bool;
      r, ok := Disconnect(Source);
      if r.Cancelled? {
        return;
      }
      var link := Unclear;
      if r.Next? {
        r, link := WaitFor(Source, Disconnected);
        if !r.Next? {
          return;
        }
      } else {
        ok := false;
      }
      if !ok || link != Disconnected {
        r := RejectDisconnect();
        return;
      }
      assert old(up) - {Source} - {Source} == old(up) - {Source};
      left := true;
    }

    /** Connects the target and proves its egress. */
    method EnterTarget() returns (r: Flow, facts: Facts)
      requires Valid() && guard && Saw(Source, Disconnected)
      modifies this`seen, this`up, this`log, this`answers
      ensures Valid() && (r.Next? ==> Proven(facts) && facts.owner == Target)
      ensures old(answers) == [] ==> up == old(up) + {Target}
      ensures Used(old(answers), answers, r.Next?)
    {
      var good, ok: bool;
      facts := Facts(Target, false, false, false);
      r, good := Ready();
      if !r.Next? || !good {
        r := if r.Next? then Broken else r;
        return;
      }
      r, ok := ConnectPrepared(Target, Source);
      if !r.Next? {
        return;
      }
      r, good := Ready();
      if !r.Next? || !good {
        r := if r.Next? then Broken else r;
        return;
      }
      r, facts := NetworkFacts(Target);
      if r.Next? && !Proven(facts) {
        r := Broken;
      }
    }

    /** Watches the target and classifies what it reports. */
    method Ready() returns (r: Flow, good: bool)
      modifies this`seen, this`answers
      ensures seen == old(seen) || (Target in seen && seen == old(seen)[Target := seen[Target]])
      ensures Used(old(answers), answers, r.Next? && good)
    {
      var link: Link;
      r, link := Observe(Target);
      good := false;
      if r.Next? {
        r, good := Ask();
      }
    }

    /** Hands the settings and the guard over to the proven target. */
    method Commit(facts: Facts) returns (r: Flow)
      requires Valid() && guard && armed && began && Proven(facts) && facts.owner == Target
      modifies this
      ensures Valid() && (armed ==> guard || torn) && began
      ensures r.Next? ==> persisted.Target? && !guard && !armed
      ensures !r.Next? ==> armed
      ensures up == old(up)
      ensures Used(old(answers), answers, r.Next?)
    {
      r := Await();
      if !r.Next? {
        return;
      }
      r := Persist(Target);
      if !r.Next? {
        return;
      }
      r := Complete(facts);
      armed := !r.Next?;
    }

    /** The request itself, up to the exception it may raise. `idle`: the source is not connected anyway. */
    method TrySwitch(rejected: bool, idle: bool) returns (r: Flow, switched: bool)
      requires Fresh()
      modifies this
      ensures Valid() && (armed ==> guard || torn) && (began && !armed ==> !guard && (switched || persisted.Source?))
      ensures switched ==> persisted.Target? && !guard && !armed
      ensures rejected ==> !armed && !began
      ensures old(answers) == [] && !rejected && !idle ==> up == old(up) - {Source} + {Target}
      ensures Used(old(answers), answers, (r.Next? && switched) || rejected)
    {
      switched := false;
      r := Await();
      if !r.Next? {
        return;
      }
      if rejected {
        r := Await();
        return;
      }
      if idle {
        r := Persist(Target);
        switched := r.Next?;
        return;
      }
      r, switched := LeaveSource();
      if !r.Next? || !switched {
        switched := false;
        return;
      }
      switched := false;
      var facts: Facts;
      r, facts := EnterTarget();
      if !r.Next? {
        return;
      }
      r := Commit(facts);
      switched := r.Next?;
    }

    /** A switch request with its exception handlers. However it ends, every lifting of the guard had proven
        facts of the provider then persisted, no provider was told to connect with the other one not seen
        disconnected, and an armed guard is still up unless it was lifted for the provider the settings name.
        Undisturbed, the switch happens; disturbed once, the guard does not stay. */
    method Activate(rejected: bool, idle: bool) returns (switched: bool)
      requires Fresh()
      modifies this
      ensures forall e | e in log :: EventOk(e, torn)
      ensures began && !guard ==> lifter.Some? && (torn || lifter == Some(persisted))
      ensures switched ==> persisted.Target? && !guard
      ensures old(answers) == [] && !rejected ==> switched
      ensures old(answers) == [] && !rejected && !idle ==> Target in up && Source !in up
      ensures Tame(old(answers)) && began ==> !guard && (switched || persisted.Source?)
    {
      var r: Flow;
      r, switched := TrySwitch(rejected, idle);
      if armed {
        var restored: bool;
        r, restored := Rollback();
      }
    }
  }
}
