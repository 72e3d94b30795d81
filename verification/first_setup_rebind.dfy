/** The controller's bookkeeping of route selectors while a blocked first-setup policy left by an earlier
    process is rebound to a new ingress. Models the ingress controller of
    backend/exitlane/container_entrypoint.py with rebind_initial_ingress of container_runtime.py. */
module FirstSetupRebind {
  import opened Options
  import opened Net

  datatype Family = Ipv4 | Ipv6

  /** A published rule that routes what enters by an interface into the provider table. */
  datatype Selector = Selector(family: Family, interface: Interface)

  function Both(interface: Interface): set<Selector> {
    {Selector(Ipv4, interface), Selector(Ipv6, interface)}
  }

  lemma AllBoth()
    ensures forall s: Selector :: s in Both(s.interface)
  {
    forall s: Selector
      ensures s in Both(s.interface)
    {
      match s.family
      case Ipv4 =>
      case Ipv6 =>
    }
  }

  /** How a command ends; `partial` says which selectors a failing one still added or removed. */
  datatype Fate = Works | Fails(effect: bool, partial: set<Selector>)

  /** The observation of the switched table fails and so does the command that should restore the old one. */
  predicate Slips(fates: seq<Fate>) {
    |fates| >= 6 && fates[0].Works? && fates[1].Works? && fates[2].Works? && fates[3].Works? && fates[4].Fails? &&
    fates[5].Fails?
  }

  /** The three commands of a retirement work. */
  predicate Retires(fates: seq<Fate>) {
    forall i | 0 <= i < |fates| && i < 3 :: fates[i].Works?
  }

  /** The link is created, and then either it cannot be observed and not be deleted either, or it is observed
      but the lease was revoked meanwhile. */
  predicate LinkLeft(fates: seq<Fate>) {
    && |fates| >= 3 && fates[0].Works? && fates[2].Fails?
    && (fates[1].Works? || !fates[2].effect)
  }

  datatype Op =
    | Activate(target: Identity)
    | Deactivate
    | Reconcile
    | Observe

  class Controller {
    var recovered: Option<Identity>    // the ingress of the recovered first-setup policy
    var retired: Option<Identity>      // the ingress whose selector is still to be retired
    var network: Option<Interface>     // the ingress of this process
    var active: bool                   // its link is up and owned
    var rollbackReady: bool
    var selectors: set<Selector>       // the kernel's published selectors
    var fates: seq<Fate>
    ghost var slips: nat               // rebinds whose restoring command failed after the switch

    constructor (recovered: Identity, selectors: set<Selector>, fates: seq<Fate>)
      requires forall s | s in selectors :: s.interface == recovered.interface
      ensures Bookkept() && Quiet() && slips == 0
      ensures this.recovered == Some(recovered) && retired.None? && this.selectors == selectors && this.fates == fates
    {
      this.recovered, retired, network, active, rollbackReady := Some(recovered), None, None, false, false;
      this.selectors, this.fates, slips := selectors, fates, 0;
    }

    /** Every published selector is the recovered policy's or the recorded one. */
    predicate Bookkept()
      reads this
    {
      recovered.Some? ==>
        forall s | s in selectors ::
          s.interface == recovered.value.interface || (retired.Some? && s.interface == retired.value.interface)
    }

    /** An ingress in service has nothing left to retire, and what is left to retire will be retired by the
        next activation. */
    predicate Quiet()
      reads this
    {
      && (active ==> retired.None? && network.Some?)
      && (retired.Some? ==> recovered.Some? && (network.None? || rollbackReady))
    }

    method Take() returns (f: Fate)
      modifies this`fates
      ensures old(fates) == [] ==> f.Works? && fates == []
      ensures old(fates) != [] ==> f == old(fates)[0] && fates == old(fates)[1..]
    {
      if fates == [] {
        f := Works;
      } else {
        f := fates[0];
        fates := fates[1..];
      }
    }

    method Attempt() returns (ok: bool)
      modifies this`fates
      ensures ok <==> old(fates) == [] || old(fates)[0].Works?
      ensures fates == if old(fates) == [] then [] else old(fates)[1..]
    {
      var f := Take();
      ok := f.Works?;
    }

    /** Publishes the selectors of two interfaces, or some of them. */
    method PublishSelectors(a: Interface, b: Interface) returns (ok: bool)
      modifies this`fates, this`selectors
      ensures old(selectors) <= selectors <= old(selectors) + Both(a) + Both(b)
      ensures ok ==> selectors == old(selectors) + Both(a) + Both(b)
      ensures ok <==> old(fates) == [] || old(fates)[0].Works?
      ensures fates == if old(fates) == [] then [] else old(fates)[1..]
    {
      var f := Take();
      ok := f.Works?;
      selectors := selectors + if ok then Both(a) + Both(b) else f.partial * (Both(a) + Both(b));
    }

    /** Removes the owned selectors of an interface and proves them gone. */
    method Retire(interface: Interface) returns (ok: bool)
      modifies this`fates, this`selectors
      ensures old(selectors) - Both(interface) <= selectors <= old(selectors)
      ensures ok ==> forall s | s in selectors :: s.interface != interface
      ensures ok <==> Retires(old(fates))
      ensures ok ==> fates == if |old(fates)| < 3 then [] else old(fates)[3..]
      ensures old(fates) == [] ==> ok && fates == []
    {
      AllBoth();
      ok := Attempt();
      if !ok {
        return;
      }
      var f := Take();
      ok := f.Works?;
      selectors := selectors - if ok then Both(interface) else f.partial * Both(interface);
      if ok {
        ok := Attempt();
        ok := ok && forall s | s in selectors :: s.interface != interface;
      }
    }

    /** Replaces the blocked first-setup table by that of a new ingress, or restores the old one. The
        restoring command itself may fail: if the table had already been switched, the identity stays new. */
    method Rebind(target: Identity) returns (ok: bool)
      requires recovered.Some?
      modifies this`fates, this`selectors, this`recovered, this`slips
      ensures recovered.Some? && old(selectors) <= selectors
      ensures selectors <= old(selectors) + Both(old(recovered).value.interface) + Both(target.interface)
      ensures ok ==> recovered == Some(target) && slips == old(slips) && Both(target.interface) <= selectors
      ensures !ok ==> recovered == if slips > old(slips) then Some(target) else old(recovered)
      ensures slips == old(slips) + if Slips(old(fates)) && target != old(recovered).value then 1 else 0
      ensures slips > old(slips) ==> Both(old(recovered).value.interface) <= selectors
      ensures old(fates) == [] ==> ok && fates == []
    {
      var original := recovered;
      ok := Attempt();
      if !ok {
        return;
      }
      ok := PublishSelectors(original.value.interface, target.interface);
      if !ok {
        return;
      }
      ok := Attempt();
      if !ok {
        return;
      }
      ok := Attempt();
      if ok {
        recovered := Some(target);
        ok := Attempt();
      }
      if !ok {
        var restored := Attempt();
        if restored {
          recovered := original;
          var _ := Attempt();
        } else if recovered != original {
          slips := slips + 1;
        }
      }
    }

    /** Moves the recovered policy to the new ingress and retires the selector it leaves behind. */
    method MoveRecovered(target: Identity) returns (ok: bool)
      requires recovered.Some?
      modifies this`fates, this`selectors, this`recovered, this`retired, this`slips
      ensures recovered.Some? && old(slips) <= slips <= old(slips) + 1
      ensures old(Bookkept()) && slips == old(slips) ==> Bookkept()
      ensures old(Bookkept()) && slips > old(slips) ==>
                (Bookkept() <==> old(recovered).value.interface == target.interface)
      ensures ok ==> retired.None? && slips == old(slips) && recovered == Some(target)
      ensures old(retired).None? ==> (slips > old(slips) <==> Slips(old(fates)) && target != old(recovered).value)
      ensures old(retired).Some? ==>
                (slips > old(slips) <==>
                   Retires(old(fates)) && |old(fates)| >= 3 && Slips(old(fates)[3..]) &&
                   target != old(recovered).value)
      ensures retired.None? && slips == old(slips) && old(retired).Some? ==>
                old(retired).value.interface == recovered.value.interface ||
                forall s | s in selectors :: s.interface != old(retired).value.interface
      ensures old(fates) == [] ==> ok && fates == []
      ensures ok && old(Bookkept()) ==>
                Both(target.interface) <= selectors && forall s | s in selectors :: s.interface == target.interface
    {
      if retired.Some? {
        ok := Retire(retired.value.interface);
        if !ok {
          return;
        }
        retired := None;
      }
      var original := recovered.value;
      if original.interface != target.interface {
        retired := Some(target);
      }
      ok := Rebind(target);
      if !ok {
        return;
      }
      if original.interface != target.interface {
        retired := Some(original);
        ok := Retire(original.interface);
        if !ok {
          return;
        }
        retired := None;
      }
      ok := Attempt();
    }

    method TakeDown() returns (ok: bool)
      modifies this`fates, this`active
      ensures active <==> old(active) && old(fates) != [] && old(fates)[0].Fails? && !old(fates)[0].effect
      ensures ok ==> !active
      ensures old(fates) == [] ==> ok && fates == []
    {
      if !active {
        return true;
      }
      var f := Take();
      ok := f.Works?;
      active := f.Fails? && !f.effect;
    }

    /** An activate request: under the maintenance guard, the recovered policy moves to the new ingress and
        only then is the link brought up. */
    method ActivateIngress(target: Identity) returns (ok: bool)
      requires Quiet()
      modifies this
      ensures Quiet() && slips >= old(slips) && (recovered.Some? <==> old(recovered).Some?)
      ensures old(Bookkept()) && slips == old(slips) ==> Bookkept()
      ensures ok ==> active && network == Some(target.interface)
      ensures old(fates) == [] ==>
                (ok <==> !(old(network).Some? && old(network).value != target.interface &&
                           (!old(rollbackReady) || old(active))))
    {
      if network.Some? && network.value != target.interface && (!rollbackReady || active) {
        return false;
      }
      ok := Attempt();
      if !ok {
        return;
      }
      ok := TakeDown();
      if !ok {
        return;
      }
      ok := Attempt();
      if !ok {
        return;
      }
      var first := network.None?;
      var moving := recovered.Some? && (first || rollbackReady);
      if moving {
        ok := MoveRecovered(target);
        if !ok {
          return;
        }
      }
      network := Some(target.interface);
      ok := BringUp(target, first && !moving);
    }

    /** Brings the link up; the very first ingress also publishes its own selector. A link that cannot be
        configured and observed is deleted again, so it is left up after a failure exactly when that deletion
        fails without effect, or when the lease turns out to be revoked at the end. */
    method BringUp(target: Identity, initial: bool) returns (ok: bool)
      requires !active && network == Some(target.interface) && (initial ==> recovered.None?)
      modifies this`fates, this`active, this`selectors
      ensures initial || selectors == old(selectors)
      ensures ok ==> active
      ensures !initial ==> (active && !ok <==> LinkLeft(old(fates)))
      ensures initial ==>
                (active && !ok <==> old(fates) != [] && old(fates)[0].Works? && LinkLeft(old(fates)[1..]))
      ensures old(fates) == [] ==> ok
    {
      ok := true;
      if initial {
        ok := PublishSelectors(target.interface, target.interface);
        if !ok {
          return;
        }
      }
      ok := Attempt();
      if !ok {
        return;
      }
      active := true;
      ok := Attempt();
      if !ok {
        var _ := TakeDown();
        return;
      }
      ok := Attempt();
    }

    /** A deactivate request: takes the link down and proves the blocked policy, or that nothing is left. */
    method DeactivateIngress() returns (ok: bool)
      requires Quiet()
      modifies this
      ensures Quiet() && slips == old(slips) && recovered == old(recovered) && selectors <= old(selectors)
      ensures old(Bookkept()) ==> Bookkept()
      ensures old(fates) == [] ==> ok && !active && (old(network).Some? ==> rollbackReady)
    {
      if network.None? {
        return true;
      }
      ok := Attempt();
      if !ok {
        return;
      }
      ok := TakeDown();
      if !ok {
        return;
      }
      ok := Attempt();
      if !ok {
        ok := Attempt();
        if !ok {
          return;
        }
        ok := Retire(network.value);
        if !ok {
          return;
        }
        network := None;
      }
      rollbackReady := true;
      ok := Attempt();
    }

    /** A restart of the controller's state without any configured ingress: retires what is recorded and arms
        the recovered policy as blocked again. */
    method ReconcileEmpty() returns (ok: bool)
      requires Quiet()
      modifies this
      ensures Quiet() && slips == old(slips) && recovered == old(recovered)
      ensures old(Bookkept()) ==> Bookkept()
      ensures ok && recovered.Some? ==> retired.None? && Both(recovered.value.interface) <= selectors
      ensures old(fates) == [] ==> ok
    {
      ok := Attempt();
      if !ok {
        return;
      }
      if recovered.Some? {
        if retired.Some? {
          ok := Retire(retired.value.interface);
          if !ok {
            return;
          }
          retired := None;
        }
        ok := PublishSelectors(recovered.value.interface, recovered.value.interface);
        if !ok {
          return;
        }
      }
      network, active := None, false;
    }

    /** An observe request over the proven ingress ends first setup; by then nothing is recorded any more. */
    method ObserveIngress() returns (ok: bool)
      requires Quiet()
      modifies this
      ensures Quiet() && slips == old(slips) && selectors == old(selectors)
      ensures ok ==> old(active) && old(retired).None? && recovered.None? && retired.None?
      ensures !ok ==> recovered == old(recovered) && retired == old(retired)
      ensures old(Bookkept()) ==> Bookkept()
      ensures old(fates) == [] ==> (ok <==> old(active))
    {
      ok := Attempt();
      if !ok || !active {
        return false;
      }
      ok := Attempt();
      if !ok {
        return;
      }
      rollbackReady, recovered, retired := false, None, None;
    }

    /** Over any sequence of requests, with failures at any command: unless the restoring command of some
        rebind failed after the switch, every published selector stays accounted for. */
    method Run(ops: seq<Op>)
      requires Quiet() && Bookkept() && slips == 0
      modifies this
      ensures Quiet() && (slips == 0 ==> Bookkept())
    {
      for i := 0 to |ops|
        invariant Quiet() && (slips == 0 ==> Bookkept())
      {
        var ok := true;
        match ops[i] {
          case Activate(target) => ok := ActivateIngress(target);
          case Deactivate => ok := DeactivateIngress();
          case Reconcile => ok := ReconcileEmpty();
          case Observe => ok := ObserveIngress();
        }
      }
    }
  }

  /** The one failure the bookkeeping does not survive. */
  method SlippedRebind(former: Identity, target: Identity) returns (c: Controller)
    requires former.interface != target.interface
    ensures fresh(c) && c.slips == 1 && !c.Bookkept()
  {
    var fail := Fails(false, {});
    c := new Controller(former, Both(former.interface), [Works, Works, Works, Works, fail, fail]);
    var _ := c.MoveRecovered(target);
  }
}
