/** Properties of one reconcile pass, proved about `ReconcileSpec.PassSpec` (which the
    reconciler's `Reconcile` method is proved to follow) and about each kind's part. */
module ReconcileProperties {
  import opened Cluster
  import opened ReconcileSpec

  // ---------------------------------------------------------------------------
  // One kind's part of a pass
  // ---------------------------------------------------------------------------

  /** The Deployment part: a failed owner reference ends it; otherwise it is created
      when not found and replaced by the freshly built object when found, and any
      other read error is ignored, with no write. */
  lemma DeploymentStep(app: Xglwwebapp, slot: Option<Obj>, f: KindFaults)
    ensures var o := KindPass(DeploymentKind, app, slot, f);
      && (f.owner.Some? ==> o == KindOutcome([SetOwnerRef(DeploymentKind)], slot, f.owner))
      && (f.owner.None? && f.read.None? && slot.None? ==>
            o.calls == [SetOwnerRef(DeploymentKind), GetObj(DeploymentKind), CreateObj(DeploymentKind)]
            && o.err == f.create
            && o.slot == (if f.create.None? then Some(Owned(DeploymentKind, app)) else None))
      && (f.owner.None? && f.read.None? && slot.Some? ==>
            o.calls == [SetOwnerRef(DeploymentKind), GetObj(DeploymentKind), UpdateObj(DeploymentKind)]
            && o.err == f.update
            && o.slot == (if f.update.None? then Some(Owned(DeploymentKind, app)) else slot))
      && (f.owner.None? && f.read.Some? ==>
            o == KindOutcome([SetOwnerRef(DeploymentKind), GetObj(DeploymentKind)], slot, None))
  {
  }

  /** The Service part: a found Service is deleted whatever `EnableService` says; a
      missing one is created only when enabled; a read error other than not-found
      ends the pass only when enabled and is swallowed otherwise. */
  lemma ServiceStep(app: Xglwwebapp, slot: Option<Obj>, f: KindFaults)
    ensures var o := KindPass(ServiceKind, app, slot, f);
      var on := app.spec.enableService;
      var read := [SetOwnerRef(ServiceKind), GetObj(ServiceKind)];
      && (f.owner.Some? ==> o == KindOutcome([SetOwnerRef(ServiceKind)], slot, f.owner))
      && (f.owner.None? && f.read.None? && slot.Some? ==>
            o.calls == read + [DeleteObj(ServiceKind)]
            && o.err == f.delete
            && o.slot == (if f.delete.None? then None else slot))
      && (f.owner.None? && f.read.None? && slot.None? && on ==>
            o.calls == read + [CreateObj(ServiceKind)]
            && o.err == f.create
            && o.slot == (if f.create.None? then Some(Owned(ServiceKind, app)) else None))
      && (f.owner.None? && f.read.None? && slot.None? && !on ==> o == KindOutcome(read, None, None))
      && (f.owner.None? && f.read.Some? ==>
            o == KindOutcome(read, slot, if on then Some(Failure(f.read.value)) else None))
  {
  }

  /** The Ingress part: a found Ingress is left alone when enabled and deleted when
      not; a missing one is created only when enabled; a read error other than
      not-found ends the pass only when enabled and is swallowed otherwise. */
  lemma IngressStep(app: Xglwwebapp, slot: Option<Obj>, f: KindFaults)
    ensures var o := KindPass(IngressKind, app, slot, f);
      var on := app.spec.enableIngress;
      var read := [SetOwnerRef(IngressKind), GetObj(IngressKind)];
      && (f.owner.Some? ==> o == KindOutcome([SetOwnerRef(IngressKind)], slot, f.owner))
      && (f.owner.None? && f.read.None? && slot.Some? && on ==> o == KindOutcome(read, slot, None))
      && (f.owner.None? && f.read.None? && slot.Some? && !on ==>
            o.calls == read + [DeleteObj(IngressKind)]
            && o.err == f.delete
            && o.slot == (if f.delete.None? then None else slot))
      && (f.owner.None? && f.read.None? && slot.None? && on ==>
            o.calls == read + [CreateObj(IngressKind)]
            && o.err == f.create
            && o.slot == (if f.create.None? then Some(Owned(IngressKind, app)) else None))
      && (f.owner.None? && f.read.None? && slot.None? && !on ==> o == KindOutcome(read, None, None))
      && (f.owner.None? && f.read.Some? ==>
            o == KindOutcome(read, slot, if on then Some(Failure(f.read.value)) else None))
  {
  }

  /** Every call of a kind's part is about that kind, and it holds at most one write,
      which is its last call. */
  predicate OfKind(cs: seq<Call>, k: Kind)
  {
    forall n :: 0 <= n < |cs| ==> !cs[n].GetXglwwebapp? && cs[n].kind == k
  }

  predicate AtMostOneWrite(cs: seq<Call>)
  {
    forall n :: 0 <= n < |cs| && cs[n].IsWrite() ==> n == |cs| - 1
  }

  lemma KindCalls(k: Kind, app: Xglwwebapp, slot: Option<Obj>, f: KindFaults)
    ensures var o := KindPass(k, app, slot, f);
      && 1 <= |o.calls| <= 3
      && o.calls[0] == SetOwnerRef(k)
      && OfKind(o.calls, k)
      && AtMostOneWrite(o.calls)
  {
  }

  /** A kind's part fails exactly when one of its calls fails and the failure is not
      swallowed, and the error it ends with is that call's error. */
  lemma KindFailure(k: Kind, app: Xglwwebapp, slot: Option<Obj>, f: KindFaults)
    ensures var o := KindPass(k, app, slot, f);
      var step := Decide(k, ReadSlot(slot, f.read), Wanted(k, app.spec));
      && (f.owner.Some? ==> o.err == f.owner)
      && (f.owner.None? ==>
            o.err == (match step
                      case CreateIt => f.create
                      case Replace => f.update
                      case Remove => f.delete
                      case Abort(e) => Some(e)
                      case _ => None))
      && (f.owner.None? && f.read.Some? ==>
            (o.err.Some? <==> k != DeploymentKind && Wanted(k, app.spec)))
      && (o.err.None? || o.slot == slot)
  {
  }

  // ---------------------------------------------------------------------------
  // A whole pass
  // ---------------------------------------------------------------------------

  /** A failed fetch of the Xglwwebapp, not-found included, is returned as the pass's
      error, and the pass touches no managed resource. */
  lemma FetchFailureWritesNothing(s: Snapshot, f: Faults)
    ensures var o := PassSpec(s, f);
      && (FetchApp(s, f).Err? ==>
            o.err == Some(FetchApp(s, f).error) && o.after == s && o.calls == [GetXglwwebapp])
      && (s.webapp.None? && f.appRead.None? ==> o.err == Some(NotFound))
  {
    PassSteps(s, f);
  }

  /** Writes of a trace come in strictly increasing kind order: at most one per kind,
      and Deployment before Service before Ingress. */
  predicate WritesRanked(cs: seq<Call>)
  {
    forall a, b :: 0 <= a < b < |cs| && cs[a].IsWrite() && cs[b].IsWrite() ==>
      Rank(cs[a].kind) < Rank(cs[b].kind)
  }

  predicate WritesBelow(cs: seq<Call>, r: nat)
  {
    forall n :: 0 <= n < |cs| && cs[n].IsWrite() ==> Rank(cs[n].kind) < r
  }

  lemma {:induction false} AppendKindCalls(xs: seq<Call>, ys: seq<Call>, k: Kind)
    requires WritesRanked(xs) && WritesBelow(xs, Rank(k))
    requires OfKind(ys, k) && AtMostOneWrite(ys)
    ensures WritesRanked(xs + ys) && WritesBelow(xs + ys, Rank(k) + 1)
  {
    var zs := xs + ys;
    forall a, b | 0 <= a < b < |zs| && zs[a].IsWrite() && zs[b].IsWrite()
      ensures Rank(zs[a].kind) < Rank(zs[b].kind)
    {
      if b < |xs| {
        assert zs[a] == xs[a] && zs[b] == xs[b];
      } else if a < |xs| {
        assert zs[a] == xs[a] && zs[b] == ys[b - |xs|];
      } else {
        assert false;
      }
    }
    forall n | 0 <= n < |zs| && zs[n].IsWrite() ensures Rank(zs[n].kind) < Rank(k) + 1 {
      if n < |xs| {
        assert zs[n] == xs[n];
      } else {
        assert zs[n] == ys[n - |xs|];
      }
    }
  }

  /** Each kind receives at most one write per pass, and the writes come in the order
      Deployment, Service, Ingress. */
  lemma WritesInOrder(s: Snapshot, f: Faults)
    ensures WritesRanked(PassSpec(s, f).calls)
  {
    PassSteps(s, f);
    if FetchApp(s, f).Ok? {
      var app := FetchApp(s, f).value;
      var d := KindPass(DeploymentKind, app, s.deployment, f.deployment);
      var sv := KindPass(ServiceKind, app, s.service, f.service);
      var i := KindPass(IngressKind, app, s.ingress, f.ingress);
      KindCalls(DeploymentKind, app, s.deployment, f.deployment);
      KindCalls(ServiceKind, app, s.service, f.service);
      KindCalls(IngressKind, app, s.ingress, f.ingress);
      AppendKindCalls([GetXglwwebapp], d.calls, DeploymentKind);
      AppendKindCalls([GetXglwwebapp] + d.calls, sv.calls, ServiceKind);
      AppendKindCalls([GetXglwwebapp] + d.calls + sv.calls, i.calls, IngressKind);
    }
  }

  /** No call of the trace is about a kind of rank above `r`. */
  predicate KindsUpTo(cs: seq<Call>, r: nat)
  {
    forall n :: 0 <= n < |cs| && !cs[n].GetXglwwebapp? ==> Rank(cs[n].kind) <= r
  }

  lemma {:induction false} AppendKindsUpTo(xs: seq<Call>, ys: seq<Call>, k: Kind, r: nat)
    requires KindsUpTo(xs, r) && OfKind(ys, k) && Rank(k) <= r
    ensures KindsUpTo(xs + ys, r)
  {
    forall n | 0 <= n < |xs + ys| && !(xs + ys)[n].GetXglwwebapp? ensures Rank((xs + ys)[n].kind) <= r {
      if n < |xs| {
        assert (xs + ys)[n] == xs[n];
      } else {
        assert (xs + ys)[n] == ys[n - |xs|];
      }
    }
  }

  /** The kind part that fails ends the pass with its own error: the later kinds are
      neither read nor written and keep what they held. */
  lemma FailFast(s: Snapshot, f: Faults, k: Kind)
    requires FetchApp(s, f).Ok?
    requires KindPass(k, FetchApp(s, f).value, s.Slot(k), f.For(k)).err.Some?
    requires forall j :: Rank(j) < Rank(k) ==> KindPass(j, FetchApp(s, f).value, s.Slot(j), f.For(j)).err.None?
    ensures var o := PassSpec(s, f);
      && o.err == KindPass(k, FetchApp(s, f).value, s.Slot(k), f.For(k)).err
      && (forall j :: Rank(j) > Rank(k) ==> o.after.Slot(j) == s.Slot(j))
      && KindsUpTo(o.calls, Rank(k))
  {
    PassSteps(s, f);
    var app := FetchApp(s, f).value;
    var d := KindPass(DeploymentKind, app, s.deployment, f.deployment);
    var sv := KindPass(ServiceKind, app, s.service, f.service);
    KindCalls(DeploymentKind, app, s.deployment, f.deployment);
    KindCalls(ServiceKind, app, s.service, f.service);
    KindCalls(IngressKind, app, s.ingress, f.ingress);
    AppendKindsUpTo([GetXglwwebapp], d.calls, DeploymentKind, Rank(k));
    if k != DeploymentKind {
      assert d.err.None? by { assert Rank(DeploymentKind) < Rank(k); }
      AppendKindsUpTo([GetXglwwebapp] + d.calls, sv.calls, ServiceKind, Rank(k));
      if k == IngressKind {
        assert sv.err.None? by { assert Rank(ServiceKind) < Rank(k); }
        var i := KindPass(IngressKind, app, s.ingress, f.ingress);
        AppendKindsUpTo([GetXglwwebapp] + d.calls + sv.calls, i.calls, IngressKind, Rank(k));
      }
    }
  }

  /** Nothing is rolled back: when a pass fails at kind `k`, that kind and every
      earlier one hold what their own part left. */
  lemma NoRollback(s: Snapshot, f: Faults, k: Kind)
    requires FetchApp(s, f).Ok?
    requires KindPass(k, FetchApp(s, f).value, s.Slot(k), f.For(k)).err.Some?
    requires forall j :: Rank(j) < Rank(k) ==> KindPass(j, FetchApp(s, f).value, s.Slot(j), f.For(j)).err.None?
    ensures forall j :: Rank(j) <= Rank(k) ==>
      PassSpec(s, f).after.Slot(j) == KindPass(j, FetchApp(s, f).value, s.Slot(j), f.For(j)).slot
  {
    PassSteps(s, f);
    var app := FetchApp(s, f).value;
    if k != DeploymentKind {
      assert KindPass(DeploymentKind, app, s.deployment, f.deployment).err.None? by {
        assert Rank(DeploymentKind) < Rank(k);
      }
    }
    if k == IngressKind {
      assert KindPass(ServiceKind, app, s.service, f.service).err.None? by {
        assert Rank(ServiceKind) < Rank(k);
      }
    }
  }

  /** A pass never asks for a requeue; it ends without error exactly when the
      Xglwwebapp was fetched and all three kind parts got through, and then every kind
      was read. */
  lemma PassEnd(s: Snapshot, f: Faults)
    ensures var o := PassSpec(s, f);
      && o.result == EmptyResult
      && (o.err.None? <==>
            FetchApp(s, f).Ok?
            && (forall k :: KindPass(k, FetchApp(s, f).value, s.Slot(k), f.For(k)).err.None?))
      && (o.err.None? ==> forall k :: GetObj(k) in o.calls)
  {
    PassSteps(s, f);
    if FetchApp(s, f).Ok? {
      var app := FetchApp(s, f).value;
      var d := KindPass(DeploymentKind, app, s.deployment, f.deployment);
      var sv := KindPass(ServiceKind, app, s.service, f.service);
      var i := KindPass(IngressKind, app, s.ingress, f.ingress);
      KindCalls(DeploymentKind, app, s.deployment, f.deployment);
      KindCalls(ServiceKind, app, s.service, f.service);
      KindCalls(IngressKind, app, s.ingress, f.ingress);
      var o := PassSpec(s, f);
      if o.err.None? {
        assert d.err.None? && sv.err.None? && i.err.None?;
        forall k ensures GetObj(k) in o.calls {
          KindFailure(k, app, s.Slot(k), f.For(k));
          match k
          case DeploymentKind => assert o.calls[2] == GetObj(k);
          case ServiceKind => assert o.calls[|d.calls| + 2] == GetObj(k);
          case IngressKind => assert o.calls[|d.calls| + |sv.calls| + 2] == GetObj(k);
        }
      }
    }
  }

  // ---------------------------------------------------------------------------
  // Passes without faults
  // ---------------------------------------------------------------------------

  /** The cluster after one pass in which no call fails: the Deployment is the freshly
      built one, a Service that existed is gone and a missing one is created only when
      enabled, and the Ingress is kept or created when enabled and absent otherwise. */
  function AfterCleanPass(s: Snapshot, app: Xglwwebapp): Snapshot
  {
    Snapshot(
      s.webapp,
      Some(Owned(DeploymentKind, app)),
      if s.service.None? && app.spec.enableService then Some(Owned(ServiceKind, app)) else None,
      if !app.spec.enableIngress then None
      else if s.ingress.Some? then s.ingress
      else Some(Owned(IngressKind, app)))
  }

  lemma CleanPass(s: Snapshot)
    requires s.webapp.Some?
    ensures var o := PassSpec(s, NoFaults);
      o.err.None? && o.after == AfterCleanPass(s, s.webapp.value)
  {
    PassSteps(s, NoFaults);
  }

  /** Under passes without faults, the cluster settles after one pass exactly when the
      Service is disabled: with `EnableService` set, the Service is deleted by every
      pass that finds it and created by every pass that does not, forever. */
  lemma SettlesIffServiceDisabled(s: Snapshot)
    requires s.webapp.Some?
    ensures var s1 := PassSpec(s, NoFaults).after;
      var s2 := PassSpec(s1, NoFaults).after;
      && (s2 == s1 <==> !s.webapp.value.spec.enableService)
      && (s.webapp.value.spec.enableService ==> (s2.service.Some? <==> s1.service.None?))
  {
    var app := s.webapp.value;
    CleanPass(s);
    var s1 := PassSpec(s, NoFaults).after;
    CleanPass(s1);
  }

  /** The cluster after `n` passes without faults, one after another. */
  function Passes(s: Snapshot, n: nat): Snapshot
    decreases n
  {
    if n == 0 then s else Passes(PassSpec(s, NoFaults).after, n - 1)
  }

  /** `n` applications of `AfterCleanPass` for a fixed Xglwwebapp. */
  function CleanPasses(s: Snapshot, app: Xglwwebapp, n: nat): Snapshot
    decreases n
  {
    if n == 0 then s else CleanPasses(AfterCleanPass(s, app), app, n - 1)
  }

  /** Passes without faults never change the stored Xglwwebapp, so each of them is
      `AfterCleanPass` for the same Xglwwebapp. */
  lemma {:induction false} PassesAreCleanPasses(s: Snapshot, n: nat)
    requires s.webapp.Some?
    ensures Passes(s, n) == CleanPasses(s, s.webapp.value, n)
    decreases n
  {
    if n > 0 {
      CleanPass(s);
      var s1 := PassSpec(s, NoFaults).after;
      assert s1 == AfterCleanPass(s, s.webapp.value);
      PassesAreCleanPasses(s1, n - 1);
    }
  }

  /** With `EnableService` set, passes without faults never settle: after any number
      of passes the Deployment is the built one and the Ingress as after the first
      pass, while the Service is there after `n` passes exactly when it was there at
      the start and `n` is even, or was missing and `n` is odd. */
  lemma ServiceAlternates(s: Snapshot, n: nat)
    requires s.webapp.Some? && s.webapp.value.spec.enableService
    ensures var sn := Passes(s, n);
      && sn.webapp == s.webapp
      && (sn.service.Some? <==> (s.service.Some? <==> n % 2 == 0))
      && (n >= 1 ==>
            sn.deployment == Some(Owned(DeploymentKind, s.webapp.value))
            && sn.ingress == AfterCleanPass(s, s.webapp.value).ingress)
  {
    PassesAreCleanPasses(s, n);
    CleanServiceAlternates(s, s.webapp.value, n);
  }

  lemma {:induction false} CleanServiceAlternates(s: Snapshot, app: Xglwwebapp, n: nat)
    requires s.webapp == Some(app) && app.spec.enableService
    ensures var sn := CleanPasses(s, app, n);
      && sn.webapp == s.webapp
      && (sn.service.Some? <==> (s.service.Some? <==> n % 2 == 0))
      && (n >= 1 ==>
            sn.deployment == Some(Owned(DeploymentKind, app))
            && sn.ingress == AfterCleanPass(s, app).ingress)
    decreases n
  {
    if n > 0 {
      var s1 := AfterCleanPass(s, app);
      CleanServiceAlternates(s1, app, n - 1);
      if n - 1 >= 1 {
        assert AfterCleanPass(s1, app).ingress == s1.ingress;
      }
    }
  }

  /** With `EnableService` off, the first pass without faults reaches the state every
      later pass keeps. */
  lemma SettlesWhenServiceDisabled(s: Snapshot, n: nat)
    requires s.webapp.Some? && !s.webapp.value.spec.enableService
    requires n >= 1
    ensures Passes(s, n) == AfterCleanPass(s, s.webapp.value)
  {
    PassesAreCleanPasses(s, n);
    CleanPassesSettle(s, s.webapp.value, n);
  }

  lemma {:induction false} CleanPassesSettle(s: Snapshot, app: Xglwwebapp, n: nat)
    requires !app.spec.enableService && n >= 1
    ensures CleanPasses(s, app, n) == AfterCleanPass(s, app)
    decreases n
  {
    var s1 := AfterCleanPass(s, app);
    if n > 1 {
      CleanPassesSettle(s1, app, n - 1);
      assert AfterCleanPass(s1, app) == s1;
    }
  }
}
