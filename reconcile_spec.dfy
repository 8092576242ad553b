/** What one reconcile pass of an Xglwwebapp does, stated as one decision table per
    managed kind and a fixed sequence of kinds. The reconciler's method follows the
    controller's own branching; it is proved to agree with `PassSpec` here, and the
    properties of a pass are proved about `PassSpec`. */
module ReconcileSpec {
  import opened Cluster

  /** `ctrl.Result`: whether and when to requeue. */
  datatype CtrlResult = CtrlResult(requeue: bool, requeueAfter: nat)

  const EmptyResult := CtrlResult(false, 0)

  /** The kinds in the order a pass handles them. */
  const Order: seq<Kind> := [DeploymentKind, ServiceKind, IngressKind]

  function Rank(k: Kind): nat
  {
    match k
    case DeploymentKind => 0
    case ServiceKind => 1
    case IngressKind => 2
  }

  /** Whether the spec asks for kind `k`: the Deployment has no flag. */
  function Wanted(k: Kind, spec: WebappSpec): bool
  {
    match k
    case DeploymentKind => true
    case ServiceKind => spec.enableService
    case IngressKind => spec.enableIngress
  }

  /** The object a pass writes for kind `k`: built from `app` and owned by it. */
  function Owned(k: Kind, app: Xglwwebapp): Obj
  {
    Build(k, app).(owner := Some(app.id))
  }

  /** What a pass does with one kind once its read has come back. */
  datatype Step =
    | CreateIt        // create the built object
    | Replace         // update: the stored object becomes the built one
    | Remove          // delete the stored object
    | Skip            // leave it as it is
    | Swallow         // a failed read that the pass ignores
    | Abort(err: Error)

  /** The decision table: read outcome by kind and by whether the kind is wanted. */
  function Decide(k: Kind, read: Result<Obj>, wanted: bool): Step
  {
    match read
    case Ok(_) =>
      (match k
       case DeploymentKind => Replace
       case ServiceKind => Remove
       case IngressKind => if wanted then Skip else Remove)
    case Err(e) =>
      if IsNotFound(e) then (if wanted then CreateIt else Skip)
      else if k == DeploymentKind || !wanted then Swallow
      else Abort(e)
  }

  /** The calls, the new slot and the error of one kind's part of a pass. */
  datatype KindOutcome = KindOutcome(calls: seq<Call>, slot: Option<Obj>, err: Option<Error>)

  /** One kind's part of a pass: set the owner reference on the built object, read the
      stored one, then act on the decision table. Any failed call ends it with that error. */
  function KindPass(k: Kind, app: Xglwwebapp, slot: Option<Obj>, f: KindFaults): KindOutcome
  {
    if f.owner.Some? then KindOutcome([SetOwnerRef(k)], slot, f.owner)
    else
      var read := [SetOwnerRef(k), GetObj(k)];
      match Decide(k, ReadSlot(slot, f.read), Wanted(k, app.spec))
      case CreateIt =>
        KindOutcome(read + [CreateObj(k)], if f.create.None? then Some(Owned(k, app)) else slot, f.create)
      case Replace =>
        KindOutcome(read + [UpdateObj(k)], if f.update.None? then Some(Owned(k, app)) else slot, f.update)
      case Remove =>
        KindOutcome(read + [DeleteObj(k)], if f.delete.None? then None else slot, f.delete)
      case Skip => KindOutcome(read, slot, None)
      case Swallow => KindOutcome(read, slot, None)
      case Abort(e) => KindOutcome(read, slot, Some(e))
  }

  /** How far a pass has got: the calls so far, the cluster now, the error if it stopped. */
  datatype Progress = Progress(calls: seq<Call>, state: Snapshot, err: Option<Error>)

  /** Runs the kinds `ks` in turn, stopping at the first error. */
  function RunKinds(ks: seq<Kind>, app: Xglwwebapp, f: Faults, p: Progress): Progress
    decreases |ks|
  {
    if ks == [] || p.err.Some? then p
    else
      var o := KindPass(ks[0], app, p.state.Slot(ks[0]), f.For(ks[0]));
      RunKinds(ks[1..], app, f, Progress(p.calls + o.calls, p.state.WithSlot(ks[0], o.slot), o.err))
  }

  datatype PassOutcome = PassOutcome(result: CtrlResult, err: Option<Error>, after: Snapshot, calls: seq<Call>)

  /** A whole pass from cluster `s` under faults `f`: fetch the Xglwwebapp, returning
      the fetch error if any, then run the kinds in `Order`. */
  function PassSpec(s: Snapshot, f: Faults): PassOutcome
  {
    match FetchApp(s, f)
    case Err(e) => PassOutcome(EmptyResult, Some(e), s, [GetXglwwebapp])
    case Ok(app) =>
      var p := RunKinds(Order, app, f, Progress([GetXglwwebapp], s, None));
      PassOutcome(EmptyResult, p.err, p.state, p.calls)
  }

  /** The outcome of a pass once the Xglwwebapp is fetched: the parts that ran, in
      order, up to the first one that failed. */
  function Stages(s: Snapshot, f: Faults, app: Xglwwebapp): PassOutcome
  {
    var d := KindPass(DeploymentKind, app, s.deployment, f.deployment);
    var s1 := s.(deployment := d.slot);
    if d.err.Some? then PassOutcome(EmptyResult, d.err, s1, [GetXglwwebapp] + d.calls)
    else
      var sv := KindPass(ServiceKind, app, s.service, f.service);
      var s2 := s1.(service := sv.slot);
      if sv.err.Some? then PassOutcome(EmptyResult, sv.err, s2, [GetXglwwebapp] + d.calls + sv.calls)
      else
        var i := KindPass(IngressKind, app, s.ingress, f.ingress);
        PassOutcome(EmptyResult, i.err, s2.(ingress := i.slot), [GetXglwwebapp] + d.calls + sv.calls + i.calls)
  }

  /** A pass in the source's terms: the Xglwwebapp is fetched first and a failed
      fetch, not-found included, is returned at once; then the Deployment, the Service
      and the Ingress parts run in that order, and the first part that fails ends the
      pass with its error, leaving the later kinds unread and untouched. A pass that
      gets through all three returns no error. */
  lemma {:induction false} PassSteps(s: Snapshot, f: Faults)
    ensures FetchApp(s, f).Err? ==>
      PassSpec(s, f) == PassOutcome(EmptyResult, Some(FetchApp(s, f).error), s, [GetXglwwebapp])
    ensures FetchApp(s, f).Ok? ==> PassSpec(s, f) == Stages(s, f, FetchApp(s, f).value)
  {
    if FetchApp(s, f).Ok? {
      var app := FetchApp(s, f).value;
      var p0 := Progress([GetXglwwebapp], s, None);
      var d := KindPass(DeploymentKind, app, s.deployment, f.deployment);
      var p1 := Progress(p0.calls + d.calls, s.(deployment := d.slot), d.err);
      assert Order[1..] == [ServiceKind, IngressKind];
      assert RunKinds(Order, app, f, p0) == RunKinds([ServiceKind, IngressKind], app, f, p1);
      if d.err.None? {
        var sv := KindPass(ServiceKind, app, s.service, f.service);
        var p2 := Progress(p1.calls + sv.calls, p1.state.(service := sv.slot), sv.err);
        assert [ServiceKind, IngressKind][1..] == [IngressKind];
        assert RunKinds([ServiceKind, IngressKind], app, f, p1) == RunKinds([IngressKind], app, f, p2);
        if sv.err.None? {
          var i := KindPass(IngressKind, app, s.ingress, f.ingress);
          var p3 := Progress(p2.calls + i.calls, p2.state.(ingress := i.slot), i.err);
          assert [IngressKind][1..] == [];
          assert RunKinds([IngressKind], app, f, p2) == RunKinds([], app, f, p3);
        }
      }
    }
  }
}
