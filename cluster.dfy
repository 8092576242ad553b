/** The cluster as the reconciler sees it: the Xglwwebapp custom resource and the
    three resources it manages, all under the one namespaced name being reconciled,
    together with the client calls that read and write them.  What the API server
    answers to each call beyond the stored objects (a transport error, a conflict,
    a failed owner-reference) is injected through a `Faults` value fixed for the pass. */
module Cluster {

  /** The two error classes the reconciler distinguishes: `errors.IsNotFound` holds
      of `NotFound` only. */
  datatype Error = NotFound | Failure(reason: string)

  predicate IsNotFound(e: Error) { e.NotFound? }

  datatype Option<T> = None | Some(value: T)

  /** A client call's answer: a value or an error, as Go's `(value, err)` pair. */
  datatype Result<T> = Ok(value: T) | Err(error: Error)

  /** Namespaced name. The request's name and the fetched Xglwwebapp's name are the same. */
  datatype Identity = Identity(namespace: string, name: string)

  /** The managed kinds, in the order a pass handles them. */
  datatype Kind = DeploymentKind | ServiceKind | IngressKind

  /** The part of the Xglwwebapp spec that the reconciler consults. */
  datatype WebappSpec = WebappSpec(enableService: bool, enableIngress: bool)

  datatype Xglwwebapp = Xglwwebapp(id: Identity, spec: WebappSpec)

  /** A managed object. The builders are opaque: a built object is known only by its
      kind, its identity, the spec it was built from and its controller reference. */
  datatype Obj = Obj(kind: Kind, id: Identity, builtFrom: WebappSpec, owner: Option<Identity>)

  /** Stands for `utils.NewDeployment`, `utils.NewService` and `utils.NewIngress`:
      a fresh object of kind `k` for `app`, with no owner yet. */
  function Build(k: Kind, app: Xglwwebapp): Obj
  {
    Obj(k, app.id, app.spec, None)
  }

  /** What the API server does to the calls of one kind in this pass, beyond what the
      stored objects determine. `read` is a non-not-found failure of `Get`. */
  datatype KindFaults = KindFaults(
    owner: Option<Error>,
    read: Option<string>,
    create: Option<Error>,
    update: Option<Error>,
    delete: Option<Error>)

  datatype Faults = Faults(
    appRead: Option<string>,
    deployment: KindFaults,
    service: KindFaults,
    ingress: KindFaults)
  {
    function For(k: Kind): KindFaults
    {
      match k
      case DeploymentKind => deployment
      case ServiceKind => service
      case IngressKind => ingress
    }
  }

  const NoKindFaults := KindFaults(None, None, None, None, None)
  const NoFaults := Faults(None, NoKindFaults, NoKindFaults, NoKindFaults)

  /** The stored objects under the reconciled name. */
  datatype Snapshot = Snapshot(
    webapp: Option<Xglwwebapp>,
    deployment: Option<Obj>,
    service: Option<Obj>,
    ingress: Option<Obj>)
  {
    function Slot(k: Kind): Option<Obj>
    {
      match k
      case DeploymentKind => deployment
      case ServiceKind => service
      case IngressKind => ingress
    }

    /** Each slot holds an object of its own kind, as Go's typed objects guarantee. */
    predicate WellKinded()
    {
      && (deployment.Some? ==> deployment.value.kind == DeploymentKind)
      && (service.Some? ==> service.value.kind == ServiceKind)
      && (ingress.Some? ==> ingress.value.kind == IngressKind)
    }

    function WithSlot(k: Kind, o: Option<Obj>): (s: Snapshot)
      ensures s.webapp == webapp && s.Slot(k) == o
      ensures forall j :: j != k ==> s.Slot(j) == Slot(j)
    {
      match k
      case DeploymentKind => this.(deployment := o)
      case ServiceKind => this.(service := o)
      case IngressKind => this.(ingress := o)
    }
  }

  /** One step the reconciler takes against the cluster or the owner-reference library. */
  datatype Call =
    | GetXglwwebapp
    | SetOwnerRef(kind: Kind)
    | GetObj(kind: Kind)
    | CreateObj(kind: Kind)
    | UpdateObj(kind: Kind)
    | DeleteObj(kind: Kind)
  {
    predicate IsWrite() { CreateObj? || UpdateObj? || DeleteObj? }
  }

  /** Answer to fetching the Xglwwebapp: an injected failure, else not-found when
      nothing is stored under the name. */
  function FetchApp(s: Snapshot, f: Faults): (r: Result<Xglwwebapp>)
    ensures r.Ok? <==> f.appRead.None? && s.webapp.Some?
    ensures r.Ok? ==> r.value == s.webapp.value
    ensures r.Err? && IsNotFound(r.error) <==> f.appRead.None? && s.webapp.None?
  {
    match f.appRead
    case Some(reason) => Err(Failure(reason))
    case None => if s.webapp.Some? then Ok(s.webapp.value) else Err(NotFound)
  }

  /** Answer to reading one managed kind whose slot holds `slot`. */
  function ReadSlot(slot: Option<Obj>, fault: Option<string>): (r: Result<Obj>)
    ensures r.Ok? <==> fault.None? && slot.Some?
    ensures r.Ok? ==> r.value == slot.value
    ensures r.Err? && IsNotFound(r.error) <==> fault.None? && slot.None?
  {
    match fault
    case Some(reason) => Err(Failure(reason))
    case None => if slot.Some? then Ok(slot.value) else Err(NotFound)
  }

  /** The Kubernetes client bound to the reconciled name. */
  class Client {
    var webapp: Option<Xglwwebapp>
    var deployment: Option<Obj>
    var service: Option<Obj>
    var ingress: Option<Obj>
    const faults: Faults
    /** Every call made so far, in order. */
    ghost var calls: seq<Call>

    function State(): Snapshot
      reads this
    {
      Snapshot(webapp, deployment, service, ingress)
    }

    predicate Valid()
      reads this
    {
      State().WellKinded()
    }

    constructor (s: Snapshot, f: Faults)
      requires s.WellKinded()
      ensures Valid() && State() == s && faults == f && calls == []
    {
      webapp, deployment, service, ingress := s.webapp, s.deployment, s.service, s.ingress;
      faults := f;
      calls := [];
    }

    method GetApp() returns (r: Result<Xglwwebapp>)
      modifies this`calls
      ensures r == FetchApp(State(), faults)
      ensures calls == old(calls) + [GetXglwwebapp]
    {
      r := FetchApp(State(), faults);
      calls := calls + [GetXglwwebapp];
    }

    method Get(k: Kind) returns (r: Result<Obj>)
      modifies this`calls
      ensures r == ReadSlot(State().Slot(k), faults.For(k).read)
      ensures calls == old(calls) + [GetObj(k)]
    {
      r := ReadSlot(State().Slot(k), faults.For(k).read);
      calls := calls + [GetObj(k)];
    }

    /** `controllerutil.SetControllerReference(app, obj, scheme)`: on success `obj` is
        returned with `app` as its controller; it touches no stored object. */
    method SetControllerReference(app: Xglwwebapp, obj: Obj) returns (owned: Obj, err: Option<Error>)
      modifies this`calls
      ensures err == faults.For(obj.kind).owner
      ensures err.None? ==> owned == obj.(owner := Some(app.id))
      ensures calls == old(calls) + [SetOwnerRef(obj.kind)]
    {
      err := faults.For(obj.kind).owner;
      owned := if err.None? then obj.(owner := Some(app.id)) else obj;
      calls := calls + [SetOwnerRef(obj.kind)];
    }

    method Create(obj: Obj) returns (err: Option<Error>)
      requires Valid()
      modifies this
      ensures Valid()
      ensures err == faults.For(obj.kind).create
      ensures State() == if err.None? then old(State()).WithSlot(obj.kind, Some(obj)) else old(State())
      ensures calls == old(calls) + [CreateObj(obj.kind)]
    {
      err := faults.For(obj.kind).create;
      if err.None? {
        SetSlot(obj.kind, Some(obj));
      }
      calls := calls + [CreateObj(obj.kind)];
    }

    /** Whole replace: the stored object becomes `obj`. */
    method Update(obj: Obj) returns (err: Option<Error>)
      requires Valid()
      modifies this
      ensures Valid()
      ensures err == faults.For(obj.kind).update
      ensures State() == if err.None? then old(State()).WithSlot(obj.kind, Some(obj)) else old(State())
      ensures calls == old(calls) + [UpdateObj(obj.kind)]
    {
      err := faults.For(obj.kind).update;
      if err.None? {
        SetSlot(obj.kind, Some(obj));
      }
      calls := calls + [UpdateObj(obj.kind)];
    }

    method Delete(obj: Obj) returns (err: Option<Error>)
      requires Valid()
      modifies this
      ensures Valid()
      ensures err == faults.For(obj.kind).delete
      ensures State() == if err.None? then old(State()).WithSlot(obj.kind, None) else old(State())
      ensures calls == old(calls) + [DeleteObj(obj.kind)]
    {
      err := faults.For(obj.kind).delete;
      if err.None? {
        SetSlot(obj.kind, None);
      }
      calls := calls + [DeleteObj(obj.kind)];
    }

    method SetSlot(k: Kind, o: Option<Obj>)
      modifies this`deployment, this`service, this`ingress
      ensures State() == old(State()).WithSlot(k, o)
    {
      match k
      case DeploymentKind => deployment := o;
      case ServiceKind => service := o;
      case IngressKind => ingress := o;
    }
  }
}
