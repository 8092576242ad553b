/** The Xglwwebapp reconciler: one pass of `Reconcile`, written in the controller's
    own order of calls and branches, and proved to agree with `ReconcileSpec.PassSpec`.
    The three blocks of the pass, one per managed kind, are methods of their own. */
module Controller {
  import opened Cluster
  import opened ReconcileSpec

  class XglwwebappReconciler {
    const client: Client

    constructor (c: Client)
      ensures client == c
    {
      client := c;
    }

    /** One reconcile pass for the Xglwwebapp under the client's name. Logging is
        left out; every failed call returns at once with its error, nothing is undone. */
    method Reconcile() returns (res: CtrlResult, err: Option<Error>)
      requires client.Valid()
      modifies client
      ensures client.Valid()
      ensures var o := PassSpec(old(client.State()), client.faults);
        && res == o.result && err == o.err
        && client.State() == o.after
        && client.calls == old(client.calls) + o.calls
    {
      ghost var s0, f, calls0 := client.State(), client.faults, client.calls;
      PassSteps(s0, f);
      var fetched := client.GetApp();
      if fetched.Err? {
        return EmptyResult, Some(fetched.error);
      }
      var app := fetched.value;
      ghost var d := KindPass(DeploymentKind, app, s0.deployment, f.deployment);
      ghost var sv := KindPass(ServiceKind, app, s0.service, f.service);
      ghost var i := KindPass(IngressKind, app, s0.ingress, f.ingress);
      var e := ReconcileDeployment(app);
      Reassociate(calls0, [GetXglwwebapp], d.calls);
      if e.Some? {
        return EmptyResult, e;
      }
      e := ReconcileService(app);
      Reassociate(calls0, [GetXglwwebapp] + d.calls, sv.calls);
      if e.Some? {
        return EmptyResult, e;
      }
      e := ReconcileIngress(app);
      Reassociate(calls0, [GetXglwwebapp] + d.calls + sv.calls, i.calls);
      if e.Some? {
        return EmptyResult, e;
      }
      return EmptyResult, None;
    }

    /** The Deployment block: created when not found, replaced when found; any other
        read error is ignored. */
    method ReconcileDeployment(app: Xglwwebapp) returns (e: Option<Error>)
      requires client.Valid()
      modifies client
      ensures client.Valid()
      ensures var o := KindPass(DeploymentKind, app, old(client.deployment), client.faults.deployment);
        && e == o.err
        && client.State() == old(client.State()).(deployment := o.slot)
        && client.calls == old(client.calls) + o.calls
    {
      var deployment;
      deployment, e := client.SetControllerReference(app, Build(DeploymentKind, app));
      if e.Some? {
        return e;
      }
      var d := client.Get(DeploymentKind);
      if d.Err? {
        if IsNotFound(d.error) {
          e := client.Create(deployment);
          if e.Some? {
            return e;
          }
        }
      } else {
        e := client.Update(deployment);
        if e.Some? {
          return e;
        }
      }
      return None;
    }

    /** The Service block: deleted whenever found; created when not found and enabled;
        a read error other than not-found aborts only when enabled. */
    method ReconcileService(app: Xglwwebapp) returns (e: Option<Error>)
      requires client.Valid()
      modifies client
      ensures client.Valid()
      ensures var o := KindPass(ServiceKind, app, old(client.service), client.faults.service);
        && e == o.err
        && client.State() == old(client.State()).(service := o.slot)
        && client.calls == old(client.calls) + o.calls
    {
      var service;
      service, e := client.SetControllerReference(app, Build(ServiceKind, app));
      if e.Some? {
        return e;
      }
      var s := client.Get(ServiceKind);
      if s.Err? {
        if IsNotFound(s.error) && app.spec.enableService {
          e := client.Create(service);
          if e.Some? {
            return e;
          }
        }
        if !IsNotFound(s.error) && app.spec.enableService {
          return Some(s.error);
        }
      } else {
        e := client.Delete(s.value);
        if e.Some? {
          return e;
        }
      }
      return None;
    }

    /** The Ingress block: left alone when found and enabled, deleted when found and
        disabled; created when not found and enabled; a read error other than
        not-found aborts only when enabled. */
    method ReconcileIngress(app: Xglwwebapp) returns (e: Option<Error>)
      requires client.Valid()
      modifies client
      ensures client.Valid()
      ensures var o := KindPass(IngressKind, app, old(client.ingress), client.faults.ingress);
        && e == o.err
        && client.State() == old(client.State()).(ingress := o.slot)
        && client.calls == old(client.calls) + o.calls
    {
      var ingress;
      ingress, e := client.SetControllerReference(app, Build(IngressKind, app));
      if e.Some? {
        return e;
      }
      var i := client.Get(IngressKind);
      if i.Err? {
        if IsNotFound(i.error) && app.spec.enableIngress {
          e := client.Create(ingress);
          if e.Some? {
            return e;
          }
        }
        if !IsNotFound(i.error) && app.spec.enableIngress {
          return Some(i.error);
        }
      } else {
        if app.spec.enableIngress {
          // the existing Ingress is left as it is
        } else {
          e := client.Delete(i.value);
          if e.Some? {
            return e;
          }
        }
      }
      return None;
    }
  }

  /** Appending a trace in two steps is appending it in one. */
  lemma Reassociate(a: seq<Call>, b: seq<Call>, c: seq<Call>)
    ensures a + b + c == a + (b + c)
  {
  }
}
