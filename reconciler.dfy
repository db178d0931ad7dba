/**
 * The AppService reconciler (internal/controller/appservice_controller.go).
 *
 * A pass fetches the app; if it is being deleted it cleans up the children
 * and removes the finalizer; otherwise it creates the Deployment and the
 * Service when the Deployment is missing, or rewrites both when the spec
 * differs from the last-applied snapshot, then adds the finalizer if it is
 * missing and records the snapshot. Every store call can end the pass with
 * its error; nothing done before that is rolled back.
 *
 * The functions below describe a pass on store values; the class runs it
 * step by step against a `Client` and is proved to agree with them.
 */
module Reconciler {
  import opened ApiTypes
  import opened Store
  import opened Snapshot
  import opened Children

  const FinalizerName: string := "appservice.batch.appservice.com"

  predicate NoDuplicates(s: seq<string>) {
    forall i, j :: 0 <= i < j < |s| ==> s[i] != s[j]
  }

  /**
   * `sets.NewString(fs...).Delete(FinalizerName).UnsortedList()`: the other
   * finalizers, each once. The source promises no order; this is one of the
   * orders it may produce.
   */
  function WithoutFinalizer(fs: seq<string>): (r: seq<string>)
    ensures forall x :: x in r <==> x in fs && x != FinalizerName
    ensures NoDuplicates(r)
  {
    if fs == [] then []
    else
      var rest := WithoutFinalizer(fs[1..]);
      assert forall x :: x in fs <==> x == fs[0] || x in fs[1..];
      if fs[0] == FinalizerName || fs[0] in rest then rest else [fs[0]] + rest
  }

  function AddFinalizer(app: AppService): AppService {
    app.(meta := app.meta.(finalizers := app.meta.finalizers + [FinalizerName]))
  }

  function DropFinalizer(app: AppService): AppService {
    app.(meta := app.meta.(finalizers := WithoutFinalizer(app.meta.finalizers)))
  }

  /** The app with its current spec recorded as the snapshot. */
  function Recorded(codec: Codec, app: AppService): AppService {
    app.(meta := app.meta.(annotations := Some(WithSnapshot(app.meta.annotations, codec.encode(app.spec)))))
  }

  /** The Deployment as the update path writes it: the desired spec, its own metadata. */
  function Respecified(current: Deployment, app: AppService): Deployment {
    current.(spec := NewDeployment(app).spec)
  }

  /** The Service as the update path writes it: the desired spec with the allocated ClusterIP kept. */
  function Reassigned(current: Service, app: AppService): Service {
    current.(spec := NewService(app).spec.(clusterIP := current.spec.clusterIP))
  }

  /** `deleteAssociatedResources`: delete each child a Get finds; a failed Get skips that child. */
  function CleanupPass(c: Cluster, app: AppService, faults: Faults): Outcome {
    var k := KeyOf(app.meta);
    var first :=
      match Get(c.deployments, k, At(faults, CleanupDeploymentGet))
      case Err(_) => Outcome(c, None)
      case Ok(d) => WithDeployments(c, Delete(c.deployments, KeyOf(d.meta), At(faults, CleanupDeploymentDelete)));
    if first.err.Some? then first
    else
      var c1 := first.cluster;
      match Get(c1.services, k, At(faults, CleanupServiceGet))
      case Err(_) => Outcome(c1, None)
      case Ok(s) => WithServices(c1, Delete(c1.services, KeyOf(s.meta), At(faults, CleanupServiceDelete)))
  }

  /** The deletion branch when the finalizer is present: clean up, then patch the finalizer away. */
  function FinalizePass(c: Cluster, instance: AppService, faults: Faults): Outcome {
    var cleanup := CleanupPass(c, instance, faults);
    if cleanup.err.Some? then cleanup
    else WithApps(cleanup.cluster,
                  PatchFinalizers(cleanup.cluster.apps, DropFinalizer(instance), At(faults, FinalizerRemove)))
  }

  /** The create path: the Deployment first, the Service only once it exists. */
  function CreatePass(c: Cluster, instance: AppService, faults: Faults): Outcome {
    var d := NewDeployment(instance);
    var first := WithDeployments(c, Create(c.deployments, KeyOf(d.meta), d, At(faults, DeploymentCreate)));
    if first.err.Some? then first
    else
      var s := NewService(instance);
      var c1 := first.cluster;
      WithServices(c1, Create(c1.services, KeyOf(s.meta), s, At(faults, ServiceCreate)))
  }

  /** The update path: rewrite the Deployment, then fetch and rewrite the Service. */
  function UpdatePass(c: Cluster, req: Key, instance: AppService, faults: Faults): Outcome {
    match Get(c.deployments, req, At(faults, DeploymentRefetch))
    case Err(e) => Outcome(c, Some(e))
    case Ok(current) =>
      var d := Respecified(current, instance);
      var first := WithDeployments(c, Update(c.deployments, KeyOf(d.meta), d, At(faults, DeploymentUpdate)));
      if first.err.Some? then first
      else
        var c1 := first.cluster;
        match Get(c1.services, req, At(faults, ServiceGet))
        case Err(e) => Outcome(c1, Some(e))
        case Ok(svc) =>
          var s := Reassigned(svc, instance);
          WithServices(c1, Update(c1.services, KeyOf(s.meta), s, At(faults, ServiceUpdate)))
  }

  /** Create the children, or rewrite them when the spec differs from the snapshot. */
  function ChildrenPass(c: Cluster, codec: Codec, req: Key, instance: AppService, faults: Faults): Outcome {
    match Get(c.deployments, req, At(faults, DeploymentGet))
    case Err(e) => if e != NotFound then Outcome(c, Some(e)) else CreatePass(c, instance, faults)
    case Ok(_) =>
      match LoadSnapshot(codec, instance.meta.annotations)
      case Err(e) => Outcome(c, Some(e))
      case Ok(oldSpec) => if instance.spec == oldSpec then Outcome(c, None) else UpdatePass(c, req, instance, faults)
  }

  /** Write the snapshot annotation with an update of the whole app. */
  function SnapshotPass(c: Cluster, codec: Codec, instance: AppService, faults: Faults): Outcome {
    var saved := Recorded(codec, instance);
    WithApps(c, Update(c.apps, KeyOf(saved.meta), saved, At(faults, SnapshotUpdate)))
  }

  /** Add the finalizer if it is missing, then write the snapshot. */
  function RecordPass(c: Cluster, codec: Codec, instance: AppService, faults: Faults): Outcome {
    if FinalizerName !in instance.meta.finalizers then
      var withFinalizer := AddFinalizer(instance);
      var patched := WithApps(c, PatchFinalizers(c.apps, withFinalizer, At(faults, FinalizerAdd)));
      if patched.err.Some? then patched else SnapshotPass(patched.cluster, codec, withFinalizer, faults)
    else
      SnapshotPass(c, codec, instance, faults)
  }

  /** One reconciliation of the app named `req`. */
  function ReconcilePass(c: Cluster, codec: Codec, req: Key, faults: Faults): Outcome {
    match Get(c.apps, req, At(faults, AppGet))
    case Err(e) => Outcome(c, if e == NotFound then None else Some(e))
    case Ok(instance) =>
      if !IsZeroTime(instance.meta.deletionTimestamp) then
        if FinalizerName in instance.meta.finalizers then FinalizePass(c, instance, faults)
        else Outcome(c, None)
      else
        var children := ChildrenPass(c, codec, req, instance, faults);
        if children.err.Some? then children
        else RecordPass(children.cluster, codec, instance, faults)
  }

  class AppServiceReconciler {
    const client: Client
    const codec: Codec

    constructor (client: Client, codec: Codec)
      ensures this.client == client && this.codec == codec
    {
      this.client := client;
      this.codec := codec;
    }

    /** `Reconcile`: one pass, with its store calls failing as `faults` says. */
    method Reconcile(req: Key, faults: Faults) returns (err: Option<Error>)
      modifies client
      ensures Outcome(client.State(), err) == ReconcilePass(old(client.State()), codec, req, faults)
    {
      var fetched := client.GetApp(req, At(faults, AppGet));
      if fetched.Err? {
        if fetched.error == NotFound {
          return None;
        }
        return Some(fetched.error);
      }
      var instance := fetched.value;
      if !IsZeroTime(instance.meta.deletionTimestamp) {
        if FinalizerName in instance.meta.finalizers {
          err := DeleteAssociatedResources(instance, faults);
          if err.Some? {
            return;
          }
          instance := DropFinalizer(instance);
          err := client.PatchApp(instance, At(faults, FinalizerRemove));
          if err.Some? {
            return;
          }
        }
        return None;
      }
      err := ApplyChildren(req, instance, faults);
      if err.Some? {
        return;
      }
      if FinalizerName !in instance.meta.finalizers {
        instance := AddFinalizer(instance);
        err := client.PatchApp(instance, At(faults, FinalizerAdd));
        if err.Some? {
          return;
        }
      }
      var data := codec.encode(instance.spec);
      instance := instance.(meta := instance.meta.(annotations := Some(WithSnapshot(instance.meta.annotations, data))));
      err := client.UpdateApp(instance, At(faults, SnapshotUpdate));
    }

    /** The part of `Reconcile` between the deletion check and the finalizer step. */
    method ApplyChildren(req: Key, instance: AppService, faults: Faults) returns (err: Option<Error>)
      modifies client
      ensures Outcome(client.State(), err) == ChildrenPass(old(client.State()), codec, req, instance, faults)
    {
      var deployment := client.GetDeployment(req, At(faults, DeploymentGet));
      if deployment.Err? {
        if deployment.error != NotFound {
          return Some(deployment.error);
        }
        var created := NewDeployment(instance);
        err := client.CreateDeployment(created, At(faults, DeploymentCreate));
        if err.Some? {
          return;
        }
        var svc := NewService(instance);
        err := client.CreateService(svc, At(faults, ServiceCreate));
        return;
      }
      var oldSpec := LoadSnapshot(codec, instance.meta.annotations);
      if oldSpec.Err? {
        return Some(oldSpec.error);
      }
      if instance.spec == oldSpec.value {
        return None;
      }
      var newDeployment := NewDeployment(instance);
      var current := client.GetDeployment(req, At(faults, DeploymentRefetch));
      if current.Err? {
        return Some(current.error);
      }
      var currDeployment := current.value.(spec := newDeployment.spec);
      err := client.UpdateDeployment(currDeployment, At(faults, DeploymentUpdate));
      if err.Some? {
        return;
      }
      var newService := NewService(instance);
      var fetched := client.GetService(req, At(faults, ServiceGet));
      if fetched.Err? {
        return Some(fetched.error);
      }
      var currIP := fetched.value.spec.clusterIP;
      var currService := fetched.value.(spec := newService.spec);
      currService := currService.(spec := currService.spec.(clusterIP := currIP));
      err := client.UpdateService(currService, At(faults, ServiceUpdate));
    }

    /** `deleteAssociatedResources`: delete the Deployment, then the Service, when a Get finds them. */
    method DeleteAssociatedResources(app: AppService, faults: Faults) returns (err: Option<Error>)
      modifies client
      ensures Outcome(client.State(), err) == CleanupPass(old(client.State()), app, faults)
    {
      var k := KeyOf(app.meta);
      var deployment := client.GetDeployment(k, At(faults, CleanupDeploymentGet));
      if deployment.Ok? {
        err := client.DeleteDeployment(deployment.value, At(faults, CleanupDeploymentDelete));
        if err.Some? {
          return;
        }
      }
      var svc := client.GetService(k, At(faults, CleanupServiceGet));
      if svc.Ok? {
        err := client.DeleteService(svc.value, At(faults, CleanupServiceDelete));
        if err.Some? {
          return;
        }
      }
      return None;
    }
  }
}
