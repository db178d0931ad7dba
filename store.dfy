/**
 * An abstract resource store standing in for the API server behind
 * controller-runtime's client: three maps keyed by namespaced name, and
 * get, create, update, patch and delete calls that succeed or fail.
 *
 * Which calls fail is given by a fault plan that names a call of the
 * reconciler and the error that call receives. Each call below happens at
 * most once in a reconciliation pass, so a plan can describe any pattern of
 * transport failures or conflicts in one pass. Besides injected faults the
 * store raises the errors the API server raises on its own: NotFound for a
 * missing object and AlreadyExists for a duplicate create.
 */
module Store {
  import opened ApiTypes

  datatype Error = NotFound | AlreadyExists | Conflict | Unavailable | MalformedSnapshot

  datatype Result<T> = Ok(value: T) | Err(error: Error)

  /** The store calls of the reconciler, one per call site. */
  datatype Call =
    | AppGet                    // Get of the AppService
    | DeploymentGet             // existence check of the Deployment
    | DeploymentCreate
    | ServiceCreate
    | DeploymentRefetch         // Get of the Deployment before its update
    | DeploymentUpdate
    | ServiceGet                // Get of the Service before its update
    | ServiceUpdate
    | FinalizerAdd              // Patch adding the finalizer
    | SnapshotUpdate            // Update writing the spec annotation
    | CleanupDeploymentGet
    | CleanupDeploymentDelete
    | CleanupServiceGet
    | CleanupServiceDelete
    | FinalizerRemove           // Patch removing the finalizer

  /** A fault plan: the calls that fail, each with the error it receives. */
  type Faults = map<Call, Error>

  function At(faults: Faults, call: Call): Option<Error> {
    if call in faults then Some(faults[call]) else None
  }

  /** The contents of the store. */
  datatype Cluster = Cluster(
    apps: map<Key, AppService>,
    deployments: map<Key, Deployment>,
    services: map<Key, Service>)

  /** Every object is stored under its own namespace and name. */
  predicate Valid(c: Cluster) {
    && (forall k :: k in c.apps ==> KeyOf(c.apps[k].meta) == k)
    && (forall k :: k in c.deployments ==> KeyOf(c.deployments[k].meta) == k)
    && (forall k :: k in c.services ==> KeyOf(c.services[k].meta) == k)
  }

  /** The store after a sequence of calls, and the error that ended it, if any. */
  datatype Outcome = Outcome(cluster: Cluster, err: Option<Error>)

  function Get<V>(m: map<Key, V>, k: Key, fault: Option<Error>): Result<V> {
    if fault.Some? then Err(fault.value)
    else if k in m then Ok(m[k])
    else Err(NotFound)
  }

  function Create<V>(m: map<Key, V>, k: Key, v: V, fault: Option<Error>): Result<map<Key, V>> {
    if fault.Some? then Err(fault.value)
    else if k in m then Err(AlreadyExists)
    else Ok(m[k := v])
  }

  function Update<V>(m: map<Key, V>, k: Key, v: V, fault: Option<Error>): Result<map<Key, V>> {
    if fault.Some? then Err(fault.value)
    else if k !in m then Err(NotFound)
    else Ok(m[k := v])
  }

  function Delete<V>(m: map<Key, V>, k: Key, fault: Option<Error>): Result<map<Key, V>> {
    if fault.Some? then Err(fault.value)
    else if k !in m then Err(NotFound)
    else Ok(m - {k})
  }

  /**
   * A merge patch whose only difference from the object it was computed
   * against is the finalizer list: the stored object takes `app`'s finalizers
   * and keeps all its other fields.
   */
  function PatchFinalizers(apps: map<Key, AppService>, app: AppService, fault: Option<Error>)
    : Result<map<Key, AppService>>
  {
    var k := KeyOf(app.meta);
    if fault.Some? then Err(fault.value)
    else if k !in apps then Err(NotFound)
    else Ok(apps[k := apps[k].(meta := apps[k].meta.(finalizers := app.meta.finalizers))])
  }

  function WithApps(c: Cluster, r: Result<map<Key, AppService>>): Outcome {
    match r
    case Ok(m) => Outcome(c.(apps := m), None)
    case Err(e) => Outcome(c, Some(e))
  }

  function WithDeployments(c: Cluster, r: Result<map<Key, Deployment>>): Outcome {
    match r
    case Ok(m) => Outcome(c.(deployments := m), None)
    case Err(e) => Outcome(c, Some(e))
  }

  function WithServices(c: Cluster, r: Result<map<Key, Service>>): Outcome {
    match r
    case Ok(m) => Outcome(c.(services := m), None)
    case Err(e) => Outcome(c, Some(e))
  }

  /** The client the reconciler holds: the store's three maps, changed in place by its calls. */
  class Client {
    var apps: map<Key, AppService>
    var deployments: map<Key, Deployment>
    var services: map<Key, Service>

    function State(): Cluster
      reads this
    {
      Cluster(apps, deployments, services)
    }

    constructor (c: Cluster)
      ensures State() == c
    {
      apps, deployments, services := c.apps, c.deployments, c.services;
    }

    method GetApp(k: Key, fault: Option<Error>) returns (r: Result<AppService>)
      ensures r == Get(apps, k, fault)
    {
      if fault.Some? {
        r := Err(fault.value);
      } else if k in apps {
        r := Ok(apps[k]);
      } else {
        r := Err(NotFound);
      }
    }

    method GetDeployment(k: Key, fault: Option<Error>) returns (r: Result<Deployment>)
      ensures r == Get(deployments, k, fault)
    {
      if fault.Some? {
        r := Err(fault.value);
      } else if k in deployments {
        r := Ok(deployments[k]);
      } else {
        r := Err(NotFound);
      }
    }

    method GetService(k: Key, fault: Option<Error>) returns (r: Result<Service>)
      ensures r == Get(services, k, fault)
    {
      if fault.Some? {
        r := Err(fault.value);
      } else if k in services {
        r := Ok(services[k]);
      } else {
        r := Err(NotFound);
      }
    }

    method CreateDeployment(d: Deployment, fault: Option<Error>) returns (err: Option<Error>)
      modifies this
      ensures Outcome(State(), err)
              == WithDeployments(old(State()), Create(old(deployments), KeyOf(d.meta), d, fault))
    {
      var r := Create(deployments, KeyOf(d.meta), d, fault);
      if r.Err? {
        return Some(r.error);
      }
      deployments := r.value;
      return None;
    }

    method CreateService(s: Service, fault: Option<Error>) returns (err: Option<Error>)
      modifies this
      ensures Outcome(State(), err)
              == WithServices(old(State()), Create(old(services), KeyOf(s.meta), s, fault))
    {
      var r := Create(services, KeyOf(s.meta), s, fault);
      if r.Err? {
        return Some(r.error);
      }
      services := r.value;
      return None;
    }

    method UpdateApp(app: AppService, fault: Option<Error>) returns (err: Option<Error>)
      modifies this
      ensures Outcome(State(), err)
              == WithApps(old(State()), Update(old(apps), KeyOf(app.meta), app, fault))
    {
      var r := Update(apps, KeyOf(app.meta), app, fault);
      if r.Err? {
        return Some(r.error);
      }
      apps := r.value;
      return None;
    }

    method UpdateDeployment(d: Deployment, fault: Option<Error>) returns (err: Option<Error>)
      modifies this
      ensures Outcome(State(), err)
              == WithDeployments(old(State()), Update(old(deployments), KeyOf(d.meta), d, fault))
    {
      var r := Update(deployments, KeyOf(d.meta), d, fault);
      if r.Err? {
        return Some(r.error);
      }
      deployments := r.value;
      return None;
    }

    method UpdateService(s: Service, fault: Option<Error>) returns (err: Option<Error>)
      modifies this
      ensures Outcome(State(), err)
              == WithServices(old(State()), Update(old(services), KeyOf(s.meta), s, fault))
    {
      var r := Update(services, KeyOf(s.meta), s, fault);
      if r.Err? {
        return Some(r.error);
      }
      services := r.value;
      return None;
    }

    method PatchApp(app: AppService, fault: Option<Error>) returns (err: Option<Error>)
      modifies this
      ensures Outcome(State(), err) == WithApps(old(State()), PatchFinalizers(old(apps), app, fault))
    {
      var r := PatchFinalizers(apps, app, fault);
      if r.Err? {
        return Some(r.error);
      }
      apps := r.value;
      return None;
    }

    method DeleteDeployment(d: Deployment, fault: Option<Error>) returns (err: Option<Error>)
      modifies this
      ensures Outcome(State(), err)
              == WithDeployments(old(State()), Delete(old(deployments), KeyOf(d.meta), fault))
    {
      var r := Delete(deployments, KeyOf(d.meta), fault);
      if r.Err? {
        return Some(r.error);
      }
      deployments := r.value;
      return None;
    }

    method DeleteService(s: Service, fault: Option<Error>) returns (err: Option<Error>)
      modifies this
      ensures Outcome(State(), err)
              == WithServices(old(State()), Delete(old(services), KeyOf(s.meta), fault))
    {
      var r := Delete(services, KeyOf(s.meta), fault);
      if r.Err? {
        return Some(r.error);
      }
      services := r.value;
      return None;
    }
  }
}
