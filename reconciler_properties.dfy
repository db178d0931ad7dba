/**
 * What a reconciliation pass guarantees, stated over `ReconcilePass` and
 * therefore, through the postcondition of `AppServiceReconciler.Reconcile`,
 * over the imperative reconciler.
 *
 * The first group of lemmas gives the exact effect of each stage of a pass
 * (cleanup, create, update, finalizer and snapshot); the lemmas about whole
 * passes are assembled from them.
 */
module ReconcilerProperties {
  import opened ApiTypes
  import opened Store
  import opened Snapshot
  import opened Children
  import opened Reconciler

  /** The pass gets past the fetch with a live (not deleted) app. */
  predicate LiveApp(c: Cluster, req: Key, faults: Faults) {
    AppGet !in faults && req in c.apps && IsZeroTime(c.apps[req].meta.deletionTimestamp)
  }

  /** The pass gets past the fetch with an app marked for deletion. */
  predicate DeletedApp(c: Cluster, req: Key, faults: Faults) {
    AppGet !in faults && req in c.apps && !IsZeroTime(c.apps[req].meta.deletionTimestamp)
  }

  /** The app as a successful pass leaves it: finalizer ensured, then the snapshot recorded. */
  function Reconciled(codec: Codec, app: AppService): AppService {
    Recorded(codec, if FinalizerName in app.meta.finalizers then app else AddFinalizer(app))
  }

  // ---------------------------------------------------------------------
  // The stages of a pass

  /** Cleanup deletes the app's children, if anything, and nothing else. */
  lemma CleanupShape(c: Cluster, app: AppService, faults: Faults)
    requires Valid(c)
    ensures var o := CleanupPass(c, app, faults);
            var k := KeyOf(app.meta);
            && Valid(o.cluster)
            && o.cluster.apps == c.apps
            && (o.cluster.deployments == c.deployments || o.cluster.deployments == c.deployments - {k})
            && (o.cluster.services == c.services || o.cluster.services == c.services - {k})
  {
    var k := KeyOf(app.meta);
    var g := Get(c.deployments, k, At(faults, CleanupDeploymentGet));
    if g.Ok? {
      assert KeyOf(g.value.meta) == k;
    }
    var first :=
      match g
      case Err(_) => Outcome(c, None)
      case Ok(d) => WithDeployments(c, Delete(c.deployments, KeyOf(d.meta), At(faults, CleanupDeploymentDelete)));
    assert first.cluster.apps == c.apps && first.cluster.services == c.services;
    assert first.cluster.deployments == c.deployments || first.cluster.deployments == c.deployments - {k};
    var h := Get(first.cluster.services, k, At(faults, CleanupServiceGet));
    if h.Ok? {
      assert KeyOf(h.value.meta) == k;
    }
  }

  /** Creation writes the Deployment first and the Service only after it. */
  lemma CreateShape(c: Cluster, instance: AppService, faults: Faults)
    requires Valid(c)
    ensures var o := CreatePass(c, instance, faults);
            var k := KeyOf(instance.meta);
            && Valid(o.cluster)
            && o.cluster.apps == c.apps
            && (o.cluster.deployments == c.deployments || o.cluster.deployments == c.deployments[k := NewDeployment(instance)])
            && (o.cluster.services == c.services || o.cluster.services == c.services[k := NewService(instance)])
            && (o.err == None ==> k in o.cluster.deployments)
  {
    var k := KeyOf(instance.meta);
    var first := WithDeployments(c, Create(c.deployments, k, NewDeployment(instance), At(faults, DeploymentCreate)));
    assert first.cluster.deployments == c.deployments || first.cluster.deployments == c.deployments[k := NewDeployment(instance)];
    assert Valid(first.cluster);
    if first.err == None {
      assert k in first.cluster.deployments;
    }
  }

  /** The update path rewrites the stored children in place, the Deployment first. */
  lemma UpdateShape(c: Cluster, req: Key, instance: AppService, faults: Faults)
    requires Valid(c) && KeyOf(instance.meta) == req
    ensures var o := UpdatePass(c, req, instance, faults);
            && Valid(o.cluster)
            && o.cluster.apps == c.apps
            && (o.cluster.deployments == c.deployments
                || (req in c.deployments && o.cluster.deployments == c.deployments[req := Respecified(c.deployments[req], instance)]))
            && (o.cluster.services == c.services
                || (req in c.services && o.cluster.services == c.services[req := Reassigned(c.services[req], instance)]))
            && (o.err == None ==> req in o.cluster.deployments)
  {
    var g := Get(c.deployments, req, At(faults, DeploymentRefetch));
    if g.Ok? {
      assert KeyOf(g.value.meta) == req;
      var first := WithDeployments(c, Update(c.deployments, req, Respecified(g.value, instance), At(faults, DeploymentUpdate)));
      assert Valid(first.cluster);
      if first.err == None {
        var h := Get(first.cluster.services, req, At(faults, ServiceGet));
        if h.Ok? {
          assert KeyOf(h.value.meta) == req;
        }
      }
    }
  }

  /** Applying the children never writes the app, and a successful application leaves a Deployment. */
  lemma ChildrenShape(c: Cluster, codec: Codec, req: Key, instance: AppService, faults: Faults)
    requires Valid(c) && KeyOf(instance.meta) == req
    ensures var o := ChildrenPass(c, codec, req, instance, faults);
            && Valid(o.cluster)
            && o.cluster.apps == c.apps
            && (o.err == None ==> req in o.cluster.deployments)
  {
    match Get(c.deployments, req, At(faults, DeploymentGet))
    case Err(e) =>
      if e == NotFound {
        CreateShape(c, instance, faults);
      }
    case Ok(_) =>
      UpdateShape(c, req, instance, faults);
  }

  /** Writing the snapshot changes only the app's annotations, or nothing. */
  lemma SnapshotShape(c: Cluster, codec: Codec, instance: AppService, faults: Faults)
    requires Valid(c) && KeyOf(instance.meta) in c.apps
    ensures var o := SnapshotPass(c, codec, instance, faults);
            && Valid(o.cluster)
            && (o.cluster == c || o.cluster == c.(apps := c.apps[KeyOf(instance.meta) := Recorded(codec, instance)]))
            && (o.err == None ==> o.cluster == c.(apps := c.apps[KeyOf(instance.meta) := Recorded(codec, instance)]))
  {
    assert KeyOf(Recorded(codec, instance).meta) == KeyOf(instance.meta);
  }

  /** Recording adds the finalizer when it is missing, then writes the snapshot; nothing else. */
  lemma RecordShape(c: Cluster, codec: Codec, instance: AppService, faults: Faults)
    requires Valid(c) && KeyOf(instance.meta) in c.apps && c.apps[KeyOf(instance.meta)] == instance
    ensures var o := RecordPass(c, codec, instance, faults);
            var k := KeyOf(instance.meta);
            && Valid(o.cluster)
            && o.cluster.deployments == c.deployments
            && o.cluster.services == c.services
            && (|| o.cluster.apps == c.apps
                || o.cluster.apps == c.apps[k := AddFinalizer(instance)]
                || o.cluster.apps == c.apps[k := Reconciled(codec, instance)])
            && (o.err == None ==> o.cluster.apps == c.apps[k := Reconciled(codec, instance)])
  {
    var k := KeyOf(instance.meta);
    if FinalizerName !in instance.meta.finalizers {
      var withFinalizer := AddFinalizer(instance);
      assert c.apps[k].(meta := c.apps[k].meta.(finalizers := withFinalizer.meta.finalizers)) == withFinalizer;
      var r := PatchFinalizers(c.apps, withFinalizer, At(faults, FinalizerAdd));
      if r.Ok? {
        assert r.value == c.apps[k := withFinalizer];
        var c1 := c.(apps := r.value);
        assert Valid(c1);
        SnapshotShape(c1, codec, withFinalizer, faults);
      }
    } else {
      SnapshotShape(c, codec, instance, faults);
    }
  }

  /** A pass over a live app applies the children, then records, stopping at the first error. */
  lemma LivePass(c: Cluster, codec: Codec, req: Key, faults: Faults)
    requires LiveApp(c, req, faults)
    ensures var children := ChildrenPass(c, codec, req, c.apps[req], faults);
            ReconcilePass(c, codec, req, faults)
            == if children.err.Some? then children else RecordPass(children.cluster, codec, c.apps[req], faults)
  {
  }

  /** The finalizer added to a list without it occurs there exactly once. */
  lemma AddedFinalizerOnce(fs: seq<string>)
    requires FinalizerName !in fs
    ensures multiset(fs + [FinalizerName])[FinalizerName] == 1
  {
    assert multiset(fs)[FinalizerName] == 0;
    assert multiset(fs + [FinalizerName]) == multiset(fs) + multiset{FinalizerName};
  }

  // ---------------------------------------------------------------------
  // Fetch

  /** A failed fetch ends the pass with the store untouched; NotFound is success. */
  lemma FetchFailureEndsPass(c: Cluster, codec: Codec, req: Key, faults: Faults)
    requires Get(c.apps, req, At(faults, AppGet)).Err?
    ensures var e := Get(c.apps, req, At(faults, AppGet)).error;
            ReconcilePass(c, codec, req, faults) == Outcome(c, if e == NotFound then None else Some(e))
    ensures req !in c.apps && AppGet !in faults ==> ReconcilePass(c, codec, req, faults) == Outcome(c, None)
  {
  }

  // ---------------------------------------------------------------------
  // Deletion

  /**
   * A pass over an app marked for deletion never creates or updates a child
   * and never touches the app except to drop the finalizer, which happens
   * only after the cleanup succeeded; a cleanup error is returned with the
   * app as it was. Without the finalizer it writes nothing at all.
   */
  lemma DeletionNeverApplies(c: Cluster, codec: Codec, req: Key, faults: Faults)
    requires Valid(c) && DeletedApp(c, req, faults)
    ensures var o := ReconcilePass(c, codec, req, faults);
            && (o.cluster.deployments == c.deployments || o.cluster.deployments == c.deployments - {req})
            && (o.cluster.services == c.services || o.cluster.services == c.services - {req})
            && (o.cluster.apps == c.apps || o.cluster.apps == c.apps[req := DropFinalizer(c.apps[req])])
    ensures FinalizerName !in c.apps[req].meta.finalizers ==> ReconcilePass(c, codec, req, faults) == Outcome(c, None)
    ensures var o := ReconcilePass(c, codec, req, faults);
            o.cluster.apps != c.apps ==> CleanupPass(c, c.apps[req], faults).err == None
    ensures var o := ReconcilePass(c, codec, req, faults);
            var cleanup := CleanupPass(c, c.apps[req], faults);
            FinalizerName in c.apps[req].meta.finalizers && cleanup.err.Some? ==>
              o.err == cleanup.err && o.cluster.apps == c.apps
  {
    var app := c.apps[req];
    assert KeyOf(app.meta) == req;
    if FinalizerName in app.meta.finalizers {
      CleanupShape(c, app, faults);
      var cleanup := CleanupPass(c, app, faults);
      assert ReconcilePass(c, codec, req, faults) == FinalizePass(c, app, faults);
      assert cleanup.cluster.apps[req].(meta := app.meta.(finalizers := DropFinalizer(app).meta.finalizers))
             == DropFinalizer(app);
    }
  }

  /**
   * Without faults, deleting an app with the finalizer removes both children
   * and every copy of the finalizer, keeping the other finalizers once each.
   */
  lemma DeletionCleansUp(c: Cluster, codec: Codec, req: Key)
    requires Valid(c) && DeletedApp(c, req, map[])
    requires FinalizerName in c.apps[req].meta.finalizers
    ensures var o := ReconcilePass(c, codec, req, map[]);
            && o.err == None
            && o.cluster.deployments == c.deployments - {req}
            && o.cluster.services == c.services - {req}
            && o.cluster.apps == c.apps[req := DropFinalizer(c.apps[req])]
    ensures var fs := DropFinalizer(c.apps[req]).meta.finalizers;
            && FinalizerName !in fs
            && (forall x :: x in fs <==> x in c.apps[req].meta.finalizers && x != FinalizerName)
            && NoDuplicates(fs)
  {
    var app := c.apps[req];
    assert KeyOf(app.meta) == req;
    var first := WithDeployments(c, Delete(c.deployments, req, None));
    assert first.cluster.deployments == c.deployments - {req} by {
      if req in c.deployments {
        assert KeyOf(c.deployments[req].meta) == req;
      }
    }
    if req in c.services {
      assert KeyOf(c.services[req].meta) == req;
    }
    var cleanup := CleanupPass(c, app, map[]);
    assert cleanup == Outcome(c.(deployments := c.deployments - {req}, services := c.services - {req}), None);
  }

  /**
   * Each cleanup Get that fails skips its own child without failing the
   * pass: the other child is still deleted and the finalizer still removed.
   */
  lemma FailedCleanupLookupsAreSkipped(c: Cluster, codec: Codec, req: Key, faults: Faults)
    requires Valid(c) && DeletedApp(c, req, faults)
    requires FinalizerName in c.apps[req].meta.finalizers
    requires CleanupDeploymentDelete !in faults && CleanupServiceDelete !in faults && FinalizerRemove !in faults
    ensures var o := ReconcilePass(c, codec, req, faults);
            && o.err == None
            && o.cluster.apps == c.apps[req := DropFinalizer(c.apps[req])]
            && o.cluster.deployments == (if CleanupDeploymentGet in faults then c.deployments else c.deployments - {req})
            && o.cluster.services == (if CleanupServiceGet in faults then c.services else c.services - {req})
  {
    var app := c.apps[req];
    assert KeyOf(app.meta) == req;
    if req in c.deployments {
      assert KeyOf(c.deployments[req].meta) == req;
    }
    if req in c.services {
      assert KeyOf(c.services[req].meta) == req;
    }
    var cleanup := CleanupPass(c, app, faults);
    assert cleanup.err == None;
    assert cleanup.cluster.apps == c.apps;
    assert cleanup.cluster.deployments == (if CleanupDeploymentGet in faults then c.deployments else c.deployments - {req});
    assert cleanup.cluster.services == (if CleanupServiceGet in faults then c.services else c.services - {req});
  }

  // ---------------------------------------------------------------------
  // Create path

  /**
   * When the Deployment is missing, it is created before the Service; a
   * failed Deployment create creates no Service and writes nothing else, and
   * a failed Service create leaves the new Deployment in place and the app
   * untouched.
   */
  lemma CreatePathOrder(c: Cluster, codec: Codec, req: Key, faults: Faults)
    requires Valid(c) && LiveApp(c, req, faults)
    requires req !in c.deployments && DeploymentGet !in faults
    ensures var o := ReconcilePass(c, codec, req, faults);
            DeploymentCreate in faults ==> o == Outcome(c, Some(faults[DeploymentCreate]))
    ensures var o := ReconcilePass(c, codec, req, faults);
            DeploymentCreate !in faults ==>
              && o.cluster.deployments == c.deployments[req := NewDeployment(c.apps[req])]
              && (ServiceCreate in faults ==>
                    o == Outcome(c.(deployments := o.cluster.deployments), Some(faults[ServiceCreate])))
              && (ServiceCreate !in faults && req !in c.services ==>
                    o.cluster.services == c.services[req := NewService(c.apps[req])])
  {
    var app := c.apps[req];
    assert KeyOf(app.meta) == req;
    LivePass(c, codec, req, faults);
    var children := ChildrenPass(c, codec, req, app, faults);
    assert children == CreatePass(c, app, faults);
    if children.err == None {
      RecordShape(children.cluster, codec, app, faults);
    }
  }

  /** A Service left behind without its Deployment makes every create pass fail. */
  lemma LeftoverServiceBlocksCreate(c: Cluster, codec: Codec, req: Key)
    requires Valid(c) && LiveApp(c, req, map[])
    requires req !in c.deployments && req in c.services
    ensures var o := ReconcilePass(c, codec, req, map[]);
            && o.err == Some(AlreadyExists)
            && o.cluster == c.(deployments := c.deployments[req := NewDeployment(c.apps[req])])
  {
    assert KeyOf(c.apps[req].meta) == req;
    LivePass(c, codec, req, map[]);
  }

  /** Any error but NotFound from the Deployment lookup ends the pass at once. */
  lemma DeploymentLookupFailureEndsPass(c: Cluster, codec: Codec, req: Key, faults: Faults)
    requires LiveApp(c, req, faults)
    requires DeploymentGet in faults && faults[DeploymentGet] != NotFound
    ensures ReconcilePass(c, codec, req, faults) == Outcome(c, Some(faults[DeploymentGet]))
  {
    LivePass(c, codec, req, faults);
  }

  // ---------------------------------------------------------------------
  // Update path

  /** A snapshot that does not decode ends the pass before any write. */
  lemma MalformedSnapshotBlocksPass(c: Cluster, codec: Codec, req: Key, faults: Faults)
    requires LiveApp(c, req, faults)
    requires Get(c.deployments, req, At(faults, DeploymentGet)).Ok?
    requires codec.decode(SnapshotText(c.apps[req].meta.annotations)).None?
    ensures ReconcilePass(c, codec, req, faults) == Outcome(c, Some(MalformedSnapshot))
  {
    LivePass(c, codec, req, faults);
  }

  /** When the snapshot equals the spec, neither child is written. */
  lemma UnchangedSpecKeepsChildren(c: Cluster, codec: Codec, req: Key, faults: Faults)
    requires Valid(c) && LiveApp(c, req, faults)
    requires Get(c.deployments, req, At(faults, DeploymentGet)).Ok?
    requires LoadSnapshot(codec, c.apps[req].meta.annotations) == Ok(c.apps[req].spec)
    ensures var o := ReconcilePass(c, codec, req, faults);
            o.cluster.deployments == c.deployments && o.cluster.services == c.services
  {
    var app := c.apps[req];
    assert KeyOf(app.meta) == req;
    LivePass(c, codec, req, faults);
    assert ChildrenPass(c, codec, req, app, faults) == Outcome(c, None);
    RecordShape(c, codec, app, faults);
  }

  /**
   * When the snapshot differs from the spec, the Deployment gets the desired
   * spec and the Service gets the desired spec with its ClusterIP kept.
   */
  lemma ChangedSpecRewritesChildren(c: Cluster, codec: Codec, req: Key)
    requires Valid(c) && LiveApp(c, req, map[])
    requires req in c.deployments && req in c.services
    requires LoadSnapshot(codec, c.apps[req].meta.annotations).Ok?
    requires LoadSnapshot(codec, c.apps[req].meta.annotations).value != c.apps[req].spec
    ensures var o := ReconcilePass(c, codec, req, map[]);
            var app := c.apps[req];
            && o.err == None
            && o.cluster.deployments == c.deployments[req := Respecified(c.deployments[req], app)]
            && o.cluster.services == c.services[req := Reassigned(c.services[req], app)]
            && o.cluster.deployments[req].spec == NewDeployment(app).spec
            && o.cluster.deployments[req].meta == c.deployments[req].meta
            && o.cluster.services[req].spec.clusterIP == c.services[req].spec.clusterIP
            && o.cluster.services[req].spec.(clusterIP := "") == NewService(app).spec
  {
    var app := c.apps[req];
    assert KeyOf(app.meta) == req;
    assert KeyOf(c.deployments[req].meta) == req;
    assert KeyOf(c.services[req].meta) == req;
    LivePass(c, codec, req, map[]);
    var children := ChildrenPass(c, codec, req, app, map[]);
    assert children == UpdatePass(c, req, app, map[]);
    assert children.err == None;
    RecordShape(children.cluster, codec, app, map[]);
  }

  /**
   * A missing Service on the update path is an error: the Deployment update
   * already made stays, the Service is not recreated and the app is not
   * written.
   */
  lemma MissingServiceIsNotRecreated(c: Cluster, codec: Codec, req: Key)
    requires Valid(c) && LiveApp(c, req, map[])
    requires req in c.deployments && req !in c.services
    requires LoadSnapshot(codec, c.apps[req].meta.annotations).Ok?
    requires LoadSnapshot(codec, c.apps[req].meta.annotations).value != c.apps[req].spec
    ensures ReconcilePass(c, codec, req, map[])
            == Outcome(c.(deployments := c.deployments[req := Respecified(c.deployments[req], c.apps[req])]),
                       Some(NotFound))
  {
    assert KeyOf(c.deployments[req].meta) == req;
    LivePass(c, codec, req, map[]);
  }

  // ---------------------------------------------------------------------
  // Finalizer and snapshot

  /**
   * A successful pass over a live app leaves the Deployment in place, the
   * finalizer present exactly once if it was absent (and the list untouched
   * otherwise), and the spec annotation holding the encoded spec with every
   * other annotation as it was.
   */
  lemma SuccessfulPassRecords(c: Cluster, codec: Codec, req: Key, faults: Faults)
    requires Valid(c) && LiveApp(c, req, faults)
    requires ReconcilePass(c, codec, req, faults).err == None
    ensures var o := ReconcilePass(c, codec, req, faults);
            var app := c.apps[req];
            && Valid(o.cluster)
            && req in o.cluster.deployments
            && o.cluster.apps == c.apps[req := Reconciled(codec, app)]
    ensures var app := c.apps[req];
            var after := Reconciled(codec, app);
            && after.spec == app.spec
            && after.meta.deletionTimestamp == app.meta.deletionTimestamp
            && (FinalizerName in app.meta.finalizers ==> after.meta.finalizers == app.meta.finalizers)
            && (FinalizerName !in app.meta.finalizers ==>
                  after.meta.finalizers == app.meta.finalizers + [FinalizerName]
                  && multiset(after.meta.finalizers)[FinalizerName] == 1)
            && after.meta.annotations.Some?
            && after.meta.annotations.value[SpecAnnotation] == codec.encode(app.spec)
            && (forall k :: k != SpecAnnotation ==>
                  (k in after.meta.annotations.value <==> app.meta.annotations.Some? && k in app.meta.annotations.value))
  {
    var app := c.apps[req];
    assert KeyOf(app.meta) == req;
    LivePass(c, codec, req, faults);
    ChildrenShape(c, codec, req, app, faults);
    var children := ChildrenPass(c, codec, req, app, faults);
    RecordShape(children.cluster, codec, app, faults);
    if FinalizerName !in app.meta.finalizers {
      AddedFinalizerOnce(app.meta.finalizers);
    }
  }

  /** Writes happen in order: children, then the finalizer, then the snapshot. */
  lemma WritesFollowPassOrder(c: Cluster, codec: Codec, req: Key, faults: Faults)
    requires Valid(c) && LiveApp(c, req, faults)
    ensures var o := ReconcilePass(c, codec, req, faults);
            o.cluster.apps != c.apps ==>
              req in o.cluster.apps && req in o.cluster.deployments
              && FinalizerName in o.cluster.apps[req].meta.finalizers
    ensures var o := ReconcilePass(c, codec, req, faults);
            o.cluster.apps != c.apps ==> ChildrenPass(c, codec, req, c.apps[req], faults).err == None
    ensures var o := ReconcilePass(c, codec, req, faults);
            req in o.cluster.apps && o.cluster.apps[req].meta.annotations != c.apps[req].meta.annotations ==>
              o.err == None
  {
    var app := c.apps[req];
    assert KeyOf(app.meta) == req;
    LivePass(c, codec, req, faults);
    ChildrenShape(c, codec, req, app, faults);
    var children := ChildrenPass(c, codec, req, app, faults);
    if children.err == None {
      RecordShape(children.cluster, codec, app, faults);
    }
  }

  // ---------------------------------------------------------------------
  // Store invariant, idempotence and convergence

  /** Every pass keeps each object stored under its own name. */
  lemma ReconcilePreservesValid(c: Cluster, codec: Codec, req: Key, faults: Faults)
    requires Valid(c)
    ensures Valid(ReconcilePass(c, codec, req, faults).cluster)
  {
    if AppGet !in faults && req in c.apps {
      var app := c.apps[req];
      assert KeyOf(app.meta) == req;
      if !IsZeroTime(app.meta.deletionTimestamp) {
        DeletionNeverApplies(c, codec, req, faults);
      } else {
        LivePass(c, codec, req, faults);
        ChildrenShape(c, codec, req, app, faults);
        var children := ChildrenPass(c, codec, req, app, faults);
        RecordShape(children.cluster, codec, app, faults);
      }
    }
  }

  /**
   * The state a successful pass over a live app leaves behind: the
   * Deployment exists and the app carries the finalizer and a snapshot of
   * its current spec, so that recording it again changes nothing.
   */
  predicate Settled(c: Cluster, codec: Codec, req: Key) {
    && req in c.apps && req in c.deployments
    && IsZeroTime(c.apps[req].meta.deletionTimestamp)
    && FinalizerName in c.apps[req].meta.finalizers
    && LoadSnapshot(codec, c.apps[req].meta.annotations) == Ok(c.apps[req].spec)
    && Recorded(codec, c.apps[req]) == c.apps[req]
  }

  /** A successful pass over a live app settles it. */
  lemma SuccessfulPassSettles(c: Cluster, codec: Codec, req: Key, faults: Faults)
    requires ValidCodec(codec)
    requires Valid(c) && LiveApp(c, req, faults)
    requires ReconcilePass(c, codec, req, faults).err == None
    ensures Valid(ReconcilePass(c, codec, req, faults).cluster)
    ensures Settled(ReconcilePass(c, codec, req, faults).cluster, codec, req)
  {
    var app := c.apps[req];
    SuccessfulPassRecords(c, codec, req, faults);
    var after := Reconciled(codec, app);
    SnapshotRoundTrip(codec, app.meta.annotations, app.spec);
    assert LoadSnapshot(codec, after.meta.annotations) == Ok(after.spec);
    WithSnapshotAgain(after.meta.annotations.value, codec.encode(after.spec));
  }

  /** A pass over a settled app writes nothing, whatever calls fail, and succeeds when none does. */
  lemma SettledPassChangesNothing(c: Cluster, codec: Codec, req: Key, faults: Faults)
    requires Valid(c) && Settled(c, codec, req)
    ensures ReconcilePass(c, codec, req, faults).cluster == c
    ensures faults == map[] ==> ReconcilePass(c, codec, req, faults) == Outcome(c, None)
  {
    if AppGet !in faults {
      var app := c.apps[req];
      assert KeyOf(app.meta) == req;
      LivePass(c, codec, req, faults);
      assert ChildrenPass(c, codec, req, app, faults).cluster == c;
      assert c.apps[req := app] == c.apps;
    }
  }

  /**
   * Idempotence: after a successful pass over a live app, another pass
   * writes nothing, whatever calls fail in it, and succeeds when none does.
   */
  lemma SecondPassChangesNothing(c: Cluster, codec: Codec, req: Key, faults: Faults, again: Faults)
    requires ValidCodec(codec)
    requires Valid(c) && LiveApp(c, req, faults)
    requires ReconcilePass(c, codec, req, faults).err == None
    ensures var o := ReconcilePass(c, codec, req, faults);
            ReconcilePass(o.cluster, codec, req, again).cluster == o.cluster
    ensures var o := ReconcilePass(c, codec, req, faults);
            ReconcilePass(o.cluster, codec, req, map[]) == Outcome(o.cluster, None)
  {
    SuccessfulPassSettles(c, codec, req, faults);
    var c1 := ReconcilePass(c, codec, req, faults).cluster;
    SettledPassChangesNothing(c1, codec, req, again);
    SettledPassChangesNothing(c1, codec, req, map[]);
  }

  /**
   * Convergence: once an app is settled and has its Service, changing its
   * spec to a different one is applied by the next fault-free pass, which
   * settles it again; the Service keeps the ClusterIP it had.
   */
  lemma ChangedSpecConverges(c: Cluster, codec: Codec, req: Key, spec: AppServiceSpec)
    requires ValidCodec(codec)
    requires Valid(c) && Settled(c, codec, req) && req in c.services
    requires spec != c.apps[req].spec
    ensures var edited := c.apps[req].(spec := spec);
            var o := ReconcilePass(c.(apps := c.apps[req := edited]), codec, req, map[]);
            && o.err == None
            && Settled(o.cluster, codec, req)
            && req in o.cluster.services
            && o.cluster.deployments[req].spec == NewDeployment(edited).spec
            && o.cluster.services[req].spec.clusterIP == c.services[req].spec.clusterIP
            && o.cluster.apps[req].spec == spec
  {
    var edited := c.apps[req].(spec := spec);
    var c2 := c.(apps := c.apps[req := edited]);
    assert KeyOf(edited.meta) == req;
    assert Valid(c2);
    assert LoadSnapshot(codec, edited.meta.annotations) == Ok(c.apps[req].spec);
    ChangedSpecRewritesChildren(c2, codec, req);
    SuccessfulPassSettles(c2, codec, req, map[]);
    SuccessfulPassRecords(c2, codec, req, map[]);
  }
}
