/**
 * The child objects the controller derives from an AppService
 * (NewDeployment, newContainer, NewService and ensureInitialized in
 * internal/controller/appservice_controller.go).
 */
module Children {
  import opened ApiTypes

  const AppLabelKey: string := "app"
  const PullIfNotPresent: string := "IfNotPresent"
  const ServiceTypeNodePort: string := "NodePort"
  /** The group and version of the AppService kind, `batch.appservice.com/v1`. */
  const AppServiceGroupVersion: string := "batch.appservice.com/v1"

  /** `{"app": name}`: the pod labels and the selector of both children. */
  function AppLabels(app: AppService): (labels: map<string, string>)
    ensures labels.Keys == {AppLabelKey} && labels[AppLabelKey] == app.meta.name
  {
    map[AppLabelKey := app.meta.name]
  }

  /** `metav1.NewControllerRef`: the app as the controlling owner of a child. */
  function ControllerRef(app: AppService): OwnerReference {
    OwnerReference(AppServiceGroupVersion, app.kind, app.meta.name, app.meta.uid, true, true)
  }

  /** The metadata shared by both children: the app's name and namespace, owned by the app. */
  function ChildMeta(app: AppService): ObjectMeta {
    EmptyMeta().(name := app.meta.name, namespace := app.meta.namespace,
                 ownerReferences := Some([ControllerRef(app)]))
  }

  /** A container port that exposes the target port of a service port. */
  function ContainerPortFor(p: ServicePort): ContainerPort {
    ContainerPort("", 0, p.targetPort.intVal, "", "")
  }

  function ContainerPorts(ports: seq<ServicePort>): seq<ContainerPort> {
    seq(|ports|, i requires 0 <= i < |ports| => ContainerPortFor(ports[i]))
  }

  /** The one container of the pod template. */
  function AppContainer(app: AppService): Container {
    Container(app.meta.name, app.spec.image, app.spec.resources,
              ContainerPorts(app.spec.ports), PullIfNotPresent, app.spec.envs)
  }

  /**
   * `newContainer`: one container named after the app, with one port per
   * service port, in order, each exposing that port's target port.
   */
  method NewContainer(app: AppService) returns (containers: seq<Container>)
    ensures containers == [AppContainer(app)]
    ensures |containers| == 1 && containers[0].name == app.meta.name && containers[0].image == app.spec.image
    ensures |containers[0].ports| == |app.spec.ports|
    ensures forall i :: 0 <= i < |app.spec.ports| ==>
              containers[0].ports[i].containerPort == app.spec.ports[i].targetPort.intVal
  {
    var containerPorts: seq<ContainerPort> := [];
    for i := 0 to |app.spec.ports|
      invariant |containerPorts| == i
      invariant forall k :: 0 <= k < i ==> containerPorts[k] == ContainerPortFor(app.spec.ports[k])
    {
      var cport := ContainerPort("", 0, 0, "", "");
      cport := cport.(containerPort := app.spec.ports[i].targetPort.intVal);
      containerPorts := containerPorts + [cport];
    }
    assert containerPorts == ContainerPorts(app.spec.ports);
    containers := [Container(app.meta.name, app.spec.image, app.spec.resources,
                             containerPorts, PullIfNotPresent, app.spec.envs)];
  }

  /**
   * `NewDeployment`: the desired Deployment. Its selector selects exactly the
   * pods its template labels, it copies the replica count and it runs one
   * container named after the app.
   */
  function NewDeployment(app: AppService): (d: Deployment)
    ensures KeyOf(d.meta) == KeyOf(app.meta)
    ensures d.meta.ownerReferences == Some([ControllerRef(app)])
    ensures d.spec.replicas == app.spec.replicas
    ensures d.spec.selector == Some(LabelSelector(d.spec.template.meta.labels))
    ensures d.spec.template.meta.labels == Some(AppLabels(app))
    ensures d.spec.template.spec.containers == Some([AppContainer(app)])
  {
    var labels := AppLabels(app);
    var selector := LabelSelector(Some(labels));
    Deployment(
      ChildMeta(app),
      DeploymentSpec(
        app.spec.replicas,
        Some(selector),
        PodTemplateSpec(
          EmptyMeta().(labels := Some(labels)),
          PodSpec(Some([AppContainer(app)]), None, None))))
  }

  /**
   * `NewService`: the desired Service, a NodePort service that exposes the
   * app's ports verbatim and selects the app's pods.
   */
  function NewService(app: AppService): (s: Service)
    ensures KeyOf(s.meta) == KeyOf(app.meta)
    ensures s.meta.ownerReferences == Some([ControllerRef(app)])
    ensures s.spec.serviceType == ServiceTypeNodePort
    ensures s.spec.ports == app.spec.ports
    ensures s.spec.selector == Some(AppLabels(app))
    ensures s.spec.clusterIP == ""
  {
    Service(
      ChildMeta(app),
      ServiceSpec(ServiceTypeNodePort, app.spec.ports, Some(map[AppLabelKey := app.meta.name]), ""))
  }

  /** The Service routes to exactly the pods the Deployment runs, on ports its container exposes. */
  lemma ServiceTargetsDeploymentPods(app: AppService)
    ensures NewService(app).spec.selector == NewDeployment(app).spec.template.meta.labels
    ensures |NewService(app).spec.ports| == |NewDeployment(app).spec.template.spec.containers.value[0].ports|
    ensures forall i :: 0 <= i < |app.spec.ports| ==>
              NewService(app).spec.ports[i].targetPort.intVal
              == NewDeployment(app).spec.template.spec.containers.value[0].ports[i].containerPort
  {
  }

  /** The seven fields `ensureInitialized` fills are all non-nil. */
  predicate Initialized(d: Deployment) {
    && d.spec.template.meta.labels.Some?
    && d.spec.template.meta.annotations.Some?
    && d.spec.selector.Some?
    && d.spec.template.spec.containers.Some?
    && d.spec.template.spec.initContainers.Some?
    && d.spec.template.spec.volumes.Some?
    && d.meta.ownerReferences.Some?
  }

  /** `after` keeps a non-nil `before` and replaces a nil one with `empty`. */
  predicate FillsOnlyNil<T(==)>(before: Option<T>, after: Option<T>, empty: T) {
    after == if before.None? then Some(empty) else before
  }

  /**
   * `ensureInitialized` (never called): replaces the nil fields among the
   * template labels and annotations, the selector, the containers, init
   * containers and volumes, and the owner references with empty values.
   */
  method EnsureInitialized(d: Deployment) returns (r: Deployment)
    ensures Initialized(r)
    ensures Initialized(d) ==> r == d
    ensures FillsOnlyNil(d.spec.template.meta.labels, r.spec.template.meta.labels, map[])
    ensures FillsOnlyNil(d.spec.template.meta.annotations, r.spec.template.meta.annotations, map[])
    ensures FillsOnlyNil(d.spec.selector, r.spec.selector, LabelSelector(None))
    ensures FillsOnlyNil(d.spec.template.spec.containers, r.spec.template.spec.containers, [])
    ensures FillsOnlyNil(d.spec.template.spec.initContainers, r.spec.template.spec.initContainers, [])
    ensures FillsOnlyNil(d.spec.template.spec.volumes, r.spec.template.spec.volumes, [])
    ensures FillsOnlyNil(d.meta.ownerReferences, r.meta.ownerReferences, [])
    ensures r.meta.(ownerReferences := d.meta.ownerReferences) == d.meta
    ensures r.spec.replicas == d.spec.replicas
    ensures r.spec.template.meta.(labels := d.spec.template.meta.labels,
                                  annotations := d.spec.template.meta.annotations)
            == d.spec.template.meta
  {
    var labels := d.spec.template.meta.labels;
    if labels.None? {
      labels := Some(map[]);
    }
    var annotations := d.spec.template.meta.annotations;
    if annotations.None? {
      annotations := Some(map[]);
    }
    var selector := d.spec.selector;
    if selector.None? {
      selector := Some(LabelSelector(None));
    }
    var containers := d.spec.template.spec.containers;
    if containers.None? {
      containers := Some([]);
    }
    var initContainers := d.spec.template.spec.initContainers;
    if initContainers.None? {
      initContainers := Some([]);
    }
    var volumes := d.spec.template.spec.volumes;
    if volumes.None? {
      volumes := Some([]);
    }
    var ownerReferences := d.meta.ownerReferences;
    if ownerReferences.None? {
      ownerReferences := Some([]);
    }
    var template := d.spec.template;
    template := template.(meta := template.meta.(labels := labels, annotations := annotations));
    template := template.(spec := template.spec.(containers := containers, initContainers := initContainers,
                                                 volumes := volumes));
    r := d.(meta := d.meta.(ownerReferences := ownerReferences),
            spec := d.spec.(selector := selector, template := template));
  }
}
