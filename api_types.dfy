/**
 * The resource types the controller reads and writes: the AppService custom
 * resource and the parts of the Kubernetes Deployment and Service objects
 * that the controller builds or touches.
 *
 * A Go nil map, nil slice or nil `*T` that the code distinguishes from an
 * empty one is an `Option`; fields the code only copies through are plain values.
 */
module ApiTypes {

  datatype Option<+T> = None | Some(value: T)

  /** Go's `int32`, the width of replica counts and port numbers. */
  newtype int32 = x: int | -0x8000_0000 <= x < 0x8000_0000

  /** A namespaced name, the key under which the API server stores an object. */
  datatype Key = Key(namespace: string, name: string)

  /** `metav1.Time`: an instant counted from Go's zero time; `None` is nil. */
  type Timestamp = Option<int>

  /** `metav1.Time.IsZero`: true for nil and for the zero instant. */
  predicate IsZeroTime(t: Timestamp) {
    t.None? || t.value == 0
  }

  datatype OwnerReference = OwnerReference(
    apiVersion: string,
    kind: string,
    name: string,
    uid: string,
    controller: bool,
    blockOwnerDeletion: bool)

  datatype ObjectMeta = ObjectMeta(
    name: string,
    namespace: string,
    uid: string,
    labels: Option<map<string, string>>,
    annotations: Option<map<string, string>>,
    finalizers: seq<string>,
    deletionTimestamp: Timestamp,
    ownerReferences: Option<seq<OwnerReference>>)

  /** An ObjectMeta with every field at its zero value. */
  function EmptyMeta(): ObjectMeta {
    ObjectMeta("", "", "", None, None, [], None, None)
  }

  function KeyOf(meta: ObjectMeta): Key {
    Key(meta.namespace, meta.name)
  }

  /** `intstr.IntOrString`: `intVal` is read whatever `isString` says. */
  datatype IntOrString = IntOrString(isString: bool, intVal: int32, strVal: string)

  datatype ServicePort = ServicePort(
    name: string,
    protocol: string,
    port: int32,
    targetPort: IntOrString,
    nodePort: int32)

  datatype EnvVar = EnvVar(name: string, value: string)

  datatype ResourceRequirements = ResourceRequirements(
    limits: map<string, string>,
    requests: map<string, string>)

  /** The user-authored desired state of an application. */
  datatype AppServiceSpec = AppServiceSpec(
    replicas: Option<int32>,
    image: string,
    resources: ResourceRequirements,
    envs: seq<EnvVar>,
    ports: seq<ServicePort>)

  /** The spec that the JSON text `{}` decodes to. */
  function ZeroSpec(): AppServiceSpec {
    AppServiceSpec(None, "", ResourceRequirements(map[], map[]), [], [])
  }

  datatype AppService = AppService(kind: string, meta: ObjectMeta, spec: AppServiceSpec)

  datatype ContainerPort = ContainerPort(
    name: string,
    hostPort: int32,
    containerPort: int32,
    protocol: string,
    hostIP: string)

  datatype Container = Container(
    name: string,
    image: string,
    resources: ResourceRequirements,
    ports: seq<ContainerPort>,
    imagePullPolicy: string,
    env: seq<EnvVar>)

  datatype Volume = Volume(name: string)

  datatype PodSpec = PodSpec(
    containers: Option<seq<Container>>,
    initContainers: Option<seq<Container>>,
    volumes: Option<seq<Volume>>)

  datatype PodTemplateSpec = PodTemplateSpec(meta: ObjectMeta, spec: PodSpec)

  datatype LabelSelector = LabelSelector(matchLabels: Option<map<string, string>>)

  datatype DeploymentSpec = DeploymentSpec(
    replicas: Option<int32>,
    selector: Option<LabelSelector>,
    template: PodTemplateSpec)

  datatype Deployment = Deployment(meta: ObjectMeta, spec: DeploymentSpec)

  datatype ServiceSpec = ServiceSpec(
    serviceType: string,
    ports: seq<ServicePort>,
    selector: Option<map<string, string>>,
    clusterIP: string)

  datatype Service = Service(meta: ObjectMeta, spec: ServiceSpec)
}
