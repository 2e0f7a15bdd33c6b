/** The Kubernetes objects the replicator reads and writes, reduced to the
    fields that replicate.go touches, the two cluster stores it talks to and
    the trace of API calls it issues. */
module Kube {

  datatype Option<+T> = None | Some(value: T)

  /** The outcome of one function that has its own `recover` boundary: it
      either ran to the end or a panic ended its loop early. */
  datatype Outcome = Ok | Panicked

  type Name = string
  type Labels = map<string, string>
  type Bytes = seq<bv8>

  /** The elements of `s` that satisfy `p`, in their order in `s`. */
  function Filter<T(!new)>(s: seq<T>, p: T -> bool): (r: seq<T>)
    ensures |r| <= |s|
    ensures forall x :: x in r <==> x in s && p(x)
  {
    if s == [] then []
    else Filter(s[..|s| - 1], p) + (if p(s[|s| - 1]) then [s[|s| - 1]] else [])
  }

  lemma {:induction false} FilterAppend<T(!new)>(a: seq<T>, b: seq<T>, p: T -> bool)
    ensures Filter(a + b, p) == Filter(a, p) + Filter(b, p)
    decreases |b|
  {
    if b == [] {
      assert a + b == a;
    } else {
      assert (a + b)[..|a + b| - 1] == a + b[..|b| - 1];
      FilterAppend(a, b[..|b| - 1], p);
    }
  }

  lemma AppendAssoc<T>(a: seq<T>, b: seq<T>, c: seq<T>)
    ensures a + b + c == a + (b + c)
  {
  }

  // ---------------------------------------------------------------- objects

  datatype ObjectMeta = ObjectMeta(
    name: Name,
    namespace: string,
    labels: Labels,
    annotations: map<string, string>)

  /** The metadata of a zero-valued object, as a failed Get hands back. */
  const EmptyMeta := ObjectMeta("", "", map[], map[])

  datatype ConfigMap = ConfigMap(
    meta: ObjectMeta,
    data: map<string, string>,
    binaryData: map<string, Bytes>)

  datatype Secret = Secret(
    meta: ObjectMeta,
    data: map<string, Bytes>,
    secretType: string)

  datatype LabelSelector = LabelSelector(matchLabels: Labels)

  /** The claim's spec; `selector` may be nil in the API. */
  datatype ClaimSpec = ClaimSpec(
    selector: Option<LabelSelector>,
    volumeName: string,
    storageClassName: string,
    storageRequest: string)

  datatype PersistentVolumeClaim = PersistentVolumeClaim(meta: ObjectMeta, spec: ClaimSpec)

  datatype PersistentVolume = PersistentVolume(
    meta: ObjectMeta,
    capacity: string,
    storageClassName: string)

  // ------------------------------------------------------------- pod specs

  datatype KeySelector = KeySelector(name: Name, key: string)

  /** `valueFrom` of an environment variable: either reference may be nil. */
  datatype EnvVarSource = EnvVarSource(
    configMapKeyRef: Option<KeySelector>,
    secretKeyRef: Option<KeySelector>)

  datatype EnvVar = EnvVar(name: string, value: string, valueFrom: Option<EnvVarSource>)

  /** `envFrom` entry; each reference, when present, names a whole object. */
  datatype EnvFromSource = EnvFromSource(
    prefix: string,
    configMapRef: Option<Name>,
    secretRef: Option<Name>)

  datatype ClaimVolumeSource = ClaimVolumeSource(claimName: Name, readOnly: bool)

  /** A pod volume with the sources the replicator distinguishes; a Secret
      volume is kept so that the model shows it is not extracted. */
  datatype Volume = Volume(
    name: string,
    configMap: Option<Name>,
    secret: Option<Name>,
    persistentVolumeClaim: Option<ClaimVolumeSource>)

  datatype Container = Container(
    name: string,
    image: string,
    env: seq<EnvVar>,
    envFrom: seq<EnvFromSource>)

  datatype PodSpec = PodSpec(containers: seq<Container>, volumes: seq<Volume>)

  datatype Pod = Pod(meta: ObjectMeta, spec: PodSpec, phase: string)

  const Running := "Running"

  predicate IsRunning(p: Pod) { p.phase == Running }

  // -------------------------------------------------------------- clusters

  /** What the source cluster answers. `volumesBySelector` is the answer of
      the PersistentVolume List for a claim's match labels (a selector the
      server does not match, or a List that fails, yields no volumes);
      `podListFails` says whether the initial Pod List returns an error. */
  datatype SourceCluster = SourceCluster(
    configMaps: map<Name, ConfigMap>,
    secrets: map<Name, Secret>,
    claims: map<Name, PersistentVolumeClaim>,
    volumesBySelector: map<Labels, seq<PersistentVolume>>,
    pods: seq<Pod>,
    podListFails: bool)

  /** The objects of the target cluster, by kind and name. */
  datatype TargetCluster = TargetCluster(
    configMaps: map<Name, ConfigMap>,
    secrets: map<Name, Secret>,
    claims: map<Name, PersistentVolumeClaim>,
    volumes: map<Name, PersistentVolume>,
    pods: map<Name, Pod>)

  // ------------------------------------------------------------ call trace

  datatype Side = Source | Target

  datatype Kind = ConfigMapKind | SecretKind | ClaimKind | VolumeKind | PodKind

  datatype Object =
    | ConfigMapObject(configMap: ConfigMap)
    | SecretObject(secret: Secret)
    | ClaimObject(claim: PersistentVolumeClaim)
    | VolumeObject(volume: PersistentVolume)
    | PodObject(pod: Pod)

  function ObjectKind(obj: Object): Kind {
    match obj
    case ConfigMapObject(_) => ConfigMapKind
    case SecretObject(_) => SecretKind
    case ClaimObject(_) => ClaimKind
    case VolumeObject(_) => VolumeKind
    case PodObject(_) => PodKind
  }

  function ObjectMetaOf(obj: Object): ObjectMeta {
    match obj
    case ConfigMapObject(c) => c.meta
    case SecretObject(s) => s.meta
    case ClaimObject(c) => c.meta
    case VolumeObject(v) => v.meta
    case PodObject(p) => p.meta
  }

  /** One API call. A List of cluster-scoped volumes has namespace "". */
  datatype Event =
    | Get(side: Side, kind: Kind, namespace: string, name: Name)
    | List(side: Side, kind: Kind, namespace: string, selector: Labels)
    | Create(side: Side, obj: Object)

  function EventKind(e: Event): Kind {
    match e
    case Get(_, k, _, _) => k
    case List(_, k, _, _) => k
    case Create(_, obj) => ObjectKind(obj)
  }
}
