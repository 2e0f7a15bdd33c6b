/** The dependency scan of `replicatePods` (replicate.go:135-172): for one
    Pod spec it collects, without removing duplicates, the names of the
    ConfigMaps, Secrets and PersistentVolumeClaims the Pod refers to. The scan
    walks each container's `env`, then its `envFrom`, container by container,
    and then the volumes. */
module Extractor {
  import opened Kube

  datatype Dependencies = Dependencies(configMaps: seq<Name>, secrets: seq<Name>, claims: seq<Name>)

  /** The scan either yields the three name lists or panics at
      replicate.go:147, which reads `ConfigMapKeyRef.Name` for a Secret key
      reference and so dereferences nil when the variable has no ConfigMap
      key reference. */
  datatype Extraction = Extracted(deps: Dependencies) | NilConfigMapKeyRef

  /** `f` applied to each element of `s`, the results concatenated in order. */
  function FlatMap<T, U>(s: seq<T>, f: T -> seq<U>): seq<U>
    decreases |s|
  {
    if s == [] then [] else FlatMap(s[..|s| - 1], f) + f(s[|s| - 1])
  }

  // ------------------------------------------- what each element contributes

  function ConfigMapKeyRefName(e: EnvVar): seq<Name> {
    if e.valueFrom.Some? && e.valueFrom.value.configMapKeyRef.Some?
    then [e.valueFrom.value.configMapKeyRef.value.name] else []
  }

  /** An environment variable on which line 147 dereferences nil. */
  predicate DerefsNilConfigMapKeyRef(e: EnvVar) {
    e.valueFrom.Some? && e.valueFrom.value.secretKeyRef.Some? && e.valueFrom.value.configMapKeyRef.None?
  }

  /** What line 147 appends to the Secret list for a Secret key reference:
      the name of the same variable's ConfigMap key reference. */
  function SecretKeyRefNameAsWritten(e: EnvVar): seq<Name> {
    if e.valueFrom.Some? && e.valueFrom.value.secretKeyRef.Some? && e.valueFrom.value.configMapKeyRef.Some?
    then [e.valueFrom.value.configMapKeyRef.value.name] else []
  }

  function EnvFromConfigMapName(f: EnvFromSource): seq<Name> {
    if f.configMapRef.Some? then [f.configMapRef.value] else []
  }

  function EnvFromSecretName(f: EnvFromSource): seq<Name> {
    if f.secretRef.Some? then [f.secretRef.value] else []
  }

  function ContainerConfigMapNames(c: Container): seq<Name> {
    FlatMap(c.env, ConfigMapKeyRefName) + FlatMap(c.envFrom, EnvFromConfigMapName)
  }

  function ContainerSecretNames(c: Container): seq<Name> {
    FlatMap(c.env, SecretKeyRefNameAsWritten) + FlatMap(c.envFrom, EnvFromSecretName)
  }

  predicate MountsConfigMap(v: Volume) { v.configMap.Some? }

  predicate MountsClaim(v: Volume) { v.persistentVolumeClaim.Some? }

  function VolumeConfigMapName(v: Volume): seq<Name> {
    if v.configMap.Some? then [v.configMap.value] else []
  }

  function VolumeClaimName(v: Volume): seq<Name> {
    if v.persistentVolumeClaim.Some? then [v.persistentVolumeClaim.value.claimName] else []
  }

  predicate ReadsConfigMapKey(e: EnvVar) {
    e.valueFrom.Some? && e.valueFrom.value.configMapKeyRef.Some?
  }

  predicate ImportsConfigMap(f: EnvFromSource) { f.configMapRef.Some? }

  /** How many ConfigMap references the containers hold: environment
      variables with a ConfigMap key reference and envFrom ConfigMap
      references, counted one by one. */
  function ContainerConfigMapReferences(cs: seq<Container>): nat
    decreases |cs|
  {
    if cs == [] then 0
    else
      var c := cs[|cs| - 1];
      ContainerConfigMapReferences(cs[..|cs| - 1])
        + |Filter(c.env, ReadsConfigMapKey)| + |Filter(c.envFrom, ImportsConfigMap)|
  }

  predicate EnvDerefsNil(env: seq<EnvVar>) {
    exists e :: e in env && DerefsNilConfigMapKeyRef(e)
  }

  /** Whether the walk over the containers meets such a variable. */
  predicate ContainersDerefNil(cs: seq<Container>)
    decreases |cs|
  {
    cs != [] && (ContainersDerefNil(cs[..|cs| - 1]) || EnvDerefsNil(cs[|cs| - 1].env))
  }

  /** The result of the scan of a Pod spec. */
  function Extract(spec: PodSpec): Extraction {
    if ContainersDerefNil(spec.containers) then NilConfigMapKeyRef
    else Extracted(Dependencies(
      FlatMap(spec.containers, ContainerConfigMapNames) + FlatMap(spec.volumes, VolumeConfigMapName),
      FlatMap(spec.containers, ContainerSecretNames),
      FlatMap(spec.volumes, VolumeClaimName)))
  }

  // ------------------------------------------------------------ the scan

  /** The scan of replicate.go:135-172: the container loop with, for each
      container, its `env` loop and then its `envFrom` loop, followed by the
      volume loop; each appends to the growing lists, and the nil
      dereference ends the scan. */
  method ExtractDependencies(spec: PodSpec) returns (r: Extraction)
    ensures r == Extract(spec)
  {
    var configMaps: seq<Name> := [];
    var secrets: seq<Name> := [];
    var cs := spec.containers;
    var ci := 0;
    while ci < |cs|
      invariant 0 <= ci <= |cs|
      invariant configMaps == FlatMap(cs[..ci], ContainerConfigMapNames)
      invariant secrets == FlatMap(cs[..ci], ContainerSecretNames)
      invariant !ContainersDerefNil(cs[..ci])
    {
      var c := cs[ci];
      var envConfigMaps, envSecrets, derefsNil := ScanEnv(c.env);
      if derefsNil {
        NilDerefIff(spec);
        var e :| e in c.env && DerefsNilConfigMapKeyRef(e);
        assert c in spec.containers && e in c.env;
        return NilConfigMapKeyRef;
      }
      var fromConfigMaps, fromSecrets := ScanEnvFrom(c.envFrom);
      configMaps := configMaps + envConfigMaps + fromConfigMaps;
      secrets := secrets + envSecrets + fromSecrets;
      FlatMapStep(cs, ci, ContainerConfigMapNames);
      FlatMapStep(cs, ci, ContainerSecretNames);
      assert cs[..ci + 1][..ci] == cs[..ci];
      ci := ci + 1;
    }
    assert cs[..ci] == cs;
    var volumeConfigMaps, claims := ScanVolumes(spec.volumes);
    assert Extract(spec) == Extracted(Dependencies(configMaps + volumeConfigMaps, secrets, claims));
    r := Extracted(Dependencies(configMaps + volumeConfigMaps, secrets, claims));
  }

  /** The `env` loop of one container (replicate.go:140-150). */
  method ScanEnv(env: seq<EnvVar>) returns (configMaps: seq<Name>, secrets: seq<Name>, derefsNil: bool)
    ensures derefsNil == EnvDerefsNil(env)
    ensures !derefsNil ==> configMaps == FlatMap(env, ConfigMapKeyRefName)
    ensures !derefsNil ==> secrets == FlatMap(env, SecretKeyRefNameAsWritten)
  {
    configMaps, secrets, derefsNil := [], [], false;
    var i := 0;
    while i < |env|
      invariant 0 <= i <= |env|
      invariant configMaps == FlatMap(env[..i], ConfigMapKeyRefName)
      invariant secrets == FlatMap(env[..i], SecretKeyRefNameAsWritten)
      invariant !EnvDerefsNil(env[..i])
    {
      var e := env[i];
      if e.valueFrom.Some? {
        if e.valueFrom.value.configMapKeyRef.Some? {
          configMaps := configMaps + [e.valueFrom.value.configMapKeyRef.value.name];
        }
        if e.valueFrom.value.secretKeyRef.Some? {
          if e.valueFrom.value.configMapKeyRef.None? {
            assert e in env && DerefsNilConfigMapKeyRef(e);
            return configMaps, secrets, true;
          }
          secrets := secrets + [e.valueFrom.value.configMapKeyRef.value.name];
        }
      }
      FlatMapStep(env, i, ConfigMapKeyRefName);
      FlatMapStep(env, i, SecretKeyRefNameAsWritten);
      NoNilDerefStep(env, i);
      i := i + 1;
    }
    assert env[..i] == env;
  }

  /** The `envFrom` loop of one container (replicate.go:152-160). */
  method ScanEnvFrom(envFrom: seq<EnvFromSource>) returns (configMaps: seq<Name>, secrets: seq<Name>)
    ensures configMaps == FlatMap(envFrom, EnvFromConfigMapName)
    ensures secrets == FlatMap(envFrom, EnvFromSecretName)
  {
    configMaps, secrets := [], [];
    var i := 0;
    while i < |envFrom|
      invariant 0 <= i <= |envFrom|
      invariant configMaps == FlatMap(envFrom[..i], EnvFromConfigMapName)
      invariant secrets == FlatMap(envFrom[..i], EnvFromSecretName)
    {
      var f := envFrom[i];
      if f.configMapRef.Some? {
        configMaps := configMaps + [f.configMapRef.value];
      }
      if f.secretRef.Some? {
        secrets := secrets + [f.secretRef.value];
      }
      FlatMapStep(envFrom, i, EnvFromConfigMapName);
      FlatMapStep(envFrom, i, EnvFromSecretName);
      i := i + 1;
    }
    assert envFrom[..i] == envFrom;
  }

  /** The volume loop (replicate.go:163-172). */
  method ScanVolumes(volumes: seq<Volume>) returns (configMaps: seq<Name>, claims: seq<Name>)
    ensures configMaps == FlatMap(volumes, VolumeConfigMapName)
    ensures claims == FlatMap(volumes, VolumeClaimName)
  {
    configMaps, claims := [], [];
    var i := 0;
    while i < |volumes|
      invariant 0 <= i <= |volumes|
      invariant configMaps == FlatMap(volumes[..i], VolumeConfigMapName)
      invariant claims == FlatMap(volumes[..i], VolumeClaimName)
    {
      var v := volumes[i];
      if v.configMap.Some? {
        configMaps := configMaps + [v.configMap.value];
      }
      if v.persistentVolumeClaim.Some? {
        claims := claims + [v.persistentVolumeClaim.value.claimName];
      }
      FlatMapStep(volumes, i, VolumeConfigMapName);
      FlatMapStep(volumes, i, VolumeClaimName);
      i := i + 1;
    }
    assert volumes[..i] == volumes;
  }

  // ------------------------------------------------------------- lemmas

  lemma FlatMapStep<T, U>(s: seq<T>, i: nat, f: T -> seq<U>)
    requires i < |s|
    ensures FlatMap(s[..i + 1], f) == FlatMap(s[..i], f) + f(s[i])
  {
    assert s[..i + 1][..i] == s[..i];
  }

  lemma NoNilDerefStep(env: seq<EnvVar>, i: nat)
    requires i < |env| && !EnvDerefsNil(env[..i]) && !DerefsNilConfigMapKeyRef(env[i])
    ensures !EnvDerefsNil(env[..i + 1])
  {
    assert env[..i + 1] == env[..i] + [env[i]];
  }

  lemma {:induction false} FlatMapMember<T, U>(s: seq<T>, f: T -> seq<U>, n: U)
    ensures n in FlatMap(s, f) <==> exists x :: x in s && n in f(x)
    decreases |s|
  {
    if s != [] {
      var init, last := s[..|s| - 1], s[|s| - 1];
      FlatMapMember(init, f, n);
      assert s == init + [last];
      if n in FlatMap(s, f) && n !in f(last) {
        var x :| x in init && n in f(x);
        assert x in s;
      }
    }
  }

  /** When each element contributes one name if it has a property and none
      otherwise, the result lists, in order, the names of the elements that
      have the property: one per element, duplicates included. */
  lemma {:induction false} FlatMapOfOptional<T(!new), U>(s: seq<T>, f: T -> seq<U>, p: T -> bool, g: T -> U)
    requires forall x :: f(x) == (if p(x) then [g(x)] else [])
    ensures |FlatMap(s, f)| == |Filter(s, p)|
    ensures forall k :: 0 <= k < |Filter(s, p)| ==> FlatMap(s, f)[k] == g(Filter(s, p)[k])
    decreases |s|
  {
    if s != [] {
      FlatMapOfOptional(s[..|s| - 1], f, p, g);
    }
  }

  lemma {:induction false} ContainerConfigMapCount(cs: seq<Container>)
    ensures |FlatMap(cs, ContainerConfigMapNames)| == ContainerConfigMapReferences(cs)
    decreases |cs|
  {
    if cs != [] {
      var c := cs[|cs| - 1];
      ContainerConfigMapCount(cs[..|cs| - 1]);
      FlatMapOfOptional(c.env, ConfigMapKeyRefName, ReadsConfigMapKey,
        (e: EnvVar) => if ReadsConfigMapKey(e) then e.valueFrom.value.configMapKeyRef.value.name else "");
      FlatMapOfOptional(c.envFrom, EnvFromConfigMapName, ImportsConfigMap,
        (f: EnvFromSource) => if f.configMapRef.Some? then f.configMapRef.value else "");
    }
  }

  /** Duplicates are kept: the ConfigMap list has one entry per ConfigMap
      reference of the Pod, counting env key references, envFrom references
      and ConfigMap volumes. */
  lemma ConfigMapCountIsReferenceCount(spec: PodSpec)
    requires Extract(spec).Extracted?
    ensures |Extract(spec).deps.configMaps|
      == ContainerConfigMapReferences(spec.containers) + |Filter(spec.volumes, MountsConfigMap)|
  {
    ContainerConfigMapCount(spec.containers);
    FlatMapOfOptional(spec.volumes, VolumeConfigMapName, MountsConfigMap,
      (v: Volume) => if v.configMap.Some? then v.configMap.value else "");
  }

  /** The scan panics exactly when some container has an environment
      variable with a Secret key reference and no ConfigMap key reference. */
  lemma NilDerefIff(spec: PodSpec)
    ensures Extract(spec).NilConfigMapKeyRef? <==>
      exists c, e :: c in spec.containers && e in c.env && e.valueFrom.Some? &&
        e.valueFrom.value.secretKeyRef.Some? && e.valueFrom.value.configMapKeyRef.None?
  {
    ContainersDerefNilIff(spec.containers);
  }

  lemma {:induction false} ContainersDerefNilIff(cs: seq<Container>)
    ensures ContainersDerefNil(cs) <==> exists c :: c in cs && EnvDerefsNil(c.env)
    decreases |cs|
  {
    if cs != [] {
      var init, last := cs[..|cs| - 1], cs[|cs| - 1];
      ContainersDerefNilIff(init);
      assert cs == init + [last];
    }
  }

  /** Every ConfigMap the Pod names through an env ConfigMap key reference,
      an envFrom ConfigMap reference or a ConfigMap volume is in the list,
      and nothing else is. */
  lemma ConfigMapNamesAreReferences(spec: PodSpec, n: Name)
    requires Extract(spec).Extracted?
    ensures n in Extract(spec).deps.configMaps <==>
      (exists c, e :: c in spec.containers && e in c.env && e.valueFrom.Some? &&
         e.valueFrom.value.configMapKeyRef.Some? && e.valueFrom.value.configMapKeyRef.value.name == n) ||
      (exists c, f :: c in spec.containers && f in c.envFrom && f.configMapRef == Some(n)) ||
      (exists v :: v in spec.volumes && v.configMap == Some(n))
  {
    FlatMapMember(spec.containers, ContainerConfigMapNames, n);
    FlatMapMember(spec.volumes, VolumeConfigMapName, n);
    forall c | c in spec.containers
      ensures n in ContainerConfigMapNames(c) <==>
        (exists e :: e in c.env && e.valueFrom.Some? &&
           e.valueFrom.value.configMapKeyRef.Some? && e.valueFrom.value.configMapKeyRef.value.name == n) ||
        (exists f :: f in c.envFrom && f.configMapRef == Some(n))
    {
      FlatMapMember(c.env, ConfigMapKeyRefName, n);
      FlatMapMember(c.envFrom, EnvFromConfigMapName, n);
    }
  }

  /** The Secret list holds, for each env Secret key reference, the name of
      the same variable's ConfigMap key reference (the Secret's own name is
      never read), and the name of each envFrom Secret reference; Secret
      volumes contribute nothing. */
  lemma SecretNamesAsWritten(spec: PodSpec, n: Name)
    requires Extract(spec).Extracted?
    ensures n in Extract(spec).deps.secrets <==>
      (exists c, e :: c in spec.containers && e in c.env && e.valueFrom.Some? &&
         e.valueFrom.value.secretKeyRef.Some? && e.valueFrom.value.configMapKeyRef.Some? &&
         e.valueFrom.value.configMapKeyRef.value.name == n) ||
      (exists c, f :: c in spec.containers && f in c.envFrom && f.secretRef == Some(n))
  {
    FlatMapMember(spec.containers, ContainerSecretNames, n);
    forall c | c in spec.containers
      ensures n in ContainerSecretNames(c) <==>
        (exists e :: e in c.env && e.valueFrom.Some? &&
           e.valueFrom.value.secretKeyRef.Some? && e.valueFrom.value.configMapKeyRef.Some? &&
           e.valueFrom.value.configMapKeyRef.value.name == n) ||
        (exists f :: f in c.envFrom && f.secretRef == Some(n))
    {
      FlatMapMember(c.env, SecretKeyRefNameAsWritten, n);
      FlatMapMember(c.envFrom, EnvFromSecretName, n);
    }
  }

  /** The claim list is exactly the claim name of each claim-backed volume,
      in volume order, one entry per volume. */
  lemma ClaimNamesInVolumeOrder(spec: PodSpec)
    requires Extract(spec).Extracted?
    ensures var claimVolumes := Filter(spec.volumes, MountsClaim);
      |Extract(spec).deps.claims| == |claimVolumes| &&
      forall k :: 0 <= k < |claimVolumes| ==>
        claimVolumes[k].persistentVolumeClaim.Some? &&
        Extract(spec).deps.claims[k] == claimVolumes[k].persistentVolumeClaim.value.claimName
  {
    FlatMapOfOptional(spec.volumes, VolumeClaimName, MountsClaim,
      (v: Volume) => if v.persistentVolumeClaim.Some? then v.persistentVolumeClaim.value.claimName else "");
  }

  /** The ConfigMap list ends with the name of each ConfigMap volume, in
      volume order, one entry per volume: names already seen in the
      containers are not dropped. */
  lemma ConfigMapVolumesLast(spec: PodSpec)
    requires Extract(spec).Extracted?
    ensures var cms, configMapVolumes := Extract(spec).deps.configMaps, Filter(spec.volumes, MountsConfigMap);
      |configMapVolumes| <= |cms| &&
      forall k :: 0 <= k < |configMapVolumes| ==>
        configMapVolumes[k].configMap.Some? &&
        cms[|cms| - |configMapVolumes| + k] == configMapVolumes[k].configMap.value
  {
    FlatMapOfOptional(spec.volumes, VolumeConfigMapName, MountsConfigMap,
      (v: Volume) => if v.configMap.Some? then v.configMap.value else "");
  }
}
