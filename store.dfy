/** The effect of the replicator's Create calls on the target cluster. The
    API server stores a created object under its name; it refuses an object
    without a name and one whose name is already taken ("already exists"),
    and then nothing changes. No call updates, patches or deletes. */
module Store {
  import opened Kube

  /** `m` after a create of `x` under `name`. */
  function Admit<T>(m: map<Name, T>, name: Name, x: T): map<Name, T> {
    if name == "" || name in m then m else m[name := x]
  }

  /** Whether the target accepts a create of `obj`. */
  predicate Admits(t: TargetCluster, obj: Object) {
    var name := ObjectMetaOf(obj).name;
    name != "" &&
    match obj
    case ConfigMapObject(_) => name !in t.configMaps
    case SecretObject(_) => name !in t.secrets
    case ClaimObject(_) => name !in t.claims
    case VolumeObject(_) => name !in t.volumes
    case PodObject(_) => name !in t.pods
  }

  function CreateIn(t: TargetCluster, obj: Object): TargetCluster {
    match obj
    case ConfigMapObject(c) => t.(configMaps := Admit(t.configMaps, c.meta.name, c))
    case SecretObject(s) => t.(secrets := Admit(t.secrets, s.meta.name, s))
    case ClaimObject(c) => t.(claims := Admit(t.claims, c.meta.name, c))
    case VolumeObject(v) => t.(volumes := Admit(t.volumes, v.meta.name, v))
    case PodObject(p) => t.(pods := Admit(t.pods, p.meta.name, p))
  }

  /** The target after one call: only a Create sent to the target changes it. */
  function ApplyEvent(t: TargetCluster, e: Event): TargetCluster {
    if e.Create? && e.side == Target then CreateIn(t, e.obj) else t
  }

  /** The target after the calls `es`, in order. */
  function Apply(t: TargetCluster, es: seq<Event>): TargetCluster
    decreases |es|
  {
    if es == [] then t else ApplyEvent(Apply(t, es[..|es| - 1]), es[|es| - 1])
  }

  /** `u` holds every object of `t`, unchanged. */
  ghost predicate Extends(t: TargetCluster, u: TargetCluster) {
    (forall n :: n in t.configMaps ==> n in u.configMaps && u.configMaps[n] == t.configMaps[n]) &&
    (forall n :: n in t.secrets ==> n in u.secrets && u.secrets[n] == t.secrets[n]) &&
    (forall n :: n in t.claims ==> n in u.claims && u.claims[n] == t.claims[n]) &&
    (forall n :: n in t.volumes ==> n in u.volumes && u.volumes[n] == t.volumes[n]) &&
    (forall n :: n in t.pods ==> n in u.pods && u.pods[n] == t.pods[n])
  }

  /** Running calls one after the other is running their concatenation. */
  lemma {:induction false} ApplyAppend(t: TargetCluster, a: seq<Event>, b: seq<Event>)
    ensures Apply(t, a + b) == Apply(Apply(t, a), b)
    decreases |b|
  {
    if b == [] {
      assert a + b == a;
    } else {
      assert (a + b)[..|a + b| - 1] == a + b[..|b| - 1];
      ApplyAppend(t, a, b[..|b| - 1]);
    }
  }

  lemma ApplySnoc(t: TargetCluster, es: seq<Event>, e: Event)
    ensures Apply(t, es + [e]) == ApplyEvent(Apply(t, es), e)
  {
    assert (es + [e])[..|es|] == es;
  }

  lemma ApplyPair(t: TargetCluster, a: seq<Event>, x: Event, y: Event)
    ensures Apply(t, a + [x, y]) == ApplyEvent(ApplyEvent(Apply(t, a), x), y)
  {
    assert a + [x, y] == (a + [x]) + [y];
    ApplySnoc(t, a + [x], y);
    ApplySnoc(t, a, x);
  }

  lemma AdmitKeeps<T>(m: map<Name, T>, name: Name, x: T)
    ensures forall n :: n in m ==> n in Admit(m, name, x) && Admit(m, name, x)[n] == m[n]
  {
  }

  lemma ApplyEventOnlyAdds(t: TargetCluster, e: Event)
    ensures Extends(t, ApplyEvent(t, e))
  {
    if e.Create? && e.side == Target {
      match e.obj
      case ConfigMapObject(c) => AdmitKeeps(t.configMaps, c.meta.name, c);
      case SecretObject(x) => AdmitKeeps(t.secrets, x.meta.name, x);
      case ClaimObject(c) => AdmitKeeps(t.claims, c.meta.name, c);
      case VolumeObject(v) => AdmitKeeps(t.volumes, v.meta.name, v);
      case PodObject(p) => AdmitKeeps(t.pods, p.meta.name, p);
    }
  }

  lemma ExtendsTransitive(t: TargetCluster, u: TargetCluster, v: TargetCluster)
    requires Extends(t, u) && Extends(u, v)
    ensures Extends(t, v)
  {
  }

  /** The replicator is additive only: whatever calls it makes, every object
      already in the target stays there unchanged. */
  lemma {:induction false} ApplyOnlyAdds(t: TargetCluster, es: seq<Event>)
    ensures Extends(t, Apply(t, es))
    decreases |es|
  {
    if es != [] {
      var before := Apply(t, es[..|es| - 1]);
      ApplyOnlyAdds(t, es[..|es| - 1]);
      ApplyEventOnlyAdds(before, es[|es| - 1]);
      ExtendsTransitive(t, before, Apply(t, es));
    }
  }
}
