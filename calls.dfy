/** The calls each replicator issues, as a function of what the source
    cluster answers: `replicateConfMap`, `replicateSecrets`, `replicatePvc`
    and `replicatePods` of replicate.go. Each function that has its own
    `recover` boundary yields a `Run`: its calls in order and whether a panic
    ended its loop. The methods of `Replicate.KubeClient` are proved to issue
    exactly these calls; the lemmas here state what the calls are. */
module Calls {
  import opened Kube
  import opened Store
  import opened Extractor

  /** The migration context: the source cluster's answers and the two
      namespaces, fixed for the whole run. */
  datatype Context = Context(source: SourceCluster, sourceNamespace: string, targetNamespace: string)

  datatype Run = Run(events: seq<Event>, outcome: Outcome)

  // ------------------------------------------------------ source answers

  /** A Get that fails hands back the zero-valued object with its error. */
  function FetchedConfigMap(src: SourceCluster, name: Name): ConfigMap {
    if name in src.configMaps then src.configMaps[name] else ConfigMap(EmptyMeta, map[], map[])
  }

  function FetchedSecret(src: SourceCluster, name: Name): Secret {
    if name in src.secrets then src.secrets[name] else Secret(EmptyMeta, map[], "")
  }

  /** The zero claim has a nil selector. */
  function FetchedClaim(src: SourceCluster, name: Name): PersistentVolumeClaim {
    if name in src.claims then src.claims[name]
    else PersistentVolumeClaim(EmptyMeta, ClaimSpec(None, "", "", ""))
  }

  function ListedVolumes(src: SourceCluster, selector: Labels): seq<PersistentVolume> {
    if selector in src.volumesBySelector then src.volumesBySelector[selector] else []
  }

  // ---------------------------------------------------------- re-homing

  /** A new ConfigMap built from the fetched one's data, name and labels,
      in the target namespace (replicate.go:25-29). */
  function RehomedConfigMap(c: ConfigMap, ns: string): ConfigMap {
    ConfigMap(ObjectMeta(c.meta.name, ns, c.meta.labels, map[]), c.data, map[])
  }

  /** replicate.go:53-57. */
  function RehomedSecret(s: Secret, ns: string): Secret {
    Secret(ObjectMeta(s.meta.name, ns, s.meta.labels, map[]), s.data, "")
  }

  /** replicate.go:83-87. */
  function RehomedClaim(c: PersistentVolumeClaim, ns: string): PersistentVolumeClaim {
    PersistentVolumeClaim(ObjectMeta(c.meta.name, ns, c.meta.labels, map[]), c.spec)
  }

  /** The listed volume itself with its namespace replaced (replicate.go:98-99). */
  function RehomedVolume(v: PersistentVolume, ns: string): PersistentVolume {
    v.(meta := v.meta.(namespace := ns))
  }

  /** replicate.go:184-187; the new Pod has no status, so no phase. */
  function RehomedPod(p: Pod, ns: string): Pod {
    Pod(ObjectMeta(p.meta.name, ns, p.meta.labels, map[]), p.spec, "")
  }

  // ------------------------------------------------------------ the calls

  function ConfigMapStep(ctx: Context, name: Name): seq<Event> {
    [Get(Source, ConfigMapKind, ctx.sourceNamespace, name),
     Create(Target, ConfigMapObject(RehomedConfigMap(FetchedConfigMap(ctx.source, name), ctx.targetNamespace)))]
  }

  /** `replicateConfMap`: nothing in its loop panics. */
  function ConfigMapCalls(ctx: Context, names: seq<Name>): seq<Event>
    decreases |names|
  {
    if names == [] then []
    else ConfigMapCalls(ctx, names[..|names| - 1]) + ConfigMapStep(ctx, names[|names| - 1])
  }

  function SecretStep(ctx: Context, name: Name): seq<Event> {
    [Get(Source, SecretKind, ctx.sourceNamespace, name),
     Create(Target, SecretObject(RehomedSecret(FetchedSecret(ctx.source, name), ctx.targetNamespace)))]
  }

  /** `replicateSecrets`: nothing in its loop panics. */
  function SecretCalls(ctx: Context, names: seq<Name>): seq<Event>
    decreases |names|
  {
    if names == [] then []
    else SecretCalls(ctx, names[..|names| - 1]) + SecretStep(ctx, names[|names| - 1])
  }

  function VolumeCreates(volumes: seq<PersistentVolume>, ns: string): seq<Event>
    decreases |volumes|
  {
    if volumes == [] then []
    else VolumeCreates(volumes[..|volumes| - 1], ns)
         + [Create(Target, VolumeObject(RehomedVolume(volumes[|volumes| - 1], ns)))]
  }

  /** One iteration of `replicatePvc`. Reading `MatchLabels` through a nil
      selector (replicate.go:89-90) panics right after the Get. */
  function ClaimStep(ctx: Context, name: Name): Run {
    var claim := FetchedClaim(ctx.source, name);
    var get := Get(Source, ClaimKind, ctx.sourceNamespace, name);
    if claim.spec.selector.None? then Run([get], Panicked)
    else
      var selector := claim.spec.selector.value.matchLabels;
      Run([get, List(Source, VolumeKind, "", selector)]
          + VolumeCreates(ListedVolumes(ctx.source, selector), ctx.targetNamespace)
          + [Create(Target, ClaimObject(RehomedClaim(claim, ctx.targetNamespace)))],
          Ok)
  }

  /** `replicatePvc`: a panic in one iteration ends the loop. */
  function ClaimCalls(ctx: Context, names: seq<Name>): Run
    decreases |names|
  {
    if names == [] then Run([], Ok)
    else
      var prev := ClaimCalls(ctx, names[..|names| - 1]);
      if prev.outcome == Panicked then prev
      else
        var step := ClaimStep(ctx, names[|names| - 1]);
        Run(prev.events + step.events, step.outcome)
  }

  /** One iteration of `replicatePods`: a Pod that is not Running is
      skipped; the scan's nil dereference panics before any call; otherwise
      the three replicators run, each inside its own boundary, and then the
      Pod is created. */
  function PodStep(ctx: Context, p: Pod): Run {
    if !IsRunning(p) then Run([], Ok)
    else match Extract(p.spec)
      case NilConfigMapKeyRef => Run([], Panicked)
      case Extracted(deps) =>
        Run(ConfigMapCalls(ctx, deps.configMaps)
            + SecretCalls(ctx, deps.secrets)
            + ClaimCalls(ctx, deps.claims).events
            + [Create(Target, PodObject(RehomedPod(p, ctx.targetNamespace)))],
            Ok)
  }

  /** The Pod loop of `replicatePods`: a panic ends it. */
  function PodCalls(ctx: Context, pods: seq<Pod>): Run
    decreases |pods|
  {
    if pods == [] then Run([], Ok)
    else
      var prev := PodCalls(ctx, pods[..|pods| - 1]);
      if prev.outcome == Panicked then prev
      else
        var step := PodStep(ctx, pods[|pods| - 1]);
        Run(prev.events + step.events, step.outcome)
  }

  /** `replicatePods` as a whole: list the Pods, then the Pod loop. A failed
      List panics (replicate.go:121-123) inside the same boundary. */
  function ReplicationCalls(ctx: Context): Run {
    var list := List(Source, PodKind, ctx.sourceNamespace, map[]);
    if ctx.source.podListFails then Run([list], Panicked)
    else
      var pods := PodCalls(ctx, ctx.source.pods);
      Run([list] + pods.events, pods.outcome)
  }

  // -------------------------------------------------------------- views

  predicate IsCreate(e: Event) { e.Create? }

  function CreateCount(es: seq<Event>): nat { |Filter(es, IsCreate)| }

  /** A call goes the right way: reads go to the source (namespaced ones in
      the source namespace), creates go to the target and carry the target
      namespace. */
  predicate Directed(ctx: Context, e: Event) {
    match e
    case Get(side, _, ns, _) => side == Source && ns == ctx.sourceNamespace
    case List(side, kind, ns, _) => side == Source && (kind == PodKind ==> ns == ctx.sourceNamespace)
    case Create(side, obj) => side == Target && ObjectMetaOf(obj).namespace == ctx.targetNamespace
  }

  predicate AllDirected(ctx: Context, es: seq<Event>) {
    forall e :: e in es ==> Directed(ctx, e)
  }

  /** The order of the phases of one Pod: ConfigMaps, Secrets, claims and
      their volumes, the Pod. */
  function PhaseRank(k: Kind): nat {
    match k
    case ConfigMapKind => 0
    case SecretKind => 1
    case ClaimKind => 2
    case VolumeKind => 2
    case PodKind => 3
  }

  ghost predicate InPhaseOrder(es: seq<Event>) {
    forall i, j :: 0 <= i < j < |es| ==> PhaseRank(EventKind(es[i])) <= PhaseRank(EventKind(es[j]))
  }

  ghost predicate AllOfRank(es: seq<Event>, rank: nat) {
    forall e :: e in es ==> PhaseRank(EventKind(e)) == rank
  }

  /** `e` creates in the target a ConfigMap with the name, labels and data
      of `orig` and the namespace `ns`. */
  predicate CreatesConfigMapCopy(e: Event, orig: ConfigMap, ns: string) {
    e.Create? && e.side == Target && e.obj.ConfigMapObject? &&
    e.obj.configMap.meta.name == orig.meta.name &&
    e.obj.configMap.meta.labels == orig.meta.labels &&
    e.obj.configMap.data == orig.data &&
    e.obj.configMap.meta.namespace == ns
  }

  predicate CreatesSecretCopy(e: Event, orig: Secret, ns: string) {
    e.Create? && e.side == Target && e.obj.SecretObject? &&
    e.obj.secret.meta.name == orig.meta.name &&
    e.obj.secret.meta.labels == orig.meta.labels &&
    e.obj.secret.data == orig.data &&
    e.obj.secret.meta.namespace == ns
  }

  ghost predicate ConfigMapsKeyedByName(src: SourceCluster) {
    forall k :: k in src.configMaps ==> src.configMaps[k].meta.name == k
  }

  ghost predicate SecretsKeyedByName(src: SourceCluster) {
    forall k :: k in src.secrets ==> src.secrets[k].meta.name == k
  }

  // ---------------------------------------- ConfigMaps and Secrets

  /** For every name, in order, the ConfigMap replicator issues a Get on the
      source and then a Create on the target, whether or not the Get
      succeeded; the created object has the fetched object's name, labels and
      data and the target namespace (the zero object when the Get failed). */
  lemma {:induction false} ConfigMapCallsAttemptEveryName(ctx: Context, names: seq<Name>)
    ensures |ConfigMapCalls(ctx, names)| == 2 * |names|
    ensures forall k :: 0 <= k < |names| ==>
      ConfigMapCalls(ctx, names)[2 * k] == Get(Source, ConfigMapKind, ctx.sourceNamespace, names[k]) &&
      CreatesConfigMapCopy(ConfigMapCalls(ctx, names)[2 * k + 1], FetchedConfigMap(ctx.source, names[k]), ctx.targetNamespace)
    ensures forall k :: 0 <= k < |names| && names[k] !in ctx.source.configMaps ==>
      ConfigMapCalls(ctx, names)[2 * k + 1] == Create(Target, ConfigMapObject(ConfigMap(ObjectMeta("", ctx.targetNamespace, map[], map[]), map[], map[])))
    decreases |names|
  {
    if names != [] {
      var init := names[..|names| - 1];
      ConfigMapCallsAttemptEveryName(ctx, init);
      var calls := ConfigMapCalls(ctx, names);
      forall k | 0 <= k < |names| - 1
        ensures calls[2 * k] == ConfigMapCalls(ctx, init)[2 * k] && calls[2 * k + 1] == ConfigMapCalls(ctx, init)[2 * k + 1]
        ensures names[k] == init[k]
      {
      }
    }
  }

  /** The same for the Secret replicator. */
  lemma {:induction false} SecretCallsAttemptEveryName(ctx: Context, names: seq<Name>)
    ensures |SecretCalls(ctx, names)| == 2 * |names|
    ensures forall k :: 0 <= k < |names| ==>
      SecretCalls(ctx, names)[2 * k] == Get(Source, SecretKind, ctx.sourceNamespace, names[k]) &&
      CreatesSecretCopy(SecretCalls(ctx, names)[2 * k + 1], FetchedSecret(ctx.source, names[k]), ctx.targetNamespace)
    ensures forall k :: 0 <= k < |names| && names[k] !in ctx.source.secrets ==>
      SecretCalls(ctx, names)[2 * k + 1] == Create(Target, SecretObject(Secret(ObjectMeta("", ctx.targetNamespace, map[], map[]), map[], "")))
    decreases |names|
  {
    if names != [] {
      var init := names[..|names| - 1];
      SecretCallsAttemptEveryName(ctx, init);
      var calls := SecretCalls(ctx, names);
      forall k | 0 <= k < |names| - 1
        ensures calls[2 * k] == SecretCalls(ctx, init)[2 * k] && calls[2 * k + 1] == SecretCalls(ctx, init)[2 * k + 1]
        ensures names[k] == init[k]
      {
      }
    }
  }

  /** A name the calls never mention stays absent from the target. */
  lemma {:induction false} ConfigMapNameUntouched(ctx: Context, t: TargetCluster, names: seq<Name>, n: Name)
    requires ConfigMapsKeyedByName(ctx.source)
    requires n != "" && n !in names && n !in t.configMaps
    ensures n !in Apply(t, ConfigMapCalls(ctx, names)).configMaps
    decreases |names|
  {
    if names != [] {
      var init := names[..|names| - 1];
      assert names == init + [names[|names| - 1]];
      ConfigMapNameUntouched(ctx, t, init, n);
      var step := ConfigMapStep(ctx, names[|names| - 1]);
      ApplyPair(t, ConfigMapCalls(ctx, init), step[0], step[1]);
    }
  }

  /** The round trip of a ConfigMap: when the source stores objects under
      their own names, every named ConfigMap that exists in the source and
      not yet in the target ends up in the target with the source object's
      name, labels and data and the target namespace; a duplicate name only
      repeats a create the target refuses. */
  lemma {:induction false} ConfigMapsLandInTarget(ctx: Context, t: TargetCluster, names: seq<Name>, n: Name)
    requires ConfigMapsKeyedByName(ctx.source)
    requires n in names && n in ctx.source.configMaps && n != "" && n !in t.configMaps
    ensures var created := Apply(t, ConfigMapCalls(ctx, names)).configMaps;
      n in created &&
      created[n].meta.name == n &&
      created[n].meta.labels == ctx.source.configMaps[n].meta.labels &&
      created[n].data == ctx.source.configMaps[n].data &&
      created[n].meta.namespace == ctx.targetNamespace
    decreases |names|
  {
    var init, last := names[..|names| - 1], names[|names| - 1];
    assert names == init + [last];
    var step := ConfigMapStep(ctx, last);
    ApplyPair(t, ConfigMapCalls(ctx, init), step[0], step[1]);
    if n in init {
      ConfigMapsLandInTarget(ctx, t, init, n);
    } else {
      ConfigMapNameUntouched(ctx, t, init, n);
    }
  }

  lemma {:induction false} SecretNameUntouched(ctx: Context, t: TargetCluster, names: seq<Name>, n: Name)
    requires SecretsKeyedByName(ctx.source)
    requires n != "" && n !in names && n !in t.secrets
    ensures n !in Apply(t, SecretCalls(ctx, names)).secrets
    decreases |names|
  {
    if names != [] {
      var init := names[..|names| - 1];
      assert names == init + [names[|names| - 1]];
      SecretNameUntouched(ctx, t, init, n);
      var step := SecretStep(ctx, names[|names| - 1]);
      ApplyPair(t, SecretCalls(ctx, init), step[0], step[1]);
    }
  }

  /** The round trip of a Secret, as for ConfigMaps: every named Secret that
      exists in the source and not yet in the target ends up in the target
      with the source object's name, labels and data and the target
      namespace. */
  lemma {:induction false} SecretsLandInTarget(ctx: Context, t: TargetCluster, names: seq<Name>, n: Name)
    requires SecretsKeyedByName(ctx.source)
    requires n in names && n in ctx.source.secrets && n != "" && n !in t.secrets
    ensures var created := Apply(t, SecretCalls(ctx, names)).secrets;
      n in created &&
      created[n].meta.name == n &&
      created[n].meta.labels == ctx.source.secrets[n].meta.labels &&
      created[n].data == ctx.source.secrets[n].data &&
      created[n].meta.namespace == ctx.targetNamespace
    decreases |names|
  {
    var init, last := names[..|names| - 1], names[|names| - 1];
    assert names == init + [last];
    var step := SecretStep(ctx, last);
    ApplyPair(t, SecretCalls(ctx, init), step[0], step[1]);
    if n in init {
      SecretsLandInTarget(ctx, t, init, n);
    } else {
      SecretNameUntouched(ctx, t, init, n);
    }
  }

  /** When the Get fails, the create that follows carries the zero object,
      which has no name, so the target refuses it and nothing changes. */
  lemma ZeroObjectCreatesAreRefused(ctx: Context, t: TargetCluster, name: Name)
    ensures name !in ctx.source.configMaps ==> Apply(t, ConfigMapStep(ctx, name)) == t
    ensures name !in ctx.source.secrets ==> Apply(t, SecretStep(ctx, name)) == t
  {
    ApplyPair(t, [], ConfigMapStep(ctx, name)[0], ConfigMapStep(ctx, name)[1]);
    ApplyPair(t, [], SecretStep(ctx, name)[0], SecretStep(ctx, name)[1]);
    assert [] + ConfigMapStep(ctx, name) == ConfigMapStep(ctx, name);
    assert [] + SecretStep(ctx, name) == SecretStep(ctx, name);
  }

  // ------------------------------------------------------------ claims

  lemma {:induction false} VolumeCreatesAt(volumes: seq<PersistentVolume>, ns: string)
    ensures |VolumeCreates(volumes, ns)| == |volumes|
    ensures forall j :: 0 <= j < |volumes| ==>
      VolumeCreates(volumes, ns)[j] == Create(Target, VolumeObject(RehomedVolume(volumes[j], ns)))
    decreases |volumes|
  {
    if volumes != [] {
      var init := volumes[..|volumes| - 1];
      VolumeCreatesAt(init, ns);
      forall j | 0 <= j < |volumes| - 1 ensures volumes[j] == init[j] {}
    }
  }

  lemma {:induction false} VolumeCreatesCount(volumes: seq<PersistentVolume>, ns: string)
    ensures CreateCount(VolumeCreates(volumes, ns)) == |volumes|
    decreases |volumes|
  {
    if volumes != [] {
      var init := volumes[..|volumes| - 1];
      var last := [Create(Target, VolumeObject(RehomedVolume(volumes[|volumes| - 1], ns)))];
      VolumeCreatesCount(init, ns);
      FilterAppend(VolumeCreates(init, ns), last, IsCreate);
      assert Filter(last, IsCreate) == last by {
        assert last[..0] == [];
      }
    }
  }

  /** One claim whose selector is present: a Get, a List of the volumes
      matching the selector, one create per listed volume (the volume with
      the target namespace) and then one create of the claim (its name,
      labels and spec, target namespace); the loop goes on. */
  lemma ClaimStepCreatesVolumesThenClaim(ctx: Context, name: Name)
    requires FetchedClaim(ctx.source, name).spec.selector.Some?
    ensures var claim, r := FetchedClaim(ctx.source, name), ClaimStep(ctx, name);
      var selector := claim.spec.selector.value.matchLabels;
      var volumes := ListedVolumes(ctx.source, selector);
      r.outcome == Ok &&
      |r.events| == |volumes| + 3 &&
      r.events[0] == Get(Source, ClaimKind, ctx.sourceNamespace, name) &&
      r.events[1] == List(Source, VolumeKind, "", selector) &&
      (forall j :: 0 <= j < |volumes| ==>
        var e := r.events[j + 2];
        e.Create? && e.side == Target && e.obj.VolumeObject? &&
        e.obj.volume == volumes[j].(meta := volumes[j].meta.(namespace := ctx.targetNamespace))) &&
      (var last := r.events[|volumes| + 2];
        last.Create? && last.side == Target && last.obj.ClaimObject? &&
        last.obj.claim.meta.name == claim.meta.name &&
        last.obj.claim.meta.labels == claim.meta.labels &&
        last.obj.claim.spec == claim.spec &&
        last.obj.claim.meta.namespace == ctx.targetNamespace)
  {
    var claim := FetchedClaim(ctx.source, name);
    var volumes := ListedVolumes(ctx.source, claim.spec.selector.value.matchLabels);
    VolumeCreatesAt(volumes, ctx.targetNamespace);
  }

  /** A claim whose selector matches N volumes yields exactly N + 1 creates:
      none for volumes when N is 0, and the claim's own create in any case. */
  lemma ClaimStepCreateCount(ctx: Context, name: Name)
    requires FetchedClaim(ctx.source, name).spec.selector.Some?
    ensures var claim := FetchedClaim(ctx.source, name);
      CreateCount(ClaimStep(ctx, name).events)
        == |ListedVolumes(ctx.source, claim.spec.selector.value.matchLabels)| + 1
  {
    var claim := FetchedClaim(ctx.source, name);
    var selector := claim.spec.selector.value.matchLabels;
    var head := [Get(Source, ClaimKind, ctx.sourceNamespace, name), List(Source, VolumeKind, "", selector)];
    var creates := VolumeCreates(ListedVolumes(ctx.source, selector), ctx.targetNamespace);
    var tail := [Create(Target, ClaimObject(RehomedClaim(claim, ctx.targetNamespace)))];
    VolumeCreatesCount(ListedVolumes(ctx.source, selector), ctx.targetNamespace);
    FilterAppend(head, creates, IsCreate);
    FilterAppend(head + creates, tail, IsCreate);
    assert Filter(head, IsCreate) == [] by {
      assert head[..1] == [head[0]];
      assert [head[0]][..0] == [];
    }
    assert Filter(tail, IsCreate) == tail by {
      assert tail[..0] == [];
    }
  }

  /** A panic in `replicatePvc` drops the rest of its names: once the calls
      for a prefix of the names have panicked, the later names add nothing. */
  lemma {:induction false} ClaimCallsStopAtPanic(ctx: Context, names: seq<Name>, i: nat)
    requires i <= |names| && ClaimCalls(ctx, names[..i]).outcome == Panicked
    ensures ClaimCalls(ctx, names) == ClaimCalls(ctx, names[..i])
    decreases |names|
  {
    if i < |names| {
      var init := names[..|names| - 1];
      assert init[..i] == names[..i];
      ClaimCallsStopAtPanic(ctx, init, i);
    } else {
      assert names[..i] == names;
    }
  }

  /** One more name after a prefix that did not panic runs one more step. */
  lemma ClaimCallsStep(ctx: Context, names: seq<Name>, i: nat)
    requires i < |names| && ClaimCalls(ctx, names[..i]).outcome == Ok
    ensures ClaimCalls(ctx, names[..i + 1])
      == Run(ClaimCalls(ctx, names[..i]).events + ClaimStep(ctx, names[i]).events, ClaimStep(ctx, names[i]).outcome)
  {
    assert names[..i + 1][..i] == names[..i];
  }

  /** A claim missing from the source, or one without a selector, ends
      `replicatePvc` right after its Get: neither it nor any later claim, nor
      their volumes, is created. */
  lemma MissingClaimDropsRest(ctx: Context, names: seq<Name>, i: nat)
    requires i < |names| && ClaimCalls(ctx, names[..i]).outcome == Ok
    requires names[i] !in ctx.source.claims || ctx.source.claims[names[i]].spec.selector.None?
    ensures ClaimCalls(ctx, names)
      == Run(ClaimCalls(ctx, names[..i]).events + [Get(Source, ClaimKind, ctx.sourceNamespace, names[i])], Panicked)
  {
    ClaimCallsStep(ctx, names, i);
    ClaimCallsStopAtPanic(ctx, names, i + 1);
  }

  // -------------------------------------------------------------- pods

  /** Pods that are not Running cause no call at all: the Pod loop issues
      exactly the calls it issues over the Running Pods alone. */
  lemma {:induction false} NonRunningPodsIssueNoCalls(ctx: Context, pods: seq<Pod>)
    ensures PodCalls(ctx, pods) == PodCalls(ctx, Filter(pods, IsRunning))
    decreases |pods|
  {
    if pods != [] {
      var init, last := pods[..|pods| - 1], pods[|pods| - 1];
      NonRunningPodsIssueNoCalls(ctx, init);
      var running := Filter(init, IsRunning);
      if IsRunning(last) {
        assert Filter(pods, IsRunning) == running + [last];
        assert (running + [last])[..|running + [last]| - 1] == running;
      } else {
        assert Filter(pods, IsRunning) == running;
        assert PodCalls(ctx, init).events + [] == PodCalls(ctx, init).events;
      }
    }
  }

  /** A panic in the Pod loop abandons the remaining Pods. */
  lemma {:induction false} PodCallsStopAtPanic(ctx: Context, pods: seq<Pod>, i: nat)
    requires i <= |pods| && PodCalls(ctx, pods[..i]).outcome == Panicked
    ensures PodCalls(ctx, pods) == PodCalls(ctx, pods[..i])
    decreases |pods|
  {
    if i < |pods| {
      var init := pods[..|pods| - 1];
      assert init[..i] == pods[..i];
      PodCallsStopAtPanic(ctx, init, i);
    } else {
      assert pods[..i] == pods;
    }
  }

  lemma PodCallsStep(ctx: Context, pods: seq<Pod>, i: nat)
    requires i < |pods| && PodCalls(ctx, pods[..i]).outcome == Ok
    ensures PodCalls(ctx, pods[..i + 1])
      == Run(PodCalls(ctx, pods[..i]).events + PodStep(ctx, pods[i]).events, PodStep(ctx, pods[i]).outcome)
  {
    assert pods[..i + 1][..i] == pods[..i];
  }

  /** The nil dereference of replicate.go:147 in a Running Pod abandons that
      Pod and every Pod after it: the loop issues only the calls of the Pods
      before it. */
  lemma NilDerefAbandonsLaterPods(ctx: Context, pods: seq<Pod>, i: nat)
    requires i < |pods| && PodCalls(ctx, pods[..i]).outcome == Ok
    requires IsRunning(pods[i]) && Extract(pods[i].spec).NilConfigMapKeyRef?
    ensures PodCalls(ctx, pods) == Run(PodCalls(ctx, pods[..i]).events, Panicked)
  {
    PodCallsStep(ctx, pods, i);
    assert PodCalls(ctx, pods[..i]).events + [] == PodCalls(ctx, pods[..i]).events;
    PodCallsStopAtPanic(ctx, pods, i + 1);
  }

  lemma {:induction false} ConfigMapCallsRank(ctx: Context, names: seq<Name>)
    ensures AllOfRank(ConfigMapCalls(ctx, names), 0)
    decreases |names|
  {
    if names != [] {
      ConfigMapCallsRank(ctx, names[..|names| - 1]);
    }
  }

  lemma {:induction false} SecretCallsRank(ctx: Context, names: seq<Name>)
    ensures AllOfRank(SecretCalls(ctx, names), 1)
    decreases |names|
  {
    if names != [] {
      SecretCallsRank(ctx, names[..|names| - 1]);
    }
  }

  lemma {:induction false} VolumeCreatesRank(volumes: seq<PersistentVolume>, ns: string)
    ensures AllOfRank(VolumeCreates(volumes, ns), 2)
    decreases |volumes|
  {
    if volumes != [] {
      VolumeCreatesRank(volumes[..|volumes| - 1], ns);
    }
  }

  lemma {:induction false} ClaimCallsRank(ctx: Context, names: seq<Name>)
    ensures AllOfRank(ClaimCalls(ctx, names).events, 2)
    decreases |names|
  {
    if names != [] {
      ClaimCallsRank(ctx, names[..|names| - 1]);
      var claim := FetchedClaim(ctx.source, names[|names| - 1]);
      if claim.spec.selector.Some? {
        VolumeCreatesRank(ListedVolumes(ctx.source, claim.spec.selector.value.matchLabels), ctx.targetNamespace);
      }
    }
  }

  /** Four phases of ranks 0, 1, 2 and 3, one after the other, are in phase
      order, and everything before the last call ranks below the last phase. */
  lemma PhasesInOrder(a: seq<Event>, b: seq<Event>, c: seq<Event>, d: seq<Event>)
    requires AllOfRank(a, 0) && AllOfRank(b, 1) && AllOfRank(c, 2) && AllOfRank(d, 3) && |d| == 1
    ensures InPhaseOrder(a + b + c + d)
    ensures forall i :: 0 <= i < |a + b + c| ==> PhaseRank(EventKind((a + b + c + d)[i])) < 3
  {
    var es := a + b + c + d;
    forall k | 0 <= k < |es|
      ensures PhaseRank(EventKind(es[k])) ==
        if k < |a| then 0 else if k < |a| + |b| then 1 else if k < |a| + |b| + |c| then 2 else 3
    {
      if k < |a| {
        assert es[k] == a[k] && a[k] in a;
      } else if k < |a| + |b| {
        assert es[k] == b[k - |a|] && b[k - |a|] in b;
      } else if k < |a| + |b| + |c| {
        assert es[k] == c[k - |a| - |b|] && c[k - |a| - |b|] in c;
      } else {
        assert es[k] == d[k - |a| - |b| - |c|] && d[k - |a| - |b| - |c|] in d;
      }
    }
  }

  /** For a Running Pod whose scan succeeds, the calls come in the phase
      order ConfigMaps, Secrets, claims and volumes, then the Pod; the last
      call creates the Pod in the target with the source Pod's name, labels
      and spec and the target namespace; and the loop goes on, whether or
      not `replicatePvc` panicked. */
  lemma PodStepPhaseOrder(ctx: Context, p: Pod)
    requires IsRunning(p) && Extract(p.spec).Extracted?
    ensures var r := PodStep(ctx, p);
      r.outcome == Ok && r.events != [] && InPhaseOrder(r.events) &&
      (forall i :: 0 <= i < |r.events| - 1 ==> PhaseRank(EventKind(r.events[i])) < PhaseRank(PodKind)) &&
      (var last := r.events[|r.events| - 1];
        last.Create? && last.side == Target && last.obj.PodObject? &&
        last.obj.pod.meta.name == p.meta.name &&
        last.obj.pod.meta.labels == p.meta.labels &&
        last.obj.pod.spec == p.spec &&
        last.obj.pod.meta.namespace == ctx.targetNamespace)
  {
    var deps := Extract(p.spec).deps;
    var a := ConfigMapCalls(ctx, deps.configMaps);
    var b := SecretCalls(ctx, deps.secrets);
    var c := ClaimCalls(ctx, deps.claims).events;
    var d := [Create(Target, PodObject(RehomedPod(p, ctx.targetNamespace)))];
    ConfigMapCallsRank(ctx, deps.configMaps);
    SecretCallsRank(ctx, deps.secrets);
    ClaimCallsRank(ctx, deps.claims);
    PhasesInOrder(a, b, c, d);
    assert PodStep(ctx, p) == Run(a + b + c + d, Ok);
  }

  /** Calls that create no Pod leave the target's Pods as they are. */
  lemma {:induction false} NoPodCreatesKeepPods(t: TargetCluster, es: seq<Event>)
    requires forall e :: e in es ==> EventKind(e) != PodKind
    ensures Apply(t, es).pods == t.pods
    decreases |es|
  {
    if es != [] {
      assert es[|es| - 1] in es;
      NoPodCreatesKeepPods(t, es[..|es| - 1]);
    }
  }

  /** The round trip of a Pod: a Running Pod whose scan succeeds, with a name
      not yet taken in the target, ends up in the target's Pods with its
      name, labels and spec and the target namespace, whatever its
      dependencies' creates did. */
  lemma PodLandsInTarget(ctx: Context, t: TargetCluster, p: Pod)
    requires IsRunning(p) && Extract(p.spec).Extracted?
    requires p.meta.name != "" && p.meta.name !in t.pods
    ensures var pods := Apply(t, PodStep(ctx, p).events).pods;
      p.meta.name in pods &&
      pods[p.meta.name].meta.name == p.meta.name &&
      pods[p.meta.name].meta.labels == p.meta.labels &&
      pods[p.meta.name].spec == p.spec &&
      pods[p.meta.name].meta.namespace == ctx.targetNamespace
  {
    var deps := Extract(p.spec).deps;
    var a := ConfigMapCalls(ctx, deps.configMaps);
    var b := SecretCalls(ctx, deps.secrets);
    var c := ClaimCalls(ctx, deps.claims).events;
    var created := Create(Target, PodObject(RehomedPod(p, ctx.targetNamespace)));
    ConfigMapCallsRank(ctx, deps.configMaps);
    SecretCallsRank(ctx, deps.secrets);
    ClaimCallsRank(ctx, deps.claims);
    forall e | e in a + b + c ensures EventKind(e) != PodKind {
      assert e in a || e in b || e in c;
    }
    NoPodCreatesKeepPods(t, a + b + c);
    assert PodStep(ctx, p).events == a + b + c + [created];
    ApplySnoc(t, a + b + c, created);
  }

  // ------------------------------------------------------------ direction

  lemma {:induction false} ConfigMapCallsDirected(ctx: Context, names: seq<Name>)
    ensures AllDirected(ctx, ConfigMapCalls(ctx, names))
    decreases |names|
  {
    if names != [] {
      ConfigMapCallsDirected(ctx, names[..|names| - 1]);
    }
  }

  lemma {:induction false} SecretCallsDirected(ctx: Context, names: seq<Name>)
    ensures AllDirected(ctx, SecretCalls(ctx, names))
    decreases |names|
  {
    if names != [] {
      SecretCallsDirected(ctx, names[..|names| - 1]);
    }
  }

  lemma {:induction false} VolumeCreatesDirected(ctx: Context, volumes: seq<PersistentVolume>)
    ensures AllDirected(ctx, VolumeCreates(volumes, ctx.targetNamespace))
    decreases |volumes|
  {
    if volumes != [] {
      VolumeCreatesDirected(ctx, volumes[..|volumes| - 1]);
    }
  }

  lemma {:induction false} ClaimCallsDirected(ctx: Context, names: seq<Name>)
    ensures AllDirected(ctx, ClaimCalls(ctx, names).events)
    decreases |names|
  {
    if names != [] {
      ClaimCallsDirected(ctx, names[..|names| - 1]);
      var claim := FetchedClaim(ctx.source, names[|names| - 1]);
      if claim.spec.selector.Some? {
        VolumeCreatesDirected(ctx, ListedVolumes(ctx.source, claim.spec.selector.value.matchLabels));
      }
    }
  }

  lemma DirectedConcat(ctx: Context, a: seq<Event>, b: seq<Event>)
    requires AllDirected(ctx, a) && AllDirected(ctx, b)
    ensures AllDirected(ctx, a + b)
  {
  }

  lemma PodStepDirected(ctx: Context, p: Pod)
    ensures AllDirected(ctx, PodStep(ctx, p).events)
  {
    if IsRunning(p) && Extract(p.spec).Extracted? {
      var deps := Extract(p.spec).deps;
      ConfigMapCallsDirected(ctx, deps.configMaps);
      SecretCallsDirected(ctx, deps.secrets);
      ClaimCallsDirected(ctx, deps.claims);
      var a, b := ConfigMapCalls(ctx, deps.configMaps), SecretCalls(ctx, deps.secrets);
      var c := ClaimCalls(ctx, deps.claims).events;
      DirectedConcat(ctx, a, b);
      DirectedConcat(ctx, a + b, c);
      DirectedConcat(ctx, a + b + c, [Create(Target, PodObject(RehomedPod(p, ctx.targetNamespace)))]);
    }
  }

  lemma {:induction false} PodCallsDirected(ctx: Context, pods: seq<Pod>)
    ensures AllDirected(ctx, PodCalls(ctx, pods).events)
    decreases |pods|
  {
    if pods != [] {
      var prev := PodCalls(ctx, pods[..|pods| - 1]);
      PodCallsDirected(ctx, pods[..|pods| - 1]);
      if prev.outcome == Ok {
        PodStepDirected(ctx, pods[|pods| - 1]);
        DirectedConcat(ctx, prev.events, PodStep(ctx, pods[|pods| - 1]).events);
      }
    }
  }

  /** The source is only read: every Get and List of a run goes to the
      source (namespaced ones in the source namespace), every Create goes to
      the target, and every created object, volumes included, carries the
      target namespace. */
  lemma ReplicationDirected(ctx: Context)
    ensures AllDirected(ctx, ReplicationCalls(ctx).events)
    ensures forall e :: e in ReplicationCalls(ctx).events ==> (e.side == Source <==> !e.Create?)
  {
    PodCallsDirected(ctx, ctx.source.pods);
  }
}
