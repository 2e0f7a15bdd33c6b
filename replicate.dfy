/** The replicator of replicate.go as a client object: the source cluster it
    only reads, the target cluster its creates change and the trace of every
    call it issues. Each method is proved to issue exactly the calls that
    `Calls` describes and to leave the target as those calls make it. */
module Replicate {
  import opened Kube
  import opened Store
  import opened Extractor
  import opened Calls

  class KubeClient {
    /** What the source cluster answers; the replicator never writes it. */
    const source: SourceCluster
    const sourceNamespace: string
    const targetNamespace: string
    var target: TargetCluster
    /** Every Get, List and Create issued so far, in order. */
    var trace: seq<Event>
    /** The target as it was before the first call. */
    ghost const initialTarget: TargetCluster

    /** The target is always what the calls issued so far made of it. */
    ghost predicate Valid()
      reads this
    {
      target == Apply(initialTarget, trace)
    }

    function Ctx(): Context {
      Context(source, sourceNamespace, targetNamespace)
    }

    constructor (source: SourceCluster, target: TargetCluster, sourceNamespace: string, targetNamespace: string)
      ensures this.source == source && this.target == target
      ensures this.sourceNamespace == sourceNamespace && this.targetNamespace == targetNamespace
      ensures trace == [] && Valid()
    {
      this.source := source;
      this.target := target;
      initialTarget := target;
      this.sourceNamespace := sourceNamespace;
      this.targetNamespace := targetNamespace;
      trace := [];
    }

    // ------------------------------------------------------ cluster calls

    /** A Get that fails yields the zero ConfigMap and `found` false. */
    method GetConfigMap(name: Name) returns (c: ConfigMap, found: bool)
      requires Valid()
      modifies this`trace
      ensures trace == old(trace) + [Get(Source, ConfigMapKind, sourceNamespace, name)]
      ensures found <==> name in source.configMaps
      ensures c == FetchedConfigMap(source, name)
      ensures Valid()
    {
      found := name in source.configMaps;
      c := if found then source.configMaps[name] else ConfigMap(EmptyMeta, map[], map[]);
      ApplySnoc(initialTarget, trace, Get(Source, ConfigMapKind, sourceNamespace, name));
      trace := trace + [Get(Source, ConfigMapKind, sourceNamespace, name)];
    }

    method GetSecret(name: Name) returns (s: Secret, found: bool)
      requires Valid()
      modifies this`trace
      ensures trace == old(trace) + [Get(Source, SecretKind, sourceNamespace, name)]
      ensures found <==> name in source.secrets
      ensures s == FetchedSecret(source, name)
      ensures Valid()
    {
      found := name in source.secrets;
      s := if found then source.secrets[name] else Secret(EmptyMeta, map[], "");
      ApplySnoc(initialTarget, trace, Get(Source, SecretKind, sourceNamespace, name));
      trace := trace + [Get(Source, SecretKind, sourceNamespace, name)];
    }

    method GetClaim(name: Name) returns (c: PersistentVolumeClaim, found: bool)
      requires Valid()
      modifies this`trace
      ensures trace == old(trace) + [Get(Source, ClaimKind, sourceNamespace, name)]
      ensures found <==> name in source.claims
      ensures c == FetchedClaim(source, name)
      ensures !found ==> c.spec.selector.None?
      ensures Valid()
    {
      found := name in source.claims;
      c := if found then source.claims[name] else PersistentVolumeClaim(EmptyMeta, ClaimSpec(None, "", "", ""));
      ApplySnoc(initialTarget, trace, Get(Source, ClaimKind, sourceNamespace, name));
      trace := trace + [Get(Source, ClaimKind, sourceNamespace, name)];
    }

    /** The cluster-wide List of the volumes matching `selector`. */
    method ListVolumes(selector: Labels) returns (volumes: seq<PersistentVolume>)
      requires Valid()
      modifies this`trace
      ensures trace == old(trace) + [List(Source, VolumeKind, "", selector)]
      ensures volumes == ListedVolumes(source, selector)
      ensures Valid()
    {
      volumes := if selector in source.volumesBySelector then source.volumesBySelector[selector] else [];
      ApplySnoc(initialTarget, trace, List(Source, VolumeKind, "", selector));
      trace := trace + [List(Source, VolumeKind, "", selector)];
    }

    /** The List of the Pods of the source namespace; `failed` is its error. */
    method ListPods() returns (pods: seq<Pod>, failed: bool)
      requires Valid()
      modifies this`trace
      ensures trace == old(trace) + [List(Source, PodKind, sourceNamespace, map[])]
      ensures failed == source.podListFails
      ensures !failed ==> pods == source.pods
      ensures failed ==> pods == []
      ensures Valid()
    {
      failed := source.podListFails;
      pods := if failed then [] else source.pods;
      ApplySnoc(initialTarget, trace, List(Source, PodKind, sourceNamespace, map[]));
      trace := trace + [List(Source, PodKind, sourceNamespace, map[])];
    }

    /** A create on the target; `created` is false when the target refuses
        it (no name, or the name is taken), and then the target is
        unchanged. The replicator only logs that error. */
    method CreateOnTarget(obj: Object) returns (created: bool)
      requires Valid()
      modifies this`target, this`trace
      ensures trace == old(trace) + [Create(Target, obj)]
      ensures target == ApplyEvent(old(target), Create(Target, obj))
      ensures created <==> Admits(old(target), obj)
      ensures created ==> ObjectMetaOf(obj).name != ""
      ensures Valid()
    {
      created := Admits(target, obj);
      target := CreateIn(target, obj);
      ApplySnoc(initialTarget, trace, Create(Target, obj));
      trace := trace + [Create(Target, obj)];
    }

    // ------------------------------------------------------ replicators

    /** `replicateConfMap` (replicate.go:12-38): for each name, a Get and
        a create of the re-homed object, whatever the Get returned. */
    method ReplicateConfigMaps(names: seq<Name>)
      requires Valid()
      modifies this`target, this`trace
      ensures Valid()
      ensures trace == old(trace) + ConfigMapCalls(Ctx(), names)
      ensures target == Apply(old(target), ConfigMapCalls(Ctx(), names))
    {
      var i := 0;
      while i < |names|
        invariant 0 <= i <= |names|
        invariant Valid()
        invariant trace == old(trace) + ConfigMapCalls(Ctx(), names[..i])
      {
        var confMap, _ := GetConfigMap(names[i]);
        var confMapN := RehomedConfigMap(confMap, targetNamespace);
        var _ := CreateOnTarget(ConfigMapObject(confMapN));
        assert names[..i + 1][..i] == names[..i];
        i := i + 1;
      }
      assert names[..i] == names;
      ApplyAppend(initialTarget, old(trace), ConfigMapCalls(Ctx(), names));
    }

    /** `replicateSecrets` (replicate.go:40-66). */
    method ReplicateSecrets(names: seq<Name>)
      requires Valid()
      modifies this`target, this`trace
      ensures Valid()
      ensures trace == old(trace) + SecretCalls(Ctx(), names)
      ensures target == Apply(old(target), SecretCalls(Ctx(), names))
    {
      var i := 0;
      while i < |names|
        invariant 0 <= i <= |names|
        invariant Valid()
        invariant trace == old(trace) + SecretCalls(Ctx(), names[..i])
      {
        var secret, _ := GetSecret(names[i]);
        var secretN := RehomedSecret(secret, targetNamespace);
        var _ := CreateOnTarget(SecretObject(secretN));
        assert names[..i + 1][..i] == names[..i];
        i := i + 1;
      }
      assert names[..i] == names;
      ApplyAppend(initialTarget, old(trace), SecretCalls(Ctx(), names));
    }

    /** The volume loop of `replicatePvc` (replicate.go:97-102): each listed
        volume is created in the target with the target namespace. */
    method CreateVolumes(volumes: seq<PersistentVolume>)
      requires Valid()
      modifies this`target, this`trace
      ensures Valid()
      ensures trace == old(trace) + VolumeCreates(volumes, targetNamespace)
    {
      var j := 0;
      while j < |volumes|
        invariant 0 <= j <= |volumes|
        invariant Valid()
        invariant trace == old(trace) + VolumeCreates(volumes[..j], targetNamespace)
      {
        var pv := RehomedVolume(volumes[j], targetNamespace);
        var _ := CreateOnTarget(VolumeObject(pv));
        assert volumes[..j + 1][..j] == volumes[..j];
        j := j + 1;
      }
      assert volumes[..j] == volumes;
    }

    /** One iteration of `replicatePvc` (replicate.go:78-105); `Panicked`
        when the claim's selector is nil. */
    method ReplicateClaim(name: Name) returns (outcome: Outcome)
      requires Valid()
      modifies this`target, this`trace
      ensures Valid()
      ensures trace == old(trace) + ClaimStep(Ctx(), name).events
      ensures outcome == ClaimStep(Ctx(), name).outcome
    {
      var pvc, _ := GetClaim(name);
      var pvcN := RehomedClaim(pvc, targetNamespace);
      if pvc.spec.selector.None? {
        return Panicked;
      }
      var selector := pvc.spec.selector.value.matchLabels;
      var volumes := ListVolumes(selector);
      CreateVolumes(volumes);
      var _ := CreateOnTarget(ClaimObject(pvcN));
      outcome := Ok;
    }

    /** `replicatePvc` (replicate.go:68-107): its `recover` ends the loop at
        the first panic and returns normally. */
    method ReplicateClaims(names: seq<Name>) returns (outcome: Outcome)
      requires Valid()
      modifies this`target, this`trace
      ensures Valid()
      ensures trace == old(trace) + ClaimCalls(Ctx(), names).events
      ensures target == Apply(old(target), ClaimCalls(Ctx(), names).events)
      ensures outcome == ClaimCalls(Ctx(), names).outcome
    {
      outcome := Ok;
      var i := 0;
      assert names[..0] == [];
      while i < |names| && outcome == Ok
        invariant 0 <= i <= |names|
        invariant Valid()
        invariant outcome == ClaimCalls(Ctx(), names[..i]).outcome
        invariant trace == old(trace) + ClaimCalls(Ctx(), names[..i]).events
      {
        ClaimCallsStep(Ctx(), names, i);
        AppendAssoc(old(trace), ClaimCalls(Ctx(), names[..i]).events, ClaimStep(Ctx(), names[i]).events);
        outcome := ReplicateClaim(names[i]);
        i := i + 1;
      }
      if outcome == Panicked {
        ClaimCallsStopAtPanic(Ctx(), names, i);
      } else {
        assert names[..i] == names;
      }
      ApplyAppend(initialTarget, old(trace), ClaimCalls(Ctx(), names).events);
    }

    /** One iteration of the Pod loop of `replicatePods`
        (replicate.go:127-193). A panic of `replicatePvc` stays inside it;
        the scan's nil dereference is the Pod loop's own panic. */
    method ReplicatePod(p: Pod) returns (outcome: Outcome)
      requires Valid()
      modifies this`target, this`trace
      ensures Valid()
      ensures trace == old(trace) + PodStep(Ctx(), p).events
      ensures target == Apply(old(target), PodStep(Ctx(), p).events)
      ensures outcome == PodStep(Ctx(), p).outcome
    {
      if p.phase != Running {
        assert trace == old(trace) + [];
        return Ok;
      }
      var extraction := ExtractDependencies(p.spec);
      if extraction.NilConfigMapKeyRef? {
        assert trace == old(trace) + [];
        return Panicked;
      }
      var deps := extraction.deps;
      ghost var a := ConfigMapCalls(Ctx(), deps.configMaps);
      ghost var b := SecretCalls(Ctx(), deps.secrets);
      ghost var c := ClaimCalls(Ctx(), deps.claims).events;
      ReplicateConfigMaps(deps.configMaps);
      ReplicateSecrets(deps.secrets);
      AppendAssoc(old(trace), a, b);
      var _ := ReplicateClaims(deps.claims);
      AppendAssoc(old(trace), a + b, c);
      var newPod := RehomedPod(p, targetNamespace);
      var _ := CreateOnTarget(PodObject(newPod));
      ghost var d := [Create(Target, PodObject(newPod))];
      AppendAssoc(old(trace), a + b + c, d);
      assert PodStep(Ctx(), p).events == a + b + c + d;
      ApplyAppend(initialTarget, old(trace), PodStep(Ctx(), p).events);
      outcome := Ok;
    }

    /** `replicatePods` (replicate.go:109-195): list the Pods, then replicate
        them one by one; its `recover` ends the loop at the first panic,
        including the one raised when the List fails. */
    method ReplicatePods() returns (outcome: Outcome)
      requires Valid()
      modifies this`target, this`trace
      ensures Valid()
      ensures trace == old(trace) + ReplicationCalls(Ctx()).events
      ensures target == Apply(old(target), ReplicationCalls(Ctx()).events)
      ensures outcome == ReplicationCalls(Ctx()).outcome
      ensures Extends(old(target), target)
    {
      ghost var list := [List(Source, PodKind, sourceNamespace, map[])];
      var pods, failed := ListPods();
      if failed {
        ApplyAppend(initialTarget, old(trace), list);
        ApplyOnlyAdds(old(target), list);
        return Panicked;
      }
      outcome := Ok;
      var i := 0;
      assert pods[..0] == [];
      while i < |pods| && outcome == Ok
        invariant 0 <= i <= |pods|
        invariant Valid()
        invariant outcome == PodCalls(Ctx(), pods[..i]).outcome
        invariant trace == old(trace) + list + PodCalls(Ctx(), pods[..i]).events
      {
        PodCallsStep(Ctx(), pods, i);
        AppendAssoc(old(trace) + list, PodCalls(Ctx(), pods[..i]).events, PodStep(Ctx(), pods[i]).events);
        outcome := ReplicatePod(pods[i]);
        i := i + 1;
      }
      if outcome == Panicked {
        PodCallsStopAtPanic(Ctx(), pods, i);
      } else {
        assert pods[..i] == pods;
      }
      AppendAssoc(old(trace), list, PodCalls(Ctx(), pods).events);
      ApplyAppend(initialTarget, old(trace), ReplicationCalls(Ctx()).events);
      ApplyOnlyAdds(old(target), ReplicationCalls(Ctx()).events);
    }
  }
}
