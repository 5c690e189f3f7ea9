/** Whether a Pod or Job is managed by a controller whose policy is
    auto-generated (pkg/engine/utils.go: excludeResource,
    ManagedPodResource). Such a resource is skipped: the generated
    controller rule already covers it. */
module PodControllers {
  import opened EngineTypes

  /** The policy annotation that lists the controllers rules are generated for. */
  const PodControllersAnnotation := "pod-policies.kyverno.io/autogen-controllers"

  /** `sub` occurs in `s` starting at index `i`. */
  predicate OccursAt(s: string, sub: string, i: nat) {
    i + |sub| <= |s| && s[i..i + |sub|] == sub
  }

  /** Dropping the first character shifts every occurrence one place left. */
  lemma OccursAtShift(s: string, sub: string, i: nat)
    requires |s| > 0
    ensures OccursAt(s, sub, i + 1) <==> OccursAt(s[1..], sub, i)
  {
    if i + 1 + |sub| <= |s| {
      assert s[i + 1..i + 1 + |sub|] == s[1..][i..i + |sub|];
    }
  }

  /** strings.Contains: `sub` occurs somewhere in `s`. The empty string
      occurs in every string. */
  function Contains(s: string, sub: string): (r: bool)
    ensures r <==> exists i: nat :: OccursAt(s, sub, i)
    decreases |s|
  {
    if sub <= s then
      assert OccursAt(s, sub, 0);
      true
    else if |s| == 0 then false
    else
      var rest := Contains(s[1..], sub);
      assert rest ==> exists i: nat :: OccursAt(s, sub, i) by {
        if rest {
          var j: nat :| OccursAt(s[1..], sub, j);
          OccursAtShift(s, sub, j);
          assert OccursAt(s, sub, j + 1);
        }
      }
      assert (exists i: nat :: OccursAt(s, sub, i)) ==> rest by {
        if exists i: nat :: OccursAt(s, sub, i) {
          var i: nat :| OccursAt(s, sub, i);
          assert i != 0;
          OccursAtShift(s, sub, i - 1);
        }
      }
      rest
  }

  /** ASCII lower-casing of one character. */
  function LowerChar(ch: char): char {
    if 'A' <= ch <= 'Z' then (ch as int + 32) as char else ch
  }

  /** strings.ToLower, restricted to ASCII letters. */
  function ToLower(s: string): (r: string)
    ensures |r| == |s|
    ensures forall i :: 0 <= i < |s| ==> r[i] == LowerChar(s[i])
    decreases |s|
  {
    if |s| == 0 then [] else [LowerChar(s[0])] + ToLower(s[1..])
  }

  /** A character lower-cases to a given lower-case letter exactly when it
      is that letter or its capital. */
  lemma LowerCharIs(ch: char, letter: char)
    requires 'a' <= letter <= 'z'
    ensures LowerChar(ch) == letter <==> ch in [letter, (letter as int - 32) as char]
  {
  }

  /** Lower-casing a four-character string, character by character. */
  lemma ToLowerFour(s: string)
    requires |s| == 4
    ensures ToLower(s) == [LowerChar(s[0]), LowerChar(s[1]), LowerChar(s[2]), LowerChar(s[3])]
  {
  }

  /** Exactly the sixteen letter-case spellings of "none" lower-case to
      "none", and so switch auto-generation off. */
  lemma NoneInAnyCase(s: string)
    ensures ToLower(s) == "none" <==>
      |s| == 4 && s[0] in "nN" && s[1] in "oO" && s[2] in "nN" && s[3] in "eE"
  {
    if |s| == 4 {
      ToLowerFour(s);
      LowerCharIs(s[0], 'n');
      LowerCharIs(s[1], 'o');
      LowerCharIs(s[2], 'n');
      LowerCharIs(s[3], 'e');
    }
  }

  /** An owner the auto-generated rules account for: a ReplicaSet, or a kind
      named inside the annotation value. */
  predicate OwnerCovered(podControllers: string, owner: OwnerReference) {
    owner.kind == "ReplicaSet" || Contains(podControllers, owner.kind)
  }

  /** The decision excludeResource makes: a Pod or Job with at least one
      owner, every one of them covered. */
  predicate ControllerManaged(podControllers: string, resource: Resource) {
    && (resource.Kind() == "Pod" || resource.Kind() == "Job")
    && |resource.ownerReferences| > 0
    && forall k :: 0 <= k < |resource.ownerReferences| ==> OwnerCovered(podControllers, resource.ownerReferences[k])
  }

  /** excludeResource: scans the owners, stopping at the first uncovered one. */
  method ExcludeResource(podControllers: string, resource: Resource) returns (r: bool)
    ensures r <==> ControllerManaged(podControllers, resource)
  {
    var kind := resource.Kind();
    var hasOwner := false;
    if kind == "Pod" || kind == "Job" {
      var owners := resource.ownerReferences;
      var i := 0;
      while i < |owners|
        invariant 0 <= i <= |owners|
        invariant hasOwner <==> i > 0
        invariant forall k :: 0 <= k < i ==> OwnerCovered(podControllers, owners[k])
      {
        var owner := owners[i];
        hasOwner := true;
        if owner.kind != "ReplicaSet" && !Contains(podControllers, owner.kind) {
          return false;
        }
        i := i + 1;
      }
      return hasOwner;
    }
    return false;
  }

  /** The decision ManagedPodResource makes: the annotation is present, is
      not "none" in any letter case, and the resource is controller-managed. */
  predicate PodIsManaged(annotations: map<string, string>, resource: Resource) {
    && PodControllersAnnotation in annotations
    && ToLower(annotations[PodControllersAnnotation]) != "none"
    && ControllerManaged(annotations[PodControllersAnnotation], resource)
  }

  /** ManagedPodResource, given the policy's annotations. The second test,
      for a CronJob entry, repeats the first under a stronger condition and
      so never changes the answer. */
  method ManagedPodResource(annotations: map<string, string>, resource: Resource) returns (r: bool)
    ensures r <==> PodIsManaged(annotations, resource)
  {
    if PodControllersAnnotation !in annotations {
      return false;
    }
    var podControllers := annotations[PodControllersAnnotation];
    if ToLower(podControllers) == "none" {
      return false;
    }
    var excluded := ExcludeResource(podControllers, resource);
    if excluded {
      return true;
    }
    if Contains(podControllers, "CronJob") {
      excluded := ExcludeResource(podControllers, resource);
      if excluded {
        return true;
      }
    }
    return false;
  }

  /** Only a Pod or a Job with an owner can ever be managed; in particular a
      bare Pod never is. */
  lemma OnlyOwnedPodsAndJobs(annotations: map<string, string>, resource: Resource)
    requires PodIsManaged(annotations, resource)
    ensures resource.Kind() == "Pod" || resource.Kind() == "Job"
    ensures resource.ownerReferences != []
  {
  }

  /** An owner whose kind is empty is covered by any annotation value, since
      the empty string occurs in every string. */
  lemma EmptyOwnerKindCovered(podControllers: string, name: string)
    ensures OwnerCovered(podControllers, OwnerReference("", name))
  {
    assert OccursAt(podControllers, "", 0);
  }

  /** A Pod owned only by ReplicaSets is managed under any annotation value
      other than "none", whatever controllers it lists. */
  lemma ReplicaSetOwnedPodManaged(annotations: map<string, string>, resource: Resource)
    requires PodControllersAnnotation in annotations
    requires ToLower(annotations[PodControllersAnnotation]) != "none"
    requires resource.Kind() == "Pod" && |resource.ownerReferences| > 0
    requires forall k :: 0 <= k < |resource.ownerReferences| ==> resource.ownerReferences[k].kind == "ReplicaSet"
    ensures PodIsManaged(annotations, resource)
  {
  }

  /** A single owner of a kind that does not occur in the annotation value,
      and is not a ReplicaSet, keeps the resource unmanaged. */
  lemma UncoveredOwnerUnmanaged(annotations: map<string, string>, resource: Resource, k: nat)
    requires k < |resource.ownerReferences|
    requires resource.ownerReferences[k].kind != "ReplicaSet"
    requires PodControllersAnnotation in annotations
    requires !Contains(annotations[PodControllersAnnotation], resource.ownerReferences[k].kind)
    ensures !PodIsManaged(annotations, resource)
  {
  }
}
