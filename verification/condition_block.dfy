/** Whether a resource satisfies one condition block of a rule
    (pkg/engine/utils.go: checkNameSpace, matchSubjects,
    doesResourceMatchConditionBlock). Within the resource description the
    attributes are combined with AND and the entries of a list-valued
    attribute with OR; each failing attribute yields one reason. */
module ConditionBlock {
  import opened EngineTypes

  /** The value namespace patterns are matched against: a Namespace is
      matched by its own name, any other resource by its namespace. */
  function NamespaceOf(resource: Resource): string {
    if resource.Kind() == "Namespace" then resource.name else resource.namespace
  }

  /** Some namespace pattern matches the resource's namespace. */
  predicate SomeNamespaceMatches(c: Collaborators, namespaces: seq<string>, resource: Resource) {
    exists k :: 0 <= k < |namespaces| && c.wildcard(namespaces[k], NamespaceOf(resource))
  }

  /** checkNameSpace: the patterns are tried in order and the first match
      wins; no pattern (in particular an empty list) means no match. */
  method CheckNameSpace(c: Collaborators, namespaces: seq<string>, resource: Resource) returns (r: bool)
    ensures r <==> SomeNamespaceMatches(c, namespaces, resource)
  {
    var resourceNamespace := resource.namespace;
    if resource.Kind() == "Namespace" {
      resourceNamespace := resource.name;
    }
    var i := 0;
    while i < |namespaces|
      invariant 0 <= i <= |namespaces|
      invariant forall k :: 0 <= k < i ==> !c.wildcard(namespaces[k], resourceNamespace)
    {
      if c.wildcard(namespaces[i], resourceNamespace) {
        return true;
      }
      i := i + 1;
    }
    return false;
  }

  /** How the mock store compares one rule subject with its configured
      subject; subjects of any other kind never match. */
  predicate MockSubjectMatches(subject: Subject, mock: Subject) {
    match subject.kind
    case "ServiceAccount" => subject.name == mock.name && subject.namespace == mock.namespace
    case "User" => mock.name == subject.name
    case "Group" => mock.name == subject.name
    case _ => false
  }

  /** Whether the rule's subjects admit the requester: under the mock store
      some subject must match the configured one; otherwise the decision is
      the subject check's. */
  predicate SubjectsMatch(c: Collaborators, subjects: seq<Subject>, user: AdmissionUserInfo, dynamicConfig: seq<string>) {
    match c.mock
    case None => c.checkSubjects(subjects, user, dynamicConfig)
    case Some(mock) => exists k :: 0 <= k < |subjects| && MockSubjectMatches(subjects[k], mock)
  }

  /** matchSubjects: under the mock store the subjects are scanned in order
      and the first match wins. */
  method MatchSubjects(c: Collaborators, subjects: seq<Subject>, user: AdmissionUserInfo, dynamicConfig: seq<string>) returns (r: bool)
    ensures r <==> SubjectsMatch(c, subjects, user, dynamicConfig)
  {
    if c.mock.Some? {
      var mock := c.mock.value;
      var i := 0;
      while i < |subjects|
        invariant 0 <= i <= |subjects|
        invariant forall k :: 0 <= k < i ==> !MockSubjectMatches(subjects[k], mock)
      {
        var subject := subjects[i];
        if subject.kind == "ServiceAccount" {
          if subject.name == mock.name && subject.namespace == mock.namespace {
            return true;
          }
        } else if subject.kind == "User" || subject.kind == "Group" {
          if mock.name == subject.name {
            return true;
          }
        }
        i := i + 1;
      }
      return false;
    } else {
      return c.checkSubjects(subjects, user, dynamicConfig);
    }
  }

  /** The name the name checks use: the resource's name, or its generateName
      when the name is still empty. */
  function CheckedName(resource: Resource): string {
    if resource.name == "" then resource.generateName else resource.name
  }

  predicate SomeNameMatches(c: Collaborators, names: seq<string>, name: string) {
    exists k :: 0 <= k < |names| && c.checkName(names[k], name)
  }

  /** The namespace selector is consulted only for a namespaced kind: not a
      Namespace, and either a known kind or a wildcard kind list. */
  predicate NamespaceSelectorApplies(c: Collaborators, block: ResourceDescription, resource: Resource) {
    && block.namespaceSelector.Some?
    && resource.Kind() != "Namespace"
    && (resource.Kind() != "" || ("*" in block.kinds && c.wildcard("*", resource.Kind())))
  }

  function KindReasons(c: Collaborators, block: ResourceDescription, resource: Resource): seq<Reason> {
    if |block.kinds| > 0 && !c.checkKind(block.kinds, resource.gvk) then [KindMismatch] else []
  }

  function NameReasons(c: Collaborators, block: ResourceDescription, resource: Resource): seq<Reason> {
    if block.name != "" && !c.checkName(block.name, CheckedName(resource)) then [NameMismatch] else []
  }

  function NamesReasons(c: Collaborators, block: ResourceDescription, resource: Resource): seq<Reason> {
    if |block.names| > 0 && !SomeNameMatches(c, block.names, CheckedName(resource)) then [NoNameMatches] else []
  }

  function NamespaceReasons(c: Collaborators, block: ResourceDescription, resource: Resource): seq<Reason> {
    if |block.namespaces| > 0 && !SomeNamespaceMatches(c, block.namespaces, resource) then [NamespaceMismatch] else []
  }

  function AnnotationReasons(c: Collaborators, block: ResourceDescription, resource: Resource): seq<Reason> {
    if |block.annotations| > 0 && !c.checkAnnotations(block.annotations, resource.annotations) then [AnnotationsMismatch] else []
  }

  function LabelSelectorReasons(c: Collaborators, block: ResourceDescription, resource: Resource): seq<Reason> {
    if block.selector.None? then []
    else match c.checkSelector(block.selector.value, resource.labels)
      case SelectorError(msg) => [SelectorParseError(msg)]
      case SelectorResult(passed) => if passed then [] else [SelectorMismatch]
  }

  function NamespaceSelectorReasons(c: Collaborators, block: ResourceDescription, resource: Resource, namespaceLabels: map<string, string>): seq<Reason> {
    if !NamespaceSelectorApplies(c, block, resource) then []
    else match c.checkSelector(block.namespaceSelector.value, namespaceLabels)
      case SelectorError(msg) => [NamespaceSelectorParseError(msg)]
      case SelectorResult(passed) => if passed then [] else [NamespaceSelectorMismatch]
  }

  /** The resource-description reasons, in the order the attributes are checked. */
  function DescriptionReasons(c: Collaborators, block: ResourceDescription, resource: Resource, namespaceLabels: map<string, string>): seq<Reason> {
    KindReasons(c, block, resource)
    + NameReasons(c, block, resource)
    + NamesReasons(c, block, resource)
    + NamespaceReasons(c, block, resource)
    + AnnotationReasons(c, block, resource)
    + LabelSelectorReasons(c, block, resource)
    + NamespaceSelectorReasons(c, block, resource, namespaceLabels)
  }

  /** The requester's groups followed by its user name. */
  function RequesterKeys(admission: RequestInfo): seq<string> {
    admission.admissionUserInfo.groups + [admission.admissionUserInfo.username]
  }

  function RolesReasons(c: Collaborators, userInfo: UserInfo, admission: RequestInfo, dynamicConfig: seq<string>): seq<Reason> {
    if |userInfo.roles| > 0 && !c.sliceContains(RequesterKeys(admission), dynamicConfig)
       && !c.sliceContains(userInfo.roles, admission.roles)
    then [RolesMismatch] else []
  }

  function ClusterRolesReasons(c: Collaborators, userInfo: UserInfo, admission: RequestInfo, dynamicConfig: seq<string>): seq<Reason> {
    if |userInfo.clusterRoles| > 0 && !c.sliceContains(RequesterKeys(admission), dynamicConfig)
       && !c.sliceContains(userInfo.clusterRoles, admission.clusterRoles)
    then [ClusterRolesMismatch] else []
  }

  function SubjectsReasons(c: Collaborators, userInfo: UserInfo, admission: RequestInfo, dynamicConfig: seq<string>): seq<Reason> {
    if |userInfo.subjects| > 0 && !SubjectsMatch(c, userInfo.subjects, admission.admissionUserInfo, dynamicConfig)
    then [SubjectsMismatch] else []
  }

  /** The user-info reasons: roles and cluster roles are skipped for a
      requester named in the dynamic configuration. */
  function UserInfoReasons(c: Collaborators, userInfo: UserInfo, admission: RequestInfo, dynamicConfig: seq<string>): seq<Reason> {
    RolesReasons(c, userInfo, admission, dynamicConfig)
    + ClusterRolesReasons(c, userInfo, admission, dynamicConfig)
    + SubjectsReasons(c, userInfo, admission, dynamicConfig)
  }

  /** Everything that is wrong with the resource with respect to one block:
      resource-description reasons first, then user-info reasons. */
  function BlockReasons(c: Collaborators, block: ResourceDescription, userInfo: UserInfo, admission: RequestInfo,
                        resource: Resource, dynamicConfig: seq<string>, namespaceLabels: map<string, string>): seq<Reason> {
    DescriptionReasons(c, block, resource, namespaceLabels) + UserInfoReasons(c, userInfo, admission, dynamicConfig)
  }

  /** The scan over the `names` attribute: stops at the first name that matches. */
  method NoneOfTheNamesMatch(c: Collaborators, names: seq<string>, resourceName: string) returns (noneMatch: bool)
    ensures noneMatch <==> !SomeNameMatches(c, names, resourceName)
  {
    noneMatch := true;
    var i := 0;
    while i < |names|
      invariant 0 <= i <= |names|
      invariant noneMatch
      invariant forall k :: 0 <= k < i ==> !c.checkName(names[k], resourceName)
    {
      if c.checkName(names[i], resourceName) {
        noneMatch := false;
        break;
      }
      i := i + 1;
    }
  }

  /** The two selector checks of doesResourceMatchConditionBlock, appending
      to the reasons found so far. */
  method AppendSelectorErrors(c: Collaborators, block: ResourceDescription, resource: Resource, namespaceLabels: map<string, string>,
                              errs0: seq<Reason>)
    returns (errs: seq<Reason>)
    ensures errs == errs0 + LabelSelectorReasons(c, block, resource) + NamespaceSelectorReasons(c, block, resource, namespaceLabels)
  {
    errs := errs0;
    if block.selector.Some? {
      match c.checkSelector(block.selector.value, resource.labels)
      case SelectorError(msg) =>
        errs := errs + [SelectorParseError(msg)];
      case SelectorResult(passed) =>
        if !passed {
          errs := errs + [SelectorMismatch];
        }
    }
    assert errs == errs0 + LabelSelectorReasons(c, block, resource);
    ghost var done := errs;

    if NamespaceSelectorApplies(c, block, resource) {
      match c.checkSelector(block.namespaceSelector.value, namespaceLabels)
      case SelectorError(msg) =>
        errs := errs + [NamespaceSelectorParseError(msg)];
      case SelectorResult(passed) =>
        if !passed {
          errs := errs + [NamespaceSelectorMismatch];
        }
    }
    assert errs == done + NamespaceSelectorReasons(c, block, resource, namespaceLabels);
  }

  /** The first half of doesResourceMatchConditionBlock: the resource
      description, attribute by attribute. */
  method ResourceDescriptionErrors(c: Collaborators, block: ResourceDescription, resource: Resource, namespaceLabels: map<string, string>)
    returns (errs: seq<Reason>)
    ensures errs == DescriptionReasons(c, block, resource, namespaceLabels)
  {
    errs := [];
    if |block.kinds| > 0 {
      if !c.checkKind(block.kinds, resource.gvk) {
        errs := errs + [KindMismatch];
      }
    }
    assert errs == KindReasons(c, block, resource);
    ghost var done := errs;

    var resourceName := resource.name;
    if resourceName == "" {
      resourceName := resource.generateName;
    }
    if block.name != "" {
      if !c.checkName(block.name, resourceName) {
        errs := errs + [NameMismatch];
      }
    }
    assert errs == done + NameReasons(c, block, resource);
    done := errs;

    if |block.names| > 0 {
      var noneMatch := NoneOfTheNamesMatch(c, block.names, resourceName);
      if noneMatch {
        errs := errs + [NoNameMatches];
      }
    }
    assert errs == done + NamesReasons(c, block, resource);
    done := errs;

    if |block.namespaces| > 0 {
      var namespaceMatches := CheckNameSpace(c, block.namespaces, resource);
      if !namespaceMatches {
        errs := errs + [NamespaceMismatch];
      }
    }
    assert errs == done + NamespaceReasons(c, block, resource);
    done := errs;

    if |block.annotations| > 0 {
      if !c.checkAnnotations(block.annotations, resource.annotations) {
        errs := errs + [AnnotationsMismatch];
      }
    }
    assert errs == done + AnnotationReasons(c, block, resource);

    errs := AppendSelectorErrors(c, block, resource, namespaceLabels, errs);
  }

  /** The second half of doesResourceMatchConditionBlock: the user info. */
  method UserInfoErrors(c: Collaborators, userInfo: UserInfo, admission: RequestInfo, dynamicConfig: seq<string>)
    returns (userInfoErrors: seq<Reason>)
    ensures userInfoErrors == UserInfoReasons(c, userInfo, admission, dynamicConfig)
  {
    var keys := RequesterKeys(admission);
    userInfoErrors := [];
    if |userInfo.roles| > 0 && !c.sliceContains(keys, dynamicConfig) {
      if !c.sliceContains(userInfo.roles, admission.roles) {
        userInfoErrors := userInfoErrors + [RolesMismatch];
      }
    }
    if |userInfo.clusterRoles| > 0 && !c.sliceContains(keys, dynamicConfig) {
      if !c.sliceContains(userInfo.clusterRoles, admission.clusterRoles) {
        userInfoErrors := userInfoErrors + [ClusterRolesMismatch];
      }
    }
    if |userInfo.subjects| > 0 {
      var subjectsMatch := MatchSubjects(c, userInfo.subjects, admission.admissionUserInfo, dynamicConfig);
      if !subjectsMatch {
        userInfoErrors := userInfoErrors + [SubjectsMismatch];
      }
    }
  }

  /** doesResourceMatchConditionBlock: the resource-description reasons
      followed by the user-info reasons. */
  method DoesResourceMatchConditionBlock(c: Collaborators, block: ResourceDescription, userInfo: UserInfo, admission: RequestInfo,
                                         resource: Resource, dynamicConfig: seq<string>, namespaceLabels: map<string, string>)
    returns (errs: seq<Reason>)
    ensures errs == BlockReasons(c, block, userInfo, admission, resource, dynamicConfig, namespaceLabels)
  {
    errs := ResourceDescriptionErrors(c, block, resource, namespaceLabels);
    var userInfoErrors := UserInfoErrors(c, userInfo, admission, dynamicConfig);
    errs := errs + userInfoErrors;
  }

  /** The position of a reason's attribute in the order the block checks them. */
  function Rank(r: Reason): nat {
    match r
    case KindMismatch => 0
    case NameMismatch => 1
    case NoNameMatches => 2
    case NamespaceMismatch => 3
    case AnnotationsMismatch => 4
    case SelectorParseError(_) => 5
    case SelectorMismatch => 5
    case NamespaceSelectorParseError(_) => 6
    case NamespaceSelectorMismatch => 6
    case RolesMismatch => 7
    case ClusterRolesMismatch => 8
    case SubjectsMismatch => 9
    case _ => 10
  }

  /** Every reason ranks in [lo, hi) and ranks strictly increase along the sequence. */
  predicate RankedWithin(s: seq<Reason>, lo: nat, hi: nat) {
    && (forall i :: 0 <= i < |s| ==> lo <= Rank(s[i]) < hi)
    && (forall i, j :: 0 <= i < j < |s| ==> Rank(s[i]) < Rank(s[j]))
  }

  lemma RankedConcat(a: seq<Reason>, b: seq<Reason>, lo: nat, mid: nat, hi: nat)
    requires lo <= mid <= hi
    requires RankedWithin(a, lo, mid) && RankedWithin(b, mid, hi)
    ensures RankedWithin(a + b, lo, hi)
  {
    var s := a + b;
    forall i | 0 <= i < |s| ensures lo <= Rank(s[i]) < hi {
      if i < |a| {
        assert s[i] == a[i];
      } else {
        assert s[i] == b[i - |a|];
      }
    }
    forall i, j | 0 <= i < j < |s| ensures Rank(s[i]) < Rank(s[j]) {
      if j < |a| {
        assert s[i] == a[i] && s[j] == a[j];
      } else if i < |a| {
        assert s[i] == a[i] && s[j] == b[j - |a|];
      } else {
        assert s[i] == b[i - |a|] && s[j] == b[j - |a|];
      }
    }
  }

  /** Seven lists holding ranks 0 to 6 respectively, concatenated in order. */
  lemma RankedSeven(a: seq<Reason>, b: seq<Reason>, c: seq<Reason>, d: seq<Reason>, e: seq<Reason>, f: seq<Reason>, g: seq<Reason>)
    requires RankedWithin(a, 0, 1) && RankedWithin(b, 1, 2) && RankedWithin(c, 2, 3) && RankedWithin(d, 3, 4)
    requires RankedWithin(e, 4, 5) && RankedWithin(f, 5, 6) && RankedWithin(g, 6, 7)
    ensures RankedWithin(a + b + c + d + e + f + g, 0, 7)
  {
    RankedConcat(a, b, 0, 1, 2);
    RankedConcat(a + b, c, 0, 2, 3);
    RankedConcat(a + b + c, d, 0, 3, 4);
    RankedConcat(a + b + c + d, e, 0, 4, 5);
    RankedConcat(a + b + c + d + e, f, 0, 5, 6);
    RankedConcat(a + b + c + d + e + f, g, 0, 6, 7);
  }

  /** The resource-description reasons rank 0 to 6 and strictly increase. */
  lemma DescriptionReasonsRanked(c: Collaborators, block: ResourceDescription, resource: Resource, namespaceLabels: map<string, string>)
    ensures RankedWithin(DescriptionReasons(c, block, resource, namespaceLabels), 0, 7)
  {
    RankedSeven(KindReasons(c, block, resource), NameReasons(c, block, resource), NamesReasons(c, block, resource),
                NamespaceReasons(c, block, resource), AnnotationReasons(c, block, resource),
                LabelSelectorReasons(c, block, resource), NamespaceSelectorReasons(c, block, resource, namespaceLabels));
  }

  /** The user-info reasons rank 7 to 9 and strictly increase. */
  lemma UserInfoReasonsRanked(c: Collaborators, userInfo: UserInfo, admission: RequestInfo, dynamicConfig: seq<string>)
    ensures RankedWithin(UserInfoReasons(c, userInfo, admission, dynamicConfig), 7, 10)
  {
    var roles := RolesReasons(c, userInfo, admission, dynamicConfig);
    var clusterRoles := ClusterRolesReasons(c, userInfo, admission, dynamicConfig);
    RankedConcat(roles, clusterRoles, 7, 8, 9);
    RankedConcat(roles + clusterRoles, SubjectsReasons(c, userInfo, admission, dynamicConfig), 7, 9, 10);
  }

  /** A ranked list holds no reason ranked above its bound. */
  lemma RankedExcludes(s: seq<Reason>, lo: nat, hi: nat, x: Reason)
    requires RankedWithin(s, lo, hi) && hi <= Rank(x)
    ensures x !in s
  {
  }

  /** What a strictly ranked reason list guarantees. */
  lemma RankedConsequences(s: seq<Reason>)
    requires RankedWithin(s, 0, 10)
    ensures forall i, j :: 0 <= i < j < |s| ==> s[i] != s[j]
    ensures forall i, j :: 0 <= i < j < |s| && s[i].IsUserInfoReason() ==> s[j].IsUserInfoReason()
  {
    forall i, j | 0 <= i < j < |s| && s[i].IsUserInfoReason() ensures s[j].IsUserInfoReason() {
      assert Rank(s[i]) >= 7;
    }
  }

  /** The reasons of one block come in attribute order, each at most once,
      resource-description reasons (ranks 0 to 6) before user-info reasons
      (ranks 7 to 9). */
  lemma BlockReasonsOrdered(c: Collaborators, block: ResourceDescription, userInfo: UserInfo, admission: RequestInfo,
                            resource: Resource, dynamicConfig: seq<string>, namespaceLabels: map<string, string>)
    ensures var errs := BlockReasons(c, block, userInfo, admission, resource, dynamicConfig, namespaceLabels);
      && RankedWithin(errs, 0, 10)
      && (forall i, j :: 0 <= i < j < |errs| ==> errs[i] != errs[j])
      && (forall i, j :: 0 <= i < j < |errs| && errs[i].IsUserInfoReason() ==> errs[j].IsUserInfoReason())
  {
    var d := DescriptionReasons(c, block, resource, namespaceLabels);
    var u := UserInfoReasons(c, userInfo, admission, dynamicConfig);
    DescriptionReasonsRanked(c, block, resource, namespaceLabels);
    UserInfoReasonsRanked(c, userInfo, admission, dynamicConfig);
    RankedConcat(d, u, 0, 7, 10);
    RankedConsequences(d + u);
  }

  /** Each attribute is consulted only when it is set: an empty block with
      empty user info yields no reason at all. */
  lemma EmptyBlockHasNoReasons(c: Collaborators, admission: RequestInfo, resource: Resource,
                               dynamicConfig: seq<string>, namespaceLabels: map<string, string>)
    ensures BlockReasons(c, EmptyResourceDescription, EmptyUserInfo, admission, resource, dynamicConfig, namespaceLabels) == []
  {
  }

  /** Membership in seven concatenated lists is membership in one of them. */
  lemma InSeven(a: seq<Reason>, b: seq<Reason>, c: seq<Reason>, d: seq<Reason>, e: seq<Reason>, f: seq<Reason>, g: seq<Reason>, x: Reason)
    ensures x in a + b + c + d + e + f + g <==> x in a || x in b || x in c || x in d || x in e || x in f || x in g
  {
  }

  /** A reason is in the resource-description list exactly when the check
      of its own attribute produced it. */
  lemma DescriptionMembership(c: Collaborators, block: ResourceDescription, resource: Resource,
                              namespaceLabels: map<string, string>, x: Reason)
    ensures x in DescriptionReasons(c, block, resource, namespaceLabels) <==>
      match x
      case KindMismatch => x in KindReasons(c, block, resource)
      case NameMismatch => x in NameReasons(c, block, resource)
      case NoNameMatches => x in NamesReasons(c, block, resource)
      case NamespaceMismatch => x in NamespaceReasons(c, block, resource)
      case AnnotationsMismatch => x in AnnotationReasons(c, block, resource)
      case SelectorParseError(_) => x in LabelSelectorReasons(c, block, resource)
      case SelectorMismatch => x in LabelSelectorReasons(c, block, resource)
      case NamespaceSelectorParseError(_) => x in NamespaceSelectorReasons(c, block, resource, namespaceLabels)
      case NamespaceSelectorMismatch => x in NamespaceSelectorReasons(c, block, resource, namespaceLabels)
      case _ => false
  {
    InSeven(KindReasons(c, block, resource), NameReasons(c, block, resource), NamesReasons(c, block, resource),
            NamespaceReasons(c, block, resource), AnnotationReasons(c, block, resource),
            LabelSelectorReasons(c, block, resource), NamespaceSelectorReasons(c, block, resource, namespaceLabels), x);
  }

  /** What the kind and name reasons mean. The name checks use the
      generateName when the name is empty, and the `names` list contributes
      a single reason however long it is. */
  lemma IdentityReasonsCharacterized(c: Collaborators, block: ResourceDescription, resource: Resource,
                                     namespaceLabels: map<string, string>)
    ensures var errs := DescriptionReasons(c, block, resource, namespaceLabels);
      && (KindMismatch in errs <==> |block.kinds| > 0 && !c.checkKind(block.kinds, resource.gvk))
      && (NameMismatch in errs <==> block.name != "" && !c.checkName(block.name, CheckedName(resource)))
      && (NoNameMatches in errs <==>
            |block.names| > 0 && forall k :: 0 <= k < |block.names| ==> !c.checkName(block.names[k], CheckedName(resource)))
      && (forall i, j :: 0 <= i < j < |errs| && errs[i] == NoNameMatches ==> errs[j] != NoNameMatches)
  {
    DescriptionReasonsRanked(c, block, resource, namespaceLabels);
    DescriptionMembership(c, block, resource, namespaceLabels, KindMismatch);
    DescriptionMembership(c, block, resource, namespaceLabels, NameMismatch);
    DescriptionMembership(c, block, resource, namespaceLabels, NoNameMatches);
  }

  /** What the namespace and annotation reasons mean: a Namespace is
      placed by its own name. */
  lemma PlacementReasonsCharacterized(c: Collaborators, block: ResourceDescription, resource: Resource,
                                      namespaceLabels: map<string, string>)
    ensures var errs := DescriptionReasons(c, block, resource, namespaceLabels);
      && (NamespaceMismatch in errs <==>
            |block.namespaces| > 0 && forall k :: 0 <= k < |block.namespaces| ==> !c.wildcard(block.namespaces[k], NamespaceOf(resource)))
      && (AnnotationsMismatch in errs <==> |block.annotations| > 0 && !c.checkAnnotations(block.annotations, resource.annotations))
  {
    DescriptionMembership(c, block, resource, namespaceLabels, NamespaceMismatch);
    DescriptionMembership(c, block, resource, namespaceLabels, AnnotationsMismatch);
  }

  /** What the selector reasons mean: a selector that cannot be parsed is
      reported as such rather than as a mismatch. */
  lemma SelectionReasonsCharacterized(c: Collaborators, block: ResourceDescription, resource: Resource,
                                      namespaceLabels: map<string, string>, msg: string)
    ensures var errs := DescriptionReasons(c, block, resource, namespaceLabels);
      && (SelectorParseError(msg) in errs <==>
            block.selector.Some? && c.checkSelector(block.selector.value, resource.labels) == SelectorError(msg))
      && (SelectorMismatch in errs <==>
            block.selector.Some? && c.checkSelector(block.selector.value, resource.labels) == SelectorResult(false))
      && (NamespaceSelectorParseError(msg) in errs <==>
            NamespaceSelectorApplies(c, block, resource) && c.checkSelector(block.namespaceSelector.value, namespaceLabels) == SelectorError(msg))
      && (NamespaceSelectorMismatch in errs <==>
            NamespaceSelectorApplies(c, block, resource) && c.checkSelector(block.namespaceSelector.value, namespaceLabels) == SelectorResult(false))
  {
    DescriptionMembership(c, block, resource, namespaceLabels, SelectorParseError(msg));
    DescriptionMembership(c, block, resource, namespaceLabels, SelectorMismatch);
    DescriptionMembership(c, block, resource, namespaceLabels, NamespaceSelectorParseError(msg));
    DescriptionMembership(c, block, resource, namespaceLabels, NamespaceSelectorMismatch);
  }

  /** What each user-info reason means. */
  lemma UserInfoReasonsCharacterized(c: Collaborators, userInfo: UserInfo, admission: RequestInfo, dynamicConfig: seq<string>)
    ensures var errs := UserInfoReasons(c, userInfo, admission, dynamicConfig);
      && (RolesMismatch in errs <==>
            |userInfo.roles| > 0 && !c.sliceContains(RequesterKeys(admission), dynamicConfig) && !c.sliceContains(userInfo.roles, admission.roles))
      && (ClusterRolesMismatch in errs <==>
            |userInfo.clusterRoles| > 0 && !c.sliceContains(RequesterKeys(admission), dynamicConfig)
            && !c.sliceContains(userInfo.clusterRoles, admission.clusterRoles))
      && (SubjectsMismatch in errs <==>
            |userInfo.subjects| > 0 && !SubjectsMatch(c, userInfo.subjects, admission.admissionUserInfo, dynamicConfig))
  {
  }

  /** The user-info attributes combined with AND: every set attribute must
      pass (roles and cluster roles unless the requester is privileged). The
      comment before doesResourceMatchConditionBlock asks for OR instead; the
      code does this. */
  predicate UserInfoPasses(c: Collaborators, userInfo: UserInfo, admission: RequestInfo, dynamicConfig: seq<string>) {
    && ((|userInfo.roles| > 0 && !c.sliceContains(RequesterKeys(admission), dynamicConfig))
          ==> c.sliceContains(userInfo.roles, admission.roles))
    && ((|userInfo.clusterRoles| > 0 && !c.sliceContains(RequesterKeys(admission), dynamicConfig))
          ==> c.sliceContains(userInfo.clusterRoles, admission.clusterRoles))
    && (|userInfo.subjects| > 0 ==> SubjectsMatch(c, userInfo.subjects, admission.admissionUserInfo, dynamicConfig))
  }

  /** The user info raises no reason exactly when every set attribute passes. */
  lemma UserInfoPassesIff(c: Collaborators, userInfo: UserInfo, admission: RequestInfo, dynamicConfig: seq<string>)
    ensures UserInfoReasons(c, userInfo, admission, dynamicConfig) == [] <==> UserInfoPasses(c, userInfo, admission, dynamicConfig)
  {
  }

  /** Matching subjects do not make up for mismatching roles: the roles
      reason is still raised. */
  lemma SubjectsDoNotOverrideRoles(c: Collaborators, userInfo: UserInfo, admission: RequestInfo, dynamicConfig: seq<string>)
    requires |userInfo.roles| > 0 && !c.sliceContains(RequesterKeys(admission), dynamicConfig)
    requires !c.sliceContains(userInfo.roles, admission.roles)
    requires SubjectsMatch(c, userInfo.subjects, admission.admissionUserInfo, dynamicConfig)
    ensures RolesMismatch in UserInfoReasons(c, userInfo, admission, dynamicConfig)
    ensures UserInfoReasons(c, userInfo, admission, dynamicConfig) != []
  {
  }

  /** A requester whose groups or user name appear in the dynamic
      configuration is never rejected for its roles or cluster roles. */
  lemma PrivilegedRequesterSkipsRoleChecks(c: Collaborators, userInfo: UserInfo, admission: RequestInfo, dynamicConfig: seq<string>)
    requires c.sliceContains(admission.admissionUserInfo.groups + [admission.admissionUserInfo.username], dynamicConfig)
    ensures RolesMismatch !in UserInfoReasons(c, userInfo, admission, dynamicConfig)
    ensures ClusterRolesMismatch !in UserInfoReasons(c, userInfo, admission, dynamicConfig)
  {
  }
}
