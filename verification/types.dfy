/** Values the rule matcher works on: the admitted resource, the rule's
    match / exclude blocks, the requester's identity, and the checks the
    matcher delegates to other packages. */
module EngineTypes {

  datatype Option<+T> = None | Some(value: T)

  /** An owner reference of a resource (only its kind is consulted). */
  datatype OwnerReference = OwnerReference(kind: string, name: string)

  /** The group/version/kind triple of a resource. */
  datatype GroupVersionKind = GroupVersionKind(group: string, version: string, kind: string)

  /** The parts of an unstructured resource that the matcher reads. */
  datatype Resource = Resource(
    gvk: GroupVersionKind,
    name: string,
    generateName: string,
    namespace: string,
    annotations: map<string, string>,
    labels: map<string, string>,
    ownerReferences: seq<OwnerReference>)
  {
    function Kind(): string { gvk.kind }
  }

  /** A label selector; it is only handed to the selector check. */
  datatype SelectorRequirement = SelectorRequirement(key: string, operator: string, values: seq<string>)
  datatype LabelSelector = LabelSelector(matchLabels: map<string, string>, matchExpressions: seq<SelectorRequirement>)

  /** The outcome of evaluating a label selector: a parse error or a verdict. */
  datatype SelectorOutcome = SelectorError(message: string) | SelectorResult(passed: bool)

  /** An RBAC subject named by a rule. */
  datatype Subject = Subject(kind: string, apiGroup: string, name: string, namespace: string)

  /** The resource-description half of a condition block. */
  datatype ResourceDescription = ResourceDescription(
    kinds: seq<string>,
    name: string,
    names: seq<string>,
    namespaces: seq<string>,
    annotations: map<string, string>,
    selector: Option<LabelSelector>,
    namespaceSelector: Option<LabelSelector>)

  /** The user-info half of a condition block. */
  datatype UserInfo = UserInfo(roles: seq<string>, clusterRoles: seq<string>, subjects: seq<Subject>)

  /** One filter of a match or exclude block. */
  datatype ResourceFilter = ResourceFilter(userInfo: UserInfo, resourceDescription: ResourceDescription)

  /** A match or exclude block: `any` filters, `all` filters, or one inline filter. */
  datatype MatchResources = MatchResources(
    any: seq<ResourceFilter>,
    all: seq<ResourceFilter>,
    userInfo: UserInfo,
    resourceDescription: ResourceDescription)

  datatype Rule = Rule(name: string, matchResources: MatchResources, excludeResources: MatchResources)

  /** The authenticated identity that sent the admission request. */
  datatype AdmissionUserInfo = AdmissionUserInfo(
    username: string,
    uid: string,
    groups: seq<string>,
    extra: map<string, seq<string>>)

  /** What the engine knows about the requester. */
  datatype RequestInfo = RequestInfo(roles: seq<string>, clusterRoles: seq<string>, admissionUserInfo: AdmissionUserInfo)

  const EmptyResourceDescription := ResourceDescription([], "", [], [], map[], None, None)
  const EmptyUserInfo := UserInfo([], [], [])
  const EmptyRequestInfo := RequestInfo([], [], AdmissionUserInfo("", "", [], map[]))

  /** The zero-value tests that the source performs by deep comparison. */
  predicate IsEmptyDescription(d: ResourceDescription) { d == EmptyResourceDescription }
  predicate IsEmptyUserInfo(u: UserInfo) { u == EmptyUserInfo }
  predicate IsEmptyRequestInfo(r: RequestInfo) { r == EmptyRequestInfo }

  /** The checks implemented by other packages, as opaque parameters.
      - wildcard: wildcard.Match(pattern, value)
      - checkKind: matchutils.CheckKind with the sub-resource table and the
        admission request's sub-resource already applied
      - checkName: matchutils.CheckName(pattern, name)
      - checkAnnotations: matchutils.CheckAnnotations(expected, actual)
      - checkSelector: matchutils.CheckSelector(selector, labels)
      - sliceContains: datautils.SliceContains(slice, values...)
      - checkSubjects: matchutils.CheckSubjects(subjects, user, dynamicConfig)
      - mock: the subject configured in the command-line mock store, when
        that store is active (store.IsMock() and store.GetSubject()) */
  datatype Collaborators = Collaborators(
    wildcard: (string, string) -> bool,
    checkKind: (seq<string>, GroupVersionKind) -> bool,
    checkName: (string, string) -> bool,
    checkAnnotations: (map<string, string>, map<string, string>) -> bool,
    checkSelector: (LabelSelector, map<string, string>) -> SelectorOutcome,
    sliceContains: (seq<string>, seq<string>) -> bool,
    checkSubjects: (seq<Subject>, AdmissionUserInfo, seq<string>) -> bool,
    mock: Option<Subject>)

  /** Why a resource failed a condition block or a rule. */
  datatype Reason =
    | KindMismatch
    | NameMismatch
    | NoNameMatches
    | NamespaceMismatch
    | AnnotationsMismatch
    | SelectorParseError(message: string)
    | SelectorMismatch
    | NamespaceSelectorParseError(message: string)
    | NamespaceSelectorMismatch
    | RolesMismatch
    | ClusterRolesMismatch
    | SubjectsMismatch
    | MatchEmpty
    | NoResourceMatched
    | ExcludedByOne
    | ExcludedByAll
  {
    /** The reasons that come from the user-info half of a condition block. */
    predicate IsUserInfoReason() {
      RolesMismatch? || ClusterRolesMismatch? || SubjectsMismatch?
    }
  }

  /** The error MatchesResourceDescription returns; no error means the rule applies. */
  datatype MatchError =
    | PolicyNamespaceDiffers
    | RuleNotMatched(ruleName: string, reasons: seq<Reason>)
}
