# Kyverno rule matching, modelled in Dafny

This project models how the Kyverno policy engine decides whether a policy
rule applies to an admitted Kubernetes resource (`pkg/engine/utils.go`).

- **Condition blocks.** A condition block is one `match` or `exclude`
  filter: a resource description plus user info. The resource description
  combines its attributes with AND and the entries of a list attribute with
  OR: kinds, name, names, namespaces, annotations, label selector and
  namespace selector. The user info covers roles, cluster roles and
  subjects, and the code combines them with AND as well: every set
  attribute must pass. This is contrary to the comment at utils.go:63-64,
  which asks for OR across and inside the user-info attributes. Each
  failing attribute yields one failure reason.
- **Filters combined into a verdict.** The `match` block uses `any` / `all`
  filter lists or one inline filter, and so does the `exclude` block. The
  two combine these lists differently. Together with the policy's own
  namespace they decide whether the rule applies.
- **Pod-controller auto-generation.** A Pod or Job owned only by
  controllers that an auto-generated policy already covers is skipped.
- **Two list helpers.** One turns a context query result into a list. The
  other reverses an array in place.

Modules:

- `EngineTypes` (`types.dfy`): the resource, rule and requester records.
  It also holds the `Collaborators` record that stands for the checks
  implemented in other packages: wildcard matching, the kind, name,
  annotation, selector and subject checks, `SliceContains`, and the
  command-line mock store. Failure reasons are a `Reason` datatype rather
  than formatted messages.
- `ConditionBlock` (`condition_block.dfy`): `checkNameSpace`,
  `matchSubjects` and `doesResourceMatchConditionBlock`. Each is an
  imperative method proved equal to a specification function. Lemmas about
  those functions give what every reason means, the attribute order of the
  reasons, and the effect of a requester named in the dynamic
  configuration.
- `RuleMatch` (`rule_match.dfy`): the match and exclude helpers, the four
  `any` / `all` loops and `MatchesResourceDescription`, as methods proved
  against specification functions. A lemma proves that a rule applies
  exactly when the namespace allows it, the match block selects the
  resource and the exclude block does not exclude it.
- `PodControllers` (`autogen.dfy`): `excludeResource` and
  `ManagedPodResource`. They use the annotation key
  `pod-policies.kyverno.io/autogen-controllers`, and `strings.Contains` and
  `strings.ToLower` are defined here.
- `Lists` (`lists.dfy`): `evaluateList`, with the query as a function
  parameter, and `invertedElement` on an `array`.

The second test in `ManagedPodResource` is for a `CronJob` entry
(utils.go:316). It calls `excludeResource` again with the same arguments,
after that call already returned false, so it can never return true. The
model keeps the test, and the method's contract shows that the result
depends only on the first call.

## Model

| member | source | states |
|---|---|---|
| ConditionBlock.CheckNameSpace | pkg/engine/utils.go:31-44 | true iff some pattern wildcard-matches the resource's namespace (its own name when it is a Namespace); an empty list gives false |
| ConditionBlock.MatchSubjects | pkg/engine/utils.go:157-176 | without the mock store the answer is the subject check's; with it, true iff some subject matches the mock subject by kind (ServiceAccount: name and namespace; User/Group: name; other kinds never) |
| ConditionBlock.NoneOfTheNamesMatch | pkg/engine/utils.go:86-97 | the `names` scan reports "none match" iff no listed name matches the checked name |
| ConditionBlock.AppendSelectorErrors | pkg/engine/utils.go:111-132 | appends the label-selector reasons then the namespace-selector reasons to the reasons so far |
| ConditionBlock.ResourceDescriptionErrors | pkg/engine/utils.go:65-132 | the resource-description half yields exactly the per-attribute reasons in checking order |
| ConditionBlock.UserInfoErrors | pkg/engine/utils.go:134-152 | the user-info half yields exactly the roles, cluster-roles and subjects reasons in that order |
| ConditionBlock.DoesResourceMatchConditionBlock | pkg/engine/utils.go:65-154 | the block's reasons are the resource-description reasons followed by the user-info reasons |
| ConditionBlock.DescriptionReasonsRanked | pkg/engine/utils.go:65-132 | resource-description reasons come in attribute order, at most one per attribute |
| ConditionBlock.UserInfoReasonsRanked | pkg/engine/utils.go:134-152 | user-info reasons come in the order roles, cluster roles, subjects, at most one each |
| ConditionBlock.BlockReasonsOrdered | pkg/engine/utils.go:153 | a block's reasons are pairwise distinct and every user-info reason comes after every resource-description reason |
| ConditionBlock.EmptyBlockHasNoReasons | pkg/engine/utils.go:65-154 | an all-empty block with empty user info yields no reason for any resource |
| ConditionBlock.DescriptionMembership | pkg/engine/utils.go:65-132 | a reason is in the resource-description list iff the check of its own attribute produced it |
| ConditionBlock.IdentityReasonsCharacterized | pkg/engine/utils.go:68-97 | kind, name and names reasons occur iff the attribute is set and fails; names are checked against the generateName when the name is empty; a whole `names` list contributes at most one reason however many names it has |
| ConditionBlock.PlacementReasonsCharacterized | pkg/engine/utils.go:99-109 | the namespace reason occurs iff namespaces are listed and none matches; the annotations reason iff annotations are set and the check fails |
| ConditionBlock.SelectionReasonsCharacterized | pkg/engine/utils.go:111-132 | a selector parse error and a selector mismatch are distinct reasons; the namespace selector is consulted only for a non-Namespace kind that is known or wildcard-listed |
| ConditionBlock.UserInfoReasonsCharacterized | pkg/engine/utils.go:134-152 | each user-info reason occurs iff its list is set, the requester is not privileged (for roles) and the check fails |
| ConditionBlock.UserInfoPassesIff | pkg/engine/utils.go:134-152 | the user info raises no reason iff every set attribute passes (roles and cluster roles unless the requester is privileged, and subjects): AND, not the OR the comment at utils.go:63-64 describes |
| ConditionBlock.SubjectsDoNotOverrideRoles | pkg/engine/utils.go:136-151 | matching subjects do not make up for mismatching roles: the roles reason is still raised |
| ConditionBlock.PrivilegedRequesterSkipsRoleChecks | pkg/engine/utils.go:134-146 | if the requester's groups plus user name contain a dynamic-configuration entry, no roles or cluster-roles reason is reported |
| RuleMatch.MatchHelper | pkg/engine/utils.go:253-268 | a match filter yields its block's reasons, with user info dropped for an unknown requester, or the empty-match reason for an empty filter |
| RuleMatch.ExcludeHelper | pkg/engine/utils.go:270-284 | an exclude filter yields the one-filter exclusion reason iff it is non-empty and its block has no reason |
| RuleMatch.MatchAny | pkg/engine/utils.go:190-203 | `match.any` finds a match iff some filter yields no reason |
| RuleMatch.MatchAll | pkg/engine/utils.go:204-208 | `match.all` collects every filter's reasons concatenated in order |
| RuleMatch.ExcludeAny | pkg/engine/utils.go:214-218 | `exclude.any` collects every filter's exclude reasons concatenated in order |
| RuleMatch.ExcludeAll | pkg/engine/utils.go:219-232 | `exclude.all` excludes iff every filter excludes |
| RuleMatch.MatchBlock | pkg/engine/utils.go:190-212 | the match block's reasons: one reason iff no `any` filter matches, the `all` concatenation, or the inline filter's reasons |
| RuleMatch.ExcludeBlock | pkg/engine/utils.go:214-236 | the exclude block's reasons: the `any` concatenation, one reason iff every `all` filter excludes, or the inline filter's |
| RuleMatch.MatchesResourceDescription | pkg/engine/utils.go:179-251 | fails with a namespace error when the policy namespace is set and differs; otherwise returns no error iff no reason was collected |
| RuleMatch.AllMatchReasonsEmpty | pkg/engine/utils.go:204-208 | the `match.all` concatenation is empty iff every filter yields no reason |
| RuleMatch.AllExcludeReasonsCharacterized | pkg/engine/utils.go:214-218 | `exclude.any` only records one-filter exclusions, and records one iff some filter excludes |
| RuleMatch.MatchBlockSelectsIff | pkg/engine/utils.go:190-212 | the match block yields no reason iff some `any` filter, every `all` filter, or the inline filter matches |
| RuleMatch.ExcludeBlockExcludesIff | pkg/engine/utils.go:214-236 | the exclude block yields a reason iff some `any` filter, every `all` filter, or the inline filter excludes |
| RuleMatch.RuleAppliesIff | pkg/engine/utils.go:179-251 | a rule applies iff the policy namespace admits the resource, the match block selects it and the exclude block does not exclude it |
| RuleMatch.EmptyMatchFilterRejected | pkg/engine/utils.go:253-268 | an empty match filter yields exactly the empty-match reason, and that reason arises from nothing else |
| RuleMatch.UnknownRequesterIgnoresUserInfo | pkg/engine/utils.go:255-257 | with empty request info a match filter's outcome does not depend on its user info |
| RuleMatch.ExcludeFilterShape | pkg/engine/utils.go:270-284 | an exclude filter yields nothing or exactly one reason, and an empty one never excludes |
| RuleMatch.UnsetBlocks | pkg/engine/utils.go:209-236 | an unset match block rejects with the empty-match reason; an unset exclude block excludes nothing |
| PodControllers.Contains | pkg/engine/utils.go:293 | substring test: true iff `sub` occurs at some index of `s` |
| PodControllers.ExcludeResource | pkg/engine/utils.go:287-301 | true iff the resource is a Pod or Job with at least one owner and every owner is a ReplicaSet or a kind occurring in the annotation value |
| PodControllers.ManagedPodResource | pkg/engine/utils.go:306-321 | true iff the auto-gen annotation is present, not "none" in any case, and the resource is controller-managed; the CronJob test never changes the answer |
| PodControllers.ToLower | pkg/engine/utils.go:308 | same length, each ASCII capital mapped to its lower-case letter, every other character kept |
| PodControllers.NoneInAnyCase | pkg/engine/utils.go:308 | a string lower-cases to "none" iff it is one of the sixteen letter-case spellings of "none" |
| PodControllers.OnlyOwnedPodsAndJobs | pkg/engine/utils.go:287-301 | a managed resource is a Pod or Job with an owner |
| PodControllers.EmptyOwnerKindCovered | pkg/engine/utils.go:293 | an owner with an empty kind is covered by any annotation value |
| PodControllers.ReplicaSetOwnedPodManaged | pkg/engine/utils.go:287-321 | a Pod owned only by ReplicaSets is managed under any annotation value other than "none" |
| PodControllers.UncoveredOwnerUnmanaged | pkg/engine/utils.go:292-295 | one owner that is neither a ReplicaSet nor named in the annotation keeps the resource unmanaged |
| Lists.EvaluateList | pkg/engine/utils.go:323-335 | fails iff the query fails, and then with the query's error |
| Lists.EvaluateListRecoversValue | pkg/engine/utils.go:323-335 | on success a list value is returned unchanged and any other value (null included) becomes a one-element list |
| Lists.InvertedElement | pkg/engine/utils.go:338-342 | the array afterwards holds the reversal of its old contents |
| Lists.ReversedAt | pkg/engine/utils.go:338-342 | element i of the reversal is old element len-1-i |
| Lists.ReversedTwice | pkg/engine/utils.go:338-342 | reversing twice restores the original |
| Lists.ReversedPermutes | pkg/engine/utils.go:338-342 | reversal keeps the multiset of elements (and the length) |

## Left out

- The checks implemented in other packages are parameters in `Collaborators`, not definitions: `wildcard.Match`, `matchutils.CheckKind` / `CheckName` / `CheckAnnotations` / `CheckSelector` / `CheckSubjects`, and `datautils.SliceContains`. The sub-resource table and the admission request's sub-resource are folded into the kind check.
- The mock store (`store.IsMock`, `store.GetSubject`) is global state. It becomes the `mock` field of `Collaborators`.
- The context query behind `evaluateList` is a function parameter. Query results are taken to be JSON-decoded values, so a list is always a `[]interface{}`; a typed Go slice, which the type assertion at utils.go:329 would wrap in a one-element list, cannot be expressed. JSON numbers are modelled as integers, because floating point plays no part in the list logic.
- Error messages and their numbering in the final error text (utils.go:239-244) are modelled as a `Reason` sequence, not formatted strings. A selector parse error keeps the collaborator's message.
- `reflect.DeepEqual` emptiness tests become equality with the empty record. This drops the distinction between a nil and an empty non-nil list or map.
- PodControllers.ToLower: lower-cases ASCII letters only. Go's `strings.ToLower` also folds non-ASCII letters, which can matter only for a value that lower-cases to "none".
- The deep copies at the start of `MatchesResourceDescription` are left out. Values are immutable in the model, so they have no effect.
- `EngineStats` holds a duration and is left out, because it plays no part in matching.
- Image-signature verification (`VerifyAndPatchImages` and the cosign code it calls) and the JSON-context loader (`pkg/engine/jsonContext.go`) are not part of this model: they do registry, API-server and config-map I/O and cryptography, and take no part in rule matching.
