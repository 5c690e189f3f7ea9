/** Whether a policy rule applies to a resource (pkg/engine/utils.go:
    MatchesResourceDescription and its match / exclude helpers). The match
    block must select the resource and the exclude block must not exclude
    it; every failure is recorded as a reason. */
module RuleMatch {
  import opened EngineTypes
  import opened ConditionBlock

  /** A filter with neither a resource description nor user info. */
  predicate IsEmptyFilter(description: ResourceDescription, userInfo: UserInfo) {
    IsEmptyDescription(description) && IsEmptyUserInfo(userInfo)
  }

  /** The match helper ignores a filter's user info when nothing is known
      about the requester. */
  function EffectiveUserInfo(filter: ResourceFilter, admission: RequestInfo): UserInfo {
    if IsEmptyRequestInfo(admission) then EmptyUserInfo else filter.userInfo
  }

  /** The reasons a match filter rejects the resource; an empty filter is
      itself a reason. */
  function MatchFilterReasons(c: Collaborators, filter: ResourceFilter, admission: RequestInfo, resource: Resource,
                              dynamicConfig: seq<string>, namespaceLabels: map<string, string>): seq<Reason> {
    var userInfo := EffectiveUserInfo(filter, admission);
    if !IsEmptyFilter(filter.resourceDescription, userInfo)
    then BlockReasons(c, filter.resourceDescription, userInfo, admission, resource, dynamicConfig, namespaceLabels)
    else [MatchEmpty]
  }

  /** The reasons an exclude filter contributes: one exactly when a
      non-empty filter fully matches the resource. */
  function ExcludeFilterReasons(c: Collaborators, filter: ResourceFilter, admission: RequestInfo, resource: Resource,
                                dynamicConfig: seq<string>, namespaceLabels: map<string, string>): seq<Reason> {
    if !IsEmptyFilter(filter.resourceDescription, filter.userInfo)
       && BlockReasons(c, filter.resourceDescription, filter.userInfo, admission, resource, dynamicConfig, namespaceLabels) == []
    then [ExcludedByOne]
    else []
  }

  /** matchesResourceDescriptionMatchHelper */
  method MatchHelper(c: Collaborators, filter: ResourceFilter, admission: RequestInfo, resource: Resource,
                     dynamicConfig: seq<string>, namespaceLabels: map<string, string>)
    returns (errs: seq<Reason>)
    ensures errs == MatchFilterReasons(c, filter, admission, resource, dynamicConfig, namespaceLabels)
  {
    errs := [];
    var rmr := filter;
    if IsEmptyRequestInfo(admission) {
      rmr := rmr.(userInfo := EmptyUserInfo);
    }
    if !IsEmptyDescription(rmr.resourceDescription) || !IsEmptyUserInfo(rmr.userInfo) {
      var matchErrs := DoesResourceMatchConditionBlock(c, rmr.resourceDescription, rmr.userInfo, admission, resource, dynamicConfig, namespaceLabels);
      errs := errs + matchErrs;
    } else {
      errs := errs + [MatchEmpty];
    }
  }

  /** matchesResourceDescriptionExcludeHelper: a non-empty result means the
      filter excludes the resource. */
  method ExcludeHelper(c: Collaborators, filter: ResourceFilter, admission: RequestInfo, resource: Resource,
                       dynamicConfig: seq<string>, namespaceLabels: map<string, string>)
    returns (errs: seq<Reason>)
    ensures errs == ExcludeFilterReasons(c, filter, admission, resource, dynamicConfig, namespaceLabels)
  {
    errs := [];
    if !IsEmptyDescription(filter.resourceDescription) || !IsEmptyUserInfo(filter.userInfo) {
      var excludeErrs := DoesResourceMatchConditionBlock(c, filter.resourceDescription, filter.userInfo, admission, resource, dynamicConfig, namespaceLabels);
      if |excludeErrs| == 0 {
        errs := errs + [ExcludedByOne];
        errs := errs + excludeErrs;
      }
    }
  }

  /** The filter formed by a block's inline user info and resource description. */
  function InlineFilter(block: MatchResources): ResourceFilter {
    ResourceFilter(block.userInfo, block.resourceDescription)
  }

  /** Lists of reasons, concatenated in order. */
  function Flatten(parts: seq<seq<Reason>>): seq<Reason>
    decreases |parts|
  {
    if |parts| == 0 then [] else Flatten(parts[..|parts| - 1]) + parts[|parts| - 1]
  }

  /** Flattening after appending one more list appends that list. */
  lemma FlattenSnoc(parts: seq<seq<Reason>>, last: seq<Reason>)
    ensures Flatten(parts + [last]) == Flatten(parts) + last
  {
    assert (parts + [last])[..|parts|] == parts;
  }

  /** The match reasons of each filter, one list per filter. */
  function MatchReasonsPerFilter(c: Collaborators, filters: seq<ResourceFilter>, admission: RequestInfo, resource: Resource,
                                 namespaceLabels: map<string, string>): (parts: seq<seq<Reason>>)
    ensures |parts| == |filters|
    ensures forall k :: 0 <= k < |filters| ==> parts[k] == MatchFilterReasons(c, filters[k], admission, resource, [], namespaceLabels)
    decreases |filters|
  {
    if |filters| == 0 then []
    else MatchReasonsPerFilter(c, filters[..|filters| - 1], admission, resource, namespaceLabels)
         + [MatchFilterReasons(c, filters[|filters| - 1], admission, resource, [], namespaceLabels)]
  }

  /** The exclude reasons of each filter, one list per filter. */
  function ExcludeReasonsPerFilter(c: Collaborators, filters: seq<ResourceFilter>, admission: RequestInfo, resource: Resource,
                                   dynamicConfig: seq<string>, namespaceLabels: map<string, string>): (parts: seq<seq<Reason>>)
    ensures |parts| == |filters|
    ensures forall k :: 0 <= k < |filters| ==> parts[k] == ExcludeFilterReasons(c, filters[k], admission, resource, dynamicConfig, namespaceLabels)
    decreases |filters|
  {
    if |filters| == 0 then []
    else ExcludeReasonsPerFilter(c, filters[..|filters| - 1], admission, resource, dynamicConfig, namespaceLabels)
         + [ExcludeFilterReasons(c, filters[|filters| - 1], admission, resource, dynamicConfig, namespaceLabels)]
  }

  /** The match reasons of every filter, concatenated in order. */
  function AllMatchReasons(c: Collaborators, filters: seq<ResourceFilter>, admission: RequestInfo, resource: Resource,
                           namespaceLabels: map<string, string>): seq<Reason> {
    Flatten(MatchReasonsPerFilter(c, filters, admission, resource, namespaceLabels))
  }

  /** The exclude reasons of every filter, concatenated in order. */
  function AllExcludeReasons(c: Collaborators, filters: seq<ResourceFilter>, admission: RequestInfo, resource: Resource,
                             dynamicConfig: seq<string>, namespaceLabels: map<string, string>): seq<Reason> {
    Flatten(ExcludeReasonsPerFilter(c, filters, admission, resource, dynamicConfig, namespaceLabels))
  }

  /** One more `all` filter appends its match reasons. */
  lemma AllMatchReasonsStep(c: Collaborators, filters: seq<ResourceFilter>, i: nat, admission: RequestInfo, resource: Resource,
                            namespaceLabels: map<string, string>)
    requires i < |filters|
    ensures AllMatchReasons(c, filters[..i + 1], admission, resource, namespaceLabels)
         == AllMatchReasons(c, filters[..i], admission, resource, namespaceLabels)
            + MatchFilterReasons(c, filters[i], admission, resource, [], namespaceLabels)
  {
    assert filters[..i + 1][..i] == filters[..i];
    FlattenSnoc(MatchReasonsPerFilter(c, filters[..i], admission, resource, namespaceLabels),
                MatchFilterReasons(c, filters[i], admission, resource, [], namespaceLabels));
  }

  /** One more `any` exclude filter appends its exclude reasons. */
  lemma AllExcludeReasonsStep(c: Collaborators, filters: seq<ResourceFilter>, i: nat, admission: RequestInfo, resource: Resource,
                              dynamicConfig: seq<string>, namespaceLabels: map<string, string>)
    requires i < |filters|
    ensures AllExcludeReasons(c, filters[..i + 1], admission, resource, dynamicConfig, namespaceLabels)
         == AllExcludeReasons(c, filters[..i], admission, resource, dynamicConfig, namespaceLabels)
            + ExcludeFilterReasons(c, filters[i], admission, resource, dynamicConfig, namespaceLabels)
  {
    assert filters[..i + 1][..i] == filters[..i];
    FlattenSnoc(ExcludeReasonsPerFilter(c, filters[..i], admission, resource, dynamicConfig, namespaceLabels),
                ExcludeFilterReasons(c, filters[i], admission, resource, dynamicConfig, namespaceLabels));
  }

  /** What the match block contributes. Match filters are always evaluated
      with an empty dynamic configuration. */
  function MatchBlockReasons(c: Collaborators, block: MatchResources, admission: RequestInfo, resource: Resource,
                             namespaceLabels: map<string, string>): seq<Reason> {
    if |block.any| > 0 then
      if exists k :: 0 <= k < |block.any| && MatchFilterReasons(c, block.any[k], admission, resource, [], namespaceLabels) == []
      then []
      else [NoResourceMatched]
    else if |block.all| > 0 then
      AllMatchReasons(c, block.all, admission, resource, namespaceLabels)
    else
      MatchFilterReasons(c, InlineFilter(block), admission, resource, [], namespaceLabels)
  }

  /** What the exclude block contributes. */
  function ExcludeBlockReasons(c: Collaborators, block: MatchResources, admission: RequestInfo, resource: Resource,
                               dynamicConfig: seq<string>, namespaceLabels: map<string, string>): seq<Reason> {
    if |block.any| > 0 then
      AllExcludeReasons(c, block.any, admission, resource, dynamicConfig, namespaceLabels)
    else if |block.all| > 0 then
      if forall k :: 0 <= k < |block.all| ==> ExcludeFilterReasons(c, block.all[k], admission, resource, dynamicConfig, namespaceLabels) != []
      then [ExcludedByAll]
      else []
    else
      ExcludeFilterReasons(c, InlineFilter(block), admission, resource, dynamicConfig, namespaceLabels)
  }

  /** A policy bound to a namespace only applies to resources in it. */
  predicate NamespaceAllowed(policyNamespace: string, resource: Resource) {
    policyNamespace == "" || policyNamespace == resource.namespace
  }

  /** The verdict of MatchesResourceDescription: no error when the rule applies. */
  function RuleMatchOutcome(c: Collaborators, resource: Resource, rule: Rule, admission: RequestInfo,
                            dynamicConfig: seq<string>, namespaceLabels: map<string, string>, policyNamespace: string): Option<MatchError> {
    if !NamespaceAllowed(policyNamespace, resource) then Some(PolicyNamespaceDiffers)
    else
      var reasons := MatchBlockReasons(c, rule.matchResources, admission, resource, namespaceLabels)
                     + ExcludeBlockReasons(c, rule.excludeResources, admission, resource, dynamicConfig, namespaceLabels);
      if |reasons| > 0 then Some(RuleNotMatched(rule.name, reasons)) else None
  }

  /** The `match.any` loop: stops at the first filter with no reason. */
  method MatchAny(c: Collaborators, filters: seq<ResourceFilter>, admission: RequestInfo, resource: Resource,
                  namespaceLabels: map<string, string>)
    returns (oneMatched: bool)
    ensures oneMatched <==> exists k :: 0 <= k < |filters| && MatchFilterReasons(c, filters[k], admission, resource, [], namespaceLabels) == []
  {
    var empty: seq<string> := [];
    oneMatched := false;
    var i := 0;
    while i < |filters|
      invariant 0 <= i <= |filters|
      invariant !oneMatched
      invariant forall k :: 0 <= k < i ==> MatchFilterReasons(c, filters[k], admission, resource, [], namespaceLabels) != []
    {
      var errs := MatchHelper(c, filters[i], admission, resource, empty, namespaceLabels);
      if |errs| == 0 {
        oneMatched := true;
        break;
      }
      i := i + 1;
    }
  }

  /** The `match.all` loop: every filter's reasons, in order. */
  method MatchAll(c: Collaborators, filters: seq<ResourceFilter>, admission: RequestInfo, resource: Resource,
                  namespaceLabels: map<string, string>)
    returns (reasons: seq<Reason>)
    ensures reasons == AllMatchReasons(c, filters, admission, resource, namespaceLabels)
  {
    var empty: seq<string> := [];
    reasons := [];
    var i := 0;
    while i < |filters|
      invariant 0 <= i <= |filters|
      invariant reasons == AllMatchReasons(c, filters[..i], admission, resource, namespaceLabels)
    {
      var errs := MatchHelper(c, filters[i], admission, resource, empty, namespaceLabels);
      AllMatchReasonsStep(c, filters, i, admission, resource, namespaceLabels);
      reasons := reasons + errs;
      i := i + 1;
    }
    assert filters[..i] == filters;
  }

  /** The `exclude.any` loop: every filter's exclude reasons, in order. */
  method ExcludeAny(c: Collaborators, filters: seq<ResourceFilter>, admission: RequestInfo, resource: Resource,
                    dynamicConfig: seq<string>, namespaceLabels: map<string, string>)
    returns (reasons: seq<Reason>)
    ensures reasons == AllExcludeReasons(c, filters, admission, resource, dynamicConfig, namespaceLabels)
  {
    reasons := [];
    var i := 0;
    while i < |filters|
      invariant 0 <= i <= |filters|
      invariant reasons == AllExcludeReasons(c, filters[..i], admission, resource, dynamicConfig, namespaceLabels)
    {
      var errs := ExcludeHelper(c, filters[i], admission, resource, dynamicConfig, namespaceLabels);
      AllExcludeReasonsStep(c, filters, i, admission, resource, dynamicConfig, namespaceLabels);
      reasons := reasons + errs;
      i := i + 1;
    }
    assert filters[..i] == filters;
  }

  /** The `exclude.all` loop: stops at the first filter that does not exclude. */
  method ExcludeAll(c: Collaborators, filters: seq<ResourceFilter>, admission: RequestInfo, resource: Resource,
                    dynamicConfig: seq<string>, namespaceLabels: map<string, string>)
    returns (excludedByAll: bool)
    ensures excludedByAll <==> forall k :: 0 <= k < |filters| ==> ExcludeFilterReasons(c, filters[k], admission, resource, dynamicConfig, namespaceLabels) != []
  {
    excludedByAll := true;
    var i := 0;
    while i < |filters|
      invariant 0 <= i <= |filters|
      invariant excludedByAll
      invariant forall k :: 0 <= k < i ==> ExcludeFilterReasons(c, filters[k], admission, resource, dynamicConfig, namespaceLabels) != []
    {
      var errs := ExcludeHelper(c, filters[i], admission, resource, dynamicConfig, namespaceLabels);
      if |errs| == 0 {
        excludedByAll := false;
        break;
      }
      i := i + 1;
    }
  }

  /** The match half of MatchesResourceDescription. */
  method MatchBlock(c: Collaborators, block: MatchResources, admission: RequestInfo, resource: Resource,
                    namespaceLabels: map<string, string>)
    returns (reasons: seq<Reason>)
    ensures reasons == MatchBlockReasons(c, block, admission, resource, namespaceLabels)
  {
    var empty: seq<string> := [];
    reasons := [];
    if |block.any| > 0 {
      var oneMatched := MatchAny(c, block.any, admission, resource, namespaceLabels);
      if !oneMatched {
        reasons := reasons + [NoResourceMatched];
      }
    } else if |block.all| > 0 {
      var errs := MatchAll(c, block.all, admission, resource, namespaceLabels);
      reasons := reasons + errs;
    } else {
      var errs := MatchHelper(c, InlineFilter(block), admission, resource, empty, namespaceLabels);
      reasons := reasons + errs;
    }
  }

  /** The exclude half of MatchesResourceDescription. */
  method ExcludeBlock(c: Collaborators, block: MatchResources, admission: RequestInfo, resource: Resource,
                      dynamicConfig: seq<string>, namespaceLabels: map<string, string>)
    returns (reasons: seq<Reason>)
    ensures reasons == ExcludeBlockReasons(c, block, admission, resource, dynamicConfig, namespaceLabels)
  {
    reasons := [];
    if |block.any| > 0 {
      var errs := ExcludeAny(c, block.any, admission, resource, dynamicConfig, namespaceLabels);
      reasons := reasons + errs;
    } else if |block.all| > 0 {
      var excludedByAll := ExcludeAll(c, block.all, admission, resource, dynamicConfig, namespaceLabels);
      if excludedByAll {
        reasons := reasons + [ExcludedByAll];
      }
    } else {
      var errs := ExcludeHelper(c, InlineFilter(block), admission, resource, dynamicConfig, namespaceLabels);
      reasons := reasons + errs;
    }
  }

  /** MatchesResourceDescription: the namespace guard, then the match and
      exclude blocks; the rule applies when no reason was collected. */
  method MatchesResourceDescription(c: Collaborators, resource: Resource, rule: Rule, admission: RequestInfo,
                                    dynamicConfig: seq<string>, namespaceLabels: map<string, string>, policyNamespace: string)
    returns (err: Option<MatchError>)
    ensures err == RuleMatchOutcome(c, resource, rule, admission, dynamicConfig, namespaceLabels, policyNamespace)
  {
    if policyNamespace != "" && policyNamespace != resource.namespace {
      return Some(PolicyNamespaceDiffers);
    }
    var reasonsForFailure := MatchBlock(c, rule.matchResources, admission, resource, namespaceLabels);
    var excludeReasons := ExcludeBlock(c, rule.excludeResources, admission, resource, dynamicConfig, namespaceLabels);
    reasonsForFailure := reasonsForFailure + excludeReasons;
    if |reasonsForFailure| > 0 {
      return Some(RuleNotMatched(rule.name, reasonsForFailure));
    }
    return None;
  }

  /** The match-block verdict filter by filter: some `any` filter, every
      `all` filter, or the inline filter must produce no reason. */
  predicate MatchBlockSelects(c: Collaborators, block: MatchResources, admission: RequestInfo, resource: Resource,
                              namespaceLabels: map<string, string>) {
    if |block.any| > 0 then
      exists k :: 0 <= k < |block.any| && MatchFilterReasons(c, block.any[k], admission, resource, [], namespaceLabels) == []
    else if |block.all| > 0 then
      forall k :: 0 <= k < |block.all| ==> MatchFilterReasons(c, block.all[k], admission, resource, [], namespaceLabels) == []
    else
      MatchFilterReasons(c, InlineFilter(block), admission, resource, [], namespaceLabels) == []
  }

  /** The exclude-block verdict filter by filter: some `any` filter, every
      `all` filter, or the inline filter must exclude the resource. */
  predicate ExcludeBlockExcludes(c: Collaborators, block: MatchResources, admission: RequestInfo, resource: Resource,
                                 dynamicConfig: seq<string>, namespaceLabels: map<string, string>) {
    if |block.any| > 0 then
      exists k :: 0 <= k < |block.any| && ExcludeFilterReasons(c, block.any[k], admission, resource, dynamicConfig, namespaceLabels) != []
    else if |block.all| > 0 then
      forall k :: 0 <= k < |block.all| ==> ExcludeFilterReasons(c, block.all[k], admission, resource, dynamicConfig, namespaceLabels) != []
    else
      ExcludeFilterReasons(c, InlineFilter(block), admission, resource, dynamicConfig, namespaceLabels) != []
  }

  /** A flattened list is empty exactly when every part is. */
  lemma {:induction false} FlattenEmpty(parts: seq<seq<Reason>>)
    ensures Flatten(parts) == [] <==> forall k :: 0 <= k < |parts| ==> parts[k] == []
    decreases |parts|
  {
    if |parts| > 0 {
      var init := parts[..|parts| - 1];
      FlattenEmpty(init);
      assert forall k :: 0 <= k < |init| ==> init[k] == parts[k];
      assert |Flatten(parts)| == |Flatten(init)| + |parts[|parts| - 1]|;
    }
  }

  /** A reason is in a flattened list exactly when it is in one of the parts. */
  lemma {:induction false} FlattenMembership(parts: seq<seq<Reason>>, x: Reason)
    ensures x in Flatten(parts) <==> exists k :: 0 <= k < |parts| && x in parts[k]
    decreases |parts|
  {
    if |parts| > 0 {
      var init := parts[..|parts| - 1];
      FlattenMembership(init, x);
      assert forall k :: 0 <= k < |init| ==> init[k] == parts[k];
      if x in parts[|parts| - 1] {
        assert 0 <= |parts| - 1 < |parts| && x in parts[|parts| - 1];
      }
    }
  }

  /** Concatenating the `all` filters' reasons yields nothing exactly when
      every filter matches. */
  lemma AllMatchReasonsEmpty(c: Collaborators, filters: seq<ResourceFilter>, admission: RequestInfo, resource: Resource,
                             namespaceLabels: map<string, string>)
    ensures AllMatchReasons(c, filters, admission, resource, namespaceLabels) == [] <==>
      forall k :: 0 <= k < |filters| ==> MatchFilterReasons(c, filters[k], admission, resource, [], namespaceLabels) == []
  {
    FlattenEmpty(MatchReasonsPerFilter(c, filters, admission, resource, namespaceLabels));
  }

  /** The `exclude.any` loop only ever records the one-filter exclusion
      reason, and records something exactly when some filter excludes. */
  lemma AllExcludeReasonsCharacterized(c: Collaborators, filters: seq<ResourceFilter>, admission: RequestInfo, resource: Resource,
                                       dynamicConfig: seq<string>, namespaceLabels: map<string, string>)
    ensures forall r :: r in AllExcludeReasons(c, filters, admission, resource, dynamicConfig, namespaceLabels) ==> r == ExcludedByOne
    ensures AllExcludeReasons(c, filters, admission, resource, dynamicConfig, namespaceLabels) != [] <==>
      exists k :: 0 <= k < |filters| && ExcludeFilterReasons(c, filters[k], admission, resource, dynamicConfig, namespaceLabels) != []
  {
    var parts := ExcludeReasonsPerFilter(c, filters, admission, resource, dynamicConfig, namespaceLabels);
    FlattenEmpty(parts);
    forall r | r in Flatten(parts) ensures r == ExcludedByOne {
      FlattenMembership(parts, r);
      var k :| 0 <= k < |parts| && r in parts[k];
      ExcludeFilterShape(c, filters[k], admission, resource, dynamicConfig, namespaceLabels);
    }
  }

  /** The match block collects no reason exactly when it selects the resource. */
  lemma MatchBlockSelectsIff(c: Collaborators, block: MatchResources, admission: RequestInfo, resource: Resource,
                             namespaceLabels: map<string, string>)
    ensures MatchBlockReasons(c, block, admission, resource, namespaceLabels) == [] <==>
      MatchBlockSelects(c, block, admission, resource, namespaceLabels)
  {
    if |block.any| == 0 && |block.all| > 0 {
      AllMatchReasonsEmpty(c, block.all, admission, resource, namespaceLabels);
    }
  }

  /** The exclude block collects a reason exactly when it excludes the resource. */
  lemma ExcludeBlockExcludesIff(c: Collaborators, block: MatchResources, admission: RequestInfo, resource: Resource,
                                dynamicConfig: seq<string>, namespaceLabels: map<string, string>)
    ensures ExcludeBlockReasons(c, block, admission, resource, dynamicConfig, namespaceLabels) != [] <==>
      ExcludeBlockExcludes(c, block, admission, resource, dynamicConfig, namespaceLabels)
  {
    if |block.any| > 0 {
      AllExcludeReasonsCharacterized(c, block.any, admission, resource, dynamicConfig, namespaceLabels);
    }
  }

  /** A rule applies exactly when the policy's namespace admits the
      resource, the match block selects it and the exclude block does not
      exclude it; a namespace mismatch is reported before anything else. */
  lemma RuleAppliesIff(c: Collaborators, resource: Resource, rule: Rule, admission: RequestInfo,
                       dynamicConfig: seq<string>, namespaceLabels: map<string, string>, policyNamespace: string)
    ensures var outcome := RuleMatchOutcome(c, resource, rule, admission, dynamicConfig, namespaceLabels, policyNamespace);
      && (outcome == None <==>
            && NamespaceAllowed(policyNamespace, resource)
            && MatchBlockSelects(c, rule.matchResources, admission, resource, namespaceLabels)
            && !ExcludeBlockExcludes(c, rule.excludeResources, admission, resource, dynamicConfig, namespaceLabels))
      && (!NamespaceAllowed(policyNamespace, resource) ==> outcome == Some(PolicyNamespaceDiffers))
  {
    MatchBlockSelectsIff(c, rule.matchResources, admission, resource, namespaceLabels);
    ExcludeBlockExcludesIff(c, rule.excludeResources, admission, resource, dynamicConfig, namespaceLabels);
  }

  /** A match filter with nothing in it (after dropping the user info of an
      unknown requester) is rejected with exactly the empty-match reason, and
      that reason comes from nowhere else. */
  lemma EmptyMatchFilterRejected(c: Collaborators, filter: ResourceFilter, admission: RequestInfo, resource: Resource,
                                 dynamicConfig: seq<string>, namespaceLabels: map<string, string>)
    ensures var errs := MatchFilterReasons(c, filter, admission, resource, dynamicConfig, namespaceLabels);
      && (IsEmptyFilter(filter.resourceDescription, EffectiveUserInfo(filter, admission)) ==> errs == [MatchEmpty])
      && (MatchEmpty in errs <==> IsEmptyFilter(filter.resourceDescription, EffectiveUserInfo(filter, admission)))
  {
    var userInfo := EffectiveUserInfo(filter, admission);
    if !IsEmptyFilter(filter.resourceDescription, userInfo) {
      BlockReasonsOrdered(c, filter.resourceDescription, userInfo, admission, resource, dynamicConfig, namespaceLabels);
      RankedExcludes(BlockReasons(c, filter.resourceDescription, userInfo, admission, resource, dynamicConfig, namespaceLabels), 0, 10, MatchEmpty);
    }
  }

  /** Without any information about the requester, a match filter's user
      info is irrelevant. */
  lemma UnknownRequesterIgnoresUserInfo(c: Collaborators, filter: ResourceFilter, userInfo: UserInfo, admission: RequestInfo,
                                        resource: Resource, dynamicConfig: seq<string>, namespaceLabels: map<string, string>)
    requires IsEmptyRequestInfo(admission)
    ensures MatchFilterReasons(c, filter, admission, resource, dynamicConfig, namespaceLabels)
         == MatchFilterReasons(c, filter.(userInfo := userInfo), admission, resource, dynamicConfig, namespaceLabels)
  {
  }

  /** An exclude filter yields nothing or exactly the one-filter exclusion
      reason, and an empty exclude filter never excludes. */
  lemma ExcludeFilterShape(c: Collaborators, filter: ResourceFilter, admission: RequestInfo, resource: Resource,
                           dynamicConfig: seq<string>, namespaceLabels: map<string, string>)
    ensures var errs := ExcludeFilterReasons(c, filter, admission, resource, dynamicConfig, namespaceLabels);
      && (errs == [] || errs == [ExcludedByOne])
      && (IsEmptyFilter(filter.resourceDescription, filter.userInfo) ==> errs == [])
  {
  }

  /** The block used when a rule leaves match or exclude unset. */
  const EmptyMatchResources := MatchResources([], [], EmptyUserInfo, EmptyResourceDescription)

  /** An unset match block selects nothing, and an unset exclude block
      excludes nothing. */
  lemma UnsetBlocks(c: Collaborators, admission: RequestInfo, resource: Resource,
                    dynamicConfig: seq<string>, namespaceLabels: map<string, string>)
    ensures MatchBlockReasons(c, EmptyMatchResources, admission, resource, namespaceLabels) == [MatchEmpty]
    ensures ExcludeBlockReasons(c, EmptyMatchResources, admission, resource, dynamicConfig, namespaceLabels) == []
  {
  }
}
