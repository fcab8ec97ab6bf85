/** Which pipelines may be retried: tag extraction, disabling tags and RetryInfo. */
module RetryPolicy {
  import opened ReleaseStatus
  import Mitigations

  /** A decoded `data` field. */
  datatype Json =
    | JNull
    | JBool(b: bool)
    | JNumber(n: int)
    | JString(s: string)
    | JArray(items: seq<Json>)
    | JObject(fields: map<string, Json>)

  /** The pairs (pattern, text) for which the anchored pattern compiles and matches the text. */
  type Regex = iset<(string, string)>

  /** The value under `key`, or JNull when `j` is not an object or lacks the key. */
  function Field(j: Json, key: string): Json {
    if j.JObject? && key in j.fields then j.fields[key] else JNull
  }

  predicate InTagArray(j: Json, tag: string) {
    j.JArray? && JString(tag) in j.items
  }

  /** `tag` is listed at one of the four places of the release-service-catalog schema. */
  predicate HasTag(data: Json, tag: string) {
    var mapping := Field(data, "mapping");
    || InTagArray(Field(Field(mapping, "defaults"), "tags"), tag)
    || var components := Field(mapping, "components");
       components.JArray? && AnyComponentHasTag(components.items, tag)
  }

  predicate AnyComponentHasTag(components: seq<Json>, tag: string) {
    exists i | 0 <= i < |components| :: ComponentHasTag(components[i], tag)
  }

  predicate ComponentHasTag(c: Json, tag: string) {
    || InTagArray(Field(c, "tags"), tag)
    || InTagArray(Field(c, "componentTags"), tag)
    || RepositoriesHaveTag(Field(c, "repositories"), tag)
  }

  predicate RepositoriesHaveTag(repos: Json, tag: string) {
    repos.JArray? && SomeRepositoryHasTag(repos.items, tag)
  }

  /** The strings of an array, in its order; other items are passed over. */
  function Strings(items: seq<Json>): seq<string> {
    if items == [] then []
    else
      var last := items[|items| - 1];
      Strings(items[..|items| - 1]) + if last.JString? then [last.s] else []
  }

  function ArrayTags(j: Json): seq<string> {
    if j.JArray? then Strings(j.items) else []
  }

  function RepositoryTags(repos: seq<Json>): seq<string> {
    if repos == [] then []
    else RepositoryTags(repos[..|repos| - 1]) + ArrayTags(Field(repos[|repos| - 1], "tags"))
  }

  /** The tags of the components, each with its own tags, its component tags and those of its
      repositories, in this order. */
  function ComponentTags(components: seq<Json>): seq<string> {
    if components == [] then []
    else
      var c := components[|components| - 1];
      var repos := Field(c, "repositories");
      ComponentTags(components[..|components| - 1])
      + ArrayTags(Field(c, "tags")) + ArrayTags(Field(c, "componentTags"))
      + if repos.JArray? then RepositoryTags(repos.items) else []
  }

  /** The tags of a data field in the order of the schema, each as often as it is there. */
  function TagsOf(data: Option<Json>): seq<string> {
    if data.None? then []
    else
      var mapping := Field(data.value, "mapping");
      var components := Field(mapping, "components");
      ArrayTags(Field(Field(mapping, "defaults"), "tags"))
      + if components.JArray? then ComponentTags(components.items) else []
  }

  lemma {:induction false} StringsExactly(items: seq<Json>)
    ensures forall t :: t in Strings(items) <==> JString(t) in items
  {
    if items != [] {
      var last := |items| - 1;
      StringsExactly(items[..last]);
      assert items == items[..last] + [items[last]];
    }
  }

  lemma ArrayTagsExactly(j: Json)
    ensures forall t :: t in ArrayTags(j) <==> InTagArray(j, t)
  {
    if j.JArray? {
      StringsExactly(j.items);
    }
  }

  predicate SomeRepositoryHasTag(repos: seq<Json>, tag: string) {
    exists r | r in repos :: InTagArray(Field(r, "tags"), tag)
  }

  lemma {:induction false} RepositoryTagsExactly(repos: seq<Json>)
    ensures forall t :: t in RepositoryTags(repos) <==> SomeRepositoryHasTag(repos, t)
  {
    if repos != [] {
      var last := |repos| - 1;
      RepositoryTagsExactly(repos[..last]);
      ArrayTagsExactly(Field(repos[last], "tags"));
      assert repos == repos[..last] + [repos[last]];
      hide ArrayTags, InTagArray, Field;
    }
  }

  lemma OneComponentMore(components: seq<Json>, tag: string)
    requires components != []
    ensures var last := |components| - 1;
            AnyComponentHasTag(components, tag) <==>
            AnyComponentHasTag(components[..last], tag) || ComponentHasTag(components[last], tag)
  {
    hide ComponentHasTag;
    var last := |components| - 1;
    assert forall k | 0 <= k < last :: components[..last][k] == components[k];
  }

  lemma {:induction false} ComponentTagsExactly(components: seq<Json>)
    ensures forall t :: t in ComponentTags(components) <==> AnyComponentHasTag(components, t)
  {
    if components != [] {
      var last := |components| - 1;
      var c := components[last];
      ComponentTagsExactly(components[..last]);
      ArrayTagsExactly(Field(c, "tags"));
      ArrayTagsExactly(Field(c, "componentTags"));
      if Field(c, "repositories").JArray? {
        RepositoryTagsExactly(Field(c, "repositories").items);
      }
      hide AnyComponentHasTag, ArrayTags, InTagArray, RepositoryTags, SomeRepositoryHasTag, Field;
      forall t
        ensures t in ComponentTags(components) <==> AnyComponentHasTag(components, t)
      {
        OneComponentMore(components, t);
      }
    }
  }

  /** A tag is among the tags of a data field exactly when the schema lists it. */
  lemma TagsOfExactly(data: Option<Json>)
    ensures forall t :: t in TagsOf(data) <==> data.Some? && HasTag(data.value, t)
  {
    if data.Some? {
      var mapping := Field(data.value, "mapping");
      ArrayTagsExactly(Field(Field(mapping, "defaults"), "tags"));
      if Field(mapping, "components").JArray? {
        ComponentTagsExactly(Field(mapping, "components").items);
      }
      hide AnyComponentHasTag, ArrayTags, InTagArray, ComponentTags, Field;
    }
  }

  method ExtractTagArray(j: Json) returns (tags: seq<string>)
    ensures tags == ArrayTags(j)
  {
    tags := [];
    if !j.JArray? {
      return;
    }
    for i := 0 to |j.items|
      invariant tags == Strings(j.items[..i])
    {
      assert j.items[..i + 1][..i] == j.items[..i];
      if j.items[i].JString? {
        tags := tags + [j.items[i].s];
      }
    }
    assert j.items[..|j.items|] == j.items;
  }

  method ExtractRepositoryTags(repos: Json) returns (tags: seq<string>)
    ensures tags == if repos.JArray? then RepositoryTags(repos.items) else []
  {
    tags := [];
    if !repos.JArray? {
      return;
    }
    for i := 0 to |repos.items|
      invariant tags == RepositoryTags(repos.items[..i])
    {
      assert repos.items[..i + 1][..i] == repos.items[..i];
      var own := ExtractTagArray(Field(repos.items[i], "tags"));
      tags := tags + own;
    }
    assert repos.items[..|repos.items|] == repos.items;
  }

  /** The tags of a data field, None when there is no data or it does not parse: exactly those
      the schema lists, wherever they are nested, in the order of the schema. */
  method ExtractTags(data: Option<Json>) returns (tags: seq<string>)
    ensures tags == TagsOf(data)
    ensures forall t :: t in tags <==> data.Some? && HasTag(data.value, t)
  {
    hide HasTag, ArrayTags, ComponentTags;
    TagsOfExactly(data);
    tags := [];
    if data.None? {
      return;
    }
    var mapping := Field(data.value, "mapping");
    if !mapping.JObject? {
      assert Field(mapping, "components") == JNull && ArrayTags(Field(Field(mapping, "defaults"), "tags")) == [] by {
        NoTags();
      }
      return;
    }
    tags := ExtractTagArray(Field(Field(mapping, "defaults"), "tags"));
    var components := Field(mapping, "components");
    if !components.JArray? {
      return;
    }
    NoTags();
    assert components.items[..0] == [];
    for i := 0 to |components.items|
      invariant tags == ArrayTags(Field(Field(mapping, "defaults"), "tags")) + ComponentTags(components.items[..i])
    {
      var c := components.items[i];
      var own := ExtractTagArray(Field(c, "tags"));
      var componentTags := ExtractTagArray(Field(c, "componentTags"));
      var repositoryTags := ExtractRepositoryTags(Field(c, "repositories"));
      ComponentTagsOneMore(components.items, i);
      tags := tags + own + componentTags + repositoryTags;
    }
    assert components.items[..|components.items|] == components.items;
  }

  lemma NoTags()
    ensures ArrayTags(JNull) == [] && ComponentTags([]) == []
  {
  }

  lemma ComponentTagsOneMore(components: seq<Json>, i: nat)
    requires i < |components|
    ensures ComponentTags([]) == []
    ensures var c := components[i];
            var repos := Field(c, "repositories");
            ComponentTags(components[..i + 1]) ==
            ComponentTags(components[..i]) + ArrayTags(Field(c, "tags")) + ArrayTags(Field(c, "componentTags"))
            + if repos.JArray? then RepositoryTags(repos.items) else []
  {
    assert components[..i + 1][..i] == components[..i];
  }

  /** A disabling tag hits a tag that equals it or that its pattern matches. */
  predicate Hits(regex: Regex, disabling: string, tag: string) {
    tag == disabling || (disabling, tag) in regex
  }

  predicate Disables(regex: Regex, disabling: seq<string>, tags: seq<string>) {
    exists t | t in tags :: exists d | d in disabling :: Hits(regex, d, t)
  }

  predicate Distinct(tags: seq<string>) {
    forall i, j | 0 <= i < j < |tags| :: tags[i] != tags[j]
  }

  /** The tags that a disabling tag hits are added to those found before, each once. */
  function AddMatches(regex: Regex, disabling: string, tags: seq<string>, found: seq<string>): seq<string> {
    if tags == [] then found
    else
      var before := AddMatches(regex, disabling, tags[..|tags| - 1], found);
      var tag := tags[|tags| - 1];
      if Hits(regex, disabling, tag) && tag !in before then before + [tag] else before
  }

  /** The tags that are hit, by the disabling tag that hits them first, each in the order of the tags. */
  function MatchedTags(regex: Regex, disabling: seq<string>, tags: seq<string>): seq<string> {
    if disabling == [] then []
    else
      var last := |disabling| - 1;
      AddMatches(regex, disabling[last], tags, MatchedTags(regex, disabling[..last], tags))
  }

  lemma {:induction false} AddMatchesExactly(regex: Regex, disabling: string, tags: seq<string>, found: seq<string>)
    requires Distinct(found)
    ensures Distinct(AddMatches(regex, disabling, tags, found))
    ensures forall t :: t in AddMatches(regex, disabling, tags, found) <==>
                        t in found || (t in tags && Hits(regex, disabling, t))
  {
    if tags != [] {
      AddMatchesExactly(regex, disabling, tags[..|tags| - 1], found);
      assert tags == tags[..|tags| - 1] + [tags[|tags| - 1]];
    }
  }

  /** A tag is listed exactly when it is one of the tags and hit by a disabling tag, and once. */
  lemma {:induction false} MatchedTagsExactly(regex: Regex, disabling: seq<string>, tags: seq<string>)
    ensures Distinct(MatchedTags(regex, disabling, tags))
    ensures forall t :: t in MatchedTags(regex, disabling, tags) <==>
                        t in tags && exists d | d in disabling :: Hits(regex, d, t)
    ensures MatchedTags(regex, disabling, tags) != [] <==> Disables(regex, disabling, tags)
  {
    var matched := MatchedTags(regex, disabling, tags);
    if disabling != [] {
      var last := |disabling| - 1;
      MatchedTagsExactly(regex, disabling[..last], tags);
      AddMatchesExactly(regex, disabling[last], tags, MatchedTags(regex, disabling[..last], tags));
      assert disabling == disabling[..last] + [disabling[last]];
    }
    if matched != [] {
      assert matched[0] in matched;
    }
  }

  function Join(tags: seq<string>): string {
    if tags == [] then ""
    else if |tags| == 1 then tags[0]
    else Join(tags[..|tags| - 1]) + ", " + tags[|tags| - 1]
  }

  /** Joining puts a comma and a blank between any two parts. */
  lemma {:induction false} JoinConcat(a: seq<string>, b: seq<string>)
    requires a != [] && b != []
    ensures Join(a + b) == Join(a) + ", " + Join(b)
  {
    var last := |b| - 1;
    assert (a + b)[..|a + b| - 1] == a + b[..last];
    if last > 0 {
      JoinConcat(a, b[..last]);
    } else {
      assert a + b[..last] == a;
    }
  }

  lemma JoinOne(tag: string)
    ensures Join([]) == "" && Join([tag]) == tag
  {
  }

  /** The tags that an earlier disabling tag hits are listed first. */
  lemma {:induction false} AddMatchesExtends(regex: Regex, disabling: string, tags: seq<string>, found: seq<string>)
    ensures found <= AddMatches(regex, disabling, tags, found)
  {
    if tags != [] {
      AddMatchesExtends(regex, disabling, tags[..|tags| - 1], found);
    }
  }

  lemma EarlierTagsFirst(regex: Regex, disabling: seq<string>, tags: seq<string>)
    requires disabling != []
    ensures MatchedTags(regex, disabling[..|disabling| - 1], tags) <= MatchedTags(regex, disabling, tags)
  {
    var last := |disabling| - 1;
    AddMatchesExtends(regex, disabling[last], tags, MatchedTags(regex, disabling[..last], tags));
  }

  /** Among the tags that one disabling tag hits, the order is that of the tags. */
  lemma TagsInOrder(regex: Regex, disabling: string, tags: seq<string>, found: seq<string>)
    requires tags != []
    ensures AddMatches(regex, disabling, tags[..|tags| - 1], found) <= AddMatches(regex, disabling, tags, found)
  {
  }

  /** The disabled tags, joined, and whether there are any. */
  method MatchDisablingTags(regex: Regex, combinedTags: seq<string>, disablingTags: seq<string>)
    returns (joinedTags: string, matched: bool)
    ensures matched <==> Disables(regex, disablingTags, combinedTags)
    ensures matched <==>
            exists t, d | t in combinedTags && d in disablingTags :: t == d || (d, t) in regex
    ensures joinedTags == Join(MatchedTags(regex, disablingTags, combinedTags))
  {
    var matchedTags: seq<string> := [];
    var seenTags: set<string> := {};
    for i := 0 to |disablingTags|
      invariant forall t :: t in seenTags <==> t in matchedTags
      invariant matchedTags == MatchedTags(regex, disablingTags[..i], combinedTags)
    {
      var disabling := disablingTags[i];
      assert disablingTags[..i + 1][..i] == disablingTags[..i];
      ghost var before := matchedTags;
      for j := 0 to |combinedTags|
        invariant forall t :: t in seenTags <==> t in matchedTags
        invariant matchedTags == AddMatches(regex, disabling, combinedTags[..j], before)
      {
        assert combinedTags[..j + 1][..j] == combinedTags[..j];
        var tag := combinedTags[j];
        if Hits(regex, disabling, tag) && tag !in seenTags {
          seenTags := seenTags + {tag};
          matchedTags := matchedTags + [tag];
        }
      }
      assert combinedTags[..|combinedTags|] == combinedTags;
    }
    assert disablingTags[..|disablingTags|] == disablingTags;
    MatchedTagsExactly(regex, disablingTags, combinedTags);
    joinedTags, matched := Join(matchedTags), |matchedTags| > 0;
  }

  datatype Policy = Policy(
    maxRetries: int,
    disableOn: Option<seq<string>>,
    mitigations: Option<Mitigations.MitigationConfig>)

  datatype RetryablePipeline = RetryablePipeline(url: string, revision: string, pathInRepo: string, policy: Policy)

  /** The git resolver parameters of a pipeline reference. */
  datatype GitRef = GitRef(url: string, revision: string, pathInRepo: string)

  /** Why retries are enabled or not. */
  datatype Reason =
    | NoConfiguration | NoPipeline | OffByOverride | NotRetryable | DisabledByTags(tags: string)
    | OnByOverride | OnByPolicy

  datatype RetryInfo = RetryInfo(
    enabled: bool,
    maxRetries: Option<int>,
    mitigations: Option<Mitigations.MitigationConfig>,
    disablingTags: seq<string>,
    reason: Reason)

  function Off(reason: Reason): RetryInfo {
    RetryInfo(false, None, None, [], reason)
  }

  function TrimGit(url: string): string {
    if |url| >= 4 && url[|url| - 4..] == ".git" then url[..|url| - 4] else url
  }

  predicate Accepts(regex: Regex, r: RetryablePipeline, g: GitRef) {
    && ((r.url, TrimGit(g.url)) in regex || (r.url, TrimGit(g.url) + ".git") in regex)
    && (r.revision, g.revision) in regex
    && r.pathInRepo == g.pathInRepo
  }

  /** The policy of the first pipeline, in list order, that accepts the reference. */
  function FirstPolicy(regex: Regex, g: GitRef, pipelines: seq<RetryablePipeline>): Option<Policy> {
    if pipelines == [] then None
    else if Accepts(regex, pipelines[0], g) then Some(pipelines[0].policy)
    else FirstPolicy(regex, g, pipelines[1..])
  }

  /** The retry policy that governs a reference; None for one that is not a git resolver. */
  method GetMatchingRetryablePipeline(regex: Regex, git: Option<GitRef>, pipelines: seq<RetryablePipeline>)
    returns (r: Option<Policy>)
    ensures r == if git.None? then None else FirstPolicy(regex, git.value, pipelines)
  {
    r := None;
    if git.None? {
      return;
    }
    for i := 0 to |pipelines|
      invariant FirstPolicy(regex, git.value, pipelines) == FirstPolicy(regex, git.value, pipelines[i..])
    {
      if Accepts(regex, pipelines[i], git.value) {
        return Some(pipelines[i].policy);
      }
    }
  }

  /** No tag found in `data` is hit by one of the disabling tags. */
  ghost predicate Clear(regex: Regex, disabling: seq<string>, data: Option<Json>) {
    data.Some? ==> forall t :: HasTag(data.value, t) ==> forall d | d in disabling :: !Hits(regex, d, t)
  }

  ghost predicate AllClear(regex: Regex, disabling: seq<string>, datas: seq<Option<Json>>) {
    forall i | 0 <= i < |datas| :: Clear(regex, disabling, datas[i])
  }

  function DisablingTagsOf(policy: Policy): seq<string> {
    if policy.disableOn.Some? then policy.disableOn.value else []
  }

  /** The pipeline of a ReleasePlanAdmission, with its optional override of the retry count. */
  datatype PipelineSpec = PipelineSpec(git: Option<GitRef>, maxRetries: Option<int>)

  /** The policy that `DetermineRetryInfo` may enable, tags aside. */
  function CandidatePolicy(regex: Regex, pipeline: Option<PipelineSpec>, rsc: Option<seq<RetryablePipeline>>)
    : Option<Policy>
  {
    if rsc.None? || pipeline.None? || pipeline.value.maxRetries == Some(0) || pipeline.value.git.None? then None
    else FirstPolicy(regex, pipeline.value.git.value, rsc.value)
  }

  /** The tags of the matched plans, one plan after the other. */
  function PlanTags(datas: seq<Option<Json>>): seq<string> {
    if datas == [] then [] else PlanTags(datas[..|datas| - 1]) + TagsOf(datas[|datas| - 1])
  }

  /** The first of the reasons, in the order of the checks, that applies. */
  function ReasonFor(regex: Regex, pipeline: Option<PipelineSpec>, rpaData: Option<Json>,
                     planData: seq<Option<Json>>, rsc: Option<seq<RetryablePipeline>>): Reason
  {
    if rsc.None? then NoConfiguration
    else if pipeline.None? then NoPipeline
    else if pipeline.value.maxRetries == Some(0) then OffByOverride
    else
      var candidate := CandidatePolicy(regex, pipeline, rsc);
      if candidate.None? then NotRetryable
      else
        var matched := MatchedTags(regex, DisablingTagsOf(candidate.value), TagsOf(rpaData) + PlanTags(planData));
        if matched != [] then DisabledByTags(Join(matched))
        else if pipeline.value.maxRetries.Some? then OnByOverride
        else OnByPolicy
  }

  /** Retries are enabled exactly when a policy applies and none of the tags of the admission
      and of its matched plans is disabled by it; the override of the admission wins. */
  ghost predicate DeterminedFrom(regex: Regex, pipeline: Option<PipelineSpec>, rpaData: Option<Json>,
                                 planData: seq<Option<Json>>, rsc: Option<seq<RetryablePipeline>>, info: RetryInfo)
  {
    var candidate := CandidatePolicy(regex, pipeline, rsc);
    && (info.enabled <==>
        && candidate.Some?
        && Clear(regex, DisablingTagsOf(candidate.value), rpaData)
        && AllClear(regex, DisablingTagsOf(candidate.value), planData))
    && info.reason == ReasonFor(regex, pipeline, rpaData, planData, rsc)
    && (info.enabled ==>
          && info.mitigations == candidate.value.mitigations
          && info.disablingTags == DisablingTagsOf(candidate.value)
          && info.maxRetries == Some(if pipeline.value.maxRetries.Some? then pipeline.value.maxRetries.value
                                     else candidate.value.maxRetries))
    && (!info.enabled ==> info == Off(info.reason))
  }

  /** The retry information that is stored in the status of a ReleasePlanAdmission. */
  method DetermineRetryInfo(regex: Regex, pipeline: Option<PipelineSpec>, rpaData: Option<Json>,
                            planData: seq<Option<Json>>, rsc: Option<seq<RetryablePipeline>>)
    returns (info: RetryInfo)
    ensures DeterminedFrom(regex, pipeline, rpaData, planData, rsc, info)
  {
    if rsc.None? {
      return Off(NoConfiguration);
    }
    if pipeline.None? {
      return Off(NoPipeline);
    }
    if pipeline.value.maxRetries == Some(0) {
      return Off(OffByOverride);
    }
    var retryable := GetMatchingRetryablePipeline(regex, pipeline.value.git, rsc.value);
    if retryable.None? {
      return Off(NotRetryable);
    }
    var policy := retryable.value;
    ghost var tags := TagsOf(rpaData) + PlanTags(planData);
    TagsOfExactly(rpaData);
    PlanTagsExactly(planData);
    DisablesIffNotClear(regex, DisablingTagsOf(policy), tags, rpaData, planData);
    MatchedTagsExactly(regex, DisablingTagsOf(policy), tags);
    if policy.disableOn.Some? && |policy.disableOn.value| > 0 {
      var rpaTags := ExtractTags(rpaData);
      var rpTags: seq<string> := [];
      for i := 0 to |planData|
        invariant rpTags == PlanTags(planData[..i])
      {
        assert planData[..i + 1][..i] == planData[..i];
        var own := ExtractTags(planData[i]);
        rpTags := rpTags + own;
      }
      assert planData[..|planData|] == planData;
      var joined, matched := MatchDisablingTags(regex, rpaTags + rpTags, policy.disableOn.value);
      if matched {
        return Off(DisabledByTags(joined));
      }
    }
    if pipeline.value.maxRetries.Some? {
      return RetryInfo(true, pipeline.value.maxRetries, policy.mitigations, DisablingTagsOf(policy), OnByOverride);
    }
    return RetryInfo(true, Some(policy.maxRetries), policy.mitigations, DisablingTagsOf(policy), OnByPolicy);
  }

  predicate SomePlanHasTag(datas: seq<Option<Json>>, tag: string) {
    exists j | 0 <= j < |datas| :: datas[j].Some? && HasTag(datas[j].value, tag)
  }

  lemma {:induction false} PlanTagsExactly(datas: seq<Option<Json>>)
    ensures forall t :: t in PlanTags(datas) <==> SomePlanHasTag(datas, t)
  {
    if datas != [] {
      hide HasTag, TagsOf;
      var last := |datas| - 1;
      PlanTagsExactly(datas[..last]);
      TagsOfExactly(datas[last]);
      forall t
        ensures SomePlanHasTag(datas, t) <==>
                SomePlanHasTag(datas[..last], t) || (datas[last].Some? && HasTag(datas[last].value, t))
      {
        assert forall j | 0 <= j < last :: datas[..last][j] == datas[j];
      }
    }
  }

  /** Matching the concatenated tag lists is the same as matching every data field on its own. */
  lemma DisablesIffNotClear(regex: Regex, disabling: seq<string>, allTags: seq<string>,
                            rpaData: Option<Json>, planData: seq<Option<Json>>)
    requires forall t :: t in allTags <==>
                         || (rpaData.Some? && HasTag(rpaData.value, t))
                         || exists j | 0 <= j < |planData| :: planData[j].Some? && HasTag(planData[j].value, t)
    ensures Disables(regex, disabling, allTags) <==>
            !(Clear(regex, disabling, rpaData) && AllClear(regex, disabling, planData))
  {
    if Disables(regex, disabling, allTags) {
      var t :| t in allTags && exists d | d in disabling :: Hits(regex, d, t);
      var d :| d in disabling && Hits(regex, d, t);
      if !(rpaData.Some? && HasTag(rpaData.value, t)) {
        var j :| 0 <= j < |planData| && planData[j].Some? && HasTag(planData[j].value, t);
        assert !Clear(regex, disabling, planData[j]);
      }
    } else {
      forall t, d | t in allTags && d in disabling
        ensures !Hits(regex, d, t)
      {
      }
    }
  }

  predicate EndsInGit(url: string) {
    |url| >= 4 && url[|url| - 4..] == ".git"
  }

  /** A pipeline accepts a reference when its URL pattern matches the URL without or with a trailing
      ".git", its revision pattern matches the revision, and the paths are equal. */
  lemma AcceptsExactly(regex: Regex, r: RetryablePipeline, url: string, revision: string, path: string)
    ensures !EndsInGit(url) ==>
              (Accepts(regex, r, GitRef(url, revision, path)) <==>
               && ((r.url, url) in regex || (r.url, url + ".git") in regex)
               && (r.revision, revision) in regex && r.pathInRepo == path)
    ensures Accepts(regex, r, GitRef(url + ".git", revision, path)) <==>
            && ((r.url, url) in regex || (r.url, url + ".git") in regex)
            && (r.revision, revision) in regex && r.pathInRepo == path
  {
    var long := url + ".git";
    assert long[|long| - 4..] == ".git" && long[..|long| - 4] == url;
  }

  /** Pipeline `i` of the list is the first one that accepts the reference. */
  predicate IsFirst(regex: Regex, g: GitRef, pipelines: seq<RetryablePipeline>, i: nat) {
    && i < |pipelines| && Accepts(regex, pipelines[i], g)
    && forall k | 0 <= k < i :: !Accepts(regex, pipelines[k], g)
  }

  /** Pipeline `i` of the list is the first one that accepts the reference of the admission, whose
      own configuration does not switch retries off. */
  predicate Selects(regex: Regex, pipeline: Option<PipelineSpec>, rsc: Option<seq<RetryablePipeline>>, i: nat) {
    && rsc.Some? && pipeline.Some? && pipeline.value.maxRetries != Some(0) && pipeline.value.git.Some?
    && IsFirst(regex, pipeline.value.git.value, rsc.value, i)
  }

  lemma {:induction false} FirstPolicyExactly(regex: Regex, g: GitRef, pipelines: seq<RetryablePipeline>, i: nat)
    requires i <= |pipelines| && forall k | 0 <= k < i :: !Accepts(regex, pipelines[k], g)
    ensures i < |pipelines| && Accepts(regex, pipelines[i], g) ==> FirstPolicy(regex, g, pipelines) == Some(pipelines[i].policy)
    ensures i == |pipelines| ==> FirstPolicy(regex, g, pipelines).None?
  {
    if i > 0 {
      assert !Accepts(regex, pipelines[0], g);
      assert forall k | 0 <= k < i - 1 :: pipelines[1..][k] == pipelines[k + 1];
      FirstPolicyExactly(regex, g, pipelines[1..], i - 1);
    }
  }

  lemma FirstOfRest(regex: Regex, g: GitRef, pipelines: seq<RetryablePipeline>, i: nat)
    requires pipelines != [] && !Accepts(regex, pipelines[0], g) && IsFirst(regex, g, pipelines[1..], i)
    ensures IsFirst(regex, g, pipelines, i + 1)
  {
    hide Accepts;
    assert forall k | 1 <= k < i + 1 :: pipelines[k] == pipelines[1..][k - 1];
  }

  lemma {:induction false} SomeFirst(regex: Regex, g: GitRef, pipelines: seq<RetryablePipeline>)
    ensures FirstPolicy(regex, g, pipelines).Some? ==> exists i: nat :: IsFirst(regex, g, pipelines, i)
  {
    hide Accepts;
    if FirstPolicy(regex, g, pipelines).Some? {
      if Accepts(regex, pipelines[0], g) {
        assert IsFirst(regex, g, pipelines, 0);
      } else {
        SomeFirst(regex, g, pipelines[1..]);
        hide IsFirst;
        var i: nat :| IsFirst(regex, g, pipelines[1..], i);
        FirstOfRest(regex, g, pipelines, i);
      }
    }
  }

  lemma SelectsExactly(regex: Regex, pipeline: Option<PipelineSpec>, rsc: Option<seq<RetryablePipeline>>)
    ensures forall i: nat | Selects(regex, pipeline, rsc, i) ::
              CandidatePolicy(regex, pipeline, rsc) == Some(rsc.value[i].policy)
    ensures CandidatePolicy(regex, pipeline, rsc).Some? ==> exists i: nat :: Selects(regex, pipeline, rsc, i)
  {
    hide Accepts, FirstPolicy;
    forall i: nat | Selects(regex, pipeline, rsc, i)
      ensures CandidatePolicy(regex, pipeline, rsc) == Some(rsc.value[i].policy)
    {
      FirstPolicyExactly(regex, pipeline.value.git.value, rsc.value, i);
    }
    if CandidatePolicy(regex, pipeline, rsc).Some? {
      SomeFirst(regex, pipeline.value.git.value, rsc.value);
      hide IsFirst;
      var i: nat :| IsFirst(regex, pipeline.value.git.value, rsc.value, i);
      assert Selects(regex, pipeline, rsc, i);
    }
  }

  /** A tag of the admission or of one of the plans is hit by a disabling tag of the policy. */
  ghost predicate DataDisabled(regex: Regex, policy: Policy, rpaData: Option<Json>, planData: seq<Option<Json>>) {
    exists t, d ::
      && policy.disableOn.Some? && d in policy.disableOn.value && (t == d || (d, t) in regex)
      && ((rpaData.Some? && HasTag(rpaData.value, t)) || SomePlanHasTag(planData, t))
  }

  lemma ClearExactly(regex: Regex, policy: Policy, rpaData: Option<Json>, planData: seq<Option<Json>>)
    ensures DataDisabled(regex, policy, rpaData, planData) <==>
            !(Clear(regex, DisablingTagsOf(policy), rpaData) && AllClear(regex, DisablingTagsOf(policy), planData))
  {
    hide HasTag;
    var disabling := DisablingTagsOf(policy);
    if !Clear(regex, disabling, rpaData) {
      var t, d :| HasTag(rpaData.value, t) && d in disabling && Hits(regex, d, t);
      assert DataDisabled(regex, policy, rpaData, planData);
    }
    if !AllClear(regex, disabling, planData) {
      var j :| 0 <= j < |planData| && !Clear(regex, disabling, planData[j]);
      var t, d :| HasTag(planData[j].value, t) && d in disabling && Hits(regex, d, t);
      assert SomePlanHasTag(planData, t);
    }
    if DataDisabled(regex, policy, rpaData, planData) {
      var t, d :| && policy.disableOn.Some? && d in policy.disableOn.value && (t == d || (d, t) in regex)
                  && ((rpaData.Some? && HasTag(rpaData.value, t)) || SomePlanHasTag(planData, t));
      assert d in disabling && Hits(regex, d, t);
      if SomePlanHasTag(planData, t) {
        var j :| 0 <= j < |planData| && planData[j].Some? && HasTag(planData[j].value, t);
        assert !Clear(regex, disabling, planData[j]);
      }
    }
  }

  /** What the computed RetryInfo says: retries are enabled exactly when some configured pipeline is
      selected and no data disables it; then the count is that of the admission if it has one, and
      mitigations and disabling tags are those of the selected policy. */
  lemma DeterminedExactly(regex: Regex, pipeline: Option<PipelineSpec>, rpaData: Option<Json>,
                          planData: seq<Option<Json>>, rsc: Option<seq<RetryablePipeline>>, info: RetryInfo)
    requires DeterminedFrom(regex, pipeline, rpaData, planData, rsc, info)
    ensures info.enabled <==>
            exists i: nat :: Selects(regex, pipeline, rsc, i)
                             && !DataDisabled(regex, rsc.value[i].policy, rpaData, planData)
    ensures forall i: nat | info.enabled && Selects(regex, pipeline, rsc, i) ::
              var policy := rsc.value[i].policy;
              && info.maxRetries == (if pipeline.value.maxRetries.Some? then pipeline.value.maxRetries
                                     else Some(policy.maxRetries))
              && info.mitigations == policy.mitigations
              && info.disablingTags == (if policy.disableOn.Some? then policy.disableOn.value else [])
    ensures !info.enabled ==> info.maxRetries.None? && info.mitigations.None? && info.disablingTags == []
  {
    SelectsExactly(regex, pipeline, rsc);
    var candidate := CandidatePolicy(regex, pipeline, rsc);
    if candidate.Some? {
      ClearExactly(regex, candidate.value, rpaData, planData);
    }
    hide CandidatePolicy, Selects, Clear, AllClear, DataDisabled, ReasonFor;
  }

  /** Which reason is given, for every combination of what is configured. */
  lemma ReasonExactly(regex: Regex, pipeline: Option<PipelineSpec>, rpaData: Option<Json>,
                      planData: seq<Option<Json>>, rsc: Option<seq<RetryablePipeline>>, info: RetryInfo)
    requires DeterminedFrom(regex, pipeline, rpaData, planData, rsc, info)
    ensures info.reason == NoConfiguration <==> rsc.None?
    ensures info.reason == NoPipeline <==> rsc.Some? && pipeline.None?
    ensures info.reason == OffByOverride <==> rsc.Some? && pipeline.Some? && pipeline.value.maxRetries == Some(0)
    ensures info.reason == NotRetryable <==>
            && rsc.Some? && pipeline.Some? && pipeline.value.maxRetries != Some(0)
            && !exists i: nat :: Selects(regex, pipeline, rsc, i)
    ensures info.reason.DisabledByTags? <==>
            exists i: nat :: Selects(regex, pipeline, rsc, i)
                             && DataDisabled(regex, rsc.value[i].policy, rpaData, planData)
    ensures info.reason == OnByOverride <==> info.enabled && pipeline.value.maxRetries.Some?
    ensures info.reason == OnByPolicy <==> info.enabled && pipeline.value.maxRetries.None?
  {
    SelectsExactly(regex, pipeline, rsc);
    var candidate := CandidatePolicy(regex, pipeline, rsc);
    if candidate.Some? {
      ClearExactly(regex, candidate.value, rpaData, planData);
      var tags := TagsOf(rpaData) + PlanTags(planData);
      TagsOfExactly(rpaData);
      PlanTagsExactly(planData);
      DisablesIffNotClear(regex, DisablingTagsOf(candidate.value), tags, rpaData, planData);
      MatchedTagsExactly(regex, DisablingTagsOf(candidate.value), tags);
    }
    hide CandidatePolicy, Selects, Clear, AllClear, DataDisabled, MatchedTags, Join, TagsOf, PlanTags, Disables;
  }
}
