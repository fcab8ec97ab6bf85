/** The two searches that pair ReleasePlans with ReleasePlanAdmissions: from a plan to its admission,
 * and from an admission to its plans, over a cluster of any size.
 */
module Matching {
  import opened ReleaseStatus

  /** `designated` is the value of the releasePlanAdmission label, which may be there and empty. */
  datatype Plan = Plan(
    namespace: string,
    name: string,
    application: string,
    componentGroup: string,
    target: string,
    designated: Option<string>)
  {
    function GroupName(): string {
      if application != "" then application else componentGroup
    }
  }

  datatype Admission = Admission(
    namespace: string,
    name: string,
    origin: string,
    applications: seq<string>,
    componentGroups: seq<string>)
  {
    predicate MatchesReleasePlan(plan: Plan) {
      plan.GroupName() in applications || plan.GroupName() in componentGroups
    }
  }

  datatype Cluster = Cluster(plans: seq<Plan>, admissions: seq<Admission>) {
    /** Names are unique within a namespace, and neither is empty. */
    predicate Valid() {
      && (forall a, b | a in admissions && b in admissions ::
            a.namespace == b.namespace && a.name == b.name ==> a == b)
      && (forall a | a in admissions :: a.namespace != "" && a.name != "")
      && (forall i, j | 0 <= i < j < |admissions| :: admissions[i] != admissions[j])
      && (forall plan | plan in plans :: plan.namespace != "" && plan.name != "")
    }
  }

  datatype Error = NotFound | OriginMismatch | NoTarget | NoneFound | Multiple | NoOrigin

  datatype Result<T> = Ok(value: T) | Err(error: Error)

  function Filter<T>(xs: seq<T>, p: T -> bool): seq<T> {
    if xs == [] then []
    else (if p(xs[0]) then [xs[0]] else []) + Filter(xs[1..], p)
  }

  lemma {:induction false} FilterConcat<T>(xs: seq<T>, ys: seq<T>, p: T -> bool)
    ensures Filter(xs + ys, p) == Filter(xs, p) + Filter(ys, p)
  {
    if xs == [] {
      assert xs + ys == ys;
    } else {
      var first := if p(xs[0]) then [xs[0]] else [];
      var zs := xs + ys;
      assert zs[0] == xs[0] && zs[1..] == xs[1..] + ys;
      FilterConcat(xs[1..], ys, p);
      assert Filter(zs, p) == first + Filter(zs[1..], p);
      assert first + (Filter(xs[1..], p) + Filter(ys, p)) == (first + Filter(xs[1..], p)) + Filter(ys, p);
    }
  }

  /** One element more at either end of the part that is filtered. */
  lemma FilterOneMore<T>(xs: seq<T>, i: nat, p: T -> bool)
    requires i < |xs|
    ensures Filter(xs[..i + 1], p) == Filter(xs[..i], p) + (if p(xs[i]) then [xs[i]] else [])
    ensures Filter(xs[i..], p) == if p(xs[i]) then [xs[i]] + Filter(xs[i + 1..], p) else Filter(xs[i + 1..], p)
    ensures |Filter(xs, p)| >= |Filter(xs[..i + 1], p)|
  {
    assert xs[..i + 1] == xs[..i] + [xs[i]];
    assert xs[i..][1..] == xs[i + 1..];
    FilterConcat(xs[..i], [xs[i]], p);
    assert xs == xs[..i + 1] + xs[i + 1..];
    FilterConcat(xs[..i + 1], xs[i + 1..], p);
  }

  lemma {:induction false} FilterNone<T>(xs: seq<T>, p: T -> bool)
    requires forall x | x in xs :: !p(x)
    ensures Filter(xs, p) == []
  {
    if xs != [] {
      FilterNone(xs[1..], p);
    }
  }

  lemma {:induction false} FilterIn<T>(xs: seq<T>, p: T -> bool)
    ensures forall x :: x in Filter(xs, p) <==> x in xs && p(x)
  {
    if xs != [] {
      FilterIn(xs[1..], p);
      assert xs == [xs[0]] + xs[1..];
    }
  }

  /** Admissions of the plan's target namespace that accept plans of its namespace and group. */
  predicate Candidate(a: Admission, plan: Plan) {
    a.namespace == plan.target && a.origin == plan.namespace && a.MatchesReleasePlan(plan)
  }

  function CandidateFor(plan: Plan): Admission -> bool {
    (a: Admission) => Candidate(a, plan)
  }

  function ListedFor(plan: Plan): Admission -> bool {
    (a: Admission) => a.namespace == plan.target && a.origin == plan.namespace
  }

  predicate Designates(plan: Plan) {
    plan.designated.Some? && plan.designated.value != ""
  }

  /** GetObject: the admission with the given namespace and name. */
  function Lookup(admissions: seq<Admission>, namespace: string, name: string): (r: Option<Admission>)
    ensures r.Some? ==> r.value in admissions && r.value.namespace == namespace && r.value.name == name
    ensures r.None? ==> forall a | a in admissions :: a.namespace != namespace || a.name != name
  {
    if admissions == [] then None
    else if admissions[0].namespace == namespace && admissions[0].name == name then Some(admissions[0])
    else Lookup(admissions[1..], namespace, name)
  }

  function Found(candidates: seq<Admission>): Result<Admission> {
    if candidates == [] then Err(NoneFound)
    else if |candidates| > 1 then Err(Multiple)
    else Ok(candidates[0])
  }

  /** The admission of a plan. */
  function Matched(c: Cluster, plan: Plan): Result<Admission> {
    if Designates(plan) then
      var a := Lookup(c.admissions, plan.target, plan.designated.value);
      if a.None? then Err(NotFound)
      else if a.value.origin != plan.namespace then Err(OriginMismatch)
      else Ok(a.value)
    else if plan.target == "" then Err(NoTarget)
    else Found(Filter(c.admissions, CandidateFor(plan)))
  }

  /** List, in the target namespace and with the plan's namespace as origin. */
  function ListAdmissions(c: Cluster, plan: Plan): seq<Admission> {
    Filter(c.admissions, ListedFor(plan))
  }

  method GetMatchingReleasePlanAdmission(c: Cluster, plan: Plan) returns (r: Result<Admission>)
    ensures r == Matched(c, plan)
  {
    if Designates(plan) {
      var a := Lookup(c.admissions, plan.target, plan.designated.value);
      if a.None? {
        return Err(NotFound);
      }
      if a.value.origin != plan.namespace {
        return Err(OriginMismatch);
      }
      return Ok(a.value);
    }
    if plan.target == "" {
      return Err(NoTarget);
    }
    var p := CandidateFor(plan);
    var listed := ListAdmissions(c, plan);
    FilterTwice(c.admissions, plan);
    hide Filter, CandidateFor;
    assert listed[..0] == [];
    FilterNone(listed[..0], p);
    var found: Option<Admission> := None;
    for i := 0 to |listed|
      invariant Filter(listed[..i], p) == if found.None? then [] else [found.value]
    {
      ListedAre(c.admissions, plan, listed[i]);
      FilterOneMore(listed, i, p);
      if !listed[i].MatchesReleasePlan(plan) {
        continue;
      }
      if found.Some? {
        return Err(Multiple);
      }
      found := Some(listed[i]);
    }
    assert listed[..|listed|] == listed;
    return if found.None? then Err(NoneFound) else Ok(found.value);
  }

  lemma ListedAre(admissions: seq<Admission>, plan: Plan, a: Admission)
    requires a in Filter(admissions, ListedFor(plan))
    ensures CandidateFor(plan)(a) == a.MatchesReleasePlan(plan)
  {
    FilterIn(admissions, ListedFor(plan));
  }

  lemma {:induction false} FilterTwice(admissions: seq<Admission>, plan: Plan)
    ensures Filter(Filter(admissions, ListedFor(plan)),
                   CandidateFor(plan))
            == Filter(admissions, CandidateFor(plan))
  {
    if admissions != [] {
      FilterTwice(admissions[1..], plan);
      var listed := ListedFor(plan);
      var p := CandidateFor(plan);
      var first := if listed(admissions[0]) then [admissions[0]] else [];
      FilterConcat(first, Filter(admissions[1..], listed), p);
    }
  }

  /** Plans that name the admission, or have no label at all, and that it accepts. */
  predicate Accepted(a: Admission, plan: Plan) {
    a.MatchesReleasePlan(plan) && (plan.designated.None? || plan.designated.value == a.name)
  }

  predicate Targets(plan: Plan, a: Admission) {
    plan.namespace == a.origin && plan.target == a.namespace
  }

  function AcceptedBy(a: Admission): Plan -> bool {
    (plan: Plan) => Accepted(a, plan)
  }

  function Targeting(a: Admission): Plan -> bool {
    (plan: Plan) => Targets(plan, a)
  }

  function Naming(a: Admission): Plan -> bool {
    (plan: Plan) => Targets(plan, a) && plan.designated == Some(a.name)
  }

  function Labelled(c: Cluster, a: Admission): seq<Plan> {
    Filter(c.plans, Naming(a))
  }

  /** The plans of an admission: the labelled ones if there are any, otherwise all that target it. */
  function MatchedPlans(c: Cluster, a: Admission): Result<seq<Plan>> {
    if a.origin == "" then Err(NoOrigin)
    else
      var listed := if Labelled(c, a) != [] then Labelled(c, a)
                    else Filter(c.plans, Targeting(a));
      Ok(Filter(listed, AcceptedBy(a)))
  }

  method GetMatchingReleasePlans(c: Cluster, a: Admission) returns (r: Result<seq<Plan>>)
    ensures r == MatchedPlans(c, a)
  {
    if a.origin == "" {
      return Err(NoOrigin);
    }
    var items := Labelled(c, a);
    if |items| == 0 {
      items := Filter(c.plans, Targeting(a));
    }
    items := DeleteUnaccepted(items, a);
    return Ok(items);
  }

  /** The plans after place `i` have been dealt with. */
  predicate DoneAfter(listed: seq<Plan>, i: int, a: Admission, items: seq<Plan>)
    requires -1 <= i < |listed|
  {
    items == listed[..i + 1] + Filter(listed[i + 1..], AcceptedBy(a))
  }

  lemma DoneOneMore(listed: seq<Plan>, i: nat, a: Admission, items: seq<Plan>)
    requires i < |listed| && DoneAfter(listed, i, a, items)
    ensures i < |items| && items[i] == listed[i]
    ensures DoneAfter(listed, i - 1, a, if Accepted(a, items[i]) then items else items[..i] + items[i + 1..])
  {
    hide Filter;
    FilterOneMore(listed, i, AcceptedBy(a));
    assert AcceptedBy(a)(listed[i]) == Accepted(a, listed[i]);
    DropAt(listed, i, Filter(listed[i + 1..], AcceptedBy(a)));
    hide AcceptedBy, Accepted;
  }

  lemma DropAt<T>(xs: seq<T>, i: nat, rest: seq<T>)
    requires i < |xs|
    ensures var items := xs[..i + 1] + rest;
            && items[i] == xs[i]
            && items == xs[..i] + ([xs[i]] + rest)
            && items[..i] + items[i + 1..] == xs[..i] + rest
  {
    var items := xs[..i + 1] + rest;
    assert items[..i] == xs[..i] && items[i + 1..] == rest;
  }

  /** The plans that are not accepted are deleted from the list in place, last one first; what is
      left is the accepted plans in their order. */
  method DeleteUnaccepted(listed: seq<Plan>, a: Admission) returns (items: seq<Plan>)
    ensures items == Filter(listed, AcceptedBy(a))
  {
    items := listed;
    var i := |items| - 1;
    assert listed[..i + 1] == listed && listed[0..] == listed;
    hide Filter;
    assert DoneAfter(listed, i, a, items) by {
      FilterNone(listed[|listed|..], AcceptedBy(a));
    }
    while i >= 0
      invariant -1 <= i < |listed| && DoneAfter(listed, i, a, items)
    {
      hide DoneAfter;
      DoneOneMore(listed, i, a, items);
      if !a.MatchesReleasePlan(items[i]) {
        items := items[..i] + items[i + 1..];
      } else if items[i].designated.Some? && items[i].designated.value != a.name {
        items := items[..i] + items[i + 1..];
      }
      i := i - 1;
    }
  }

  predicate Lists(c: Cluster, a: Admission, plan: Plan) {
    MatchedPlans(c, a).Ok? && plan in MatchedPlans(c, a).value
  }

  /** Which plans an admission lists: those that target it and are accepted, and, as soon as some
      plan that targets it names it in its label, only those that name it. */
  lemma ListsExactly(c: Cluster, a: Admission, plan: Plan)
    ensures Lists(c, a, plan) <==>
              && a.origin != "" && plan in c.plans && Targets(plan, a) && a.MatchesReleasePlan(plan)
              && (|| plan.designated == Some(a.name)
                  || (plan.designated.None? && forall q | q in c.plans && Targets(q, a) :: q.designated != Some(a.name)))
  {
    FilterIn(c.plans, Naming(a));
    FilterIn(c.plans, Targeting(a));
    FilterIn(Labelled(c, a), AcceptedBy(a));
    FilterIn(Filter(c.plans, Targeting(a)), AcceptedBy(a));
    if Labelled(c, a) != [] {
      assert Labelled(c, a)[0] in Labelled(c, a);
    }
  }

  lemma {:induction false} FilterOfDistinct(xs: seq<Admission>, p: Admission -> bool, a: Admission)
    requires forall i, j | 0 <= i < j < |xs| :: xs[i] != xs[j]
    requires a in xs && p(a)
    ensures Filter(xs, p) == [a] <==> forall b | b in xs && p(b) :: b == a
  {
    FilterIn(xs, p);
    if xs[0] == a {
      FilterIn(xs[1..], p);
      if forall b | b in xs && p(b) :: b == a {
        forall b | b in xs[1..]
          ensures !p(b)
        {
          assert b in xs && b != a;
        }
        FilterNone(xs[1..], p);
      }
    } else {
      FilterOfDistinct(xs[1..], p, a);
    }
  }

  /** When the search for an admission succeeds: the label decides alone, even for a group that the
      admission does not accept; without a label there must be exactly one candidate. */
  lemma MatchedExactly(c: Cluster, plan: Plan, a: Admission)
    requires c.Valid() && a in c.admissions
    ensures Matched(c, plan) == Ok(a) <==>
              if Designates(plan) then
                a.namespace == plan.target && a.name == plan.designated.value && a.origin == plan.namespace
              else
                Candidate(a, plan) && forall b | b in c.admissions && Candidate(b, plan) :: b == a
  {
    if !Designates(plan) && plan.target != "" {
      var p := CandidateFor(plan);
      FilterIn(c.admissions, p);
      if Candidate(a, plan) {
        FilterOfDistinct(c.admissions, p, a);
      }
      var found := Filter(c.admissions, p);
      if found != [] {
        assert found[0] in found;
      }
    }
  }

  /** An ambiguity is reported exactly when a plan without a designated admission has two candidates. */
  lemma MultipleExactly(c: Cluster, plan: Plan)
    requires c.Valid()
    ensures Matched(c, plan) == Err(Multiple) <==>
              && !Designates(plan)
              && exists a, b :: a in c.admissions && b in c.admissions && a != b && Candidate(a, plan) && Candidate(b, plan)
  {
    if !Designates(plan) && plan.target != "" {
      var p := CandidateFor(plan);
      FilterIn(c.admissions, p);
      var found := Filter(c.admissions, p);
      if found != [] {
        var a := found[0];
        assert a in found;
        FilterOfDistinct(c.admissions, p, a);
      }
    }
  }

  /** The searches agree: a plan listed for an admission finds that admission, or an ambiguity. */
  lemma ListedPlanFindsAdmission(c: Cluster, a: Admission, plan: Plan)
    requires c.Valid() && a in c.admissions && Lists(c, a, plan)
    ensures Matched(c, plan) == Ok(a) || Matched(c, plan) == Err(Multiple)
  {
    ListsExactly(c, a, plan);
    MatchedExactly(c, plan, a);
    MultipleExactly(c, plan);
  }

  /** A plan listed for two admissions has no label, and its search is ambiguous. */
  lemma ListedTwiceIsAmbiguous(c: Cluster, a: Admission, b: Admission, plan: Plan)
    requires c.Valid() && a in c.admissions && b in c.admissions && a != b
    requires Lists(c, a, plan) && Lists(c, b, plan)
    ensures plan.designated.None? && Matched(c, plan) == Err(Multiple)
  {
    ListsExactly(c, a, plan);
    ListsExactly(c, b, plan);
    MultipleExactly(c, plan);
  }

  /** The other direction fails in three ways only: the label brings in a group that the admission
      does not accept, the label is there but empty, or other plans are labelled and this one is not. */
  lemma FoundAdmissionListsExactly(c: Cluster, a: Admission, plan: Plan)
    requires c.Valid() && plan in c.plans && Matched(c, plan) == Ok(a)
    ensures Lists(c, a, plan) <==>
              && a.MatchesReleasePlan(plan)
              && (|| plan.designated == Some(a.name)
                  || (plan.designated.None? && forall q | q in c.plans && Targets(q, a) :: q.designated != Some(a.name)))
  {
    ListsExactly(c, a, plan);
    if Designates(plan) {
    } else {
      var p := CandidateFor(plan);
      FilterIn(c.admissions, p);
      assert a in Filter(c.admissions, p);
    }
  }

  /** A plan of namespace "dev" and an admission of namespace "managed" that accepts the given groups. */
  function SomePlan(name: string, designated: Option<string>): Plan {
    Plan("dev", name, "app", "", "managed", designated)
  }

  function SomeAdmission(groups: seq<string>): Admission {
    Admission("managed", "rpa", "dev", groups, [])
  }

  /** The plan finds the only admission of the cluster and is not listed for it. */
  predicate FindsUnlisted(plans: seq<Plan>, plan: Plan, a: Admission) {
    var c := Cluster(plans, [a]);
    c.Valid() && plan in plans && Matched(c, plan) == Ok(a) && !Lists(c, a, plan)
  }

  /** The label brings in a group that the admission does not accept. */
  lemma LabelledGroupIsNotListed()
    ensures FindsUnlisted([SomePlan("rp", Some("rpa"))], SomePlan("rp", Some("rpa")), SomeAdmission([]))
  {
    var plan, a := SomePlan("rp", Some("rpa")), SomeAdmission([]);
    var c := Cluster([plan], [a]);
    MatchedExactly(c, plan, a);
    ListsExactly(c, a, plan);
  }

  /** The label is there but empty. */
  lemma EmptyLabelIsNotListed()
    ensures FindsUnlisted([SomePlan("rp", Some(""))], SomePlan("rp", Some("")), SomeAdmission(["app"]))
  {
    var plan, a := SomePlan("rp", Some("")), SomeAdmission(["app"]);
    var c := Cluster([plan], [a]);
    MatchedExactly(c, plan, a);
    ListsExactly(c, a, plan);
  }

  /** Another plan is labelled. */
  lemma UnlabelledPlanIsNotListed()
    ensures FindsUnlisted([SomePlan("rp", None), SomePlan("other", Some("rpa"))], SomePlan("rp", None), SomeAdmission(["app"]))
  {
    var plan, other, a := SomePlan("rp", None), SomePlan("other", Some("rpa")), SomeAdmission(["app"]);
    var c := Cluster([plan, other], [a]);
    MatchedExactly(c, plan, a);
    ListsExactly(c, a, plan);
    assert other in c.plans && Targets(other, a);
  }

  /** A candidate is an admission of the target namespace with the plan's namespace as origin that
      accepts its group: its application, or its component group if it has no application, is in one
      of the two lists. */
  lemma AcceptsGroupExactly(a: Admission, plan: Plan)
    ensures plan.application != "" ==>
              (a.MatchesReleasePlan(plan) <==> plan.application in a.applications || plan.application in a.componentGroups)
    ensures plan.application == "" ==>
              (a.MatchesReleasePlan(plan) <==>
               plan.componentGroup in a.applications || plan.componentGroup in a.componentGroups)
    ensures Candidate(a, plan) <==>
            a.namespace == plan.target && a.origin == plan.namespace && a.MatchesReleasePlan(plan)
    ensures Targets(plan, a) <==> plan.namespace == a.origin && plan.target == a.namespace
  {
  }

  /** An admission could be meant by the plan's label. */
  predicate IsNamed(a: Admission, plan: Plan) {
    plan.designated.Some? && a.namespace == plan.target && a.name == plan.designated.value
  }

  /** Which error the search reports, over any cluster. */
  lemma ErrorsExactly(c: Cluster, plan: Plan)
    requires c.Valid()
    ensures var labelled := plan.designated.Some? && plan.designated.value != "";
            && (Matched(c, plan) == Err(NotFound) <==>
                  labelled && forall a | a in c.admissions :: !IsNamed(a, plan))
            && (Matched(c, plan) == Err(OriginMismatch) <==>
                  labelled && exists a | a in c.admissions :: IsNamed(a, plan) && a.origin != plan.namespace)
            && (Matched(c, plan) == Err(NoTarget) <==> !labelled && plan.target == "")
            && (Matched(c, plan) == Err(NoneFound) <==>
                  !labelled && plan.target != "" && forall a | a in c.admissions :: !Candidate(a, plan))
            && Matched(c, plan) != Err(NoOrigin)
  {
    if Designates(plan) {
      var found := Lookup(c.admissions, plan.target, plan.designated.value);
      assert found.Some? ==> IsNamed(found.value, plan);
    } else {
      FilterIn(c.admissions, CandidateFor(plan));
      var found := Filter(c.admissions, CandidateFor(plan));
      if found != [] {
        assert found[0] in found;
      }
    }
    hide Lookup, Filter;
  }

  /** Filtering keeps the order: an element that is kept comes after exactly the kept ones before it. */
  lemma FilterPlaces<T>(xs: seq<T>, p: T -> bool, i: nat)
    requires i < |xs| && p(xs[i])
    ensures |Filter(xs[..i], p)| < |Filter(xs, p)|
    ensures Filter(xs, p)[|Filter(xs[..i], p)|] == xs[i]
  {
    assert xs == xs[..i] + xs[i..];
    FilterConcat(xs[..i], xs[i..], p);
    FilterOneMore(xs, i, p);
  }

  /** And nothing else is in the result. */
  lemma {:induction false} FilterCounts<T>(xs: seq<T>, p: T -> bool, k: nat)
    requires k < |Filter(xs, p)|
    ensures exists i | 0 <= i < |xs| :: p(xs[i]) && |Filter(xs[..i], p)| == k
  {
    var last := |xs| - 1;
    assert xs[..last + 1] == xs;
    FilterOneMore(xs, last, p);
    var before := Filter(xs[..last], p);
    if k == |before| {
      assert p(xs[last]) && |Filter(xs[..last], p)| == k;
    } else {
      FilterCounts(xs[..last], p, k);
      var i :| 0 <= i < last && p(xs[..last][i]) && |Filter(xs[..last][..i], p)| == k;
      assert xs[..last][..i] == xs[..i] && xs[..last][i] == xs[i];
    }
  }

  /** The search for plans fails only without an origin, and the plans that it lists are in the order
      of the cluster. */
  lemma PlansInOrder(c: Cluster, a: Admission, i: nat, j: nat)
    requires i < j < |c.plans| && Lists(c, a, c.plans[i]) && Lists(c, a, c.plans[j])
    ensures exists k, l | 0 <= k < l < |MatchedPlans(c, a).value| ::
              MatchedPlans(c, a).value[k] == c.plans[i] && MatchedPlans(c, a).value[l] == c.plans[j]
  {
    var listed := if Labelled(c, a) != [] then Naming(a) else Targeting(a);
    ListsExactly(c, a, c.plans[i]);
    ListsExactly(c, a, c.plans[j]);
    NamedIfLabelled(c, a);
    assert listed(c.plans[i]) && listed(c.plans[j]);
    FilterPlaces(c.plans, listed, i);
    FilterPlaces(c.plans, listed, j);
    FilterGrows(c.plans, listed, i, j);
    var some := Filter(c.plans, listed);
    var k, l := |Filter(c.plans[..i], listed)|, |Filter(c.plans[..j], listed)|;
    assert AcceptedBy(a)(some[k]) && AcceptedBy(a)(some[l]);
    FilterPlaces(some, AcceptedBy(a), k);
    FilterPlaces(some, AcceptedBy(a), l);
    FilterGrows(some, AcceptedBy(a), k, l);
    hide Filter;
    var m, n := |Filter(some[..k], AcceptedBy(a))|, |Filter(some[..l], AcceptedBy(a))|;
    assert MatchedPlans(c, a).value[m] == c.plans[i] && MatchedPlans(c, a).value[n] == c.plans[j];
  }

  lemma NamedIfLabelled(c: Cluster, a: Admission)
    ensures Labelled(c, a) != [] <==> exists plan | plan in c.plans :: Targets(plan, a) && plan.designated == Some(a.name)
  {
    FilterIn(c.plans, Naming(a));
    if Labelled(c, a) != [] {
      assert Labelled(c, a)[0] in Labelled(c, a);
    }
  }

  lemma FilterGrows<T>(xs: seq<T>, p: T -> bool, i: nat, j: nat)
    requires i < j <= |xs| && p(xs[i])
    ensures |Filter(xs[..i], p)| < |Filter(xs[..j], p)|
  {
    assert xs[..j][..i] == xs[..i];
    FilterPlaces(xs[..j], p, i);
  }

  lemma OnlyOriginFails(c: Cluster, a: Admission)
    ensures MatchedPlans(c, a).Err? <==> a.origin == ""
    ensures a.origin == "" ==> MatchedPlans(c, a) == Err(NoOrigin)
  {
  }
}
