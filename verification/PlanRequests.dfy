/** Any run of requests against the plan store: what all of them keep, and whose plans they can touch. */
module PlanRequests {
  import opened Options
  import opened Sums
  import opened PlanJobs
  import opened Plans

  datatype Action =
    | Create(targetTypeId: int, targetQuantity: int, buildSet: seq<int>)
    | CreateEmpty
    | AddTo(planId: int, targetTypeId: int, targetQuantity: int, buildSet: seq<int>, blueprintItemId: Option<int>)
    | SetQuantity(planId: int, jobId: int, targetQuantity: int)
    | SetBuildFlag(planId: int, jobId: int, typeId: int, build: bool)
    | SetBuildFlags(planId: int, typeId: int, build: bool)
    | SetStructure(planId: int, jobId: int, complex: bool, rigTier: Option<string>, band: string)
    | SetStructures(planId: int, complex: bool, rigTier: Option<string>, band: string)
    | Remove(planId: int, jobId: int)
    | Rename(planId: int, name: string)
    | Delete(planId: int)
    | ImportData(data: Json)

  /** An action asked for by the signed-in character. */
  datatype Request = Request(characterId: int, action: Action)

  function PlansOf(plans: map<int, Plan>, characterId: int): map<int, Plan>
  {
    map id | id in plans && plans[id].characterId == characterId :: plans[id]
  }

  ghost predicate OnlyOwnChanged(plans: map<int, Plan>, plans': map<int, Plan>, characterId: int)
  {
    forall c :: c != characterId ==> PlansOf(plans', c) == PlansOf(plans, c)
  }

  lemma OnePlanChanged(plans: map<int, Plan>, plans': map<int, Plan>, planId: int, characterId: int)
    requires planId in plans ==> plans[planId].characterId == characterId
    requires planId in plans' ==> plans'[planId].characterId == characterId
    requires forall id :: id != planId ==> (id in plans' <==> id in plans) && (id in plans ==> plans'[id] == plans[id])
    ensures OnlyOwnChanged(plans, plans', characterId)
  {
    forall c | c != characterId
      ensures PlansOf(plans', c) == PlansOf(plans, c)
    {
      forall id
        ensures id in PlansOf(plans', c) <==> id in PlansOf(plans, c)
        ensures id in PlansOf(plans, c) ==> PlansOf(plans', c)[id] == PlansOf(plans, c)[id]
      {
      }
    }
  }

  lemma NothingChanged(plans: map<int, Plan>, characterId: int)
    ensures OnlyOwnChanged(plans, plans, characterId)
  {
  }

  ghost predicate NoneEmpty(plans: map<int, Plan>)
  {
    forall id :: id in plans ==> plans[id].jobs != []
  }

  /** Changing one plan leaves every plan with a job exactly when that plan is gone or has one. */
  lemma OneStaysFull(plans: map<int, Plan>, plans': map<int, Plan>, planId: int)
    requires NoneEmpty(plans)
    requires forall id :: id != planId ==> (id in plans' <==> id in plans) && (id in plans ==> plans'[id] == plans[id])
    ensures NoneEmpty(plans') <==> (planId in plans' ==> plans'[planId].jobs != [])
  {
  }

  lemma OneChanged(plans: map<int, Plan>, plans': map<int, Plan>, planId: int, characterId: int)
    requires planId in plans ==> plans[planId].characterId == characterId
    requires planId in plans' ==> plans'[planId].characterId == characterId
    requires forall id :: id != planId ==> (id in plans' <==> id in plans) && (id in plans ==> plans'[id] == plans[id])
    ensures OnlyOwnChanged(plans, plans', characterId)
    ensures NoneEmpty(plans) ==> (NoneEmpty(plans') <==> (planId in plans' ==> plans'[planId].jobs != []))
    ensures NoneEmpty(plans) && planId in plans ==> plans[planId].jobs != []
  {
    OnePlanChanged(plans, plans', planId, characterId);
    if NoneEmpty(plans) {
      OneStaysFull(plans, plans', planId);
    }
  }

  lemma ToggleOneKeepsLength(jobs: seq<Job>, jobId: int, typeId: int, build: bool)
    ensures |ToggleOne(jobs, jobId, typeId, build)| == |jobs|
  {
  }

  lemma ToggleAllKeepsLength(jobs: seq<Job>, typeId: int, build: bool)
    ensures |ToggleAll(jobs, typeId, build)| == |jobs|
  {
  }

  lemma ImportHasJobs(data: Json, jobIds: seq<int>, parse: string -> Option<int>, show: Json -> string)
    requires |jobIds| == JobCount(data)
    ensures Import(data, jobIds, parse, show).Ok? ==> Import(data, jobIds, parse, show).value.jobs != []
  {
    if Import(data, jobIds, parse, show).Ok? {
      ImportedSorted(Lookup(data.fields, "jobs").value.items, jobIds, parse, show);
    }
  }

  // ----- New ids -----

  method NewPlanId(plans: map<int, Plan>) returns (id: int)
    ensures id !in plans
  {
    id := 0;
    var todo := plans.Keys;
    while todo != {}
      invariant todo <= plans.Keys
      invariant forall k :: k in plans && k !in todo ==> k < id
      decreases todo
    {
      var k := PickOne(todo);
      id := if k < id then id else k + 1;
      todo := todo - {k};
    }
  }

  method NewJobId(jobs: seq<Job>) returns (id: int)
    ensures forall i :: 0 <= i < |jobs| ==> jobs[i].jobId != id
  {
    id := 0;
    for k := 0 to |jobs|
      invariant forall i :: 0 <= i < k ==> jobs[i].jobId < id
    {
      id := if jobs[k].jobId < id then id else jobs[k].jobId + 1;
    }
  }

  method NewJobIds(n: nat) returns (ids: seq<int>)
    ensures |ids| == n && forall i, j :: 0 <= i < j < n ==> ids[i] != ids[j]
  {
    ids := seq(n, i => i);
  }

  // ----- Requests -----

  /** One request keeps the store valid and leaves the plans of every other character exactly as they are. Where
      every plan had a job, every plan still has one unless the request creates an empty plan. */
  method Perform(store: PlanStore, request: Request, parse: string -> Option<int>, show: Json -> string)
    requires store.Valid()
    modifies store
    ensures store.Valid()
    ensures OnlyOwnChanged(old(store.plans), store.plans, request.characterId)
    ensures NoneEmpty(old(store.plans)) ==> (NoneEmpty(store.plans) <==> !request.action.CreateEmpty?)
  {
    hide OnlyOwnChanged, NoneEmpty, JobDoc, ToggleAll, ToggleOne, ToggleInTurn, RemoveId, Import, FirstIndex;
    var c := request.characterId;
    NothingChanged(store.plans, c);
    match request.action
    case Create(typeId, quantity, buildSet) =>
      var id := NewPlanId(store.plans);
      var jobId := NewJobId([]);
      store.CreatePlan(id, jobId, c, typeId, quantity, buildSet);
      OneChanged(old(store.plans), store.plans, id, c);
    case CreateEmpty =>
      var id := NewPlanId(store.plans);
      store.CreateEmptyPlan(id, c);
      OneChanged(old(store.plans), store.plans, id, c);
    case AddTo(planId, typeId, quantity, buildSet, blueprint) =>
      var jobId := NewJobId(if planId in store.plans then store.plans[planId].jobs else []);
      var added := store.AddJob(planId, c, jobId, typeId, quantity, buildSet, blueprint);
      if added.Some? { OneChanged(old(store.plans), store.plans, planId, c); }
    case SetQuantity(planId, jobId, quantity) =>
      var found := store.UpdateJobQuantity(planId, c, jobId, quantity);
      if found { OneChanged(old(store.plans), store.plans, planId, c); }
    case SetBuildFlag(planId, jobId, typeId, build) =>
      var found := store.UpdateJobBuildFlag(planId, c, jobId, typeId, build);
      if found {
        ToggleOneKeepsLength(old(store.plans)[planId].jobs, jobId, typeId, build);
        OneChanged(old(store.plans), store.plans, planId, c);
      }
    case SetBuildFlags(planId, typeId, build) =>
      var found := store.SetBuildFlagForAllJobs(planId, c, typeId, build);
      if found {
        ToggleAllKeepsLength(old(store.plans)[planId].jobs, typeId, build);
        OneChanged(old(store.plans), store.plans, planId, c);
      }
    case SetStructure(planId, jobId, complex, rigTier, band) =>
      var found := store.UpdateJobStructure(planId, c, jobId, complex, rigTier, band);
      if found { OneChanged(old(store.plans), store.plans, planId, c); }
    case SetStructures(planId, complex, rigTier, band) =>
      var found := store.SetStructureForAllJobs(planId, c, complex, rigTier, band);
      if found { OneChanged(old(store.plans), store.plans, planId, c); }
    case Remove(planId, jobId) =>
      var removed := store.RemoveJob(planId, c, jobId);
      if removed == Some(true) { OneChanged(old(store.plans), store.plans, planId, c); }
    case Rename(planId, name) =>
      var found := store.RenamePlan(planId, c, name);
      if found { OneChanged(old(store.plans), store.plans, planId, c); }
    case Delete(planId) =>
      var deleted := store.DeletePlan(planId, c);
      if deleted { OneChanged(old(store.plans), store.plans, planId, c); }
    case ImportData(data) =>
      var id := NewPlanId(store.plans);
      var jobIds := NewJobIds(JobCount(data));
      var imported := store.ImportPlan(id, c, data, jobIds, parse, show);
      ImportHasJobs(data, jobIds, parse, show);
      if imported.Ok? { OneChanged(old(store.plans), store.plans, id, c); }
  }

  ghost predicate CreatesEmpty(requests: seq<Request>)
  {
    exists i :: 0 <= i < |requests| && requests[i].action.CreateEmpty?
  }

  /** Over any run of requests every build set stays strictly increasing and every plan's job ids distinct, and the
      plans of a character who asked for nothing are exactly what they were. Where every plan had a job, every plan
      has one at every point of the run if and only if no request creates an empty plan. */
  method Serve(store: PlanStore, requests: seq<Request>, parse: string -> Option<int>, show: Json -> string)
    returns (ghost trace: seq<map<int, Plan>>)
    requires store.Valid()
    modifies store
    ensures store.Valid()
    ensures forall c :: (forall i :: 0 <= i < |requests| ==> requests[i].characterId != c) ==>
              PlansOf(store.plans, c) == PlansOf(old(store.plans), c)
    ensures |trace| == |requests| + 1 && trace[0] == old(store.plans) && trace[|requests|] == store.plans
    ensures NoneEmpty(old(store.plans)) ==>
              ((forall k :: 0 <= k < |trace| ==> NoneEmpty(trace[k])) <==> !CreatesEmpty(requests))
  {
    hide PlansOf, NoneEmpty;
    trace := [store.plans];
    for k := 0 to |requests|
      invariant store.Valid()
      invariant forall c :: (forall i :: 0 <= i < k ==> requests[i].characterId != c) ==>
                  PlansOf(store.plans, c) == PlansOf(old(store.plans), c)
      invariant |trace| == k + 1 && trace[0] == old(store.plans) && trace[k] == store.plans
      invariant forall i :: 0 <= i < k && NoneEmpty(trace[i]) ==>
                  (NoneEmpty(trace[i + 1]) <==> !requests[i].action.CreateEmpty?)
    {
      Perform(store, requests[k], parse, show);
      trace := trace + [store.plans];
    }
    if NoneEmpty(old(store.plans)) {
      AllFull(trace, requests);
    }
  }

  lemma AllFull(trace: seq<map<int, Plan>>, requests: seq<Request>)
    requires |trace| == |requests| + 1 && NoneEmpty(trace[0])
    requires forall i :: 0 <= i < |requests| && NoneEmpty(trace[i]) ==>
               (NoneEmpty(trace[i + 1]) <==> !requests[i].action.CreateEmpty?)
    ensures (forall k :: 0 <= k < |trace| ==> NoneEmpty(trace[k])) <==> !CreatesEmpty(requests)
  {
    hide NoneEmpty;
    if !CreatesEmpty(requests) {
      for k := 0 to |requests|
        invariant forall i :: 0 <= i <= k ==> NoneEmpty(trace[i])
      {
        assert NoneEmpty(trace[k]) && !requests[k].action.CreateEmpty?;
      }
    }
    if i :| 0 <= i < |requests| && requests[i].action.CreateEmpty? {
      assert NoneEmpty(trace[i]) ==> !NoneEmpty(trace[i + 1]);
    }
  }
}
