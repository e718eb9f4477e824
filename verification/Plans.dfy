/** The plan store: every operation on stored plans, and what all of them keep. */
module Plans {
  import opened Options
  import opened PlanJobs

  datatype Plan = Plan(characterId: int, name: string, jobs: seq<Job>)

  /** What was asked for, the build set sorted without repeats, no structure bonus. */
  ghost predicate IsNew(job: Job, jobId: int, typeId: int, quantity: int, buildSet: seq<int>, blueprint: Option<int>)
  {
    && job.jobId == jobId && job.targetTypeId == typeId && job.targetQuantity == quantity
    && job.blueprintItemId == blueprint
    && !job.hasEngineeringComplex && job.rigTier == None && job.securityBand == "high"
    && Increasing(job.buildSet) && forall y :: Has(job.buildSet, y) <==> Has(buildSet, y)
  }

  lemma NewJobIs(jobId: int, typeId: int, quantity: int, buildSet: seq<int>, blueprint: Option<int>)
    ensures IsNew(JobDoc(jobId, typeId, quantity, buildSet, blueprint), jobId, typeId, quantity, buildSet, blueprint)
  {
    hide SortedDistinct, Increasing, Has;
    SortedIs(buildSet, 0);
    forall y
      ensures Has(SortedDistinct(buildSet), y) <==> Has(buildSet, y)
    {
      SortedIs(buildSet, y);
    }
  }

  /** The job with the one choice made, everything else as it was. */
  ghost predicate Chosen(job: Job, job': Job, typeId: int, build: bool)
  {
    && job' == job.(buildSet := job'.buildSet) && Increasing(job'.buildSet)
    && forall y :: Has(job'.buildSet, y) <==> if y == typeId then build else Has(job.buildSet, y)
  }

  lemma ToggledIsChosen(job: Job, typeId: int, build: bool)
    ensures Chosen(job, Toggled(job, typeId, build), typeId, build)
  {
    hide SortedDistinct, Increasing, Has, Without;
    ToggledIs(job, typeId, build, 0);
    forall y
      ensures Has(Toggled(job, typeId, build).buildSet, y) <==> if y == typeId then build else Has(job.buildSet, y)
    {
      ToggledIs(job, typeId, build, y);
    }
  }

  predicate HasJob(jobs: seq<Job>, jobId: int) { FirstIndex(jobs, jobId) < |jobs| }

  /** Another structure for the job, and nothing else changed. */
  function Restructured(job: Job, complex: bool, rigTier: Option<string>, band: string): (r: Job)
    ensures r.hasEngineeringComplex == complex && r.rigTier == rigTier && r.securityBand == band
    ensures r.jobId == job.jobId && r.targetTypeId == job.targetTypeId && r.targetQuantity == job.targetQuantity
    ensures r.buildSet == job.buildSet && r.blueprintItemId == job.blueprintItemId
  {
    job.(hasEngineeringComplex := complex, rigTier := rigTier, securityBand := band)
  }

  function RemoveId(jobs: seq<Job>, jobId: int): seq<Job>
  {
    if jobs == [] then []
    else RemoveId(jobs[..|jobs| - 1], jobId) + if jobs[|jobs| - 1].jobId == jobId then [] else [jobs[|jobs| - 1]]
  }

  ghost predicate GoodJobs(jobs: seq<Job>) { SortedJobs(jobs) && DistinctIds(jobs) }

  lemma {:induction false} RemoveIdIs(jobs: seq<Job>, jobId: int, job: Job)
    ensures job in RemoveId(jobs, jobId) <==> job in jobs && job.jobId != jobId
    ensures GoodJobs(jobs) ==> GoodJobs(RemoveId(jobs, jobId))
  {
    if jobs != [] {
      var rest, last := jobs[..|jobs| - 1], jobs[|jobs| - 1];
      RemoveIdIs(rest, jobId, job);
      assert jobs == rest + [last];
      if GoodJobs(jobs) && last.jobId != jobId {
        var kept := RemoveId(rest, jobId);
        assert GoodJobs(rest) by {
          assert forall i :: 0 <= i < |rest| ==> rest[i] == jobs[i];
        }
        forall i | 0 <= i < |kept|
          ensures kept[i].jobId != last.jobId
        {
          RemoveIdIs(rest, jobId, kept[i]);
          assert kept[i] in kept;
          var j :| 0 <= j < |rest| && rest[j] == kept[i];
          assert jobs[j] == rest[j];
        }
      } else if GoodJobs(jobs) {
        assert forall i :: 0 <= i < |rest| ==> rest[i] == jobs[i];
      }
    }
  }

  lemma {:induction false} RemoveIdOfParts(a: seq<Job>, b: seq<Job>, jobId: int)
    ensures RemoveId(a + b, jobId) == RemoveId(a, jobId) + RemoveId(b, jobId)
    decreases |b|
  {
    if b == [] {
      assert a + b == a;
    } else {
      var n := |b| - 1;
      RemoveIdOfParts(a, b[..n], jobId);
      assert (a + b)[..|a + b| - 1] == a + b[..n];
    }
  }

  lemma RemovesMiddle(a: seq<Job>, job: Job, b: seq<Job>)
    requires forall k :: 0 <= k < |a| ==> a[k].jobId != job.jobId
    requires forall k :: 0 <= k < |b| ==> b[k].jobId != job.jobId
    ensures RemoveId(a + ([job] + b), job.jobId) == a + b
  {
    hide RemoveId;
    RemovesNone(a, job.jobId);
    RemovesNone(b, job.jobId);
    RemovesSingle(job);
    RemoveIdOfParts([job], b, job.jobId);
    RemoveIdOfParts(a, [job] + b, job.jobId);
    assert [] + b == b;
  }

  lemma Parts(jobs: seq<Job>, i: nat)
    requires i < |jobs|
    ensures jobs == jobs[..i] + ([jobs[i]] + jobs[i + 1..])
  {
  }

  /** With distinct ids exactly the job under the id goes, the others keep their order. */
  lemma RemovesOne(jobs: seq<Job>, jobId: int)
    requires DistinctIds(jobs) && HasJob(jobs, jobId)
    ensures var i := FirstIndex(jobs, jobId); RemoveId(jobs, jobId) == jobs[..i] + jobs[i + 1..]
  {
    hide RemoveId, DistinctIds, FirstIndex;
    var i := FirstIndex(jobs, jobId);
    OthersDiffer(jobs, i, jobs[..i], jobs[i + 1..]);
    Parts(jobs, i);
    RemovesMiddle(jobs[..i], jobs[i], jobs[i + 1..]);
  }

  lemma OthersDiffer(jobs: seq<Job>, i: nat, a: seq<Job>, b: seq<Job>)
    requires DistinctIds(jobs) && i < |jobs| && a == jobs[..i] && b == jobs[i + 1..]
    ensures forall k :: 0 <= k < |a| ==> a[k].jobId != jobs[i].jobId
    ensures forall k :: 0 <= k < |b| ==> b[k].jobId != jobs[i].jobId
  {
  }

  lemma RemovesSingle(job: Job)
    ensures RemoveId([job], job.jobId) == []
  {
    assert RemoveId([], job.jobId) == [];
  }

  lemma {:induction false} RemovesNone(jobs: seq<Job>, jobId: int)
    requires forall k :: 0 <= k < |jobs| ==> jobs[k].jobId != jobId
    ensures RemoveId(jobs, jobId) == jobs
  {
    if jobs != [] {
      RemovesNone(jobs[..|jobs| - 1], jobId);
    }
  }

  lemma AppendedGood(jobs: seq<Job>, job: Job)
    requires GoodJobs(jobs) && Increasing(job.buildSet)
    requires forall i :: 0 <= i < |jobs| ==> jobs[i].jobId != job.jobId
    ensures GoodJobs(jobs + [job])
  {
  }

  lemma ReplacedGood(jobs: seq<Job>, jobs': seq<Job>)
    requires GoodJobs(jobs) && |jobs'| == |jobs|
    requires forall i :: 0 <= i < |jobs| ==> jobs'[i].jobId == jobs[i].jobId && Increasing(jobs'[i].buildSet)
    ensures GoodJobs(jobs')
  {
  }

  lemma ToggledGood(jobs: seq<Job>, typeId: int, build: bool)
    requires GoodJobs(jobs)
    ensures GoodJobs(ToggleAll(jobs, typeId, build))
    ensures forall k :: 0 <= k < |jobs| ==> GoodJobs(jobs[k := Toggled(jobs[k], typeId, build)])
  {
    hide Increasing;
    forall k | 0 <= k < |jobs|
      ensures Increasing(Toggled(jobs[k], typeId, build).buildSet)
    {
      ToggledIs(jobs[k], typeId, build, 0);
    }
    ReplacedGood(jobs, ToggleAll(jobs, typeId, build));
    forall k | 0 <= k < |jobs|
      ensures GoodJobs(jobs[k := Toggled(jobs[k], typeId, build)])
    {
      ReplacedGood(jobs, jobs[k := Toggled(jobs[k], typeId, build)]);
    }
  }

  class PlanStore {
    var plans: map<int, Plan>

    constructor ()
      ensures plans == map[] && Valid()
    {
      plans := map[];
    }

    /** Kept by every operation: build sets strictly increase and a plan's job ids are distinct. */
    ghost predicate Valid()
      reads this
    {
      forall id :: id in plans ==> GoodJobs(plans[id].jobs)
    }

    predicate Owned(planId: int, characterId: int)
      reads this
    {
      planId in plans && plans[planId].characterId == characterId
    }

    method CreatePlan(planId: int, jobId: int, characterId: int, targetTypeId: int, targetQuantity: int,
        buildSet: seq<int>)
      requires Valid() && planId !in plans
      modifies this
      ensures Valid()
      ensures var job := JobDoc(jobId, targetTypeId, targetQuantity, buildSet, None);
              && plans == old(plans)[planId := Plan(characterId, "", [job])]
              && IsNew(job, jobId, targetTypeId, targetQuantity, buildSet, None)
    {
      hide IsNew;
      NewJobIs(jobId, targetTypeId, targetQuantity, buildSet, None);
      SortedIs(buildSet, 0);
      plans := plans[planId := Plan(characterId, "", [JobDoc(jobId, targetTypeId, targetQuantity, buildSet, None)])];
    }

    method CreateEmptyPlan(planId: int, characterId: int)
      requires Valid() && planId !in plans
      modifies this
      ensures Valid() && plans == old(plans)[planId := Plan(characterId, "", [])]
    {
      plans := plans[planId := Plan(characterId, "", [])];
    }

    /** The new job's id is one no job of the plan bears. */
    method AddJob(planId: int, characterId: int, jobId: int, targetTypeId: int, targetQuantity: int,
        buildSet: seq<int>, blueprintItemId: Option<int>) returns (id: Option<int>)
      requires Valid()
      requires planId in plans ==> forall i :: 0 <= i < |plans[planId].jobs| ==> plans[planId].jobs[i].jobId != jobId
      modifies this
      ensures Valid()
      ensures id == if (planId in old(plans) && old(plans)[planId].characterId == characterId) then Some(jobId)
              else None
      ensures id.None? ==> plans == old(plans)
      ensures id.Some? ==> var p := old(plans)[planId];
                var job := JobDoc(jobId, targetTypeId, targetQuantity, buildSet, blueprintItemId);
                && plans == old(plans)[planId := p.(jobs := p.jobs + [job])]
                && IsNew(job, jobId, targetTypeId, targetQuantity, buildSet, blueprintItemId)
    {
      if !Owned(planId, characterId) { return None; }
      var p, job := plans[planId], JobDoc(jobId, targetTypeId, targetQuantity, buildSet, blueprintItemId);
      hide IsNew;
      NewJobIs(jobId, targetTypeId, targetQuantity, buildSet, blueprintItemId);
      SortedIs(buildSet, 0);
      AppendedGood(p.jobs, job);
      plans := plans[planId := p.(jobs := p.jobs + [job])];
      return Some(jobId);
    }

    /** Changes the first job under the id by a change that leaves its id and keeps its build set sorted. */
    method SetJob(planId: int, i: nat, job: Job)
      requires Valid() && planId in plans && i < |plans[planId].jobs|
      requires job.jobId == plans[planId].jobs[i].jobId && Increasing(job.buildSet)
      modifies this
      ensures Valid()
      ensures plans == old(plans)[planId := old(plans)[planId].(jobs := old(plans)[planId].jobs[i := job])]
    {
      var p := plans[planId];
      ReplacedGood(p.jobs, p.jobs[i := job]);
      plans := plans[planId := p.(jobs := p.jobs[i := job])];
    }

    method UpdateJobQuantity(planId: int, characterId: int, jobId: int, targetQuantity: int) returns (found: bool)
      requires Valid()
      modifies this
      ensures Valid()
      ensures found <==>
              (planId in old(plans) && old(plans)[planId].characterId == characterId) &&
              HasJob(old(plans)[planId].jobs, jobId)
      ensures !found ==> plans == old(plans)
      ensures found ==> var p, i := old(plans)[planId], FirstIndex(old(plans)[planId].jobs, jobId);
                plans == old(plans)[planId := p.(jobs := p.jobs[i := p.jobs[i].(targetQuantity := targetQuantity)])]
    {
      if !Owned(planId, characterId) { return false; }
      var i := FirstIndex(plans[planId].jobs, jobId);
      if i == |plans[planId].jobs| { return false; }
      SetJob(planId, i, plans[planId].jobs[i].(targetQuantity := targetQuantity));
      return true;
    }

    method UpdateJobBuildFlag(planId: int, characterId: int, jobId: int, typeId: int, build: bool) returns (found: bool)
      requires Valid()
      modifies this
      ensures Valid()
      ensures found <==>
              (planId in old(plans) && old(plans)[planId].characterId == characterId) &&
              HasJob(old(plans)[planId].jobs, jobId)
      ensures !found ==> plans == old(plans)
      ensures found ==> var p := old(plans)[planId];
                plans == old(plans)[planId := p.(jobs := ToggleOne(p.jobs, jobId, typeId, build))]
      ensures found ==> var p, i := old(plans)[planId], FirstIndex(old(plans)[planId].jobs, jobId);
                && |plans[planId].jobs| == |p.jobs| && Chosen(p.jobs[i], plans[planId].jobs[i], typeId, build)
                && forall k :: 0 <= k < |p.jobs| && k != i ==> plans[planId].jobs[k] == p.jobs[k]
    {
      if !Owned(planId, characterId) { return false; }
      var jobs := plans[planId].jobs;
      var i := FirstIndex(jobs, jobId);
      if i == |jobs| { return false; }
      ToggledIs(jobs[i], typeId, build, 0);
      ToggledIsChosen(jobs[i], typeId, build);
      SetJob(planId, i, Toggled(jobs[i], typeId, build));
      return true;
    }

    method UpdateJobStructure(planId: int, characterId: int, jobId: int, complex: bool, rigTier: Option<string>,
        band: string) returns (found: bool)
      requires Valid()
      modifies this
      ensures Valid()
      ensures found <==>
              (planId in old(plans) && old(plans)[planId].characterId == characterId) &&
              HasJob(old(plans)[planId].jobs, jobId)
      ensures !found ==> plans == old(plans)
      ensures found ==> var p, i := old(plans)[planId], FirstIndex(old(plans)[planId].jobs, jobId);
                plans == old(plans)[planId := p.(jobs := p.jobs[i := Restructured(p.jobs[i], complex, rigTier, band)])]
    {
      if !Owned(planId, characterId) { return false; }
      var i := FirstIndex(plans[planId].jobs, jobId);
      if i == |plans[planId].jobs| { return false; }
      SetJob(planId, i, Restructured(plans[planId].jobs[i], complex, rigTier, band));
      return true;
    }

    method SetStructureForAllJobs(planId: int, characterId: int, complex: bool, rigTier: Option<string>, band: string)
        returns (found: bool)
      requires Valid()
      modifies this
      ensures Valid()
      ensures found <==> (planId in old(plans) && old(plans)[planId].characterId == characterId)
      ensures !found ==> plans == old(plans)
      ensures found ==> plans.Keys == old(plans).Keys
      ensures found ==> forall id :: id in plans && id != planId ==> plans[id] == old(plans)[id]
      ensures found ==> var p, p' := old(plans)[planId], plans[planId];
                && p' == p.(jobs := p'.jobs) && |p'.jobs| == |p.jobs|
                && forall k :: 0 <= k < |p.jobs| ==> p'.jobs[k] == Restructured(p.jobs[k], complex, rigTier, band)
    {
      if !Owned(planId, characterId) { return false; }
      var jobs := plans[planId].jobs;
      for k := 0 to |jobs|
        invariant |jobs| == |plans[planId].jobs|
        invariant forall i :: 0 <= i < k ==> jobs[i] == Restructured(plans[planId].jobs[i], complex, rigTier, band)
        invariant forall i :: k <= i < |jobs| ==> jobs[i] == plans[planId].jobs[i]
      {
        jobs := jobs[k := Restructured(jobs[k], complex, rigTier, band)];
      }
      ReplacedGood(plans[planId].jobs, jobs);
      plans := plans[planId := plans[planId].(jobs := jobs)];
      return true;
    }

    method SetBuildFlagForAllJobs(planId: int, characterId: int, typeId: int, build: bool) returns (found: bool)
      requires Valid()
      modifies this
      ensures Valid()
      ensures found <==> (planId in old(plans) && old(plans)[planId].characterId == characterId)
      ensures !found ==> plans == old(plans)
      ensures found ==>
              var p := old(plans)[planId]; plans == old(plans)[planId := p.(jobs := ToggleAll(p.jobs, typeId, build))]
      ensures found ==> var p := old(plans)[planId]; plans[planId].jobs == ToggleInTurn(p.jobs, |p.jobs|, typeId, build)
      ensures found ==> var p := old(plans)[planId];
                |plans[planId].jobs| == |p.jobs| &&
                forall k :: 0 <= k < |p.jobs| ==> Chosen(p.jobs[k], plans[planId].jobs[k], typeId, build)
    {
      hide Toggled;
      if !Owned(planId, characterId) { return false; }
      var p := plans[planId];
      var jobs := p.jobs;
      for k := 0 to |jobs|
        invariant |jobs| == |p.jobs|
        invariant forall i :: 0 <= i < k ==> jobs[i] == Toggled(p.jobs[i], typeId, build)
        invariant forall i :: k <= i < |jobs| ==> jobs[i] == p.jobs[i]
      {
        jobs := jobs[k := Toggled(jobs[k], typeId, build)];
      }
      assert jobs == ToggleAll(p.jobs, typeId, build);
      ToggledGood(p.jobs, typeId, build);
      forall k | 0 <= k < |p.jobs|
        ensures Chosen(p.jobs[k], jobs[k], typeId, build)
      {
        ToggledIsChosen(p.jobs[k], typeId, build);
      }
      InTurnOnDistinct(p.jobs, typeId, build);
      plans := plans[planId := p.(jobs := jobs)];
      return true;
    }

    /** None: no such plan of this character. False: no such job, or it is the last one. */
    method RemoveJob(planId: int, characterId: int, jobId: int) returns (removed: Option<bool>)
      requires Valid()
      modifies this
      ensures Valid()
      ensures removed.None? <==> !(planId in old(plans) && old(plans)[planId].characterId == characterId)
      ensures removed.Some? ==>
                (removed.value <==> |old(plans)[planId].jobs| > 1 && HasJob(old(plans)[planId].jobs, jobId))
      ensures removed != Some(true) ==> plans == old(plans)
      ensures removed == Some(true) ==>
              var p := old(plans)[planId]; plans == old(plans)[planId := p.(jobs := RemoveId(p.jobs, jobId))]
      ensures removed == Some(true) ==> var p, i := old(plans)[planId], FirstIndex(old(plans)[planId].jobs, jobId);
                plans[planId].jobs == p.jobs[..i] + p.jobs[i + 1..] != []
    {
      if !Owned(planId, characterId) { return None; }
      var p := plans[planId];
      if |p.jobs| <= 1 || FirstIndex(p.jobs, jobId) == |p.jobs| { return Some(false); }
      var other := if FirstIndex(p.jobs, jobId) == 0 then p.jobs[1] else p.jobs[0];
      assert other in p.jobs && other.jobId != jobId;
      RemoveIdIs(p.jobs, jobId, other);
      RemovesOne(p.jobs, jobId);
      plans := plans[planId := p.(jobs := RemoveId(p.jobs, jobId))];
      return Some(true);
    }

    method RenamePlan(planId: int, characterId: int, name: string) returns (found: bool)
      requires Valid()
      modifies this
      ensures Valid()
      ensures found <==> (planId in old(plans) && old(plans)[planId].characterId == characterId)
      ensures plans == if found then old(plans)[planId := old(plans)[planId].(name := name)] else old(plans)
    {
      if !Owned(planId, characterId) { return false; }
      plans := plans[planId := plans[planId].(name := name)];
      return true;
    }

    method DeletePlan(planId: int, characterId: int) returns (deleted: bool)
      requires Valid()
      modifies this
      ensures Valid()
      ensures deleted <==> (planId in old(plans) && old(plans)[planId].characterId == characterId)
      ensures plans == if deleted then old(plans) - {planId} else old(plans)
    {
      if !Owned(planId, characterId) { return false; }
      plans := plans - {planId};
      return true;
    }

    method ExportPlan(planId: int, characterId: int) returns (data: Option<Json>)
      ensures data == if planId in plans && plans[planId].characterId == characterId
              then Some(Export(plans[planId].name, plans[planId].jobs)) else None
    {
      if !Owned(planId, characterId) { return None; }
      return Some(Export(plans[planId].name, plans[planId].jobs));
    }

    /** Nothing is stored unless the whole data is well formed. The job ids are new and distinct. */
    method ImportPlan(planId: int, characterId: int, data: Json, jobIds: seq<int>, parse: string -> Option<int>,
        show: Json -> string) returns (r: Result<int>)
      requires Valid() && planId !in plans
      requires |jobIds| == JobCount(data) && forall i, j :: 0 <= i < j < |jobIds| ==> jobIds[i] != jobIds[j]
      modifies this
      ensures Valid()
      ensures !r.Ok? ==> plans == old(plans)
      ensures match Import(data, jobIds, parse, show)
              case Ok(p) => r == Ok(planId) && plans == old(plans)[planId := Plan(characterId, p.name, p.jobs)]
              case ValueError => r == ValueError
              case TypeError => r == TypeError
              case OverflowError => r == OverflowError
      ensures r.Ok? ==> PlanReadFrom(plans[planId].name, plans[planId].jobs, data, parse, show)
    {
      hide ImportJobs, PlanReadFrom;
      match Import(data, jobIds, parse, show)
      case Ok(p) =>
        ImportReads(data, jobIds, parse, show);
        ImportedSorted(Lookup(data.fields, "jobs").value.items, jobIds, parse, show);
        plans := plans[planId := Plan(characterId, p.name, p.jobs)];
        return Ok(planId);
      case ValueError => return ValueError;
      case TypeError => return TypeError;
      case OverflowError => return OverflowError;
    }

    /** Exporting a plan and importing the data gives a plan with the same jobs under new ids, and the same name
        when it is no longer than the limit; a plan without jobs cannot be imported. */
    method CopyPlan(planId: int, characterId: int, newPlanId: int, newCharacterId: int, jobIds: seq<int>,
        parse: string -> Option<int>, show: Json -> string) returns (r: Result<int>)
      requires Valid() && Owned(planId, characterId) && newPlanId !in plans
      requires |jobIds| == |plans[planId].jobs| && forall i, j :: 0 <= i < j < |jobIds| ==> jobIds[i] != jobIds[j]
      modifies this
      ensures Valid()
      ensures r == if old(plans)[planId].jobs == [] then ValueError else Ok(newPlanId)
      ensures r.Ok? ==> var p := old(plans)[planId];
                plans == old(plans)[newPlanId := Plan(newCharacterId, Clipped(p.name), Renumbered(p.jobs, jobIds))]
    {
      hide Export, Import;
      RoundTrip(plans[planId].name, plans[planId].jobs, jobIds, parse, show);
      var data := ExportPlan(planId, characterId);
      r := ImportPlan(newPlanId, newCharacterId, data.value, jobIds, parse, show);
    }
  }

  lemma InTurnOnDistinct(jobs: seq<Job>, typeId: int, build: bool)
    requires DistinctIds(jobs)
    ensures ToggleInTurn(jobs, |jobs|, typeId, build) == ToggleAll(jobs, typeId, build)
  {
    hide Toggled, IsFirst;
    forall k: nat | k < |jobs|
      ensures IsFirst(jobs, k)
    {
      DistinctAreFirst(jobs, k);
    }
    BulkIsInTurn(jobs, typeId, build);
  }
}
