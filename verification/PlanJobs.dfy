/** A plan's jobs: sorted build sets, the Build/Buy toggles, and the portable form of a plan. */
module PlanJobs {
  import opened Options

  // ----- sorted(set(...)) -----

  ghost predicate Increasing(s: seq<int>)
  {
    forall i, j :: 0 <= i < j < |s| ==> s[i] < s[j]
  }

  function Inserted(x: int, s: seq<int>): seq<int>
  {
    if s == [] || x < s[0] then [x] + s
    else if x == s[0] then s
    else [s[0]] + Inserted(x, s[1..])
  }

  function SortedDistinct(s: seq<int>): seq<int>
  {
    if s == [] then [] else Inserted(s[|s| - 1], SortedDistinct(s[..|s| - 1]))
  }

  function Without(s: seq<int>, x: int): seq<int>
  {
    if s == [] then []
    else Without(s[..|s| - 1], x) + if s[|s| - 1] == x then [] else [s[|s| - 1]]
  }

  ghost predicate Has(s: seq<int>, x: int) { exists i :: 0 <= i < |s| && s[i] == x }

  lemma HasOfParts(a: seq<int>, b: seq<int>, x: int)
    ensures Has(a + b, x) <==> Has(a, x) || Has(b, x)
  {
    if i :| 0 <= i < |a| && a[i] == x {
      assert (a + b)[i] == x;
    }
    if i :| 0 <= i < |b| && b[i] == x {
      assert (a + b)[|a| + i] == x;
    }
  }

  lemma HasOne(y: int, x: int)
    ensures Has([y], x) <==> x == y
  {
    assert [y][0] == y;
  }

  lemma {:induction false} InsertedIs(x: int, s: seq<int>, y: int)
    requires Increasing(s)
    ensures Increasing(Inserted(x, s))
    ensures Has(Inserted(x, s), y) <==> y == x || Has(s, y)
    ensures s != [] && x > s[0] ==> Inserted(x, s)[0] == s[0]
  {
    HasOne(x, y);
    HasOfParts([x], s, y);
    if s != [] {
      HasOne(s[0], y);
      assert s == [s[0]] + s[1..];
      HasOfParts([s[0]], s[1..], y);
      HasOfParts([s[0]], Inserted(x, s[1..]), y);
      if x > s[0] {
        InsertedIs(x, s[1..], y);
        InsertedAbove(x, s[1..], s[0]);
      }
    }
  }

  lemma {:induction false} InsertedAbove(x: int, s: seq<int>, low: int)
    requires low < x && forall i :: 0 <= i < |s| ==> low < s[i]
    ensures forall i :: 0 <= i < |Inserted(x, s)| ==> low < Inserted(x, s)[i]
  {
    if s != [] && x > s[0] {
      InsertedAbove(x, s[1..], low);
    }
  }

  /** Strictly increasing, with the same members. */
  lemma {:induction false} SortedIs(s: seq<int>, y: int)
    ensures Increasing(SortedDistinct(s))
    ensures Has(SortedDistinct(s), y) <==> Has(s, y)
  {
    if s != [] {
      var rest, last := s[..|s| - 1], s[|s| - 1];
      SortedIs(rest, y);
      InsertedIs(last, SortedDistinct(rest), y);
      assert s == rest + [last];
      HasOfParts(rest, [last], y);
      HasOne(last, y);
    }
  }

  lemma {:induction false} WithoutIs(s: seq<int>, x: int, y: int)
    ensures Has(Without(s, x), y) <==> Has(s, y) && y != x
  {
    if s != [] {
      var rest, last := s[..|s| - 1], s[|s| - 1];
      WithoutIs(rest, x, y);
      assert s == rest + [last];
      HasOfParts(rest, [last], y);
      HasOfParts(Without(rest, x), if last == x then [] else [last], y);
      HasOne(last, y);
    }
  }

  /** Members determine an increasing sequence. */
  lemma {:induction false} IncreasingUnique(a: seq<int>, b: seq<int>)
    requires Increasing(a) && Increasing(b)
    requires forall y :: Has(a, y) <==> Has(b, y)
    ensures a == b
    decreases |a|
  {
    if a == [] {
      if b != [] {
        assert Has(b, b[0]);
        assert false;
      }
    } else {
      assert Has(a, a[0]);
      var i :| 0 <= i < |b| && b[i] == a[0];
      assert Has(b, b[0]);
      var j :| 0 <= j < |a| && a[j] == b[0];
      assert a[0] == b[0];
      forall y
        ensures Has(a[1..], y) <==> Has(b[1..], y)
      {
        TailHas(a, y);
        TailHas(b, y);
      }
      IncreasingUnique(a[1..], b[1..]);
      assert a == [a[0]] + a[1..] && b == [b[0]] + b[1..];
    }
  }

  lemma TailHas(s: seq<int>, y: int)
    requires s != [] && Increasing(s)
    ensures Has(s[1..], y) <==> Has(s, y) && y != s[0]
  {
    assert s == [s[0]] + s[1..];
    HasOfParts([s[0]], s[1..], y);
    HasOne(s[0], y);
  }

  lemma SortedOfIncreasing(s: seq<int>)
    requires Increasing(s)
    ensures SortedDistinct(s) == s
  {
    forall y
      ensures Has(SortedDistinct(s), y) <==> Has(s, y)
      ensures Increasing(SortedDistinct(s))
    {
      SortedIs(s, y);
    }
    assert Increasing(SortedDistinct(s)) by {
      SortedIs(s, 0);
    }
    IncreasingUnique(SortedDistinct(s), s);
  }

  // ----- Jobs -----

  datatype Job = Job(
    jobId: int,
    targetTypeId: int,
    targetQuantity: int,
    buildSet: seq<int>,
    blueprintItemId: Option<int>,
    hasEngineeringComplex: bool,
    rigTier: Option<string>,
    securityBand: string)

  function JobDoc(jobId: int, targetTypeId: int, targetQuantity: int, buildSet: seq<int>,
      blueprintItemId: Option<int>): Job
  {
    Job(jobId, targetTypeId, targetQuantity, SortedDistinct(buildSet), blueprintItemId, false, None, "high")
  }

  ghost predicate SortedJobs(jobs: seq<Job>)
  {
    forall i :: 0 <= i < |jobs| ==> Increasing(jobs[i].buildSet)
  }

  function Toggled(job: Job, typeId: int, build: bool): Job
  {
    job.(buildSet := SortedDistinct(if build then job.buildSet + [typeId] else Without(job.buildSet, typeId)))
  }

  lemma ToggledIs(job: Job, typeId: int, build: bool, y: int)
    ensures Increasing(Toggled(job, typeId, build).buildSet)
    ensures Has(Toggled(job, typeId, build).buildSet, y) <==> if y == typeId then build else Has(job.buildSet, y)
  {
    SortedIs(if build then job.buildSet + [typeId] else Without(job.buildSet, typeId), y);
    HasOfParts(job.buildSet, [typeId], y);
    HasOne(typeId, y);
    WithoutIs(job.buildSet, typeId, y);
  }

  lemma ToggledTwice(job: Job, typeId: int, build: bool)
    ensures Toggled(Toggled(job, typeId, build), typeId, build) == Toggled(job, typeId, build)
  {
    var once := Toggled(job, typeId, build);
    var twice := Toggled(once, typeId, build);
    forall y
      ensures Has(twice.buildSet, y) <==> Has(once.buildSet, y)
    {
      ToggledIs(job, typeId, build, y);
      ToggledIs(once, typeId, build, y);
    }
    ToggledIs(job, typeId, build, 0);
    ToggledIs(once, typeId, build, 0);
    IncreasingUnique(twice.buildSet, once.buildSet);
  }

  /** The first job under the id, or past the end. */
  function FirstIndex(jobs: seq<Job>, jobId: int): (i: nat)
    ensures i <= |jobs|
    ensures i < |jobs| ==> jobs[i].jobId == jobId
    ensures forall k :: 0 <= k < i ==> jobs[k].jobId != jobId
  {
    if jobs == [] || jobs[0].jobId == jobId then 0 else 1 + FirstIndex(jobs[1..], jobId)
  }

  function ToggleOne(jobs: seq<Job>, jobId: int, typeId: int, build: bool): seq<Job>
  {
    var i := FirstIndex(jobs, jobId);
    if i < |jobs| then jobs[i := Toggled(jobs[i], typeId, build)] else jobs
  }

  function ToggleAll(jobs: seq<Job>, typeId: int, build: bool): seq<Job>
  {
    seq(|jobs|, i requires 0 <= i < |jobs| => Toggled(jobs[i], typeId, build))
  }

  /** The single toggle for the ids of the first n jobs, one after the other. */
  function ToggleInTurn(jobs: seq<Job>, n: nat, typeId: int, build: bool): seq<Job>
    requires n <= |jobs|
  {
    if n == 0 then jobs else ToggleOne(ToggleInTurn(jobs, n - 1, typeId, build), jobs[n - 1].jobId, typeId, build)
  }

  ghost predicate IsFirst(jobs: seq<Job>, k: nat)
    requires k < |jobs|
  {
    FirstIndex(jobs, jobs[k].jobId) == k
  }

  /** Toggled where the id appears first among the first n jobs. */
  ghost function TurnedSoFar(jobs: seq<Job>, n: nat, typeId: int, build: bool): (r: seq<Job>)
    ensures |r| == |jobs| && forall k :: 0 <= k < |jobs| ==> r[k].jobId == jobs[k].jobId
  {
    seq(|jobs|, k requires 0 <= k < |jobs| => if k < n && IsFirst(jobs, k) then Toggled(jobs[k], typeId, build)
        else jobs[k])
  }

  lemma NextTurn(jobs: seq<Job>, n: nat, typeId: int, build: bool)
    requires n < |jobs|
    ensures ToggleOne(TurnedSoFar(jobs, n, typeId, build), jobs[n].jobId, typeId, build)
            == TurnedSoFar(jobs, n + 1, typeId, build)
  {
    hide Toggled;
    var before := TurnedSoFar(jobs, n, typeId, build);
    var i := FirstIndex(jobs, jobs[n].jobId);
    SameIdsSameFirst(before, jobs, jobs[n].jobId);
    ToggledTwice(jobs[i], typeId, build);
    var after, now := before[i := Toggled(before[i], typeId, build)], TurnedSoFar(jobs, n + 1, typeId, build);
    forall k | 0 <= k < |jobs|
      ensures after[k] == now[k]
    {
    }
  }

  lemma NoTurnYet(jobs: seq<Job>, typeId: int, build: bool)
    ensures TurnedSoFar(jobs, 0, typeId, build) == jobs
  {
  }

  lemma {:induction false} InTurnIs(jobs: seq<Job>, n: nat, typeId: int, build: bool)
    requires n <= |jobs|
    ensures ToggleInTurn(jobs, n, typeId, build) == TurnedSoFar(jobs, n, typeId, build)
  {
    hide ToggleOne, TurnedSoFar, Toggled;
    if n == 0 {
      NoTurnYet(jobs, typeId, build);
    } else {
      InTurnIs(jobs, n - 1, typeId, build);
      NextTurn(jobs, n - 1, typeId, build);
    }
  }

  lemma SameIdsSameFirst(a: seq<Job>, b: seq<Job>, jobId: int)
    requires |a| == |b| && forall k :: 0 <= k < |a| ==> a[k].jobId == b[k].jobId
    ensures FirstIndex(a, jobId) == FirstIndex(b, jobId)
  {
    var i, j := FirstIndex(a, jobId), FirstIndex(b, jobId);
  }

  /** The toggle for all jobs equals the single toggle for each job in turn exactly when the jobs whose id an
      earlier job already bears are ones it would not change; in particular when job ids are distinct. */
  lemma BulkIsInTurn(jobs: seq<Job>, typeId: int, build: bool)
    ensures ToggleInTurn(jobs, |jobs|, typeId, build) == ToggleAll(jobs, typeId, build)
       <==> forall k :: 0 <= k < |jobs| && !IsFirst(jobs, k) ==> Toggled(jobs[k], typeId, build) == jobs[k]
  {
    InTurnIs(jobs, |jobs|, typeId, build);
    var r, all := ToggleInTurn(jobs, |jobs|, typeId, build), ToggleAll(jobs, typeId, build);
    if r == all {
      forall k | 0 <= k < |jobs| && !IsFirst(jobs, k)
        ensures Toggled(jobs[k], typeId, build) == jobs[k]
      {
        assert r[k] == all[k];
      }
    }
  }

  ghost predicate DistinctIds(jobs: seq<Job>)
  {
    forall i, j :: 0 <= i < j < |jobs| ==> jobs[i].jobId != jobs[j].jobId
  }

  lemma DistinctAreFirst(jobs: seq<Job>, k: nat)
    requires DistinctIds(jobs) && k < |jobs|
    ensures IsFirst(jobs, k)
  {
    var i := FirstIndex(jobs, jobs[k].jobId);
  }

  // ----- The portable form -----

  datatype Field = Field(key: string, value: Json)

  /** A JSON number with a fraction, an exponent or no finite value; the decoder accepts Infinity, NaN and 1e999. */
  datatype Float = Finite(x: real) | Infinite(negative: bool) | NotANumber

  /** Decoded JSON; fields keep their order and have distinct keys. */
  datatype Json =
    | JNull
    | JBool(b: bool)
    | JInt(n: int)
    | JFloat(f: Float)
    | JString(s: string)
    | JList(items: seq<Json>)
    | JObject(fields: seq<Field>)

  /** ValueError is reported as a bad request; a TypeError or an OverflowError escapes. */
  datatype Result<+T> = Ok(value: T) | ValueError | TypeError | OverflowError

  function Lookup(fields: seq<Field>, key: string): Option<Json>
  {
    if fields == [] then None
    else if fields[0].key == key then Some(fields[0].value)
    else Lookup(fields[1..], key)
  }

  datatype Portable = Portable(name: string, jobs: seq<Job>)

  function OrNull<T>(o: Option<T>, wrap: T -> Json): Json { if o.Some? then wrap(o.value) else JNull }

  function IntItems(xs: seq<int>): (items: seq<Json>)
    ensures |items| == |xs| && forall i :: 0 <= i < |xs| ==> items[i] == JInt(xs[i])
  {
    seq(|xs|, i requires 0 <= i < |xs| => JInt(xs[i]))
  }

  function ExportJob(job: Job): Json
  {
    JObject([
      Field("target_type_id", JInt(job.targetTypeId)),
      Field("target_quantity", JInt(job.targetQuantity)),
      Field("build_set", JList(IntItems(job.buildSet))),
      Field("blueprint_item_id", OrNull(job.blueprintItemId, n => JInt(n))),
      Field("has_engineering_complex", JBool(job.hasEngineeringComplex)),
      Field("rig_tier", OrNull(job.rigTier, s => JString(s))),
      Field("security_band", JString(job.securityBand))])
  }

  function ExportJobs(jobs: seq<Job>): (items: seq<Json>)
    ensures |items| == |jobs| && forall i :: 0 <= i < |jobs| ==> items[i] == ExportJob(jobs[i])
  {
    seq(|jobs|, i requires 0 <= i < |jobs| => ExportJob(jobs[i]))
  }

  function Export(name: string, jobs: seq<Job>): Json
  {
    JObject([
      Field("name", JString(name)),
      Field("jobs", JList(ExportJobs(jobs)))])
  }

  /** Towards zero. */
  function Truncated(x: real): int { if x < 0.0 then -((-x).Floor) else x.Floor }

  /** Python's int(); parsing a string is left to `parse`. */
  function AsInt(j: Json, parse: string -> Option<int>): Result<int>
  {
    match j
    case JInt(n) => Ok(n)
    case JBool(b) => Ok(if b then 1 else 0)
    case JFloat(Finite(x)) => Ok(Truncated(x))
    case JFloat(Infinite(_)) => OverflowError
    case JFloat(NotANumber) => ValueError
    case JString(s) => if parse(s).Some? then Ok(parse(s).value) else ValueError
    case _ => TypeError
  }

  /** What iterating over the value yields: items, characters or keys. */
  function Elements(j: Json): (r: Option<seq<Json>>)
    ensures j.JList? ==> r == Some(j.items)
    ensures j.JString? ==> r.Some? && |r.value| == |j.s| && forall i :: 0 <= i < |j.s| ==>
            r.value[i] == JString([j.s[i]])
    ensures r.None? <==> j.JNull? || j.JBool? || j.JInt? || j.JFloat?
  {
    match j
    case JList(items) => Some(items)
    case JString(s) => Some(seq(|s|, i requires 0 <= i < |s| => JString([s[i]])))
    case JObject(fields) => Some(seq(|fields|, i requires 0 <= i < |fields| => JString(fields[i].key)))
    case _ => None
  }

  /** The items as integers; the first failure decides. */
  function AllInts(items: seq<Json>, parse: string -> Option<int>): Result<seq<int>>
  {
    if items == [] then Ok([])
    else
      var rest := AllInts(items[..|items| - 1], parse);
      if !rest.Ok? then rest
      else
        match AsInt(items[|items| - 1], parse)
        case Ok(n) => Ok(rest.value + [n])
        case ValueError => ValueError
        case TypeError => TypeError
        case OverflowError => OverflowError
  }

  function Truthy(j: Json): bool
  {
    match j
    case JNull => false
    case JBool(b) => b
    case JInt(n) => n != 0
    case JFloat(f) => f != Finite(0.0)
    case JString(s) => s != ""
    case JList(items) => items != []
    case JObject(fields) => fields != []
  }

  /** The handler around the required fields turns a TypeError into a ValueError and lets an OverflowError pass. */
  function Guarded<T>(r: Result<T>): Result<T> { if r.TypeError? then ValueError else r }

  /** A missing field is a KeyError, which the handler turns into a ValueError. */
  function IntField(fields: seq<Field>, key: string, parse: string -> Option<int>): Result<int>
  {
    var value := Lookup(fields, key);
    if value.None? then ValueError else Guarded(AsInt(value.value, parse))
  }

  function IntsField(fields: seq<Field>, key: string, parse: string -> Option<int>): Result<seq<int>>
  {
    var value := Lookup(fields, key);
    if value.None? || Elements(value.value).None? then ValueError
    else Guarded(AllInts(Elements(value.value).value, parse))
  }

  /** The fields are read in order; int() on the blueprint id is not guarded. */
  function ImportJob(j: Json, jobId: int, parse: string -> Option<int>, show: Json -> string): Result<Job>
  {
    if !j.JObject? then ValueError
    else
      match IntField(j.fields, "target_type_id", parse)
      case ValueError => ValueError
      case TypeError => TypeError
      case OverflowError => OverflowError
      case Ok(typeId) =>
      match IntField(j.fields, "target_quantity", parse)
      case ValueError => ValueError
      case TypeError => TypeError
      case OverflowError => OverflowError
      case Ok(quantity) =>
      match IntsField(j.fields, "build_set", parse)
      case ValueError => ValueError
      case TypeError => TypeError
      case OverflowError => OverflowError
      case Ok(buildSet) =>
      match BlueprintOf(j.fields, parse)
      case ValueError => ValueError
      case TypeError => TypeError
      case OverflowError => OverflowError
      case Ok(blueprint) =>
        var rig, band, complex := Lookup(j.fields, "rig_tier"), Lookup(j.fields, "security_band"),
            Lookup(j.fields, "has_engineering_complex");
        if band.Some? && !band.value.JString? then ValueError
        else
          Ok(JobDoc(jobId, typeId, quantity, buildSet, blueprint)
             .(hasEngineeringComplex := complex.Some? && Truthy(complex.value),
               rigTier := if rig.None? || rig.value == JNull then None
                          else Some(if rig.value.JString? then rig.value.s else show(rig.value)),
               securityBand := if band.Some? then band.value.s else "high"))
  }

  function BlueprintOf(fields: seq<Field>, parse: string -> Option<int>): Result<Option<int>>
  {
    var blueprint := Lookup(fields, "blueprint_item_id");
    if blueprint.None? || blueprint.value == JNull then Ok(None)
    else
      match AsInt(blueprint.value, parse)
      case Ok(n) => Ok(Some(n))
      case ValueError => ValueError
      case TypeError => TypeError
      case OverflowError => OverflowError
  }

  /** The jobs in order, with new ids; the first failure decides. */
  function ImportJobs(items: seq<Json>, jobIds: seq<int>, parse: string -> Option<int>,
      show: Json -> string): Result<seq<Job>>
    requires |jobIds| == |items|
  {
    if items == [] then Ok([])
    else
      var n := |items| - 1;
      var rest := ImportJobs(items[..n], jobIds[..n], parse, show);
      if !rest.Ok? then rest
      else
        match ImportJob(items[n], jobIds[n], parse, show)
        case Ok(job) => Ok(rest.value + [job])
        case ValueError => ValueError
        case TypeError => TypeError
        case OverflowError => OverflowError
  }

  const NAME_LIMIT: nat := 100

  function Clipped(name: string): string { if |name| <= NAME_LIMIT then name else name[..NAME_LIMIT] }

  function JobCount(j: Json): nat
  {
    if j.JObject? && Lookup(j.fields, "jobs").Some? && Lookup(j.fields, "jobs").value.JList?
    then |Lookup(j.fields, "jobs").value.items| else 0
  }

  function Import(j: Json, jobIds: seq<int>, parse: string -> Option<int>, show: Json -> string): Result<Portable>
    requires |jobIds| == JobCount(j)
  {
    if !j.JObject? then ValueError
    else
      var name, jobs := Lookup(j.fields, "name"), Lookup(j.fields, "jobs");
      if name.Some? && !name.value.JString? then ValueError
      else if jobs.None? || !jobs.value.JList? || jobs.value.items == [] then ValueError
      else
        match ImportJobs(jobs.value.items, jobIds, parse, show)
        case Ok(imported) => Ok(Portable(Clipped(if name.Some? then name.value.s else ""), imported))
        case ValueError => ValueError
        case TypeError => TypeError
        case OverflowError => OverflowError
  }

  // ----- What is imported -----

  /** What int() makes of the value: a fraction is cut off towards zero. */
  ghost predicate IsInt(j: Json, n: int, parse: string -> Option<int>)
  {
    match j
    case JInt(m) => n == m
    case JBool(b) => n == if b then 1 else 0
    case JFloat(Finite(x)) =>
      && (x >= 0.0 ==> n as real <= x < n as real + 1.0)
      && (x < 0.0 ==> n as real - 1.0 < x <= n as real)
    case JString(s) => parse(s) == Some(n)
    case _ => false
  }

  lemma AsIntReads(j: Json, parse: string -> Option<int>, n: int)
    requires AsInt(j, parse).Ok?
    ensures IsInt(j, n, parse) <==> n == AsInt(j, parse).value
  {
  }

  lemma {:induction false} AllIntsRead(items: seq<Json>, parse: string -> Option<int>)
    requires AllInts(items, parse).Ok?
    ensures |AllInts(items, parse).value| == |items|
    ensures forall i :: 0 <= i < |items| ==>
              AsInt(items[i], parse).Ok? && AllInts(items, parse).value[i] == AsInt(items[i], parse).value
  {
    hide AsInt;
    if items != [] {
      var rest := items[..|items| - 1];
      AllIntsRead(rest, parse);
      assert forall i :: 0 <= i < |rest| ==> rest[i] == items[i];
    }
  }

  /** Build set and elements hold the same integers. */
  ghost predicate ReadsAll(elements: seq<Json>, buildSet: seq<int>, parse: string -> Option<int>)
  {
    forall y :: Has(buildSet, y) <==> exists k :: 0 <= k < |elements| && IsInt(elements[k], y, parse)
  }

  lemma SortedReadsAll(elements: seq<Json>, parse: string -> Option<int>)
    requires AllInts(elements, parse).Ok?
    ensures ReadsAll(elements, SortedDistinct(AllInts(elements, parse).value), parse)
  {
    hide AsInt, IsInt, AllInts, SortedDistinct;
    var xs := AllInts(elements, parse).value;
    AllIntsRead(elements, parse);
    forall y
      ensures Has(SortedDistinct(xs), y) <==> exists k :: 0 <= k < |elements| && IsInt(elements[k], y, parse)
    {
      SortedIs(xs, y);
      forall k | 0 <= k < |elements|
        ensures IsInt(elements[k], y, parse) <==> xs[k] == y
      {
        AsIntReads(elements[k], parse, y);
      }
    }
  }

  /** A job as read from its fields: numbers as int() reads them, a sorted build set, defaults for what is missing. */
  ghost predicate ReadFrom(job: Job, fields: seq<Field>, parse: string -> Option<int>, show: Json -> string)
  {
    var typeId, quantity, buildSet := Lookup(fields, "target_type_id"), Lookup(fields, "target_quantity"),
        Lookup(fields, "build_set");
    var blueprint, complex := Lookup(fields, "blueprint_item_id"), Lookup(fields, "has_engineering_complex");
    var rig, band := Lookup(fields, "rig_tier"), Lookup(fields, "security_band");
    && typeId.Some? && IsInt(typeId.value, job.targetTypeId, parse)
    && quantity.Some? && IsInt(quantity.value, job.targetQuantity, parse)
    && buildSet.Some? && Elements(buildSet.value).Some? && ReadsAll(Elements(buildSet.value).value, job.buildSet, parse)
    && Increasing(job.buildSet)
    && (job.blueprintItemId == None <==> blueprint.None? || blueprint.value == JNull)
    && (job.blueprintItemId.Some? ==> IsInt(blueprint.value, job.blueprintItemId.value, parse))
    && (job.hasEngineeringComplex <==>
         complex.Some? && complex.value != JNull && complex.value != JBool(false) && complex.value != JInt(0) &&
         complex.value != JFloat(Finite(0.0)) && complex.value != JString("") && complex.value != JList([]) &&
         complex.value != JObject([]))
    && (job.rigTier == None <==> rig.None? || rig.value == JNull)
    && (job.rigTier.Some? ==> job.rigTier.value == if rig.value.JString? then rig.value.s else show(rig.value))
    && (if band.None? then job.securityBand == "high" else band.value == JString(job.securityBand))
  }

  lemma ImportedIsRead(j: Json, jobId: int, parse: string -> Option<int>, show: Json -> string)
    requires ImportJob(j, jobId, parse, show).Ok?
    ensures j.JObject? && ReadFrom(ImportJob(j, jobId, parse, show).value, j.fields, parse, show)
    ensures ImportJob(j, jobId, parse, show).value.jobId == jobId
  {
    hide Lookup, AllInts, SortedDistinct, AsInt, Elements, IsInt, ReadsAll, Increasing;
    var job := ImportJob(j, jobId, parse, show).value;
    var fields := j.fields;
    AsIntReads(Lookup(fields, "target_type_id").value, parse, job.targetTypeId);
    AsIntReads(Lookup(fields, "target_quantity").value, parse, job.targetQuantity);
    var elements := Elements(Lookup(fields, "build_set").value).value;
    SortedReadsAll(elements, parse);
    SortedIs(AllInts(elements, parse).value, 0);
    if job.blueprintItemId.Some? {
      AsIntReads(Lookup(fields, "blueprint_item_id").value, parse, job.blueprintItemId.value);
    }
  }

  lemma {:induction false} ImportedAreRead(items: seq<Json>, jobIds: seq<int>, parse: string -> Option<int>,
      show: Json -> string)
    requires |jobIds| == |items| && ImportJobs(items, jobIds, parse, show).Ok?
    ensures |ImportJobs(items, jobIds, parse, show).value| == |items|
    ensures forall i :: 0 <= i < |items| ==>
              items[i].JObject? &&
                  ReadFrom(ImportJobs(items, jobIds, parse, show).value[i], items[i].fields, parse, show)
  {
    hide ImportJob, ReadFrom;
    if items != [] {
      var n := |items| - 1;
      ImportedAreRead(items[..n], jobIds[..n], parse, show);
      ImportedIsRead(items[n], jobIds[n], parse, show);
      assert forall i :: 0 <= i < n ==> items[..n][i] == items[i];
    }
  }

  /** An imported plan is what the data says: its name up to a hundred characters, and each job as its fields read. */
  ghost predicate PlanReadFrom(name: string, jobs: seq<Job>, j: Json, parse: string -> Option<int>,
      show: Json -> string)
  {
    && j.JObject? && Lookup(j.fields, "jobs").Some? && Lookup(j.fields, "jobs").value.JList?
    && var given, items := Lookup(j.fields, "name"), Lookup(j.fields, "jobs").value.items;
       && (if given.None? then name == "" else
            given.value.JString? && name == if |given.value.s| <= 100 then given.value.s else given.value.s[..100])
       && items != [] && |jobs| == |items|
       && forall i :: 0 <= i < |items| ==> items[i].JObject? && ReadFrom(jobs[i], items[i].fields, parse, show)
  }

  lemma ImportReads(j: Json, jobIds: seq<int>, parse: string -> Option<int>, show: Json -> string)
    requires |jobIds| == JobCount(j) && Import(j, jobIds, parse, show).Ok?
    ensures var p := Import(j, jobIds, parse, show).value; PlanReadFrom(p.name, p.jobs, j, parse, show)
  {
    hide ImportJobs, ReadFrom, Lookup;
    ImportedAreRead(Lookup(j.fields, "jobs").value.items, jobIds, parse, show);
  }

  // ----- Which failures escape -----

  predicate IsInfinite(j: Json) { j.JFloat? && j.f.Infinite? }

  /** int() accepts it. */
  predicate Readable(j: Json, parse: string -> Option<int>)
  {
    j.JInt? || j.JBool? || (j.JFloat? && j.f.Finite?) || (j.JString? && parse(j.s).Some?)
  }

  predicate AllReadable(values: seq<Json>, parse: string -> Option<int>)
  {
    forall i :: 0 <= i < |values| ==> Readable(values[i], parse)
  }

  /** What int() meets for the required fields, in order, up to the first one that is missing or cannot be iterated. */
  function ValuesRead(fields: seq<Field>): seq<Json>
  {
    var typeId, quantity, buildSet := Lookup(fields, "target_type_id"), Lookup(fields, "target_quantity"),
        Lookup(fields, "build_set");
    if typeId.None? then []
    else if quantity.None? then [typeId.value]
    else if buildSet.None? || Elements(buildSet.value).None? then [typeId.value, quantity.value]
    else [typeId.value, quantity.value] + Elements(buildSet.value).value
  }

  predicate AllThere(fields: seq<Field>)
  {
    && Lookup(fields, "target_type_id").Some? && Lookup(fields, "target_quantity").Some?
    && Lookup(fields, "build_set").Some? && Elements(Lookup(fields, "build_set").value).Some?
  }

  /** The first value that int() does not accept is infinite. */
  predicate InfiniteFirst(values: seq<Json>, parse: string -> Option<int>)
  {
    exists k :: 0 <= k < |values| && IsInfinite(values[k]) && AllReadable(values[..k], parse)
  }

  predicate FieldsReadable(j: Json, parse: string -> Option<int>)
  {
    j.JObject? && AllThere(j.fields) && AllReadable(ValuesRead(j.fields), parse)
  }

  predicate HasBlueprint(j: Json)
  {
    j.JObject? && Lookup(j.fields, "blueprint_item_id").Some? && Lookup(j.fields, "blueprint_item_id").value != JNull
  }

  /** The required fields are fine and the blueprint id is a list or an object. */
  predicate RaisesTypeError(j: Json, parse: string -> Option<int>)
  {
    FieldsReadable(j, parse) && HasBlueprint(j) &&
    (Lookup(j.fields, "blueprint_item_id").value.JList? || Lookup(j.fields, "blueprint_item_id").value.JObject?)
  }

  /** The first unreadable number is infinite: among the required fields, or the blueprint id after them. */
  predicate RaisesOverflow(j: Json, parse: string -> Option<int>)
  {
    || (j.JObject? && InfiniteFirst(ValuesRead(j.fields), parse))
    || (FieldsReadable(j, parse) && HasBlueprint(j) && IsInfinite(Lookup(j.fields, "blueprint_item_id").value))
  }

  predicate Importable(j: Json, parse: string -> Option<int>)
  {
    && FieldsReadable(j, parse)
    && (HasBlueprint(j) ==> Readable(Lookup(j.fields, "blueprint_item_id").value, parse))
    && (Lookup(j.fields, "security_band").Some? ==> Lookup(j.fields, "security_band").value.JString?)
  }

  lemma AsIntIs(j: Json, parse: string -> Option<int>)
    ensures AsInt(j, parse).Ok? <==> Readable(j, parse)
    ensures AsInt(j, parse) == OverflowError <==> IsInfinite(j)
    ensures AsInt(j, parse) == TypeError <==> j.JNull? || j.JList? || j.JObject?
  {
  }

  lemma AllReadableSplits(a: seq<Json>, b: seq<Json>, parse: string -> Option<int>)
    ensures AllReadable(a + b, parse) <==> AllReadable(a, parse) && AllReadable(b, parse)
  {
    if AllReadable(a + b, parse) {
      forall i | 0 <= i < |a|
        ensures Readable(a[i], parse)
      {
        assert (a + b)[i] == a[i];
      }
      forall i | 0 <= i < |b|
        ensures Readable(b[i], parse)
      {
        assert (a + b)[|a| + i] == b[i];
      }
    }
  }

  lemma InfiniteFirstSplits(a: seq<Json>, b: seq<Json>, parse: string -> Option<int>)
    ensures InfiniteFirst(a + b, parse) <==>
            InfiniteFirst(a, parse) || (AllReadable(a, parse) && InfiniteFirst(b, parse))
    ensures AllReadable(a + b, parse) <==> AllReadable(a, parse) && AllReadable(b, parse)
  {
    hide AllReadable;
    var ab := a + b;
    AllReadableSplits(a, b, parse);
    if k :| 0 <= k < |ab| && IsInfinite(ab[k]) && AllReadable(ab[..k], parse) {
      if k < |a| {
        assert ab[..k] == a[..k] && IsInfinite(a[k]);
      } else {
        assert ab[..k] == a + b[..k - |a|] && IsInfinite(b[k - |a|]);
        AllReadableSplits(a, b[..k - |a|], parse);
      }
    }
    if k :| 0 <= k < |a| && IsInfinite(a[k]) && AllReadable(a[..k], parse) {
      assert ab[..k] == a[..k] && IsInfinite(ab[k]);
    }
    if k :| 0 <= k < |b| && IsInfinite(b[k]) && AllReadable(b[..k], parse) {
      assert ab[..|a| + k] == a + b[..k] && IsInfinite(ab[|a| + k]);
      AllReadableSplits(a, b[..k], parse);
    }
  }

  lemma InfiniteFirstOne(j: Json, parse: string -> Option<int>)
    ensures InfiniteFirst([j], parse) <==> IsInfinite(j)
    ensures AllReadable([j], parse) <==> Readable(j, parse)
    ensures !InfiniteFirst([], parse) && AllReadable([], parse)
  {
    if IsInfinite(j) {
      assert [j][0] == j && AllReadable([j][..0], parse);
    }
    assert [j][0] == j;
  }

  lemma {:induction false} AllIntsFails(items: seq<Json>, parse: string -> Option<int>)
    ensures AllInts(items, parse).Ok? <==> AllReadable(items, parse)
    ensures AllInts(items, parse) == OverflowError <==> InfiniteFirst(items, parse)
  {
    hide AsInt, Readable, IsInfinite, InfiniteFirst, AllReadable;
    if items == [] {
      InfiniteFirstOne(JNull, parse);
    } else {
      var rest, last := items[..|items| - 1], items[|items| - 1];
      AllIntsFails(rest, parse);
      AsIntIs(last, parse);
      assert items == rest + [last];
      InfiniteFirstSplits(rest, [last], parse);
      InfiniteFirstOne(last, parse);
      NotBoth(rest, parse);
    }
  }

  lemma NotBoth(values: seq<Json>, parse: string -> Option<int>)
    ensures !(InfiniteFirst(values, parse) && AllReadable(values, parse))
  {
  }

  /** The verdict on the values read, field by field. */
  lemma ReadInTurn(fields: seq<Field>, parse: string -> Option<int>)
    ensures var t, q, b := Lookup(fields, "target_type_id"), Lookup(fields, "target_quantity"),
            Lookup(fields, "build_set");
            && (InfiniteFirst(ValuesRead(fields), parse) <==>
                 t.Some? && (IsInfinite(t.value) || (Readable(t.value, parse) &&
                 q.Some? && (IsInfinite(q.value) || (Readable(q.value, parse) &&
                 b.Some? && Elements(b.value).Some? && InfiniteFirst(Elements(b.value).value, parse))))))
            && (AllThere(fields) ==> (AllReadable(ValuesRead(fields), parse) <==>
                 Readable(t.value, parse) && Readable(q.value, parse) && AllReadable(Elements(b.value).value, parse)))
  {
    hide Lookup, Elements, InfiniteFirst, AllReadable, Readable, IsInfinite;
    var t, q, b := Lookup(fields, "target_type_id"), Lookup(fields, "target_quantity"), Lookup(fields, "build_set");
    InfiniteFirstOne(JNull, parse);
    if t.Some? {
      InfiniteFirstOne(t.value, parse);
      if q.Some? {
        InfiniteFirstOne(q.value, parse);
        assert [t.value] + [q.value] == [t.value, q.value];
        InfiniteFirstSplits([t.value], [q.value], parse);
        if b.Some? && Elements(b.value).Some? {
          InfiniteFirstSplits([t.value, q.value], Elements(b.value).value, parse);
        }
      }
    }
  }

  lemma JobFailures(j: Json, jobId: int, parse: string -> Option<int>, show: Json -> string)
    ensures ImportJob(j, jobId, parse, show).Ok? <==> Importable(j, parse)
    ensures ImportJob(j, jobId, parse, show) == TypeError <==> RaisesTypeError(j, parse)
    ensures ImportJob(j, jobId, parse, show) == OverflowError <==> RaisesOverflow(j, parse)
  {
    hide Lookup, AllInts, SortedDistinct, AsInt, Elements, ValuesRead, InfiniteFirst, AllReadable, Truthy;
    if j.JObject? {
      var fields := j.fields;
      var typeId, quantity, buildSet, blueprint :=
        Lookup(fields, "target_type_id"), Lookup(fields, "target_quantity"), Lookup(fields, "build_set"),
            Lookup(fields, "blueprint_item_id");
      ReadInTurn(fields, parse);
      if typeId.Some? {
        AsIntIs(typeId.value, parse);
        if quantity.Some? {
          AsIntIs(quantity.value, parse);
          if buildSet.Some? && Elements(buildSet.value).Some? {
            AllIntsFails(Elements(buildSet.value).value, parse);
          }
        }
      }
      if blueprint.Some? {
        AsIntIs(blueprint.value, parse);
      }
      NotBoth(ValuesRead(fields), parse);
    }
  }

  predicate Raises(j: Json, overflow: bool, parse: string -> Option<int>)
  {
    if overflow then RaisesOverflow(j, parse) else RaisesTypeError(j, parse)
  }

  /** All jobs before the first one that cannot be imported are fine, and that one raises the error. */
  ghost predicate FirstFailureRaises(items: seq<Json>, overflow: bool, parse: string -> Option<int>)
  {
    exists k :: 0 <= k < |items| && Raises(items[k], overflow, parse) &&
                forall i :: 0 <= i < k ==> Importable(items[i], parse)
  }

  lemma {:induction false} JobsFailures(items: seq<Json>, jobIds: seq<int>, parse: string -> Option<int>,
      show: Json -> string)
    requires |jobIds| == |items|
    ensures ImportJobs(items, jobIds, parse, show).Ok? <==> forall i :: 0 <= i < |items| ==> Importable(items[i], parse)
    ensures ImportJobs(items, jobIds, parse, show) == TypeError <==> FirstFailureRaises(items, false, parse)
    ensures ImportJobs(items, jobIds, parse, show) == OverflowError <==> FirstFailureRaises(items, true, parse)
  {
    hide ImportJob, RaisesTypeError, RaisesOverflow, Importable;
    if items != [] {
      var n := |items| - 1;
      JobsFailures(items[..n], jobIds[..n], parse, show);
      assert forall i :: 0 <= i < n ==> items[..n][i] == items[i];
      JobFailures(items[n], jobIds[n], parse, show);
      FirstFailureNext(items, false, parse);
      FirstFailureNext(items, true, parse);
    }
  }

  lemma FirstFailureNext(items: seq<Json>, overflow: bool, parse: string -> Option<int>)
    requires items != []
    ensures var rest, last := items[..|items| - 1], items[|items| - 1];
            FirstFailureRaises(items, overflow, parse) <==>
              FirstFailureRaises(rest, overflow, parse) ||
              ((forall i :: 0 <= i < |rest| ==> Importable(rest[i], parse)) && Raises(last, overflow, parse))
  {
    hide Raises, Importable;
    var rest, last := items[..|items| - 1], items[|items| - 1];
    if k :| 0 <= k < |rest| && Raises(rest[k], overflow, parse) &&
            forall i :: 0 <= i < k ==> Importable(rest[i], parse) {
      assert Raises(items[k], overflow, parse) && forall i :: 0 <= i < k ==> items[i] == rest[i];
    }
    if (forall i :: 0 <= i < |rest| ==> Importable(rest[i], parse)) && Raises(last, overflow, parse) {
      assert forall i :: 0 <= i < |rest| ==> items[i] == rest[i];
      assert Raises(items[|rest|], overflow, parse);
    }
    if k :| 0 <= k < |items| && Raises(items[k], overflow, parse) &&
            forall i :: 0 <= i < k ==> Importable(items[i], parse) {
      assert forall i :: 0 <= i < k ==> rest[i] == items[i];
      if k < |rest| {
        assert Raises(rest[k], overflow, parse);
      }
    }
  }

  /** An object with a string, if anything, as its name and at least one job in a list. */
  predicate OuterShape(j: Json)
  {
    j.JObject? && (Lookup(j.fields, "name").Some? ==> Lookup(j.fields, "name").value.JString?) && JobCount(j) > 0
  }

  /** Malformed data is not always reported as a ValueError. Something else escapes exactly when the outer shape is
      right and the first job that cannot be imported either meets an infinite number before any other unreadable
      one, or has readable required fields and a list, an object or an infinite number as its blueprint id. */
  lemma ImportEscapes(j: Json, jobIds: seq<int>, parse: string -> Option<int>, show: Json -> string)
    requires |jobIds| == JobCount(j)
    ensures Import(j, jobIds, parse, show) == TypeError <==>
              OuterShape(j) && FirstFailureRaises(Lookup(j.fields, "jobs").value.items, false, parse)
    ensures Import(j, jobIds, parse, show) == OverflowError <==>
              OuterShape(j) && FirstFailureRaises(Lookup(j.fields, "jobs").value.items, true, parse)
    ensures !Import(j, jobIds, parse, show).Ok? && Import(j, jobIds, parse, show) != ValueError <==>
              OuterShape(j) && exists overflow ::
                  FirstFailureRaises(Lookup(j.fields, "jobs").value.items, overflow, parse)
  {
    hide ImportJobs, FirstFailureRaises, Lookup;
    if OuterShape(j) {
      JobsFailures(Lookup(j.fields, "jobs").value.items, jobIds, parse, show);
    }
  }

  function OneJob(typeId: Json, blueprint: Json): Json
  {
    JObject([Field("jobs", JList([
      JObject([Field("target_type_id", typeId), Field("target_quantity", JInt(1)), Field("build_set", JList([])),
               Field("blueprint_item_id", blueprint)])]))])
  }

  lemma OneJobIs(typeId: Json, blueprint: Json)
    ensures var j := OneJob(typeId, blueprint);
            && OuterShape(j) && |Lookup(j.fields, "jobs").value.items| == 1
            && var job := Lookup(j.fields, "jobs").value.items[0];
               && job.JObject? && ValuesRead(job.fields) == [typeId, JInt(1)] && AllThere(job.fields)
               && Lookup(job.fields, "blueprint_item_id") == Some(blueprint)
  {
    var outer := OneJob(typeId, blueprint).fields;
    var fields := [Field("target_type_id", typeId), Field("target_quantity", JInt(1)), Field("build_set", JList([])),
                   Field("blueprint_item_id", blueprint)];
    assert |"name"| == 4 && outer[0].key == "jobs" && "name"[0] == 'n';
    LookupNth(outer, 0);
    assert Lookup(outer[1..], "name") == None;
    assert Lookup(outer, "name") == None;
    assert |fields[0].key| == 14 && |fields[1].key| == 15 && |fields[2].key| == 9 && |fields[3].key| == 17;
    forall n | 0 <= n < 4
      ensures Lookup(fields, fields[n].key) == Some(fields[n].value)
    {
      LookupNth(fields, n);
    }
    assert fields[0].key == "target_type_id" && fields[1].key == "target_quantity" && fields[2].key == "build_set";
    assert fields[3].key == "blueprint_item_id";
    assert Elements(JList([])) == Some([]);
    assert [typeId, JInt(1)] + [] == [typeId, JInt(1)];
  }

  /** Both kinds happen: an empty list as blueprint id, an infinite type id, an infinite blueprint id. */
  lemma ErrorsEscape(jobId: int, parse: string -> Option<int>, show: Json -> string)
    ensures JobCount(OneJob(JInt(587), JList([]))) == 1 &&
            Import(OneJob(JInt(587), JList([])), [jobId], parse, show) == TypeError
    ensures JobCount(OneJob(JFloat(Infinite(false)), JNull)) == 1 &&
            Import(OneJob(JFloat(Infinite(false)), JNull), [jobId], parse, show) == OverflowError
    ensures JobCount(OneJob(JInt(587), JFloat(Infinite(false)))) == 1 &&
            Import(OneJob(JInt(587), JFloat(Infinite(false))), [jobId], parse, show) == OverflowError
  {
    hide Lookup, ImportJobs, Import, OneJob, ValuesRead;
    var inf := JFloat(Infinite(false));
    OneJobEscapes(JInt(587), JList([]), false, jobId, parse, show);
    OneJobEscapes(inf, JNull, true, jobId, parse, show);
    OneJobEscapes(JInt(587), inf, true, jobId, parse, show);
  }

  lemma OneJobEscapes(typeId: Json, blueprint: Json, overflow: bool, jobId: int, parse: string -> Option<int>,
      show: Json -> string)
    requires if overflow then IsInfinite(typeId) || (typeId.JInt? && IsInfinite(blueprint))
             else typeId.JInt? && blueprint.JList?
    ensures JobCount(OneJob(typeId, blueprint)) == 1
    ensures Import(OneJob(typeId, blueprint), [jobId], parse, show) == if overflow then OverflowError else TypeError
  {
    hide Lookup, ImportJobs, Import, OneJob, ValuesRead, AllThere;
    var j := OneJob(typeId, blueprint);
    OneJobIs(typeId, blueprint);
    var items := Lookup(j.fields, "jobs").value.items;
    var values := [typeId, JInt(1)];
    if IsInfinite(typeId) {
      assert values[0] == typeId && AllReadable(values[..0], parse);
    }
    assert Raises(items[0], overflow, parse);
    ImportEscapes(j, [jobId], parse, show);
  }

  // ----- Round trip -----

  lemma {:induction false} IntsBack(xs: seq<int>, parse: string -> Option<int>)
    ensures AllInts(IntItems(xs), parse) == Ok(xs)
  {
    if xs != [] {
      var rest := xs[..|xs| - 1];
      IntsBack(rest, parse);
      assert IntItems(xs)[..|xs| - 1] == IntItems(rest);
      assert xs == rest + [xs[|xs| - 1]];
    }
  }

  lemma ExportedFields(job: Job)
    ensures var fields := ExportJob(job).fields;
            && Lookup(fields, "target_type_id") == Some(JInt(job.targetTypeId))
            && Lookup(fields, "target_quantity") == Some(JInt(job.targetQuantity))
            && Lookup(fields, "build_set") == Some(JList(IntItems(job.buildSet)))
            && Lookup(fields, "blueprint_item_id") == Some(OrNull(job.blueprintItemId, n => JInt(n)))
            && Lookup(fields, "has_engineering_complex") == Some(JBool(job.hasEngineeringComplex))
            && Lookup(fields, "rig_tier") == Some(OrNull(job.rigTier, s => JString(s)))
            && Lookup(fields, "security_band") == Some(JString(job.securityBand))
  {
    hide Lookup, OrNull;
    var fields := ExportJob(job).fields;
    forall n | 0 <= n < 7
      ensures Lookup(fields, fields[n].key) == Some(fields[n].value)
    {
      KeysDiffer(job, n);
      LookupNth(fields, n);
    }
    assert fields[0].key == "target_type_id" && fields[1].key == "target_quantity" && fields[2].key == "build_set";
    assert fields[3].key == "blueprint_item_id" && fields[4].key == "has_engineering_complex";
    assert fields[5].key == "rig_tier" && fields[6].key == "security_band";
  }

  lemma KeysDiffer(job: Job, n: nat)
    requires n < 7
    ensures forall i :: 0 <= i < n ==> ExportJob(job).fields[i].key != ExportJob(job).fields[n].key
  {
    var fields := ExportJob(job).fields;
    assert |fields[0].key| == 14 && |fields[1].key| == 15 && |fields[2].key| == 9 && |fields[3].key| == 17;
    assert |fields[4].key| == 23 && |fields[5].key| == 8 && |fields[6].key| == 13;
  }

  lemma JobBack(job: Job, jobId: int, parse: string -> Option<int>, show: Json -> string)
    requires Increasing(job.buildSet)
    ensures ImportJob(ExportJob(job), jobId, parse, show) == Ok(job.(jobId := jobId))
  {
    hide Lookup, AllInts, SortedDistinct, Increasing;
    IntsBack(job.buildSet, parse);
    SortedOfIncreasing(job.buildSet);
    ExportedFields(job);
    assert ExportJob(job).JObject?;
  }

  lemma {:induction false} LookupNth(fields: seq<Field>, n: nat)
    requires n < |fields| && forall i :: 0 <= i < n ==> fields[i].key != fields[n].key
    ensures Lookup(fields, fields[n].key) == Some(fields[n].value)
  {
    if n > 0 {
      LookupNth(fields[1..], n - 1);
    }
  }

  function Renumbered(jobs: seq<Job>, jobIds: seq<int>): seq<Job>
    requires |jobs| == |jobIds|
  {
    seq(|jobs|, i requires 0 <= i < |jobs| => jobs[i].(jobId := jobIds[i]))
  }

  lemma {:induction false} JobsBack(jobs: seq<Job>, jobIds: seq<int>, parse: string -> Option<int>,
      show: Json -> string)
    requires SortedJobs(jobs) && |jobs| == |jobIds|
    ensures ImportJobs(ExportJobs(jobs), jobIds, parse, show) == Ok(Renumbered(jobs, jobIds))
  {
    hide ExportJob, ImportJob;
    if jobs == [] {
      assert ExportJobs(jobs) == [] && Renumbered(jobs, jobIds) == [];
    } else {
      var n := |jobs| - 1;
      JobsBack(jobs[..n], jobIds[..n], parse, show);
      assert ExportJobs(jobs)[..n] == ExportJobs(jobs[..n]);
      JobBack(jobs[n], jobIds[n], parse, show);
      assert Renumbered(jobs, jobIds) == Renumbered(jobs[..n], jobIds[..n]) + [jobs[n].(jobId := jobIds[n])];
    }
  }

  /** Importing an export gives the jobs back under new ids and the first hundred characters of the name; a plan
      without jobs is refused. So the plan comes back unchanged exactly when it has jobs and a name that fits. */
  lemma RoundTrip(name: string, jobs: seq<Job>, jobIds: seq<int>, parse: string -> Option<int>, show: Json -> string)
    requires SortedJobs(jobs) && |jobs| == |jobIds|
    ensures JobCount(Export(name, jobs)) == |jobs|
    ensures jobs == [] ==> Import(Export(name, jobs), jobIds, parse, show) == ValueError
    ensures Import(Export(name, jobs), jobIds, parse, show) == Ok(Portable(name, Renumbered(jobs, jobIds)))
       <==> jobs != [] && |name| <= 100
    ensures jobs != [] ==>
              var clipped := if |name| <= 100 then name else name[..100];
              Import(Export(name, jobs), jobIds, parse, show) == Ok(Portable(clipped, Renumbered(jobs, jobIds)))
  {
    hide ExportJob, ImportJobs;
    var fields := Export(name, jobs).fields;
    LookupNth(fields, 0);
    LookupNth(fields, 1);
    JobsBack(jobs, jobIds, parse, show);
  }

  /** Whatever is imported, the build sets come out strictly increasing. */
  lemma {:induction false} ImportedSorted(items: seq<Json>, jobIds: seq<int>, parse: string -> Option<int>,
      show: Json -> string)
    requires |jobIds| == |items| && ImportJobs(items, jobIds, parse, show).Ok?
    ensures SortedJobs(ImportJobs(items, jobIds, parse, show).value)
    ensures |ImportJobs(items, jobIds, parse, show).value| == |items|
    ensures forall i :: 0 <= i < |items| ==> ImportJobs(items, jobIds, parse, show).value[i].jobId == jobIds[i]
  {
    hide ImportJob;
    if items != [] {
      var n := |items| - 1;
      ImportedSorted(items[..n], jobIds[..n], parse, show);
      ImportedJob(items[n], jobIds[n], parse, show);
    }
  }

  lemma ImportedJob(j: Json, jobId: int, parse: string -> Option<int>, show: Json -> string)
    requires ImportJob(j, jobId, parse, show).Ok?
    ensures Increasing(ImportJob(j, jobId, parse, show).value.buildSet)
    ensures ImportJob(j, jobId, parse, show).value.jobId == jobId
  {
    hide SortedDistinct, Increasing;
    SortedIs(IntsField(j.fields, "build_set", parse).value, 0);
  }
}
