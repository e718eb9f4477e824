# EVE Build: a verified model of its core

EVE Build plans industry in a space game. From a target item it works out what to build and what to buy, it breaks
planetary commodities down by tier, and it keeps plans of several jobs. When a pod starts it takes a lease, runs
migrations and reconciles database indexes. This project models that core and proves what it promises.

| module | source | what it holds |
|---|---|---|
| `Sums`, `RealSums` | | sums over finite sets, the shared vocabulary of the conservation laws |
| `Recipes` | `app/services/build_chain.py` | recipes, rounding, discounts, one job's query |
| `BuildChain` | same | what the resolver computes, stated level by level |
| `Resolver`, `StepOrder` | same | the resolver and its depth-first order as code that updates dictionaries, step objects, a visited set and a list in place |
| `ChainLaws`, `ChainDepth`, `ChainComparisons`, `Sandwich`, `BatchPlan`, `StepOrderLaws` | same | conservation, ledgers, the depth limit, two-run comparisons, the two reference plans, the order of the steps |
| `PlanTotals`, `PlanResolutions` | same, `app/routes/plans.py` | several jobs together: combined lists, Build/Buy/mixed |
| `Planetary`, `PlanetaryCosts` | `app/routes/planetary.py` | tier expansion and the cost per floor |
| `StartupLock` | `app/db/startup_lock.py` | the lease, and all interleavings of pods over it |
| `Deployment` | `app/main.py` | pods running the migrations inside the lock, over one log |
| `Migrations`, `GroupedUpdate` | `app/migrations/` | the runner, 0001, 0002, 0008; the grouped updates of 0003 and 0004 |
| `IndexSync` | `app/db/index_sync.py` | index reconciliation with crash points |
| `Crashes` | | a pod that may die after any await |
| `Caches`, `Locations` | `app/services/` | the read-through caches and the walk out of containers |
| `PlanJobs`, `Plans`, `PlanRequests` | `app/services/plan.py` | jobs, toggles, export and import, the plan store, runs of requests |
| `Options` | | an optional value |

How to read it:

- Code that changes state is a class or a method with loops, proved against a specification function; the promises are
  lemmas about that function. `Resolve` is the specification of the resolver, `Expand` that of the tier expansion,
  `Next` and `Run` are the lock's state machine, `Expected` says what the blueprints collection must hold.
- Dictionaries are iterated in an arbitrary order (`Sums.PickOne`), so every result holds for every order. Gathered or
  unordered database writes land in any order for the same reason.
- A pod may die after any await (`Crashes.Dies`) and then leaves the state as it stands. A method's unconditional
  `ensures` therefore holds after a crash at any point, `done ==>` says what a run that gets through has achieved, and
  `survives ==> done` that a pod which does not die gets through.
- Redis calls take the failure they meet as arguments: whether a read fails, and which commands of a write land.
- In the table below the main results come first and are marked; the rest are the steps and operations they rest on.
- The depth limit is a parameter `d` of the laws; `BuildChain.MAX_DEPTH` is the application's 15.
- `Migrations` speaks of runs that do not overlap. `Deployment` shows that the lock makes them so: as long as no pod
  stays in the locked body past its lease, the steps of all pods together are those of runs one after the other.

Where the code and its documentation disagree the model follows the code:

- `app/services/build_chain.py:304-305` says a raw material's buildable flag depends on its type only. Past the depth
  limit it can differ (`FlagsCanDiffer`); `FlagsAgreeIff` says exactly when it does not, and `FlagsAgree` that it never
  differs within the limit.
- `app/services/build_chain.py:281-282` says a component is listed before anything that depends on it. That holds if and
  only if no step depends on itself (`BuildOrderIffAcyclic`, with `CircleHasNoBuildOrder` as an input where it fails); on
  cyclic recipes no step is lost all the same.
- `app/services/build_chain.py:324-328` combines steps; their materials stay those of the first job
  (`CombinedMaterialsAreFirsts`, with `CombinedMaterialsFallShort` as an input).
- `app/services/plan.py:334-337` says malformed data raises ValueError. A list or an object as blueprint id raises
  TypeError instead, and an infinite number, which the JSON decoder accepts, raises OverflowError (`ImportEscapes` gives
  the exact condition, `ErrorsEscape` inputs of each kind).
- `app/services/locations.py:12-15` says a container's id is never resolved as a station. `ResolveContainerChain` says
  exactly when it is, and `ResolveInsideItself` gives an input.
- `app/services/plan.py:237-238` says a plan always needs at least one job, which removal keeps but an empty plan
  created at lines 54-70 does not have; such a plan can be exported but not imported (`RoundTrip`). Creating an empty
  plan is the one request that breaks it (`Perform`, `Serve`).
- The blueprint ids of the two activities need not be disjoint for crash safety: a reaction formula under a manufacturing
  blueprint's id simply takes its place (`Migrations.Expected`).

`dafny verify dfyconfig.toml` checks the project.

## Model

| member | source | states |
|---|---|---|
| Resolver.ResolveBuildChain | app/services/build_chain.py:139-275 | **Main result.** The resolver returns exactly the steps, raw totals and buildable flags that the level-by-level account `Resolve` gives at depth 15; each step takes its runs times what its own recipe asks for, discounted for the target only; it lists every step once, in an order that is one to build in if and only if no step depends on itself; and on recipes that fit the depth limit every raw total lies between rounding once along the reverse of that order and expanding every branch on its own. |
| Resolver.ResolveToDepth | app/services/build_chain.py:139-275 | **Main result.** The same for every depth limit. |
| ChainLaws.StepTakesItsRecipe | app/services/build_chain.py:187-219 | **Main result.** A step lists exactly its recipe's types, each with the runs times the sum over its entries: for every type but the target the recipe's own quantities, for the target per entry the least whole number from 1 on that covers quantity * (1 - efficiency / 100) * (1 - bonus). |
| ChainLaws.DemandConservation | app/services/build_chain.py:170-229 | **Main result.** For every type, the target quantity (if it is the target) plus everything listed for it in all steps' materials equals what its step needs plus its raw total; on cyclic recipes and after the depth cut too. |
| ChainLaws.RoundingLedger | app/services/build_chain.py:187-220 | **Main result.** A step's materials are its runs times the per-run quantities; needed <= runs * product quantity <= needed + visits * (product quantity - 1), with between 1 and depth-limit visits. |
| Sandwich.MergedNeedsNoMore | app/services/build_chain.py:139-229 | **Main result.** Merging demand level by level needs no more of any raw material than recursively expanding every branch on its own to the same depth, and exactly as much when every step of this resolution makes one unit per run, whatever other types the build set names; for every recipe map, cyclic ones included. |
| BatchPlan.MergedNeedsNoLess | app/services/build_chain.py:165-229 | **Main result.** On recipes that fit the depth limit the merged run needs no less of anything than the plan that sums all demand for a type and rounds it once. |
| BatchPlan.BatchIsLeast | app/services/build_chain.py:199-220 | **Main result.** No plan at all needs less: summing all demand for a type and rounding once asks for no more of anything than any assignment of runs that covers its own demand. |
| StepOrderLaws.OwnOrderSandwiches | app/services/build_chain.py:165-259 | **Main result.** The same for every bought type at once, along the reverse of the order in which the resolution lists its steps. |
| ChainDepth.LoopEndsByItself | app/services/build_chain.py:172 | **Main result.** The loop runs out of demand by the limit if and only if no expansion path from the target has as many edges as the limit. |
| ChainDepth.DepthAdequacy | app/services/build_chain.py:170-185 | **Main result.** Then nothing is cut: steps and raw materials are disjoint, each raw material has no recipe or is neither the target nor in the build set, and its flag says which. |
| ChainComparisons.Monotonicity | app/services/build_chain.py:36-73 | **Main result.** Asking for more, or with weaker discounts, never lowers a raw total, run count or needed quantity; the types met at each level, the steps, the raw materials and the flags are the same. |
| ChainComparisons.BuildSetRelevance | app/services/build_chain.py:180-185 | **Main result.** Adding a type to the build set changes the resolution if and only if the type is a raw material marked buildable. |
| StepOrder.TopologicalOrder | app/services/build_chain.py:278-298 | **Main result.** Lists each step the target reaches exactly once, and after every step it lists that does not depend on it in turn. |
| StepOrderLaws.EveryStepReached | app/services/build_chain.py:216-220 | **Main result.** Every step is reachable from the target through the steps' materials, so the traversal drops none, on cyclic recipes too. |
| StepOrderLaws.BuildOrderIffAcyclic | app/services/build_chain.py:281-282 | **Main result.** Each step comes after everything it lists if and only if no step depends on itself. |
| PlanTotals.PlanConservation | app/services/build_chain.py:301-346 | **Main result.** For every type, what the plan's jobs target plus what all their steps consume equals what their steps need plus what the shopping list holds. |
| PlanTotals.CombinedMaterialsAreFirsts | app/services/build_chain.py:334-344 | **Main result.** A combined step's materials are what all jobs take together if and only if no later job builds the type. |
| PlanResolutions.BulkToggleStatus | app/services/plan.py:205-228 | **Main result.** After the all-jobs toggle to Build, when the toggled jobs fit the depth limit, the status is Build if some job builds the type and Buy otherwise, never mixed. After Buy it is Buy unless the type is some job's target and has a recipe, and then mixed if some job buys it and Build if none does. |
| PlanResolutions.FlagsAgreeIff | app/services/build_chain.py:304-305 | **Main result.** Two jobs over the same recipes that buy a type flag it alike if and only if it has no recipe, or both or neither of them meet it as a bought type on an expansion path shorter than the depth limit. |
| Planetary.ExpandToTier | app/routes/planetary.py:48-72 | **Main result.** The recursive expansion with its accumulating loops computes the rational expansion `Expand`, and ends because tiers fall along inputs. An item at rest, with no schematic or no tier above the floor, is its own expansion; for any other, output quantity times an amount is the quantity times what one run's inputs bring, each by its listed quantity; only types at rest are left. |
| Planetary.TierComposition | app/routes/planetary.py:48-72 | **Main result.** Expanding to a floor and each result on to a lower floor is the same map as expanding to the lower floor at once. |
| PlanetaryCosts.CostAccounting | app/routes/planetary.py:48-72 | **Main result.** Market value of an item minus the cost of its expansion is the sum, over the schematics expanded, of runs times that schematic's margin, where a margin is output quantity times price minus the sum over the inputs of quantity times price. |
| PlanetaryCosts.LowerFloorCheaper | app/routes/planetary.py:261-280 | **Main result.** When no schematic that this item expands between two floors loses money, whatever other schematics do, the "From P" cost at the lower floor is no greater. |
| StartupLock.LeaseExclusion | app/db/startup_lock.py:64-87 | **Main result.** In every interleaving of any number of pods starting, polling, acquiring, leaving and crashing at any point, with commands in flight and sweeps, a pod in the body whose expiry has not passed owns the document; two pods are inside together only if one outlived its lease. |
| Deployment.ClusterStaysOrderly | app/main.py:66-80 | **Main result.** In every interleaving without an overrun, with pods crashing anywhere, the log is a prefix of the list, no pod ever inserts a record that is there already, and what the pods did is what runs one after the other would do. |
| Deployment.Deploy | app/main.py:66-80 | **Main result.** Through any such interleaving from an empty database the data is as far along as the log says, and once any pod got through, sde_blueprints holds exactly the expected documents, each as the raw rows have it. |
| StartupLock.ExpiredIsReclaimed | app/db/startup_lock.py:43-48 | **Main result.** After any run, once the clock has passed a document's expiry the next pod to read the clock and try gets the lock, with no sweep in between. |
| StartupLock.LeaseLasts | app/db/startup_lock.py:36-61 | **Main result.** A live document stays as it is until its expiry unless its own holder's release lands, even if that holder crashed. |
| StartupLock.SessionsDoNotOverlap | app/main.py:66-91 | **Main result.** While nobody overruns, stays in the body follow one another, so the migration and index runs inside do not overlap. |
| Migrations.Database.RunMigrations | app/migrations/runner.py:33-45 | **Main result.** Wherever a run dies, the recorded ids are a prefix of the list and the data is as far along as that prefix says; a run that completes leaves sde_blueprints exactly the expected documents, each as the raw rows have it; a run that does not die completes unless a manufacturing blueprint is listed twice; no run, 0002's delete included, ever removes or spoils a reaction document stored before it; a run with everything recorded changes nothing. |
| Migrations.Deployments | app/migrations/runner.py:33-45 | **Main result.** From an empty database, through any number of non-overlapping runs cut short anywhere: the prefix property holds, and once a run has completed sde_blueprints stays exactly the manufacturing documents with activity 1 and the reaction documents with activity 11, each as the raw rows have it; the first run that does not die completes. |
| Migrations.ExpectedAsListed | app/migrations/0008_add_reaction_formulas_to_sde_blueprints.py:15-45 | **Main result.** Each expected document is that of a product row of activity 1 or 11 with its id: the row's product and quantity, the time of the last row for that activity and id and none if and only if there is no such row, and the materials of exactly the rows for that activity and id, in order. Each such product row has a document, its own unless another takes its id. |
| IndexSync.Store.SyncIndexes | app/db/index_sync.py:50-83 | **Main result.** Wherever a run dies, a record equal to its desired spec still means the index exists with that spec, and what is neither configured nor recorded is untouched. A run that ends, as one that does not die and meets no failing drop does, has exactly the desired records, all desired indexes in place with their spec's keys and exactly those of its options that are unique, sparse or expireAfterSeconds, and every formerly recorded stale index gone but for those whose drop failed in silence. A run from a converged state ends, creating and dropping nothing. |
| IndexSync.Restarts | app/db/index_sync.py:50-83 | **Main result.** Over any number of runs of one configuration, each possibly cut short, this is kept, and once one has ended the store stays converged, with each index having its spec's keys and allowed options; the first run that neither dies nor meets a failing drop ends. |
| Caches.CachedDocsById | app/services/sde.py:18-42 | **Main result.** For any cached subset, and with Redis absent or failing at either call, the answer is the collection restricted to the ids, every cached entry goes on agreeing with its collection, and what was found is cached afterwards wherever its write lands. |
| Caches.CacheKeysApart | app/services/sde.py:14-15 | **Main result.** Two cache keys are equal only for the same prefix and the same value. |
| Locations.ResolveInTurn | app/services/locations.py:34-100 | **Main result.** Over any sequence of calls with any Redis entries expiring in between, each call answers from the names learned by those before it, and the names learned are exactly the named remote answers. |
| Locations.ResolveContainerChain | app/services/locations.py:11-24 | **Main result.** Terminates on circular containers. The answer is the place the start is in at the end of the walk, or a container on the circle if there is one; it bears an asset's id if and only if the containers form a circle or that place does. |
| GroupedUpdate.SetGrouped | app/migrations/0003_add_volume_to_sde_types.py:19-31 | **Main result.** Grouping by value, chunking and writing each chunk in any order gives the same collection as setting each document on its own. |
| PlanJobs.RoundTrip | app/services/plan.py:281-360 | **Main result.** Importing an export gives the same plan up to ids if and only if it has jobs and a name of at most 100 characters; a longer name is clipped and a plan without jobs is refused. |
| PlanJobs.ImportEscapes | app/services/plan.py:308-346 | **Main result.** An import escapes with something other than the documented ValueError if and only if its outer shape is right and the first job that cannot be imported meets an infinite number before any other unreadable one (OverflowError), or has readable required fields and a list or object (TypeError) or an infinite number (OverflowError) as blueprint id. |
| PlanJobs.BulkIsInTurn | app/services/plan.py:205-228 | **Main result.** The all-jobs toggle equals the single-job toggle for each job in turn if and only if the jobs whose id an earlier job already bears are ones it would not change. |
| PlanRequests.Serve | app/services/plan.py:28-360 | **Main result.** Over any run of requests every build set stays strictly increasing and a plan's job ids distinct, and the plans of a character who asked for nothing are exactly what they were. Where every plan had a job, every plan has one at every point of the run if and only if no request creates an empty plan. |
| Resolver.RunLevels | app/services/build_chain.py:165-229 | The level loop over dictionaries and step objects updated in place refines `Resolve`, whatever order dictionaries are iterated in, and stopping at an empty level changes nothing. |
| Resolver.ExpandLevel | app/services/build_chain.py:173-220 | One pass turns steps, raw totals, flags and pending demand into those with every entry of the level accounted for. |
| Resolver.ExpandEntry | app/services/build_chain.py:187-220 | Expanding one entry grows exactly one step, by the demand, its runs and the materials of those runs, and the next level by the same materials; all other steps keep their content. |
| Resolver.TakeMaterials | app/services/build_chain.py:216-220 | The step's materials and the next level grow by the same amounts, repeated material entries included. |
| Resolver.CutOff | app/services/build_chain.py:225-229 | Demand left at the depth limit is added to the raw totals; its flag stays what it was for a leaf met before and is false otherwise. |
| Resolver.OrderSteps | app/services/build_chain.py:257-259 | Ordering a finished run drops no step and repeats none, and is a build order if and only if the step graph is acyclic. |
| ChainLaws.LevelConservation | app/services/build_chain.py:172-223 | The loop invariant behind it: after any number of passes all demand created so far is stepped, raw or pending. |
| Sandwich.PassMerges | app/services/build_chain.py:173-222 | One pass of the loop never raises raw-so-far plus what the pending level would cost branch by branch. |
| Sandwich.BranchSplit | app/services/build_chain.py:199 | Splitting a demand into two never lowers its branch-by-branch raw materials, and changes nothing for unit outputs. |
| BatchPlan.BatchSolvesDemand | app/services/build_chain.py:199-220 | That plan, walked consumers first, does round each type's whole demand: its figures solve the demand equations. |
| BatchPlan.Sandwiched | app/services/build_chain.py:165-259 | Both bounds together, along any consumer-first order of the resolution's steps. |
| ChainDepth.CutIsTheOverlap | app/services/build_chain.py:225-229 | A built type is also raw exactly when the depth cut left some of it over. |
| ChainDepth.RankedRecipesFit | app/services/build_chain.py:11 | Recipes whose ranks fall along materials fit every limit above the target's rank. |
| Recipes.Catalogue | app/services/build_chain.py:83-104 | A type has a recipe when a blueprint or a schematic makes it: the blueprint's if there is one, else the schematic's. |
| Recipes.MaterialPerRun | app/services/build_chain.py:64-73 | The least whole number, from 1 on, that covers the base quantity after both discounts. |
| Recipes.MaterialPerRunFalls | app/services/build_chain.py:64-73 | A better efficiency and a better structure never ask for more. |
| Recipes.MaterialPerRunUndiscounted | app/services/build_chain.py:189 | Without discounts the rounding leaves the base quantity, so skipping it changes nothing. |
| Recipes.StructureMaterialBonus | app/services/build_chain.py:36-50 | Fails exactly for a rig tier or band outside the tables when an engineering complex is used with a rig; otherwise 0 without a complex, 1% with one and no rig, and the combined value for each tier and band, from 2.98% to 5.9896%. |
| StepOrder.StepSorter.Visit | app/services/build_chain.py:286-295 | One visit keeps the traversal invariant: no step twice, finished steps have all materials visited, and a step comes after each step it lists that does not depend on it in turn; terminates on cyclic graphs. |
| StepOrderLaws.CircleHasNoBuildOrder | app/services/build_chain.py:281-282 | Two types that consume each other, both built: for every depth limit from 2 on, the traversal's order does not list every component before what depends on it. |
| StepOrderLaws.FittingStepsAcyclic | app/services/build_chain.py:172 | Within the depth limit no step depends on itself. |
| StepOrderLaws.BackwardsIsConsumersFirst | app/services/build_chain.py:257-259 | Within the depth limit components come before what consumes them, and the reversed order meets every consumer before what it consumes. |
| PlanTotals.AggregateRawMaterials | app/services/build_chain.py:301-321 | One entry per type some job buys, with the quantities of all jobs added up and the first buying job's flag. |
| PlanTotals.AggregateBuildSteps | app/services/build_chain.py:324-346 | One entry per type some job builds, with the demand and runs of all jobs added up and the first building job's product quantity and materials. |
| PlanTotals.JobsConservation | app/services/build_chain.py:301-346 | The same for stored jobs, with their own target quantities. |
| PlanTotals.ListCostsJobs | app/routes/plans.py:753-762 | At any unit prices the combined shopping list costs exactly what the jobs' raw materials cost together. |
| PlanTotals.CombinedRunsCover | app/services/build_chain.py:342-344 | The combined runs still cover the combined demand. |
| PlanTotals.CombinedMaterialsFallShort | app/services/build_chain.py:334-344 | A plan of two equal jobs whose combined step lists less than the jobs take. |
| PlanResolutions.BulkToggleIsChoice | app/services/plan.py:216-222 | Toggling all stored jobs makes that choice, and no other change, in what each job asks of the resolver. |
| PlanResolutions.MixedAfterBuild | app/routes/plans.py:35-46 | Without any depth assumption: mixed after Build if and only if some job builds it and the depth cut left some of it over. |
| PlanResolutions.MixedAfterBuy | app/routes/plans.py:35-46 | Mixed after Buy if and only if it is some job's own target with a recipe and some job buys it. |
| PlanResolutions.FlagsAgree | app/services/build_chain.py:304-305 | Within the depth limit the buildable flag depends on the type alone, as the combined list assumes. |
| PlanResolutions.FlagsCanDiffer | app/services/build_chain.py:304-305 | Past the limit it need not: two jobs over the same recipes that buy the same type with different flags, for every limit from 2 on. |
| Planetary.ExpandAllInputs | app/routes/planetary.py:61-72 | The loop over a schematic's inputs merges their expansions, whatever order their entries come in. |
| Planetary.ExpandsByRecipe | app/routes/planetary.py:59-72 | For an item above the floor, each amount times the output quantity is the quantity times the sum over the inputs of listed quantity times what one unit of the input expands to. |
| Planetary.LastStage | app/routes/planetary.py:59-72 | When all inputs are at rest it is the quantity times the sum of the quantities listed for the type. |
| Planetary.ExpandScales | app/routes/planetary.py:60-71 | Scaling the quantity scales every amount and keeps the types. |
| Planetary.ExpandAdds | app/routes/planetary.py:60-71 | The expansion of a sum is the sum of the expansions. |
| PlanetaryCosts.FloorCosts | app/routes/planetary.py:261-277 | For each floor below the schematic's own tier, the market cost of one run's inputs expanded to that floor: the sum over the inputs of quantity times what one unit costs from the floor, which is its price when it is at rest. |
| PlanetaryCosts.InputsAccounting | app/routes/planetary.py:262-277 | The same for the inputs of a page's schematic. |
| PlanetaryCosts.FloorsDiffer | app/routes/planetary.py:261-277 | The cost difference between two floors is exactly the difference of the margins earned down to them. |
| StartupLock.Locks.TryAcquire | app/db/startup_lock.py:36-51 | Succeeds exactly when there is no document or its expiry lies strictly before now, and then the document is this holder's until now + TTL; otherwise it is untouched. |
| StartupLock.Locks.Release | app/db/startup_lock.py:54-61 | Deletes the document exactly when this holder still owns it. |
| StartupLock.Locks.Sweep | app/db/startup_lock.py:29-33 | The database's sweep removes a document only once its expiry is reached. |
| Deployment.Replay | app/migrations/runner.py:36-44 | A history of such runs carried out with the migrations themselves: what was recorded was applied to the end, what was begun and not recorded was cut short anywhere. |
| StartupLock.AttemptDecides | app/db/startup_lock.py:43-51 | After any run, an attempt that lands gets its pod into the body and makes it the owner until its reading + TTL if there is no document or the expiry lies before the reading; otherwise the document stays and the pod waits. |
| StartupLock.CrashedHolderIsReplaced | app/db/startup_lock.py:30-32 | A holder that crashes with the lock is replaced so once its lease has run out. |
| StartupLock.WaiterPolls | app/db/startup_lock.py:74-81 | A pod whose attempt failed gives up exactly when its deadline is reached by then; otherwise it tries again after at least one poll interval and not before, its deadline unchanged. |
| StartupLock.LeavingFrees | app/db/startup_lock.py:84-87 | A holder that leaves frees the lock as soon as its release lands, even if it crashed on the way out. |
| StartupLock.OrphanMayTakeTheLock | app/db/startup_lock.py:43-48 | A pod that crashes with its attempt on the way may still take the lock, for nobody, until its reading + TTL. |
| StartupLock.NewPodTries | app/db/startup_lock.py:68-71 | A new pod begins by trying, with the configured wait as its deadline. |
| StartupLock.StepKeepsLease | app/db/startup_lock.py:36-87 | Every single step keeps that. |
| StartupLock.ReleaseSparesOthers | app/db/startup_lock.py:54-55 | A release, however late it lands, never takes the document from another live pod. |
| StartupLock.OnePodAtATime | app/main.py:66-91 | While nobody overruns its lease at most one pod is in the body. |
| Migrations.Database.ImportRawTables | app/migrations/0001_import_raw_sde_tables.py:49-76 | Skips recorded tables, re-imports the others, and when it completes every raw table equals its file. |
| Migrations.Database.ImportTable | app/migrations/0001_import_raw_sde_tables.py:36-46 | Whatever a crash left behind, a finished import leaves exactly the file's rows and touches no other table. |
| Migrations.Database.ReadDocs | app/migrations/0002_build_sde_lookup_collections.py:38-67 | One document per product listed for the activity, in order: last time listed, materials in listed order, missing ones empty. |
| Migrations.Database.ReplaceBlueprints | app/migrations/0002_build_sde_lookup_collections.py:13-20 | A finished replacement leaves exactly the documents; it fails only by dying or on a repeated id. |
| Migrations.Database.BuildLookupCollections | app/migrations/0002_build_sde_lookup_collections.py:23-70 | Completes only with sde_blueprints exactly the manufacturing documents, from the imported tables. |
| Migrations.Database.UpsertBatch | app/migrations/0008_add_reaction_formulas_to_sde_blueprints.py:47-54 | In whatever order the gathered upserts land and wherever they stop, no manufacturing id is lost and no stored reaction document is spoilt. |
| Migrations.Database.DefaultActivity | app/migrations/0008_add_reaction_formulas_to_sde_blueprints.py:56-58 | Marks the documents without an activity as manufacturing and leaves reaction documents alone. |
| Migrations.Database.AddReactionFormulas | app/migrations/0008_add_reaction_formulas_to_sde_blueprints.py:14-58 | Restartable from any partial earlier attempt; completes only with sde_blueprints exactly the expected documents. |
| Migrations.ExpectedIsListed | app/migrations/0008_add_reaction_formulas_to_sde_blueprints.py:30-45 | The same for one document. |
| Migrations.ListedIsExpected | app/migrations/0008_add_reaction_formulas_to_sde_blueprints.py:30-45 | Conversely each product row of activity 1 or 11 has an expected document under its id, and a reaction row its own; so has a manufacturing row whose id no reaction takes, when no blueprint is listed twice. |
| Migrations.JustBuilt | app/migrations/0002_build_sde_lookup_collections.py:69-70 | What 0002 has just built is a state 0008 may start from. |
| IndexSync.OneIndexSafe | app/db/index_sync.py:60-72 | The points between drop, create and record are all safe to stop at. |
| IndexSync.OneDropSafe | app/db/index_sync.py:74-83 | So are those between dropping a stale index and deleting its record. |
| IndexSync.Store.SyncDesired | app/db/index_sync.py:54-72 | After the first loop every desired entry is recorded and the collected ids are exactly the desired ones. |
| IndexSync.Store.DropUnmanaged | app/db/index_sync.py:74-83 | After the second loop only desired records are left and the indexes of the dropped ones are gone, but for those whose drop failed; desired places and never-recorded ones are untouched. |
| IndexSync.LoadIndexConfigs | app/db/index_sync.py:15-38 | The first bad file decides: a missing collection or indexes is a KeyError, a spec without name or keys or a repeated name a ValueError; otherwise each collection gets the specs of its files. |
| IndexSync.MergedIs | app/db/index_sync.py:37 | Each collection has the specs of all its files in file order, and no other collection appears. |
| IndexSync.RecordIdsApart | app/db/index_sync.py:57 | Record ids of collections without a dot in their name are equal only for the same collection and name. |
| IndexSync.DotFreeIsUnambiguous | app/db/index_sync.py:57 | So for dot-free collection names it is enough that repeated (collection, name) entries carry equal specs. |
| IndexSync.RepeatedMustAgree | app/db/index_sync.py:60-62 | Repeated entries with different specs can never all be recorded, so they are synced anew on every run. |
| IndexSync.ReadyForNext | app/db/index_sync.py:60-62 | With dot-free collection names before and after, the records a finished run leaves are truthful for whatever configuration comes next. |
| Caches.GetManyCached | app/services/cache.py:13-28 | Exactly what Redis holds of the keys asked; nothing without Redis or when the call fails. |
| Caches.SetManyCached | app/services/cache.py:31-41 | Exactly the commands that land change their entries, to the new values; all others stay, and a failure is swallowed. |
| Caches.ExpiryKeepsAgreement | app/services/cache.py:38 | Losing entries keeps the agreement. |
| Locations.NoNamelessEver | app/services/locations.py:73-75 | Over any sequence of calls nothing nameless is written and no stored name changes. |
| Locations.ResolveLocations | app/services/locations.py:34-100 | For any cached subset and any failing Redis calls, each id asked gets its stored named document, or else the remote answer; exactly the named remote answers are added to the database, and Redis goes on mirroring named documents only, so no failed lookup is ever persisted. |
| Locations.LearnedOnce | app/services/locations.py:70-75 | After a call, a name it answered is answered from then on whatever the remote says later, and a nameless lookup is asked again. |
| Locations.LookUp | app/services/locations.py:70-98 | A lookup is stored exactly when it has a name; otherwise neither the database nor Redis changes. |
| Locations.ResolveStored | app/services/locations.py:41-68 | The first two tiers together answer exactly the named stored documents. |
| Locations.ResolveInsideItself | app/services/locations.py:12-15 | For a container inside itself the walk answers its own id, which is then resolved as a station. |
| GroupedUpdate.AddVolumes | app/migrations/0003_add_volume_to_sde_types.py:14-31 | Each listed type document gets its last row's volume, 0 when that is missing; all others stay as they are. |
| GroupedUpdate.AddCategories | app/migrations/0004_add_category_id_to_sde_types.py:18-41 | Documents whose group has a category get it; all others stay as they are. |
| PlanJobs.JobBack | app/services/plan.py:293-331 | A job with a sorted build set survives export and import unchanged but for its id. |
| PlanJobs.ImportedSorted | app/services/plan.py:308-346 | Whatever is imported, there is one job per item in order and its build set is strictly increasing. |
| PlanJobs.JobFailures | app/services/plan.py:308-331 | For one job: exactly when it is imported, and exactly when which error escapes. |
| PlanJobs.ImportReads | app/services/plan.py:308-346 | Whatever is imported is what the data says: the name up to 100 characters, numbers as int() reads them with fractions cut off towards zero, the build set's integers sorted, and the defaults for what is missing. |
| PlanJobs.ExportedFields | app/services/plan.py:293-301 | The exported fields of a job and their names. |
| PlanJobs.ErrorsEscape | app/services/plan.py:314-322 | Concrete imports that escape: an empty list as blueprint id, an infinite type id, an infinite blueprint id. |
| PlanJobs.ToggledIs | app/services/plan.py:136-144 | A toggle changes the choice for its type only and leaves the build set strictly increasing. |
| PlanRequests.Perform | app/services/plan.py:28-360 | One request of any kind leaves all plans of every other character exactly as they are, and gives none away. Where every plan had a job, every plan still has one if and only if the request is not the creation of an empty plan. |
| Plans.PlanStore.SetBuildFlagForAllJobs | app/services/plan.py:205-228 | Toggles every job of an owned plan, which is the single toggle for each in turn; other plans and all other fields stay. |
| Plans.PlanStore.UpdateJobBuildFlag | app/services/plan.py:116-146 | Makes the one choice in the first job under the id and leaves its other choices and all other jobs alone, or reports that there is none and changes nothing. |
| Plans.PlanStore.CreatePlan | app/services/plan.py:28-51 | Stores one new plan with one job as asked for, its build set sorted, without a structure bonus. |
| Plans.PlanStore.CreateEmptyPlan | app/services/plan.py:54-70 | Stores one new plan without jobs. |
| Plans.PlanStore.AddJob | app/services/plan.py:73-94 | Appends the job to an owned plan and changes nothing otherwise. |
| Plans.PlanStore.UpdateJobQuantity | app/services/plan.py:97-113 | Changes only that job's quantity. |
| Plans.PlanStore.UpdateJobStructure | app/services/plan.py:149-174 | Changes only that job's three structure fields. |
| Plans.PlanStore.SetStructureForAllJobs | app/services/plan.py:177-202 | Changes only the three structure fields, of every job of the plan. |
| Plans.PlanStore.RemoveJob | app/services/plan.py:231-249 | Removes exactly the job under the id, unless it is the last one, and keeps the order of the others. |
| Plans.PlanStore.RenamePlan | app/services/plan.py:252-260 | Changes only an owned plan's name. |
| Plans.PlanStore.DeletePlan | app/services/plan.py:263-267 | Removes exactly the owned plan. |
| Plans.PlanStore.ExportPlan | app/services/plan.py:281-305 | The portable form of an owned plan, or nothing. |
| Plans.PlanStore.ImportPlan | app/services/plan.py:334-360 | Stores one plan with new job ids, as the data reads, when all data is well formed, otherwise nothing. |
| Plans.PlanStore.CopyPlan | app/services/plan.py:281-360 | Exporting and importing copies the jobs under new ids and the first 100 characters of the name; refused for a plan without jobs. |

## Left out

- MaterialPerRun: uses exact reals; the last bit of the floating-point products and quotients under the ceilings is not modelled, here and in the run counts, the tier expansion and the costs.
- Monotonicity: material efficiency is at most 100 and the structure bonus at most 1, since two negative factors would turn the product around; the documented ranges lie well inside.
- ResolveBuildChain: target quantity, recipe quantities and outputs are at least 1 (an import accepts any target quantity, app/services/plan.py:316); names, prices, cost and value totals, build time and the sort by name are not modelled.
- TopologicalOrder: materials are visited in any order, so among the valid post-orders the one that insertion order picks is not singled out.
- AggregateRawMaterials: the final sort by name is left out, here and for AggregateBuildSteps.
- StructureMaterialBonus: the bucketing of a system's security status into bands (app/services/build_chain.py:53-61) is not part of this model.
- FloorCosts: prices are a map in which a missing type is free; profit per day and the lines shown are not modelled.
- ExpandToTier: inputs of a classified schematic are of lower tier than its output, which is what makes the source's recursion end.
- LeaseExclusion: one shared clock and holder ids that are never reused. That a waiting pod gets in before its deadline is not claimed, since with the default numbers it times out before it may reclaim an expired lease. The waiting loop appears as phases of a state machine, not as a loop.
- ClusterStaysOrderly: a pod that dies inside the body leaves no write on its way that lands later; applying a migration is one block between its beginning and its record, since nobody else is inside.
- RunMigrations: apart from 0001, 0002 and 0008 the migrations only appear as steps that leave the raw tables and the blueprint documents alone; find() yields rows in insertion order.
- BuildLookupCollections: the building of sde_types is left out; its batches are inserted document by document, so a crash may fall anywhere.
- AddReactionFormulas: no reaction formula is listed twice, since concurrent upserts of one id have no fixed winner.
- SetGrouped: 0003 and 0004 are modelled as a whole run; a crash between their chunks is healed by the same documents being set again.
- SyncIndexes: one fixed configuration in which equal record ids mean equal entries; options are opaque values, and the database's refusal of equal keys under another name is not modelled.
- CachedDocsById: entry lifetimes and JSON encoding of documents appear only as entries that may be missing; counters are left out, and a collection does not change during a call.
- ResolveLocations: the remote answers of one call are an arbitrary function of the id, and its exceptions are left out; the lookups of security statuses, planet names and system names (app/services/locations.py:103-221) follow the same three tiers and would add nothing new.
- Import: the parsing of a string by int() and the text of a non-string rig tier are given functions `parse` and `show`; decoding the request body comes before it, and storing the finished document after it, with the database's own refusals such as integers beyond 8 bytes.
- Perform: plan and job ids are arbitrary new ones, as random ids are taken to be.
- PlanStore: timestamps, listing and sorting of plans are left out; new plan and job ids are parameters required to be fresh, and plans are edited by one request at a time.
- Sign-on, the remote API client, message queue workers, metrics, sessions, pages, templates and deployment files: input, output and presentation.
