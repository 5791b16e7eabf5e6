# Chunk-graph builder of the seuron segmentation pipeline

This project models the core of the seuron workflow files: the code that turns
the octree of chunks into the task graphs of a segmentation run. The model is
written in Dafny. Each row of the "## Model" table below paraphrases the contract
of one member, and the verifier proves every such contract.

Five parts are covered.

- **`Segmentation`** covers the two-stage builder of `dags/segmentation_dags.py`. The builder walks the
  chunk iterator from the top level down to the batch level. For every chunk
  it declares the watershed ("ws") and agglomeration ("agg") tasks: a wrap task
  above the batch level, and a batch, remap and optional overlap task at it. It
  also decides their queue and wires the reduction edge into the parent chunk
  and the per-level milestone messages. The class `SegmentationDags` builds the
  graph in place, as the source does with its module-level dictionaries. Its
  methods are proved to follow the pure functions `Process`/`After`, and the
  lemmas state what the built graph is. They give the exact edge set, one
  reduction edge per chunk, no cycle and no dangling dependency. They also show
  that every dictionary lookup of the source hits.
- **`ScalingOverlay`** and **`Scaling`** cover the cluster-scaling tasks the same file adds
  after the loop. These are the reset after watershed, the extra shrink, the
  long-task pool at `HIGH_MIP`, and the final grow back. The model gives the plan,
  the sizes requested, the gates each task waits for and the exact condition
  under which their lookups raise `KeyError`. The graph with the scaling tasks
  is proved acyclic.
- **`Stages`** covers the manager graph: trigger watershed, wait, trigger
  agglomeration, wait, then meshing, the checks, the link and the optional
  evaluation.
- **`Batches`** covers `generate_batches`, the split of the iterator into high-level
  chunks and batch sub-iterators.
- **`Params`** covers `confirm_dag_run` and the defaulting of the `*_PATH` parameters.
- **`Minnie`** covers the single-graph variant `dags/ranl_minnie_400_exp.py` (fixed
  batch level 2 and `HIGH_MIP` 5, a barrier between the two stages) and its
  retry alert.

Shared vocabulary:

- **`Chunks`**: chunks, the parent relation, and the ordering contract the builders
  rely on from the chunk iterator.
- **`Tasks`**: the task nodes and queues.
- **`Graphs`**: paths, and acyclicity from a rank that grows along every edge.

## Model

| member | source | states |
|---|---|---|
| Chunks.Parent | dags/segmentation_dags.py:171-173 | the parent is one level up and its coordinate is the chunk's coordinate halved, rounded down |
| Chunks.Processed | dags/segmentation_dags.py:471-473 | the chunks the driver loop handles are a prefix of the iteration, all at or above the floor, and the loop stops exactly at the first chunk below it |
| Chunks.ProcessedIsLoopPrefix | dags/segmentation_dags.py:471-473 | a loop that stopped at index i (or ran to the end) after only chunks at or above the floor has handled exactly that prefix |
| Chunks.ProcessedMembers | dags/segmentation_dags.py:471-473 | on a top-down iteration the handled chunks are exactly the iterated chunks at or above the floor |
| Segmentation.BatchLevel | dags/segmentation_dags.py:134-136 | the local batch level is BATCH_MIP clamped to the top level: at most both, and equal to one of them |
| Segmentation.SegmentationDags.constructor | dags/segmentation_dags.py:462-469 | the builder starts with no chunk tasks and no dependencies; the overlap milestone exists only when OVERLAP is set and the top level is not BATCH_MIP |
| Segmentation.SegmentationDags.Link | dags/segmentation_dags.py:165-169 | set_upstream/set_downstream between two existing tasks adds exactly that one dependency |
| Segmentation.SegmentationDags.OpenStage | dags/segmentation_dags.py:475-483 | a level's milestone, and at the batch level the remap milestone with its edge to mark-done, is created the first time the level is met; meeting the level again changes nothing |
| Segmentation.SegmentationDags.OpenLevels | dags/segmentation_dags.py:475-483 | opening a level in both stages adds exactly the level milestones and the remap-to-mark-done edges |
| Segmentation.SegmentationDags.LinkNeighbours | dags/segmentation_dags.py:157-162 | the overlap task of a chunk waits for every already-built neighbour's agg task, and each such neighbour's overlap task waits for this chunk's agg task |
| Segmentation.SegmentationDags.AddWrap | dags/segmentation_dags.py:148-151 | above the batch level a wrap task on the level's queue is recorded and the level milestone waits for it |
| Segmentation.SegmentationDags.AddOverlap | dags/segmentation_dags.py:155-164 | with overlap on, the agg overlap task runs on the atomic queue, is wired to its neighbours and gates the overlap milestone |
| Segmentation.SegmentationDags.AddBatch | dags/segmentation_dags.py:152-169 | at the batch level a batch task and a remap task on the atomic queue are recorded, plus the agg overlap task when overlap is on, with exactly the batch-level dependencies |
| Segmentation.SegmentationDags.AddRemap | dags/segmentation_dags.py:165-169 | the remap task waits for the top chunk's task and gates the remap milestone; the batch task waits for init and gates its level milestone |
| Segmentation.SegmentationDags.LinkToParent | dags/segmentation_dags.py:171-178 | below the top, each stage gets one reduction edge to the parent's task, from the overlap task for agg at BATCH_MIP with overlap on and from the generate task otherwise |
| Segmentation.SegmentationDags.ProcessCompositeTasks | dags/segmentation_dags.py:133-178 | handling one chunk leaves the builder exactly in the state the specification function Process gives |
| Segmentation.SegmentationDags.ProcessAboveBatch | dags/segmentation_dags.py:148-151 | a chunk above the batch level adds one wrap task per stage and only the dependencies on the level milestones |
| Segmentation.SegmentationDags.ProcessAtBatch | dags/segmentation_dags.py:152-169 | a batch-level chunk adds batch and remap tasks in both stages, the overlap task when overlap is on, and their dependencies |
| Segmentation.SegmentationDags.HandleChunk | dags/segmentation_dags.py:471-484 | one turn of the driver loop moves the builder from After(p) to After(p + [c]) |
| Segmentation.SegmentationDags.BuildChunkGraph | dags/segmentation_dags.py:471-484 | on a top-down iteration the driver loop never looks up a missing task and ends in the state After(handled chunks), the handled chunks being those down to the first one below the local batch level |
| Segmentation.SegmentationDags.ScaleReset | dags/segmentation_dags.py:489-491 | the reset of the short-task cluster to 20 is added after the watershed remap milestone |
| Segmentation.SegmentationDags.ScaleExtraDown | dags/segmentation_dags.py:550-554 | the extra shrink to twice the chunk count at BATCH_MIP+2 is added, gated by the milestone of BATCH_MIP+1 |
| Segmentation.SegmentationDags.ScaleDownAtHigh | dags/segmentation_dags.py:556-559 | the shrink to 0 is added, gated by the milestone of HIGH_MIP-1 |
| Segmentation.SegmentationDags.LinkUpLong | dags/segmentation_dags.py:565-566 | the long-pool grow waits for every task at level HIGH_MIP-1 |
| Segmentation.SegmentationDags.ScaleUpLong | dags/segmentation_dags.py:562-566 | the long-task cluster grows to between 2 and max(1, tasks at HIGH_MIP // 8), gated by the tasks at HIGH_MIP-1 |
| Segmentation.SegmentationDags.ScaleDownLong | dags/segmentation_dags.py:568-569 | the long-task cluster is shrunk to 0 after the top-level milestone |
| Segmentation.SegmentationDags.ScaleRestore | dags/segmentation_dags.py:571-574 | the short-task cluster grows back to between 20 and the number of watershed remap tasks after the top-level milestone |
| Segmentation.SegmentationDags.ExtraDownBlock | dags/segmentation_dags.py:550-554 | when the extra shrink is planned the block succeeds exactly when levels BATCH_MIP+1 and BATCH_MIP+2 were opened, and then adds the extra shrink in both stages |
| Segmentation.SegmentationDags.LongPoolStage | dags/segmentation_dags.py:557-569 | one stage gets its shrink, long-pool grow and long-pool shrink, in that order |
| Segmentation.SegmentationDags.LongPoolBlock | dags/segmentation_dags.py:556-569 | when the top reaches HIGH_MIP the block succeeds exactly when levels HIGH_MIP-1, HIGH_MIP and the top were opened, and then adds the long-pool tasks in both stages |
| Segmentation.SegmentationDags.RestoreBlock | dags/segmentation_dags.py:571-574 | when the grow back is planned the block succeeds exactly when the top level was opened, and then adds the grow back in both stages |
| Segmentation.SegmentationDags.ResetBlock | dags/segmentation_dags.py:486-491 | the block succeeds exactly when it has fewer than 100 watershed remap tasks or the remap milestone exists, and then adds the reset when there are 100 or more |
| Segmentation.SegmentationDags.AddScaling | dags/segmentation_dags.py:486-574 | the scaling code runs without KeyError exactly when all its lookups hit, and then yields the graph WithScaling gives |
| Segmentation.GenerateKey | dags/segmentation_dags.py:148-154 | after the loop a stage has a generate task for a chunk iff the chunk was handled, and its operator is wrap on the level's queue above the batch level and batch on the atomic queue at it |
| Segmentation.RemapKey | dags/segmentation_dags.py:166 | a remap task exists iff the chunk was handled and lies at the batch level; it runs on the atomic queue |
| Segmentation.OverlapKey | dags/segmentation_dags.py:155-156 | an overlap task exists iff overlap is effectively on and the chunk is a handled batch-level chunk |
| Segmentation.MilestoneKey | dags/segmentation_dags.py:468-483 | the milestones are exactly the overlap milestone (when overlap is on), the level milestones of the handled levels, and the remap milestones once the batch level is reached |
| Segmentation.NoScalingYet | dags/segmentation_dags.py:471-484 | the chunk loop creates no scaling task |
| Segmentation.ReadyToProcess | dags/segmentation_dags.py:157-178 | on a top-down iteration every lookup process_composite_tasks makes hits: the top chunk's task, built neighbours' overlap tasks and the parent's tasks all exist |
| Segmentation.ReopenLevel | dags/segmentation_dags.py:476-483 | a level is open in both stages or in neither, and an open level already has its milestones and mark-done edges |
| Segmentation.MarkEdgeKey | dags/segmentation_dags.py:481-483 | once the batch level is reached both remap milestones precede their stage's mark-done task |
| SegmentationEdges.ReductionEdgeKey | dags/segmentation_dags.py:171-178 | a generate-to-generate dependency exists iff it joins a handled chunk below the top to its parent in the same stage, and is not the agg edge that the overlap task takes over |
| SegmentationEdges.OverlapReductionKey | dags/segmentation_dags.py:175-176 | an overlap-to-generate dependency exists iff it is the agg reduction edge of a handled chunk at BATCH_MIP with overlap on |
| SegmentationEdges.LevelEdgeKey | dags/segmentation_dags.py:148-165 | a generate task precedes a level milestone iff it is a handled chunk's task and the milestone is of its own stage and level |
| SegmentationEdges.RemapGateKey | dags/segmentation_dags.py:168 | a remap task waits for the top chunk's task of its stage, and for no other generate task |
| SegmentationEdges.InitEdgeKey | dags/segmentation_dags.py:169 | init precedes exactly the batch-level generate tasks of its stage |
| SegmentationEdges.RemapDoneKey | dags/segmentation_dags.py:167 | the remap milestone waits for exactly the remap tasks of its stage |
| SegmentationEdges.MarkDoneKey | dags/segmentation_dags.py:481-483 | the remap milestone precedes mark-done in the same stage iff the batch level was reached |
| SegmentationEdges.OverlapDoneKey | dags/segmentation_dags.py:164 | the overlap milestone waits for exactly the overlap tasks |
| SegmentationEdges.NeighbourKey | dags/segmentation_dags.py:157-162 | an agg task precedes an overlap task iff the two chunks are neighbours at the batch level and the earlier-built one links them; the linking depends on iteration order, as in the source |
| SegmentationEdges.EdgeKey | dags/segmentation_dags.py:133-178 | the built dependencies are exactly the expected ones, kind by kind |
| SegmentationEdges.OneReductionEdge | dags/segmentation_dags.py:171-178 | every handled chunk has in each stage exactly one reduction edge, to its parent, when below the top, and none at the top |
| SegmentationEdges.EdgesRaiseRank | dags/segmentation_dags.py:133-178 | every dependency goes from a lower to a higher rank |
| SegmentationEdges.BuiltGraphAcyclic | dags/segmentation_dags.py:133-178 | the stage graphs built by the loop have no cycle |
| SegmentationEdges.EdgesDeclared | dags/segmentation_dags.py:133-178 | every dependency joins two tasks that exist |
| Scaling.Plan | dags/segmentation_dags.py:550-574 | whenever a shrink of the short-task cluster is planned, a grow back is planned too; the long-pool tasks come together exactly when the top reaches HIGH_MIP; the extra shrink needs more than two levels between BATCH_MIP and min(HIGH_MIP, top) |
| Scaling.LongPoolSize | dags/segmentation_dags.py:562 | the long-task pool size is max(1, n // 8) |
| Scaling.GapOfTwo | dags/segmentation_dags.py:571-574 | with the top exactly two levels above BATCH_MIP and below HIGH_MIP, only the grow back is planned |
| ScalingOverlay.GatesMembers | dags/segmentation_dags.py:550-574 | the gate edges of a scaling task are exactly those from its gating milestone or level tasks |
| ScalingOverlay.ResetPartMembers | dags/segmentation_dags.py:489-491 | the reset is planned exactly for the watershed stage, with 100 or more watershed remap tasks |
| ScalingOverlay.ExtraDownPartMembers | dags/segmentation_dags.py:550-551 | the extra shrink is planned in each stage exactly when min(HIGH_MIP, top) - BATCH_MIP > 2 |
| ScalingOverlay.LongPoolPartMembers | dags/segmentation_dags.py:556-557 | the three long-pool tasks are planned in each stage exactly when the top reaches HIGH_MIP |
| ScalingOverlay.RestorePartMembers | dags/segmentation_dags.py:571-572 | the grow back is planned in each stage exactly under the source's condition |
| ScalingOverlay.OrderMembers | dags/segmentation_dags.py:486-574 | the order in which the source adds scaling tasks contains exactly the planned ones |
| ScalingOverlay.KeysMembers | dags/segmentation_dags.py:486-574 | the scaling tasks present after the code are exactly the planned ones |
| ScalingOverlay.ApplyTasks | dags/segmentation_dags.py:550-574 | adding scaling tasks one by one keeps the chunk tasks and records each added one with its operation |
| ScalingOverlay.ApplyEdges | dags/segmentation_dags.py:550-574 | adding scaling tasks one by one adds exactly their gate edges |
| ScalingOverlay.WithScalingTasks | dags/segmentation_dags.py:550-574 | the scaling code leaves the chunk tasks and milestones unchanged and adds exactly the planned scaling tasks with their sizes |
| ScalingOverlay.WithScalingEdges | dags/segmentation_dags.py:550-574 | the scaling code adds exactly the gate edges of the planned scaling tasks |
| ScalingOverlay.AncestorLevels | dags/segmentation_dags.py:471-483 | every level between a handled chunk and the top has been opened |
| ScalingOverlay.LevelsWithin | dags/segmentation_dags.py:471-483 | only levels between the local batch level and the top are opened |
| ScalingOverlay.FullBuildLevels | dags/segmentation_dags.py:471-483 | after the whole loop the opened levels are exactly those from the local batch level to the top |
| ScalingOverlay.RemapDoneOnceBatchLevel | dags/segmentation_dags.py:481-482 | once a batch-level chunk is handled the watershed remap milestone exists |
| ScalingOverlay.FullBuildMilestones | dags/segmentation_dags.py:471-483 | after the whole loop the remap milestone exists and the level milestones are exactly those of the local batch level up to the top |
| ScalingOverlay.LookupsOnLevels | dags/segmentation_dags.py:550-574 | when the opened levels are those from the batch level to the top, the scaling lookups hit |
| ScalingOverlay.FullBuildLookups | dags/segmentation_dags.py:550-569 | after a full loop the scaling code raises KeyError exactly when the top reaches HIGH_MIP and HIGH_MIP is not above the local batch level |
| ScalingOverlay.OverlayEdgesDeclared | dags/segmentation_dags.py:550-574 | every gate edge of a scaling task joins two existing tasks |
| ScalingOverlay.PlanRoles | dags/segmentation_dags.py:550-574 | each role is in the plan exactly under the condition of its block |
| ScalingOverlay.GateRaisesRank | dags/segmentation_dags.py:550-574 | each gate edge goes up in rank |
| ScalingOverlay.OverlayRaisesRank | dags/segmentation_dags.py:486-574 | every dependency of the graph with scaling tasks goes up in rank |
| ScalingOverlay.OverlayAcyclic | dags/segmentation_dags.py:486-574 | the stage graphs with their scaling tasks have no cycle |
| Stages.EdgeMembers | dags/segmentation_dags.py:511-547 | a manager dependency is a declared task and one of the tasks the chain puts downstream of it |
| Stages.ManagerEdgesDeclared | dags/segmentation_dags.py:511-547 | every manager dependency joins two declared tasks; the evaluation exists only with GT_PATH |
| Stages.ManagerAcyclic | dags/segmentation_dags.py:511-547 | the manager graph has no cycle |
| Stages.StagesInOrder | dags/segmentation_dags.py:511 | start, reset flags, trigger and wait for ws, trigger and wait for agg, meshing and end form a path |
| Stages.AggWaitsForWs | dags/segmentation_dags.py:511-512 | agglomeration is triggered only after the watershed wait, and watershed only after the flag reset |
| Stages.EndWaitsFor | dags/segmentation_dags.py:535-547 | the end message waits for meshing and the link, and for the evaluation exactly when there is a ground truth |
| Stages.ManagerSinks | dags/segmentation_dags.py:511-547 | the tasks nothing waits for are the end message and the three cluster-scaling tasks |
| Stages.ReachesEnd | dags/segmentation_dags.py:511-547 | every other task reaches the end message along the graph |
| Stages.BroadcastWithoutEvaluation | dags/segmentation_dags.py:517-547 | the neuroglancer link is broadcast exactly when there is no evaluation task, i.e. exactly when no evaluation reports to the end message |
| Stages.ScalingTasksAreSinks | dags/segmentation_dags.py:494-514 | the manager's scaling tasks are exactly its sinks other than the end message; the only grow is global_start, from 20 to cluster1_size workers of cluster 1, and both shrinks go to 0 |
| Batches.GenerateBatches | dags/segmentation_dags.py:181-207 | the loop returns the high-level chunks and batches of the specification function BatchesOf |
| Batches.ScanPrefixStep | dags/segmentation_dags.py:190-203 | the loop's variables after one more chunk are one step from those before it |
| Batches.SmallVolumeIsOneBatch | dags/segmentation_dags.py:189-205 | with a top level of at most 3 the whole iterator is the only batch and there are no high-level chunks |
| Batches.StopIsFinal | dags/segmentation_dags.py:200-201 | once the loop has broken out, later chunks change nothing |
| Batches.StopsBelowBatchLevel | dags/segmentation_dags.py:200-201 | the loop breaks exactly at a chunk below the batch level |
| Batches.BatchLevelNeverFalls | dags/segmentation_dags.py:191-194 | the batch level starts at 3 and never goes down |
| Batches.ScanCounts | dags/segmentation_dags.py:192-199 | mip_tasks counts the trailing run of high-level chunks at current_mip |
| Batches.RisesOnlyAfterBusyLevel | dags/segmentation_dags.py:192-196 | the batch level moves only to a chunk that opens a new level, after more than 50 consecutive chunks at the level above |
| Batches.RaisingChunkStartsNoBatch | dags/segmentation_dags.py:191-199 | the chunk that raises the batch level is at the new batch level but is listed as a high-level chunk and starts no batch |
| Batches.SplitStep | dags/segmentation_dags.py:190-203 | one corrected turn keeps high-level chunks above, and batches at, the batch level |
| Batches.ScanSplit | dags/segmentation_dags.py:181-207 | the corrected loop keeps that split over a top-down iteration |
| Batches.CoverStep | dags/segmentation_dags.py:190-203 | one corrected turn keeps every handled chunk accounted for: above the batch level among the high-level chunks, at it as the start of a batch |
| Batches.ScanCovers | dags/segmentation_dags.py:181-207 | the corrected loop accounts for every chunk of a top-down iteration at or above the final batch level |
| Batches.CorrectedSplitsAtBatchLevel | dags/segmentation_dags.py:181-207 | corrected, the high-level chunks are exactly the iterated chunks above the final batch level and the batches start exactly at the iterated chunks of that level, so every subtree below it is in a batch |
| Params.Plus | dags/segmentation_dags.py:121 | Python `+` concatenates two strings or two lists, adds two numbers (a float when either is one), and raises TypeError otherwise, on dictionaries too |
| Params.ConfirmDagRun | dags/segmentation_dags.py:124-130 | the triggered run is skipped exactly when the skip flag is set and truthy, with a notice naming the operation; otherwise the run object is returned unchanged |
| Params.ClearedFlagRuns | dags/segmentation_dags.py:127-130 | a missing or falsy skip flag lets the run proceed |
| Params.PathNamesWellNamed | dags/segmentation_dags.py:118-119 | SCRATCH_PATH, WS_PATH and SEG_PATH are distinct and none is a prefix key or NAME |
| Params.DefaultsComplete | dags/segmentation_dags.py:118-121 | without an exception, the parameters gain exactly the missing paths, keep every present value, and each added path is its prefix + NAME |
| Params.DefaultsKeys | dags/segmentation_dags.py:118-121 | without an exception the keys afterwards are the old keys plus the path keys |
| Params.DefaultsKeep | dags/segmentation_dags.py:118-121 | every value already present is kept |
| Params.DefaultsAdded | dags/segmentation_dags.py:118-121 | every missing path becomes its prefix + NAME |
| Params.DefaultOneFacts | dags/segmentation_dags.py:119-121 | one turn keeps every present value and adds at most its own path |
| Params.DefaultsIdempotent | dags/segmentation_dags.py:118-121 | running the defaulting again changes nothing |
| Params.PresentPathsKept | dags/segmentation_dags.py:120 | when every path is set the parameters are left as they are |
| Params.DefaultsKeyError | dags/segmentation_dags.py:121 | a KeyError names a missing key, either NAME or a prefix key |
| Params.ParamStore.constructor | dags/segmentation_dags.py:115 | the store holds the parameters read from the variable |
| Params.ParamStore.DefaultPaths | dags/segmentation_dags.py:118-121 | the in-place loop ends with the parameters and exception of the specification function Defaults |
| Minnie.MinnieOp | dags/ranl_minnie_400_exp.py:189-203 | the single "composite" queue is used exactly from level 5 up, and a batch task exactly at level 2 |
| Minnie.MinnieDag.constructor | dags/ranl_minnie_400_exp.py:256-260 | the variant starts with empty dictionaries and no dependencies |
| Minnie.MinnieDag.Link | dags/ranl_minnie_400_exp.py:205-211 | linking two existing tasks adds exactly that dependency |
| Minnie.MinnieDag.ProcessCompositeTasks | dags/ranl_minnie_400_exp.py:185-218 | handling one chunk leaves the graph exactly in the state MProcess gives |
| Minnie.MinnieDag.AddBatchLevel | dags/ranl_minnie_400_exp.py:199-211 | a level-2 chunk gets batch and remap tasks in both stages on the atomic queue, with its six dependencies |
| Minnie.MinnieDag.LinkBatch | dags/ranl_minnie_400_exp.py:205-211 | the remaps wait for the top tasks, init precedes the batch tasks, the ws remap precedes the agg init and the agg remap precedes Finish |
| Minnie.MinnieDag.AddReduction | dags/ranl_minnie_400_exp.py:214-218 | below the top each stage gets its reduction edge to the parent |
| Minnie.MinnieDag.BuildGraph | dags/ranl_minnie_400_exp.py:262-266 | the loop ends in the state MAfter of the chunks down to the first below level 2 |
| Minnie.MGenerateKey | dags/ranl_minnie_400_exp.py:196-203 | a stage has a generate task exactly for each handled chunk, with the operator MinnieOp gives |
| Minnie.MRemapKey | dags/ranl_minnie_400_exp.py:201-203 | remap tasks exist exactly for handled level-2 chunks |
| Minnie.Ready | dags/ranl_minnie_400_exp.py:205-218 | on a top-down iteration every lookup of the variant hits |
| Minnie.NoTasksBelowBatchTop | dags/ranl_minnie_400_exp.py:262-264 | a volume whose top is below level 2 produces no task |
| Minnie.MEdgeKey | dags/ranl_minnie_400_exp.py:185-218 | the built dependencies are exactly the expected ones |
| Minnie.Barrier | dags/ranl_minnie_400_exp.py:208-211 | the agg init waits for exactly the ws remaps, Finish waits for exactly the agg remaps, and the agg init precedes exactly the level-2 agg tasks |
| Minnie.WsBeforeAgg | dags/ranl_minnie_400_exp.py:209-210 | every ws remap precedes every level-2 agg task through the agg init |
| Minnie.ReductionToParent | dags/ranl_minnie_400_exp.py:214-218 | a handled chunk's task precedes another of the same stage iff it is below the top and the other is its parent |
| Minnie.MEdgesRaiseRank | dags/ranl_minnie_400_exp.py:185-218 | every dependency goes up in rank |
| Minnie.MinnieAcyclic | dags/ranl_minnie_400_exp.py:185-218 | the variant's graph has no cycle |
| Minnie.MEdgesDeclared | dags/ranl_minnie_400_exp.py:185-218 | every dependency joins two existing tasks |
| Minnie.RetryAlert | dags/ranl_minnie_400_exp.py:93-96 | an alert is sent exactly from the third try on, reporting the try number minus one |

## Left out

- The workflow engine (scheduling, running tasks, retries, XCom) is not modelled. Operators become task identities with their kind and queue.
- Slack messages, `create_info`, evaluation, neuroglancer-link payloads, `process_infos` and the cluster API are not modelled. Their operators appear only as graph nodes. The alert text is reduced to the reported count.
- The chunk iterator's bounding-box arithmetic and neighbour search are inputs. The model takes the chunk sequence, the top level and a neighbour function, and assumes the top-down order the builders rely on (`ChunkIterator.Valid`).
- The contents of `param` (the Airflow Variable) are a map of JSON values: strings, integers, floats, booleans, lists, objects and null. Reading it from the Variable store and writing it back are left out.
- `segmentation_op.py`, `param_default.py` and `igneous_dag.py` are not part of this model. They define the operators, the parameter defaults and the meshing graph, whose internals the builder only calls.
- Mount secrets and the image name (`cm`, `image`) are passed through unchanged by the source. They do not change the graph and are left out.
- `OVERLAP` being switched off when the top level equals BATCH_MIP (lines 465-466) is modelled as the derived flag `OverlapOn`, not as a write to the parameter map.
- The reduction edge from the overlap task tests the unclamped BATCH_MIP (line 175), as the code does, not the clamped batch level. The two differ only when the top is below BATCH_MIP, and then no handled chunk at that level has a parent.
- Segmentation.SegmentationDags.AddScaling: when a lookup misses, the model reports `ok == false` and does not describe the partial state. In the source the KeyError aborts the whole file.
- The init and Finish tasks of the variant (ranl_minnie_400_exp.py lines 222-245) are taken to exist from the start, since they are built before the loop.

## Findings

| source | as written | input that shows it | evidently intended | confidence | as-written member | corrected member |
|---|---|---|---|---|---|---|
| dags/segmentation_dags.py:191-199 | the chunk that raises batch_mip to its own level is appended to the high-level chunks and starts no sub-iterator | a volume with more than 50 chunks at level 5 (e.g. a 4×4×4 grid at level 5, top level 7): at the first level-4 chunk batch_mip becomes 4, and that chunk's subtree is in no batch while it is itself treated as a single high-level chunk | that chunk starts a batch like the other chunks of the new batch level, so the high-level chunks are exactly those above the batch level and every chunk at it starts a batch | not executed | Batches.RaisingChunkStartsNoBatch | Batches.CorrectedSplitsAtBatchLevel |
