/**
 * The nodes of the per-stage task graphs and what the builders record about
 * them. A node is identified the way the workflow engine identifies it, by
 * its task id: "composite_chunk_{stage}_{tag}" and "remap_chunk_{stage}_{tag}"
 * for chunk work, where the tag "{level}_{x}_{y}_{z}" becomes the Chunk value.
 */
module Tasks {
  import opened Chunks

  /** What a chunk node runs. */
  datatype Kind = Wrap | Batch | RemapKind | OverlapKind

  /**
   * Worker queues: "atomic" for the many small tasks, "composite_<level>"
   * for the per-level queues of the deep levels, and the single
   * "composite" queue of the older single-graph variant.
   */
  datatype Queue = Atomic | PerLevel(level: nat) | Composite

  /** A chunk operator: its kind and its queue. */
  datatype Op = Op(kind: Kind, queue: Queue)

  /** The cluster-scaling nodes a stage graph may carry. */
  datatype ScaleRole = ResetAfterWs | ExtraDown | Down | UpLong | DownLong | Up

  /** The task nodes of the stage graphs. */
  datatype Task =
    | Generate(stage: Stage, chunk: Chunk)  // composite_chunk_{stage}_{tag}: wrap or batch
    | Overlap(chunk: Chunk)                  // overlap pass of the agglomeration stage
    | Remap(stage: Stage, chunk: Chunk)      // remap_chunk_{stage}_{tag}
    | Init(stage: Stage)                     // Init_Watershed / Init_Agglomeration
    | LevelDone(stage: Stage, level: nat)    // "{stage}: MIP {level} finished" milestone
    | RemapDone(stage: Stage)                // "{stage}: Remaping finished" milestone
    | OverlapDone                            // "overlapped agglomeration finished" milestone
    | MarkDone(stage: Stage)                 // marks the stage done for the manager graph
    | Finish                                 // "Finish" of the single-graph variant
    | Scale(stage: Stage, role: ScaleRole)   // cluster-scaling node of a stage graph

  /** A dependency: the first task must complete before the second starts. */
  type Edge = (Task, Task)
}
