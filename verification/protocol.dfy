/** The records that cross the boundary between the mining coordinator and its
    workers, and the results the hashing primitive hands back. */
module Protocol {
  import opened Wrappers

  /** The event kind every candidate event is built with (a short text note). */
  const TextNoteKind: int := 1

  /** The candidate event a worker mines. The coordinator serialises it before
      posting; serialisation is treated as opaque, so the record itself is posted. */
  datatype CandidateEvent = CandidateEvent(
    pubkey: string,
    kind: int,
    tags: seq<seq<string>>,
    content: string,
    createdAt: int)

  /** Best proof of work a worker has seen so far, as reported by the primitive. */
  datatype BestPowData = BestPowData(bestPow: int, nonce: string, hash: string)

  /** What the primitive returns on completion. `event` is the finalised event,
      carried opaquely; times and rates are floating point, carried as reals. */
  datatype MinedResult = MinedResult(event: string, totalTime: real, hashRate: real)

  /** Messages the coordinator (or anyone) posts to a worker. `id` and
      `totalWorkers` may be missing from a message, hence the options. */
  datatype Request =
    | MineRequest(event: CandidateEvent, difficulty: int, id: Option<int>, totalWorkers: Option<int>)
    | CancelRequest(id: Option<int>)
    | OtherRequest(id: Option<int>)
  {
    /** The `id` field every message carries (possibly undefined). */
    function Id(): Option<int> {
      match this
      case MineRequest(_, _, id, _) => id
      case CancelRequest(id) => id
      case OtherRequest(id) => id
    }
  }

  /** Messages a worker posts back to the coordinator. `Unrecognised` stands for a
      message whose `type` is none of the three the coordinator handles. */
  datatype WorkerMessage =
    | Progress(workerId: Option<int>, hashRate: real, bestPowData: Option<BestPowData>)
    | Result(data: Option<MinedResult>, workerId: Option<int>)
    | Error(error: string, workerId: Option<int>)
    | Unrecognised
  {
    /** A message that ends a worker's run: its result or its error. */
    predicate IsFinal() {
      Result? || Error?
    }
  }
}
