/** The mining worker of src/mine.worker.ts: module-level flags, the `onmessage`
    handler and the messages it posts back. The handler is an async function that
    suspends at `await init()`; it is modelled as two steps, `OnMessage` (the part
    that runs when a message arrives) and `ResumeMine` (the part that runs once
    `init()` settles), so that messages arriving in between are handled with the
    flags as they then are. */
module Worker {
  import opened Wrappers
  import opened Protocol
  import NonceSpace

  /** Message of the TypeError thrown by `BigInt(undefined)`. */
  const BigIntOfUndefined: string := "Cannot convert undefined to a BigInt"

  /** One invocation of the hashing primitive: the event, the difficulty, the
      start nonce and step, and what `shouldCancel()` answers while it runs. */
  datatype MineCall = MineCall(event: CandidateEvent, difficulty: int, assignment: NonceSpace.Assignment, cancelRequested: bool)

  /** What the primitive does when invoked, as seen from the worker: the progress
      callbacks it makes, in order, then how it ends. */
  datatype ProgressReport = ProgressReport(hashRate: real, bestPowData: Option<BestPowData>)
  datatype Ending = Returned(value: Option<MinedResult>) | Threw(message: string)
  datatype PrimitiveRun = PrimitiveRun(reports: seq<ProgressReport>, ending: Ending)

  /** The message `reportProgress` posts: `bestPowData` only when one was supplied. */
  function ProgressMessage(workerId: Option<int>, r: ProgressReport): WorkerMessage {
    Progress(workerId, r.hashRate, r.bestPowData)
  }

  function FinalMessage(workerId: Option<int>, e: Ending): WorkerMessage {
    match e
    case Returned(v) => Result(v, workerId)
    case Threw(m) => Error(m, workerId)
  }

  function ProgressMessages(workerId: Option<int>, reports: seq<ProgressReport>): seq<WorkerMessage> {
    if reports == [] then []
    else ProgressMessages(workerId, reports[..|reports| - 1]) + [ProgressMessage(workerId, reports[|reports| - 1])]
  }

  /** The primitive's invocation for a resumed handler, or None when `init()`
      failed or `BigInt` threw on an undefined id or worker count. */
  function Invocation(workerId: Option<int>, request: Request, cancelRequested: bool, initError: Option<string>): Option<MineCall>
    requires request.MineRequest?
  {
    if initError.Some? || workerId.None? || request.totalWorkers.None? then None
    else Some(MineCall(request.event, request.difficulty,
                       NonceSpace.Allocate(workerId.value, request.totalWorkers.value), cancelRequested))
  }

  /** Everything a resumed handler posts. */
  function Continuation(workerId: Option<int>, request: Request, cancelRequested: bool, initError: Option<string>,
                        primitive: MineCall -> PrimitiveRun): seq<WorkerMessage>
    requires request.MineRequest?
  {
    if initError.Some? then [Error(initError.value, workerId)]
    else match Invocation(workerId, request, cancelRequested, initError)
      case None => [Error(BigIntOfUndefined, workerId)]
      case Some(call) =>
        var run := primitive(call);
        ProgressMessages(workerId, run.reports) + [FinalMessage(workerId, run.ending)]
  }

  /** Number of messages that end a run. */
  function CountFinal(msgs: seq<WorkerMessage>): nat {
    if msgs == [] then 0
    else CountFinal(msgs[..|msgs| - 1]) + (if msgs[|msgs| - 1].IsFinal() then 1 else 0)
  }

  /** The message carries the worker id `workerId`. */
  predicate TaggedWith(m: WorkerMessage, workerId: Option<int>) {
    match m
    case Progress(w, _, _) => w == workerId
    case Result(_, w) => w == workerId
    case Error(_, w) => w == workerId
    case Unrecognised => false
  }

  /** Each progress callback becomes one progress message with the worker's id,
      the reported rate and exactly the reported best proof of work. */
  lemma {:induction false} ProgressMessagesMirrorReports(workerId: Option<int>, reports: seq<ProgressReport>)
    ensures |ProgressMessages(workerId, reports)| == |reports|
    ensures forall i | 0 <= i < |reports| ::
      ProgressMessages(workerId, reports)[i] == Progress(workerId, reports[i].hashRate, reports[i].bestPowData)
    ensures CountFinal(ProgressMessages(workerId, reports)) == 0
  {
    if reports != [] {
      var prefix := reports[..|reports| - 1];
      ProgressMessagesMirrorReports(workerId, prefix);
      var msgs := ProgressMessages(workerId, reports);
      assert msgs[..|msgs| - 1] == ProgressMessages(workerId, prefix);
    }
  }

  /** A resumed handler posts progress messages and then exactly one result or
      error message, the last one, all tagged with the worker's current id. */
  lemma {:induction false} AcceptedMineEndsWithOneFinalMessage(workerId: Option<int>, request: Request,
      cancelRequested: bool, initError: Option<string>, primitive: MineCall -> PrimitiveRun)
    requires request.MineRequest?
    ensures var msgs := Continuation(workerId, request, cancelRequested, initError, primitive);
      msgs != [] && msgs[|msgs| - 1].IsFinal() && CountFinal(msgs) == 1 &&
      (forall i | 0 <= i < |msgs| :: TaggedWith(msgs[i], workerId)) &&
      (forall i | 0 <= i < |msgs| - 1 :: msgs[i].Progress?)
  {
    var msgs := Continuation(workerId, request, cancelRequested, initError, primitive);
    if initError.None? && workerId.Some? && request.totalWorkers.Some? {
      var run := primitive(Invocation(workerId, request, cancelRequested, initError).value);
      ProgressMessagesMirrorReports(workerId, run.reports);
      assert msgs[..|msgs| - 1] == ProgressMessages(workerId, run.reports);
    } else {
      assert msgs[..|msgs| - 1] == [];
    }
  }

  class MineWorker {
    var mining: bool
    var miningCancelled: bool
    var workerId: Option<int>
    /** The `mine` request whose handler is suspended at `await init()`. */
    var pending: Option<Request>
    /** Messages posted to the coordinator, in order. */
    var outbox: seq<WorkerMessage>
    /** Invocations of the hashing primitive, in order. */
    ghost var calls: seq<MineCall>

    /** A handler is suspended exactly while mining, and only for a `mine` request. */
    ghost predicate Valid() reads this {
      (mining <==> pending.Some?) && (pending.Some? ==> pending.value.MineRequest?)
    }

    constructor ()
      ensures Valid()
      ensures !mining && !miningCancelled && workerId.None? && pending.None?
      ensures outbox == [] && calls == []
    {
      mining, miningCancelled, workerId, pending := false, false, None, None;
      outbox, calls := [], [];
    }

    /** The cancellation query handed to the primitive. */
    predicate ShouldCancel() reads this {
      miningCancelled
    }

    /** The handler up to `await init()`: every message overwrites the worker id;
        a `mine` request is accepted only when not mining, and then clears the
        cancel flag and sets `mining`; a `cancel` request sets the cancel flag. */
    method OnMessage(msg: Request)
      requires Valid()
      modifies this
      ensures Valid()
      ensures workerId == msg.Id()
      ensures outbox == old(outbox) && calls == old(calls)
      ensures msg.MineRequest? && !old(mining) ==> mining && !ShouldCancel() && pending == Some(msg)
      ensures msg.MineRequest? && old(mining) ==>
        mining && miningCancelled == old(miningCancelled) && pending == old(pending)
      ensures msg.CancelRequest? ==> ShouldCancel() && mining == old(mining) && pending == old(pending)
      ensures msg.OtherRequest? ==>
        mining == old(mining) && miningCancelled == old(miningCancelled) && pending == old(pending)
    {
      workerId := msg.Id();
      if msg.MineRequest? && !mining {
        miningCancelled := false;
        mining := true;
        pending := Some(msg);
      } else if msg.CancelRequest? {
        miningCancelled := true;
      }
    }

    /** The handler after `init()` settles (`initError` is its rejection message,
        if any): derive the start nonce and step, run the primitive, post its
        progress and then its result, or post the error thrown on the way; in
        every case `mining` ends false. */
    method ResumeMine(initError: Option<string>, primitive: MineCall -> PrimitiveRun)
      requires Valid() && pending.Some?
      modifies this
      ensures Valid() && !mining && pending.None?
      ensures miningCancelled == old(miningCancelled) && workerId == old(workerId)
      ensures outbox == old(outbox) +
        Continuation(old(workerId), old(pending).value, old(miningCancelled), initError, primitive)
      ensures var call := Invocation(old(workerId), old(pending).value, old(miningCancelled), initError);
        calls == old(calls) + (if call.Some? then [call.value] else [])
    {
      var request := pending.value;
      if initError.Some? {
        outbox := outbox + [Error(initError.value, workerId)];
      } else if workerId.None? || request.totalWorkers.None? {
        outbox := outbox + [Error(BigIntOfUndefined, workerId)];
      } else {
        var call := MineCall(request.event, request.difficulty,
                             NonceSpace.Allocate(workerId.value, request.totalWorkers.value), ShouldCancel());
        calls := calls + [call];
        var run := primitive(call);
        var i := 0;
        while i < |run.reports|
          invariant 0 <= i <= |run.reports|
          invariant outbox == old(outbox) + ProgressMessages(workerId, run.reports[..i])
          invariant miningCancelled == old(miningCancelled) && workerId == old(workerId)
          invariant calls == old(calls) + [call]
        {
          assert run.reports[..i + 1][..i] == run.reports[..i];
          outbox := outbox + [ProgressMessage(workerId, run.reports[i])];
          i := i + 1;
        }
        assert run.reports[..i] == run.reports;
        outbox := outbox + [FinalMessage(workerId, run.ending)];
      }
      mining := false;
      pending := None;
    }
  }
}
