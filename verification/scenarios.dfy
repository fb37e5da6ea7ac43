/** Client code: runs of the coordinator and of a worker that callers can reason
    about from the contracts alone. */
module Scenarios {
  import opened Wrappers
  import opened Protocol
  import opened PowTracker
  import opened Coordinator
  import opened Worker

  /** Configure, mine with two workers, receive a progress report and a result. */
  method MineThenSucceed() {
    var miner := new Notemine(MinerOptions(Some("hello"), None, Some("abc"), Some(4), Some(2), None), None);
    var r := miner.Mine(_ => 1700000000);
    assert r == Pass && miner.mining && |miner.workers| == 2;
    assert miner.workers[1].posted == MineRequest(CandidateEvent("abc", 1, [], "hello", 1700000000), 4, Some(1), Some(2));
    var refused := miner.Publish();
    assert refused == Fail(NoResultToPublish);

    miner.HandleWorkerMessage(Progress(Some(0), 100.0, Some(BestPowData(4, "42", "0f"))));
    assert miner.highestPow == Some(WorkerPow(4, "42", "0f", Some(0)));

    var mined := MinedResult("finalised event", 1.0, 1000.0);
    miner.HandleWorkerMessage(Result(Some(mined), Some(0)));
    assert !miner.mining && !miner.cancelled && miner.successLog == [SuccessEvent(Some(mined))];
    assert miner.workers[0].terminated && miner.workers[1].terminated;
    var published := miner.Publish();
    assert published == Pass;
  }

  /** A second result after the first is handled again: success is not exactly-once. */
  method SecondResultIsAlsoDelivered() {
    var miner := new Notemine(MinerOptions(Some("hello"), None, Some("abc"), None, Some(2), None), None);
    var r := miner.Mine(_ => 0);
    var first := MinedResult("first", 1.0, 10.0);
    var second := MinedResult("second", 2.0, 20.0);
    miner.HandleWorkerMessage(Result(Some(first), Some(0)));
    miner.HandleWorkerMessage(Result(Some(second), Some(1)));
    assert miner.successLog == [SuccessEvent(Some(first)), SuccessEvent(Some(second))];
    assert miner.result == Some(second);
  }

  /** Cancelling before mining does nothing; cancelling a run publishes one event. */
  method CancelBeforeAndDuringRun() {
    var miner := new Notemine(MinerOptions(Some("hello"), None, Some("abc"), None, None, None), Some(8));
    assert miner.numberOfWorkers == 8 && miner.difficulty == 20;
    miner.Cancel();
    assert !miner.cancelled && miner.cancelledLog == [];
    var r := miner.Mine(i => i);
    miner.Cancel();
    assert !miner.mining && miner.cancelled && miner.cancelledLog == [CancelledEvent(CancelReason)];
    assert forall i | 0 <= i < |miner.workers| :: miner.workers[i].terminated;
  }

  /** Without a public key `mine()` throws and spawns nothing. */
  method MineWithoutPublicKey() {
    var miner := new Notemine(MinerOptions(None, None, None, None, Some(2), None), None);
    var r := miner.Mine(_ => 0);
    assert r == Fail(PublicKeyMissing) && !miner.mining && miner.workers == [];
  }

  /** Progress reports of 5, 3, 5, 8, 8, 2 from two workers leave the first
      report of 8 as the best. */
  method FirstReportOfTheMaximumWins() {
    var miner := new Notemine(MinerOptions(Some("hello"), None, Some("abc"), None, Some(2), None), None);
    miner.HandleProgress(Some(0), 1.0, Some(BestPowData(5, "a", "h0")));
    miner.HandleProgress(Some(1), 1.0, Some(BestPowData(3, "b", "h1")));
    miner.HandleProgress(Some(0), 1.0, Some(BestPowData(5, "c", "h2")));
    miner.HandleProgress(Some(1), 1.0, Some(BestPowData(8, "d", "h3")));
    miner.HandleProgress(Some(0), 1.0, Some(BestPowData(8, "e", "h4")));
    miner.HandleProgress(Some(1), 1.0, Some(BestPowData(2, "f", "h5")));
    assert miner.highestPow == Some(WorkerPow(8, "d", "h3", Some(1)));
  }

  /** A cancel message that arrives while `init()` is pending is seen by the
      primitive; as it carries no id, it also clears the worker id, so deriving
      the start nonce throws and the run ends with an error message. */
  method CancelDuringInit(event: CandidateEvent, primitive: MineCall -> PrimitiveRun) {
    var worker := new MineWorker();
    worker.OnMessage(MineRequest(event, 20, Some(3), Some(4)));
    assert worker.mining && !worker.ShouldCancel();
    worker.OnMessage(MineRequest(event, 20, Some(5), Some(8)));
    assert worker.pending == Some(MineRequest(event, 20, Some(3), Some(4))) && worker.workerId == Some(5);
    worker.OnMessage(CancelRequest(None));
    assert worker.ShouldCancel() && worker.workerId == None;
    worker.ResumeMine(None, primitive);
    assert worker.outbox == [Error(BigIntOfUndefined, None)] && worker.calls == [] && !worker.mining;
  }

  /** An undisturbed run invokes the primitive with start nonce = id and step = count. */
  method UndisturbedRun(event: CandidateEvent, primitive: MineCall -> PrimitiveRun) {
    var worker := new MineWorker();
    worker.OnMessage(MineRequest(event, 20, Some(3), Some(4)));
    worker.ResumeMine(None, primitive);
    assert worker.calls == [MineCall(event, 20, NonceSpace.Assignment(3, 4), false)];
    AcceptedMineEndsWithOneFinalMessage(Some(3), MineRequest(event, 20, Some(3), Some(4)), false, None, primitive);
    assert worker.outbox == Continuation(Some(3), MineRequest(event, 20, Some(3), Some(4)), false, None, primitive);
    assert worker.outbox[|worker.outbox| - 1].IsFinal() && CountFinal(worker.outbox) == 1;
  }
}
