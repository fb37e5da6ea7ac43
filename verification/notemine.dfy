/** The mining coordinator, class `Notemine` of src/index.ts: configuration,
    the run state of one mining run, the worker handles it owns and the four
    event channels it publishes on. */
module Coordinator {
  import opened Wrappers
  import opened Protocol
  import opened PowTracker
  import NonceSpace

  const DefaultDifficulty: int := 20
  const FallbackWorkerCount: int := 4
  const PublicKeyMissing: string := "Public key is not set."
  const ContentMissing: string := "Content is not set."
  const CancelReason: string := "Mining cancelled by user."
  const NoResultToPublish: string := "No mined result to publish."

  /** Constructor options; every field may be left out. */
  datatype MinerOptions = MinerOptions(
    content: Option<string>,
    tags: Option<seq<seq<string>>>,
    publicKey: Option<string>,
    difficulty: Option<int>,
    numberOfWorkers: Option<int>,
    relayUrls: Option<seq<string>>)

  /** JavaScript truthiness of an optional string and of an optional number. */
  predicate TruthyString(o: Option<string>) { o.Some? && o.value != "" }
  predicate TruthyNumber(o: Option<int>) { o.Some? && o.value != 0 }

  /** A spawned worker: the `mine` message it was posted and whether it has been terminated. */
  datatype WorkerHandle = WorkerHandle(posted: Request, terminated: bool)

  /** Events published on the four channels. */
  datatype ProgressEvent = ProgressEvent(workerId: Option<int>, hashRate: real, bestPowData: Option<BestPowData>)
  datatype ErrorEvent = ErrorEvent(error: string)
  datatype CancelledEvent = CancelledEvent(reason: string)
  datatype SuccessEvent = SuccessEvent(result: Option<MinedResult>)

  /** A worker's `onerror` event: its `error` field, which may be missing or falsy, and its message. */
  datatype WorkerFault = WorkerFault(error: Option<string>, message: string)

  /** Snapshots of the configuration fields, of the run-state fields and of the event channels. */
  datatype Config = Config(
    content: string,
    tags: seq<seq<string>>,
    publicKey: string,
    difficulty: int,
    numberOfWorkers: int,
    relayUrls: seq<string>)

  datatype RunState = RunState(
    mining: bool,
    cancelled: bool,
    result: Option<MinedResult>,
    workers: seq<WorkerHandle>,
    workersPow: map<Option<int>, BestPowData>,
    highestPow: Option<WorkerPow>)

  /** What a coordinator has published on each channel, and the proof-of-work
      reports of the current run. */
  datatype HistoryState = HistoryState(
    progress: seq<ProgressEvent>,
    errors: seq<ErrorEvent>,
    cancelled: seq<CancelledEvent>,
    success: seq<SuccessEvent>,
    reports: seq<Report>)

  /** The candidate event built from the configuration at time `now` (seconds). */
  function PrepareEvent(c: Config, now: int): CandidateEvent {
    CandidateEvent(c.publicKey, TextNoteKind, c.tags, c.content, now)
  }

  /** The workers a run spawns: worker `i` is posted id `i`, the worker count, the
      difficulty and an event stamped with the `i`-th clock reading. */
  function SpawnPlan(c: Config, clock: int -> int): (ws: seq<WorkerHandle>)
    ensures |ws| == if c.numberOfWorkers < 0 then 0 else c.numberOfWorkers
    ensures WellAllocated(ws)
    ensures forall i | 0 <= i < |ws| ::
      !ws[i].terminated && ws[i].posted.difficulty == c.difficulty &&
      ws[i].posted.event == PrepareEvent(c, clock(i))
  {
    seq(if c.numberOfWorkers < 0 then 0 else c.numberOfWorkers,
        i => WorkerHandle(MineRequest(PrepareEvent(c, clock(i)), c.difficulty, Some(i), Some(c.numberOfWorkers)), false))
  }

  /** Every handle terminated, each still holding the message it was posted. */
  function AllTerminated(ws: seq<WorkerHandle>): (r: seq<WorkerHandle>)
    ensures |r| == |ws|
    ensures forall i | 0 <= i < |r| :: r[i].terminated && r[i].posted == ws[i].posted
  {
    seq(|ws|, i requires 0 <= i < |ws| => ws[i].(terminated := true))
  }

  /** Worker `i` of a run of `|ws|` workers was posted id `i` and worker count `|ws|`. */
  ghost predicate WellAllocated(ws: seq<WorkerHandle>) {
    forall i | 0 <= i < |ws| ::
      ws[i].posted.MineRequest? && ws[i].posted.id == Some(i) && ws[i].posted.totalWorkers == Some(|ws|)
  }

  /** Worker handle `w` was posted an id and a count under which nonce `n` is tried. */
  ghost predicate Covers(w: WorkerHandle, n: int) {
    w.posted.MineRequest? && w.posted.id.Some? && w.posted.totalWorkers.Some? &&
    NonceSpace.Visits(NonceSpace.Allocate(w.posted.id.value, w.posted.totalWorkers.value), n)
  }

  /** The best report dominates every worker's last report. */
  ghost predicate Dominates(highest: Option<WorkerPow>, workersPow: map<Option<int>, BestPowData>) {
    forall w | w in workersPow :: highest.Some? && workersPow[w].bestPow <= highest.value.bestPow
  }

  /** The events posted to two workers of a run agree on everything but the
      timestamp, and are equal exactly when the two clock readings are. */
  lemma SpawnedEventsDifferOnlyInTimestamp(c: Config, clock: int -> int, i: nat, j: nat)
    requires i < |SpawnPlan(c, clock)| && j < |SpawnPlan(c, clock)|
    ensures var ws := SpawnPlan(c, clock);
      ws[i].posted.event.(createdAt := 0) == ws[j].posted.event.(createdAt := 0) &&
      (ws[i].posted.event == ws[j].posted.event <==> clock(i) == clock(j))
  {
  }

  /** In a run of at least one worker, every natural nonce is covered by exactly
      one worker: the one whose id is the nonce's residue modulo the worker count. */
  lemma {:induction false} WorkersPartitionNonces(ws: seq<WorkerHandle>, n: nat)
    requires WellAllocated(ws) && |ws| >= 1
    ensures Covers(ws[n % |ws|], n)
    ensures forall i | 0 <= i < |ws| && Covers(ws[i], n) :: i == n % |ws|
  {
    NonceSpace.ResidueClassesPartition(|ws|, n);
  }

  /** Whatever reports a run has seen, its best is the first report of the
      maximal value: no report exceeds it and every earlier one is lower. */
  lemma {:induction false} BestIsFirstMaximalReport(miner: Notemine) returns (j: nat)
    requires miner.Valid() && miner.reports != []
    ensures j < |miner.reports|
    ensures miner.highestPow == Some(FromReport(miner.reports[j].workerId, miner.reports[j].data))
    ensures forall i | 0 <= i < |miner.reports| :: miner.reports[i].data.bestPow <= miner.reports[j].data.bestPow
    ensures forall i | 0 <= i < j :: miner.reports[i].data.bestPow < miner.reports[j].data.bestPow
  {
    j := HighestIsFirstMaximum(miner.reports);
  }

  class Notemine {
    // Configuration
    var content: string
    var tags: seq<seq<string>>
    var publicKey: string
    var difficulty: int
    var numberOfWorkers: int
    var relayUrls: seq<string>

    // Run state
    var mining: bool
    var cancelled: bool
    var result: Option<MinedResult>
    var workers: seq<WorkerHandle>
    var workersPow: map<Option<int>, BestPowData>
    var highestPow: Option<WorkerPow>

    // Event channels, as the sequence of events published on each
    ghost var progressLog: seq<ProgressEvent>
    ghost var errorLog: seq<ErrorEvent>
    ghost var cancelledLog: seq<CancelledEvent>
    ghost var successLog: seq<SuccessEvent>

    /** The progress reports that carried proof-of-work data since the run started. */
    ghost var reports: seq<Report>

    function Configuration(): Config reads this {
      Config(content, tags, publicKey, difficulty, numberOfWorkers, relayUrls)
    }

    function Run(): RunState reads this {
      RunState(mining, cancelled, result, workers, workersPow, highestPow)
    }

    ghost function History(): HistoryState reads this {
      HistoryState(progressLog, errorLog, cancelledLog, successLog, reports)
    }

    /** The coordinator's invariant: its workers were allocated consistently, the
        best proof of work is the first maximum of the run's reports, and it
        dominates every worker's last report. */
    ghost predicate Valid() reads this {
      WellAllocated(workers) && highestPow == HighestAfter(reports) && Dominates(highestPow, workersPow)
    }

    /** Options fall back with `||`: missing or empty strings become "", a missing
        or zero difficulty becomes 20, a missing or zero worker count becomes the
        hardware concurrency and, failing that, 4. A new coordinator is idle. */
    constructor (options: MinerOptions, hardwareConcurrency: Option<int>)
      ensures Valid()
      ensures content == (if TruthyString(options.content) then options.content.value else "")
      ensures tags == (if options.tags.Some? then options.tags.value else [])
      ensures publicKey == (if TruthyString(options.publicKey) then options.publicKey.value else "")
      ensures difficulty == (if TruthyNumber(options.difficulty) then options.difficulty.value else DefaultDifficulty)
      ensures numberOfWorkers ==
        (if TruthyNumber(options.numberOfWorkers) then options.numberOfWorkers.value
         else if TruthyNumber(hardwareConcurrency) then hardwareConcurrency.value
         else FallbackWorkerCount)
      ensures relayUrls == (if options.relayUrls.Some? then options.relayUrls.value else [])
      ensures Run() == RunState(false, false, None, [], map[], None)
      ensures History() == HistoryState([], [], [], [], [])
    {
      content := if TruthyString(options.content) then options.content.value else "";
      tags := if options.tags.Some? then options.tags.value else [];
      publicKey := if TruthyString(options.publicKey) then options.publicKey.value else "";
      difficulty := if TruthyNumber(options.difficulty) then options.difficulty.value else DefaultDifficulty;
      numberOfWorkers :=
        if TruthyNumber(options.numberOfWorkers) then options.numberOfWorkers.value
        else if TruthyNumber(hardwareConcurrency) then hardwareConcurrency.value
        else FallbackWorkerCount;
      relayUrls := if options.relayUrls.Some? then options.relayUrls.value else [];
      mining, cancelled, result := false, false, None;
      workers, workersPow, highestPow := [], map[], None;
      progressLog, errorLog, cancelledLog, successLog := [], [], [], [];
      reports := [];
    }

    method SetContent(content: string)
      modifies this
      ensures Configuration() == old(Configuration()).(content := content)
      ensures Run() == old(Run()) && History() == old(History())
    {
      this.content := content;
    }

    method SetTags(tags: seq<seq<string>>)
      modifies this
      ensures Configuration() == old(Configuration()).(tags := tags)
      ensures Run() == old(Run()) && History() == old(History())
    {
      this.tags := tags;
    }

    method SetPubkey(publicKey: string)
      modifies this
      ensures Configuration() == old(Configuration()).(publicKey := publicKey)
      ensures Run() == old(Run()) && History() == old(History())
    {
      this.publicKey := publicKey;
    }

    /** Starts a run. A call while mining does nothing; a missing public key, then
        a missing content, throws before any state changes. Otherwise the run state
        is reset and `numberOfWorkers` workers are spawned. `clock(i)` is the time,
        in seconds, read when the `i`-th worker's event is prepared. */
    method Mine(clock: int -> int) returns (r: Outcome<string>)
      requires Valid()
      modifies this
      ensures Valid()
      ensures Configuration() == old(Configuration())
      ensures old(mining) ==> r == Pass && Run() == old(Run()) && History() == old(History())
      ensures !old(mining) && publicKey == "" ==>
        r == Fail(PublicKeyMissing) && Run() == old(Run()) && History() == old(History())
      ensures !old(mining) && publicKey != "" && content == "" ==>
        r == Fail(ContentMissing) && Run() == old(Run()) && History() == old(History())
      ensures !old(mining) && publicKey != "" && content != "" ==>
        r == Pass && Run() == RunState(true, false, None, SpawnPlan(Configuration(), clock), map[], None) &&
        History() == old(History()).(reports := [])
    {
      if mining {
        return Pass;
      }
      if publicKey == "" {
        return Fail(PublicKeyMissing);
      }
      if content == "" {
        return Fail(ContentMissing);
      }
      ResetRun();
      InitializeWorkers(clock);
      assert workers == SpawnPlan(Configuration(), clock);
      r := Pass;
    }

    /** The reset at the start of a run: mining, not cancelled, no result, no
        workers, no per-worker data, no best and no reports. */
    method ResetRun()
      modifies this`mining, this`cancelled, this`result, this`workers, this`workersPow, this`highestPow, this`reports
      ensures Valid()
      ensures Run() == RunState(true, false, None, [], map[], None)
      ensures History() == old(History()).(reports := [])
    {
      mining := true;
      cancelled := false;
      result := None;
      workers := [];
      workersPow := map[];
      highestPow := None;
      reports := [];
    }

    /** Spawns `numberOfWorkers` workers, appending each handle after posting it its `mine` message. */
    method InitializeWorkers(clock: int -> int)
      modifies this`workers
      ensures workers == old(workers) + SpawnPlan(Configuration(), clock)
    {
      var plan := SpawnPlan(Configuration(), clock);
      var i := 0;
      while i < numberOfWorkers
        invariant 0 <= i <= |plan|
        invariant workers == old(workers) + plan[..i]
      {
        var event := PrepareEvent(Configuration(), clock(i));
        var worker := WorkerHandle(MineRequest(event, difficulty, Some(i), Some(numberOfWorkers)), false);
        workers := workers + [worker];
        i := i + 1;
      }
      assert i == |plan|;
      assert plan[..i] == plan;
    }

    /** Terminates every worker handle, one after the other. */
    method TerminateWorkers()
      modifies this`workers
      ensures workers == AllTerminated(old(workers))
    {
      var i := 0;
      while i < |workers|
        invariant 0 <= i <= |workers| == |old(workers)|
        invariant forall k | 0 <= k < i :: workers[k] == old(workers)[k].(terminated := true)
        invariant forall k | i <= k < |workers| :: workers[k] == old(workers)[k]
      {
        workers := workers[i := workers[i].(terminated := true)];
        i := i + 1;
      }
    }

    /** Cancels the run: nothing happens unless mining; otherwise every worker is
        terminated, the run is marked cancelled and not mining, and one cancelled
        event is published. */
    method Cancel()
      requires Valid()
      modifies this
      ensures Valid()
      ensures Configuration() == old(Configuration())
      ensures !old(mining) ==> Run() == old(Run()) && History() == old(History())
      ensures old(mining) ==>
        Run() == old(Run()).(mining := false, cancelled := true, workers := AllTerminated(old(workers))) &&
        History() == old(History()).(cancelled := old(cancelledLog) + [CancelledEvent(CancelReason)])
    {
      if !mining {
        return;
      }
      cancelled := true;
      TerminateWorkers();
      mining := false;
      cancelledLog := cancelledLog + [CancelledEvent(CancelReason)];
    }

    /** Fails exactly when there is no result yet. */
    method Publish() returns (r: Outcome<string>)
      ensures r.Fail? <==> result.None?
      ensures r.Fail? ==> r.error == NoResultToPublish
    {
      if result.None? {
        return Fail(NoResultToPublish);
      }
      r := Pass;
    }

    /** Handles one message from a worker, whether or not a run is in progress. */
    method HandleWorkerMessage(m: WorkerMessage)
      requires Valid()
      modifies this
      ensures Valid()
      ensures Configuration() == old(Configuration())
      ensures m.Progress? ==>
        Run() == (if m.bestPowData.None? then old(Run())
                  else old(Run()).(workersPow := old(workersPow)[m.workerId := m.bestPowData.value],
                                   highestPow := Update(old(highestPow), m.workerId, m.bestPowData.value))) &&
        History() == old(History()).(
          progress := old(progressLog) + [ProgressEvent(m.workerId, m.hashRate, m.bestPowData)],
          reports := old(reports) + if m.bestPowData.None? then [] else [Report(m.workerId, m.bestPowData.value)])
      ensures m.Result? ==>
        Run() == old(Run()).(mining := false, result := m.data, workers := AllTerminated(old(workers))) &&
        History() == old(History()).(success := old(successLog) + [SuccessEvent(m.data)])
      ensures m.Error? ==>
        Run() == old(Run()) && History() == old(History()).(errors := old(errorLog) + [ErrorEvent(m.error)])
      ensures m.Unrecognised? ==> Run() == old(Run()) && History() == old(History())
    {
      match m
      case Progress(workerId, hashRate, bestPowData) =>
        HandleProgress(workerId, hashRate, bestPowData);
      case Result(data, _) =>
        HandleResult(data);
      case Error(error, _) =>
        errorLog := errorLog + [ErrorEvent(error)];
      case Unrecognised =>
    }

    /** A `progress` message: data that is present is recorded for its worker and
        competes for the best by the strict rule; one progress event is published
        either way. */
    method HandleProgress(workerId: Option<int>, hashRate: real, bestPowData: Option<BestPowData>)
      requires Valid()
      modifies this`workersPow, this`highestPow, this`reports, this`progressLog
      ensures Valid()
      ensures Run() == (if bestPowData.None? then old(Run())
                        else old(Run()).(workersPow := old(workersPow)[workerId := bestPowData.value],
                                         highestPow := Update(old(highestPow), workerId, bestPowData.value)))
      ensures History() == old(History()).(
        progress := old(progressLog) + [ProgressEvent(workerId, hashRate, bestPowData)],
        reports := old(reports) + if bestPowData.None? then [] else [Report(workerId, bestPowData.value)])
    {
      if bestPowData.Some? {
        workersPow := workersPow[workerId := bestPowData.value];
        HighestAfterAppend(reports, Report(workerId, bestPowData.value));
        highestPow := Update(highestPow, workerId, bestPowData.value);
        reports := reports + [Report(workerId, bestPowData.value)];
      }
      progressLog := progressLog + [ProgressEvent(workerId, hashRate, bestPowData)];
    }

    /** A `result` message: the result is stored, mining stops, every worker is
        terminated and one success event is published. */
    method HandleResult(data: Option<MinedResult>)
      requires Valid()
      modifies this`result, this`mining, this`workers, this`successLog
      ensures Valid()
      ensures Run() == old(Run()).(mining := false, result := data, workers := AllTerminated(old(workers)))
      ensures History() == old(History()).(success := old(successLog) + [SuccessEvent(data)])
    {
      result := data;
      mining := false;
      TerminateWorkers();
      successLog := successLog + [SuccessEvent(result)];
    }

    /** A worker's `onerror`: publishes one error event, preferring the event's
        `error` over its message, and changes nothing else. */
    method HandleWorkerError(fault: WorkerFault)
      modifies this
      ensures Run() == old(Run()) && Configuration() == old(Configuration())
      ensures History() == old(History()).(errors := old(errorLog) +
        [ErrorEvent(if TruthyString(fault.error) then fault.error.value else fault.message)])
    {
      errorLog := errorLog + [ErrorEvent(if TruthyString(fault.error) then fault.error.value else fault.message)];
    }
  }
}
