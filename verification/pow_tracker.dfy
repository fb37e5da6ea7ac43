/** The coordinator's record of the best proof of work seen in a run
    (src/index.ts:177-185): a report replaces it only when it is strictly better. */
module PowTracker {
  import opened Wrappers
  import opened Protocol

  /** The best proof of work of the run, with the id the reporting worker gave. */
  datatype WorkerPow = WorkerPow(bestPow: int, nonce: string, hash: string, workerId: Option<int>)

  /** One progress report that carried proof-of-work data. */
  datatype Report = Report(workerId: Option<int>, data: BestPowData)

  function FromReport(workerId: Option<int>, data: BestPowData): WorkerPow {
    WorkerPow(data.bestPow, data.nonce, data.hash, workerId)
  }

  /** The new best after a report: it never falls, it covers the report, and a
      report that only ties or trails leaves the earlier best in place. */
  function Update(highest: Option<WorkerPow>, workerId: Option<int>, data: BestPowData): (r: Option<WorkerPow>)
    ensures r.Some? && r.value.bestPow >= data.bestPow
    ensures highest.Some? ==> r.value.bestPow >= highest.value.bestPow
    ensures highest.Some? && data.bestPow <= highest.value.bestPow ==> r == highest
    ensures highest.None? || data.bestPow > highest.value.bestPow ==> r == Some(FromReport(workerId, data))
  {
    if highest.None? || data.bestPow > highest.value.bestPow then Some(FromReport(workerId, data))
    else highest
  }

  /** The best after a run's reports are handled in order, from a fresh run. */
  function HighestAfter(reports: seq<Report>): Option<WorkerPow> {
    if reports == [] then None
    else
      var last := reports[|reports| - 1];
      Update(HighestAfter(reports[..|reports| - 1]), last.workerId, last.data)
  }

  /** Handling one more report updates the best by the strict rule. */
  lemma HighestAfterAppend(reports: seq<Report>, r: Report)
    ensures HighestAfter(reports + [r]) == Update(HighestAfter(reports), r.workerId, r.data)
  {
    assert (reports + [r])[..|reports|] == reports;
  }

  /** After any non-empty sequence of reports the best is the FIRST report that
      reaches the maximum: no report exceeds it and every earlier one is lower. */
  lemma {:induction false} HighestIsFirstMaximum(reports: seq<Report>) returns (j: nat)
    requires reports != []
    ensures j < |reports|
    ensures HighestAfter(reports) == Some(FromReport(reports[j].workerId, reports[j].data))
    ensures forall i | 0 <= i < |reports| :: reports[i].data.bestPow <= reports[j].data.bestPow
    ensures forall i | 0 <= i < j :: reports[i].data.bestPow < reports[j].data.bestPow
  {
    var n := |reports|;
    var prefix := reports[..n - 1];
    var last := reports[n - 1];
    if n == 1 {
      j := 0;
    } else {
      var jp := HighestIsFirstMaximum(prefix);
      assert forall i | 0 <= i < n - 1 :: reports[i] == prefix[i];
      if last.data.bestPow > prefix[jp].data.bestPow {
        j := n - 1;
      } else {
        j := jp;
      }
    }
  }
}
