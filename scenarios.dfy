/*
 * Callers of the delivery engine that check, from the contracts alone, what
 * the engine does: entries submitted while offline, a drain while busy,
 * a drain that delivers the head and then loses the network, and an entry
 * the server refuses.
 */
module RedmineScenarios {
  import opened RedmineQueue
  import opened Redmine

  /** Two entries submitted while offline are queued in submission order, each with its own clock reading. */
  method OfflineSubmissions(a: TimeEntryPayload, b: TimeEntryPayload)
  {
    var e := new Engine(None, None, [NetworkError, UnreadableServerError]);
    e.LogTime(a, 1, 2);
    assert e.queue == [QueuedRequest(2, a, "", "")];
    assert e.status == QueuedOffline(a.issueId) && !e.isProcessing;
    e.LogTime(b, 3, 4);
    assert e.queue == [QueuedRequest(2, a, "", ""), QueuedRequest(4, b, "", "")];
    assert e.network == [] && |e.posted| == 2;
  }

  /** A drain that delivers the head of the queue and then loses the network keeps the rest queued. */
  method PartialDrain(ra: QueuedRequest, rb: QueuedRequest)
    requires ra.id != rb.id
  {
    var e := new Engine(None, Some([ra, rb]), [Ok, NetworkError]);
    assert DeliveredRun([Ok, NetworkError], 2) == 1;
    assert UniqueIds([ra, rb]) && [ra, rb][1..] == [rb] && [ra, rb][..2] == [ra, rb];
    e.ProcessQueue();
    assert e.queue == [rb];
    assert e.status == DrainStopped && !e.isProcessing;
    assert e.posted == [ra, rb] && e.network == [];
  }

  /** An entry the server refuses is not queued, and the success message covers the refusal. */
  method RefusedEntry(p: TimeEntryPayload, waiting: seq<QueuedRequest>)
  {
    var e := new Engine(None, Some(waiting), [ServerError]);
    e.LogTime(p, 1, 2);
    assert e.queue == waiting;
    assert e.status == Logged(p.issueId);
    assert !e.isProcessing && |e.posted| == 1;
  }

  /** A drain while the engine is busy POSTs nothing and changes nothing. */
  method DrainWhileBusy(waiting: seq<QueuedRequest>)
  {
    var e := new Engine(None, Some(waiting), [Ok]);
    e.isProcessing := true;
    e.ProcessQueue();
    assert e.queue == waiting && e.posted == [] && e.network == [Ok] && e.status == Blank;
  }
}
