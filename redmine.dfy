/*
 * The delivery engine: one object holding the four store values (settings,
 * queue, status message, busy flag) and the four operations that read and
 * update them. The network is an oracle: `network` lists the outcomes that
 * successive POSTs meet, and `posted` records every request POSTed, in order.
 * Every call runs to completion before the next starts.
 */
module Redmine {
  import opened RedmineQueue

  class Engine {
    var settings: Settings
    var queue: seq<QueuedRequest>
    var status: Status
    var isProcessing: bool
    /** The outcomes the coming POSTs meet, one per POST. */
    var network: seq<Outcome>
    /** Every request POSTed so far, oldest first. */
    var posted: seq<QueuedRequest>

    /**
     * The stores at start-up: settings and queue come from persistent storage
     * when something was saved there, and otherwise take their defaults; the
     * status message starts blank and the engine idle.
     */
    constructor (savedSettings: Option<Settings>, savedQueue: Option<seq<QueuedRequest>>, network: seq<Outcome>)
      ensures settings == (if savedSettings.Some? then savedSettings.value else DefaultSettings)
      ensures queue == (if savedQueue.Some? then savedQueue.value else [])
      ensures status == Blank && !isProcessing
      ensures this.network == network && posted == []
    {
      settings := if savedSettings.Some? then savedSettings.value else DefaultSettings;
      queue := if savedQueue.Some? then savedQueue.value else [];
      status := Blank;
      isProcessing := false;
      this.network := network;
      posted := [];
    }

    /**
     * POSTs one request and classifies what it meets: a response, ok or not,
     * yields true (a refused request is not worth retrying, and the refusal is
     * reported in the status); an exception, from the fetch or from reading a
     * refusal's body, yields false and leaves the status alone. The queue,
     * the busy flag and the settings are never touched.
     */
    method TrySendRequest(request: QueuedRequest) returns (success: bool)
      modifies this`status, this`network, this`posted
      ensures success <==> Answered(NextOutcome(old(network)))
      ensures status == if NextOutcome(old(network)) == ServerError
                        then ServerRejected(request.payload.issueId) else old(status)
      ensures posted == old(posted) + [request]
      ensures network == Consume(old(network))
    {
      var outcome := NextOutcome(network);
      posted := posted + [request];
      network := Consume(network);
      match outcome
      case Ok =>
        success := true;
      case ServerError =>
        status := ServerRejected(request.payload.issueId);
        success := true;
      case UnreadableServerError =>
        success := false;
      case NetworkError =>
        success := false;
    }

    /**
     * Appends a request for `payload` at the tail of the queue, stamped with
     * the clock reading `now` and carrying the current settings' URL and key.
     */
    method AddToQueue(payload: TimeEntryPayload, now: nat)
      modifies this`queue, this`status
      ensures queue == old(queue) + [QueuedRequest(now, payload, settings.redmineUrl, settings.apiKey)]
      ensures status == QueuedOffline(payload.issueId)
      ensures UniqueIds(old(queue)) && IdsBelow(old(queue), now) ==> UniqueIds(queue) && IdsBelow(queue, now + 1)
    {
      var request := QueuedRequest(now, payload, settings.redmineUrl, settings.apiKey);
      queue := queue + [request];
      status := QueuedOffline(payload.issueId);
      if UniqueIds(old(queue)) && IdsBelow(old(queue), now) {
        AppendKeepsUnique(old(queue), request);
      }
    }

    /**
     * Drains the queue in order from the head. Skipped entirely when the
     * engine is busy or the queue is empty. Otherwise it POSTs the requests
     * of a snapshot one by one, removes each delivered one from the queue by
     * identifier, and stops at the first failed send; it ends idle,
     * with the "cleared" status exactly when the queue ended empty.
     */
    method ProcessQueue()
      modifies this`queue, this`status, this`isProcessing, this`network, this`posted
      ensures old(isProcessing) || old(queue) == [] ==>
        queue == old(queue) && status == old(status) && isProcessing == old(isProcessing)
        && network == old(network) && posted == old(posted)
      ensures !old(isProcessing) && old(queue) != [] ==>
        var snapshot, delivered := old(queue), DeliveredRun(old(network), |old(queue)|);
        && queue == Without(snapshot, Ids(snapshot[..delivered]))
        && !isProcessing
        && status == (if queue == [] then QueueCleared else DrainStopped)
        && (delivered == |snapshot| ==>
              queue == [] && posted == old(posted) + snapshot && network == old(network)[delivered..])
        && (delivered < |snapshot| ==>
              posted == old(posted) + snapshot[..delivered + 1] && network == Consume(old(network)[delivered..]))
        && (UniqueIds(snapshot) ==> queue == snapshot[delivered..])
    {
      if isProcessing {
        return;
      }
      var currentQueue := queue;
      if |currentQueue| == 0 {
        return;
      }
      isProcessing := true;
      status := Retrying(|currentQueue|);
      ghost var network0 := network;
      RetryInOrder(currentQueue);
      if UniqueIds(currentQueue) {
        DrainedPrefix(currentQueue, DeliveredRun(network0, |currentQueue|));
      }
      isProcessing := false;
      if |queue| == 0 {
        status := QueueCleared;
      }
    }

    /**
     * One round of a drain: POSTs the request at the head of the snapshot;
     * when it got a response, removes every request with its identifier from
     * the queue and reports it sent, otherwise reports the drain stopped.
     */
    method RetryHead(request: QueuedRequest) returns (success: bool)
      modifies this`queue, this`status, this`network, this`posted
      ensures success <==> Answered(NextOutcome(old(network)))
      ensures posted == old(posted) + [request] && network == Consume(old(network))
      ensures queue == if success then Without(old(queue), {request.id}) else old(queue)
      ensures status == if success then QueuedSent(request.payload.issueId) else DrainStopped
    {
      status := RetryingIssue(request.payload.issueId);
      success := TrySendRequest(request);
      if success {
        queue := Without(queue, {request.id});
        status := QueuedSent(request.payload.issueId);
      } else {
        status := DrainStopped;
      }
    }

    /**
     * The loop of a drain: POSTs the requests of `snapshot` strictly from the
     * head, removes each delivered one from the queue by identifier, and stops
     * at the first failed send, leaving the "offline" status.
     */
    method RetryInOrder(snapshot: seq<QueuedRequest>)
      requires queue == snapshot
      modifies this`queue, this`status, this`network, this`posted
      ensures var delivered := DeliveredRun(old(network), |snapshot|);
        && queue == Without(snapshot, Ids(snapshot[..delivered]))
        && (delivered == |snapshot| ==>
              queue == [] && posted == old(posted) + snapshot && network == old(network)[delivered..]
              && status == if snapshot == [] then old(status) else QueuedSent(snapshot[|snapshot| - 1].payload.issueId))
        && (delivered < |snapshot| ==>
              status == DrainStopped && posted == old(posted) + snapshot[..delivered + 1]
              && network == Consume(old(network)[delivered..]))
    {
      ghost var network0, posted0, status0 := network, posted, status;
      ghost var sent := 0;
      var queueCopy := snapshot;
      var stopped := false;
      DrainBegins(snapshot, network0, posted0);
      while |queueCopy| > 0
        invariant DrainedSoFar(snapshot, network0, posted0, sent, queue, posted, network)
        invariant queueCopy == snapshot[sent..]
        invariant status == if sent == 0 then status0 else QueuedSent(snapshot[sent - 1].payload.issueId)
        decreases |queueCopy|
      {
        var requestToTry := queueCopy[0];
        ghost var queue1, posted1, network1 := queue, posted, network;
        var success := RetryHead(requestToTry);
        if success {
          DrainAdvance(snapshot, network0, posted0, sent, queue1, posted1, network1);
          queueCopy := queueCopy[1..];
          sent := sent + 1;
        } else {
          DrainHalt(snapshot, network0, posted0, sent, queue1, posted1, network1);
          stopped := true;
          break;
        }
      }
      if !stopped {
        DrainComplete(snapshot, network0, posted0, queue, posted, network);
      }
    }

    /**
     * The submit path: marks the engine busy, POSTs a request built from the
     * current settings, and on a failed send appends the entry to the
     * queue (with the clock reading `queueClock`). On any response the nested
     * drain finds the engine busy and does nothing, so the queue is unchanged.
     * The engine always ends idle.
     */
    method LogTime(payload: TimeEntryPayload, sendClock: nat, queueClock: nat)
      modifies this`queue, this`status, this`isProcessing, this`network, this`posted
      ensures !isProcessing
      ensures posted == old(posted) + [QueuedRequest(sendClock, payload, settings.redmineUrl, settings.apiKey)]
      ensures network == Consume(old(network))
      ensures !Answered(NextOutcome(old(network))) ==>
        queue == old(queue) + [QueuedRequest(queueClock, payload, settings.redmineUrl, settings.apiKey)]
        && status == QueuedOffline(payload.issueId)
      ensures Answered(NextOutcome(old(network))) ==>
        queue == old(queue) && status == Logged(payload.issueId)
    {
      isProcessing := true;
      status := Sending;
      var requestObject := QueuedRequest(sendClock, payload, settings.redmineUrl, settings.apiKey);
      var success := TrySendRequest(requestObject);
      if success {
        status := Logged(payload.issueId);
        ProcessQueue();
      } else {
        AddToQueue(payload, queueClock);
      }
      isProcessing := false;
    }
  }

  /** The requests that offline submissions of `payloads` queue, stamped with `clocks`. */
  function OfflineRequests(payloads: seq<TimeEntryPayload>, clocks: seq<nat>, s: Settings): seq<QueuedRequest>
    requires |clocks| == |payloads|
  {
    seq(|payloads|, i requires 0 <= i < |payloads| => QueuedRequest(clocks[i], payloads[i], s.redmineUrl, s.apiKey))
  }

  /** Clock readings that strictly increase. */
  predicate Increasing(clocks: seq<nat>)
  {
    forall i, j :: 0 <= i < j < |clocks| ==> clocks[i] < clocks[j]
  }

  /**
   * A caller submitting `payloads` one after the other while every send
   * fails: each submission appends its entry, so the queue grows by
   * exactly those entries in submission order, and with an increasing clock
   * that starts after every queued identifier the identifiers stay unique.
   */
  method SubmitAllOffline(e: Engine, payloads: seq<TimeEntryPayload>, sendClocks: seq<nat>, queueClocks: seq<nat>)
    requires |sendClocks| == |payloads| && |queueClocks| == |payloads|
    requires forall i :: 0 <= i < |payloads| && i < |e.network| ==> !Answered(e.network[i])
    modifies e
    ensures e.queue == old(e.queue) + OfflineRequests(payloads, queueClocks, e.settings)
    ensures e.settings == old(e.settings)
    ensures e.posted == old(e.posted) + OfflineRequests(payloads, sendClocks, e.settings)
    ensures e.network == old(e.network)[if |payloads| <= |old(e.network)| then |payloads| else |old(e.network)|..]
    ensures payloads != [] ==> !e.isProcessing && e.status == QueuedOffline(payloads[|payloads| - 1].issueId)
    ensures (UniqueIds(old(e.queue)) && Increasing(queueClocks)
             && (queueClocks != [] ==> IdsBelow(old(e.queue), queueClocks[0]))) ==> UniqueIds(e.queue)
  {
    var i := 0;
    while i < |payloads|
      invariant 0 <= i <= |payloads|
      invariant e.settings == old(e.settings)
      invariant e.queue == old(e.queue) + OfflineRequests(payloads[..i], queueClocks[..i], e.settings)
      invariant e.posted == old(e.posted) + OfflineRequests(payloads[..i], sendClocks[..i], e.settings)
      invariant e.network == old(e.network)[if i <= |old(e.network)| then i else |old(e.network)|..]
      invariant i > 0 ==> !e.isProcessing && e.status == QueuedOffline(payloads[i - 1].issueId)
      invariant (UniqueIds(old(e.queue)) && Increasing(queueClocks)
                 && (queueClocks != [] ==> IdsBelow(old(e.queue), queueClocks[0]))) ==>
                UniqueIds(e.queue) && (i < |payloads| ==> IdsBelow(e.queue, queueClocks[i]))
    {
      assert !Answered(NextOutcome(e.network));
      e.LogTime(payloads[i], sendClocks[i], queueClocks[i]);
      assert payloads[..i + 1] == payloads[..i] + [payloads[i]];
      assert queueClocks[..i + 1] == queueClocks[..i] + [queueClocks[i]];
      assert sendClocks[..i + 1] == sendClocks[..i] + [sendClocks[i]];
      i := i + 1;
    }
    assert payloads[..i] == payloads;
    assert queueClocks[..i] == queueClocks;
    assert sendClocks[..i] == sendClocks;
  }
}
