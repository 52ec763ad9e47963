/*
 * Values of the offline delivery queue: the records a request is made of,
 * the status tags shown to the user, the outcomes a POST can meet, and the
 * functions on queues that the delivery engine (module Redmine) is specified by.
 */
module RedmineQueue {

  datatype Option<T> = None | Some(value: T)

  /** URL of the issue tracker and the API key sent with every POST. */
  datatype Settings = Settings(redmineUrl: string, apiKey: string)

  /** What the settings store holds when nothing was persisted. */
  const DefaultSettings := Settings("", "")

  /** One time entry, as the user submits it (the `date` object is not modelled). */
  datatype TimeEntryPayload = TimeEntryPayload(
    issueId: int,
    hours: real,
    activityId: int,
    comments: string,
    spentOn: string)

  /**
   * A request ready to be POSTed. `id` is the millisecond clock reading the
   * identifier `req_<time>` is formed from; URL and key are frozen when the
   * request is built and are not re-read from the settings later.
   */
  datatype QueuedRequest = QueuedRequest(
    id: nat,
    payload: TimeEntryPayload,
    redmineUrl: string,
    apiKey: string)

  /**
   * What one POST meets: a 2xx response; a non-2xx response whose body can
   * be read; a non-2xx response whose body cannot be read (reading it
   * throws); or no response at all (the fetch throws).
   */
  datatype Outcome = Ok | ServerError | UnreadableServerError | NetworkError

  /**
   * The send ends without an exception, so the request need not be kept for
   * a retry; any other outcome is a failed send.
   */
  predicate Answered(o: Outcome)
  {
    o == Ok || o == ServerError
  }

  /** The status message, one tag per message the engine writes. */
  datatype Status =
    | Blank                        // the initial empty message
    | Sending                      // a fresh entry is being sent
    | ServerRejected(issue: int)   // the server refused the request; it is dropped
    | Logged(issue: int)           // a fresh entry was delivered
    | QueuedOffline(issue: int)    // a fresh entry was appended to the queue
    | Retrying(count: nat)         // a drain starts over `count` queued requests
    | RetryingIssue(issue: int)    // the drain is about to POST one queued request
    | QueuedSent(issue: int)       // the drain delivered one queued request
    | DrainStopped                 // the drain met a failed send and stopped
    | QueueCleared                 // the queue is empty after a drain

  /** The outcome the next POST meets; when the network has nothing more to give, the fetch fails. */
  function NextOutcome(network: seq<Outcome>): Outcome
  {
    if network == [] then NetworkError else network[0]
  }

  /** The network after one POST. */
  function Consume(network: seq<Outcome>): seq<Outcome>
  {
    if network == [] then [] else network[1..]
  }

  /** The identifiers of a sequence of requests. */
  function Ids(q: seq<QueuedRequest>): set<nat>
  {
    if q == [] then {} else {q[0].id} + Ids(q[1..])
  }

  /** No two requests of `q` share an identifier. */
  predicate UniqueIds(q: seq<QueuedRequest>)
  {
    forall i, j :: 0 <= i < j < |q| ==> q[i].id != q[j].id
  }

  /** Every request of `q` has an identifier below `clock`. */
  predicate IdsBelow(q: seq<QueuedRequest>, clock: nat)
  {
    forall i :: 0 <= i < |q| ==> q[i].id < clock
  }

  /**
   * `q` with every request whose identifier is in `ids` filtered out, the
   * others kept in their order.
   */
  function Without(q: seq<QueuedRequest>, ids: set<nat>): (r: seq<QueuedRequest>)
    ensures |r| <= |q|
  {
    if q == [] then []
    else if q[0].id in ids then Without(q[1..], ids)
    else [q[0]] + Without(q[1..], ids)
  }

  /**
   * How many of the first `n` sends are answered (ok or refused) before the
   * first one that fails with an exception.
   */
  function DeliveredRun(network: seq<Outcome>, n: nat): (k: nat)
    ensures k <= n && k <= |network|
  {
    if n == 0 || !Answered(NextOutcome(network)) then 0
    else 1 + DeliveredRun(network[1..], n - 1)
  }

  // ---------------------------------------------------------------------
  // Filtering by identifier

  /** The filter keeps exactly the requests whose identifier is not filtered. */
  lemma {:induction false} WithoutMembers(q: seq<QueuedRequest>, ids: set<nat>)
    ensures forall x :: x in Without(q, ids) <==> x in q && x.id !in ids
  {
    if q != [] {
      WithoutMembers(q[1..], ids);
      assert forall x :: x in q <==> x == q[0] || x in q[1..];
    }
  }

  /** Filtering distributes over concatenation: the kept requests keep their relative order. */
  lemma {:induction false} WithoutAppend(a: seq<QueuedRequest>, b: seq<QueuedRequest>, ids: set<nat>)
    ensures Without(a + b, ids) == Without(a, ids) + Without(b, ids)
  {
    if a == [] {
      assert a + b == b;
    } else {
      assert (a + b)[0] == a[0];
      assert (a + b)[1..] == a[1..] + b;
      WithoutAppend(a[1..], b, ids);
    }
  }

  /** Two filters one after the other remove the union of their identifiers. */
  lemma {:induction false} WithoutTwice(q: seq<QueuedRequest>, a: set<nat>, b: set<nat>)
    ensures Without(Without(q, a), b) == Without(q, a + b)
  {
    if q != [] {
      WithoutTwice(q[1..], a, b);
      if q[0].id !in a {
        var rest := Without(q[1..], a);
        assert ([q[0]] + rest)[0] == q[0];
        assert ([q[0]] + rest)[1..] == rest;
      }
    }
  }

  /** Filtering identifiers no request carries changes nothing. */
  lemma {:induction false} WithoutNoMatch(q: seq<QueuedRequest>, ids: set<nat>)
    requires forall i :: 0 <= i < |q| ==> q[i].id !in ids
    ensures Without(q, ids) == q
  {
    if q != [] {
      WithoutNoMatch(q[1..], ids);
    }
  }

  /** Only the identifiers that occur in `q` matter to the filter. */
  lemma {:induction false} WithoutIrrelevant(q: seq<QueuedRequest>, a: set<nat>, b: set<nat>)
    requires forall i :: 0 <= i < |q| ==> (q[i].id in a <==> q[i].id in b)
    ensures Without(q, a) == Without(q, b)
  {
    if q != [] {
      assert q[0].id in a <==> q[0].id in b;
      WithoutIrrelevant(q[1..], a, b);
    }
  }

  /** Filtering keeps identifiers unique. */
  lemma {:induction false} WithoutKeepsUnique(q: seq<QueuedRequest>, ids: set<nat>)
    requires UniqueIds(q)
    ensures UniqueIds(Without(q, ids))
  {
    if q != [] {
      WithoutKeepsUnique(q[1..], ids);
      WithoutMembers(q[1..], ids);
      var rest := Without(q[1..], ids);
      if q[0].id !in ids {
        forall j | 0 <= j < |rest| ensures rest[j].id != q[0].id {
          assert rest[j] in q[1..];
        }
      }
    }
  }

  /**
   * The drain's result on a queue with unique identifiers: removing the
   * identifiers of the first `k` requests leaves exactly the requests from
   * position `k` on.
   */
  lemma {:induction false} DrainedPrefix(s: seq<QueuedRequest>, k: nat)
    requires UniqueIds(s) && k <= |s|
    ensures Without(s, Ids(s[..k])) == s[k..]
  {
    if k == 0 {
      assert Ids(s[..0]) == {};
      WithoutNoMatch(s, {});
    } else {
      var tail := s[1..];
      var all := Ids(s[..k]);
      var later := Ids(tail[..k - 1]);
      assert s[..k] == [s[0]] + tail[..k - 1];
      assert all == {s[0].id} + later;
      forall i | 0 <= i < |tail| ensures tail[i].id in all <==> tail[i].id in later {
        assert tail[i] == s[i + 1];
      }
      WithoutIrrelevant(tail, all, later);
      DrainedPrefix(tail, k - 1);
      assert s[1..][k - 1..] == s[k..];
    }
  }

  /**
   * Removing a set that covers every identifier of a queue empties it,
   * duplicates or not: a drain that delivers its whole snapshot leaves nothing.
   */
  lemma {:induction false} WithoutCovered(s: seq<QueuedRequest>, ids: set<nat>)
    requires Ids(s) <= ids
    ensures Without(s, ids) == []
  {
    if s != [] {
      WithoutCovered(s[1..], ids);
    }
  }

  /** The identifiers of a queue with one more request. */
  lemma {:induction false} IdsAppend(q: seq<QueuedRequest>, x: QueuedRequest)
    ensures Ids(q + [x]) == Ids(q) + {x.id}
  {
    if q == [] {
      assert [] + [x] == [x];
      assert [x][1..] == [];
    } else {
      assert (q + [x])[1..] == q[1..] + [x];
      IdsAppend(q[1..], x);
    }
  }

  /** One more delivered request: filtering its identifier extends the filtered prefix by one. */
  lemma DrainStep(s: seq<QueuedRequest>, i: nat)
    requires i < |s|
    ensures Without(Without(s, Ids(s[..i])), {s[i].id}) == Without(s, Ids(s[..i + 1]))
  {
    IdsPrefix(s, i);
    WithoutTwice(s, Ids(s[..i]), {s[i].id});
  }

  /** A prefix one longer is the prefix with the next request appended. */
  lemma PrefixSnoc(s: seq<QueuedRequest>, i: nat)
    requires i < |s|
    ensures s[..i] + [s[i]] == s[..i + 1]
  {
  }

  /** The identifiers of a prefix one longer. */
  lemma IdsPrefix(s: seq<QueuedRequest>, i: nat)
    requires i < |s|
    ensures Ids(s[..i + 1]) == Ids(s[..i]) + {s[i].id}
  {
    assert s[..i + 1] == s[..i] + [s[i]];
    IdsAppend(s[..i], s[i]);
  }

  /** Before anything is delivered the filter removes nothing. */
  lemma DrainStart(s: seq<QueuedRequest>)
    ensures Without(s, Ids(s[..0])) == s
  {
    assert Ids(s[..0]) == {};
    WithoutNoMatch(s, {});
  }

  // ---------------------------------------------------------------------
  // The run of deliveries

  /**
   * `DeliveredRun` is exactly the length of the leading run of answered
   * sends: every send within it was answered, and unless all `n` were, the
   * next one fails.
   */
  lemma {:induction false} DeliveredRunMeaning(network: seq<Outcome>, n: nat)
    ensures forall i :: 0 <= i < DeliveredRun(network, n) ==> Answered(network[i])
    ensures DeliveredRun(network, n) < n ==> !Answered(NextOutcome(network[DeliveredRun(network, n)..]))
  {
    if n > 0 && Answered(NextOutcome(network)) {
      DeliveredRunMeaning(network[1..], n - 1);
      var k := DeliveredRun(network, n);
      assert network[1..][k - 1..] == network[k..];
      forall i | 0 <= i < k ensures Answered(network[i]) {
        if i > 0 {
          assert network[i] == network[1..][i - 1];
        }
      }
    }
  }

  /**
   * One more response in the run: the drain that has delivered `sent`
   * requests and gets a response for the next one has `sent + 1` behind it
   * and the rest of the run ahead.
   */
  lemma RunStep(network: seq<Outcome>, n: nat, sent: nat)
    requires sent < n && sent <= |network|
    requires sent + DeliveredRun(network[sent..], n - sent) == DeliveredRun(network, n)
    requires Answered(NextOutcome(network[sent..]))
    ensures sent < |network| && Consume(network[sent..]) == network[sent + 1..]
    ensures sent + 1 + DeliveredRun(network[sent + 1..], n - sent - 1) == DeliveredRun(network, n)
  {
    assert network[sent..][1..] == network[sent + 1..];
  }

  /** A failed send ends the run: the drain has delivered exactly `DeliveredRun` requests. */
  lemma RunStop(network: seq<Outcome>, n: nat, sent: nat)
    requires sent < n && sent <= |network|
    requires sent + DeliveredRun(network[sent..], n - sent) == DeliveredRun(network, n)
    requires !Answered(NextOutcome(network[sent..]))
    ensures sent == DeliveredRun(network, n)
  {
  }

  // ---------------------------------------------------------------------
  // A drain in progress

  /**
   * A drain of `snapshot` that started against `network0` with the POST log
   * `posted0` has delivered its first `sent` requests: they are filtered out
   * of the queue by identifier, they were POSTed in order, each consumed one
   * outcome, and the rest of the run is still ahead.
   */
  predicate DrainedSoFar(snapshot: seq<QueuedRequest>, network0: seq<Outcome>, posted0: seq<QueuedRequest>,
                         sent: nat, queue: seq<QueuedRequest>, posted: seq<QueuedRequest>, network: seq<Outcome>)
  {
    && sent <= |snapshot| && sent <= |network0|
    && queue == Without(snapshot, Ids(snapshot[..sent]))
    && posted == posted0 + snapshot[..sent]
    && network == network0[sent..]
    && sent + DeliveredRun(network, |snapshot| - sent) == DeliveredRun(network0, |snapshot|)
  }

  /** Before the first POST nothing is delivered. */
  lemma DrainBegins(snapshot: seq<QueuedRequest>, network0: seq<Outcome>, posted0: seq<QueuedRequest>)
    ensures DrainedSoFar(snapshot, network0, posted0, 0, snapshot, posted0, network0)
  {
    DrainStart(snapshot);
    assert posted0 + snapshot[..0] == posted0;
  }

  /**
   * The next request of the snapshot is answered: removing its identifier,
   * logging its POST and consuming one outcome is a drain one request further.
   */
  lemma DrainAdvance(snapshot: seq<QueuedRequest>, network0: seq<Outcome>, posted0: seq<QueuedRequest>,
                     sent: nat, queue: seq<QueuedRequest>, posted: seq<QueuedRequest>, network: seq<Outcome>)
    requires sent < |snapshot|
    requires DrainedSoFar(snapshot, network0, posted0, sent, queue, posted, network)
    requires Answered(NextOutcome(network))
    ensures snapshot[sent..][0] == snapshot[sent] && snapshot[sent..][1..] == snapshot[sent + 1..]
    ensures DrainedSoFar(snapshot, network0, posted0, sent + 1,
                         Without(queue, {snapshot[sent].id}), posted + [snapshot[sent]], Consume(network))
  {
    RunStep(network0, |snapshot|, sent);
    DrainStep(snapshot, sent);
    PrefixSnoc(snapshot, sent);
    assert (posted0 + snapshot[..sent]) + [snapshot[sent]] == posted0 + (snapshot[..sent] + [snapshot[sent]]);
  }

  /**
   * The next request of the snapshot fails: the drain has delivered exactly
   * the run, and the failed request is the last one POSTed.
   */
  lemma DrainHalt(snapshot: seq<QueuedRequest>, network0: seq<Outcome>, posted0: seq<QueuedRequest>,
                  sent: nat, queue: seq<QueuedRequest>, posted: seq<QueuedRequest>, network: seq<Outcome>)
    requires sent < |snapshot|
    requires DrainedSoFar(snapshot, network0, posted0, sent, queue, posted, network)
    requires !Answered(NextOutcome(network))
    ensures snapshot[sent..][0] == snapshot[sent]
    ensures sent == DeliveredRun(network0, |snapshot|)
    ensures queue == Without(snapshot, Ids(snapshot[..sent]))
    ensures posted + [snapshot[sent]] == posted0 + snapshot[..sent + 1]
    ensures network == network0[sent..]
  {
    RunStop(network0, |snapshot|, sent);
    PrefixSnoc(snapshot, sent);
    assert (posted0 + snapshot[..sent]) + [snapshot[sent]] == posted0 + (snapshot[..sent] + [snapshot[sent]]);
  }

  /** A drain that delivered its whole snapshot has emptied the queue and POSTed the snapshot. */
  lemma DrainComplete(snapshot: seq<QueuedRequest>, network0: seq<Outcome>, posted0: seq<QueuedRequest>,
                      queue: seq<QueuedRequest>, posted: seq<QueuedRequest>, network: seq<Outcome>)
    requires DrainedSoFar(snapshot, network0, posted0, |snapshot|, queue, posted, network)
    ensures DeliveredRun(network0, |snapshot|) == |snapshot|
    ensures queue == Without(snapshot, Ids(snapshot[..|snapshot|])) == []
    ensures posted == posted0 + snapshot && network == network0[|snapshot|..]
  {
    assert snapshot[..|snapshot|] == snapshot;
    WithoutCovered(snapshot, Ids(snapshot));
  }

  /** Appending a request stamped after every queued one keeps identifiers unique. */
  lemma AppendKeepsUnique(q: seq<QueuedRequest>, r: QueuedRequest)
    requires UniqueIds(q) && IdsBelow(q, r.id)
    ensures UniqueIds(q + [r]) && IdsBelow(q + [r], r.id + 1)
  {
  }
}
