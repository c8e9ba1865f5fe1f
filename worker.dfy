/**
 * The resolution worker: for each queue delivery it loads the guess,
 * computes the time left of the 60-second wait, reads the current price and
 * either resolves the guess or pushes the message's visibility back.
 */
module Worker {
  import opened Store

  /** The wait from submission to the earliest resolution. */
  const ResolutionWaitSeconds := 60
  /** The re-delay used once the wait is over but the price has not moved. */
  const RetryFloorSeconds := 5
  /** What the price fetch returns when it fails. */
  const PriceUnavailable := -1

  /** What the price service gave back to one request. */
  datatype FeedResponse =
    | Raised                                           // the request or the JSON decoding raised
    | Replied(statusCode: int, rateFloat: Option<int>) // `bpi.USD.rate_float`, if present

  /**
   * `get_current_btc_price`: never fails; anything but a 200 reply that
   * carries a rate yields the sentinel -1.
   */
  function GetCurrentBtcPrice(feed: FeedResponse): (price: int)
    ensures feed == Replied(200, Some(price)) || price == PriceUnavailable
    ensures feed.Replied? && feed.statusCode == 200 && feed.rateFloat.Some? ==>
      price == feed.rateFloat.value
  {
    match feed
    case Replied(200, Some(rate)) => rate
    case _ => PriceUnavailable
  }

  /** `timeleft_for_resolution`: the seconds until the wait after `guessedAt` is over. */
  function TimeLeftForResolution(g: Guess, now: int): (t: int)
    ensures t <= 0 <==> now >= g.guessedAt + ResolutionWaitSeconds
    ensures now + t == g.guessedAt + ResolutionWaitSeconds
  {
    ResolutionWaitSeconds - (now - g.guessedAt)
  }

  /** `has_price_changed`: the price differs from the baseline; what it decides is stated by `Decide`. */
  predicate HasPriceChanged(g: Guess, price: int) {
    g.baselinePrice != price
  }

  /** The points a resolution awards: +1 for a correct call, -1 otherwise. */
  function Points(prediction: int, baseline: int, price: int): (p: int)
    ensures p == 1 || p == -1
    ensures p == 1 <==> (prediction == 1 && price > baseline) || (prediction == -1 && price < baseline)
    ensures price == baseline ==> p == -1
  {
    if (prediction == 1 && price > baseline) || (prediction == -1 && price < baseline) then 1 else -1
  }

  /**
   * The record after `resolve(price)`: unchanged if already resolved,
   * otherwise resolved with its points; no other attribute changes.
   */
  function Resolved(g: Guess, price: int): (r: Guess)
    ensures r.resolved
    ensures r.(resolved := g.resolved, points := g.points) == g
    ensures g.resolved ==> r == g
    ensures !g.resolved ==> r.points == Points(g.prediction, g.baselinePrice, price)
  {
    if g.resolved then g
    else g.(resolved := true, points := Points(g.prediction, g.baselinePrice, price))
  }

  /** Resolving twice is resolving once, whatever price the second attempt sees. */
  lemma ResolveIdempotent(g: Guess, first: int, second: int)
    ensures Resolved(Resolved(g, first), second) == Resolved(g, first)
  {
  }

  /** What one delivery does with its guess. */
  datatype Action = ResolveNow | Redelay(visibilityTimeout: int)

  /**
   * The decision of the loop body: resolve only once the wait is over and
   * the price differs from the baseline; otherwise re-delay by the time
   * left, or by the floor interval once none is left.
   */
  function Decide(g: Guess, now: int, price: int): (a: Action)
    ensures a == ResolveNow <==> now >= g.guessedAt + ResolutionWaitSeconds && price != g.baselinePrice
    ensures now < g.guessedAt + ResolutionWaitSeconds ==>
      a == Redelay(g.guessedAt + ResolutionWaitSeconds - now)
    ensures now >= g.guessedAt + ResolutionWaitSeconds && price == g.baselinePrice ==>
      a == Redelay(RetryFloorSeconds)
    ensures a.Redelay? ==> a.visibilityTimeout > 0
  {
    var timeleft := TimeLeftForResolution(g, now);
    if timeleft <= 0 && HasPriceChanged(g, price) then ResolveNow
    else Redelay(if timeleft > 0 then timeleft else RetryFloorSeconds)
  }

  /**
   * A failed price fetch is compared like a price: once the wait is over,
   * a "down" guess on any positive baseline is resolved as correct.
   */
  lemma UnavailablePriceResolves(g: Guess, now: int)
    requires now >= g.guessedAt + ResolutionWaitSeconds && g.baselinePrice > 0
    requires !g.resolved && g.prediction == -1
    ensures Decide(g, now, GetCurrentBtcPrice(Raised)) == ResolveNow
    ensures Resolved(g, GetCurrentBtcPrice(Raised)).points == 1
  {
  }

  /**
   * One SQS record: its body (the guess id) and receipt handle, with the
   * clock reading and the price-service reply seen while it is handled.
   */
  datatype Delivery = Delivery(body: GuessId, receiptHandle: string, now: int, feed: FeedResponse)

  /** The table and the queue requests, as one value. */
  datatype State = State(items: Items, requests: seq<QueueRequest>)

  /** `after` is `before` resolved: only `resolved` and `points` change, to true and ±1. */
  ghost predicate ResolvedFrom(before: Guess, after: Guess) {
    && !before.resolved && after.resolved
    && after == before.(resolved := true, points := after.points)
    && (after.points == 1 || after.points == -1)
  }

  /**
   * How the worker may change the state: no record appears or disappears,
   * a record changes only by being resolved, and the queue only receives
   * visibility changes with positive timeouts.
   */
  ghost predicate Evolves(s: State, t: State) {
    && t.items.Keys == s.items.Keys
    && (forall id :: id in s.items ==> t.items[id] == s.items[id] || ResolvedFrom(s.items[id], t.items[id]))
    && |s.requests| <= |t.requests| && t.requests[..|s.requests|] == s.requests
    && (forall i :: |s.requests| <= i < |t.requests| ==>
          t.requests[i].ChangeMessageVisibility? && t.requests[i].visibilityTimeout > 0)
  }

  lemma EvolvesTransitive(s: State, t: State, u: State)
    requires Evolves(s, t) && Evolves(t, u)
    ensures Evolves(s, u)
  {
  }

  /**
   * One pass of the loop body; None when the record is missing (the lookup
   * raises and the rest of the batch is abandoned).  The update is keyed by
   * the delivered id, which is the record's own `id`.
   */
  function Step(s: State, d: Delivery): (r: Option<State>)
    ensures r.None? <==> d.body !in s.items
    ensures r.Some? ==> Evolves(s, r.value)
    ensures r.Some? ==> forall id :: id in s.items && id != d.body ==> r.value.items[id] == s.items[id]
    ensures r.Some? ==> |r.value.requests| <= |s.requests| + 1
    // the wait is over and the price has moved: the record is resolved, nothing is queued
    ensures (d.body in s.items && d.now >= s.items[d.body].guessedAt + ResolutionWaitSeconds &&
             GetCurrentBtcPrice(d.feed) != s.items[d.body].baselinePrice) ==>
      r == Some(State(s.items[d.body := Resolved(s.items[d.body], GetCurrentBtcPrice(d.feed))], s.requests))
    // otherwise the table is unchanged and the message is pushed back by the time left, or by 5
    ensures (d.body in s.items && !(d.now >= s.items[d.body].guessedAt + ResolutionWaitSeconds &&
                                    GetCurrentBtcPrice(d.feed) != s.items[d.body].baselinePrice)) ==>
      r == Some(State(s.items, s.requests + [ChangeMessageVisibility(d.receiptHandle,
        if d.now < s.items[d.body].guessedAt + ResolutionWaitSeconds
        then s.items[d.body].guessedAt + ResolutionWaitSeconds - d.now
        else RetryFloorSeconds)]))
  {
    if d.body !in s.items then None
    else
      var g := s.items[d.body];
      var price := GetCurrentBtcPrice(d.feed);
      match Decide(g, d.now, price)
      case ResolveNow =>
        Some(s.(items := s.items[d.body := Resolved(g, price)]))
      case Redelay(timeout) =>
        Some(s.(requests := s.requests + [ChangeMessageVisibility(d.receiptHandle, timeout)]))
  }

  datatype BatchResult = BatchResult(state: State, failedOn: Option<GuessId>)

  /**
   * `handle_guesses`, with the re-delay the source intends: the deliveries
   * in order, each by `Step`, stopping at a missing record.  The batch
   * fails only on a delivery whose record is missing.
   */
  function RunBatch(s: State, records: seq<Delivery>): (r: BatchResult)
    ensures r.state.items.Keys == s.items.Keys
    ensures r.failedOn.Some? ==> r.failedOn.value !in s.items
    decreases |records|
  {
    if records == [] then BatchResult(s, None)
    else
      match Step(s, records[0])
      case None => BatchResult(s, Some(records[0].body))
      case Some(next) => RunBatch(next, records[1..])
  }

  /** A failed batch names one of its own deliveries, and everything before it was handled. */
  lemma {:induction false} RunBatchFailure(s: State, records: seq<Delivery>)
    requires RunBatch(s, records).failedOn.Some?
    ensures exists i ::
      0 <= i < |records| && records[i].body == RunBatch(s, records).failedOn.value &&
      RunBatch(s, records[..i]).failedOn.None?
    decreases |records|
  {
    match Step(s, records[0])
    case None =>
      assert records[..0] == [];
    case Some(next) =>
      RunBatchFailure(next, records[1..]);
      var i :|
        0 <= i < |records[1..]| && records[1..][i].body == RunBatch(next, records[1..]).failedOn.value &&
        RunBatch(next, records[1..][..i]).failedOn.None?;
      assert records[..i + 1][0] == records[0] && records[..i + 1][1..] == records[1..][..i];
      assert records[i + 1].body == RunBatch(s, records).failedOn.value;
  }

  /**
   * The loop body as the source writes it.  Its re-delay branch raises: the
   * SQS service resource it builds has no `change_message_visibility`, and
   * a Lambda SQS record spells the key `receiptHandle`.  So a delivery that
   * is not resolved ends the invocation, like a missing record.
   */
  function StepAsWritten(s: State, d: Delivery): (r: Option<State>)
    ensures r.None? <==>
      d.body !in s.items || Decide(s.items[d.body], d.now, GetCurrentBtcPrice(d.feed)).Redelay?
    ensures r.Some? ==> r == Step(s, d) && r.value.requests == s.requests
  {
    if d.body !in s.items then None
    else
      match Decide(s.items[d.body], d.now, GetCurrentBtcPrice(d.feed))
      case ResolveNow => Step(s, d)
      case Redelay(_) => None
  }

  /** `handle_guesses` as written: each delivery by `StepAsWritten`, stopping at the first that raises. */
  function RunBatchAsWritten(s: State, records: seq<Delivery>): BatchResult
    decreases |records|
  {
    if records == [] then BatchResult(s, None)
    else
      match StepAsWritten(s, records[0])
      case None => BatchResult(s, Some(records[0].body))
      case Some(next) => RunBatchAsWritten(next, records[1..])
  }

  /** As written, the worker never changes a message's visibility: neither `timeleft` nor the floor is applied. */
  lemma {:induction false} AsWrittenNeverRedelays(s: State, records: seq<Delivery>)
    ensures RunBatchAsWritten(s, records).state.requests == s.requests
    decreases |records|
  {
    if records != [] {
      match StepAsWritten(s, records[0])
      case None =>
      case Some(next) =>
        AsWrittenNeverRedelays(next, records[1..]);
    }
  }

  /**
   * An early delivery ends the batch as written: alice's g1 has 30 seconds
   * left, so the invocation raises there and bob's g2, whose wait is over
   * and whose price has moved, is not resolved.  With the intended re-delay
   * g1 is pushed back by 30 seconds and g2 is resolved.
   */
  lemma EarlyDeliveryEndsBatchAsWritten()
    ensures var s := State(map[
        "g1" := Guess("g1", "alice", 1, 100, 100, false, 0),
        "g2" := Guess("g2", "bob", 1, 100, 0, false, 0)], []);
      var batch := [
        Delivery("g1", "h1", 130, Replied(200, Some(105))),
        Delivery("g2", "h2", 130, Replied(200, Some(105)))];
      && RunBatchAsWritten(s, batch) == BatchResult(s, Some("g1"))
      && RunBatch(s, batch).failedOn == None
      && RunBatch(s, batch).state.items["g2"] == s.items["g2"].(resolved := true, points := 1)
      && RunBatch(s, batch).state.requests == [ChangeMessageVisibility("h1", 30)]
  {
    var s := State(map[
        "g1" := Guess("g1", "alice", 1, 100, 100, false, 0),
        "g2" := Guess("g2", "bob", 1, 100, 0, false, 0)], []);
    var batch := [
        Delivery("g1", "h1", 130, Replied(200, Some(105))),
        Delivery("g2", "h2", 130, Replied(200, Some(105)))];
    assert batch[1..] == [batch[1]] && batch[1..][1..] == [];
  }

  /** A batch changes the state only as `Evolves` allows. */
  lemma {:induction false} RunBatchEvolves(s: State, records: seq<Delivery>)
    ensures Evolves(s, RunBatch(s, records).state)
    decreases |records|
  {
    if records != [] {
      match Step(s, records[0])
      case None =>
      case Some(next) =>
        RunBatchEvolves(next, records[1..]);
        EvolvesTransitive(s, next, RunBatch(next, records[1..]).state);
    }
  }

  lemma StepPreservesValid(s: State, d: Delivery)
    requires Valid(s.items) && Step(s, d).Some?
    ensures Valid(Step(s, d).value.items)
  {
  }

  /** A batch keeps the table's invariants, in particular at most one unresolved guess per user. */
  lemma {:induction false} RunBatchPreservesValid(s: State, records: seq<Delivery>)
    requires Valid(s.items)
    ensures Valid(RunBatch(s, records).state.items)
    decreases |records|
  {
    if records != [] {
      match Step(s, records[0])
      case None =>
      case Some(next) =>
        StepPreservesValid(s, records[0]);
        RunBatchPreservesValid(next, records[1..]);
    }
  }

  /** The batch `a + b` is the batch `a` followed, if it completed, by the batch `b`. */
  lemma {:induction false} RunBatchAppend(s: State, a: seq<Delivery>, b: seq<Delivery>)
    ensures RunBatch(s, a + b) ==
      if RunBatch(s, a).failedOn.Some? then RunBatch(s, a) else RunBatch(RunBatch(s, a).state, b)
    decreases |a|
  {
    if a == [] {
      assert a + b == b;
    } else {
      assert (a + b)[0] == a[0];
      assert (a + b)[1..] == a[1..] + b;
      match Step(s, a[0])
      case None =>
      case Some(next) =>
        RunBatchAppend(next, a[1..], b);
    }
  }

  /**
   * Resolving a delivery adds its points to the owner's score and changes no
   * one else's; a re-delay changes no score.
   */
  lemma StepScore(s: State, d: Delivery, username: string)
    requires Step(s, d).Some?
    ensures var g := s.items[d.body];
      var after := Step(s, d).value.items;
      Score(after, username) ==
        Score(s.items, username) +
        (if !g.resolved && after[d.body].resolved && g.username == username then after[d.body].points else 0)
  {
    var g := s.items[d.body];
    var after := Step(s, d).value.items;
    if after == s.items {
    } else {
      assert !g.resolved && after == s.items[d.body := g.(resolved := true, points := after[d.body].points)];
      ScoreAfterResolution(s.items, d.body, after[d.body].points, username);
    }
  }

  /** `Guess.resolve`: a single update setting `resolved` and `points`, skipped if already resolved. */
  method Resolve(table: Table, g: Guess, price: int)
    requires g.id in table.items && table.items[g.id] == g
    modifies table
    ensures table.items == old(table.items)[g.id := Resolved(g, price)]
  {
    if g.resolved {
      return;
    }
    var points := Points(g.prediction, g.baselinePrice, price);
    table.items := table.items[g.id := table.items[g.id].(resolved := true, points := points)];
  }

  /** One pass of the loop body, for a delivery whose record exists: the new state is `Step`'s. */
  method HandleDelivery(table: Table, sqs: Queue, d: Delivery)
    requires d.body in table.items && KeysMatch(table.items)
    modifies table, sqs
    ensures Step(State(old(table.items), old(sqs.requests)), d) == Some(State(table.items, sqs.requests))
    ensures KeysMatch(table.items)
  {
    var g := table.items[d.body];
    var timeleft := TimeLeftForResolution(g, d.now);
    var price := GetCurrentBtcPrice(d.feed);
    if timeleft <= 0 && HasPriceChanged(g, price) {
      Resolve(table, g, price);
    } else {
      var timeout := if timeleft > 0 then timeleft else RetryFloorSeconds;
      sqs.requests := sqs.requests + [ChangeMessageVisibility(d.receiptHandle, timeout)];
    }
  }

  /** `handle_guesses` with the intended re-delay, over the table and the queue: the loop computes `RunBatch`. */
  method HandleGuesses(table: Table, sqs: Queue, records: seq<Delivery>) returns (failedOn: Option<GuessId>)
    requires KeysMatch(table.items)
    modifies table, sqs
    ensures var r := RunBatch(State(old(table.items), old(sqs.requests)), records);
      table.items == r.state.items && sqs.requests == r.state.requests && failedOn == r.failedOn
  {
    ghost var start := State(table.items, sqs.requests);
    var i := 0;
    while i < |records|
      invariant 0 <= i <= |records|
      invariant KeysMatch(table.items)
      invariant RunBatch(start, records) == RunBatch(State(table.items, sqs.requests), records[i..])
    {
      var d := records[i];
      assert records[i..][0] == d && records[i..][1..] == records[i + 1..];
      if d.body !in table.items {
        return Some(d.body);
      }
      HandleDelivery(table, sqs, d);
      i := i + 1;
    }
    return None;
  }
}
