# BitBetty backend game logic, in Dafny

BitBetty lets a user guess whether the BTC price will go up or down. The
backend is two serverless functions that share one DynamoDB table of guess
records and one SQS resolution queue:

- the **API** (`backend/lambda/api/app.py`). `POST /guesses` checks the body.
  It means to refuse a user who still has an unresolved guess. As written, its
  query looks only at the user's first record (see Findings); the model's
  handler uses the corrected check. Otherwise it stores a
  new record (`resolved = false`, `points = 0`) and queues its id with a
  60-second delay. If queueing fails, it deletes the record again and answers
  500. `GET /scores/{username}` sums `points` over the user's resolved records.
- the **resolution worker** (`backend/lambda/resolution-worker/app.py`). For
  each delivered message it loads the guess and computes
  `timeleft = 60 - (now - guessed_at)`. It then reads the current price. It
  resolves the guess only when `timeleft <= 0` and the price differs from the
  baseline. Otherwise it means to push the message's visibility back by
  `timeleft`, or by 5 seconds once no time is left. As written, that call
  raises and ends the invocation (see Findings); the model keeps the
  as-written step beside the intended one. Resolving is a one-shot write: it is
  skipped for a resolved record, and otherwise sets `resolved = true` and
  `points = +1` for a correct call or `-1` for a wrong one.

The model has four modules, one file each:

- `store.dfy` (`Store`): the record type and the table (`Table.items`, a map
  from id to record). It also has the queue (`Queue.requests`, the requests
  sent to SQS) and the invariants the model's handlers keep: every record is stored
  under its own id, and no user has two unresolved guesses. A user's score is
  specified as a sum over their resolved records, with lemmas about how
  storing and resolving change it.
- `api.dfy` (`Api`): body parsing, the `Repository` and `ResolutionQ` classes
  (wrappers over the table and the queue, as in the source) and the two route
  handlers.
- `worker.dfy` (`Worker`): the price fallback, the time left, the decision,
  the points, `resolve`, and `handle_guesses`. The worker is a pure step
  function (`Step`, folded by `RunBatch`) plus the imperative loop
  (`HandleGuesses`), which is proved to compute that fold. Both use the
  intended re-delay; `StepAsWritten` and `RunBatchAsWritten` are the loop as
  the source writes it, where the re-delay raises.
- `scenario.dfy` (`Scenario`): a verified client that walks one user through
  two guesses via the handlers. The first guess is correct, the second wrong,
  and the score ends at 0.

Time is integer seconds and prices are integers; only equality and order are
used on them. Three things the source gets from outside become parameters:
`uuid4` becomes `freshId` (required not to be a key already), the SQS send
outcome becomes `accepted`, and each delivery carries both the clock reading
and the price-service reply seen while it is handled.

Two behaviours of the code that one might not expect are kept as written:

- A delivery whose record is missing raises inside the loop. That ends the
  whole batch: later deliveries are not handled (`RunBatch` returns
  `failedOn`). One might expect only that delivery to be abandoned.
- A failed price fetch (-1) is compared with the baseline like any price.
  `UnavailablePriceResolves` shows it can resolve a guess.

## Model

| member | source | states |
|---|---|---|
| `Api.MissingFieldMessage` | backend/lambda/api/app.py:24-27 | The 400 message is the fixed prefix, then the field's name in quotes; the name can be read back from it. |
| `Api.NewGuess` | backend/lambda/api/app.py:74-83 | The stored item has the new id, `resolved = false` and `points = 0`, and the submission's four fields can be read back from it unchanged. |
| `Api.ParseBody` | backend/lambda/api/app.py:19-27 | The body is complete iff all four fields are present. Otherwise the reported field is the first one absent, in the order username, guess, baseline_price, guessed_at. |
| `Api.Repository.AddGuess` | backend/lambda/api/app.py:71-86 | Puts exactly one record, under the fresh id it returns. The record carries the given fields, `resolved = false` and `points = 0`; every other record is unchanged. |
| `Api.Repository.HasUnresolvedGuesses` | backend/lambda/api/app.py:91-99 | True iff some record has this username and `resolved = false`. This is the corrected check; see Findings. |
| `Api.Repository.GetScore` | backend/lambda/api/app.py:105-115 | The loop returns exactly `Score`: the sum of `points` over the user's resolved records. |
| `Api.Repository.Rollback` | backend/lambda/api/app.py:121-128 | Removes only the given key; every other record is unchanged. |
| `Api.ResolutionQ.AddToQueue` | backend/lambda/api/app.py:136-143 | On success the queue gains exactly one message: the id with delay 60. On failure the queue is unchanged and the failure is reported. |
| `Api.AddGuessHandler` | backend/lambda/api/app.py:14-50 | Missing field: 400 naming it, nothing stored or queued. Unresolved guess outstanding: 400, nothing stored or queued. Success: 201 with the fresh id, exactly one new unresolved record and one queued message with delay 60. Queue failure: 500, and the table equals its state before the call. The table invariants are preserved. |
| `Api.GetScoreHandler` | backend/lambda/api/app.py:53-60 | Answers 200 with the user's score. |
| `Api.HasUnresolvedLimit1` | backend/lambda/api/app.py:93-99 | The query as written, which looks only at the user's first record in index order. Its contract states soundness: a true answer means the user has an unresolved record. The counterexample lemmas show it can miss one. |
| `Api.Limit1MissesUnresolvedGuess` | backend/lambda/api/app.py:93-99 | A table where the as-written query reports no unresolved guess although the user has one. |
| `Api.Limit1AdmitsSecondUnresolvedGuess` | backend/lambda/api/app.py:29-34 | On that table the as-written check lets a third guess in, which breaks the one-outstanding-guess invariant. The corrected check refuses it. |
| `Store.SumPointsRemove` | backend/lambda/api/app.py:114 | The sum of points can be split at any record, so the order in which records are summed does not matter. |
| `Store.SumPoints` | backend/lambda/api/app.py:114 | The sum over no records is 0. When every record holds between -1 and 1 points, the sum lies between minus and plus the number of records. |
| `Store.Score` | backend/lambda/api/app.py:107-115 | The score sums the user's resolved records only. A user with none scores 0. With ±1 points the score is bounded by the number of resolved records. |
| `Store.ScoreIgnoresUnresolved` | backend/lambda/api/app.py:107-111 | Storing a new unresolved record changes no user's score. |
| `Store.ScoreAfterResolution` | backend/lambda/resolution-worker/app.py:68-85 | Resolving an unresolved record adds its points to its owner's score and changes no one else's. |
| `Worker.GetCurrentBtcPrice` | backend/lambda/resolution-worker/app.py:90-108 | Never raises; a request that hangs is not covered (see Left out). The result is the reported rate for a 200 reply that has one, and -1 for anything else (non-200, missing rate, raised). |
| `Worker.TimeLeftForResolution` | backend/lambda/resolution-worker/app.py:53-57 | The time left is 0 or less exactly when 60 seconds have passed since `guessed_at`. Waiting that long from now ends exactly at the end of the wait. |
| `Worker.Points` | backend/lambda/resolution-worker/app.py:67-86 | Always +1 or -1. +1 iff the prediction is 1 and the price is above the baseline, or -1 and below it. Equal prices score -1. |
| `Worker.Resolved` | backend/lambda/resolution-worker/app.py:62-87 | The result is resolved. A resolved record is unchanged. For an unresolved one, only `resolved` and `points` change, and points follow `Points`. |
| `Worker.ResolveIdempotent` | backend/lambda/resolution-worker/app.py:63-64 | Resolving twice equals resolving once, whatever price the second attempt sees. |
| `Worker.Decide` | backend/lambda/resolution-worker/app.py:21-30 | Resolves iff the wait is over and the price differs from the baseline (the comparison `has_price_changed` makes at line 60, modelled by the helper `HasPriceChanged`). An early delivery is re-delayed by exactly the time left. An elapsed one with an unchanged price is re-delayed by 5. Every re-delay is positive. |
| `Worker.UnavailablePriceResolves` | backend/lambda/resolution-worker/app.py:22-24 | A failed fetch (-1) after the wait resolves a "down" guess on a positive baseline, as correct. |
| `Worker.Step` | backend/lambda/resolution-worker/app.py:18-30 | One delivery, with the intended re-delay. It fails iff its record is missing. Once 60 seconds have passed and the price differs from the baseline, the record becomes `Resolved(g, price)` and nothing is queued. Otherwise the table is unchanged and one visibility change is queued: the time left, or 5 once none is left. |
| `Worker.RunBatch` | backend/lambda/resolution-worker/app.py:17-30 | The intended batch creates and deletes no record. It fails only on a delivery whose record is missing. |
| `Worker.RunBatchFailure` | backend/lambda/resolution-worker/app.py:17-20 | A failed batch names one of its own deliveries, and every delivery before that one was handled without failing. |
| `Worker.StepAsWritten` | backend/lambda/resolution-worker/app.py:17-30 | The loop body as written: a delivery fails iff its record is missing or its decision is a re-delay. A delivery that succeeds makes no queue request. |
| `Worker.RunBatchAsWritten` | backend/lambda/resolution-worker/app.py:17-30 | The batch as written: deliveries in order, stopping at the first one that raises. |
| `Worker.AsWrittenNeverRedelays` | backend/lambda/resolution-worker/app.py:25-30 | As written, a batch never changes any message's visibility, so neither the time left nor the 5-second floor is ever applied. |
| `Worker.EarlyDeliveryEndsBatchAsWritten` | backend/lambda/resolution-worker/app.py:25-30 | A concrete batch: an early first delivery ends it as written, so the second guess stays unresolved. With the intended re-delay the first is pushed back by 30 seconds and the second is resolved. |
| `Worker.RunBatchEvolves` | backend/lambda/resolution-worker/app.py:17-30 | A batch creates and deletes no record. It changes a record only by resolving it once with ±1, never touches a resolved record, and queues only visibility changes with positive timeouts. |
| `Worker.StepPreservesValid` | backend/lambda/resolution-worker/app.py:23-24 | One delivery keeps the table invariants. |
| `Worker.RunBatchPreservesValid` | backend/lambda/resolution-worker/app.py:17-30 | A batch keeps the table invariants, including at most one unresolved guess per user. |
| `Worker.RunBatchAppend` | backend/lambda/resolution-worker/app.py:17 | Deliveries are handled in order. A batch `a + b` is batch `a`, then batch `b` if `a` completed. |
| `Worker.StepScore` | backend/lambda/resolution-worker/app.py:23-24 | A delivery that resolves adds the awarded points to the owner's score. Any other delivery changes no score. |
| `Worker.Resolve` | backend/lambda/resolution-worker/app.py:62-87 | A single update of the stored record to `Resolved(g, price)`; every other record is unchanged. |
| `Worker.HandleDelivery` | backend/lambda/resolution-worker/app.py:20-30 | One pass of the loop body for a present record: the table and the queue requests it leaves are exactly `Step`'s new state, and records stay under their own ids. |
| `Worker.HandleGuesses` | backend/lambda/resolution-worker/app.py:15-30 | The loop with the intended re-delay: its final table, queue requests and failure equal `RunBatch` over the deliveries in order. |

## Left out

- DynamoDB, SQS and Chalice clients, routing and `Response` objects. The table is a map, the queue is the sequence of requests sent to it, and a response is a status code with a body.
- Failures of the table in the API (a `ClientError` from put, query or delete). Each one escapes the handler, and Chalice answers 500. The model's table operations do not fail.
- Failures of the table in the worker (a `ClientError` from get or update). Each one fails the Lambda invocation, and SQS redelivers the batch later; there is no HTTP answer. The model's table operations do not fail.
- Eventual consistency of `username-index`. The table's only key is `id`, so that index is a global secondary index, and DynamoDB reads it only with eventual consistency. `has_unresolved_guesses` and `get_score` can therefore miss a put or update made moments earlier, even by a request sent just before. The model's checks read the current table, and `AddGuessHandler` keeps at most one unresolved guess per user only under that reading.
- A request without a JSON body (`json_body` is None). Indexing it raises a TypeError, which becomes a 500 from the framework. That path is not modelled.
- The HTTP call to CoinDesk. The feed reply is an input (`FeedResponse`); only the fallback to -1 is modelled. The call sets no timeout, so a stalled price service ends the invocation at the Lambda timeout with neither a price nor -1; the model has no such reply.
- ISO-8601 parsing of `guessed_at`, `datetime.now`, and fractional seconds. Time is integer seconds, so `timeleft` and the visibility timeout are integers.
- `Decimal` and float conversions of `guess`, `baseline_price` and the price. These are integers, compared only for equality and order. What is lost is the price comparison itself: the baseline is stored as a `Decimal` of the decimal string the client sends, while the price is the float `rate_float`, and Python compares the two by exact value. An unchanged quote that is not an exact binary fraction (65432.1234, say) therefore compares as changed. The source then resolves it and scores it by which way the float rounded. The model's "equal prices never resolve" (`Worker.Decide`) and "equal prices score -1" (`Worker.Points`) are about equal values, which in the source holds only for quotes that are exact binary fractions.
- Api.Repository.GetScore: does not model DynamoDB's 1 MB query page. The source reads one page and ignores `LastEvaluatedKey`, so it sums only the first page of the user's records; the model sums all of them.
- A failed price fetch is not told apart from a price. The model keeps the source's comparison of the sentinel -1 with the baseline, and `UnavailablePriceResolves` shows what follows from it.
- `uuid4`. The id is a parameter that is required not to be a key already.
- Concurrency: two submissions racing past the unresolved check, and duplicate deliveries racing over `resolve`. Each invocation is one atomic step, so the read-check-then-write in `resolve` is modelled as if atomic.
- SQS message lifetime. After a failed invocation the queue redelivers the batch once its own visibility timeout expires; after a successful one it deletes the messages. The queue records only what the backend asks of it.
- Logging (`print`).
- The frontend (`frontend/bitbetty`). It is UI code with no backend invariant.

## Findings

| source | as written | input that shows it | evidently intended | confidence | as-written member | corrected member |
|---|---|---|---|---|---|---|
| backend/lambda/api/app.py:93-99 | The query on the username index has both `Limit=1` and a filter on `resolved = false`. DynamoDB applies the limit to the items it reads, before the filter, so only the user's first record in index order is examined. | alice has g1 resolved (first in index order) and g2 unresolved. The check reports no unresolved guess, so a third guess is stored next to g2. | True iff any of the user's records is unresolved, keeping one outstanding guess per user. | high (documented DynamoDB query semantics); not executed | `Api.HasUnresolvedLimit1`, `Api.Limit1MissesUnresolvedGuess`, `Api.Limit1AdmitsSecondUnresolvedGuess` | `Api.Repository.HasUnresolvedGuesses` (used by `Api.AddGuessHandler`) |
| backend/lambda/resolution-worker/app.py:26-30 | The re-delay branch calls `change_message_visibility` on `boto3.resource('sqs')`. That service resource has no such method; the call passes no `QueueUrl`; it reads `record['ReceiptHandle']`, but a Lambda SQS record spells it `receiptHandle`. Any delivery that is not resolved raises: the batch stops and no visibility change is made. | alice's g1 (submitted at 100) and bob's g2 (submitted at 0, baseline 100), both delivered at 130 with the price at 105. The batch raises at g1, and g2 is not resolved. | The message is pushed back by the time left, or by 5 seconds, and the batch goes on. For the message to survive a successful batch it must also be reported as a batch item failure, since Lambda deletes a successful batch's messages; the model records only the visibility change. | high (boto3's SQS service resource and the Lambda SQS event format); not executed | `Worker.StepAsWritten`, `Worker.RunBatchAsWritten`, `Worker.AsWrittenNeverRedelays`, `Worker.EarlyDeliveryEndsBatchAsWritten` | `Worker.Step`, `Worker.RunBatch`, `Worker.HandleGuesses` |
