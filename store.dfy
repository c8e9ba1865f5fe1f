/**
 * The state the two backend functions share: the DynamoDB table of guess
 * records and the SQS resolution queue.  Both are modelled as plain objects
 * whose fields the API handler and the resolution worker update in place.
 * The module also holds the invariants every step keeps and the
 * specification of a user's score.
 */
module Store {

  datatype Option<T> = None | Some(value: T)

  /** Guess ids are the uuid4 strings the API generates. */
  type GuessId = string

  /** One item of the guess table, with the attributes the API writes. */
  datatype Guess = Guess(
    id: GuessId,
    username: string,
    prediction: int,      // the `guess` attribute: 1 for "up", -1 for "down"
    baselinePrice: int,
    guessedAt: int,       // timestamp of submission, in seconds
    resolved: bool,
    points: int)

  type Items = map<GuessId, Guess>

  /** A request the backend sends to the resolution queue. */
  datatype QueueRequest =
    | SendMessage(body: GuessId, delaySeconds: int)
    | ChangeMessageVisibility(receiptHandle: string, visibilityTimeout: int)

  /** The guess table, keyed by the `id` attribute. */
  class Table {
    var items: Items
  }

  /** The resolution queue, as the sequence of requests made to it. */
  class Queue {
    var requests: seq<QueueRequest>
  }

  /** Every item is stored under its own `id` attribute (it is the table's key). */
  ghost predicate KeysMatch(items: Items) {
    forall id :: id in items ==> items[id].id == id
  }

  /** No user has two unresolved guesses. */
  ghost predicate AtMostOneUnresolved(items: Items) {
    forall a, b ::
      (a in items && b in items && items[a].username == items[b].username &&
       !items[a].resolved && !items[b].resolved) ==> a == b
  }

  ghost predicate Valid(items: Items) {
    KeysMatch(items) && AtMostOneUnresolved(items)
  }

  /** The ids of the user's unresolved records (the index query filtered on `resolved = false`). */
  function UnresolvedIds(items: Items, username: string): set<GuessId> {
    set id | id in items && items[id].username == username && !items[id].resolved
  }

  /** The ids of the user's resolved records (the index query filtered on `resolved = true`). */
  function ResolvedIds(items: Items, username: string): set<GuessId> {
    set id | id in items && items[id].username == username && items[id].resolved
  }

  /** The sum of `points` over the records `ids`; at most one point per record either way. */
  ghost function SumPoints(items: Items, ids: set<GuessId>): (sum: int)
    requires ids <= items.Keys
    ensures ids == {} ==> sum == 0
    ensures (forall id :: id in ids ==> -1 <= items[id].points <= 1) ==> -|ids| <= sum <= |ids|
    decreases ids
  {
    if ids == {} then 0
    else
      var id :| id in ids;
      items[id].points + SumPoints(items, ids - {id})
  }

  /**
   * A user's score: the sum of `points` over exactly their resolved records.
   * It is 0 without resolved records, and with ±1 points it is bounded by
   * their number.
   */
  ghost function Score(items: Items, username: string): (score: int)
    ensures ResolvedIds(items, username) == {} ==> score == 0
    ensures (forall id :: id in ResolvedIds(items, username) ==> -1 <= items[id].points <= 1) ==>
      -|ResolvedIds(items, username)| <= score <= |ResolvedIds(items, username)|
  {
    SumPoints(items, ResolvedIds(items, username))
  }

  /** The sum may be split at any record, whichever one the definition picks first. */
  lemma {:induction false} SumPointsRemove(items: Items, ids: set<GuessId>, x: GuessId)
    requires ids <= items.Keys && x in ids
    ensures SumPoints(items, ids) == items[x].points + SumPoints(items, ids - {x})
    decreases |ids|
  {
    var y :| y in ids && SumPoints(items, ids) == items[y].points + SumPoints(items, ids - {y});
    if y != x {
      SumPointsRemove(items, ids - {y}, x);
      SumPointsRemove(items, ids - {x}, y);
      assert ids - {y} - {x} == ids - {x} - {y};
    }
  }

  /** The sum depends only on the points of the records summed. */
  lemma {:induction false} SumPointsAgree(a: Items, b: Items, ids: set<GuessId>)
    requires ids <= a.Keys && ids <= b.Keys
    requires forall id :: id in ids ==> a[id].points == b[id].points
    ensures SumPoints(a, ids) == SumPoints(b, ids)
    decreases |ids|
  {
    if ids != {} {
      var y :| y in ids && SumPoints(a, ids) == a[y].points + SumPoints(a, ids - {y});
      SumPointsAgree(a, b, ids - {y});
      SumPointsRemove(b, ids, y);
    }
  }

  /** Unresolved records contribute nothing: storing a new unresolved record changes no score. */
  lemma ScoreIgnoresUnresolved(items: Items, id: GuessId, g: Guess, username: string)
    requires id !in items && !g.resolved
    ensures Score(items[id := g], username) == Score(items, username)
  {
    var after := items[id := g];
    assert ResolvedIds(after, username) == ResolvedIds(items, username);
    SumPointsAgree(after, items, ResolvedIds(items, username));
  }

  /**
   * Resolving the unresolved record `id` with `points` adds those points to
   * its owner's score and changes nobody else's.
   */
  lemma ScoreAfterResolution(items: Items, id: GuessId, points: int, username: string)
    requires id in items && !items[id].resolved
    ensures var after := items[id := items[id].(resolved := true, points := points)];
      Score(after, username) ==
        Score(items, username) + (if items[id].username == username then points else 0)
  {
    var after := items[id := items[id].(resolved := true, points := points)];
    var before := ResolvedIds(items, username);
    if items[id].username == username {
      assert ResolvedIds(after, username) == before + {id};
      SumPointsRemove(after, before + {id}, id);
      assert before + {id} - {id} == before;
    } else {
      assert ResolvedIds(after, username) == before;
    }
    SumPointsAgree(after, items, before);
  }
}
