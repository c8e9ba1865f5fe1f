/**
 * The submission and score API: the `POST /guesses` and
 * `GET /scores/{username}` handlers, the `Repository` over the guess table
 * and the `ResolutionQ` over the resolution queue.
 */
module Api {
  import opened Store

  /** The delay before a new guess is first delivered to the worker. */
  const InitialDelaySeconds := 60

  /** The JSON body of a submission; each field may be absent. */
  datatype RequestBody = RequestBody(
    username: Option<string>,
    guess: Option<int>,
    baselinePrice: Option<int>,
    guessedAt: Option<int>)

  datatype Submission = Submission(username: string, guess: int, baselinePrice: int, guessedAt: int)

  /** The fields read from a body, or the first required field it lacks. */
  datatype Parsed = Complete(submission: Submission) | MissingField(name: string)

  datatype ResponseBody =
    | Message(message: string)
    | Created(guess: GuessId, message: string)
    | ScoreBody(score: int)

  datatype Response = Response(statusCode: int, body: ResponseBody)

  /**
   * The message of the 400 response; a KeyError prints its key in quotes,
   * and the field's name can be read back from the message.
   */
  function MissingFieldMessage(name: string): (m: string)
    ensures |m| == |name| + 26 && m[25..|m| - 1] == name
    ensures m[..25] == "Missing required field: '" && m[|m| - 1] == '\''
  {
    "Missing required field: '" + name + "'"
  }

  const UnresolvedMessage := "User already has an unresolved guess"
  const EnqueueFailedMessage := "Could not add the guess for resolution"
  const AddedMessage := "Guess added successfully"

  /**
   * Reads the four required fields in the order the handler does; the first
   * one that is absent is the one reported.
   */
  function ParseBody(body: RequestBody): (p: Parsed)
    ensures p.Complete? <==>
      body.username.Some? && body.guess.Some? && body.baselinePrice.Some? && body.guessedAt.Some?
    ensures p.Complete? ==>
      p.submission == Submission(body.username.value, body.guess.value, body.baselinePrice.value, body.guessedAt.value)
    ensures p == MissingField("username") <==> body.username.None?
    ensures p == MissingField("guess") <==> body.username.Some? && body.guess.None?
    ensures p == MissingField("baseline_price") <==>
      body.username.Some? && body.guess.Some? && body.baselinePrice.None?
    ensures p == MissingField("guessed_at") <==>
      body.username.Some? && body.guess.Some? && body.baselinePrice.Some? && body.guessedAt.None?
  {
    if body.username.None? then MissingField("username")
    else if body.guess.None? then MissingField("guess")
    else if body.baselinePrice.None? then MissingField("baseline_price")
    else if body.guessedAt.None? then MissingField("guessed_at")
    else Complete(Submission(body.username.value, body.guess.value, body.baselinePrice.value, body.guessedAt.value))
  }

  /** The item `Repository.AddGuess` puts: unresolved, with no points, and the submission readable back. */
  function NewGuess(id: GuessId, s: Submission): (g: Guess)
    ensures g.id == id && !g.resolved && g.points == 0
    ensures Submission(g.username, g.prediction, g.baselinePrice, g.guessedAt) == s
  {
    Guess(id, s.username, s.guess, s.baselinePrice, s.guessedAt, false, 0)
  }

  class Repository {
    const table: Table

    constructor (table: Table)
      ensures this.table == table
    {
      this.table := table;
    }

    /** Puts a fresh record under the new id `guessId` (the uuid the source draws). */
    method AddGuess(guessId: GuessId, s: Submission) returns (id: GuessId)
      requires guessId !in table.items
      modifies table
      ensures id == guessId
      ensures table.items == old(table.items)[guessId := NewGuess(guessId, s)]
    {
      table.items := table.items[guessId := NewGuess(guessId, s)];
      id := guessId;
    }

    /** Whether the user has a record that is not yet resolved. */
    function HasUnresolvedGuesses(username: string): (b: bool)
      reads table
      ensures b <==>
        exists id :: id in table.items && table.items[id].username == username && !table.items[id].resolved
    {
      var found := UnresolvedIds(table.items, username);
      assert forall id :: id in table.items && table.items[id].username == username && !table.items[id].resolved ==> id in found;
      found != {}
    }

    /** Sums `points` over the user's resolved records. */
    method GetScore(username: string) returns (score: int)
      ensures score == Score(table.items, username)
    {
      var remaining := ResolvedIds(table.items, username);
      score := 0;
      while remaining != {}
        invariant remaining <= ResolvedIds(table.items, username)
        invariant score + SumPoints(table.items, remaining) == Score(table.items, username)
        decreases remaining
      {
        var id :| id in remaining;
        SumPointsRemove(table.items, remaining, id);
        score := score + table.items[id].points;
        remaining := remaining - {id};
      }
    }

    /** Deletes the record `guessId`; deleting an absent key does nothing. */
    method Rollback(guessId: GuessId)
      modifies table
      ensures table.items == old(table.items) - {guessId}
      ensures forall id :: id in old(table.items) && id != guessId ==>
        id in table.items && table.items[id] == old(table.items)[id]
    {
      table.items := table.items - {guessId};
    }
  }

  class ResolutionQ {
    const sqs: Queue

    constructor (sqs: Queue)
      ensures this.sqs == sqs
    {
      this.sqs := sqs;
    }

    /**
     * Sends the guess id with a 60-second delay; `accepted` says whether the
     * queue took the message, and the result reports it (false stands for the
     * raised ClientError).
     */
    method AddToQueue(guessId: GuessId, accepted: bool) returns (sent: bool)
      modifies sqs
      ensures sent == accepted
      ensures sqs.requests ==
        if accepted then old(sqs.requests) + [SendMessage(guessId, InitialDelaySeconds)]
        else old(sqs.requests)
    {
      if accepted {
        sqs.requests := sqs.requests + [SendMessage(guessId, InitialDelaySeconds)];
      }
      sent := accepted;
    }
  }

  /** The submission would be accepted: complete, and its user has nothing outstanding. */
  ghost predicate Admissible(items: Items, body: RequestBody) {
    ParseBody(body).Complete? && UnresolvedIds(items, ParseBody(body).submission.username) == {}
  }

  /**
   * `POST /guesses`.  `freshId` is the uuid the repository draws and
   * `accepted` whether the queue takes the message.
   */
  method AddGuessHandler(table: Table, sqs: Queue, body: RequestBody, freshId: GuessId, accepted: bool)
    returns (resp: Response)
    requires freshId !in table.items
    modifies table, sqs
    // a missing field: 400 naming it, nothing stored or queued
    ensures ParseBody(body).MissingField? ==>
      && resp == Response(400, Message(MissingFieldMessage(ParseBody(body).name)))
      && table.items == old(table.items) && sqs.requests == old(sqs.requests)
    // an unresolved guess outstanding: 400, nothing stored or queued
    ensures ParseBody(body).Complete? && !old(Admissible(table.items, body)) ==>
      && resp == Response(400, Message(UnresolvedMessage))
      && table.items == old(table.items) && sqs.requests == old(sqs.requests)
    // success: one new unresolved record under the fresh id, one message with delay 60
    ensures old(Admissible(table.items, body)) && accepted ==>
      && resp == Response(201, Created(freshId, AddedMessage))
      && table.items == old(table.items)[freshId := NewGuess(freshId, ParseBody(body).submission)]
      && sqs.requests == old(sqs.requests) + [SendMessage(freshId, InitialDelaySeconds)]
    // the queue refuses: the record is rolled back and the answer is 500
    ensures old(Admissible(table.items, body)) && !accepted ==>
      && resp == Response(500, Message(EnqueueFailedMessage))
      && table.items == old(table.items) && sqs.requests == old(sqs.requests)
    ensures old(Valid(table.items)) ==> Valid(table.items)
  {
    var parsed := ParseBody(body);
    if parsed.MissingField? {
      return Response(400, Message(MissingFieldMessage(parsed.name)));
    }
    var s := parsed.submission;
    var repo := new Repository(table);
    if repo.HasUnresolvedGuesses(s.username) {
      return Response(400, Message(UnresolvedMessage));
    }
    ghost var before := table.items;
    assert UnresolvedIds(before, s.username) == {};
    var guessId := repo.AddGuess(freshId, s);
    var queue := new ResolutionQ(sqs);
    var sent := queue.AddToQueue(guessId, accepted);
    if !sent {
      repo.Rollback(guessId);
      assert table.items == before;
      return Response(500, Message(EnqueueFailedMessage));
    }
    resp := Response(201, Created(guessId, AddedMessage));
  }

  /** `GET /scores/{username}`: 200 with the user's score. */
  method GetScoreHandler(table: Table, username: string) returns (resp: Response)
    ensures resp == Response(200, ScoreBody(Score(table.items, username)))
  {
    var repo := new Repository(table);
    var score := repo.GetScore(username);
    resp := Response(200, ScoreBody(score));
  }

  /**
   * `has_unresolved_guesses` as the source writes it: a query on the
   * username index with `Limit=1` and a filter on `resolved = false`.
   * DynamoDB applies the limit to the items it reads and the filter after
   * it, so only the first of the user's records in index order (`order`) is
   * examined.
   */
  function HasUnresolvedLimit1(items: Items, username: string, order: seq<GuessId>): (b: bool)
    requires IndexOrder(items, username, order)
    ensures b ==> UnresolvedIds(items, username) != {}
  {
    if |order| == 0 then false
    else
      var first := order[0];
      assert first in UnresolvedIds(items, username) <== !items[first].resolved;
      !items[first].resolved
  }

  /** `order` lists exactly the user's records, each once. */
  ghost predicate IndexOrder(items: Items, username: string, order: seq<GuessId>) {
    && (forall i :: 0 <= i < |order| ==> order[i] in items && items[order[i]].username == username)
    && (forall id :: id in items && items[id].username == username ==> id in order)
    && (forall i, j :: 0 <= i < j < |order| ==> order[i] != order[j])
  }

  /**
   * The limited query misses an outstanding guess: alice's first record in
   * the index is resolved and her second is not, yet the query reports none.
   */
  lemma Limit1MissesUnresolvedGuess()
    ensures var items := map[
        "g1" := Guess("g1", "alice", 1, 100, 0, true, 1),
        "g2" := Guess("g2", "alice", 1, 105, 120, false, 0)];
      && IndexOrder(items, "alice", ["g1", "g2"])
      && !HasUnresolvedLimit1(items, "alice", ["g1", "g2"])
      && UnresolvedIds(items, "alice") == {"g2"}
  {
  }

  /**
   * With the limited query a second outstanding guess gets in: storing a
   * third unresolved guess for alice after it reported none breaks the
   * one-outstanding-guess invariant.  The corrected check refuses it.
   */
  lemma Limit1AdmitsSecondUnresolvedGuess()
    ensures var items := map[
        "g1" := Guess("g1", "alice", 1, 100, 0, true, 1),
        "g2" := Guess("g2", "alice", 1, 105, 120, false, 0)];
      var body := RequestBody(Some("alice"), Some(-1), Some(110), Some(200));
      && Valid(items)
      && !HasUnresolvedLimit1(items, "alice", ["g1", "g2"])
      && !Valid(items["g3" := NewGuess("g3", ParseBody(body).submission)])
      && !Admissible(items, body)
  {
    var items := map[
        "g1" := Guess("g1", "alice", 1, 100, 0, true, 1),
        "g2" := Guess("g2", "alice", 1, 105, 120, false, 0)];
    var body := RequestBody(Some("alice"), Some(-1), Some(110), Some(200));
    var after := items["g3" := NewGuess("g3", ParseBody(body).submission)];
    assert !AtMostOneUnresolved(after) by {
      assert after["g2"].username == after["g3"].username && !after["g2"].resolved && !after["g3"].resolved;
    }
    assert "g2" in UnresolvedIds(items, "alice");
  }
}
