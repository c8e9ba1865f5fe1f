/**
 * A client of the model: alice guesses "up" at 100 and is right when the
 * price reaches 105, then guesses "up" at 105 and is wrong when it falls to
 * 100, ending with a score of 0.  Every step goes through the handlers.
 */
module Scenario {
  import opened Store
  import opened Api
  import opened Worker

  function FirstGuess(): Guess { Guess("g1", "alice", 1, 100, 0, false, 0) }
  function SecondGuess(): Guess { Guess("g2", "alice", 1, 105, 100, false, 0) }

  method AliceScenario(table: Table, sqs: Queue)
    requires table.items == map[] && sqs.requests == []
    modifies table, sqs
    ensures Score(table.items, "alice") == 0
  {
    SubmitFirst(table, sqs);
    RefuseWhileOutstanding(table, sqs);
    DeliverEarly(table, sqs);
    ResolveFirst(table, sqs);
    SubmitSecond(table, sqs);
    ResolveSecond(table, sqs);
  }

  /** "up" from 100 at time 0 is stored and queued; alice scores 0. */
  method SubmitFirst(table: Table, sqs: Queue)
    requires table.items == map[] && sqs.requests == []
    modifies table, sqs
    ensures table.items == map["g1" := FirstGuess()] && sqs.requests == [SendMessage("g1", 60)]
    ensures Score(table.items, "alice") == 0
  {
    var body := RequestBody(Some("alice"), Some(1), Some(100), Some(0));
    assert Admissible(map[], body);
    var r := AddGuessHandler(table, sqs, body, "g1", true);
    assert r == Response(201, Created("g1", AddedMessage));
    assert ResolvedIds(map[], "alice") == {};
    ScoreIgnoresUnresolved(map[], "g1", FirstGuess(), "alice");
  }

  /** A second submission while the first is outstanding is refused. */
  method RefuseWhileOutstanding(table: Table, sqs: Queue)
    requires table.items == map["g1" := FirstGuess()]
    modifies table, sqs
    ensures table.items == old(table.items) && sqs.requests == old(sqs.requests)
  {
    assert "g1" in UnresolvedIds(table.items, "alice");
    var r := AddGuessHandler(table, sqs, RequestBody(Some("alice"), Some(-1), Some(100), Some(10)), "gx", true);
    assert r == Response(400, Message(UnresolvedMessage));
  }

  /** Delivered at time 30: re-delayed by the 30 seconds left. */
  method DeliverEarly(table: Table, sqs: Queue)
    requires table.items == map["g1" := FirstGuess()]
    modifies table, sqs
    ensures table.items == old(table.items)
    ensures sqs.requests == old(sqs.requests) + [ChangeMessageVisibility("h1", 30)]
  {
    var d := Delivery("g1", "h1", 30, Replied(200, Some(105)));
    assert Decide(FirstGuess(), 30, 105) == Redelay(30);
    var f := HandleGuesses(table, sqs, [d]);
    assert [d][1..] == [];
    assert f == None;
  }

  /** Delivered at time 60 with the price at 105: correct, alice scores 1. */
  method ResolveFirst(table: Table, sqs: Queue)
    requires table.items == map["g1" := FirstGuess()]
    modifies table, sqs
    ensures table.items == map["g1" := FirstGuess().(resolved := true, points := 1)]
    ensures Score(table.items, "alice") == 1
  {
    var d := Delivery("g1", "h2", 60, Replied(200, Some(105)));
    assert Decide(FirstGuess(), 60, 105) == ResolveNow;
    var f := HandleGuesses(table, sqs, [d]);
    assert [d][1..] == [];
    assert f == None;
    assert ResolvedIds(map["g1" := FirstGuess()], "alice") == {};
    ScoreAfterResolution(map["g1" := FirstGuess()], "g1", 1, "alice");
    var s := GetScoreHandler(table, "alice");
    assert s == Response(200, ScoreBody(1));
  }

  /** With nothing outstanding, "up" from 105 at time 100 is accepted. */
  method SubmitSecond(table: Table, sqs: Queue)
    requires table.items == map["g1" := FirstGuess().(resolved := true, points := 1)]
    requires Score(table.items, "alice") == 1
    modifies table, sqs
    ensures table.items == old(table.items)["g2" := SecondGuess()]
    ensures Score(table.items, "alice") == 1
  {
    var body := RequestBody(Some("alice"), Some(1), Some(105), Some(100));
    assert UnresolvedIds(table.items, "alice") == {};
    ghost var before := table.items;
    var r := AddGuessHandler(table, sqs, body, "g2", true);
    assert r == Response(201, Created("g2", AddedMessage));
    ScoreIgnoresUnresolved(before, "g2", SecondGuess(), "alice");
  }

  /** Delivered at time 160 with the price at 100: wrong, alice is back to 0. */
  method ResolveSecond(table: Table, sqs: Queue)
    requires table.items == map["g1" := FirstGuess().(resolved := true, points := 1), "g2" := SecondGuess()]
    requires Score(table.items, "alice") == 1
    modifies table, sqs
    ensures Score(table.items, "alice") == 0
  {
    ghost var before := table.items;
    var d := Delivery("g2", "h3", 160, Replied(200, Some(100)));
    assert Decide(SecondGuess(), 160, 100) == ResolveNow;
    assert Points(1, 105, 100) == -1;
    var f := HandleGuesses(table, sqs, [d]);
    assert [d][1..] == [];
    assert f == None;
    assert table.items == before["g2" := SecondGuess().(resolved := true, points := -1)];
    ScoreAfterResolution(before, "g2", -1, "alice");
  }
}
