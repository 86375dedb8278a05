/** What the five store operations promise, stated over the map-step functions. */
module RepositoryProperties {
  import opened Seqs
  import opened Domain
  import opened Repository

  // ---------------------------------------------------------------------------
  // Create
  // ---------------------------------------------------------------------------

  /** A fresh ID gets a record with one zero count per option, status "active" and
      the given creator; the options handed back are the ones given; nothing else moves.
      An ID already present is refused and the store is left as it was. */
  lemma CreateInserts(polls: Polls, pollId: string, question: string, options: seq<string>, creatorId: string)
    ensures var (after, r) := Create(polls, pollId, question, options, creatorId);
      if pollId in polls then
        after == polls && r == Err(DuplicateKey(pollId))
      else
        && r == Ok(Created(pollId, options))
        && after.Keys == polls.Keys + {pollId}
        && after[pollId].id == pollId
        && after[pollId].question == question
        && after[pollId].options == options
        && after[pollId].creatorId == creatorId
        && after[pollId].status == ActiveStatus
        && |after[pollId].votes| == |options|
        && (forall i :: 0 <= i < |options| ==> after[pollId].votes[i] == 0)
        && Sum(after[pollId].votes) == 0
        && (forall id :: id in polls ==> after[id] == polls[id])
  {
    if pollId !in polls {
      SumZeros(|options|);
    }
  }

  /** A fresh poll reports a zero count for every option. */
  lemma CreateThenResults(polls: Polls, pollId: string, question: string, options: seq<string>, creatorId: string)
    requires pollId !in polls
    ensures var after := Create(polls, pollId, question, options, creatorId).0;
      Results(after, pollId) == Ok(seq(|options|, i requires 0 <= i < |options| => VoteResult(question, options[i], 0)))
  {
    var after := Create(polls, pollId, question, options, creatorId).0;
    assert PollResults(after[pollId]) == seq(|options|, i requires 0 <= i < |options| => VoteResult(question, options[i], 0));
  }

  // ---------------------------------------------------------------------------
  // Cast
  // ---------------------------------------------------------------------------

  /** Casting into a missing poll fails with NotFound and writes nothing. */
  lemma CastMissingPoll(polls: Polls, pollId: string, option: string)
    requires pollId !in polls
    ensures Cast(polls, pollId, option) == (polls, Fail(NotFound(pollId)))
  {
  }

  /** Exactly when a cast succeeds: the poll exists, its counts are empty or as long
      as its options, and the option is one of them. On failure nothing is written. */
  lemma CastSucceedsIff(polls: Polls, pollId: string, option: string)
    ensures var (after, r) := Cast(polls, pollId, option);
      && (r == Pass <==>
            && pollId in polls
            && (|polls[pollId].votes| == 0 || |polls[pollId].votes| == |polls[pollId].options|)
            && option in polls[pollId].options)
      && (r.Fail? ==> after == polls)
  {
  }

  /** A successful cast adds exactly one to the count of the first option equal to the
      submitted text and changes nothing else: no other count, no other field, no other poll. */
  lemma CastIncrementsFirstMatch(polls: Polls, pollId: string, option: string)
    requires pollId in polls
    requires Cast(polls, pollId, option).1 == Pass
    ensures var p := polls[pollId];
      var after := Cast(polls, pollId, option).0;
      var before := CastBase(p);
      exists k ::
        && 0 <= k < |p.options|
        && p.options[k] == option
        && (forall j :: 0 <= j < k ==> p.options[j] != option)
        && after.Keys == polls.Keys
        && (forall id :: id in polls && id != pollId ==> after[id] == polls[id])
        && after[pollId] == p.(votes := after[pollId].votes)
        && |after[pollId].votes| == |before| == |p.options|
        && after[pollId].votes[k] == before[k] + 1
        && (forall j :: 0 <= j < |before| && j != k ==> after[pollId].votes[j] == before[j])
        && Sum(after[pollId].votes) == Sum(before) + 1
  {
    var p := polls[pollId];
    var k := FirstIndex(p.options, option).value;
    SumIncrement(CastBase(p), k);
  }

  /** An option that is not in the poll fails the cast and writes nothing. */
  lemma CastUnknownOption(polls: Polls, pollId: string, option: string)
    requires pollId in polls
    requires option !in polls[pollId].options
    requires |polls[pollId].votes| == 0 || |polls[pollId].votes| == |polls[pollId].options|
    ensures Cast(polls, pollId, option) == (polls, Fail(OptionNotFound(option)))
  {
  }

  /** Stored counts that are present but not parallel to the options are an error, with no write. */
  lemma CastMismatchedVotes(polls: Polls, pollId: string, option: string)
    requires pollId in polls
    requires |polls[pollId].votes| != 0 && |polls[pollId].votes| != |polls[pollId].options|
    ensures Cast(polls, pollId, option) == (polls, Fail(VotesMismatch))
  {
  }

  /** An empty count sequence is read as all zeros: the write-back is a single one at the chosen option. */
  lemma CastOnEmptyVotes(polls: Polls, pollId: string, option: string, k: nat)
    requires pollId in polls && polls[pollId].votes == []
    requires k < |polls[pollId].options| && polls[pollId].options[k] == option
    requires forall j :: 0 <= j < k ==> polls[pollId].options[j] != option
    ensures Cast(polls, pollId, option) ==
      (polls[pollId := polls[pollId].(votes := Zeros(|polls[pollId].options|)[k := 1])], Pass)
  {
  }

  /** The status is never read: a cast does the same whatever status the poll has,
      so a closed poll still takes votes. */
  lemma CastIgnoresStatus(polls: Polls, pollId: string, option: string, status: string)
    requires pollId in polls
    ensures var relabelled := polls[pollId := polls[pollId].(status := status)];
      && Cast(relabelled, pollId, option).1 == Cast(polls, pollId, option).1
      && (Cast(polls, pollId, option).1 == Pass ==>
            Cast(relabelled, pollId, option).0 ==
            Cast(polls, pollId, option).0[pollId := Cast(polls, pollId, option).0[pollId].(status := status)])
  {
  }

  lemma CastOnClosedPoll(polls: Polls, pollId: string, option: string)
    requires pollId in polls && polls[pollId].status == ClosedStatus
    requires |polls[pollId].votes| == |polls[pollId].options| && option in polls[pollId].options
    ensures Cast(polls, pollId, option).1 == Pass
    ensures Cast(polls, pollId, option).0[pollId].status == ClosedStatus
  {
  }

  /** After a successful cast the results show one more vote for the first matching option. */
  lemma CastThenResults(polls: Polls, pollId: string, option: string, k: nat)
    requires WellFormed(polls) && pollId in polls
    requires k < |polls[pollId].options| && polls[pollId].options[k] == option
    requires forall j :: 0 <= j < k ==> polls[pollId].options[j] != option
    ensures var before := Results(polls, pollId).value;
      var after := Results(Cast(polls, pollId, option).0, pollId);
      && after.Ok? && |after.value| == |before|
      && after.value[k] == before[k].(count := before[k].count + 1)
      && (forall j :: 0 <= j < |before| && j != k ==> after.value[j] == before[j])
  {
  }

  // ---------------------------------------------------------------------------
  // Results
  // ---------------------------------------------------------------------------

  /** A missing poll is an error; a present one gives one row per option, in stored order,
      carrying the question and the stored count, or zero where the counts run short. */
  lemma ResultsRows(polls: Polls, pollId: string)
    ensures pollId !in polls ==> Results(polls, pollId) == Err(NotFound(pollId))
    ensures pollId in polls ==>
      var p := polls[pollId];
      var r := Results(polls, pollId);
      && r.Ok? && |r.value| == |p.options|
      && forall i :: 0 <= i < |p.options| ==>
           r.value[i] == VoteResult(p.question, p.options[i], if i < |p.votes| then p.votes[i] else 0)
  {
  }

  /** Counts beyond the last option never show up in the results. */
  lemma ResultsIgnoreExtraVotes(p: Poll, extra: seq<nat>)
    requires |p.options| <= |p.votes|
    ensures PollResults(p.(votes := p.votes + extra)) == PollResults(p)
  {
  }

  // ---------------------------------------------------------------------------
  // Close and Delete
  // ---------------------------------------------------------------------------

  /** Close: NotFound for a missing poll; refused with no change unless the requester
      created the poll; otherwise only the status changes, to "Closed". */
  lemma CloseChecksOwner(polls: Polls, pollId: string, creatorId: string)
    ensures var (after, r) := Close(polls, pollId, creatorId);
      && (pollId !in polls ==> after == polls && r == Fail(NotFound(pollId)))
      && (pollId in polls && polls[pollId].creatorId != creatorId ==>
            after == polls && r == Fail(NotCreator(CloseAction)))
      && (pollId in polls && polls[pollId].creatorId == creatorId ==>
            && r == Pass
            && after.Keys == polls.Keys
            && after[pollId] == polls[pollId].(status := ClosedStatus)
            && forall id :: id in polls && id != pollId ==> after[id] == polls[id])
  {
  }

  /** Closing twice is the same as closing once, whatever the first call returned. */
  lemma CloseIdempotent(polls: Polls, pollId: string, creatorId: string)
    ensures var (once, r) := Close(polls, pollId, creatorId);
      Close(once, pollId, creatorId) == (once, r)
  {
    var once := Close(polls, pollId, creatorId).0;
    if pollId in polls && polls[pollId].creatorId == creatorId {
      assert once[pollId := once[pollId].(status := ClosedStatus)] == once;
    }
  }

  /** Delete: NotFound for a missing poll; refused with no change unless the requester
      created the poll; otherwise exactly that key is removed. */
  lemma DeleteChecksOwner(polls: Polls, pollId: string, creatorId: string)
    ensures var (after, r) := Delete(polls, pollId, creatorId);
      && (pollId !in polls ==> after == polls && r == Fail(NotFound(pollId)))
      && (pollId in polls && polls[pollId].creatorId != creatorId ==>
            after == polls && r == Fail(NotCreator(DeleteAction)))
      && (pollId in polls && polls[pollId].creatorId == creatorId ==>
            && r == Pass
            && after.Keys == polls.Keys - {pollId}
            && forall id :: id in after ==> after[id] == polls[id])
  {
  }

  /** After a delete the poll is gone for every later operation. */
  lemma DeleteThenNotFound(polls: Polls, pollId: string, creatorId: string)
    requires Delete(polls, pollId, creatorId).1 == Pass
    ensures var after := Delete(polls, pollId, creatorId).0;
      && Results(after, pollId) == Err(NotFound(pollId))
      && Close(after, pollId, creatorId) == (after, Fail(NotFound(pollId)))
  {
  }

  // ---------------------------------------------------------------------------
  // The record invariant
  // ---------------------------------------------------------------------------

  /** Records written only by these operations keep options and counts parallel. */
  lemma OperationsPreserveWellFormed(polls: Polls, pollId: string, question: string, options: seq<string>,
                                      creatorId: string, option: string)
    requires WellFormed(polls)
    ensures WellFormed(Create(polls, pollId, question, options, creatorId).0)
    ensures WellFormed(Cast(polls, pollId, option).0)
    ensures WellFormed(Close(polls, pollId, creatorId).0)
    ensures WellFormed(Delete(polls, pollId, creatorId).0)
  {
  }

  // ---------------------------------------------------------------------------
  // A whole poll's life
  // ---------------------------------------------------------------------------

  /** Create "Lunch?" with Pizza and Sushi, vote Pizza, read the results, have someone
      else try to close it, close and delete it as the creator, and find it gone. */
  lemma LunchPollLifecycle(polls: Polls, pollId: string, owner: string, other: string)
    requires pollId !in polls && owner != other
    ensures var (s1, created) := Create(polls, pollId, "Lunch?", ["Pizza", "Sushi"], owner);
      var (s2, cast) := Cast(s1, pollId, "Pizza");
      var (s3, stranger) := Close(s2, pollId, other);
      var (s4, closed) := Close(s3, pollId, owner);
      var (s5, deleted) := Delete(s4, pollId, owner);
      && created == Ok(Created(pollId, ["Pizza", "Sushi"]))
      && s1[pollId].votes == [0, 0]
      && cast == Pass && s2[pollId].votes == [1, 0]
      && Results(s2, pollId) == Ok([VoteResult("Lunch?", "Pizza", 1), VoteResult("Lunch?", "Sushi", 0)])
      && stranger == Fail(NotCreator(CloseAction)) && s3 == s2
      && closed == Pass && s4[pollId].status == ClosedStatus
      && deleted == Pass && Results(s5, pollId) == Err(NotFound(pollId))
  {
    var s1 := Create(polls, pollId, "Lunch?", ["Pizza", "Sushi"], owner).0;
    assert s1[pollId].votes == [0, 0];
    assert FirstIndex(s1[pollId].options, "Pizza") == Some(0);
    assert CastBase(s1[pollId]) == [0, 0];
    assert [0, 0][0 := 1] == [1, 0];
    assert CastVotes(s1[pollId], "Pizza") == Ok([1, 0]);
    var s2 := Cast(s1, pollId, "Pizza").0;
    assert s2[pollId].votes == [1, 0];
    assert PollResults(s2[pollId]) == [VoteResult("Lunch?", "Pizza", 1), VoteResult("Lunch?", "Sushi", 0)];
  }
}
