/** The `polls` space of the poll bot's database and the five operations on it.
    A stored poll is the tuple (id, question, options, creatorId, votes, status).
    The space is a map from poll ID to that record. The functions below give
    the meaning of each operation as a step of that map. Class PollsStore
    performs the same steps in place, and its methods are proved equal to the
    functions. */
module Repository {
  import opened Seqs
  import opened Domain

  /** The status written by a fresh insert, and the one written by close (note the case). */
  const ActiveStatus: string := "active"
  const ClosedStatus: string := "Closed"

  datatype Poll = Poll(
    id: string,
    question: string,
    options: seq<string>,
    creatorId: string,
    votes: seq<nat>,
    status: string)

  type Polls = map<string, Poll>

  datatype OwnerAction = CloseAction | DeleteAction

  datatype StoreError =
    | DuplicateKey(pollId: string)     // the insert hit an existing primary key
    | NotFound(pollId: string)         // no record under that ID
    | VotesMismatch                    // stored votes are neither empty nor as long as the options
    | OptionNotFound(option: string)   // the submitted option is not one of the poll's options
    | NotCreator(action: OwnerAction)  // close or delete asked for by someone other than the creator

  datatype StoreResult<T> = Ok(value: T) | Err(error: StoreError)

  datatype Outcome = Pass | Fail(error: StoreError)

  /** What a successful create hands back: the new ID and the options stored. */
  datatype Created = Created(pollId: string, options: seq<string>)

  /** Every record sits under its own ID, has one count per option and a known status. */
  predicate WellFormed(polls: Polls)
  {
    forall id :: id in polls ==>
      && polls[id].id == id
      && |polls[id].votes| == |polls[id].options|
      && (polls[id].status == ActiveStatus || polls[id].status == ClosedStatus)
  }

  // ---------------------------------------------------------------------------
  // The operations as steps of the map
  // ---------------------------------------------------------------------------

  /** Insert a fresh record with all-zero votes and status "active". */
  function Create(polls: Polls, pollId: string, question: string, options: seq<string>, creatorId: string)
    : (Polls, StoreResult<Created>)
  {
    if pollId in polls then (polls, Err(DuplicateKey(pollId)))
    else
      var poll := Poll(pollId, question, options, creatorId, Zeros(|options|), ActiveStatus);
      (polls[pollId := poll], Ok(Created(pollId, options)))
  }

  /** The counts a cast works on: an empty stored sequence reads as all zeros. */
  function CastBase(p: Poll): seq<nat>
  {
    if |p.votes| == 0 then Zeros(|p.options|) else p.votes
  }

  /** The votes a cast writes back, or why it writes nothing. The status is not consulted. */
  function CastVotes(p: Poll, option: string): StoreResult<seq<nat>>
  {
    var votes := CastBase(p);
    if |p.options| != |votes| then Err(VotesMismatch)
    else match FirstIndex(p.options, option)
      case None => Err(OptionNotFound(option))
      case Some(k) => Ok(votes[k := votes[k] + 1])
  }

  function Cast(polls: Polls, pollId: string, option: string): (Polls, Outcome)
  {
    if pollId !in polls then (polls, Fail(NotFound(pollId)))
    else match CastVotes(polls[pollId], option)
      case Err(e) => (polls, Fail(e))
      case Ok(votes) => (polls[pollId := polls[pollId].(votes := votes)], Pass)
  }

  /** The count reported for option `i`: missing counts read as zero. */
  function CountAt(votes: seq<nat>, i: nat): nat
  {
    if i < |votes| then votes[i] else 0
  }

  /** One result per option, in stored order. */
  function PollResults(p: Poll): seq<VoteResult>
  {
    seq(|p.options|, i requires 0 <= i < |p.options| => VoteResult(p.question, p.options[i], CountAt(p.votes, i)))
  }

  function Results(polls: Polls, pollId: string): StoreResult<seq<VoteResult>>
  {
    if pollId !in polls then Err(NotFound(pollId)) else Ok(PollResults(polls[pollId]))
  }

  function Close(polls: Polls, pollId: string, creatorId: string): (Polls, Outcome)
  {
    if pollId !in polls then (polls, Fail(NotFound(pollId)))
    else if polls[pollId].creatorId != creatorId then (polls, Fail(NotCreator(CloseAction)))
    else (polls[pollId := polls[pollId].(status := ClosedStatus)], Pass)
  }

  function Delete(polls: Polls, pollId: string, creatorId: string): (Polls, Outcome)
  {
    if pollId !in polls then (polls, Fail(NotFound(pollId)))
    else if polls[pollId].creatorId != creatorId then (polls, Fail(NotCreator(DeleteAction)))
    else (polls - {pollId}, Pass)
  }

  // ---------------------------------------------------------------------------
  // The store, updated in place
  // ---------------------------------------------------------------------------

  class PollsStore {
    var polls: Polls

    constructor ()
      ensures polls == map[]
    {
      polls := map[];
    }

    /** The select by primary key that every operation but create starts with. */
    method GetPollById(pollId: string) returns (r: StoreResult<Poll>)
      ensures pollId in polls ==> r == Ok(polls[pollId])
      ensures pollId !in polls ==> r == Err(NotFound(pollId))
    {
      if pollId in polls {
        r := Ok(polls[pollId]);
      } else {
        r := Err(NotFound(pollId));
      }
    }

    /** `pollId` stands for the freshly generated UUID. */
    method CreateDB(pollId: string, question: string, options: seq<string>, creatorId: string)
      returns (r: StoreResult<Created>)
      modifies this
      ensures (polls, r) == Create(old(polls), pollId, question, options, creatorId)
    {
      if pollId in polls {
        return Err(DuplicateKey(pollId));
      }
      var votes := Zeros(|options|);
      polls := polls[pollId := Poll(pollId, question, options, creatorId, votes, ActiveStatus)];
      r := Ok(Created(pollId, options));
    }

    /** Read the record, check it, bump one count and write the whole votes sequence back. */
    method CastDB(pollId: string, option: string) returns (r: Outcome)
      modifies this
      ensures (polls, r) == Cast(old(polls), pollId, option)
    {
      var found := GetPollById(pollId);
      if found.Err? {
        return Fail(found.error);
      }
      var poll := found.value;
      var options := poll.options;
      var votes := poll.votes;
      if |votes| == 0 {
        votes := Zeros(|options|);
      }
      if |options| != |votes| {
        return Fail(VotesMismatch);
      }
      var optionIndex := -1;
      var i := 0;
      while i < |options|
        invariant 0 <= i <= |options|
        invariant optionIndex == -1
        invariant forall k :: 0 <= k < i ==> options[k] != option
      {
        if options[i] == option {
          optionIndex := i;
          break;
        }
        i := i + 1;
      }
      if optionIndex == -1 {
        return Fail(OptionNotFound(option));
      }
      FirstIndexAt(options, option, optionIndex);
      votes := votes[optionIndex := votes[optionIndex] + 1];
      polls := polls[pollId := poll.(votes := votes)];
      r := Pass;
    }

    /** Pad the counts with zeros up to the number of options, then emit one result per option. */
    method GetRes(pollId: string) returns (r: StoreResult<seq<VoteResult>>)
      ensures r == Results(polls, pollId)
    {
      if pollId !in polls {
        return Err(NotFound(pollId));
      }
      var poll := polls[pollId];
      var votes := poll.votes;
      while |votes| < |poll.options|
        invariant |poll.votes| <= |votes|
        invariant forall j :: 0 <= j < |votes| ==> votes[j] == CountAt(poll.votes, j)
        decreases |poll.options| - |votes|
      {
        votes := votes + [0];
      }
      var results: seq<VoteResult> := [];
      var i := 0;
      while i < |poll.options|
        invariant 0 <= i <= |poll.options|
        invariant |results| == i
        invariant forall j :: 0 <= j < i ==> results[j] == PollResults(poll)[j]
      {
        results := results + [VoteResult(poll.question, poll.options[i], votes[i])];
        i := i + 1;
      }
      assert results == PollResults(poll);
      r := Ok(results);
    }

    method CloseDB(pollId: string, creatorId: string) returns (r: Outcome)
      modifies this
      ensures (polls, r) == Close(old(polls), pollId, creatorId)
    {
      var found := GetPollById(pollId);
      if found.Err? {
        return Fail(found.error);
      }
      if found.value.creatorId != creatorId {
        return Fail(NotCreator(CloseAction));
      }
      polls := polls[pollId := found.value.(status := ClosedStatus)];
      r := Pass;
    }

    method DeleteDB(pollId: string, creatorId: string) returns (r: Outcome)
      modifies this
      ensures (polls, r) == Delete(old(polls), pollId, creatorId)
    {
      var found := GetPollById(pollId);
      if found.Err? {
        return Fail(found.error);
      }
      if found.value.creatorId != creatorId {
        return Fail(NotCreator(DeleteAction));
      }
      polls := polls - {pollId};
      r := Pass;
    }
  }
}
