/** The slash-command handler: the text of a request is tokenized, its first token picks
    the verb, each verb checks how many arguments it got, calls the poll store and turns
    the outcome into a response. The functions give the response (and the new state of
    the store) as a value; the methods do the same against a PollsStore in place. */
module Api {
  import opened Seqs
  import opened Domain
  import opened Repository
  import opened QuotedArgs

  const StatusOK: int := 200
  const StatusBadRequest: int := 400
  const StatusInternalServerError: int := 500

  const CreateVerb: string := "create"
  const CastVerb: string := "cast"
  const ResultsVerb: string := "results"
  const CloseVerb: string := "close"
  const DeleteVerb: string := "delete"

  /** `in_channel` replies are shown to everyone in the channel, `ephemeral` ones to the sender only. */
  datatype Visibility = InChannel | Ephemeral

  /** One line of a results report: an option and its count. */
  datatype ResultLine = ResultLine(option: string, count: nat)

  /** The text of a successful reply, by what it reports. */
  datatype Reply =
    | UnknownCommand
    | PollCreated(pollId: string, options: seq<string>)
    | VoteCast(userId: string, option: string, pollId: string)
    | NoResults(pollId: string)
    | ResultsReport(pollId: string, question: string, lines: seq<ResultLine>)
    | PollClosed(pollId: string)
    | PollDeleted(pollId: string)

  /** The message of an error response, by its cause. */
  datatype Problem =
    | MissingCommand
    | NeedQuestionAndOptions
    | NeedPollIdAndOption
    | NeedPollId
    | StoreFailure(error: StoreError)

  /** A chat message sent with status 200, or an error body sent with its own status. */
  datatype Response =
    | Message(visibility: Visibility, reply: Reply)
    | ErrorResponse(code: int, problem: Problem)
  {
    function Status(): int
    {
      if Message? then StatusOK else code
    }
  }

  predicate IsVerb(t: string)
  {
    t == CreateVerb || t == CastVerb || t == ResultsVerb || t == CloseVerb || t == DeleteVerb
  }

  function Failed(e: StoreError): Response
  {
    ErrorResponse(StatusInternalServerError, StoreFailure(e))
  }

  // ---------------------------------------------------------------------------
  // The verbs, as values
  // ---------------------------------------------------------------------------

  /** `create <question> <option>...`: a question and at least one option. */
  function CreateReply(polls: Polls, args: seq<string>, userId: string, freshId: string): (Polls, Response)
  {
    if |args| < 2 then (polls, ErrorResponse(StatusBadRequest, NeedQuestionAndOptions))
    else
      var (after, r) := Create(polls, freshId, args[0], args[1..], userId);
      match r
      case Err(e) => (after, Failed(e))
      case Ok(c) => (after, Message(InChannel, PollCreated(c.pollId, c.options)))
  }

  /** `cast <pollId> <option>`: anything after the option is not looked at. */
  function CastReply(polls: Polls, args: seq<string>, userId: string): (Polls, Response)
  {
    if |args| < 2 then (polls, ErrorResponse(StatusBadRequest, NeedPollIdAndOption))
    else
      var (after, o) := Cast(polls, args[0], args[1]);
      match o
      case Fail(e) => (after, Failed(e))
      case Pass => (after, Message(InChannel, VoteCast(userId, args[1], args[0])))
  }

  /** The report lines, one per result, in order. */
  function ResultLines(results: seq<VoteResult>): seq<ResultLine>
  {
    seq(|results|, i requires 0 <= i < |results| => ResultLine(results[i].option, results[i].count))
  }

  /** "No data" for an empty list; otherwise the question of the first result and the lines. */
  function ResultsText(pollId: string, results: seq<VoteResult>): Reply
  {
    if |results| == 0 then NoResults(pollId)
    else ResultsReport(pollId, results[0].question, ResultLines(results))
  }

  /** `results <pollId>`: reads the store and never writes it. */
  function ResultsReply(polls: Polls, args: seq<string>): Response
  {
    if |args| < 1 then ErrorResponse(StatusBadRequest, NeedPollId)
    else match Results(polls, args[0])
      case Err(e) => Failed(e)
      case Ok(rs) => Message(InChannel, ResultsText(args[0], rs))
  }

  /** `close <pollId>`: the sender is the one who must have created the poll. */
  function CloseReply(polls: Polls, args: seq<string>, userId: string): (Polls, Response)
  {
    if |args| < 1 then (polls, ErrorResponse(StatusBadRequest, NeedPollId))
    else
      var (after, o) := Close(polls, args[0], userId);
      match o
      case Fail(e) => (after, Failed(e))
      case Pass => (after, Message(InChannel, PollClosed(args[0])))
  }

  /** `delete <pollId>`: the sender is the one who must have created the poll. */
  function DeleteReply(polls: Polls, args: seq<string>, userId: string): (Polls, Response)
  {
    if |args| < 1 then (polls, ErrorResponse(StatusBadRequest, NeedPollId))
    else
      var (after, o) := Delete(polls, args[0], userId);
      match o
      case Fail(e) => (after, Failed(e))
      case Pass => (after, Message(InChannel, PollDeleted(args[0])))
  }

  /** The verb switch over the tokens of a request. */
  function Dispatch(polls: Polls, args: seq<string>, userId: string, freshId: string): (Polls, Response)
  {
    if |args| == 0 then (polls, ErrorResponse(StatusBadRequest, MissingCommand))
    else if args[0] == CreateVerb then CreateReply(polls, args[1..], userId, freshId)
    else if args[0] == CastVerb then CastReply(polls, args[1..], userId)
    else if args[0] == ResultsVerb then (polls, ResultsReply(polls, args[1..]))
    else if args[0] == CloseVerb then CloseReply(polls, args[1..], userId)
    else if args[0] == DeleteVerb then DeleteReply(polls, args[1..], userId)
    else (polls, Message(Ephemeral, UnknownCommand))
  }

  /** A whole request: the text of the slash command, the sender, and the ID a create would use. */
  function Handle(polls: Polls, text: string, userId: string, freshId: string): (Polls, Response)
  {
    Dispatch(polls, Tokenize(text), userId, freshId)
  }

  // ---------------------------------------------------------------------------
  // The handler, against the store in place
  // ---------------------------------------------------------------------------

  method CreatePoll(store: PollsStore, args: seq<string>, userId: string, freshId: string)
    returns (resp: Response)
    modifies store
    ensures (store.polls, resp) == CreateReply(old(store.polls), args, userId, freshId)
  {
    if |args| < 2 {
      return ErrorResponse(StatusBadRequest, NeedQuestionAndOptions);
    }
    var question := args[0];
    var options := args[1..];
    var r := store.CreateDB(freshId, question, options, userId);
    if r.Err? {
      return Failed(r.error);
    }
    resp := Message(InChannel, PollCreated(r.value.pollId, r.value.options));
  }

  method CastVote(store: PollsStore, args: seq<string>, userId: string) returns (resp: Response)
    modifies store
    ensures (store.polls, resp) == CastReply(old(store.polls), args, userId)
  {
    if |args| < 2 {
      return ErrorResponse(StatusBadRequest, NeedPollIdAndOption);
    }
    var pollId := args[0];
    var option := args[1];
    var o := store.CastDB(pollId, option);
    if o.Fail? {
      return Failed(o.error);
    }
    resp := Message(InChannel, VoteCast(userId, option, pollId));
  }

  /** The loop that writes one line per result. */
  method RenderResults(pollId: string, results: seq<VoteResult>) returns (reply: Reply)
    ensures reply == ResultsText(pollId, results)
  {
    if |results| == 0 {
      return NoResults(pollId);
    }
    var question := results[0].question;
    var lines: seq<ResultLine> := [];
    var i := 0;
    while i < |results|
      invariant 0 <= i <= |results|
      invariant lines == ResultLines(results[..i])
    {
      assert results[..i + 1][..i] == results[..i];
      lines := lines + [ResultLine(results[i].option, results[i].count)];
      i := i + 1;
    }
    assert results[..i] == results;
    reply := ResultsReport(pollId, question, lines);
  }

  method GetResults(store: PollsStore, args: seq<string>) returns (resp: Response)
    ensures resp == ResultsReply(store.polls, args)
  {
    if |args| < 1 {
      return ErrorResponse(StatusBadRequest, NeedPollId);
    }
    var pollId := args[0];
    var r := store.GetRes(pollId);
    if r.Err? {
      return Failed(r.error);
    }
    var reply := RenderResults(pollId, r.value);
    resp := Message(InChannel, reply);
  }

  method ClosePoll(store: PollsStore, args: seq<string>, userId: string) returns (resp: Response)
    modifies store
    ensures (store.polls, resp) == CloseReply(old(store.polls), args, userId)
  {
    if |args| < 1 {
      return ErrorResponse(StatusBadRequest, NeedPollId);
    }
    var pollId := args[0];
    var o := store.CloseDB(pollId, userId);
    if o.Fail? {
      return Failed(o.error);
    }
    resp := Message(InChannel, PollClosed(pollId));
  }

  method DeletePoll(store: PollsStore, args: seq<string>, userId: string) returns (resp: Response)
    modifies store
    ensures (store.polls, resp) == DeleteReply(old(store.polls), args, userId)
  {
    if |args| < 1 {
      return ErrorResponse(StatusBadRequest, NeedPollId);
    }
    var pollId := args[0];
    var o := store.DeleteDB(pollId, userId);
    if o.Fail? {
      return Failed(o.error);
    }
    resp := Message(InChannel, PollDeleted(pollId));
  }

  /** The entry point: `freshId` stands for the UUID a create generates. */
  method VoteHandler(store: PollsStore, text: string, userId: string, freshId: string) returns (resp: Response)
    modifies store
    ensures (store.polls, resp) == Handle(old(store.polls), text, userId, freshId)
  {
    var args := ParseQuotedArgs(text);
    if |args| == 0 {
      return ErrorResponse(StatusBadRequest, MissingCommand);
    }
    var verb := args[0];
    if verb == CreateVerb {
      resp := CreatePoll(store, args[1..], userId, freshId);
    } else if verb == CastVerb {
      resp := CastVote(store, args[1..], userId);
    } else if verb == ResultsVerb {
      resp := GetResults(store, args[1..]);
    } else if verb == CloseVerb {
      resp := ClosePoll(store, args[1..], userId);
    } else if verb == DeleteVerb {
      resp := DeletePoll(store, args[1..], userId);
    } else {
      resp := Message(Ephemeral, UnknownCommand);
    }
  }
}
