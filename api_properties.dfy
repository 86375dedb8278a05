/** What the slash-command handler promises: which requests touch the store, which
    status each kind of outcome gets, how each verb reads its arguments, and a few
    whole conversations with the bot. */
module ApiProperties {
  import opened Seqs
  import opened Domain
  import opened Repository
  import opened QuotedArgs
  import opened Api

  /** A request whose text is empty or white space is answered 400 "missing command",
      and only such a request is; the store is not touched. */
  lemma BlankTextIsMissingCommand(polls: Polls, text: string, userId: string, freshId: string)
    ensures Handle(polls, text, userId, freshId).1 == ErrorResponse(StatusBadRequest, MissingCommand)
      <==> Blank(text)
    ensures Blank(text) ==> Handle(polls, text, userId, freshId).0 == polls
  {
    TokenizeEmptyIffBlank(text);
    MissingCommandIffNoTokens(polls, Tokenize(text), userId, freshId);
  }

  lemma MissingCommandIffNoTokens(polls: Polls, args: seq<string>, userId: string, freshId: string)
    ensures Dispatch(polls, args, userId, freshId).1 == ErrorResponse(StatusBadRequest, MissingCommand)
      <==> args == []
    ensures args == [] ==> Dispatch(polls, args, userId, freshId).0 == polls
  {
  }

  /** A first token that is none of the five verbs gets 200 `ephemeral` "unknown command"
      with no store change, and nothing else gets that reply. */
  lemma UnknownVerbIsEphemeral(polls: Polls, args: seq<string>, userId: string, freshId: string)
    ensures Dispatch(polls, args, userId, freshId).1 == Message(Ephemeral, UnknownCommand)
      <==> (|args| > 0 && !IsVerb(args[0]))
    ensures |args| > 0 && !IsVerb(args[0]) ==> Dispatch(polls, args, userId, freshId).0 == polls
  {
  }

  /** `create` needs a question and one option; the question is the first argument, all
      the rest are options, and the new poll is stored under the fresh ID. */
  lemma CreateArity(polls: Polls, args: seq<string>, userId: string, freshId: string)
    requires |args| > 0 && args[0] == CreateVerb
    ensures |args| < 3 ==>
      Dispatch(polls, args, userId, freshId) == (polls, ErrorResponse(StatusBadRequest, NeedQuestionAndOptions))
    ensures |args| >= 3 && freshId !in polls ==>
      Dispatch(polls, args, userId, freshId) ==
        (polls[freshId := Poll(freshId, args[1], args[2..], userId, Zeros(|args| - 2), ActiveStatus)],
         Message(InChannel, PollCreated(freshId, args[2..])))
    ensures |args| >= 3 && freshId in polls ==>
      Dispatch(polls, args, userId, freshId) == (polls, Failed(DuplicateKey(freshId)))
  {
  }

  /** A single option is enough to create a poll. */
  lemma CreateWithOneOption(polls: Polls, question: string, option: string, userId: string, freshId: string)
    requires freshId !in polls
    ensures var (after, resp) := Dispatch(polls, [CreateVerb, question, option], userId, freshId);
      && resp == Message(InChannel, PollCreated(freshId, [option]))
      && after[freshId].options == [option]
      && after[freshId].votes == [0]
  {
  }

  /** `cast` needs a poll ID and an option: the second and third tokens are exactly what is
      passed to the store. */
  lemma CastArity(polls: Polls, args: seq<string>, userId: string, freshId: string)
    requires |args| > 0 && args[0] == CastVerb
    ensures |args| < 3 ==>
      Dispatch(polls, args, userId, freshId) == (polls, ErrorResponse(StatusBadRequest, NeedPollIdAndOption))
    ensures |args| >= 3 ==>
      var (after, o) := Cast(polls, args[1], args[2]);
      && Dispatch(polls, args, userId, freshId).0 == after
      && Dispatch(polls, args, userId, freshId).1 ==
           (if o.Pass? then Message(InChannel, VoteCast(userId, args[2], args[1])) else Failed(o.error))
  {
  }

  /** Tokens after the option of a `cast` change nothing. */
  lemma CastIgnoresExtraTokens(polls: Polls, args: seq<string>, extra: seq<string>, userId: string, freshId: string)
    requires |args| >= 3 && args[0] == CastVerb
    ensures Dispatch(polls, args + extra, userId, freshId) == Dispatch(polls, args, userId, freshId)
  {
  }

  /** `close` and `delete` pass the sender as the creator the store checks against. */
  lemma OwnerVerbsUseSender(polls: Polls, args: seq<string>, userId: string, freshId: string)
    requires |args| >= 2 && (args[0] == CloseVerb || args[0] == DeleteVerb)
    ensures var (after, o) :=
        if args[0] == CloseVerb then Close(polls, args[1], userId) else Delete(polls, args[1], userId);
      && Dispatch(polls, args, userId, freshId).0 == after
      && Dispatch(polls, args, userId, freshId).1 ==
           (if o.Fail? then Failed(o.error)
            else if args[0] == CloseVerb then Message(InChannel, PollClosed(args[1]))
            else Message(InChannel, PollDeleted(args[1])))
  {
  }

  /** Someone other than the creator cannot close or delete a poll: 500, and nothing is written. */
  lemma OthersCannotCloseOrDelete(polls: Polls, args: seq<string>, userId: string, freshId: string)
    requires |args| >= 2 && args[1] in polls && polls[args[1]].creatorId != userId
    requires args[0] == CloseVerb || args[0] == DeleteVerb
    ensures Dispatch(polls, args, userId, freshId) ==
      (polls, Failed(NotCreator(if args[0] == CloseVerb then CloseAction else DeleteAction)))
  {
  }

  /** `close`, `delete` and `results` without a poll ID are 400 and touch nothing. */
  lemma PollIdRequired(polls: Polls, verb: string, userId: string, freshId: string)
    requires verb == ResultsVerb || verb == CloseVerb || verb == DeleteVerb
    ensures Dispatch(polls, [verb], userId, freshId) == (polls, ErrorResponse(StatusBadRequest, NeedPollId))
  {
  }

  /** The status of every response: 200 for a chat message, 500 exactly for a store error,
      400 for the rest; an error response never comes with a write, and a chat message is
      shown to the whole channel unless it is the unknown-command reply. */
  lemma ResponseShape(polls: Polls, args: seq<string>, userId: string, freshId: string)
    ensures var (after, resp) := Dispatch(polls, args, userId, freshId);
      && (resp.Message? <==> resp.Status() == StatusOK)
      && (resp.ErrorResponse? ==>
            && after == polls
            && (resp.Status() == StatusInternalServerError <==> resp.problem.StoreFailure?)
            && (resp.Status() == StatusBadRequest <==> !resp.problem.StoreFailure?))
      && (resp.Message? ==> (resp.visibility == InChannel <==> resp.reply != UnknownCommand))
  {
  }

  /** Only a successful create, cast, close or delete changes the store, and `results` never does. */
  lemma ReadsDoNotWrite(polls: Polls, args: seq<string>, userId: string, freshId: string)
    ensures var (after, resp) := Dispatch(polls, args, userId, freshId);
      after != polls ==>
        && resp.Message?
        && (resp.reply.PollCreated? || resp.reply.VoteCast? || resp.reply.PollClosed? || resp.reply.PollDeleted?)
    ensures |args| > 0 && args[0] == ResultsVerb ==> Dispatch(polls, args, userId, freshId).0 == polls
  {
  }

  /** A results report lists every option of the poll in stored order with its count
      (zero where no count is stored), under the poll's question; "no data" only for a
      poll without options. */
  lemma ResultsAreReported(polls: Polls, pollId: string, userId: string, freshId: string)
    requires pollId in polls
    ensures var p := polls[pollId];
      var resp := Dispatch(polls, [ResultsVerb, pollId], userId, freshId).1;
      && resp.Message? && resp.visibility == InChannel
      && (resp.reply.NoResults? <==> |p.options| == 0)
      && (|p.options| > 0 ==>
            && resp.reply.ResultsReport?
            && resp.reply.pollId == pollId
            && resp.reply.question == p.question
            && |resp.reply.lines| == |p.options|
            && forall i :: 0 <= i < |p.options| ==>
                 resp.reply.lines[i] == ResultLine(p.options[i], CountAt(p.votes, i)))
  {
  }

  /** A missing poll is reported as a store error by every verb that takes a poll ID. */
  lemma MissingPollIsStoreError(polls: Polls, args: seq<string>, userId: string, freshId: string)
    requires |args| >= 2 && args[1] !in polls
    requires args[0] == ResultsVerb || args[0] == CloseVerb || args[0] == DeleteVerb
      || (args[0] == CastVerb && |args| >= 3)
    ensures Dispatch(polls, args, userId, freshId) == (polls, Failed(NotFound(args[1])))
  {
  }

  // ---------------------------------------------------------------------------
  // Whole conversations
  // ---------------------------------------------------------------------------

  /** A request written as words separated by single spaces is dispatched on those words. */
  lemma HandleWords(polls: Polls, ts: seq<string>, userId: string, freshId: string)
    requires forall k :: 0 <= k < |ts| ==> IsWord(ts[k])
    ensures Handle(polls, Join(ts), userId, freshId) == Dispatch(polls, ts, userId, freshId)
  {
    JoinedWordsRoundTrip(ts);
  }

  /** One user creates a poll, another votes for its first option, cannot close it, the
      creator can, and the closed poll still takes the second user's next vote. Each request
      is given by its words; HandleWords turns them into the text of the request. */
  lemma PollConversation(creator: string, voter: string, pollId: string, question: string,
                         first: string, second: string, freshId: string)
    requires creator != voter && first != second
    ensures var s0: Polls := map[];
      var (s1, r1) := Dispatch(s0, [CreateVerb, question, first, second], creator, pollId);
      var (s2, r2) := Dispatch(s1, [CastVerb, pollId, first], voter, freshId);
      var (s3, r3) := Dispatch(s2, [CloseVerb, pollId], voter, freshId);
      var (s4, r4) := Dispatch(s3, [CloseVerb, pollId], creator, freshId);
      var (s5, r5) := Dispatch(s4, [CastVerb, pollId, first], voter, freshId);
      && r1 == Message(InChannel, PollCreated(pollId, [first, second]))
      && r2 == Message(InChannel, VoteCast(voter, first, pollId))
      && r3 == Failed(NotCreator(CloseAction)) && s3 == s2
      && r4 == Message(InChannel, PollClosed(pollId))
      && r5 == Message(InChannel, VoteCast(voter, first, pollId))
      && pollId in s5 && s5[pollId].votes == [2, 0] && s5[pollId].status == ClosedStatus
  {
  }

  lemma VerbsAreWords()
    ensures IsWord(CreateVerb) && IsWord(CastVerb) && IsWord(ResultsVerb)
    ensures IsWord(CloseVerb) && IsWord(DeleteVerb)
  {
  }

  /** A question with spaces is written in quotes and arrives as one argument; the words
      after it are the options. */
  lemma QuotedQuestion(polls: Polls, question: string, options: seq<string>, userId: string, freshId: string)
    requires question != [] && '"' !in question
    requires |options| > 0 && forall k :: 0 <= k < |options| ==> IsWord(options[k])
    requires freshId !in polls
    ensures var text := CreateVerb + " " + "\"" + question + "\"" + " " + Join(options);
      var (after, resp) := Handle(polls, text, userId, freshId);
      && resp == Message(InChannel, PollCreated(freshId, options))
      && after[freshId].question == question
      && after[freshId].options == options
  {
    var text := CreateVerb + " " + "\"" + question + "\"" + " " + Join(options);
    var args := [CreateVerb, question] + options;
    VerbsAreWords();
    WordThenQuoted(CreateVerb, question, options);
    assert Handle(polls, text, userId, freshId) == Dispatch(polls, args, userId, freshId);
    CreateArity(polls, args, userId, freshId);
    assert args[1] == question && args[2..] == options;
  }
}
