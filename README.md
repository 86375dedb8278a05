# votingbot: a Dafny model of the poll store and the slash-command handler

votingbot is a chat bot that runs polls. The chat platform posts each slash command
to the bot's webhook. The command text is split into tokens, and the first token is the verb:
`create`, `cast`, `results`, `close` or `delete`. The verb runs one operation on a
`polls` space holding tuples `(id, question, options, creatorId, votes, status)`. The bot
answers with a chat message, or with an error body and an HTTP status.

The model has seven modules, one per file:

- `Seqs` (seqs.dfy): `Option`, the first-occurrence search used for option lookup,
  zero-filled count sequences and their sum.
- `Domain` (domain.dfy): the `VoteResult` row that results are reported in.
- `Repository` (repository.dfy): the `polls` space as a `map<string, Poll>`.
  - Each of the five store operations is a pure step of that map: `Create`, `Cast`,
    `Results`, `Close`, `Delete`.
  - Class `PollsStore` holds the map in a field. Its methods `CreateDB`, `CastDB`, `GetRes`,
    `CloseDB`, `DeleteDB` and `GetPollById` perform the same steps in place, with the source's loops.
  - Each method is proved equal to its step.
- `RepositoryProperties` (repository_properties.dfy): what the steps promise.
  - The first-match increment and that "nothing else changes".
  - Zero-padding and the counts-mismatch error.
  - The ownership checks, close idempotence, and the record invariant the operations keep.
  - A whole poll's life.
- `QuotedArgs` (quoted_args.dfy): the tokenizer.
  - `Tokenize` is the pure meaning of the regular expression `"([^"]*)"|\S+`. It collects
    all leftmost-first matches, left to right, and keeps the group when it is non-empty,
    otherwise the whole match.
  - `ParseQuotedArgs` is the scanning method, proved equal to `Tokenize`.
  - Lemmas cover:
    - blank text;
    - non-empty tokens;
    - for text without quotes, the tokens are exactly the maximal runs of non-space, as a
      character-by-character scan (`Words`) finds them;
    - the join/re-parse round trip;
    - quoted spans, the empty quoted span `""` and unclosed quotes.
- `Api` and `ApiProperties` (api.dfy, api_properties.dfy): the handler.
  - `Dispatch` is the verb switch over the tokens: each verb checks its argument count,
    calls the store step and builds the response. `Handle` composes it with `Tokenize`.
  - The methods `VoteHandler`, `CreatePoll`, `CastVote`, `GetResults`, `ClosePoll`,
    `DeletePoll` and `RenderResults` do the same against a `PollsStore` in place.
  - The lemmas state which requests touch the store, the status of every response,
    how each verb reads its arguments, and whole conversations.

Requests and results are modelled as values:

- **Responses.** A response is `Message(visibility, reply)`, sent with status 200, or
  `ErrorResponse(code, problem)`. The texts are datatypes naming what each message
  reports, not the Russian wording.
- **Fresh IDs.** The UUID is generated by the caller and passed in as `freshId`. An ID
  already in the map is the `DuplicateKey` error that the database's primary key would
  raise. Inserts never overwrite silently.

These points follow the code where the design notes describe something else:

- **Argument grammar.** The code uses quoted-token mode (votehandler.go:166-179). There
  is no `?`-terminated question and no comma-separated option list. A question with
  spaces must be written in quotes (`ApiProperties.QuotedQuestion`).
- **Number of options.** `create` needs a question and one option, not two
  (votehandler.go:52). See `ApiProperties.CreateWithOneOption`.
- **Status of store errors.** A missing poll and an ownership failure are answered with
  500, like every other store error (votehandler.go:61-64 and the other verbs).
- **Closed polls.** A cast on a closed poll succeeds, because `CastDB` never reads the
  status (voterepository.go:37-117).
- **Padding.** `CastDB` pads only an empty count sequence. Counts that are present but
  shorter than the options are the mismatch error (voterepository.go:84-91).
  `GetRes` pads any shorter sequence and ignores extra counts (voterepository.go:172-184).

## Model

| member | source | states |
|---|---|---|
| Seqs.FirstIndex | internal/repository/voterepository.go:93-99 | the index found holds the option and no earlier index does; none is found exactly when the option is absent |
| Seqs.FirstIndexAt | internal/repository/voterepository.go:93-99 | an index holding the option with no earlier occurrence is the one the search finds |
| Seqs.SumIncrement | internal/repository/voterepository.go:104 | adding one to one count adds exactly one to the total |
| Repository.PollsStore.GetPollById | internal/repository/voterepository.go:235-255 | the record under the ID, or NotFound when there is none |
| Repository.PollsStore.CreateDB | internal/repository/voterepository.go:22-35 | the new map and result are those of Create: a fresh record with zero counts and status "active" under the fresh ID, or DuplicateKey with no change |
| Repository.PollsStore.CastDB | internal/repository/voterepository.go:37-117 | the scan for the option and the write-back of the counts produce exactly Cast's new map and outcome |
| Repository.PollsStore.GetRes | internal/repository/voterepository.go:118-189 | the padding loop and the row loop return exactly Results of the store, which is not changed |
| Repository.PollsStore.CloseDB | internal/repository/voterepository.go:191-211 | the new map and outcome are those of Close |
| Repository.PollsStore.DeleteDB | internal/repository/voterepository.go:212-233 | the new map and outcome are those of Delete |
| RepositoryProperties.CreateInserts | internal/repository/voterepository.go:22-34 | a fresh ID gets one zero count per option, status "active", the given question, options and creator; the options are returned; other polls are unchanged; a taken ID is refused with no change |
| RepositoryProperties.CreateThenResults | internal/repository/voterepository.go:22-34 | a freshly created poll reports count 0 for each option, in order |
| RepositoryProperties.CastMissingPoll | internal/repository/voterepository.go:46-48 | casting into a missing poll is NotFound and writes nothing |
| RepositoryProperties.CastSucceedsIff | internal/repository/voterepository.go:84-116 | a cast succeeds iff the poll exists, its counts are empty or parallel to the options, and the option is one of them; a failure writes nothing |
| RepositoryProperties.CastIncrementsFirstMatch | internal/repository/voterepository.go:93-110 | success adds one to the count at the first index whose option equals the submitted text, leaves all other counts, fields and polls unchanged, and raises the total by one |
| RepositoryProperties.CastUnknownOption | internal/repository/voterepository.go:100-102 | an option not in the poll is OptionNotFound with no write |
| RepositoryProperties.CastMismatchedVotes | internal/repository/voterepository.go:88-91 | non-empty counts of a different length from the options are VotesMismatch with no write |
| RepositoryProperties.CastOnEmptyVotes | internal/repository/voterepository.go:84-86 | empty counts are read as zeros: the write-back is a single 1 at the chosen option |
| RepositoryProperties.CastIgnoresStatus | internal/repository/voterepository.go:37-117 | the outcome and the new counts do not depend on the status |
| RepositoryProperties.CastOnClosedPoll | internal/repository/voterepository.go:37-117 | a closed poll with parallel counts still accepts a vote for one of its options and stays closed |
| RepositoryProperties.CastThenResults | internal/repository/voterepository.go:104-110 | after a cast the results show the matched option's count one higher and every other row unchanged |
| RepositoryProperties.ResultsRows | internal/repository/voterepository.go:128-184 | missing poll is NotFound; otherwise one row per option in stored order with the question and the stored count, or 0 where counts run short |
| RepositoryProperties.ResultsIgnoreExtraVotes | internal/repository/voterepository.go:178-184 | counts beyond the last option never change the results |
| RepositoryProperties.CloseChecksOwner | internal/repository/voterepository.go:191-204 | missing poll is NotFound; a requester other than the creator is refused with no change; the creator changes only the status, to "Closed" |
| RepositoryProperties.CloseIdempotent | internal/repository/voterepository.go:196-204 | closing a second time gives the same store and outcome as the first |
| RepositoryProperties.DeleteChecksOwner | internal/repository/voterepository.go:212-226 | missing poll is NotFound; a requester other than the creator is refused with no change; the creator removes exactly that key |
| RepositoryProperties.DeleteThenNotFound | internal/repository/voterepository.go:245-247 | after a delete, results and close on that ID are NotFound |
| RepositoryProperties.OperationsPreserveWellFormed | internal/repository/voterepository.go:22-233 | create, cast, close and delete keep every record under its own ID with parallel options and counts and a known status |
| RepositoryProperties.LunchPollLifecycle | internal/repository/voterepository.go:22-233 | create with two options, cast, results, a stranger's close, the creator's close and delete, then NotFound |
| QuotedArgs.ParseQuotedArgs | internal/delivery/api/votehandler.go:166-179 | the scanning loop returns exactly Tokenize of the input |
| QuotedArgs.TokenizeEmptyIffBlank | internal/delivery/api/votehandler.go:166-179 | no tokens exactly when the text is empty or all white space |
| QuotedArgs.TokensNonEmpty | internal/delivery/api/votehandler.go:167-176 | every token is non-empty |
| QuotedArgs.UnquotedTokensAreWords | internal/delivery/api/votehandler.go:167 | without quotes every token is free of white space |
| QuotedArgs.UnquotedTokensCoverText | internal/delivery/api/votehandler.go:167 | without quotes the tokens glued together are all the non-space characters of the text, in order |
| QuotedArgs.RunsFrom | internal/delivery/api/votehandler.go:167 | a character-by-character scan with a run already open finishes that run with the text's first run of non-space and then gives the tokens of the rest |
| QuotedArgs.WordsAreTokens | internal/delivery/api/votehandler.go:166-179 | without quotes the tokens are exactly the maximal runs of non-space, in order, as the independent character-by-character scan `Words` collects them |
| QuotedArgs.JoinedWordsRoundTrip | internal/delivery/api/votehandler.go:166-179 | words joined with single spaces tokenize back to the same words |
| QuotedArgs.ReparseJoined | internal/delivery/api/votehandler.go:166-179 | for text without quotes, joining its tokens and tokenizing again gives the same tokens |
| QuotedArgs.QuotedSpan | internal/delivery/api/votehandler.go:167-176 | a quote with a later quote gives one token, the text between them (spaces included), or the two-character `""` when nothing is between |
| QuotedArgs.WordThenQuoted | internal/delivery/api/votehandler.go:167-176 | a word, a quoted span and words tokenize to the word, the span's text and the words |
| QuotedArgs.UnclosedQuote | internal/delivery/api/votehandler.go:167 | a quote with no later quote starts an ordinary run of non-space |
| Api.RenderResults | internal/delivery/api/votehandler.go:107-116 | the line loop builds the report: "no data" for no results, else the first result's question and one line per result in order |
| Api.GetResults | internal/delivery/api/votehandler.go:94-122 | the response is ResultsReply of the store, which it does not change |
| Api.CreatePoll | internal/delivery/api/votehandler.go:51-71 | new store and response are those of CreateReply |
| Api.CastVote | internal/delivery/api/votehandler.go:73-92 | new store and response are those of CastReply |
| Api.ClosePoll | internal/delivery/api/votehandler.go:124-143 | new store and response are those of CloseReply |
| Api.DeletePoll | internal/delivery/api/votehandler.go:145-164 | new store and response are those of DeleteReply |
| Api.VoteHandler | internal/delivery/api/votehandler.go:13-49 | new store and response are those of Handle: tokenize, pick the verb, run it |
| ApiProperties.BlankTextIsMissingCommand | internal/delivery/api/votehandler.go:28-33 | the answer is 400 "missing command" exactly when the text is blank, and then the store is untouched |
| ApiProperties.MissingCommandIffNoTokens | internal/delivery/api/votehandler.go:30-33 | "missing command" exactly when there are no tokens |
| ApiProperties.UnknownVerbIsEphemeral | internal/delivery/api/votehandler.go:34-47 | the ephemeral "unknown command" reply comes exactly when the first token is none of the five verbs, with no store change |
| ApiProperties.CreateArity | internal/delivery/api/votehandler.go:51-60 | fewer than two arguments is 400 with no store call; otherwise the first argument is the question and all the rest are the options of the poll stored under the fresh ID |
| ApiProperties.CreateWithOneOption | internal/delivery/api/votehandler.go:52-58 | a question with a single option creates a poll with one zero count |
| ApiProperties.CastArity | internal/delivery/api/votehandler.go:74-91 | fewer than two arguments is 400; otherwise the first is the poll ID and the second the option given to the store, and the outcome decides 200 or 500 |
| ApiProperties.CastIgnoresExtraTokens | internal/delivery/api/votehandler.go:78-79 | tokens after the option change neither the store nor the response |
| ApiProperties.OwnerVerbsUseSender | internal/delivery/api/votehandler.go:124-164 | close and delete call the store with the sender's user ID as the creator |
| ApiProperties.OthersCannotCloseOrDelete | internal/delivery/api/votehandler.go:124-164 | a sender who is not the creator gets the store's ownership error and nothing changes |
| ApiProperties.PollIdRequired | internal/delivery/api/votehandler.go:94-98 | results, close and delete without a poll ID are 400 with no change |
| ApiProperties.ResponseShape | internal/delivery/api/votehandler.go:13-164 | a chat message is exactly a 200; an error is 500 exactly for a store error and 400 otherwise, and never comes with a write; every chat message but "unknown command" is in_channel |
| ApiProperties.ReadsDoNotWrite | internal/delivery/api/votehandler.go:13-164 | the store changes only with a successful create, cast, close or delete, and never for results |
| ApiProperties.ResultsAreReported | internal/delivery/api/votehandler.go:107-116 | for an existing poll the report has the poll's question and one line per option with its count; "no data" exactly when it has no options |
| ApiProperties.MissingPollIsStoreError | internal/delivery/api/votehandler.go:101-106 | every verb that takes a poll ID answers a missing poll with the store's NotFound error and no change |
| ApiProperties.HandleWords | internal/delivery/api/votehandler.go:28-34 | text made of words separated by single spaces is dispatched on exactly those words |
| ApiProperties.PollConversation | internal/delivery/api/votehandler.go:13-164 | create, vote, a refused close by the voter, the creator's close, and a vote the closed poll still accepts |
| ApiProperties.QuotedQuestion | internal/delivery/api/votehandler.go:28-58 | a quoted question with spaces followed by option words creates a poll with that question and those options |

## Left out

- HTTP plumbing is not modelled: the gin context, the POST-method check, JSON or form
  binding of the request body, logging, server start-up and configuration.
- Message wording is not modelled. Texts are datatypes naming what they report: the
  Russian strings, `fmt.Sprintf` rendering and the `%s` rendering of an option list are
  left out. So is the difference between the two not-found texts: `CastDB` and `GetRes`
  say "voting with ID %s", while `getPollByID` says "voting %s".
- The database is a map, which leaves out several things:
  - Tarantool errors such as timeouts and connectivity problems.
  - The empty-insert-result error of `CreateDB`.
  - The decoding of stored tuples: wrong-typed fields, non-string options that `GetRes`
    skips, and counts not decoded as `int8`.
  - So counts are unbounded `nat`s, and the model does not capture what happens to
    a count above 127 once it is stored back.
- Concurrency is not modelled. Two casts on the same poll interleaving their read and
  write-back could lose a vote. Each request is one step here.
- The UUID is generated outside the model and passed in as `freshId`.
- `ExpiresAt` in the result record is never set by the core and is not modelled.
- The use-case layer is not modelled: `PollsUsecase` methods only pass their calls on to
  the repository. As written, `CreateDB` is declared with two results (ID, error) by the
  interface `repository.Polls` (internal/repository/repository.go:9) and by
  `PollsUsecase.CreateDB` (internal/usecase/pollsusecase.go:17). It is declared with three
  results (ID, options, error) by `PollsTarantool.CreateDB` (internal/repository/voterepository.go:22)
  and by the interface `usecase.Polls` (internal/usecase/usecase.go:9), which the handler calls
  (internal/delivery/api/votehandler.go:60). The model follows the three-result form.
- Text is a sequence of Unicode characters. The bytes of invalid UTF-8 are not modelled.
