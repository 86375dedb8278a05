/** The value types the poll bot passes between its store and its handlers. */
module Domain {

  /** One row of a poll's results: the poll's question, one option and its count. */
  datatype VoteResult = VoteResult(question: string, option: string, count: nat)
}
