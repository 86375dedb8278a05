/** The argument tokenizer of the slash-command handler: all matches, left to right,
    of the regular expression `"([^"]*)"|\S+` under leftmost-first semantics. A match
    of the first alternative with a non-empty group contributes the group (the text
    between the quotes); every other match contributes the whole match, so an empty
    quoted span gives the two-character token `""`. */
module QuotedArgs {
  import opened Seqs

  /** RE2's `\s`: space, tab, newline, form feed and carriage return (not vertical tab). */
  predicate IsSpace(c: char)
  {
    c == ' ' || c == '\t' || c == '\n' || c == '\U{000C}' || c == '\r'
  }

  /** The length of the longest prefix of `s` free of white space: what `\S+` takes. */
  function WordLength(s: string): (n: nat)
    ensures n <= |s|
    ensures forall i :: 0 <= i < n ==> !IsSpace(s[i])
    ensures n == |s| || IsSpace(s[n])
  {
    if s == [] || IsSpace(s[0]) then 0 else 1 + WordLength(s[1..])
  }

  /** The token a quoted match contributes: its group, or the whole `""` when the group is empty. */
  function QuotedToken(body: string): string
  {
    if body == [] then "\"\"" else body
  }

  /** The tokens of `s`. White space never starts a match and is skipped. At a quote that
      has a later quote the first alternative matches up to that later quote; anywhere
      else (an unclosed quote included) `\S+` takes the longest run of non-space. */
  function Tokenize(s: string): seq<string>
    decreases |s|
  {
    if s == [] then []
    else if IsSpace(s[0]) then Tokenize(s[1..])
    else
      var close := if s[0] == '"' then FirstIndex(s[1..], '"') else None;
      if close.Some? then
        [QuotedToken(s[1..close.value + 1])] + Tokenize(s[close.value + 2..])
      else
        var n := WordLength(s);
        [s[..n]] + Tokenize(s[n..])
  }

  lemma {:induction false} WordLengthIs(s: string, n: nat)
    requires n <= |s|
    requires forall i :: 0 <= i < n ==> !IsSpace(s[i])
    requires n == |s| || IsSpace(s[n])
    ensures WordLength(s) == n
  {
  }

  /** Scanning from position `i`: white space is skipped. */
  lemma TokenizeSpaceAt(input: string, i: nat)
    requires i < |input| && IsSpace(input[i])
    ensures Tokenize(input[i..]) == Tokenize(input[i + 1..])
  {
  }

  /** A quote whose next quote is `c + 1` characters further on is one match. */
  lemma TokenizeQuoted(s: string, c: nat)
    requires c + 1 < |s| && s[0] == '"' && FirstIndex(s[1..], '"') == Some(c)
    ensures Tokenize(s) == [QuotedToken(s[1..c + 1])] + Tokenize(s[c + 2..])
  {
  }

  /** Scanning from position `i`: a quote at `i` whose next quote is at `j` is one match. */
  lemma TokenizeQuotedAt(input: string, i: nat, j: nat, token: string, next: nat)
    requires i < j < |input| && input[i] == '"' && input[j] == '"'
    requires forall k :: i < k < j ==> input[k] != '"'
    requires token == QuotedToken(input[i + 1..j]) && next == j + 1
    ensures Tokenize(input[i..]) == [token] + Tokenize(input[next..])
  {
    var rest := input[i..];
    var c := j - (i + 1);
    FirstIndexAt(rest[1..], '"', c);
    TokenizeQuoted(rest, c);
    assert rest[1..c + 1] == input[i + 1..j];
    assert rest[c + 2..] == input[next..];
  }

  /** Scanning from position `i`: anything else is a run of non-space ending at `e`. */
  lemma TokenizeWordAt(input: string, i: nat, e: nat, token: string)
    requires i < e <= |input|
    requires input[i] == '"' ==> forall k :: i < k < |input| ==> input[k] != '"'
    requires forall k :: i <= k < e ==> !IsSpace(input[k])
    requires e == |input| || IsSpace(input[e])
    requires token == input[i..e]
    ensures Tokenize(input[i..]) == [token] + Tokenize(input[e..])
  {
    var rest := input[i..];
    if input[i] == '"' {
      assert '"' !in rest[1..];
    }
    WordLengthIs(rest, e - i);
    assert rest[..e - i] == input[i..e];
    assert rest[e - i..] == input[e..];
  }

  /** The position of the next quote after position `i`, or the length of the input if none. */
  method NextQuote(input: string, i: nat) returns (j: nat)
    requires i < |input|
    ensures i < j <= |input|
    ensures forall k :: i < k < j ==> input[k] != '"'
    ensures j < |input| ==> input[j] == '"'
  {
    j := i + 1;
    while j < |input| && input[j] != '"'
      invariant i + 1 <= j <= |input|
      invariant forall k :: i < k < j ==> input[k] != '"'
    {
      j := j + 1;
    }
  }

  /** The end of the run of non-space that starts at position `i`. */
  method RunEnd(input: string, i: nat) returns (e: nat)
    requires i < |input| && !IsSpace(input[i])
    ensures i < e <= |input|
    ensures forall k :: i <= k < e ==> !IsSpace(input[k])
    ensures e == |input| || IsSpace(input[e])
  {
    e := i + 1;
    while e < |input| && !IsSpace(input[e])
      invariant i + 1 <= e <= |input|
      invariant forall k :: i <= k < e ==> !IsSpace(input[k])
    {
      e := e + 1;
    }
  }

  /** The next match, starting at the non-space character at position `i`:
      the token it contributes and the position just after it. */
  method NextMatch(input: string, i: nat) returns (token: string, next: nat)
    requires i < |input| && !IsSpace(input[i])
    ensures i < next <= |input|
    ensures Tokenize(input[i..]) == [token] + Tokenize(input[next..])
  {
    var j := i + 1;
    if input[i] == '"' {
      j := NextQuote(input, i);
    }
    if input[i] == '"' && j < |input| {
      token, next := QuotedMatch(input, i, j);
    } else {
      token, next := WordMatch(input, i);
    }
  }

  /** The first alternative: a quote at `i` and the next quote after it, at `j`. */
  method QuotedMatch(input: string, i: nat, j: nat) returns (token: string, next: nat)
    requires i < j < |input| && input[i] == '"' && input[j] == '"'
    requires forall k :: i < k < j ==> input[k] != '"'
    ensures next == j + 1
    ensures Tokenize(input[i..]) == [token] + Tokenize(input[next..])
  {
    next := j + 1;
    token := QuotedToken(input[i + 1..j]);
    TokenizeQuotedAt(input, i, j, token, next);
  }

  /** The second alternative: the longest run of non-space from `i`. */
  method WordMatch(input: string, i: nat) returns (token: string, next: nat)
    requires i < |input| && !IsSpace(input[i])
    requires input[i] == '"' ==> forall k :: i < k < |input| ==> input[k] != '"'
    ensures i < next <= |input|
    ensures Tokenize(input[i..]) == [token] + Tokenize(input[next..])
  {
    next := RunEnd(input, i);
    token := input[i..next];
    TokenizeWordAt(input, i, next, token);
  }

  lemma ScanStep(args: seq<string>, input: string, i: nat, token: string, next: nat)
    requires i <= next <= |input|
    requires args + Tokenize(input[i..]) == Tokenize(input)
    requires Tokenize(input[i..]) == [token] + Tokenize(input[next..])
    ensures (args + [token]) + Tokenize(input[next..]) == Tokenize(input)
  {
  }

  /** Scan the input once, collecting the token of each match in order. */
  method ParseQuotedArgs(input: string) returns (args: seq<string>)
    ensures args == Tokenize(input)
  {
    args := [];
    var i: nat := 0;
    assert input[i..] == input;
    while i < |input|
      invariant i <= |input|
      invariant args + Tokenize(input[i..]) == Tokenize(input)
    {
      if IsSpace(input[i]) {
        TokenizeSpaceAt(input, i);
        i := i + 1;
      } else {
        var token, next := NextMatch(input, i);
        ScanStep(args, input, i, token, next);
        args, i := args + [token], next;
      }
    }
  }

  // ---------------------------------------------------------------------------
  // Properties of the tokens
  // ---------------------------------------------------------------------------

  predicate Blank(s: string)
  {
    forall i :: 0 <= i < |s| ==> IsSpace(s[i])
  }

  /** A token of the unquoted kind: non-empty, with no white space and no quote. */
  predicate IsWord(t: string)
  {
    t != [] && forall i :: 0 <= i < |t| ==> !IsSpace(t[i]) && t[i] != '"'
  }

  /** The tokens joined with single spaces. */
  function Join(ts: seq<string>): string
  {
    if ts == [] then []
    else if |ts| == 1 then ts[0]
    else ts[0] + " " + Join(ts[1..])
  }

  /** The tokens glued back together without separators. */
  function Concat(ts: seq<string>): string
  {
    if ts == [] then [] else ts[0] + Concat(ts[1..])
  }

  /** The characters of `s` that are not white space, in order. */
  function NonSpace(s: string): string
  {
    if s == [] then [] else (if IsSpace(s[0]) then [] else [s[0]]) + NonSpace(s[1..])
  }

  /** No tokens exactly when the text is empty or all white space. */
  lemma {:induction false} TokenizeEmptyIffBlank(s: string)
    ensures Tokenize(s) == [] <==> Blank(s)
    decreases |s|
  {
    if s != [] && IsSpace(s[0]) {
      TokenizeEmptyIffBlank(s[1..]);
      if Blank(s[1..]) {
        forall i | 0 <= i < |s| ensures IsSpace(s[i]) {
          if i > 0 { assert s[i] == s[1..][i - 1]; }
        }
      } else {
        var i :| 0 <= i < |s[1..]| && !IsSpace(s[1..][i]);
        assert s[i + 1] == s[1..][i];
      }
    }
  }

  /** Every token is non-empty. */
  lemma {:induction false} TokensNonEmpty(s: string)
    ensures forall k :: 0 <= k < |Tokenize(s)| ==> Tokenize(s)[k] != []
    decreases |s|
  {
    if s == [] {
    } else if IsSpace(s[0]) {
      TokensNonEmpty(s[1..]);
    } else {
      var close := if s[0] == '"' then FirstIndex(s[1..], '"') else None;
      if close.Some? {
        TokensNonEmpty(s[close.value + 2..]);
      } else {
        TokensNonEmpty(s[WordLength(s)..]);
      }
    }
  }

  /** Without quotes in the text, every token is a word. */
  lemma {:induction false} UnquotedTokensAreWords(s: string)
    requires '"' !in s
    ensures forall k :: 0 <= k < |Tokenize(s)| ==> IsWord(Tokenize(s)[k])
    decreases |s|
  {
    if s == [] {
    } else if IsSpace(s[0]) {
      assert forall i :: 0 <= i < |s[1..]| ==> s[1..][i] == s[i + 1];
      UnquotedTokensAreWords(s[1..]);
    } else {
      var n := WordLength(s);
      assert forall i :: 0 <= i < |s[n..]| ==> s[n..][i] == s[i + n];
      assert forall i :: 0 <= i < n ==> s[..n][i] == s[i];
      UnquotedTokensAreWords(s[n..]);
    }
  }

  lemma {:induction false} NonSpaceAppend(a: string, b: string)
    ensures NonSpace(a + b) == NonSpace(a) + NonSpace(b)
    decreases |a|
  {
    if a != [] {
      assert (a + b)[1..] == a[1..] + b;
      NonSpaceAppend(a[1..], b);
    } else {
      assert a + b == b;
    }
  }

  lemma {:induction false} NonSpaceOfSpaceFree(w: string)
    requires forall i :: 0 <= i < |w| ==> !IsSpace(w[i])
    ensures NonSpace(w) == w
    decreases |w|
  {
    if w != [] {
      NonSpaceOfSpaceFree(w[1..]);
    }
  }

  /** Without quotes in the text, the tokens hold every non-space character, in order.
      That each token is a whole run is WordsAreTokens. */
  lemma {:induction false} UnquotedTokensCoverText(s: string)
    requires '"' !in s
    ensures Concat(Tokenize(s)) == NonSpace(s)
    decreases |s|
  {
    if s == [] {
    } else if IsSpace(s[0]) {
      assert forall i :: 0 <= i < |s[1..]| ==> s[1..][i] == s[i + 1];
      UnquotedTokensCoverText(s[1..]);
    } else {
      var n := WordLength(s);
      assert forall i :: 0 <= i < |s[n..]| ==> s[n..][i] == s[i + n];
      UnquotedTokensCoverText(s[n..]);
      var ts := Tokenize(s);
      assert ts == [s[..n]] + Tokenize(s[n..]);
      assert ts[1..] == Tokenize(s[n..]);
      NonSpaceOfSpaceFree(s[..n]);
      NonSpaceAppend(s[..n], s[n..]);
      SplitAt(s, n);
    }
  }

  /** An independent reading of "the runs of non-space": scan the text one character at
      a time, growing the current run `run` and closing it at white space and at the end. */
  function Runs(s: string, run: string): seq<string>
    decreases |s|
  {
    if s == [] then (if run == [] then [] else [run])
    else if IsSpace(s[0]) then (if run == [] then [] else [run]) + Runs(s[1..], [])
    else Runs(s[1..], run + [s[0]])
  }

  function Words(s: string): seq<string>
  {
    Runs(s, [])
  }

  lemma NoQuoteInTail(s: string)
    requires s != [] && '"' !in s
    ensures '"' !in s[1..]
  {
    assert forall i :: 0 <= i < |s[1..]| ==> s[1..][i] == s[i + 1];
  }

  /** The run at the start of a text that starts with non-space is its first character
      followed by the run at the start of the rest. */
  lemma WordLengthStep(s: string)
    requires s != [] && !IsSpace(s[0])
    ensures WordLength(s) == 1 + WordLength(s[1..])
    ensures s[..WordLength(s)] == [s[0]] + s[1..][..WordLength(s[1..])]
    ensures s[WordLength(s)..] == s[1..][WordLength(s[1..])..]
  {
  }

  /** Text starting with a character that is neither white space nor a quote opens a run. */
  lemma TokenizeRunStart(s: string)
    requires s != [] && !IsSpace(s[0]) && s[0] != '"'
    ensures Tokenize(s) == [s[..WordLength(s)]] + Tokenize(s[WordLength(s)..])
  {
  }

  /** The scan with a run already open: the open run is finished by the text's first run. */
  lemma {:induction false} RunsFrom(s: string, run: string)
    requires '"' !in s
    ensures run == [] ==> Runs(s, run) == Tokenize(s)
    ensures run != [] ==> Runs(s, run) == [run + s[..WordLength(s)]] + Tokenize(s[WordLength(s)..])
    decreases |s|
  {
    if s == [] {
      assert run + [] == run;
    } else if IsSpace(s[0]) {
      NoQuoteInTail(s);
      RunsFrom(s[1..], []);
      assert s[..0] == [] && s[0..] == s;
      assert run + [] == run;
    } else {
      var t := s[1..];
      NoQuoteInTail(s);
      RunsFrom(t, run + [s[0]]);
      WordLengthStep(s);
      AppendAssoc(run, [s[0]], t[..WordLength(t)]);
      if run == [] {
        assert run + [s[0]] == [s[0]];
        TokenizeRunStart(s);
      }
    }
  }

  /** Without quotes in the text, the tokens are exactly its maximal runs of non-space, in order. */
  lemma WordsAreTokens(s: string)
    requires '"' !in s
    ensures Tokenize(s) == Words(s)
  {
    RunsFrom(s, []);
  }

  /** A word followed by the end of the text or by white space is a token on its own. */
  lemma TokenizeAfterWord(w: string, rest: string)
    requires IsWord(w)
    requires rest == [] || IsSpace(rest[0])
    ensures Tokenize(w + rest) == [w] + Tokenize(rest)
  {
    var s := w + rest;
    assert s[0] == w[0];
    WordLengthIs(s, |w|);
    assert s[..|w|] == w && s[|w|..] == rest;
  }

  /** Words joined with single spaces tokenize back to the same words. */
  lemma {:induction false} JoinedWordsRoundTrip(ts: seq<string>)
    requires forall k :: 0 <= k < |ts| ==> IsWord(ts[k])
    ensures Tokenize(Join(ts)) == ts
    decreases |ts|
  {
    if |ts| == 1 {
      TokenizeAfterWord(ts[0], []);
      assert ts[0] + [] == ts[0];
    } else if |ts| > 1 {
      var tail := " " + Join(ts[1..]);
      assert Join(ts) == ts[0] + tail;
      TokenizeAfterWord(ts[0], tail);
      assert tail[1..] == Join(ts[1..]);
      JoinedWordsRoundTrip(ts[1..]);
      assert Tokenize(tail) == ts[1..];
      assert [ts[0]] + ts[1..] == ts;
    }
  }

  /** For text without quotes, joining its tokens with single spaces and tokenizing again
      gives back the same tokens. */
  lemma ReparseJoined(s: string)
    requires '"' !in s
    ensures Tokenize(Join(Tokenize(s))) == Tokenize(s)
  {
    UnquotedTokensAreWords(s);
    JoinedWordsRoundTrip(Tokenize(s));
  }

  /** A quote with a later quote gives one token, the text in between (spaces and all),
      or `""` when there is nothing in between; scanning resumes right after the closing quote. */
  lemma {:induction false} QuotedSpan(lead: string, body: string, rest: string)
    requires Blank(lead)
    requires '"' !in body
    ensures Tokenize(lead + "\"" + body + "\"" + rest) ==
      [if body == [] then "\"\"" else body] + Tokenize(rest)
    decreases |lead|
  {
    var s := lead + "\"" + body + "\"" + rest;
    if lead == [] {
      assert s == "\"" + body + "\"" + rest;
      assert s[1..][|body|] == '"';
      assert s[1..][..|body|] == body;
      FirstIndexAt(s[1..], '"', |body|);
      assert s[1..|body| + 1] == body;
      assert s[|body| + 2..] == rest;
    } else {
      assert IsSpace(s[0]);
      assert s[1..] == lead[1..] + "\"" + body + "\"" + rest;
      QuotedSpan(lead[1..], body, rest);
    }
  }

  /** A quoted span with text in it, then words: the span is one token before them. */
  lemma QuotedThenWords(body: string, ts: seq<string>)
    requires body != [] && '"' !in body
    requires forall k :: 0 <= k < |ts| ==> IsWord(ts[k])
    ensures Tokenize(" " + "\"" + body + "\"" + (" " + Join(ts))) == [body] + ts
  {
    var rest := " " + Join(ts);
    QuotedSpan(" ", body, rest);
    TokenizeSpaceAt(rest, 0);
    assert rest[1..] == Join(ts);
    JoinedWordsRoundTrip(ts);
  }

  /** A word, a quoted span with text in it, then words: the span is one token between them. */
  lemma WordThenQuoted(w: string, body: string, ts: seq<string>)
    requires IsWord(w) && body != [] && '"' !in body
    requires forall k :: 0 <= k < |ts| ==> IsWord(ts[k])
    ensures Tokenize(w + " " + "\"" + body + "\"" + " " + Join(ts)) == [w, body] + ts
  {
    var span := " " + "\"" + body + "\"" + (" " + Join(ts));
    Regroup(w, " ", "\"", body, "\"", " ", Join(ts));
    TokenizeAfterWord(w, span);
    QuotedThenWords(body, ts);
    ConsConcat(w, body, ts);
  }

  /** A quote with no later quote is an ordinary character: it starts a run of non-space. */
  lemma UnclosedQuote(s: string)
    requires s != [] && s[0] == '"' && '"' !in s[1..]
    ensures Tokenize(s) == [s[..WordLength(s)]] + Tokenize(s[WordLength(s)..])
    ensures Tokenize(s)[0][0] == '"'
  {
  }
}
