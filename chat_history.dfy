/** History compaction of 20251211/ChatBot_V2.py: should_summarize,
    summarize_history and generate_summary. MAX_HISTORY_LENGTH and
    KEEP_RECENT_MESSAGES are parameters (20 and 5 in the source); the
    summarising backend and the clock are parameters too. */
module ChatHistory {
  import opened Results

  datatype Provider = Ollama | Claude

  /** One history entry. An exchange records the provider that answered; the
      summary entry has no "provider" key. */
  datatype Turn = Turn(user: string, assistant: string, time: string, provider: Option<Provider>)

  /** MAX_HISTORY_LENGTH and KEEP_RECENT_MESSAGES. */
  datatype Limits = Limits(maxHistory: nat, keepRecent: nat)

  /** The source's values. */
  const SourceLimits := Limits(20, 5)

  /** Compaction keeps at least one turn verbatim and ends below the limit. */
  predicate ValidLimits(l: Limits) {
    0 < l.keepRecent < l.maxHistory
  }

  const SummaryUser := "[Summary]"

  /** should_summarize(history). */
  predicate ShouldSummarize(history: seq<Turn>, l: Limits) {
    |history| > l.maxHistory
  }

  // ---------------------------------------------------------------- Python slices

  /** history[:-k]: everything but the last k entries (and, as in Python,
      nothing at all when k is 0). */
  function DropLast<X>(s: seq<X>, k: nat): seq<X> {
    if k == 0 then [] else if k <= |s| then s[..|s| - k] else []
  }

  /** history[-k:]: the last k entries (and, as in Python, all of them when
      k is 0). */
  function TakeLast<X>(s: seq<X>, k: nat): seq<X> {
    if k == 0 then s else if k <= |s| then s[|s| - k..] else s
  }

  /** The two slices split the history without loss or overlap, for every k. */
  lemma SlicesSplit<X>(s: seq<X>, k: nat)
    ensures DropLast(s, k) + TakeLast(s, k) == s
    ensures 0 < k <= |s| ==> |TakeLast(s, k)| == k
  {
    if 0 < k <= |s| {
      assert s[..|s| - k] + s[|s| - k..] == s;
    }
  }

  // ---------------------------------------------------------------- compaction

  /** The summary entry followed by the last k turns. */
  function Compact(history: seq<Turn>, k: nat, summarize: seq<Turn> -> string, now: string): seq<Turn> {
    [Turn(SummaryUser, summarize(DropLast(history, k)), now, None)] + TakeLast(history, k)
  }

  /** summarize_history(history, system_msg), with `summarize` standing for
      generate_summary and `now` for the timestamp. */
  function SummarizeHistory(history: seq<Turn>, l: Limits, summarize: seq<Turn> -> string, now: string): seq<Turn> {
    if !ShouldSummarize(history, l) then history
    else Compact(history, l.keepRecent, summarize, now)
  }

  /** Below the limit nothing changes. Over it the result is one "[Summary]"
      entry whose text the summariser made from exactly the entries not kept,
      followed verbatim by the last keep_recent entries, so its length is
      keep_recent + 1 and it is shorter than the input. */
  lemma SummarizeHistorySpec(history: seq<Turn>, l: Limits, summarize: seq<Turn> -> string, now: string)
    requires ValidLimits(l)
    ensures var r := SummarizeHistory(history, l, summarize, now);
      && (!ShouldSummarize(history, l) ==> r == history)
      && (ShouldSummarize(history, l) ==>
            var k := l.keepRecent;
            && |r| == k + 1 < |history|
            && r[0] == Turn(SummaryUser, summarize(history[..|history| - k]), now, None)
            && r[1..] == history[|history| - k..])
  {
    SlicesSplit(history, l.keepRecent);
  }

  // ---------------------------------------------------------------- the chat step

  /** The regular-message step of main: append the exchange, then compact if
      over the limit. */
  function Exchange(history: seq<Turn>, turn: Turn, l: Limits, summarize: seq<Turn> -> string, now: string): seq<Turn> {
    var appended := history + [turn];
    if ShouldSummarize(appended, l) then SummarizeHistory(appended, l, summarize, now) else appended
  }

  /** After an exchange the history never exceeds the limit, whatever its
      length before, and its last entry is the new exchange. */
  lemma ExchangeBound(history: seq<Turn>, turn: Turn, l: Limits, summarize: seq<Turn> -> string, now: string)
    requires ValidLimits(l)
    ensures var r := Exchange(history, turn, l, summarize, now);
      && 0 < |r| <= l.maxHistory
      && r[|r| - 1] == turn
      && (|history| < l.maxHistory ==> r == history + [turn])
  {
    var appended := history + [turn];
    SummarizeHistorySpec(appended, l, summarize, now);
  }

  // ---------------------------------------------------------------- /summarize

  /** The /summarize command as written: guarded by more than keep_recent
      turns, but it calls summarize_history, which compacts only over
      max_history. */
  function SummarizeCommandAsWritten(history: seq<Turn>, l: Limits, summarize: seq<Turn> -> string, now: string): seq<Turn> {
    if |history| > l.keepRecent then SummarizeHistory(history, l, summarize, now) else history
  }

  /** With between keep_recent + 1 and max_history turns (6 to 20 in the
      source, 10 say) the command passes its guard and changes nothing. */
  lemma SummarizeCommandDoesNothing(history: seq<Turn>, l: Limits, summarize: seq<Turn> -> string, now: string)
    requires l.keepRecent < |history| <= l.maxHistory
    ensures SummarizeCommandAsWritten(history, l, summarize, now) == history
  {
  }

  /** The source's limits with ten turns: the guard passes, nothing is compacted. */
  lemma SummarizeCommandTenTurns(t: Turn, summarize: seq<Turn> -> string, now: string)
    ensures var history := seq(10, i => t);
      |history| > SourceLimits.keepRecent
      && SummarizeCommandAsWritten(history, SourceLimits, summarize, now) == history
  {
    SummarizeCommandDoesNothing(seq(10, i => t), SourceLimits, summarize, now);
  }

  /** /summarize as its guard, its message and the help text describe it:
      with more than keep_recent turns, compact now. */
  function SummarizeNow(history: seq<Turn>, l: Limits, summarize: seq<Turn> -> string, now: string): seq<Turn> {
    if |history| > l.keepRecent then Compact(history, l.keepRecent, summarize, now) else history
  }

  /** The corrected command compacts whenever its guard passes: the result is
      the summary entry and the last keep_recent turns, never longer than the
      history; with too few turns nothing changes. */
  lemma SummarizeNowSpec(history: seq<Turn>, l: Limits, summarize: seq<Turn> -> string, now: string)
    requires l.keepRecent > 0
    ensures var r := SummarizeNow(history, l, summarize, now);
      && (|history| <= l.keepRecent ==> r == history)
      && (|history| > l.keepRecent ==>
            && |r| == l.keepRecent + 1 <= |history|
            && r[0] == Turn(SummaryUser, summarize(history[..|history| - l.keepRecent]), now, None)
            && r[1..] == history[|history| - l.keepRecent..])
  {
    SlicesSplit(history, l.keepRecent);
  }

  // ---------------------------------------------------------------- generate_summary

  /** What a summary request gives back: the summary text, a body without the
      expected field (with the text of the exception that lookup raises), or
      an exception from the request itself. */
  datatype SummaryReply = Text(text: string) | MissingField(lookupError: string) | Raised(message: string)

  const Unavailable := "Summary unavailable"

  function TurnLines(messages: seq<Turn>): string {
    if messages == [] then ""
    else
      var m := messages[|messages| - 1];
      TurnLines(messages[..|messages| - 1]) + "User: " + m.user + "\nAI: " + m.assistant + "\n\n"
  }

  function SummaryPrompt(convoText: string): string {
    "Provide a concise summary of this conversation:\n\n" + convoText + "\n\nSummary:"
  }

  /** generate_summary: the request goes to the current provider; every
      failure, and a missing API key for Claude, becomes a "Summary
      unavailable" text instead of an exception. */
  function SummaryOf(messages: seq<Turn>, provider: Provider, apiKey: string,
                     post: (Provider, string) -> SummaryReply): string
  {
    var prompt := SummaryPrompt(TurnLines(messages));
    match provider
    case Ollama =>
      (match post(Ollama, prompt)
       case Text(t) => t
       case MissingField(_) => Unavailable
       case Raised(m) => Unavailable + ": " + m)
    case Claude =>
      if apiKey == "" then Unavailable + " (no API key)"
      else
        match post(Claude, prompt)
        case Text(t) => t
        case MissingField(m) => Unavailable + ": " + m
        case Raised(m) => Unavailable + ": " + m
  }

  /** The summary is the backend's text or a "Summary unavailable" notice,
      and without a key the Claude backend is not asked at all. */
  lemma SummaryNeverFails(messages: seq<Turn>, provider: Provider, apiKey: string,
                          post1: (Provider, string) -> SummaryReply, post2: (Provider, string) -> SummaryReply)
    ensures var r := SummaryOf(messages, provider, apiKey, post1);
      var reply := post1(provider, SummaryPrompt(TurnLines(messages)));
      && (provider == Ollama || apiKey != "" ==>
            (reply.Text? ==> r == reply.text) && (!reply.Text? ==> r[..|Unavailable|] == Unavailable))
      && (provider == Claude && apiKey == "" ==>
            r == "Summary unavailable (no API key)" && r == SummaryOf(messages, provider, apiKey, post2))
  {
  }

  /** The `+=` loop of generate_summary, followed by the request. */
  method GenerateSummary(messages: seq<Turn>, provider: Provider, apiKey: string,
                         post: (Provider, string) -> SummaryReply) returns (summary: string)
    ensures summary == SummaryOf(messages, provider, apiKey, post)
  {
    var convoText := "";
    var i := 0;
    while i < |messages|
      invariant 0 <= i <= |messages|
      invariant convoText == TurnLines(messages[..i])
    {
      assert messages[..i + 1][..i] == messages[..i];
      convoText := convoText + "User: " + messages[i].user + "\nAI: " + messages[i].assistant + "\n\n";
      i := i + 1;
    }
    assert messages[..i] == messages;
    var prompt := SummaryPrompt(convoText);
    if provider == Ollama {
      var reply := post(Ollama, prompt);
      summary := match reply
        case Text(t) => t
        case MissingField(_) => Unavailable
        case Raised(m) => Unavailable + ": " + m;
    } else {
      if apiKey == "" {
        return Unavailable + " (no API key)";
      }
      var reply := post(Claude, prompt);
      summary := match reply
        case Text(t) => t
        case MissingField(m) => Unavailable + ": " + m
        case Raised(m) => Unavailable + ": " + m;
    }
  }
}
