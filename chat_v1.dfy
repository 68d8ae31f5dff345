/** The earlier chatbot, 20251209/chatbot_v1.py: persona choice, the message
    lists and the prompt text built from (user, assistant) history pairs, the
    trimming of the local model's output and the history kept by the chat
    loop. The three backends (the ollama subprocess, the Anthropic HTTP call
    and the local HuggingFace model) are function parameters. */
module ChatV1 {
  import opened Results
  import opened Text
  import opened Messages

  const AssistantPersona := "You are an AI assistant. Be helpful and friendly."
  const CoderPersona := "You are an expert coder. Provide highly optimized code."
  const WriterPersona := "You are a skilled writer. Produce clean and engaging text."
  const DefaultPersona := "You are an AI assistant."

  /** get_persona: options "1", "2" and "3" pick a persona; anything else,
      compared without stripping, gets the default. */
  function GetPersona(option: string): (r: string)
    ensures r == AssistantPersona <==> option == "1"
    ensures r == CoderPersona <==> option == "2"
    ensures r == WriterPersona <==> option == "3"
    ensures r == DefaultPersona <==> option !in {"1", "2", "3"}
  {
    if option == "1" then AssistantPersona
    else if option == "2" then CoderPersona
    else if option == "3" then WriterPersona
    else DefaultPersona
  }

  // ---------------------------------------------------------------- message lists

  /** The message list of ask_ollama and ask_claude. */
  function ChatMessages(prompt: string, systemMsg: string, history: seq<Pair>): seq<Message> {
    (if systemMsg != "" then [Message(System, systemMsg)] else [])
      + PairMessages(history) + [Message(User, prompt)]
  }

  /** The list opens with a system message exactly when system_msg is not
      empty; then each history pair gives a user and an assistant message, in
      order; the prompt closes the list as a user message. */
  lemma ChatMessagesShape(prompt: string, systemMsg: string, history: seq<Pair>)
    ensures var m := ChatMessages(prompt, systemMsg, history);
      var off := if systemMsg != "" then 1 else 0;
      && |m| == 2 * |history| + 1 + off
      && (m[0].role == System <==> systemMsg != "")
      && (systemMsg != "" ==> m[0] == Message(System, systemMsg))
      && (forall i :: 0 <= i < |history| ==>
            m[off + 2 * i] == Message(User, history[i].0) && m[off + 2 * i + 1] == Message(Assistant, history[i].1))
      && m[|m| - 1] == Message(User, prompt)
  {
    var m := ChatMessages(prompt, systemMsg, history);
    var head: seq<Message> := if systemMsg != "" then [Message(System, systemMsg)] else [];
    var pm := PairMessages(history);
    PairMessagesAt(history);
    assert m == head + pm + [Message(User, prompt)];
    forall i | 0 <= i < |history|
      ensures m[|head| + 2 * i] == Message(User, history[i].0)
      ensures m[|head| + 2 * i + 1] == Message(Assistant, history[i].1)
    {
      assert m[|head| + 2 * i] == pm[2 * i];
      assert m[|head| + 2 * i + 1] == pm[2 * i + 1];
    }
    if systemMsg == "" {
      if history == [] {
        assert m[0] == Message(User, prompt);
      } else {
        assert pm[2 * 0] == Message(User, history[0].0);
        assert m[0] == pm[0];
      }
    }
  }

  /** The append loop of ask_ollama and ask_claude. */
  method BuildMessages(prompt: string, systemMsg: string, history: seq<Pair>) returns (messages: seq<Message>)
    ensures messages == ChatMessages(prompt, systemMsg, history)
  {
    messages := [];
    if systemMsg != "" {
      messages := messages + [Message(System, systemMsg)];
    }
    ghost var head := messages;
    var i := 0;
    while i < |history|
      invariant 0 <= i <= |history|
      invariant messages == head + PairMessages(history[..i])
    {
      assert history[..i + 1][..i] == history[..i];
      messages := messages + [Message(User, history[i].0)];
      messages := messages + [Message(Assistant, history[i].1)];
      i := i + 1;
    }
    assert history[..i] == history;
    messages := messages + [Message(User, prompt)];
  }

  // ---------------------------------------------------------------- local model prompt

  function PairLines(history: seq<Pair>): string {
    if history == [] then ""
    else
      var last := history[|history| - 1];
      PairLines(history[..|history| - 1]) + "User: " + last.0 + "\nAssistant: " + last.1 + "\n"
  }

  /** The prompt text of ask_huggingface_local. */
  function HfPrompt(prompt: string, systemMsg: string, history: seq<Pair>): string {
    systemMsg + "\n\n" + PairLines(history) + "User: " + prompt + "\nAssistant:"
  }

  /** The prompt opens with the system message and a blank line and closes
      with the new user line and an open "Assistant:" turn; the history lines
      sit in between. */
  lemma HfPromptFrame(prompt: string, systemMsg: string, history: seq<Pair>)
    ensures var p := HfPrompt(prompt, systemMsg, history);
      var head := systemMsg + "\n\n";
      var tail := "User: " + prompt + "\nAssistant:";
      && |head| + |tail| <= |p|
      && p[..|head|] == head
      && p[|p| - |tail|..] == tail
      && p[|head|..|p| - |tail|] == PairLines(history)
  {
  }

  /** Each history pair appears in the prompt as its own two lines. */
  lemma {:induction false} PairLinesHoldEachPair(history: seq<Pair>, i: nat)
    requires i < |history|
    ensures Contains(PairLines(history), "User: " + history[i].0 + "\nAssistant: " + history[i].1 + "\n")
  {
    var init := history[..|history| - 1];
    var last := history[|history| - 1];
    var line := "User: " + last.0 + "\nAssistant: " + last.1 + "\n";
    var whole := PairLines(history);
    if i == |history| - 1 {
      assert whole == PairLines(init) + line;
      assert whole[|PairLines(init)|..] == line;
      ContainsSelf(line);
      ContainsInSuffix(whole, |PairLines(init)|, line);
    } else {
      PairLinesHoldEachPair(init, i);
      assert history[i] == init[i];
      ContainsExtended(PairLines(init), line, "User: " + history[i].0 + "\nAssistant: " + history[i].1 + "\n");
      assert whole == PairLines(init) + line;
    }
  }

  /** The `+=` loop of ask_huggingface_local. */
  method BuildHfPrompt(prompt: string, systemMsg: string, history: seq<Pair>) returns (fullPrompt: string)
    ensures fullPrompt == HfPrompt(prompt, systemMsg, history)
  {
    fullPrompt := systemMsg + "\n\n";
    var i := 0;
    while i < |history|
      invariant 0 <= i <= |history|
      invariant fullPrompt == systemMsg + "\n\n" + PairLines(history[..i])
    {
      assert history[..i + 1][..i] == history[..i];
      var (u, a) := history[i];
      fullPrompt := fullPrompt + "User: " + u + "\nAssistant: " + a + "\n";
      i := i + 1;
    }
    assert history[..i] == history;
    fullPrompt := fullPrompt + "User: " + prompt + "\nAssistant:";
  }

  const ReplyMarker := "Assistant:"

  /** The reply kept from the decoded output: when it holds "Assistant:", the
      stripped text after the last occurrence; otherwise the output itself. */
  function TrimReply(output: string): string {
    if Contains(output, ReplyMarker) then Strip(LastPiece(output, ReplyMarker)) else output
  }

  /** Without the marker the output is returned unchanged. */
  lemma TrimReplyWithoutMarker(output: string)
    requires !Contains(output, ReplyMarker)
    ensures TrimReply(output) == output
  {
  }

  /** With the marker, the reply is the stripped text after an occurrence of
      "Assistant:" at position k that is the last one: no marker follows it. */
  lemma TrimReplyAfterLastMarker(output: string) returns (k: nat)
    requires Contains(output, ReplyMarker)
    ensures k + |ReplyMarker| <= |output|
    ensures output[k..k + |ReplyMarker|] == ReplyMarker
    ensures !Contains(output[k + |ReplyMarker|..], ReplyMarker)
    ensures TrimReply(output) == Strip(output[k + |ReplyMarker|..])
  {
    var piece := LastPiece(output, ReplyMarker);
    LastPieceIsSuffixAfterSep(output, ReplyMarker);
    k := |output| - |piece| - |ReplyMarker|;
    assert output[k..] == ReplyMarker + piece;
    assert output[k..k + |ReplyMarker|] == output[k..][..|ReplyMarker|];
    assert output[k + |ReplyMarker|..] == output[k..][|ReplyMarker|..];
  }

  // ---------------------------------------------------------------- backends

  /** What the Anthropic endpoint answers: a body with "content", given by
      the texts of its blocks, or a body without it (shown by its rendering). */
  datatype ClaudeBody = Content(texts: seq<string>) | NoContent(rendered: string)

  /** The three backends as functions. Each may raise, and nothing in the chat
      loop catches it: the ollama subprocess maps the message list to its raw
      output (or fails to start), the HTTP call maps the message list to the
      decoded body, the local model maps the prompt text to its decoded
      output. */
  datatype Backends = Backends(
    ollama: seq<Message> -> Result<string>,
    apiKey: string,
    claude: seq<Message> -> Result<ClaudeBody>,
    generate: string -> Result<string>)

  const MissingKeyReply := "ERROR: Missing ANTHROPIC_API_KEY"
  const IndexOutOfRange := IndexError("list index out of range")

  /** ask_ollama: the stripped output of the subprocess, fed the message list. */
  function AskOllama(prompt: string, systemMsg: string, history: seq<Pair>, b: Backends): (r: Result<string>)
    ensures r.Err? <==> b.ollama(ChatMessages(prompt, systemMsg, history)).Err?
    ensures r.Ok? ==> r.value == [] || (!IsSpace(r.value[0]) && !IsSpace(r.value[|r.value| - 1]))
    ensures r.Ok? ==> r.value == Strip(b.ollama(ChatMessages(prompt, systemMsg, history)).value)
  {
    match b.ollama(ChatMessages(prompt, systemMsg, history))
    case Err(e) => Err(e)
    case Ok(out) => Ok(Strip(out))
  }

  /** ask_claude: the missing key and a body without "content" are replies;
      a failed request and an empty "content" list raise. */
  function AskClaude(prompt: string, systemMsg: string, history: seq<Pair>, b: Backends): (r: Result<string>)
    ensures b.apiKey == "" ==> r == Ok(MissingKeyReply)
    ensures var body := b.claude(ChatMessages(prompt, systemMsg, history));
      && (r.Err? <==> b.apiKey != "" && (body.Err? || body.value == Content([])))
      && (r.Err? && body.Ok? ==> r.error == IndexOutOfRange)
      && (b.apiKey != "" && body.Ok? && body.value.Content? && body.value.texts != [] ==> r == Ok(body.value.texts[0]))
      && (b.apiKey != "" && body.Ok? && body.value.NoContent? ==> r == Ok("API ERROR: " + body.value.rendered))
  {
    if b.apiKey == "" then Ok(MissingKeyReply)
    else
      match b.claude(ChatMessages(prompt, systemMsg, history))
      case Err(e) => Err(e)
      case Ok(NoContent(rendered)) => Ok("API ERROR: " + rendered)
      case Ok(Content(texts)) => if texts == [] then Err(IndexOutOfRange) else Ok(texts[0])
  }

  /** ask_huggingface_local: the trimmed output of the model, fed the prompt text. */
  function AskHuggingFace(prompt: string, systemMsg: string, history: seq<Pair>, b: Backends): (r: Result<string>)
    ensures var out := b.generate(HfPrompt(prompt, systemMsg, history));
      && (r.Err? <==> out.Err?)
      && (r.Ok? ==> r.value == TrimReply(out.value))
      && (r.Ok? && !Contains(out.value, ReplyMarker) ==> r.value == out.value)
  {
    match b.generate(HfPrompt(prompt, systemMsg, history))
    case Err(e) => Err(e)
    case Ok(out) => Ok(TrimReply(out))
  }

  /** The mode chosen at start-up: "1" ollama, "2" Claude, anything else the
      local model. The reply fails exactly when the chosen backend raises, or
      when Claude's "content" list is empty. */
  function Reply(mode: string, prompt: string, systemMsg: string, history: seq<Pair>, b: Backends): (r: Result<string>)
    ensures mode == "2" && b.apiKey == "" ==> r == Ok(MissingKeyReply)
    ensures r.Err? <==>
      || (mode == "1" && b.ollama(ChatMessages(prompt, systemMsg, history)).Err?)
      || (mode == "2" && b.apiKey != "" &&
            (b.claude(ChatMessages(prompt, systemMsg, history)).Err?
             || b.claude(ChatMessages(prompt, systemMsg, history)).value == Content([])))
      || (mode != "1" && mode != "2" && b.generate(HfPrompt(prompt, systemMsg, history)).Err?)
  {
    if mode == "1" then AskOllama(prompt, systemMsg, history, b)
    else if mode == "2" then AskClaude(prompt, systemMsg, history, b)
    else AskHuggingFace(prompt, systemMsg, history, b)
  }

  // ---------------------------------------------------------------- the chat loop

  /** The state main keeps across iterations of its loop. */
  class ChatLoop {
    const mode: string
    const systemMsg: string
    var history: seq<Pair>

    constructor (persona: string, mode: string)
      ensures this.mode == mode && systemMsg == GetPersona(persona) && history == []
    {
      this.mode := mode;
      systemMsg := GetPersona(persona);
      history := [];
    }

    /** One iteration: "exit" (in any case) ends the loop, "/clear" empties the
        history, and every other line, commands included, is sent to the
        backend and appended with its reply. An exception from the backend
        ends main: `raised` carries it and nothing is appended. */
    method Step(userMsg: string, b: Backends) returns (stop: bool, raised: Option<Error>)
      modifies this
      ensures var sent := Lower(userMsg) != "exit" && Lower(userMsg) != "/clear";
        var reply := Reply(mode, userMsg, systemMsg, old(history), b);
        && (raised.Some? <==> sent && reply.Err?)
        && (raised.Some? ==> raised.value == reply.error && history == old(history))
        && (stop <==> Lower(userMsg) == "exit" || raised.Some?)
        && (Lower(userMsg) == "exit" ==> history == old(history))
        && (Lower(userMsg) == "/clear" ==> history == [])
        && (sent && reply.Ok? ==> history == old(history) + [(userMsg, reply.value)])
    {
      if Lower(userMsg) == "exit" {
        return true, None;
      }
      if Lower(userMsg) == "/clear" {
        history := [];
        return false, None;
      }
      var reply := Reply(mode, userMsg, systemMsg, history, b);
      if reply.Err? {
        return true, Some(reply.error);
      }
      history := history + [(userMsg, reply.value)];
      return false, None;
    }
  }

  /** The history after a run of the loop over the given lines, up to the
      first "exit" or the first exception from the backend. */
  function HistoryAfter(lines: seq<string>, mode: string, systemMsg: string, history: seq<Pair>, b: Backends): seq<Pair>
    decreases |lines|
  {
    if lines == [] || Lower(lines[0]) == "exit" then history
    else if Lower(lines[0]) == "/clear" then HistoryAfter(lines[1..], mode, systemMsg, [], b)
    else
      match Reply(mode, lines[0], systemMsg, history, b)
      case Err(_) => history
      case Ok(reply) => HistoryAfter(lines[1..], mode, systemMsg, history + [(lines[0], reply)], b)
  }

  /** Over lines that are neither "exit" nor "/clear", the first n lines are
      each answered and appended as one pair, in order, after the old
      history; when n falls short of all the lines, the backend raised on
      line n and the loop ended there. */
  lemma {:induction false} HistoryAfterCount(lines: seq<string>, mode: string, systemMsg: string, history: seq<Pair>, b: Backends)
    returns (n: nat)
    requires forall i :: 0 <= i < |lines| ==> Lower(lines[i]) != "exit" && Lower(lines[i]) != "/clear"
    ensures var h := HistoryAfter(lines, mode, systemMsg, history, b);
      && n <= |lines|
      && |h| == |history| + n
      && h[..|history|] == history
      && (forall i :: 0 <= i < n ==> h[|history| + i].0 == lines[i])
      && (n < |lines| ==> Reply(mode, lines[n], systemMsg, h, b).Err?)
    decreases |lines|
  {
    if lines == [] {
      return 0;
    }
    assert Lower(lines[0]) != "exit" && Lower(lines[0]) != "/clear";
    var h := HistoryAfter(lines, mode, systemMsg, history, b);
    var reply := Reply(mode, lines[0], systemMsg, history, b);
    if reply.Err? {
      assert h == history;
      return 0;
    }
    var next := history + [(lines[0], reply.value)];
    var rest := lines[1..];
    assert h == HistoryAfter(rest, mode, systemMsg, next, b);
    assert forall i :: 0 <= i < |rest| ==> rest[i] == lines[i + 1];
    var m := HistoryAfterCount(rest, mode, systemMsg, next, b);
    PairsFollowLines(h, next, history, lines, m);
    n := m + 1;
  }

  /** One pair for the first line followed by one pair for each of the next m lines. */
  lemma PairsFollowLines(h: seq<Pair>, next: seq<Pair>, history: seq<Pair>, lines: seq<string>, m: nat)
    requires m < |lines| && |next| == |history| + 1
    requires next[..|history|] == history && next[|history|].0 == lines[0]
    requires |h| == |next| + m && h[..|next|] == next
    requires forall i :: 0 <= i < m ==> h[|next| + i].0 == lines[1..][i]
    ensures |h| == |history| + m + 1 && h[..|history|] == history
    ensures forall i :: 0 <= i < m + 1 ==> h[|history| + i].0 == lines[i]
  {
    assert h[..|history|] == h[..|next|][..|history|];
    forall i | 0 <= i < m + 1 ensures h[|history| + i].0 == lines[i] {
      if i > 0 {
        assert h[|next| + (i - 1)].0 == lines[1..][i - 1];
      } else {
        assert h[|history|] == h[..|next|][|history|];
      }
    }
  }
}
