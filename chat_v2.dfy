/** The chat session of 20251211/ChatBot_V2.py: persona choice, provider
    switching, the prompt and message list sent to each provider, the command
    dispatch of main and its append-then-compact step. The provider is an
    explicit field instead of the global CURRENT_PROVIDER; the network calls
    are function parameters. */
module ChatV2 {
  import opened Results
  import opened Text
  import opened Messages
  import opened ChatHistory

  // ---------------------------------------------------------------- personas

  /** PERSONAS, in the dictionary's insertion order. */
  const Personas: seq<(string, string)> := [
    ("assistant", "You are a helpful AI assistant."),
    ("coder", "You are an expert software engineer. Write clean and correct code."),
    ("writer", "You are a creative writer. Use imaginative and expressive language."),
    ("teacher", "You are a patient teacher. Explain concepts clearly with examples."),
    ("analyst", "You are a data analyst. Provide structured, analytical responses.")
  ]

  /** The value of the first entry with the given key. */
  function Lookup<V>(table: seq<(string, V)>, key: string): (r: Option<V>)
    ensures r.None? <==> forall i :: 0 <= i < |table| ==> table[i].0 != key
    ensures r.Some? ==> exists i :: 0 <= i < |table| && table[i] == (key, r.value)
  {
    if table == [] then None
    else if table[0].0 == key then Some(table[0].1)
    else
      var r := Lookup(table[1..], key);
      assert forall i :: 1 <= i < |table| ==> table[i] == table[1..][i - 1];
      r
  }

  /** choose_persona with `input` for the typed line: the stripped, lower-cased
      choice picks by position when it reads as an integer from 1 to 5, else by
      name, else the assistant persona. */
  function ChoosePersona(input: string): string {
    PersonaFor(Lower(Strip(input)))
  }

  /** The persona a stripped, lower-cased choice selects. */
  function PersonaFor(choice: string): string {
    var num := ParseInt(choice);
    if num.Some? && 1 <= num.value <= |Personas| then Personas[num.value - 1].1
    else
      match Lookup(Personas, choice)
      case Some(prompt) => prompt
      case None => Personas[0].1
  }

  lemma ChoosePersonaNumbered(input: string, k: int)
    requires ParseInt(Lower(Strip(input))) == Some(k) && 1 <= k <= |Personas|
    ensures ChoosePersona(input) == Personas[k - 1].1
  {
    PersonaForNumber(Lower(Strip(input)), k);
  }

  lemma PersonaForNumber(choice: string, k: int)
    requires ParseInt(choice) == Some(k) && 1 <= k <= |Personas|
    ensures PersonaFor(choice) == Personas[k - 1].1
  {
  }

  /** Every persona can be picked by its number. */
  lemma ChoosePersonaByNumber(k: nat)
    requires 1 <= k <= |Personas|
    ensures ChoosePersona(NatToString(k)) == Personas[k - 1].1
  {
    var s := NatToString(k);
    assert Lower(Strip(s)) == s by {
      assert forall j :: 0 <= j < |s| ==> !IsSpace(s[j]) && !IsAsciiUpper(s[j]);
      StripNoSpace(s);
      LowerNoUpper(s);
    }
    assert ParseInt(s) == Some(k) by {
      ParseIntOfNatToString(k);
    }
    ChoosePersonaNumbered(s, k);
  }

  /** Every persona can be picked by its name, typed in any case and with
      surrounding blanks. */
  lemma ChoosePersonaByName(i: nat, before: string, typed: string, after: string)
    requires i < |Personas|
    requires Lower(typed) == Personas[i].0
    requires forall j :: 0 <= j < |before| ==> IsSpace(before[j])
    requires forall j :: 0 <= j < |after| ==> IsSpace(after[j])
    ensures ChoosePersona(before + typed + after) == Personas[i].1
  {
    var name := Personas[i].0;
    PersonaNameIsWord(i);
    assert LowerChar(typed[0]) == name[0] && LowerChar(typed[|typed| - 1]) == name[|name| - 1];
    StripAroundName(before, typed, after);
    ChoosePersonaByKey(i, before + typed + after);
  }

  lemma PersonaNameIsWord(i: nat)
    requires i < |Personas|
    ensures var name := Personas[i].0;
      |name| > 0 && 'a' <= name[0] <= 'z' && 'a' <= name[|name| - 1] <= 'z'
  {
  }

  /** Input whose stripped, lower-cased text is a persona's key picks that persona. */
  lemma ChoosePersonaByKey(i: nat, input: string)
    requires i < |Personas|
    requires Lower(Strip(input)) == Personas[i].0
    ensures ChoosePersona(input) == Personas[i].1
  {
    var name := Personas[i].0;
    PersonaNameIsWord(i);
    ParseIntRejectsLetters(name);
    PersonaKeysDistinct();
    LookupDistinct(Personas, i);
    PersonaForName(name, i);
  }

  lemma PersonaForName(choice: string, i: nat)
    requires i < |Personas| && choice == Personas[i].0
    requires ParseInt(choice) == None && Lookup(Personas, choice) == Some(Personas[i].1)
    ensures PersonaFor(choice) == Personas[i].1
  {
  }

  lemma PersonaKeysDistinct()
    ensures forall j, k :: 0 <= j < k < |Personas| ==> Personas[j].0 != Personas[k].0
  {
  }

  /** In a table whose keys are distinct, the key of entry i finds entry i. */
  lemma {:induction false} LookupDistinct<V>(table: seq<(string, V)>, i: nat)
    requires i < |table|
    requires forall j, k :: 0 <= j < k < |table| ==> table[j].0 != table[k].0
    ensures Lookup(table, table[i].0) == Some(table[i].1)
    decreases i
  {
    if i > 0 {
      assert table[0].0 != table[i].0;
      assert table[1..][i - 1] == table[i];
      LookupDistinct(table[1..], i - 1);
    }
  }

  lemma StripAroundName(before: string, name: string, after: string)
    requires |name| > 0 && !IsSpace(name[0]) && !IsSpace(name[|name| - 1])
    requires forall j :: 0 <= j < |before| ==> IsSpace(before[j])
    requires forall j :: 0 <= j < |after| ==> IsSpace(after[j])
    ensures Strip(before + name + after) == name
  {
    StripLeftSkipsBlanks(before, name + after);
    assert before + name + after == before + (name + after);
    StripRightSkipsBlanks(name, after);
  }

  lemma {:induction false} StripLeftSkipsBlanks(blanks: string, rest: string)
    requires forall j :: 0 <= j < |blanks| ==> IsSpace(blanks[j])
    requires rest != [] && !IsSpace(rest[0])
    ensures StripLeft(blanks + rest) == rest
    decreases |blanks|
  {
    if blanks != [] {
      assert (blanks + rest)[1..] == blanks[1..] + rest;
      StripLeftSkipsBlanks(blanks[1..], rest);
    }
  }

  lemma {:induction false} StripRightSkipsBlanks(rest: string, blanks: string)
    requires forall j :: 0 <= j < |blanks| ==> IsSpace(blanks[j])
    requires rest != [] && !IsSpace(rest[|rest| - 1])
    ensures StripRight(rest + blanks) == rest
    decreases |blanks|
  {
    if blanks != [] {
      var shorter := blanks[..|blanks| - 1];
      assert (rest + blanks)[..|rest + blanks| - 1] == rest + shorter;
      StripRightSkipsBlanks(rest, shorter);
    } else {
      assert rest + blanks == rest;
    }
  }

  /** Text that is neither a number from 1 to 5 nor a persona name gets the
      assistant persona. */
  lemma ChoosePersonaDefault(input: string)
    requires var choice := Lower(Strip(input));
      && !(ParseInt(choice).Some? && 1 <= ParseInt(choice).value <= |Personas|)
      && forall i :: 0 <= i < |Personas| ==> Personas[i].0 != choice
    ensures ChoosePersona(input) == Personas[0].1
  {
    PersonaForOther(Lower(Strip(input)));
  }

  lemma PersonaForOther(choice: string)
    requires !(ParseInt(choice).Some? && 1 <= ParseInt(choice).value <= |Personas|)
    requires forall i :: 0 <= i < |Personas| ==> Personas[i].0 != choice
    ensures PersonaFor(choice) == Personas[0].1
  {
    assert Lookup(Personas, choice).None?;
  }

  // ---------------------------------------------------------------- providers

  /** switch_provider with `input` for the typed line: "1" Ollama, "2" Claude,
      anything else keeps the current provider. */
  function SwitchProvider(current: Provider, input: string): (p: Provider)
    ensures Strip(input) == "1" ==> p == Ollama
    ensures Strip(input) == "2" ==> p == Claude
    ensures Strip(input) !in {"1", "2"} ==> p == current
  {
    var choice := Strip(input);
    if choice == "1" then Ollama else if choice == "2" then Claude else current
  }

  function Pairs(history: seq<Turn>): seq<Pair> {
    seq(|history|, i requires 0 <= i < |history| => (history[i].user, history[i].assistant))
  }

  /** The message list of ask_claude: a user and an assistant message per
      history entry, then the prompt. */
  function ClaudeMessages(prompt: string, history: seq<Turn>): seq<Message> {
    PairMessages(Pairs(history)) + [Message(User, prompt)]
  }

  /** The list has 2 * |history| + 1 messages: entry i gives messages 2i and
      2i + 1, and the prompt comes last. */
  lemma ClaudeMessagesShape(prompt: string, history: seq<Turn>)
    ensures var m := ClaudeMessages(prompt, history);
      && |m| == 2 * |history| + 1
      && (forall i :: 0 <= i < |history| ==>
            m[2 * i] == Message(User, history[i].user) && m[2 * i + 1] == Message(Assistant, history[i].assistant))
      && m[|m| - 1] == Message(User, prompt)
  {
    var pm := PairMessages(Pairs(history));
    PairMessagesAt(Pairs(history));
    var m := ClaudeMessages(prompt, history);
    forall i | 0 <= i < |history|
      ensures m[2 * i] == Message(User, history[i].user)
      ensures m[2 * i + 1] == Message(Assistant, history[i].assistant)
    {
      assert m[2 * i] == pm[2 * i];
      assert m[2 * i + 1] == pm[2 * i + 1];
    }
  }

  /** The append loop of ask_claude. */
  method BuildClaudeMessages(prompt: string, history: seq<Turn>) returns (messages: seq<Message>)
    ensures messages == ClaudeMessages(prompt, history)
  {
    messages := [];
    var i := 0;
    while i < |history|
      invariant 0 <= i <= |history|
      invariant messages == PairMessages(Pairs(history)[..i])
    {
      assert Pairs(history)[..i + 1][..i] == Pairs(history)[..i];
      messages := messages + [Message(User, history[i].user)];
      messages := messages + [Message(Assistant, history[i].assistant)];
      i := i + 1;
    }
    assert Pairs(history)[..i] == Pairs(history);
    messages := messages + [Message(User, prompt)];
  }

  function OllamaLines(history: seq<Turn>): string {
    if history == [] then ""
    else
      var m := history[|history| - 1];
      OllamaLines(history[..|history| - 1]) + "User: " + m.user + "\n AI: " + m.assistant + "\n"
  }

  /** The prompt text of ask_ollama. */
  function OllamaPrompt(prompt: string, systemMsg: string, history: seq<Turn>): string {
    systemMsg + "\n\n" + OllamaLines(history) + "User: " + prompt + "\nAI:"
  }

  /** The prompt opens with the persona and a blank line, closes with the new
      user line and an open "AI:" turn, and holds the history lines between. */
  lemma OllamaPromptFrame(prompt: string, systemMsg: string, history: seq<Turn>)
    ensures var p := OllamaPrompt(prompt, systemMsg, history);
      var head := systemMsg + "\n\n";
      var tail := "User: " + prompt + "\nAI:";
      && |head| + |tail| <= |p|
      && p[..|head|] == head
      && p[|p| - |tail|..] == tail
      && p[|head|..|p| - |tail|] == OllamaLines(history)
  {
  }

  /** Each history turn appears in the prompt as its own two lines. */
  lemma {:induction false} OllamaLinesHoldEachTurn(history: seq<Turn>, i: nat)
    requires i < |history|
    ensures Contains(OllamaLines(history), "User: " + history[i].user + "\n AI: " + history[i].assistant + "\n")
  {
    var init := history[..|history| - 1];
    var last := history[|history| - 1];
    var line := "User: " + last.user + "\n AI: " + last.assistant + "\n";
    var whole := OllamaLines(history);
    if i == |history| - 1 {
      assert whole == OllamaLines(init) + line;
      assert whole[|OllamaLines(init)|..] == line;
      ContainsSelf(line);
      ContainsInSuffix(whole, |OllamaLines(init)|, line);
    } else {
      OllamaLinesHoldEachTurn(init, i);
      assert history[i] == init[i];
      ContainsExtended(OllamaLines(init), line, "User: " + history[i].user + "\n AI: " + history[i].assistant + "\n");
      assert whole == OllamaLines(init) + line;
    }
  }

  /** The `+=` loop of ask_ollama. */
  method BuildOllamaPrompt(prompt: string, systemMsg: string, history: seq<Turn>) returns (text: string)
    ensures text == OllamaPrompt(prompt, systemMsg, history)
  {
    text := systemMsg + "\n\n";
    var i := 0;
    while i < |history|
      invariant 0 <= i <= |history|
      invariant text == systemMsg + "\n\n" + OllamaLines(history[..i])
    {
      assert history[..i + 1][..i] == history[..i];
      text := text + "User: " + history[i].user + "\n AI: " + history[i].assistant + "\n";
      i := i + 1;
    }
    assert history[..i] == history;
    text := text + "User: " + prompt + "\nAI:";
  }

  /** How the streamed Claude request ends: the concatenated text deltas, or
      an exception. */
  datatype ClaudeOutcome = Streamed(text: string) | Failed(message: string)

  /** The network side: the API key, the Ollama stream (prompt to the
      concatenated "response" pieces, or the exception the request or a JSON
      line raises), the Claude stream (system prompt and messages to the
      outcome) and the summary request. */
  datatype Backends = Backends(
    apiKey: string,
    ollama: string -> Result<string>,
    claude: (string, seq<Message>) -> ClaudeOutcome,
    summary: (Provider, string) -> SummaryReply)

  const MissingKeyReply := "Error: API key not configured"

  /** ask_ai: the reply of the current provider. ask_claude turns every
      exception into a reply; ask_ollama catches nothing, so its exception
      leaves ask_ai. */
  function AskAi(prompt: string, systemMsg: string, history: seq<Turn>, provider: Provider, b: Backends): (r: Result<string>)
    ensures provider == Claude && b.apiKey == "" ==> r == Ok(MissingKeyReply)
    ensures r.Err? <==> provider == Ollama && b.ollama(OllamaPrompt(prompt, systemMsg, history)).Err?
    ensures provider == Ollama ==> r == b.ollama(OllamaPrompt(prompt, systemMsg, history))
    ensures provider == Claude && b.apiKey != "" ==>
      r == Ok(match b.claude(systemMsg, ClaudeMessages(prompt, history))
              case Streamed(text) => text
              case Failed(message) => "Error: " + message)
  {
    match provider
    case Ollama => b.ollama(OllamaPrompt(prompt, systemMsg, history))
    case Claude =>
      if b.apiKey == "" then Ok(MissingKeyReply)
      else
        match b.claude(systemMsg, ClaudeMessages(prompt, history))
        case Streamed(text) => Ok(text)
        case Failed(message) => Ok("Error: " + message)
  }

  /** generate_summary as the summariser of the current provider. */
  function Summarizer(provider: Provider, b: Backends): seq<Turn> -> string {
    (messages: seq<Turn>) => SummaryOf(messages, provider, b.apiKey, b.summary)
  }

  // ---------------------------------------------------------------- commands

  datatype Command =
    | Skip | Exit | Help | Clear | Save | List | View | Summarize | Stats
    | ChangePersona | ChangeProvider | Config
    | Chat(text: string)

  /** The commands main recognises, compared with the lower-cased line. */
  const CommandWords: seq<(string, Command)> := [
    ("exit", Exit), ("/help", Help), ("/clear", Clear), ("/save", Save),
    ("/list", List), ("/view", View), ("/summarize", Summarize), ("/stats", Stats),
    ("/persona", ChangePersona), ("/provider", ChangeProvider), ("/config", Config)
  ]

  lemma CommandWordsAreCommands(i: nat)
    requires i < |CommandWords|
    ensures CommandWords[i].1 != Skip && !CommandWords[i].1.Chat?
  {
  }

  /** How main reads a line: an empty stripped line is skipped, a command word
      in any case is that command, anything else is a chat message. */
  function ParseCommand(line: string): (c: Command)
    ensures c == Skip <==> Strip(line) == ""
    ensures c.Chat? <==> Strip(line) != "" && forall i :: 0 <= i < |CommandWords| ==> CommandWords[i].0 != Lower(Strip(line))
    ensures c.Chat? ==> c.text == Strip(line)
    ensures c != Skip && !c.Chat? ==> (Lower(Strip(line)), c) in CommandWords
  {
    var msg := Strip(line);
    if msg == "" then Skip
    else
      match Lookup(CommandWords, Lower(msg))
      case Some(command) =>
        assert command != Skip && !command.Chat? by {
          var i :| 0 <= i < |CommandWords| && CommandWords[i] == (Lower(msg), command);
          CommandWordsAreCommands(i);
        }
        command
      case None => Chat(msg)
  }

  // ---------------------------------------------------------------- the session

  /** The state main keeps: the history, the persona prompt and the provider. */
  class ChatSession {
    const limits: Limits
    var history: seq<Turn>
    var systemMsg: string
    var provider: Provider

    /** The start of main: the saved history, the chosen persona, Ollama. */
    constructor (limits: Limits, saved: seq<Turn>, personaInput: string)
      ensures this.limits == limits && history == saved
      ensures systemMsg == ChoosePersona(personaInput) && provider == Ollama
    {
      this.limits := limits;
      history := saved;
      systemMsg := ChoosePersona(personaInput);
      provider := Ollama;
    }

    /** One iteration of main's loop on a typed line, read by ParseCommand.
        `now` stands for the clock, `personaInput` and `providerInput` for the
        lines the persona and provider prompts would read. Commands that only
        print leave the state as it is; /summarize compacts as the command
        intends. An exception from the Ollama request ends main: `raised`
        carries it, the loop stops and the history is left as it was. */
    method Step(command: Command, now: string, personaInput: string, providerInput: string, b: Backends)
      returns (stop: bool, raised: Option<Error>)
      requires ValidLimits(limits)
      modifies this
      ensures raised.Some? <==> command.Chat? && AskAi(command.text, old(systemMsg), old(history), old(provider), b).Err?
      ensures stop <==> command == Exit || raised.Some?
      ensures command == Clear ==> history == [] && systemMsg == old(systemMsg) && provider == old(provider)
      ensures command == Summarize ==>
        history == SummarizeNow(old(history), limits, Summarizer(old(provider), b), now)
        && systemMsg == old(systemMsg) && provider == old(provider)
      ensures command == ChangePersona ==>
        systemMsg == ChoosePersona(personaInput) && history == old(history) && provider == old(provider)
      ensures command == ChangeProvider ==>
        provider == SwitchProvider(old(provider), providerInput) && history == old(history) && systemMsg == old(systemMsg)
      ensures command.Chat? ==>
        var reply := AskAi(command.text, old(systemMsg), old(history), old(provider), b);
        && (reply.Err? ==> raised == Some(reply.error) && history == old(history))
        && (reply.Ok? ==>
              history == Exchange(old(history), Turn(command.text, reply.value, now, Some(old(provider))),
                                  limits, Summarizer(old(provider), b), now)
              && |history| <= limits.maxHistory)
        && systemMsg == old(systemMsg) && provider == old(provider)
      ensures command in {Skip, Exit, Help, Save, List, View, Stats, Config} ==>
        history == old(history) && systemMsg == old(systemMsg) && provider == old(provider)
    {
      raised := None;
      match command {
        case Clear =>
          history := [];
        case Summarize =>
          history := SummarizeNow(history, limits, Summarizer(provider, b), now);
        case ChangePersona =>
          systemMsg := ChoosePersona(personaInput);
        case ChangeProvider =>
          provider := SwitchProvider(provider, providerInput);
        case Chat(msg) =>
          raised := Send(msg, now, b);
        case _ =>
      }
      stop := command == Exit || raised.Some?;
    }

    /** A regular chat message: the reply of the current provider is appended
        with the message, and the history is compacted when over the limit, so
        it never exceeds the limit afterwards. When the request raises, nothing
        is appended and the exception is returned. */
    method Send(msg: string, now: string, b: Backends) returns (raised: Option<Error>)
      requires ValidLimits(limits)
      modifies this
      ensures var reply := AskAi(msg, systemMsg, old(history), provider, b);
        && (raised.Some? <==> reply.Err?)
        && (reply.Err? ==> raised == Some(reply.error) && history == old(history))
        && (reply.Ok? ==>
              var turn := Turn(msg, reply.value, now, Some(provider));
              && history == Exchange(old(history), turn, limits, Summarizer(provider, b), now)
              && |history| <= limits.maxHistory
              && history[|history| - 1] == turn)
      ensures systemMsg == old(systemMsg) && provider == old(provider)
    {
      var reply := AskAi(msg, systemMsg, history, provider, b);
      if reply.Err? {
        return Some(reply.error);
      }
      raised := None;
      var turn := Turn(msg, reply.value, now, Some(provider));
      ExchangeBound(history, turn, limits, Summarizer(provider, b), now);
      history := history + [turn];
      if ShouldSummarize(history, limits) {
        history := SummarizeHistory(history, limits, Summarizer(provider, b), now);
      }
    }
  }
}
