/**
 * The conversation loop of the chat demo (`runOSSChat`) and the five
 * wrappers around the external memory store and language model.
 *
 * The memory store and the model are oracles: each answer is any function
 * of the whole history of the session, including the call being answered,
 * and may be a rejection. The session records everything it does that can
 * be observed from outside (prompts written, calls made, lines printed,
 * the input stream closed) as a log of events; the properties of the loop
 * are statements about that log.
 */
module Chat {
  import opened Wrappers
  import opened JsText
  import opened MemoryFormat

  const UserId := "oss-quickstart-user"
  const SearchLimit := 3
  const Model := "gpt-5-mini"
  const SystemPrompt :=
    "You are a helpful assistant that remembers previous interactions. Use the provided memory context if relevant."
  const Apology := "I'm sorry, there was an error generating a response."
  const YouPrompt := "You: "
  const ConfirmPrompt := "Enter y to confirm memory wipe for user: " + UserId + ": "
  const ListingLabel := "Memories listed for user " + UserId + ":"

  datatype Role = System | User | Assistant
  datatype Message = Message(role: Role, content: string)

  /** How an awaited external call settles. */
  datatype Reply<T> = Resolved(value: T) | Rejected(reason: string)

  datatype Event =
    | Ask(prompt: string)                                 // the input stream writes a prompt and awaits a line
    | Search(query: string, userId: string, limit: nat)   // memory.search
    | Generate(model: string, input: seq<Message>)        // responses.create
    | Print(text: string)                                 // a line shown to the user
    | Add(messages: seq<Message>, userId: string)         // memory.add
    | Wipe(userId: string)                                // memory.deleteAll
    | List(userId: string)                                // memory.getAll
    | Dump(heading: string, memories: Option<seq<MemoryItem>>)  // the structured dump of `inspect`
    | Close                                               // the input stream is closed

  /**
   * The external services. Each is applied to the log that ends with the
   * call it answers. `search`, `add` and `getAll` resolve with the `results`
   * field of the store's answer (absent or present); `create` with
   * `output_text`; `deleteAll` with the store's message.
   */
  datatype Backend = Backend(
    search: seq<Event> -> Reply<Option<seq<MemoryItem>>>,
    create: seq<Event> -> Reply<Option<string>>,
    add: seq<Event> -> Reply<Option<seq<MemoryItem>>>,
    deleteAll: seq<Event> -> Reply<string>,
    getAll: seq<Event> -> Reply<Option<seq<MemoryItem>>>)

  /** What a search yields to the turn: the results, or nothing on a rejection or an absent field. */
  function Found(reply: Reply<Option<seq<MemoryItem>>>): (r: seq<MemoryItem>)
    ensures reply.Resolved? && reply.value.Some? ==> r == reply.value.value
    ensures r != [] ==> reply == Resolved(Some(r))
  {
    match reply
    case Rejected(_) => []
    case Resolved(results) => if results.None? then [] else results.value
  }

  /**
   * The answer of a generation: the trimmed text, or the apology when the call
   * is rejected or has no text to trim. An empty or blank text is kept (empty).
   */
  function ResponseText(reply: Reply<Option<string>>): (r: string)
    ensures reply.Rejected? || reply.value.None? ==> r == Apology
    ensures reply.Resolved? && reply.value.Some? ==> r == Trim(reply.value.value)
    ensures r == "" <==> reply.Resolved? && reply.value.Some? && AllSpace(reply.value.value)
  {
    match reply
    case Rejected(_) => Apology
    case Resolved(text) => if text.None? then Apology else Trim(text.value)
  }

  /** What a listing yields: the results field as the store gave it, or an empty list on a rejection. */
  function Listed(reply: Reply<Option<seq<MemoryItem>>>): (r: Option<seq<MemoryItem>>)
    ensures reply.Rejected? ==> r == Some([])
    ensures reply.Resolved? ==> r == reply.value
  {
    match reply
    case Rejected(_) => Some([])
    case Resolved(results) => results
  }

  /** The request of one generation: the system prompt with the memory context, then the user's text. */
  function GenerateCall(query: string, context: string): Event {
    Generate(Model, [Message(System, SystemPrompt + "\n" + context), Message(User, query)])
  }

  /** The turn handed to the store: the user's text, then the answer. */
  function AddCall(query: string, answer: string, userId: string): Event {
    Add([Message(User, query), Message(Assistant, answer)], userId)
  }

  /**
   * The printed listing: the label, a blank line, then (after the space the
   * console puts between two arguments) the overview.
   */
  function ListingText(memories: Option<seq<MemoryItem>>): (r: string)
    ensures var prefix := ListingLabel + "\n\n "; |r| > |prefix| && r[..|prefix|] == prefix && r[|prefix|..] == MemoryOverview(memories)
  {
    ListingLabel + "\n\n" + " " + MemoryOverview(memories)
  }

  /** The search request of a turn. */
  function SearchCall(line: string): Event {
    Search(line, UserId, SearchLimit)
  }

  /** The memory context of a turn, from what the search after history `log` returned. */
  function TurnContext(b: Backend, log: seq<Event>, line: string): string {
    FormatMemoriesForPrompt(Some(Found(b.search(log + [SearchCall(line)]))))
  }

  /** The history the model answers in a turn: up to and including the generation request. */
  function GenerationLog(b: Backend, log: seq<Event>, line: string): seq<Event> {
    log + [SearchCall(line)] + [GenerateCall(line, TurnContext(b, log, line))]
  }

  /** The answer of a turn. */
  function TurnAnswer(b: Backend, log: seq<Event>, line: string): string {
    ResponseText(b.create(GenerationLog(b, log, line)))
  }

  /**
   * The four calls of a turn, in their order: the `add` at the end closes the
   * turn that the search of the same line opened.
   */
  function TurnOf(line: string, context: string, answer: string): (r: seq<Event>)
    ensures |r| == 4 && ClosesTurn(r, 3)
    ensures r[3].messages[1] == Message(Assistant, answer) && r[1].input[0].content == SystemPrompt + "\n" + context
  {
    [SearchCall(line), GenerateCall(line, context), Print("AI: " + answer), AddCall(line, answer, UserId)]
  }

  /**
   * The events of one conversational turn, after the line was read with
   * history `log`: each step uses what the one before produced. The context
   * is formatted from the search's reply, and the printed and stored answer
   * is the model's reply to the history that ends with the generation.
   */
  function TurnEvents(b: Backend, log: seq<Event>, line: string): (r: seq<Event>)
    ensures |r| == 4 && r[0] == Search(line, UserId, SearchLimit)
    ensures r[1] == GenerateCall(line, FormatMemoriesForPrompt(Some(Found(b.search(log + r[..1])))))
    ensures var answer := ResponseText(b.create(log + r[..2]));
      r[2] == Print("AI: " + answer) && r[3] == AddCall(line, answer, UserId)
  {
    var r := TurnOf(line, TurnContext(b, log, line), TurnAnswer(b, log, line));
    assert r[..1] == [SearchCall(line)];
    assert r[..2] == [SearchCall(line), GenerateCall(line, TurnContext(b, log, line))];
    assert log + r[..2] == GenerationLog(b, log, line);
    r
  }

  /** Where a session ends: its whole log, and the input lines it never read. */
  datatype Ending = Ending(log: seq<Event>, unread: seq<string>)

  /** One pass through the loop body: the events it adds, and whether the loop stops or goes on. */
  datatype Step = Stop(events: seq<Event>, rest: seq<string>) | Next(events: seq<Event>, rest: seq<string>)

  /**
   * One pass through the loop body of a session that has logged `log` and has
   * `lines` left to read. A pass reads lines from the front of the input, so
   * what it leaves is a suffix of `lines`; a pass that goes on has read at
   * least one line.
   */
  function Iteration(b: Backend, log: seq<Event>, lines: seq<string>): (s: Step)
    ensures |s.rest| <= |lines| && s.rest == lines[|lines| - |s.rest|..]
    ensures s.Next? ==> |s.rest| < |lines|
  {
    var asked := log + [Ask(YouPrompt)];
    if lines == [] then Stop([Ask(YouPrompt), Close], [])
    else
      var line, rest := lines[0], lines[1..];
      var command := ToLower(line);
      if command == "quit" || command == "exit" then Stop([Ask(YouPrompt), Close], rest)
      else if command == "reset" then
        if rest == [] then Stop([Ask(YouPrompt), Ask(ConfirmPrompt), Close], [])
        else if ToLower(rest[0]) == "y" then Next([Ask(YouPrompt), Ask(ConfirmPrompt), Wipe(UserId)], rest[1..])
        else Next([Ask(YouPrompt), Ask(ConfirmPrompt)], rest[1..])
      else if command == "list" then
        Next([Ask(YouPrompt), List(UserId), Print(ListingText(Listed(b.getAll(asked + [List(UserId)]))))], rest)
      else if command == "inspect" then
        Next([Ask(YouPrompt), List(UserId), Dump(ListingLabel, Listed(b.getAll(asked + [List(UserId)])))], rest)
      else if Trim(line) == "" then Next([Ask(YouPrompt)], rest)
      else Next([Ask(YouPrompt)] + TurnEvents(b, asked, line), rest)
  }

  /** The rest of a session that has logged `log` and still has `lines` to read. */
  function RunFrom(b: Backend, log: seq<Event>, lines: seq<string>): Ending
    decreases |lines|
  {
    match Iteration(b, log, lines)
    case Stop(events, unread) => Ending(log + events, unread)
    case Next(events, rest) => RunFrom(b, log + events, rest)
  }

  /** The words the loop treats as commands. */
  predicate IsCommand(line: string) {
    var command := ToLower(line);
    command == "quit" || command == "exit" || command == "reset" || command == "list" || command == "inspect"
  }

  /** When no line can be read, the prompt was written and the stream is closed. */
  lemma StreamEnds(b: Backend, log: seq<Event>)
    ensures RunFrom(b, log, []) == Ending(log + [Ask(YouPrompt)] + [Close], [])
  {
    assert log + [Ask(YouPrompt)] + [Close] == log + [Ask(YouPrompt), Close];
  }

  /** `quit` and `exit`, in any case, end the session with no external call. */
  lemma QuitEndsSession(b: Backend, log: seq<Event>, lines: seq<string>)
    requires lines != [] && (ToLower(lines[0]) == "quit" || ToLower(lines[0]) == "exit")
    ensures RunFrom(b, log, lines) == Ending(log + [Ask(YouPrompt)] + [Close], lines[1..])
  {
    assert log + [Ask(YouPrompt)] + [Close] == log + [Ask(YouPrompt), Close];
  }

  /**
   * `reset` reads a confirmation line and wipes exactly once if it is `y` in
   * either case, never otherwise; either way the loop goes on. With no
   * confirmation line the stream is closed.
   */
  lemma ResetAsksConfirmation(b: Backend, log: seq<Event>, lines: seq<string>)
    requires lines != [] && ToLower(lines[0]) == "reset"
    ensures var confirming := log + [Ask(YouPrompt)] + [Ask(ConfirmPrompt)];
      RunFrom(b, log, lines) ==
        if |lines| == 1 then Ending(confirming + [Close], [])
        else if ToLower(lines[1]) == "y" then RunFrom(b, confirming + [Wipe(UserId)], lines[2..])
        else RunFrom(b, confirming, lines[2..])
  {
    var confirming := log + [Ask(YouPrompt)] + [Ask(ConfirmPrompt)];
    var rest := lines[1..];
    if rest == [] {
      assert confirming + [Close] == log + [Ask(YouPrompt), Ask(ConfirmPrompt), Close];
    } else if ToLower(rest[0]) == "y" {
      assert confirming + [Wipe(UserId)] == log + [Ask(YouPrompt), Ask(ConfirmPrompt), Wipe(UserId)];
    } else {
      assert confirming == log + [Ask(YouPrompt), Ask(ConfirmPrompt)];
    }
  }

  /** `list` fetches all memories once and prints their overview. */
  lemma ListStep(b: Backend, log: seq<Event>, lines: seq<string>)
    requires lines != [] && ToLower(lines[0]) == "list"
    ensures var listing := log + [Ask(YouPrompt)] + [List(UserId)];
      RunFrom(b, log, lines) == RunFrom(b, listing + [Print(ListingText(Listed(b.getAll(listing))))], lines[1..])
  {
    var listing := log + [Ask(YouPrompt)] + [List(UserId)];
    var shown := Print(ListingText(Listed(b.getAll(listing))));
    assert listing + [shown] == log + [Ask(YouPrompt), List(UserId), shown];
  }

  /** `inspect` fetches all memories once and dumps them. */
  lemma InspectStep(b: Backend, log: seq<Event>, lines: seq<string>)
    requires lines != [] && ToLower(lines[0]) == "inspect"
    ensures var listing := log + [Ask(YouPrompt)] + [List(UserId)];
      RunFrom(b, log, lines) == RunFrom(b, listing + [Dump(ListingLabel, Listed(b.getAll(listing)))], lines[1..])
  {
    var listing := log + [Ask(YouPrompt)] + [List(UserId)];
    var dumped := Dump(ListingLabel, Listed(b.getAll(listing)));
    assert listing + [dumped] == log + [Ask(YouPrompt), List(UserId), dumped];
  }

  /** A blank line makes no external call and prompts again. */
  lemma BlankLineSkipped(b: Backend, log: seq<Event>, lines: seq<string>)
    requires lines != [] && AllSpace(lines[0])
    ensures RunFrom(b, log, lines) == RunFrom(b, log + [Ask(YouPrompt)], lines[1..])
  {
    var line := lines[0];
    BlankIsNoWord(line, "quit");
    BlankIsNoWord(line, "exit");
    BlankIsNoWord(line, "reset");
    BlankIsNoWord(line, "list");
    BlankIsNoWord(line, "inspect");
  }

  /** Any other line is a conversational turn. */
  lemma TurnStep(b: Backend, log: seq<Event>, lines: seq<string>)
    requires lines != [] && !IsCommand(lines[0]) && !AllSpace(lines[0])
    ensures var asked := log + [Ask(YouPrompt)];
      RunFrom(b, log, lines) == RunFrom(b, asked + TurnEvents(b, asked, lines[0]), lines[1..])
  {
    var asked := log + [Ask(YouPrompt)];
    assert asked + TurnEvents(b, asked, lines[0]) == log + ([Ask(YouPrompt)] + TurnEvents(b, asked, lines[0]));
  }

  /** A line holding white space anywhere is no command: every command word is made of letters only. */
  lemma PaddedLineIsNoCommand(line: string, k: nat)
    requires k < |line| && IsJsSpace(line[k])
    ensures !IsCommand(line)
  {
    assert ToLower(line)[k] == line[k];
  }

  /**
   * Commands are matched on the untrimmed line: a line that trims to a
   * command word but carries white space around it (`" quit"`, `"list "`,
   * a tab, several spaces) is no command and is not blank, so it is taken as
   * a conversational turn.
   */
  lemma PaddedCommandIsTurn(s: string)
    requires Trim(s) in ["quit", "exit", "reset", "list", "inspect"] && s != Trim(s)
    ensures !IsCommand(s) && !AllSpace(s)
  {
    var r := Trim(s);
    var i, j :| 0 <= i <= j <= |s| && r == s[i..j] && AllSpace(s[..i]) && AllSpace(s[j..]);
    if i > 0 {
      assert s[..i][0] == s[0];
      PaddedLineIsNoCommand(s, 0);
    } else {
      assert s[j..][0] == s[j];
      PaddedLineIsNoCommand(s, j);
    }
  }

  /**
   * A word of lower-case letters, a command word included, with one space in
   * front is such a line: it trims to the word, yet is no command.
   */
  lemma SpacedCommandIsTurn(word: string)
    requires IsLowerWord(word) && word != []
    ensures Trim(" " + word) == word
    ensures !IsCommand(" " + word) && !AllSpace(" " + word)
  {
    var line := " " + word;
    assert line[1..] == word;
    assert !IsJsSpace(word[0]) && !IsJsSpace(word[|word| - 1]);
    assert TrimStart(line) == word;
    assert TrimEnd(word) == word;
    PaddedLineIsNoCommand(line, 0);
  }

  /** A search that fails or finds nothing still leads to a generation, with the sentinel context. */
  lemma EmptySearchStillGenerates(b: Backend, log: seq<Event>, line: string)
    requires Found(b.search(log + [SearchCall(line)])) == []
    ensures TurnEvents(b, log, line)[1] == GenerateCall(line, NoContext)
  {
  }

  /** A failed generation prints the apology, and the apology is what the store is given. */
  lemma FailedGenerationApologises(b: Backend, log: seq<Event>, line: string)
    requires b.create(GenerationLog(b, log, line)).Rejected?
    ensures TurnEvents(b, log, line)[2..] == [Print("AI: " + Apology), AddCall(line, Apology, UserId)]
  {
  }

  /** A blank generated text is passed on empty, never replaced by a fallback. */
  lemma BlankAnswerPassesThrough(b: Backend, log: seq<Event>, line: string)
    requires var reply := b.create(GenerationLog(b, log, line));
      reply.Resolved? && reply.value.Some? && AllSpace(reply.value.value)
    ensures TurnEvents(b, log, line)[2..] == [Print("AI: "), AddCall(line, "", UserId)]
  {
    assert "AI: " + "" == "AI: ";
  }

  /**
   * The event at `i` is an `Add` that closes a turn: three events earlier the
   * store was searched with the user's line, then the model was asked about
   * that line, then the answer was printed; the `Add` carries exactly the line
   * and the printed answer, in that order.
   */
  predicate ClosesTurn(t: seq<Event>, i: nat)
    requires i < |t|
  {
    && 3 <= i
    && t[i - 3].Search? && t[i - 3].userId == UserId && t[i - 3].limit == SearchLimit
    && t[i - 2].Generate? && |t[i - 2].input| == 2 && t[i - 2].input[0].role == System
    && t[i - 2].input[1] == Message(User, t[i - 3].query)
    && t[i - 1].Print? && |t[i - 1].text| >= 4 && t[i - 1].text[..4] == "AI: "
    && t[i] == AddCall(t[i - 3].query, t[i - 1].text[4..], UserId)
  }

  /**
   * Every `Add` closes a turn, every search is the start of a turn whose `Add`
   * follows three events later, and every wipe directly follows the
   * confirmation prompt.
   */
  predicate Coherent(t: seq<Event>) {
    && (forall i | 0 <= i < |t| && t[i].Add? :: ClosesTurn(t, i))
    && (forall i | 0 <= i < |t| && t[i].Search? :: i + 3 < |t| && t[i + 3].Add?)
    && (forall i | 0 <= i < |t| && t[i].Wipe? :: 1 <= i && t[i - 1] == Ask(ConfirmPrompt))
  }

  lemma CoherentAppend(t: seq<Event>, u: seq<Event>)
    requires Coherent(t) && Coherent(u)
    ensures Coherent(t + u)
  {
    var tu := t + u;
    forall i | 0 <= i < |tu| && tu[i].Add? ensures ClosesTurn(tu, i) {
      if i < |t| {
        assert ClosesTurn(t, i);
      } else {
        assert ClosesTurn(u, i - |t|);
        assert tu[i - 3] == u[i - |t| - 3] && tu[i - 2] == u[i - |t| - 2] && tu[i - 1] == u[i - |t| - 1];
      }
    }
    forall i | 0 <= i < |tu| && tu[i].Search? ensures i + 3 < |tu| && tu[i + 3].Add? {
      if i < |t| {
        assert t[i].Search?;
      } else {
        assert u[i - |t|].Search?;
      }
    }
    forall i | 0 <= i < |tu| && tu[i].Wipe? ensures 1 <= i && tu[i - 1] == Ask(ConfirmPrompt) {
      if i < |t| {
        assert t[i].Wipe?;
      } else {
        assert u[i - |t|].Wipe?;
      }
    }
  }

  /** A prompt followed by the four calls of one line forms one complete turn, with no close. */
  lemma TurnIsCoherent(line: string, context: string, answer: string)
    ensures Coherent([Ask(YouPrompt)] + TurnOf(line, context, answer))
    ensures Close !in [Ask(YouPrompt)] + TurnOf(line, context, answer)
  {
    var u := [Ask(YouPrompt)] + TurnOf(line, context, answer);
    assert u[3].text[..4] == "AI: " && u[3].text[4..] == answer;
    assert ClosesTurn(u, 4);
  }

  /**
   * What a pass may add to the log: a coherent stretch of events, which ends
   * with the one close when the loop stops and holds no close when it goes on.
   */
  predicate WellFormedPass(s: Step) {
    && Coherent(s.events)
    && (s.Stop? ==> s.events != [] && s.events[|s.events| - 1] == Close && multiset(s.events)[Close] == 1)
    && (s.Next? ==> Close !in s.events)
  }

  /** The end of the input, `quit` and `exit` add the prompt and the one close, and stop the loop. */
  lemma EndingPass(b: Backend, log: seq<Event>, lines: seq<string>)
    requires lines == [] || ToLower(lines[0]) == "quit" || ToLower(lines[0]) == "exit"
    ensures Iteration(b, log, lines).Stop? && Iteration(b, log, lines).events == [Ask(YouPrompt), Close]
    ensures WellFormedPass(Iteration(b, log, lines))
  {
    assert Iteration(b, log, lines).events == [Ask(YouPrompt), Close];
  }

  lemma ResetPass(b: Backend, log: seq<Event>, lines: seq<string>)
    requires lines != [] && ToLower(lines[0]) == "reset"
    ensures WellFormedPass(Iteration(b, log, lines))
  {
    var s := Iteration(b, log, lines);
    if |lines| == 1 {
      assert s.events == [Ask(YouPrompt), Ask(ConfirmPrompt), Close];
    } else if ToLower(lines[1]) == "y" {
      assert s.events == [Ask(YouPrompt), Ask(ConfirmPrompt), Wipe(UserId)];
    } else {
      assert s.events == [Ask(YouPrompt), Ask(ConfirmPrompt)];
    }
  }

  lemma ListingPass(b: Backend, log: seq<Event>, lines: seq<string>)
    requires lines != [] && (ToLower(lines[0]) == "list" || ToLower(lines[0]) == "inspect")
    ensures WellFormedPass(Iteration(b, log, lines))
  {
    var listed := Listed(b.getAll(log + [Ask(YouPrompt)] + [List(UserId)]));
    var shown := if ToLower(lines[0]) == "list" then Print(ListingText(listed)) else Dump(ListingLabel, listed);
    assert Iteration(b, log, lines) == Next([Ask(YouPrompt), List(UserId), shown], lines[1..]);
    ListingWellFormed(shown, lines[1..]);
  }

  lemma ListingWellFormed(shown: Event, rest: seq<string>)
    requires shown.Print? || shown.Dump?
    ensures WellFormedPass(Next([Ask(YouPrompt), List(UserId), shown], rest))
  {
  }

  /** A blank line adds only the prompt, and the loop goes on with the next line. */
  lemma BlankPass(b: Backend, log: seq<Event>, lines: seq<string>)
    requires lines != [] && !IsCommand(lines[0]) && Trim(lines[0]) == ""
    ensures Iteration(b, log, lines) == Next([Ask(YouPrompt)], lines[1..])
    ensures WellFormedPass(Iteration(b, log, lines))
  {
    assert Iteration(b, log, lines).events == [Ask(YouPrompt)];
  }

  lemma TurnPass(b: Backend, log: seq<Event>, lines: seq<string>)
    requires lines != [] && !IsCommand(lines[0]) && Trim(lines[0]) != ""
    ensures WellFormedPass(Iteration(b, log, lines))
  {
    var asked, line := log + [Ask(YouPrompt)], lines[0];
    var events := [Ask(YouPrompt)] + TurnOf(line, TurnContext(b, asked, line), TurnAnswer(b, asked, line));
    assert Iteration(b, log, lines) == Next(events, lines[1..]);
    TurnIsCoherent(line, TurnContext(b, asked, line), TurnAnswer(b, asked, line));
  }

  /** Every pass, whatever the input and the services' answers, is well formed. */
  lemma IterationEvents(b: Backend, log: seq<Event>, lines: seq<string>)
    ensures WellFormedPass(Iteration(b, log, lines))
  {
    if lines == [] || ToLower(lines[0]) == "quit" || ToLower(lines[0]) == "exit" {
      EndingPass(b, log, lines);
    } else if ToLower(lines[0]) == "reset" {
      ResetPass(b, log, lines);
    } else if ToLower(lines[0]) == "list" || ToLower(lines[0]) == "inspect" {
      ListingPass(b, log, lines);
    } else if Trim(lines[0]) == "" {
      BlankPass(b, log, lines);
    } else {
      TurnPass(b, log, lines);
    }
  }

  /** A session's log only grows: the rest of a session appends to what was logged. */
  lemma {:induction false} RunExtends(b: Backend, log: seq<Event>, lines: seq<string>)
    ensures var t := RunFrom(b, log, lines).log; |log| < |t| && t[..|log|] == log
    decreases |lines|
  {
    match Iteration(b, log, lines)
    case Stop(events, _) =>
      IterationEvents(b, log, lines);
    case Next(events, rest) =>
      IterationEvents(b, log, lines);
      RunExtends(b, log + events, rest);
      var t := RunFrom(b, log + events, rest).log;
      assert t[..|log|] == t[..|log + events|][..|log|];
  }

  /**
   * Lines are read in order, never skipped or read twice: what a session
   * leaves unread is a suffix of its input.
   */
  lemma {:induction false} UnreadIsSuffix(b: Backend, log: seq<Event>, lines: seq<string>)
    ensures var u := RunFrom(b, log, lines).unread; |u| <= |lines| && u == lines[|lines| - |u|..]
    decreases |lines|
  {
    var s := Iteration(b, log, lines);
    if s.Stop? {
      assert RunFrom(b, log, lines).unread == s.rest;
    } else {
      assert RunFrom(b, log, lines) == RunFrom(b, log + s.events, s.rest);
      UnreadIsSuffix(b, log + s.events, s.rest);
      var u := RunFrom(b, log + s.events, s.rest).unread;
      assert u == s.rest[|s.rest| - |u|..];
      assert u == lines[|lines| - |u|..];
    }
  }

  /**
   * The input stream is closed exactly once, as the very last event, on every
   * way out of the loop.
   */
  lemma {:induction false} ClosesOnce(b: Backend, log: seq<Event>, lines: seq<string>)
    requires Close !in log
    ensures var t := RunFrom(b, log, lines).log; t != [] && t[|t| - 1] == Close && multiset(t)[Close] == 1
    decreases |lines|
  {
    var s := Iteration(b, log, lines);
    IterationEvents(b, log, lines);
    if s.Stop? {
      assert RunFrom(b, log, lines).log == log + s.events;
      CloseAppended(log, s.events);
    } else {
      assert RunFrom(b, log, lines) == RunFrom(b, log + s.events, s.rest);
      assert Close !in log + s.events;
      ClosesOnce(b, log + s.events, s.rest);
    }
  }

  lemma CloseAppended(log: seq<Event>, events: seq<Event>)
    requires Close !in log
    requires events != [] && events[|events| - 1] == Close && multiset(events)[Close] == 1
    ensures var t := log + events; t != [] && t[|t| - 1] == Close && multiset(t)[Close] == 1
  {
    assert multiset(log + events) == multiset(log) + multiset(events);
    assert (log + events)[|log + events| - 1] == events[|events| - 1];
  }

  /** Whatever the input and whatever the services answer, a session keeps its log coherent. */
  lemma {:induction false} RunIsCoherent(b: Backend, log: seq<Event>, lines: seq<string>)
    requires Coherent(log)
    ensures Coherent(RunFrom(b, log, lines).log)
    decreases |lines|
  {
    var s := Iteration(b, log, lines);
    IterationEvents(b, log, lines);
    CoherentAppend(log, s.events);
    if s.Stop? {
      assert RunFrom(b, log, lines).log == log + s.events;
    } else {
      assert RunFrom(b, log, lines) == RunFrom(b, log + s.events, s.rest);
      RunIsCoherent(b, log + s.events, s.rest);
    }
  }

  /**
   * The replies to `add` and `deleteAll` never change the rest of a session:
   * whether the store accepts or refuses a write, the loop goes on the same way.
   */
  lemma {:induction false} WriteOutcomesIgnored(b: Backend, add: seq<Event> -> Reply<Option<seq<MemoryItem>>>,
                                                deleteAll: seq<Event> -> Reply<string>,
                                                log: seq<Event>, lines: seq<string>)
    ensures RunFrom(b, log, lines) == RunFrom(b.(add := add, deleteAll := deleteAll), log, lines)
    decreases |lines|
  {
    var b' := b.(add := add, deleteAll := deleteAll);
    var s := Iteration(b, log, lines);
    assert Iteration(b', log, lines) == s;
    if s.Next? {
      WriteOutcomesIgnored(b, add, deleteAll, log + s.events, s.rest);
    }
  }

  /** One chat session: the input stream, the external services, and the log of what happened. */
  class ChatSession {
    const backend: Backend
    var pending: seq<string>  // lines the input stream has yet to deliver
    var closed: bool
    var log: seq<Event>

    constructor (backend: Backend, input: seq<string>)
      ensures this.backend == backend && pending == input && !closed && log == []
    {
      this.backend := backend;
      pending := input;
      closed := false;
      log := [];
    }

    /** `rl.question(prompt)`: the next line, or `None` when the stream is closed or has no more lines. */
    method Question(prompt: string) returns (line: Option<string>)
      modifies this`pending, this`log
      ensures closed ==> line.None? && log == old(log) && pending == old(pending)
      ensures !closed ==> log == old(log) + [Ask(prompt)]
      ensures !closed && old(pending) == [] ==> line.None? && pending == []
      ensures !closed && old(pending) != [] ==> line == Some(old(pending)[0]) && pending == old(pending)[1..]
    {
      if closed {
        return None;
      }
      log := log + [Ask(prompt)];
      if pending == [] {
        line := None;
      } else {
        line := Some(pending[0]);
        pending := pending[1..];
      }
    }

    /** `rl.close()`: closing an already closed stream does nothing. */
    method CloseReader()
      modifies this`closed, this`log
      ensures closed
      ensures log == if old(closed) then old(log) else old(log) + [Close]
    {
      if !closed {
        closed := true;
        log := log + [Close];
      }
    }

    method ConsoleLog(text: string)
      modifies this`log
      ensures log == old(log) + [Print(text)]
    {
      log := log + [Print(text)];
    }

    /** `searchMemories`: no call without a user id, and no results on any failure. */
    method SearchMemories(query: string, userId: string) returns (memories: seq<MemoryItem>)
      modifies this`log
      ensures userId == "" ==> log == old(log) && memories == []
      ensures userId != "" ==> log == old(log) + [Search(query, userId, SearchLimit)]
      ensures userId != "" ==> memories == Found(backend.search(log))
    {
      if userId == "" {
        // the guard throws before the store is called, and the handler returns no results
        return [];
      }
      log := log + [Search(query, userId, SearchLimit)];
      match backend.search(log) {
        case Rejected(_) =>
          memories := [];
        case Resolved(results) =>
          memories := if results.None? then [] else results.value;
      }
    }

    /** `getChatbotResponse`: the trimmed answer, or the apology on any failure. */
    method GetChatbotResponse(query: string, context: string) returns (answer: string)
      modifies this`log
      ensures log == old(log) + [GenerateCall(query, context)]
      ensures answer == ResponseText(backend.create(log))
    {
      log := log + [GenerateCall(query, context)];
      match backend.create(log) {
        case Rejected(_) =>
          answer := Apology;
        case Resolved(text) =>
          // trimming an absent text throws, and the handler apologises
          answer := if text.None? then Apology else Trim(text.value);
      }
    }

    /** `addInteractionToMemory`: one call with the user's text then the answer; its outcome, failure included, is swallowed. */
    method AddInteractionToMemory(query: string, answer: string, userId: string)
      modifies this`log
      ensures log == old(log) + [AddCall(query, answer, userId)]
    {
      log := log + [AddCall(query, answer, userId)];
      match backend.add(log) {
        case Rejected(_) =>     // reported on the console only
        case Resolved(_) =>     // the stored memories are reported on the console only
      }
    }

    /** `wipeMemory`: one call; reports whether it succeeded, and never fails itself. */
    method WipeMemory(userId: string) returns (ok: bool)
      modifies this`log
      ensures log == old(log) + [Wipe(userId)]
      ensures ok <==> backend.deleteAll(log).Resolved?
    {
      log := log + [Wipe(userId)];
      ok := backend.deleteAll(log).Resolved?;
    }

    /** `listMemory`: one call; the results as given, or an empty list on a failure. */
    method ListMemory(userId: string) returns (memories: Option<seq<MemoryItem>>)
      modifies this`log
      ensures log == old(log) + [List(userId)]
      ensures memories == Listed(backend.getAll(log))
    {
      log := log + [List(userId)];
      match backend.getAll(log) {
        case Rejected(_) =>
          memories := Some([]);
        case Resolved(results) =>
          memories := results;
      }
    }

    /**
     * One conversational turn of `runOSSChat`: search, format, generate,
     * print, add, each after the previous one has finished.
     */
    method Converse(userInput: string)
      modifies this`log
      ensures log == old(log) + TurnEvents(backend, old(log), userInput)
    {
      ghost var start := log;
      var relevant := SearchMemories(userInput, UserId);
      var context := FormatMemoriesForPrompt(Some(relevant));
      assert context == TurnContext(backend, start, userInput);
      var answer := GetChatbotResponse(userInput, context);
      assert log == GenerationLog(backend, start, userInput);
      ConsoleLog("AI: " + answer);
      AddInteractionToMemory(userInput, answer, UserId);
      assert log == start + TurnOf(userInput, context, answer);
    }

    /**
     * `runOSSChat`: read lines until `quit`/`exit` or until the stream fails,
     * dispatch commands, run a turn for every other non-blank line, and close
     * the stream on the way out.
     */
    method RunChat()
      requires !closed
      modifies this
      ensures closed
      ensures Ending(log, pending) == RunFrom(backend, old(log), old(pending))
    {
      ghost var target := RunFrom(backend, log, pending);
      while true
        invariant !closed
        invariant RunFrom(backend, log, pending) == target
        decreases |pending|
      {
        ghost var before, lines := log, pending;
        ghost var asked := log + [Ask(YouPrompt)];
        var input := Question(YouPrompt);
        if input.None? {
          StreamEnds(backend, before);
          break;  // reading failed: the handler, then the final close
        }
        var userInput := input.value;
        var command := ToLower(userInput);
        if command == "quit" || command == "exit" {
          QuitEndsSession(backend, before, lines);
          break;
        } else if command == "reset" {
          ResetAsksConfirmation(backend, before, lines);
          var confirmation := Question(ConfirmPrompt);
          if confirmation.None? {
            break;
          }
          if ToLower(confirmation.value) == "y" {
            var wiped := WipeMemory(UserId);
          }
          continue;
        } else if command == "list" {
          ListStep(backend, before, lines);
          var memories := ListMemory(UserId);
          ConsoleLog(ListingText(memories));
          continue;
        } else if command == "inspect" {
          InspectStep(backend, before, lines);
          var memories := ListMemory(UserId);
          log := log + [Dump(ListingLabel, memories)];
          continue;
        }
        if Trim(userInput) == "" {
          BlankLineSkipped(backend, before, lines);
          continue;
        }
        TurnStep(backend, before, lines);
        Converse(userInput);
      }
      CloseReader();
    }
  }
}
