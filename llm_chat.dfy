/**
  The conversation state of the LLM tab: the transcript shown to the user,
  the history folded into the system prompt of the next call, the turn
  counter, and the loading animation that runs while a call is in flight.

  `sendToLLM` is split at its one suspension point: `BeginSend` is the part
  that runs when Send is tapped and yields the request handed to the model
  client; `Complete` is the completion handler, given the client's reply.
  The client itself is not modelled: its reply is an input.
*/
module LlmChat {
  import opened Text
  import opened Json
  import opened Models
  import opened Sorting
  import opened LlmContext

  /** One completed exchange: what the user typed and what came back. */
  datatype Turn = Turn(userText: string, modelText: string)

  /** The arguments of `testOpenAI(input:systemPrompt:extraInfo:)`. */
  datatype Request = Request(input: string, systemPrompt: string, extraInfo: string)

  const LoadingFrames: seq<string> := ["🐦.", "🐦..", "🐦...", "🐦✨", "🐦💭"]

  /** What sits between the previous system prompt and the history. */
  const HistoryIntro: string := "\n\n// See History Chats: \n"

  /** `newMessage` of turn `n`: the user's text under "I Say - n", then the
      reply under "LittleGreen - n". */
  function TurnMessage(n: nat, input: string, result: string): string
  {
    "\U{1F7E2} I Say - " + NatToString(n) + ":\n" + input + "\n\n"
    + "⚪️ LittleGreen - " + NatToString(n) + ":\n" + result + "\n"
  }

  /** The text recorded for turn `n`: its `newMessage`. */
  function Message(n: nat, t: Turn): string
  {
    TurnMessage(n, t.userText, t.modelText)
  }

  /** The history after these turns, for a message format `msg`: each turn's
      message, numbered from 1, preceded by a newline. With `Message` this is
      both `historyChatRef` and `responseText`. */
  function History(turns: seq<Turn>, msg: (nat, Turn) -> string): string
  {
    if |turns| == 0 then ""
    else History(turns[..|turns| - 1], msg) + ("\n" + msg(|turns|, turns[|turns| - 1]))
  }

  /** The system prompt after these turns: it starts empty, and each turn
      appends the whole history so far. */
  function Prompt(turns: seq<Turn>, msg: (nat, Turn) -> string): string
  {
    if |turns| == 0 then ""
    else Prompt(turns[..|turns| - 1], msg) + (HistoryIntro + History(turns, msg) + "\n\n")
  }

  function Transcript(turns: seq<Turn>): string
  {
    History(turns, Message)
  }

  function PromptAfter(turns: seq<Turn>): string
  {
    Prompt(turns, Message)
  }

  lemma PrefixOfConcat(a: string, b: string)
    ensures a <= a + b
  {
    assert (a + b)[..|a|] == a;
  }

  lemma PrefixTransitive(a: string, b: string, c: string)
    requires a <= b && b <= c
    ensures a <= c
  {
    assert c[..|a|] == b[..|a|];
  }

  lemma PrefixAppend(a: string, b: string, c: string)
    requires b <= c
    ensures a + b <= a + c
  {
    assert (a + c)[..|a| + |b|] == a + c[..|b|];
  }

  lemma Regroup(a: string, b: string, c: string, d: string)
    ensures a + (b + c + d) == (a + b) + (c + d)
  {
  }

  /** The history only grows: the history after the first `i` turns is a
      prefix of the history after all of them. */
  lemma {:induction false} HistoryGrows(turns: seq<Turn>, i: nat, msg: (nat, Turn) -> string)
    requires i <= |turns|
    ensures History(turns[..i], msg) <= History(turns, msg)
  {
    if i < |turns| {
      var front := turns[..|turns| - 1];
      assert turns[..i] == front[..i];
      HistoryGrows(front, i, msg);
      var tail := "\n" + msg(|turns|, turns[|turns| - 1]);
      PrefixOfConcat(History(front, msg), tail);
      PrefixTransitive(History(turns[..i], msg), History(front, msg), History(turns, msg));
    } else {
      assert turns[..i] == turns;
    }
  }

  /** The system prompt only grows in the same way. */
  lemma {:induction false} PromptGrows(turns: seq<Turn>, i: nat, msg: (nat, Turn) -> string)
    requires i <= |turns|
    ensures Prompt(turns[..i], msg) <= Prompt(turns, msg)
  {
    if i < |turns| {
      var front := turns[..|turns| - 1];
      assert turns[..i] == front[..i];
      PromptGrows(front, i, msg);
      var tail := HistoryIntro + History(turns, msg) + "\n\n";
      PrefixOfConcat(Prompt(front, msg), tail);
      PrefixTransitive(Prompt(turns[..i], msg), Prompt(front, msg), Prompt(turns, msg));
    } else {
      assert turns[..i] == turns;
    }
  }

  /** Turn `i` (from 0) appears in the history right after the turns before
      it, numbered `i + 1`. */
  lemma TurnInHistory(turns: seq<Turn>, i: nat, msg: (nat, Turn) -> string)
    requires i < |turns|
    ensures History(turns[..i], msg) + ("\n" + msg(i + 1, turns[i])) <= History(turns, msg)
  {
    var upto := turns[..i + 1];
    assert upto[..|upto| - 1] == turns[..i];
    assert upto[|upto| - 1] == turns[i];
    HistoryGrows(turns, i + 1, msg);
  }

  /** After `n >= 1` turns the prompt for the next call holds, after the
      previous prompt and the history header, every turn in order: turn `i`
      follows exactly the turns before it. */
  lemma PromptCarriesEveryTurn(turns: seq<Turn>, i: nat, msg: (nat, Turn) -> string)
    requires i < |turns|
    ensures Prompt(turns[..|turns| - 1], msg) + HistoryIntro
            + (History(turns[..i], msg) + ("\n" + msg(i + 1, turns[i])))
            <= Prompt(turns, msg)
  {
    var front := Prompt(turns[..|turns| - 1], msg);
    var m := History(turns[..i], msg) + ("\n" + msg(i + 1, turns[i]));
    TurnInHistory(turns, i, msg);
    var t := History(turns, msg);
    Regroup(front, HistoryIntro, t, "\n\n");
    PrefixOfConcat(t, "\n\n");
    PrefixTransitive(m, t, t + "\n\n");
    PrefixAppend(front + HistoryIntro, m, t + "\n\n");
  }

  /** One more turn extends the history by its message and the prompt by
      the whole new history. */
  lemma NextTurn(turns: seq<Turn>, t: Turn, msg: (nat, Turn) -> string)
    ensures History(turns + [t], msg) == History(turns, msg) + ("\n" + msg(|turns| + 1, t))
    ensures Prompt(turns + [t], msg) == Prompt(turns, msg) + (HistoryIntro + History(turns + [t], msg) + "\n\n")
  {
    assert (turns + [t])[..|turns|] == turns;
  }

  /** The shown history and the system prompt are the ones these turns produce. */
  predicate Tracks(turns: seq<Turn>, history: string, prompt: string)
  {
    history == Transcript(turns) && prompt == PromptAfter(turns)
  }

  /** Appending turn `t`'s message to the history, and then the new history
      to the prompt, keeps them in step with the turns. */
  lemma NextTracks(turns: seq<Turn>, t: Turn, history: string, prompt: string)
    requires Tracks(turns, history, prompt)
    ensures Tracks(turns + [t], history + ("\n" + TurnMessage(|turns| + 1, t.userText, t.modelText)),
                   prompt + (HistoryIntro + (history + ("\n" + TurnMessage(|turns| + 1, t.userText, t.modelText))) + "\n\n"))
  {
    NextTurn(turns, t, Message);
  }

  class ChatSession {
    var userInput: string
    var extraInfo: string
    var responseText: string
    var isCollapsed: bool
    var chatCnt: int
    var historyChatRef: string
    var systemPrompt: string
    var isFetching: bool
    var dotPhase: int
    var loadingDots: string
    /** The completed turns, oldest first. */
    ghost var turns: seq<Turn>

    /** The shown transcript and the history are the same text, built from the
        completed turns; the counter is one more than their number; the
        prompt is the one those turns produce; the animation shows either
        nothing or the frame its phase names. */
    ghost predicate Valid()
      reads this
    {
      && chatCnt == |turns| + 1
      && responseText == historyChatRef
      && Tracks(turns, historyChatRef, systemPrompt)
      && 0 <= dotPhase < |LoadingFrames|
      && ((loadingDots == "" && dotPhase == 0) || loadingDots == LoadingFrames[dotPhase])
    }

    /** The view's initial `@State` values. The view's own `systemPrompt`
        starts empty; it shadows the global prompt literal. */
    constructor ()
      ensures Valid() && turns == []
      ensures userInput == "" && extraInfo == "" && responseText == "" && isCollapsed
      ensures chatCnt == 1 && historyChatRef == "" && systemPrompt == ""
      ensures !isFetching && dotPhase == 0 && loadingDots == ""
    {
      userInput, extraInfo, responseText, isCollapsed := "", "", "", true;
      chatCnt, historyChatRef, systemPrompt := 1, "", "";
      isFetching, dotPhase, loadingDots := false, 0, "";
      turns := [];
    }

    /** The text editor's binding. */
    method TypeInput(text: string)
      requires Valid()
      modifies this
      ensures Valid() && userInput == text
      ensures extraInfo == old(extraInfo) && responseText == old(responseText) && isCollapsed == old(isCollapsed)
      ensures chatCnt == old(chatCnt) && historyChatRef == old(historyChatRef) && systemPrompt == old(systemPrompt)
      ensures isFetching == old(isFetching) && dotPhase == old(dotPhase) && loadingDots == old(loadingDots)
      ensures turns == old(turns)
    {
      userInput := text;
    }

    /** Send tapped: mark the call in flight and build the request from the
        current input, the current system prompt and the cached records. */
    method BeginSend(files: Files, parse: JsonParser) returns (req: Request)
      requires Valid()
      modifies this
      ensures Valid() && isFetching
      ensures req == Request(userInput, systemPrompt, ExtraContext(extraInfo, files, parse))
      ensures userInput == old(userInput) && extraInfo == old(extraInfo) && responseText == old(responseText)
      ensures isCollapsed == old(isCollapsed) && chatCnt == old(chatCnt)
      ensures historyChatRef == old(historyChatRef) && systemPrompt == old(systemPrompt)
      ensures dotPhase == old(dotPhase) && loadingDots == old(loadingDots) && turns == old(turns)
    {
      isFetching := true;
      var projects := SortedProjects(files, parse);
      var actions := SortedActions(files, parse);
      var metaSummary := MetaSummary(projects);
      var actionSummary := ActionSummary(actions);
      req := Request(userInput, systemPrompt, CombinedExtraInfo(extraInfo, metaSummary, actionSummary));
    }

    /** The completion handler, given the model client's reply: record the
        turn under the current count, clear the input, count the turn, and
        fold the whole history into the system prompt. */
    method Complete(result: string)
      requires Valid()
      modifies this
      ensures Valid() && !isFetching
      ensures turns == old(turns) + [Turn(old(userInput), result)]
      ensures chatCnt == old(chatCnt) + 1
      ensures responseText == old(responseText) + ("\n" + TurnMessage(old(chatCnt), old(userInput), result))
      ensures historyChatRef == old(historyChatRef) + ("\n" + TurnMessage(old(chatCnt), old(userInput), result))
      ensures systemPrompt == old(systemPrompt) + (HistoryIntro + historyChatRef + "\n\n")
      ensures userInput == "" && isCollapsed
      ensures extraInfo == old(extraInfo) && dotPhase == old(dotPhase) && loadingDots == old(loadingDots)
    {
      var newMessage := TurnMessage(chatCnt, userInput, result);
      NextTracks(turns, Turn(userInput, result), historyChatRef, systemPrompt);
      responseText := responseText + ("\n" + newMessage);
      turns := turns + [Turn(userInput, result)];
      userInput := "";
      isCollapsed := true;
      chatCnt := chatCnt + 1;
      historyChatRef := historyChatRef + ("\n" + newMessage);
      systemPrompt := systemPrompt + (HistoryIntro + historyChatRef + "\n\n");
      isFetching := false;
    }

    /** One firing of the half-second animation timer. */
    method Tick()
      requires Valid()
      modifies this
      ensures Valid()
      ensures old(isFetching) ==> dotPhase == (old(dotPhase) + 1) % |LoadingFrames| && loadingDots == LoadingFrames[dotPhase]
      ensures !old(isFetching) ==> dotPhase == 0 && loadingDots == ""
      ensures userInput == old(userInput) && extraInfo == old(extraInfo) && responseText == old(responseText)
      ensures isCollapsed == old(isCollapsed) && chatCnt == old(chatCnt) && historyChatRef == old(historyChatRef)
      ensures systemPrompt == old(systemPrompt) && isFetching == old(isFetching) && turns == old(turns)
    {
      if isFetching {
        dotPhase := (dotPhase + 1) % |LoadingFrames|;
        loadingDots := LoadingFrames[dotPhase];
      } else {
        loadingDots := "";
        dotPhase := 0;
      }
    }
  }

  /** Two turns in a row: the second call carries the first exchange in its
      system prompt, and the history and prompt after both are the ones the
      two turns produce. */
  method TwoTurns(files: Files, parse: JsonParser, first: string, firstReply: string, second: string, secondReply: string)
    returns (secondCall: Request, history: string, prompt: string)
    ensures secondCall.input == second
    ensures secondCall.systemPrompt == PromptAfter([Turn(first, firstReply)])
    ensures history == Transcript([Turn(first, firstReply), Turn(second, secondReply)])
    ensures prompt == PromptAfter([Turn(first, firstReply), Turn(second, secondReply)])
  {
    var s := new ChatSession();
    s.TypeInput(first);
    var firstCall := s.BeginSend(files, parse);
    s.Complete(firstReply);
    assert s.turns == [Turn(first, firstReply)];
    s.TypeInput(second);
    secondCall := s.BeginSend(files, parse);
    s.Complete(secondReply);
    assert s.turns == [Turn(first, firstReply), Turn(second, secondReply)];
    history, prompt := s.historyChatRef, s.systemPrompt;
  }

  /** What two turns leave behind: messages numbered 1 and 2 in the history,
      and a prompt holding the history after one turn and then after both. */
  lemma TwoTurnTexts(first: Turn, second: Turn, msg: (nat, Turn) -> string)
    ensures History([first, second], msg) == "\n" + msg(1, first) + ("\n" + msg(2, second))
    ensures Prompt([first, second], msg)
            == HistoryIntro + History([first], msg) + "\n\n" + (HistoryIntro + History([first, second], msg) + "\n\n")
  {
    NextTurn([], first, msg);
    NextTurn([first], second, msg);
    assert [] + [first] == [first];
    assert [first] + [second] == [first, second];
  }
}
