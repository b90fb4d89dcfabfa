/** Prompt assembly: the message list an agent sends for its reply
    (`Agent.generate`) and the single prompt the secretary sends for a new
    summary (`SummarizerAgent.summarize`). The remote completion call itself
    is not modelled here: what it receives is a `Request`. */
module Prompts {
  import opened Wrappers
  import opened History

  /** A council member: a name and a persona description, fixed for life. */
  datatype Agent = Agent(name: string, persona: string)

  /** One role-tagged message of a chat-completion request. */
  datatype ChatMessage = ChatMessage(role: string, content: string)

  /** What is handed to the remote completion service. */
  datatype Request = Request(messages: seq<ChatMessage>, maxTokens: nat)

  /** Output cap of an ordinary reply. */
  const ReplyTokens := 220
  /** Output cap of a free-text prompt (used for summaries). */
  const RawTokens := 120
  /** Number of most recent records an agent sees verbatim. */
  const ContextWindow := 4

  const PersonaOpening := "Ты — "
  const PersonaStyle := ". Стиль речи: Warhammer 40 000. "
  const AddressOpening := "Сначала обратись к "
  const AddressClosing := ", затем выскажи мысль."
  const DigestHeading := "Краткий конспект обсуждения:\n"

  const SummaryIntro := "Ниже — предыдущий конспект (если был) и новые реплики.\n\n"
  const PreviousHeading := "=== Предыдущий конспект ===\n"
  const RepliesHeading := "\n\n=== Новые реплики ===\n"
  const SummaryTask := "\n\nСделай новый конспект (максимум 100 слов)."

  /** First system message: the persona, and whom to address first. */
  function PersonaInstruction(persona: string, replyTo: string): (text: string)
  {
    PersonaOpening + persona + PersonaStyle + AddressOpening + replyTo + AddressClosing
  }

  /** Second system message: the running summary (possibly empty). */
  function DigestInstruction(summary: string): (text: string)
  {
    DigestHeading + summary
  }

  /** Final message that makes the service continue as the given agent. */
  function Cue(agent: Agent): (m: ChatMessage)
  {
    ChatMessage(UserRole, agent.name + ":")
  }

  function Min(a: nat, b: nat): (m: nat)
  {
    if a <= b then a else b
  }

  /** The slice `s[-k:]` for a positive `k`: the last `min(k, |s|)` elements. */
  function Window<T>(s: seq<T>, k: nat): (w: seq<T>)
    requires k > 0
    ensures |w| == Min(k, |s|)
  {
    s[|s| - Min(k, |s|)..]
  }

  /** A history record re-rendered for the context window: its role is kept
      and its content becomes "name: content". Subscripting raises KeyError
      on the first missing key, in the order role, name, content. */
  function Render(e: Entry): (r: Result<ChatMessage, Fault>)
  {
    if e.role.None? then Failure(KeyError("role"))
    else if e.name.None? then Failure(KeyError("name"))
    else if e.content.None? then Failure(KeyError("content"))
    else Success(ChatMessage(e.role.value, Labelled(e.name.value, e.content.value)))
  }

  /** Renders records in order, stopping at the first KeyError. */
  function RenderAll(es: seq<Entry>): (r: Result<seq<ChatMessage>, Fault>)
    ensures r.Success? <==> forall i :: 0 <= i < |es| ==> Complete(es[i])
    ensures r.Failure? ==> r.error.KeyError?
    ensures r.Success? ==> |r.value| == |es|
    ensures r.Success? ==> forall i :: 0 <= i < |es| ==>
      r.value[i] == ChatMessage(es[i].role.value, Labelled(es[i].name.value, es[i].content.value))
    decreases |es|
  {
    if es == [] then Success([])
    else
      match RenderAll(es[..|es| - 1])
      case Failure(f) => Failure(f)
      case Success(init) =>
        match Render(es[|es| - 1])
        case Failure(f) => Failure(f)
        case Success(m) => Success(init + [m])
  }

  /** The KeyError of a rendering is that of its first incomplete record. */
  lemma {:induction false} RenderAllFirstFault(es: seq<Entry>, i: nat)
    requires i < |es|
    requires RenderAll(es[..i]).Success?
    requires Render(es[i]).Failure?
    ensures RenderAll(es) == Failure(Render(es[i]).error)
    decreases |es|
  {
    if i < |es| - 1 {
      assert es[..|es| - 1][..i] == es[..i];
      RenderAllFirstFault(es[..|es| - 1], i);
    } else {
      assert es[..|es| - 1] == es[..i];
    }
  }

  /** The message list `Agent.generate` sends. */
  function ReplyMessages(agent: Agent, history: seq<Entry>, summary: string, replyTo: string)
    : (r: Result<seq<ChatMessage>, Fault>)
    ensures r.Failure? ==> r.error.KeyError?
  {
    match RenderAll(Window(history, ContextWindow))
    case Failure(f) => Failure(f)
    case Success(context) =>
      Success([ChatMessage(SystemRole, PersonaInstruction(agent.persona, replyTo)),
               ChatMessage(SystemRole, DigestInstruction(summary))]
              + context + [Cue(agent)])
  }

  /** The window holds the last min(k, |s|) elements of `s`, in order. */
  lemma WindowAt<T>(s: seq<T>, k: nat, i: nat)
    requires k > 0 && i < |Window(s, k)|
    ensures Window(s, k)[i] == s[|s| - Min(k, |s|) + i]
  {
  }

  /** Rendering the window fails exactly when one of the last
      min(4, |history|) records lacks a key. */
  lemma WindowRenders(history: seq<Entry>)
    ensures var start := |history| - Min(ContextWindow, |history|);
      RenderAll(Window(history, ContextWindow)).Success?
      <==> forall i :: start <= i < |history| ==> Complete(history[i])
  {
  }


  /** The message list is the two system messages, the rendered window and
      the cue. */
  lemma ReplyMessagesFrame(agent: Agent, history: seq<Entry>, summary: string, replyTo: string)
    requires RenderAll(Window(history, ContextWindow)).Success?
    ensures var r := ReplyMessages(agent, history, summary, replyTo);
      var context := RenderAll(Window(history, ContextWindow)).value;
      && r.Success?
      && |r.value| == 2 + Min(ContextWindow, |history|) + 1
      && r.value[0] == ChatMessage(SystemRole, PersonaInstruction(agent.persona, replyTo))
      && r.value[1] == ChatMessage(SystemRole, DigestInstruction(summary))
      && (forall i :: 0 <= i < |context| ==> r.value[2 + i] == context[i])
      && r.value[2 + |context|] == ChatMessage(UserRole, agent.name + ":")
  {
  }

  /** Message 2 + (j - start) of the list is record j of the history,
      re-rendered with its own role and the content "name: content". */
  lemma ReplyMessagesAt(agent: Agent, history: seq<Entry>, summary: string, replyTo: string, j: nat)
    requires RenderAll(Window(history, ContextWindow)).Success?
    requires |history| - Min(ContextWindow, |history|) <= j < |history|
    ensures var r := ReplyMessages(agent, history, summary, replyTo);
      var start := |history| - Min(ContextWindow, |history|);
      && r.Success? && 2 + j - start < |r.value|
      && r.value[2 + j - start]
         == ChatMessage(history[j].role.value, Labelled(history[j].name.value, history[j].content.value))
  {
    ReplyMessagesFrame(agent, history, summary, replyTo);
    WindowAt(history, ContextWindow, j - (|history| - Min(ContextWindow, |history|)));
  }

  /** `Agent.generate` raises KeyError exactly when one of the last
      min(4, |history|) records lacks a key. */
  lemma ReplyMessagesFails(agent: Agent, history: seq<Entry>, summary: string, replyTo: string)
    ensures var start := |history| - Min(ContextWindow, |history|);
      ReplyMessages(agent, history, summary, replyTo).Success?
      <==> forall i :: start <= i < |history| ==> Complete(history[i])
  {
    WindowRenders(history);
  }

  /** Message-list assembly of `Agent.generate`, record by record over the
      window. The history is a value and is left as it was. */
  method BuildReplyMessages(agent: Agent, history: seq<Entry>, summary: string, replyTo: string)
    returns (r: Result<seq<ChatMessage>, Fault>)
    ensures r == ReplyMessages(agent, history, summary, replyTo)
  {
    var header := [ChatMessage(SystemRole, PersonaInstruction(agent.persona, replyTo)),
                   ChatMessage(SystemRole, DigestInstruction(summary))];
    var window := Window(history, ContextWindow);
    var messages := header;
    var i := 0;
    while i < |window|
      invariant 0 <= i <= |window|
      invariant RenderAll(window[..i]).Success?
      invariant messages == header + RenderAll(window[..i]).value
    {
      var msg := window[i];
      if msg.role.None? || msg.name.None? || msg.content.None? {
        RenderAllFirstFault(window, i);
        r := Failure(Render(msg).error);
        return;
      }
      assert window[..i + 1][..i] == window[..i];
      messages := messages + [ChatMessage(msg.role.value, Labelled(msg.name.value, msg.content.value))];
      i := i + 1;
    }
    assert window[..i] == window;
    messages := messages + [Cue(agent)];
    r := Success(messages);
  }

  /** A record appended for an assistant already starts with "name: ", and the
      window renders it with the name in front once more: the agent sees
      "name: name: answer". */
  lemma AssistantNameRenderedTwice(speaker: string, answer: string)
    ensures Render(MakeEntry(AssistantRole, speaker, answer))
         == Success(ChatMessage(AssistantRole, Labelled(speaker, Labelled(speaker, answer))))
  {
  }

  /** One line of the summary prompt, "name: content"; KeyError on the first
      missing key, in the order name, content. */
  function Line(e: Entry): (r: Result<string, Fault>)
  {
    if e.name.None? then Failure(KeyError("name"))
    else if e.content.None? then Failure(KeyError("content"))
    else Success(Labelled(e.name.value, e.content.value))
  }

  /** The lines of a history chunk, in chunk order, stopping at the first KeyError. */
  function ChunkLines(chunk: seq<Entry>): (r: Result<seq<string>, Fault>)
    ensures r.Success? <==> forall i :: 0 <= i < |chunk| ==> chunk[i].name.Some? && chunk[i].content.Some?
    ensures r.Failure? ==> r.error.KeyError?
    ensures r.Success? ==> |r.value| == |chunk|
    ensures r.Success? ==> forall i :: 0 <= i < |chunk| ==>
      r.value[i] == Labelled(chunk[i].name.value, chunk[i].content.value)
  {
    if chunk == [] then Success([])
    else
      match Line(chunk[0])
      case Failure(f) => Failure(f)
      case Success(first) =>
        match ChunkLines(chunk[1..])
        case Failure(f) => Failure(f)
        case Success(rest) => Success([first] + rest)
  }

  /** `"\n".join(lines)`. */
  function Join(lines: seq<string>): (text: string)
  {
    if lines == [] then ""
    else if |lines| == 1 then lines[0]
    else lines[0] + "\n" + Join(lines[1..])
  }

  /** `s.split("\n")`: the pieces between line breaks (at least one). */
  function Split(s: string): (r: seq<string>)
    ensures |r| > 0
  {
    if s == [] then [""]
    else
      var rest := Split(s[1..]);
      if s[0] == '\n' then [""] + rest
      else [[s[0]] + rest[0]] + rest[1..]
  }

  predicate SingleLine(s: string)
  {
    forall i :: 0 <= i < |s| ==> s[i] != '\n'
  }

  lemma {:induction false} SplitSingleLine(a: string, tail: string)
    requires SingleLine(a)
    ensures Split(a) == [a]
    ensures Split(a + "\n" + tail) == [a] + Split(tail)
    decreases |a|
  {
    if a == [] {
      assert a + "\n" + tail == "\n" + tail;
      assert ("\n" + tail)[1..] == tail;
    } else {
      assert (a + "\n" + tail)[1..] == a[1..] + "\n" + tail;
      assert (a + "\n" + tail)[0] == a[0];
      SplitSingleLine(a[1..], tail);
      assert [a[0]] + a[1..] == a;
    }
  }

  /** Joining lines that hold no line break and splitting again gives the
      same lines back: the joined block loses neither lines nor their order. */
  lemma {:induction false} SplitJoin(lines: seq<string>)
    requires |lines| > 0
    requires forall i :: 0 <= i < |lines| ==> SingleLine(lines[i])
    ensures Split(Join(lines)) == lines
    decreases |lines|
  {
    if |lines| == 1 {
      SplitSingleLine(lines[0], "");
    } else {
      SplitJoin(lines[1..]);
      SplitSingleLine(lines[0], Join(lines[1..]));
      assert [lines[0]] + lines[1..] == lines;
    }
  }

  /** The prompt `SummarizerAgent.summarize` builds from a chunk and the previous summary. */
  function SummaryPrompt(chunk: seq<Entry>, previous: string): (r: Result<string, Fault>)
    ensures r.Failure? ==> r.error.KeyError?
    ensures r.Success? ==> |SummaryIntro + PreviousHeading| + |previous| + |RepliesHeading| + |SummaryTask| <= |r.value|
  {
    match ChunkLines(chunk)
    case Failure(f) => Failure(f)
    case Success(lines) =>
      Success(SummaryIntro + PreviousHeading + previous + RepliesHeading + Join(lines) + SummaryTask)
  }

  /** `generate_raw`: a free-text prompt wrapped as a single user message. */
  function RawRequest(prompt: string): (q: Request)
  {
    Request([ChatMessage(UserRole, prompt)], RawTokens)
  }

  /** The five parts of a concatenation can be sliced back out of it. */
  lemma PartsOf(a: string, b: string, c: string, d: string, e: string)
    ensures var p := a + b + c + d + e;
      && |a| + |b| + |c| <= |p| - |e|
      && p[..|a|] == a
      && p[|a|..|a| + |b|] == b
      && p[|a| + |b|..|a| + |b| + |c|] == c
      && p[|a| + |b| + |c|..|p| - |e|] == d
      && p[|p| - |e|..] == e
  {
    var p := a + b + c + d + e;
    assert p == (a + b + c + d) + e;
    assert p == a + (b + c + d + e);
  }

  /** "name: text" holds a line break only where its name or text does. */
  lemma LabelledSingleLine(speaker: string, text: string)
    requires SingleLine(speaker) && SingleLine(text)
    ensures SingleLine(Labelled(speaker, text))
  {
    var s := Labelled(speaker, text);
    forall k | 0 <= k < |s|
      ensures s[k] != '\n'
    {
      if k < |speaker| {
        assert s[k] == speaker[k];
      } else if k < |speaker| + |NameSeparator| {
        assert s[k] == NameSeparator[k - |speaker|];
      } else {
        assert s[k] == text[k - |speaker| - |NameSeparator|];
      }
    }
  }

  /** Names and contents without line breaks give lines without line breaks. */
  lemma ChunkLinesSingle(chunk: seq<Entry>)
    requires forall i :: 0 <= i < |chunk| ==> chunk[i].name.Some? && chunk[i].content.Some?
    requires forall i :: 0 <= i < |chunk| ==>
      SingleLine(chunk[i].name.value) && SingleLine(chunk[i].content.value)
    ensures ChunkLines(chunk).Success?
    ensures forall i :: 0 <= i < |chunk| ==> SingleLine(ChunkLines(chunk).value[i])
  {
    forall i | 0 <= i < |chunk|
      ensures SingleLine(ChunkLines(chunk).value[i])
    {
      LabelledSingleLine(chunk[i].name.value, chunk[i].content.value);
    }
  }

  /** The summary prompt opens with the introduction and the previous-summary
      heading, holds the previous summary right after it, then the replies
      heading, then the chunk as its "name: content" lines, in chunk order,
      joined by line breaks, and closes with the task sentence; it fails
      exactly when a record lacks a name or content. Lines without inner line
      breaks can be read back from the prompt one by one. */
  lemma SummaryPromptLayout(chunk: seq<Entry>, previous: string)
    ensures SummaryPrompt(chunk, previous).Success? <==>
      forall i :: 0 <= i < |chunk| ==> chunk[i].name.Some? && chunk[i].content.Some?
    ensures SummaryPrompt(chunk, previous).Success? ==>
      var p := SummaryPrompt(chunk, previous).value;
      var start := |SummaryIntro + PreviousHeading|;
      var body := start + |previous| + |RepliesHeading|;
      && body <= |p| - |SummaryTask|
      && p[..start] == SummaryIntro + PreviousHeading
      && p[start..start + |previous|] == previous
      && p[start + |previous|..body] == RepliesHeading
      && p[body..|p| - |SummaryTask|] == Join(ChunkLines(chunk).value)
      && p[|p| - |SummaryTask|..] == SummaryTask
      && (|chunk| > 0 &&
          (forall i :: 0 <= i < |chunk| ==> SingleLine(chunk[i].name.value) && SingleLine(chunk[i].content.value))
          ==> Split(p[body..|p| - |SummaryTask|]) == ChunkLines(chunk).value)
  {
    var r := ChunkLines(chunk);
    if r.Success? {
      var lines := r.value;
      var p := SummaryPrompt(chunk, previous).value;
      assert p == (SummaryIntro + PreviousHeading) + previous + RepliesHeading + Join(lines) + SummaryTask;
      PartsOf(SummaryIntro + PreviousHeading, previous, RepliesHeading, Join(lines), SummaryTask);
      if |chunk| > 0 && (forall i :: 0 <= i < |chunk| ==> SingleLine(chunk[i].name.value) && SingleLine(chunk[i].content.value)) {
        ChunkLinesSingle(chunk);
        SplitJoin(lines);
      }
    }
  }
}
