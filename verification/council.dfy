/** The council: it owns the history and the running summary, appends the
    user's topic, refreshes the summary when the trigger holds, then lets
    every agent speak in configured order for a number of rounds. The remote
    completion service is a parameter: `service(k, request)` is what the k-th
    call of one discussion gets back, the answer's text, or None when the
    call raised an exception. */
module Council {
  import opened Wrappers
  import opened History
  import opened Prompts

  /** Speaker name recorded for the user's messages. */
  const UserName := "Пользователь"

  /** Number of most recent records handed to the summarizer. */
  const SummaryChunk := 12

  /** The remote completion service, as seen by one discussion. */
  type Service = (nat, Request) -> Option<string>

  /** One remote call: its answer, or CallFailed when it raised. */
  function Completion(service: Service, call: nat, q: Request): (r: Result<string, Fault>)
    ensures r.Success? <==> service(call, q).Some?
    ensures r.Success? ==> r.value == service(call, q).value
    ensures r.Failure? ==> r.error == CallFailed
  {
    match service(call, q)
    case None => Failure(CallFailed)
    case Some(answer) => Success(answer)
  }

  function UserEntry(topic: string): (e: Entry)
  {
    MakeEntry(UserRole, UserName, topic)
  }

  /** `range(rounds)` runs no pass for a negative count. */
  function Passes(rounds: int): (n: nat)
  {
    if rounds < 0 then 0 else rounds
  }

  /** The last record of the history has a speaker name. */
  predicate EndsWithSpeaker(h: seq<Entry>)
  {
    |h| > 0 && h[|h| - 1].name.Some?
  }

  /** What one agent turn yields: the agent, the history so far, the speaker
      it is asked to address and the number of service calls already made
      give its answer, or the KeyError raised while building its prompt, or
      the failure of the service call. */
  type Replier = (Agent, seq<Entry>, string, nat) -> Result<string, Fault>

  /** `Agent.generate` followed by the remote call: the service's answer to
      the agent's message list, or the failure of either. */
  function AgentReply(agent: Agent, h: seq<Entry>, summary: string, replyTo: string,
                      service: Service, call: nat): (r: Result<string, Fault>)
  {
    match ReplyMessages(agent, h, summary, replyTo)
    case Failure(f) => Failure(f)
    case Success(messages) => Completion(service, call, Request(messages, ReplyTokens))
  }

  /** The replier of a discussion whose summary is fixed. */
  function Replies(summary: string, service: Service): (reply: Replier)
  {
    (agent: Agent, h: seq<Entry>, replyTo: string, call: nat) =>
      AgentReply(agent, h, summary, replyTo, service, call)
  }

  lemma RepliesApply(summary: string, service: Service, agent: Agent, h: seq<Entry>, replyTo: string, call: nat)
    ensures Replies(summary, service)(agent, h, replyTo, call) == AgentReply(agent, h, summary, replyTo, service, call)
  {
  }

  /** A turn fails with a KeyError exactly when building the agent's message
      list does, and with CallFailed exactly when the list is built and the
      service call raises. */
  lemma AgentReplyFaults(agent: Agent, h: seq<Entry>, summary: string, replyTo: string,
                         service: Service, call: nat)
    ensures var r := AgentReply(agent, h, summary, replyTo, service, call);
      var m := ReplyMessages(agent, h, summary, replyTo);
      && (r.Failure? && r.error.KeyError? <==> m.Failure?)
      && (m.Failure? ==> r == Failure(m.error))
      && (r == Failure(CallFailed) <==>
            m.Success? && service(call, Request(m.value, ReplyTokens)).None?)
      && (r.Success? ==> m.Success? && service(call, Request(m.value, ReplyTokens)) == Some(r.value))
  {
  }

  /** Speaker of the last record. */
  function LastSpeaker(h: seq<Entry>): (name: string)
    requires EndsWithSpeaker(h)
  {
    h[|h| - 1].name.value
  }

  /** State after a number of turns: the history, the number of service
      calls made so far, and the fault that stopped the turns, if any. */
  datatype Transcript = Transcript(history: seq<Entry>, calls: nat, fault: Option<Fault>)

  /** The speaking order of `passes` rounds: the agents in configured order,
      once per round. */
  function Schedule(agents: seq<Agent>, passes: nat): (speakers: seq<Agent>)
  {
    if passes == 0 then [] else Schedule(agents, passes - 1) + agents
  }

  lemma {:induction false} ScheduleLength(agents: seq<Agent>, passes: nat)
    ensures |Schedule(agents, passes)| == passes * |agents|
  {
    if passes > 0 {
      ScheduleLength(agents, passes - 1);
    }
  }

  /** A schedule of fewer rounds is a prefix of one of more rounds. */
  lemma {:induction false} SchedulePrefix(agents: seq<Agent>, fewer: nat, passes: nat)
    requires fewer <= passes
    ensures Schedule(agents, fewer) <= Schedule(agents, passes)
    decreases passes
  {
    if fewer < passes {
      SchedulePrefix(agents, fewer, passes - 1);
    }
  }

  /** The first j + 1 turns of round i, after the earlier rounds. */
  lemma ScheduleGrows(agents: seq<Agent>, i: nat, j: nat, passes: nat)
    requires i < passes && j < |agents|
    ensures Schedule(agents, i) + agents[..j] + [agents[j]] == Schedule(agents, i) + agents[..j + 1]
    ensures Schedule(agents, i) + agents[..j + 1] <= Schedule(agents, passes)
  {
    assert agents[..j] + [agents[j]] == agents[..j + 1];
    SchedulePrefix(agents, i + 1, passes);
  }

  /** A full round completes the next schedule. */
  lemma ScheduleNextRound(agents: seq<Agent>, i: nat)
    ensures Schedule(agents, i) + agents[..|agents|] == Schedule(agents, i + 1)
  {
    assert agents[..|agents|] == agents;
  }

  /** Turn j of round i: the next transcript of the schedule, and, when
      that turn fails, the transcript of the whole schedule. */
  lemma NextTurn(h: seq<Entry>, agents: seq<Agent>, i: nat, j: nat, passes: nat, reply: Replier, first: nat)
    requires EndsWithSpeaker(h) && i < passes && j < |agents|
    requires Turns(h, Schedule(agents, i) + agents[..j], reply, first).fault.None?
    ensures var t := Turns(h, Schedule(agents, i) + agents[..j], reply, first);
      var next := Turns(h, Schedule(agents, i) + agents[..j + 1], reply, first);
      match reply(agents[j], t.history, LastSpeaker(t.history), t.calls)
      case Failure(f) =>
        next == t.(fault := Some(f)) && Turns(h, Schedule(agents, passes), reply, first) == next
      case Success(answer) =>
        next == Transcript(t.history + [ReplyEntry(agents[j].name, answer)], t.calls + 1, None)
  {
    var done := Schedule(agents, i) + agents[..j];
    ScheduleGrows(agents, i, j, passes);
    TurnsStep(h, done, agents[j], reply, first);
    var next := Turns(h, done + [agents[j]], reply, first);
    if next.fault.Some? {
      TurnsStopAtFault(h, done + [agents[j]], Schedule(agents, passes), reply, first);
    }
  }

  /** Turn j of round r follows the |Schedule(agents, r)| turns of the earlier
      rounds (r * |agents| of them, by ScheduleLength) and belongs to agent j. */
  lemma ScheduleAt(agents: seq<Agent>, passes: nat, r: nat, j: nat)
    requires r < passes && j < |agents|
    ensures |Schedule(agents, r)| + j < |Schedule(agents, passes)|
    ensures Schedule(agents, passes)[|Schedule(agents, r)| + j] == agents[j]
  {
    SchedulePrefix(agents, r + 1, passes);
  }

  /** The turn before turn j of round r is agent j - 1's within a round,
      and the last agent's at the start of a later round. */
  lemma SchedulePrevious(agents: seq<Agent>, passes: nat, r: nat, j: nat)
    requires r < passes && j < |agents| && (r > 0 || j > 0)
    ensures 0 < |Schedule(agents, r)| + j <= |Schedule(agents, passes)|
    ensures Schedule(agents, passes)[|Schedule(agents, r)| + j - 1]
      == if j > 0 then agents[j - 1] else agents[|agents| - 1]
  {
    if j > 0 {
      ScheduleAt(agents, passes, r, j - 1);
    } else {
      ScheduleAt(agents, passes, r - 1, |agents| - 1);
    }
  }

  /** The turns of the given speakers in order, starting with `first` service
      calls already made. Each speaker is asked to address the speaker of the
      last record; the first fault stops the turns. */
  function Turns(h: seq<Entry>, speakers: seq<Agent>, reply: Replier, first: nat): (t: Transcript)
    requires EndsWithSpeaker(h)
    ensures EndsWithSpeaker(t.history)
    ensures h <= t.history
    ensures |t.history| <= |h| + |speakers|
    ensures t.fault.None? ==> |t.history| == |h| + |speakers|
    ensures t.calls == first + |t.history| - |h|
    decreases |speakers|
  {
    if speakers == [] then Transcript(h, first, None)
    else
      var t := Turns(h, speakers[..|speakers| - 1], reply, first);
      if t.fault.Some? then t
      else
        var agent := speakers[|speakers| - 1];
        match reply(agent, t.history, LastSpeaker(t.history), t.calls)
        case Failure(f) => t.(fault := Some(f))
        case Success(answer) =>
          Transcript(t.history + [ReplyEntry(agent.name, answer)], t.calls + 1, None)
  }

  /** One more speaker: one more turn, unless a turn already failed. */
  lemma TurnsStep(h: seq<Entry>, speakers: seq<Agent>, agent: Agent, reply: Replier, first: nat)
    requires EndsWithSpeaker(h)
    ensures var t := Turns(h, speakers, reply, first);
      Turns(h, speakers + [agent], reply, first)
      == if t.fault.Some? then t
         else match reply(agent, t.history, LastSpeaker(t.history), t.calls)
           case Failure(f) => t.(fault := Some(f))
           case Success(answer) =>
             Transcript(t.history + [ReplyEntry(agent.name, answer)], t.calls + 1, None)
  {
  }

  /** Once a turn has failed, later speakers change nothing. */
  lemma {:induction false} TurnsStopAtFault(h: seq<Entry>, speakers: seq<Agent>, more: seq<Agent>,
                                             reply: Replier, first: nat)
    requires EndsWithSpeaker(h)
    requires speakers <= more
    requires Turns(h, speakers, reply, first).fault.Some?
    ensures Turns(h, more, reply, first) == Turns(h, speakers, reply, first)
    decreases |more|
  {
    if |speakers| < |more| {
      assert speakers <= more[..|more| - 1];
      TurnsStopAtFault(h, speakers, more[..|more| - 1], reply, first);
    } else {
      assert speakers == more;
    }
  }

  /** The k-th new record is the reply of the k-th speaker, made by the k-th
      call after `first`, to the history as it stood before it. */
  lemma {:induction false} TurnsSpeaker(h: seq<Entry>, speakers: seq<Agent>, reply: Replier,
                                         first: nat, k: nat)
    requires EndsWithSpeaker(h)
    requires k < |Turns(h, speakers, reply, first).history| - |h|
    ensures var t := Turns(h, speakers, reply, first);
      var before := t.history[..|h| + k];
      && k < |speakers|
      && EndsWithSpeaker(before)
      && reply(speakers[k], before, LastSpeaker(before), first + k).Success?
      && t.history[|h| + k]
         == ReplyEntry(speakers[k].name, reply(speakers[k], before, LastSpeaker(before), first + k).value)
    decreases |speakers|
  {
    var t := Turns(h, speakers, reply, first);
    var init := speakers[..|speakers| - 1];
    var p := Turns(h, init, reply, first);
    if k < |p.history| - |h| {
      TurnsSpeaker(h, init, reply, first, k);
      assert p.history <= t.history;
      assert t.history[..|h| + k] == p.history[..|h| + k];
    } else {
      assert p.history == t.history[..|h| + k];
    }
  }

  /** The k-th new record is by the k-th speaker. */
  lemma TurnsSpeakerName(h: seq<Entry>, speakers: seq<Agent>, reply: Replier, first: nat, k: nat)
    requires EndsWithSpeaker(h)
    requires k < |Turns(h, speakers, reply, first).history| - |h|
    ensures k < |speakers|
    ensures Turns(h, speakers, reply, first).history[|h| + k].name == Some(speakers[k].name)
  {
    TurnsSpeaker(h, speakers, reply, first, k);
  }

  /** Each speaker is asked to reply to the speaker of the record right
      before its own: the last speaker of `h` on the first turn, the previous
      speaker of the schedule afterwards. */
  lemma ReplyTarget(h: seq<Entry>, speakers: seq<Agent>, reply: Replier, first: nat, k: nat)
    requires EndsWithSpeaker(h)
    requires k < |Turns(h, speakers, reply, first).history| - |h|
    ensures k < |speakers|
    ensures var t := Turns(h, speakers, reply, first);
      t.history[|h| + k - 1].name == Some(if k == 0 then LastSpeaker(h) else speakers[k - 1].name)
  {
    var t := Turns(h, speakers, reply, first);
    if k > 0 {
      TurnsSpeakerName(h, speakers, reply, first, k - 1);
    } else {
      assert t.history[|h| - 1] == h[|h| - 1];
    }
  }

  /** State after `discuss`: the history, the summary, and the fault that
      interrupted it, if any. */
  datatype Discussion = Discussion(history: seq<Entry>, summary: string, fault: Option<Fault>)

  /** Every pass of every round, after the summary step. */
  function AllRounds(h: seq<Entry>, summary: string, agents: seq<Agent>, rounds: int, service: Service, first: nat)
    : (d: Discussion)
    requires EndsWithSpeaker(h)
  {
    var t := Turns(h, Schedule(agents, Passes(rounds)), Replies(summary, service), first);
    Discussion(t.history, summary, t.fault)
  }

  /** `discuss(topic)` on a history and summary. */
  function Discussed(history: seq<Entry>, summary: string, agents: seq<Agent>, rounds: int,
                     topic: string, service: Service): (d: Discussion)
  {
    var h := history + [UserEntry(topic)];
    if NeedsSummaryUpdate(h) then
      match SummaryPrompt(Window(h, SummaryChunk), summary)
      case Failure(f) => Discussion(h, summary, Some(f))
      case Success(prompt) =>
        match service(0, RawRequest(prompt))
        case None => Discussion(h, summary, Some(CallFailed))
        case Some(refreshed) => AllRounds(h, refreshed, agents, rounds, service, 1)
    else AllRounds(h, summary, agents, rounds, service, 0)
  }

  /** The summary step of `discuss` on the history with the user's record
      appended: building the summary prompt or the summarizer's call fails. */
  predicate SummaryStepFails(h: seq<Entry>, summary: string, service: Service)
  {
    && NeedsSummaryUpdate(h)
    && match SummaryPrompt(Window(h, SummaryChunk), summary)
       case Failure(_) => true
       case Success(prompt) => service(0, RawRequest(prompt)).None?
  }

  /** Number of service calls made before the first agent turn. */
  function FirstTurnCall(history: seq<Entry>, topic: string): (calls: nat)
  {
    if NeedsSummaryUpdate(history + [UserEntry(topic)]) then 1 else 0
  }

  /** `discuss` appends the user's record and then one record per turn:
      the old history followed by the user's record is a prefix of the new
      one, and a discussion that completes adds exactly 1 + rounds * |agents|. */
  lemma DiscussGrowth(history: seq<Entry>, summary: string, agents: seq<Agent>, rounds: int,
                      topic: string, service: Service)
    ensures var d := Discussed(history, summary, agents, rounds, topic, service);
      && history + [UserEntry(topic)] <= d.history
      && |d.history| <= |history| + 1 + Passes(rounds) * |agents|
      && (d.fault.None? ==> |d.history| == |history| + 1 + Passes(rounds) * |agents|)
  {
    ScheduleLength(agents, Passes(rounds));
  }

  /** The summary changes only when the trigger holds once the user's record
      is appended; it is then replaced by the service's answer to the summary
      prompt over the last min(12, |history|) records and the old summary.
      When building that prompt or the call fails, the discussion stops
      right after the user's record, with the summary as it was. */
  lemma DiscussSummary(history: seq<Entry>, summary: string, agents: seq<Agent>, rounds: int,
                       topic: string, service: Service)
    ensures var d := Discussed(history, summary, agents, rounds, topic, service);
      var h := history + [UserEntry(topic)];
      var chunk := Window(h, SummaryChunk);
      && chunk == h[|h| - Min(SummaryChunk, |h|)..]
      && (!NeedsSummaryUpdate(h) ==> d.summary == summary)
      && (NeedsSummaryUpdate(h) && SummaryPrompt(chunk, summary).Success? ==>
            var answer := service(0, RawRequest(SummaryPrompt(chunk, summary).value));
            && (answer.Some? ==> d.summary == answer.value)
            && (answer.None? ==> d == Discussion(h, summary, Some(CallFailed))))
      && (NeedsSummaryUpdate(h) && SummaryPrompt(chunk, summary).Failure? ==>
            d == Discussion(h, summary, Some(SummaryPrompt(chunk, summary).error)))
  {
  }

  /** Unless the summary step failed, a discussion is the rounds
      run on the history with the user's record appended, with the
      discussion's final summary and after FirstTurnCall service calls; the
      first agent therefore addresses the user. */
  lemma DiscussRounds(history: seq<Entry>, summary: string, agents: seq<Agent>, rounds: int,
                      topic: string, service: Service)
    ensures var d := Discussed(history, summary, agents, rounds, topic, service);
      var h := history + [UserEntry(topic)];
      && EndsWithSpeaker(h) && LastSpeaker(h) == UserName
      && (!SummaryStepFails(h, summary, service) ==>
            d == AllRounds(h, d.summary, agents, rounds, service, FirstTurnCall(history, topic)))
  {
  }

  /** The k-th turn of the rounds: the k-th speaker of the schedule replies
      to the speaker of the record before it (the last speaker of `h` on the
      first turn, the previous speaker of the schedule afterwards), with the
      summary in its prompt, and its answer to the (first + k)-th service
      call is stored as "name: answer". */
  lemma RoundsTurn(h: seq<Entry>, summary: string, agents: seq<Agent>, rounds: int,
                   service: Service, first: nat, k: nat)
    requires EndsWithSpeaker(h)
    requires k < |AllRounds(h, summary, agents, rounds, service, first).history| - |h|
    ensures var d := AllRounds(h, summary, agents, rounds, service, first);
      var speakers := Schedule(agents, Passes(rounds));
      var at := |h| + k;
      && k < |speakers|
      && var replyTo := if k == 0 then LastSpeaker(h) else speakers[k - 1].name;
      var answer := AgentReply(speakers[k], d.history[..at], summary, replyTo, service, first + k);
      && d.history[at - 1].name == Some(replyTo)
      && answer.Success?
      && d.history[at] == ReplyEntry(speakers[k].name, answer.value)
  {
    var speakers := Schedule(agents, Passes(rounds));
    var reply := Replies(summary, service);
    var t := Turns(h, speakers, reply, first);
    TurnsSpeaker(h, speakers, reply, first, k);
    ReplyTarget(h, speakers, reply, first, k);
    var before := t.history[..|h| + k];
    RepliesApply(summary, service, speakers[k], before, LastSpeaker(before), first + k);
  }

  class ChatCouncil {
    const agents: seq<Agent>
    const summarizer: Agent
    const rounds: int
    var history: seq<Entry>
    var summary: string

    /** Takes the history the memory loaded (empty if there was none); the
        summary starts empty. */
    constructor (agents: seq<Agent>, summarizer: Agent, rounds: int, loaded: seq<Entry>)
      ensures this.agents == agents && this.summarizer == summarizer && this.rounds == rounds
      ensures history == loaded && summary == ""
    {
      this.agents := agents;
      this.summarizer := summarizer;
      this.rounds := rounds;
      history := loaded;
      summary := "";
    }

    /** `_add`: appends one record and leaves the earlier ones as they were. */
    method Add(role: string, speaker: string, content: string)
      modifies this`history
      ensures history == old(history) + [MakeEntry(role, speaker, content)]
    {
      history := history + [MakeEntry(role, speaker, content)];
    }

    /** One turn of `discuss`: the agent is asked to reply to the speaker of
        the last record, and its answer is appended under its name; a KeyError
        or a failed call leaves the history as it was. */
    method Speak(agent: Agent, service: Service, call: nat) returns (fault: Option<Fault>)
      requires EndsWithSpeaker(history)
      modifies this`history
      ensures match AgentReply(agent, old(history), summary, LastSpeaker(old(history)), service, call)
        case Failure(f) => history == old(history) && fault == Some(f)
        case Success(answer) =>
          history == old(history) + [ReplyEntry(agent.name, answer)] && fault == None
    {
      var lastSpeaker := history[|history| - 1].name.value;
      var messages := BuildReplyMessages(agent, history, summary, lastSpeaker);
      if messages.Failure? {
        assert AgentReply(agent, history, summary, lastSpeaker, service, call) == Failure(messages.error);
        return Some(messages.error);
      }
      var answer := service(call, Request(messages.value, ReplyTokens));
      if answer.None? {
        assert AgentReply(agent, history, summary, lastSpeaker, service, call) == Failure(CallFailed);
        return Some(CallFailed);
      }
      assert AgentReply(agent, history, summary, lastSpeaker, service, call) == Success(answer.value);
      ReplyEntryAdded(agent.name, answer.value);
      Add(AssistantRole, agent.name, answer.value);
      fault := None;
    }

    /** Turn j of round i, as one step of the schedule: the turns so far
        continue by agent j's turn, or stop at its fault, which then
        ends all turns. */
    method TakeTurn(service: Service, ghost start: seq<Entry>, ghost first: nat,
                    ghost passes: nat, ghost i: nat, j: nat, calls: nat)
      returns (fault: Option<Fault>)
      requires EndsWithSpeaker(start) && i < passes && j < |agents|
      requires Turns(start, Schedule(agents, i) + agents[..j], Replies(summary, service), first)
        == Transcript(history, calls, None)
      modifies this`history
      ensures fault.None? ==>
        Turns(start, Schedule(agents, i) + agents[..j + 1], Replies(summary, service), first)
          == Transcript(history, calls + 1, None)
      ensures fault.Some? ==>
        var t := Turns(start, Schedule(agents, passes), Replies(summary, service), first);
        history == t.history && fault == t.fault
    {
      NextTurn(start, agents, i, j, passes, Replies(summary, service), first);
      RepliesApply(summary, service, agents[j], history, LastSpeaker(history), calls);
      fault := Speak(agents[j], service, calls);
    }

    /** One round of `discuss`, the inner loop over the agents in configured
        order, as round `i` of `passes`: it continues the turns made so far
        by one full round, or stops at a fault, which then ends all turns. */
    method TakeRound(service: Service, ghost start: seq<Entry>, ghost first: nat,
                     ghost passes: nat, ghost i: nat, calls: nat)
      returns (fault: Option<Fault>, next: nat)
      requires EndsWithSpeaker(start) && i < passes
      requires Turns(start, Schedule(agents, i), Replies(summary, service), first) == Transcript(history, calls, None)
      modifies this`history
      ensures fault.None? ==>
        Turns(start, Schedule(agents, i + 1), Replies(summary, service), first) == Transcript(history, next, None)
      ensures fault.Some? ==>
        var t := Turns(start, Schedule(agents, passes), Replies(summary, service), first);
        history == t.history && fault == t.fault
    {
      next := calls;
      var j := 0;
      assert Schedule(agents, i) + agents[..0] == Schedule(agents, i);
      while j < |agents|
        invariant 0 <= j <= |agents|
        invariant Turns(start, Schedule(agents, i) + agents[..j], Replies(summary, service), first)
          == Transcript(history, next, None)
      {
        fault := TakeTurn(service, start, first, passes, i, j, next);
        if fault.Some? {
          return;
        }
        next := next + 1;
        j := j + 1;
      }
      ScheduleNextRound(agents, i);
      fault := None;
    }

    /** The rounds of `discuss`: `rounds` times over the agents in configured
        order; a fault stops the rounds and is returned. */
    method TakeTurns(service: Service, first: nat) returns (fault: Option<Fault>)
      requires EndsWithSpeaker(history)
      modifies this`history
      ensures var t := Turns(old(history), Schedule(agents, Passes(rounds)), Replies(summary, service), first);
        history == t.history && fault == t.fault
    {
      ghost var start := history;
      var calls := first;
      var i := 0;
      while i < rounds
        invariant 0 <= i <= Passes(rounds)
        invariant Turns(start, Schedule(agents, i), Replies(summary, service), first) == Transcript(history, calls, None)
      {
        fault, calls := TakeRound(service, start, first, Passes(rounds), i, calls);
        if fault.Some? {
          return;
        }
        i := i + 1;
      }
      assert i == Passes(rounds);
      fault := None;
    }

    /** `discuss`: appends the user's record, refreshes the summary when the
        trigger holds, then runs the rounds. On success returns the full
        history, which is what is handed to the memory to be saved; a KeyError
        or a failed service call is returned instead, with the records
        appended before it kept and nothing saved. */
    method Discuss(topic: string, service: Service) returns (outcome: Result<seq<Entry>, Fault>)
      modifies this`history, this`summary
      ensures var d := Discussed(old(history), old(summary), agents, rounds, topic, service);
        && history == d.history && summary == d.summary
        && outcome == (if d.fault.None? then Success(history) else Failure(d.fault.value))
    {
      Add(UserRole, UserName, topic);
      var first := 0;
      if NeedsSummaryUpdate(history) {
        var prompt := SummaryPrompt(Window(history, SummaryChunk), summary);
        if prompt.Failure? {
          outcome := Failure(prompt.error);
          return;
        }
        var refreshed := service(0, RawRequest(prompt.value));
        if refreshed.None? {
          outcome := Failure(CallFailed);
          return;
        }
        summary := refreshed.value;
        first := 1;
      }
      var fault := TakeTurns(service, first);
      outcome := if fault.None? then Success(history) else Failure(fault.value);
    }
  }
}
