# Warhammer council, modelled in Dafny

`warhammer_council.py` runs a council of chat agents on one topic. Each
agent has a name and a persona. A `ChatCouncil` keeps a history of records.
Each record is a dictionary with the keys `role`, `content` and `name`. The
council also keeps a running summary, starting empty. `discuss(topic)` works
in four steps:

1. It appends the user's record.
2. It refreshes the summary when the history length is divisible by 10 or
   the history's size estimate `token_len` is over 2500. The summarizer gets
   the last 12 records and the old summary.
3. It runs `rounds` rounds. In each round every agent speaks once, in
   configured order. Each agent is told to address the speaker of the last
   record. It sees its persona, the summary and the last 4 records, each
   re-rendered as "name: content". Its answer is appended as an assistant
   record whose content is "name: answer".
4. It saves the history.

The model is split into four modules:

- `Wrappers` (`wrappers.dfy`): `Option` and `Result`.
- `History` (`history.dfy`): records, `token_len`, `_add`'s record and the
  summary trigger.
- `Prompts` (`prompts.dfy`): the message list of `Agent.generate`, the prompt
  of `SummarizerAgent.summarize`, and the single-message request of
  `generate_raw`.
- `Council` (`council.dfy`): the speaking schedule and the turn-by-turn
  specification of `discuss` (`Turns`, `AllRounds`, `Discussed`). It also
  holds the `ChatCouncil` class.

`ChatCouncil` has the source's fields:

- `agents`, `summarizer` and `rounds` are constants.
- `history` and `summary` are fields that the methods update.

Its methods are proved equal to the specification functions. The lemmas
prove what those functions promise.

How the model represents the parts it does not run:

- **The completion service.** It is a parameter `service(k, request)`: what
  the k-th remote call of one discussion gets back. That is `Some(text)`
  with the answer's text, or `None` when the call raised an exception. The
  model turns `None` into the fault `CallFailed`, so a `KeyError` always
  means a record lacked that key. A request is the message list plus its
  `max_tokens` cap.
- **Missing keys.** A record loaded from the history file may lack any key,
  so each field of `Entry` is an `Option`. Subscripting a missing key raises
  `KeyError`. This is modelled as a `Failure(KeyError(key))` outcome. The key
  reported is the first missing one in the order the source reads them:
  - `generate` reads role, then name, then content;
  - `summarize` reads name, then content.
- **A fault stops `discuss`.** A fault is a KeyError or a failed call. The
  records added before it stay in the history, and nothing is saved. A failed
  summarizer call leaves the summary as it was.
- **Saving.** On success `Discuss` returns the history, which is what would
  be saved.

## Model

| member | source | states |
|---|---|---|
| History.TokenLen | warhammer_council.py:17-22 | The estimate r satisfies 4r <= total content length < 4r + 4: it is the total content length divided by 4, rounded down. A record without content counts as length 0. |
| History.TokenLenAppend | warhammer_council.py:17-22 | Appending a record adds exactly its content length to the total. The estimate never drops. A record without content leaves it unchanged. |
| History.TokenLenExtend | warhammer_council.py:17-22 | Extending a history by any records never lowers its estimate. |
| History.TokenLenLengthen | warhammer_council.py:17-22 | Replacing one record's content with a longer one never lowers the estimate. |
| History.MakeEntryKeepsText | warhammer_council.py:127-133 | The record `_add` builds has all three keys, with the given role and speaker. The original text can be recovered from it, even when the assistant prefix was added. |
| History.ReplyEntryAdded | warhammer_council.py:129-133 | An agent's answer is stored with the assistant role, under its name, with content "name: answer". |
| History.NeedsSummaryUpdate | warhammer_council.py:136-137 | The trigger holds exactly when the history length is a multiple of 10 or the records hold at least 4 × 2500 + 4 characters of content, that is, when `token_len` exceeds 2500. |
| History.OverBudgetTriggersForever | warhammer_council.py:136-137 | Once a history is estimated above 2500 tokens, every extension of it triggers a summary refresh. |
| History.SmallHistoryTrigger | warhammer_council.py:136-137 | While the estimate stays within budget, appending a record triggers a refresh exactly when the new length is divisible by 10. The history before the append then did not trigger one. |
| Prompts.Window | warhammer_council.py:57 | `s[-k:]` has min(k, len(s)) elements. |
| Prompts.WindowAt | warhammer_council.py:57 | Element i of `s[-k:]` is element len(s) - min(k, len(s)) + i of s: the window holds the last elements, in order. |
| Prompts.RenderAll | warhammer_council.py:57-61 | Rendering the context succeeds exactly when every record has all three keys. It then gives one message per record, in order, each keeping the record's role with content "name: content". |
| Prompts.RenderAllFirstFault | warhammer_council.py:57-61 | When rendering fails, the KeyError is that of the first incomplete record. |
| Prompts.WindowRenders | warhammer_council.py:57-61 | Rendering the window fails exactly when one of the last min(4, len(history)) records lacks a key. |
| Prompts.ReplyMessages | warhammer_council.py:44-64 | Building `generate`'s message list can fail only with a KeyError, never with any other fault. Its shape is stated by ReplyMessagesFrame and ReplyMessagesAt. |
| Prompts.ReplyMessagesFails | warhammer_council.py:44-64 | `generate` raises KeyError exactly when one of the last min(4, len(history)) records lacks a key. Older records are never looked at. |
| Prompts.ReplyMessagesFrame | warhammer_council.py:45-64 | The message list has 2 + min(4, len(history)) + 1 messages: the persona system message naming whom to address, the summary system message, the rendered window and the user cue "name:". |
| Prompts.ReplyMessagesAt | warhammer_council.py:57-61 | Each record j of the window appears at its position in the message list, with its own role and the content "name: content". |
| Prompts.BuildReplyMessages | warhammer_council.py:44-64 | The loop over `history[-4:]` builds exactly the message list (or KeyError) specified by `ReplyMessages`, which the lemmas above characterise. |
| Prompts.AssistantNameRenderedTwice | warhammer_council.py:60 | An answer appended by `_add` (line 129) reaches later agents as "name: name: answer": the speaker's name is repeated. |
| Prompts.ChunkLines | warhammer_council.py:83 | The summary lines exist exactly when every record of the chunk has a name and content. There is then one line "name: content" per record, in chunk order. |
| Prompts.SplitJoin | warhammer_council.py:83 | Lines without line breaks, joined with "\n", split back into the same lines. Joining loses neither lines nor their order. |
| Prompts.SummaryPrompt | warhammer_council.py:78-85 | Building the summary prompt fails only with a KeyError. Otherwise the prompt is at least as long as its fixed parts and the previous summary together. |
| Prompts.SummaryPromptLayout | warhammer_council.py:78-86 | The summary prompt fails exactly when a chunk record lacks a name or content. Otherwise it is, in order: the introduction and the previous-summary heading, the previous summary, the replies heading, the chunk's "name: content" lines joined by "\n" (whatever they contain), and the task sentence. When no name or content holds a line break, the chunk part splits back into exactly the chunk's lines. |
| Council.AgentReplyFaults | warhammer_council.py:44-66 | A turn fails with a KeyError exactly when building the agent's message list fails, and then with that list's KeyError. It fails with CallFailed exactly when the list is built and the service call raises. On success the answer is the service's answer to that list. |
| Council.ScheduleLength | warhammer_council.py:149-150 | `rounds` rounds over the agents make rounds × len(agents) turns. |
| Council.SchedulePrefix | warhammer_council.py:149-150 | The turns of fewer rounds are a prefix of the turns of more rounds. |
| Council.ScheduleAt | warhammer_council.py:149-150 | Turn j of round r comes after all turns of the earlier rounds and belongs to agent j, in configured order. |
| Council.SchedulePrevious | warhammer_council.py:149-150 | The turn before agent j's in a round is agent j - 1's. Before the first agent of a later round comes the last agent of the previous round. |
| Council.Turns | warhammer_council.py:149-154 | The turns only append: the old history is a prefix of the new one. Each completed turn appends one record and makes one service call. Without a fault, exactly one record per speaker is appended. The last record always has a speaker name. |
| Council.TurnsStopAtFault | warhammer_council.py:150-154 | After a fault, later speakers change nothing. |
| Council.NextTurn | warhammer_council.py:150-154 | Turn j of round i extends the transcript by agent j's reply. If it fails (KeyError or failed call), that is the final state of the whole discussion. |
| Council.TurnsSpeaker | warhammer_council.py:150-154 | The k-th new record is the k-th speaker's answer, stored as "name: answer". The answer comes from the (first + k)-th service call, given the history as it stood just before that turn. |
| Council.TurnsSpeakerName | warhammer_council.py:150-154 | The k-th new record is spoken by the k-th scheduled speaker. |
| Council.ReplyTarget | warhammer_council.py:151-152 | Each speaker is asked to address the speaker of the record right before its turn: the last speaker of the history for the first turn, and the previous scheduled speaker afterwards. |
| Council.DiscussGrowth | warhammer_council.py:140-154 | `discuss` keeps the old history followed by the user's record as a prefix. It adds at most 1 + rounds × len(agents) records, and exactly that many when no fault occurs. |
| Council.DiscussSummary | warhammer_council.py:141-146 | The summary changes only when the trigger holds after the user's record is appended. It is then replaced by the service's answer to the summary prompt over the last min(12, len(history)) records and the old summary. If building that prompt raises KeyError or the summarizer's call fails, the discussion stops right there, with the summary as it was. |
| Council.DiscussRounds | warhammer_council.py:140-154 | The user's record ends the history before the rounds, so the first agent addresses the user. Unless the summary step failed, the discussion is the rounds run with the refreshed summary after the summarizer's call. |
| Council.RoundsTurn | warhammer_council.py:149-154 | In a discussion's rounds, the k-th turn is the k-th scheduled agent's. It addresses the speaker of the record before it and uses the discussion's summary. Its answer to service call first + k is stored as "name: answer". |
| Council.ChatCouncil.constructor | warhammer_council.py:111-124 | The council keeps its agents, summarizer and rounds. Its history is the loaded one and its summary is empty. |
| Council.ChatCouncil.Add | warhammer_council.py:127-133 | `_add` appends exactly one record and leaves the earlier ones as they were. |
| Council.ChatCouncil.Speak | warhammer_council.py:151-154 | An agent addresses the speaker of the last record. Its answer is appended under its name as "name: answer". On a KeyError or a failed call the history is unchanged. |
| Council.ChatCouncil.TakeTurn | warhammer_council.py:150-154 | One iteration of the inner loop advances the history by exactly one scheduled turn. On a fault the history is the discussion's final state. |
| Council.ChatCouncil.TakeRound | warhammer_council.py:150-154 | The inner loop advances the history by exactly one round of turns. On a fault the history is the discussion's final state. |
| Council.ChatCouncil.TakeTurns | warhammer_council.py:149-154 | The nested loops leave exactly the history and fault of the turn-by-turn specification over rounds × agents. |
| Council.ChatCouncil.Discuss | warhammer_council.py:140-156 | `discuss` leaves the history and summary given by `Discussed`, whose properties are the Discuss* and Rounds* lemmas. It returns the history to be saved, or the fault that stopped it. |

## Left out

- The remote completion call (`_chat_completion`, lines 34-41) is an oracle parameter. The model name, temperature 0.8, the response parsing and `.strip()` are its business. Its 220 and 120 token caps are kept in the request.
- The exceptions the remote call can raise (a `None` answer from the service) are all one fault, `CallFailed`. These are an API error, `IndexError` on `choices[0]`, and `AttributeError` on a missing content. Which exception it was is not modelled; that it stops `discuss` is.
- Council.ChatCouncil.constructor: takes `rounds` explicitly. The default of 2 rounds (line 116) is not modelled, since Dafny constructors have no default arguments.
- `load_dotenv` and the API key are process environment; they are not modelled.
- `ChatMemory` (lines 92-104) is file I/O. The loaded history is the constructor's argument, and what gets saved is `Discuss`'s `Success` outcome. JSON that is not a list of string-valued dictionaries is not modelled.
- `print` of each answer (line 153) and the `__main__` block are output and set-up only.
- The summarizer's own name and persona are unused by `summarize`. It is kept as a field of the council.
- Prompts.Window: requires a positive window size. `s[-0:]` would be the whole list, but the source only uses 4 and 12.
- Council.ChatCouncil.Speak: it requires that the last record has a name. In the source, `history[-1]["name"]` cannot fail during `discuss`: every last record there was appended by `_add`. The model proves this instead of modelling that KeyError.
- `Entry` contents are unbounded strings and counts are unbounded integers, as in Python; there is no overflow to model.
