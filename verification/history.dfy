/** The conversation history of the council: its records, the size
    estimate `token_len` and the summary-refresh trigger. */
module History {
  import opened Wrappers

  /** One history record, a dictionary with the keys "role", "content" and
      "name". Records appended by the council always carry all three keys;
      records read back from a history file may lack any of them. */
  datatype Entry = Entry(role: Option<string>, content: Option<string>, name: Option<string>)

  /** What stops a discussion: the KeyError raised when a record is
      subscripted with a key it lacks, or an exception raised by the remote
      completion call (an API error, a response without choices, a reply
      without content). */
  datatype Fault = KeyError(key: string) | CallFailed

  const AssistantRole := "assistant"
  const UserRole := "user"
  const SystemRole := "system"

  /** Separator between a speaker's name and the text, as in "name: text". */
  const NameSeparator := ": "

  /** A text attributed to a speaker: "name: text". */
  function Labelled(speaker: string, text: string): (r: string)
  {
    speaker + NameSeparator + text
  }

  /** Every `discuss` call with a history length divisible by this refreshes the summary. */
  const RefreshPeriod := 10
  /** A history estimated above this many tokens refreshes the summary. */
  const TokenBudget := 2500

  predicate Complete(e: Entry)
  {
    e.role.Some? && e.content.Some? && e.name.Some?
  }

  /** The record `_add(role, speaker, content)` appends: an assistant's
      text is stored with the speaker's name in front of it. */
  function MakeEntry(role: string, speaker: string, content: string): (e: Entry)
  {
    var stored := if role == AssistantRole then Labelled(speaker, content) else content;
    Entry(Some(role), Some(stored), Some(speaker))
  }

  /** The record `_add` appends for an agent's answer: the assistant case
      of MakeEntry written out (ReplyEntryAdded), so that proofs about turns
      need not decide the role comparison again. */
  function ReplyEntry(speaker: string, answer: string): (e: Entry)
  {
    Entry(Some(AssistantRole), Some(Labelled(speaker, answer)), Some(speaker))
  }

  /** An agent's answer is stored with the assistant role, under the
      speaker's name, as "name: answer". */
  lemma ReplyEntryAdded(speaker: string, answer: string)
    ensures MakeEntry(AssistantRole, speaker, answer) == ReplyEntry(speaker, answer)
  {
  }

  /** The text a complete record was made from: for an assistant record, its
      content without the leading "name: ". */
  function Utterance(e: Entry): (text: string)
    requires Complete(e)
  {
    var prefix := e.name.value + NameSeparator;
    var c := e.content.value;
    if e.role.value == AssistantRole && |prefix| <= |c| && c[..|prefix|] == prefix
    then c[|prefix|..]
    else c
  }

  /** `_add` keeps the role and speaker and loses none of the text: the
      record is complete and the original text can be read back from it. */
  lemma MakeEntryKeepsText(role: string, speaker: string, content: string)
    ensures var e := MakeEntry(role, speaker, content);
      && Complete(e) && e.role == Some(role) && e.name == Some(speaker)
      && Utterance(e) == content
  {
  }

  /** Length of a record's content; a record without content counts as empty. */
  function ContentLength(e: Entry): (n: nat)
  {
    if e.content.Some? then |e.content.value| else 0
  }

  /** Sum of the content lengths of all records. */
  function TotalContent(h: seq<Entry>): (n: nat)
  {
    if h == [] then 0 else ContentLength(h[0]) + TotalContent(h[1..])
  }

  /** `token_len`: the total content length divided by 4, rounded down. */
  function TokenLen(h: seq<Entry>): (r: nat)
    ensures 4 * r <= TotalContent(h) < 4 * r + 4
  {
    TotalContent(h) / 4
  }

  lemma {:induction false} TotalContentConcat(a: seq<Entry>, b: seq<Entry>)
    ensures TotalContent(a + b) == TotalContent(a) + TotalContent(b)
  {
    if a == [] {
      assert a + b == b;
    } else {
      assert (a + b)[1..] == a[1..] + b;
      TotalContentConcat(a[1..], b);
    }
  }

  /** Appending a record adds its content length to the total; a record
      without content leaves the estimate unchanged; the estimate never drops. */
  lemma TokenLenAppend(h: seq<Entry>, e: Entry)
    ensures TotalContent(h + [e]) == TotalContent(h) + ContentLength(e)
    ensures TokenLen(h) <= TokenLen(h + [e])
    ensures e.content.None? ==> TokenLen(h + [e]) == TokenLen(h)
  {
    TotalContentConcat(h, [e]);
    assert [e][1..] == [];
  }

  /** Extending a history never decreases its estimate. */
  lemma TokenLenExtend(h: seq<Entry>, more: seq<Entry>)
    ensures TokenLen(h) <= TokenLen(h + more)
  {
    TotalContentConcat(h, more);
  }

  /** Lengthening the content of one record never decreases the estimate. */
  lemma TokenLenLengthen(h: seq<Entry>, i: nat, longer: string)
    requires i < |h|
    requires ContentLength(h[i]) <= |longer|
    ensures TokenLen(h) <= TokenLen(h[i := h[i].(content := Some(longer))])
  {
    var h' := h[i := h[i].(content := Some(longer))];
    assert h == h[..i] + [h[i]] + h[i+1..];
    assert h' == h[..i] + [h'[i]] + h[i+1..];
    TotalContentConcat(h[..i] + [h[i]], h[i+1..]);
    TotalContentConcat(h[..i] + [h'[i]], h[i+1..]);
    TotalContentConcat(h[..i], [h[i]]);
    TotalContentConcat(h[..i], [h'[i]]);
    assert [h[i]][1..] == [] && [h'[i]][1..] == [];
  }

  /** `_need_update_summary` on a history: its length is a multiple of 10,
      or its records hold more than 4 * 2500 + 3 characters of content. */
  predicate NeedsSummaryUpdate(h: seq<Entry>): (r: bool)
    ensures r <==> |h| % RefreshPeriod == 0 || TotalContent(h) >= 4 * TokenBudget + 4
  {
    |h| % RefreshPeriod == 0 || TokenLen(h) > TokenBudget
  }

  /** Once the estimate is over budget, every longer history triggers a refresh. */
  lemma OverBudgetTriggersForever(h: seq<Entry>, more: seq<Entry>)
    requires TokenLen(h) > TokenBudget
    ensures NeedsSummaryUpdate(h + more)
  {
    TokenLenExtend(h, more);
  }

  /** Below the budget the trigger depends on the length alone. */
  lemma SmallHistoryTrigger(h: seq<Entry>, e: Entry)
    requires TokenLen(h + [e]) <= TokenBudget
    ensures NeedsSummaryUpdate(h + [e]) <==> (|h| + 1) % RefreshPeriod == 0
    ensures NeedsSummaryUpdate(h + [e]) ==> !NeedsSummaryUpdate(h)
  {
    TokenLenAppend(h, e);
  }
}
