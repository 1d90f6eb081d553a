/** The agent's event stream and the rule `planTrip` applies to it
    (zypher-server.ts): the last completed text wins, an error event aborts. */
module AgentEvents {
  import opened Wrappers
  import opened JsText

  /** One block of a message's content; only `kind == "text"` carries text the collector reads. */
  datatype ContentBlock = ContentBlock(kind: string, text: string)

  /** The events of one task run, a tagged union. `OtherEvent` stands for every
      tag other than `message` and `error`. */
  datatype AgentEvent =
    | MessageEvent(stopReason: Option<string>, content: seq<ContentBlock>)
    | ErrorEvent(message: Option<string>)
    | OtherEvent(kind: string)

  /** The outcome of draining the stream: the accumulator at the end, or the
      message of the error event that stopped it. */
  datatype Collected = Completed(text: string) | Aborted(message: string)

  const EndTurn := "end_turn"
  const DefaultAgentError := "Agent encountered an error"

  /** A `message` event that ends the turn and whose first block is text. Only
      block 0 is looked at. */
  predicate IsCompletion(e: AgentEvent)
  {
    e.MessageEvent? && e.stopReason == Some(EndTurn)
    && |e.content| > 0 && e.content[0].kind == "text"
  }

  /** The accumulator after an event that is not an error. */
  function Step(acc: string, e: AgentEvent): (r: string)
    requires !e.ErrorEvent?
    ensures IsCompletion(e) ==> r == e.content[0].text
    ensures !IsCompletion(e) ==> r == acc
  {
    if IsCompletion(e) then e.content[0].text else acc
  }

  /** `event.message || "Agent encountered an error"` */
  function ErrorText(e: AgentEvent): (m: string)
    requires e.ErrorEvent?
    ensures m != ""
    ensures e.message.Some? && e.message.value != "" ==> m == e.message.value
    ensures e.message.None? || e.message.value == "" ==> m == DefaultAgentError
  {
    OrDefault(if e.message.Some? then e.message.value else "", DefaultAgentError)
  }

  /** The for-await loop of `planTrip`, as a fold from the front with accumulator `acc`. */
  function Drain(acc: string, events: seq<AgentEvent>): Collected
    decreases |events|
  {
    if events == [] then Completed(acc)
    else if events[0].ErrorEvent? then Aborted(ErrorText(events[0]))
    else Drain(Step(acc, events[0]), events[1..])
  }

  /** Reference reading, searching from the back: the text of the last completion, if any. */
  function LastCompletionText(events: seq<AgentEvent>): (r: Option<string>)
    ensures r.Some? ==> exists i :: 0 <= i < |events| && IsCompletion(events[i])
                                   && r.value == events[i].content[0].text
                                   && forall j :: i < j < |events| ==> !IsCompletion(events[j])
    ensures r.None? ==> forall i :: 0 <= i < |events| ==> !IsCompletion(events[i])
  {
    if events == [] then None
    else if IsCompletion(events[|events| - 1]) then Some(events[|events| - 1].content[0].text)
    else LastCompletionText(events[..|events| - 1])
  }

  predicate NoErrors(events: seq<AgentEvent>)
  {
    forall i :: 0 <= i < |events| ==> !events[i].ErrorEvent?
  }

  lemma {:induction false} LastCompletionTextCons(e: AgentEvent, rest: seq<AgentEvent>)
    ensures LastCompletionText([e] + rest)
         == if LastCompletionText(rest).Some? then LastCompletionText(rest)
            else if IsCompletion(e) then Some(e.content[0].text)
            else None
    decreases |rest|
  {
    var s := [e] + rest;
    if rest != [] {
      assert s[|s| - 1] == rest[|rest| - 1];
      if !IsCompletion(rest[|rest| - 1]) {
        assert s[..|s| - 1] == [e] + rest[..|rest| - 1];
        LastCompletionTextCons(e, rest[..|rest| - 1]);
      }
    } else {
      assert s[..|s| - 1] == [];
    }
  }

  /** Without error events, the stream yields the text of its last completion,
      or the initial accumulator when there is none. */
  lemma {:induction false} DrainLastCompletionWins(acc: string, events: seq<AgentEvent>)
    requires NoErrors(events)
    ensures Drain(acc, events)
         == Completed(if LastCompletionText(events).Some? then LastCompletionText(events).value else acc)
    decreases |events|
  {
    if events != [] {
      assert NoErrors(events[1..]) by {
        forall i | 0 <= i < |events[1..]| ensures !events[1..][i].ErrorEvent? {
          assert events[1..][i] == events[i + 1];
        }
      }
      DrainLastCompletionWins(Step(acc, events[0]), events[1..]);
      LastCompletionTextCons(events[0], events[1..]);
      assert [events[0]] + events[1..] == events;
    }
  }

  /** The first error event ends the drain with its message, whatever came before
      it and whatever follows. */
  lemma {:induction false} DrainStopsAtFirstError(acc: string, events: seq<AgentEvent>, k: nat)
    requires k < |events| && events[k].ErrorEvent?
    requires NoErrors(events[..k])
    ensures Drain(acc, events) == Aborted(ErrorText(events[k]))
    decreases k
  {
    if k > 0 {
      assert !events[..k][0].ErrorEvent?;
      assert events[1..][..k - 1] == events[..k][1..];
      assert events[1..][k - 1] == events[k];
      DrainStopsAtFirstError(Step(acc, events[0]), events[1..], k - 1);
    }
  }

  /** Short-circuit: nothing after the first error event is examined. */
  lemma DrainIgnoresTailAfterError(acc: string, events: seq<AgentEvent>, k: nat, tail: seq<AgentEvent>)
    requires k < |events| && events[k].ErrorEvent?
    requires NoErrors(events[..k])
    ensures Drain(acc, events[..k + 1] + tail) == Drain(acc, events)
  {
    var other := events[..k + 1] + tail;
    assert other[..k] == events[..k];
    assert other[k] == events[k];
    DrainStopsAtFirstError(acc, other, k);
    DrainStopsAtFirstError(acc, events, k);
  }
}
