/** Settlement of one session's prompts over the automation protocol (backend/pkg/acp/server.go): one
    in-flight slot, an event relay that binds a prompt to the turn of its own message, and a cancel that
    may come at any moment.

    The relay's reading of the slot and its action are two steps, so a prompt may be cancelled, collected
    and followed by another one in between. */
module AcpPrompt {
  import opened Wrappers

  datatype StopReason = EndTurn | MaxTokens | Refusal | Cancelled

  datatype EndKind = Completed | MaxTokensReached | Interrupted | Refused | Aborted | Blocked | Failed | Other

  /** The events of the session log the relay acts on. */
  datatype Event = User(id: string) | TurnEnd(kind: EndKind) | Output

  datatype Prompt = Prompt(bound: bool, settled: Option<StopReason>, cancelled: bool, closes: nat)

  function StopOf(kind: EndKind): StopReason {
    match kind
    case Completed => EndTurn
    case MaxTokensReached => MaxTokens
    case Interrupted => Cancelled
    case Refused => Refusal
    case _ => EndTurn
  }

  /** The message of the prompt has entered a turn. */
  predicate Entered(events: seq<Event>, id: string) {
    User(id) in events
  }

  /** How the turn that took the prompt's message ended: by the first turn/end after the message. */
  function OwnEnd(events: seq<Event>, id: string): Option<StopReason> {
    if events == [] then None
    else
      var n := |events| - 1;
      var before := OwnEnd(events[..n], id);
      if before.Some? then before
      else if events[n].TurnEnd? && Entered(events[..n], id) then Some(StopOf(events[n].kind)) else None
  }

  /** The end that counts has the message before it and no other turn/end in between. */
  lemma {:induction false} OwnEndIsOwn(events: seq<Event>, id: string) returns (i: nat, j: nat)
    requires OwnEnd(events, id).Some?
    ensures i < j < |events| && events[i] == User(id) && events[j].TurnEnd? &&
            StopOf(events[j].kind) == OwnEnd(events, id).value
    ensures var end, stop := events[j].kind, OwnEnd(events, id).value;
            && (stop == MaxTokens <==> end == MaxTokensReached) && (stop == Cancelled <==> end == Interrupted)
            && (stop == Refusal <==> end == Refused)
    ensures forall k :: i < k < j ==> !events[k].TurnEnd?
    decreases |events|
  {
    var n := |events| - 1;
    if OwnEnd(events[..n], id).Some? {
      i, j := OwnEndIsOwn(events[..n], id);
    } else {
      i := FirstEntry(events[..n], id);
      j := n;
      forall k | i < k < j ensures !events[k].TurnEnd? {
        NoEndYet(events[..n], id, i, k);
      }
    }
  }

  lemma FirstEntry(events: seq<Event>, id: string) returns (i: nat)
    requires Entered(events, id)
    ensures i < |events| && events[i] == User(id)
  {
    i :| i < |events| && events[i] == User(id);
  }

  lemma {:induction false} NoEndYet(events: seq<Event>, id: string, i: nat, k: nat)
    requires i < k < |events| && events[i] == User(id) && OwnEnd(events, id) == None
    ensures !events[k].TurnEnd?
    decreases |events|
  {
    var n := |events| - 1;
    if k < n {
      NoEndYet(events[..n], id, i, k);
    } else {
      assert events[..n][i] == User(id);
    }
  }

  lemma OwnEndSnoc(events: seq<Event>, e: Event, id: string)
    ensures OwnEnd(events + [e], id) ==
            if OwnEnd(events, id).Some? then OwnEnd(events, id)
            else if e.TurnEnd? && Entered(events, id) then Some(StopOf(e.kind)) else None
    ensures Entered(events + [e], id) <==> Entered(events, id) || e == User(id)
  {
    assert (events + [e])[..|events|] == events;
  }

  lemma {:induction false} NotEntered(events: seq<Event>, id: string)
    requires !Entered(events, id)
    ensures OwnEnd(events, id) == None
    decreases |events|
  {
    if events != [] {
      NotEntered(events[..|events| - 1], id);
    }
  }

  /** One prompt in any reachable state: without a cancel it is settled exactly when its own turn ended,
      with that turn's reason; with one it is settled too, by whichever came first. */
  predicate PromptOk(p: Prompt, id: string, events: seq<Event>) {
    && p.closes == (if p.settled.Some? then 1 else 0)
    && (!p.cancelled ==> p.settled == OwnEnd(events, id) && (p.settled == None ==> (p.bound <==> Entered(events, id))))
    && (p.cancelled ==> p.settled == Some(Cancelled) || (p.settled.Some? && p.settled == OwnEnd(events, id)))
  }

  class PromptSession {
    var prompts: map<string, Prompt>
    var slot: Option<string>
    /** The event the relay is working on, and the slot as it read it. */
    var current: Option<Event>
    var held: Option<string>
    ghost var events: seq<Event>

    ghost predicate Valid()
      reads this
    {
      && (slot.Some? ==> slot.value in prompts) && (held.Some? ==> held.value in prompts)
      && (forall id <- prompts.Keys :: PromptOk(prompts[id], id, events))
      && (forall id <- prompts.Keys :: prompts[id].settled == None ==> slot == Some(id))
      && (forall id <- prompts.Keys :: current == Some(User(id)) && prompts[id].settled == None ==> held == Some(id))
      && (forall id <- prompts.Keys :: current.Some? && current.value.TurnEnd? && prompts[id].settled == None && prompts[id].bound ==>
            held == Some(id))
    }

    constructor ()
      ensures Valid() && prompts == map[] && slot == None && events == []
    {
      prompts, slot, current, held, events := map[], None, None, None, [];
    }

    /** Reserves the slot, or refuses while a prompt is in flight; the message is posted afterwards, under
        an id no event carries yet. */
    method Begin(id: string) returns (ok: bool)
      requires Valid() && id !in prompts && !Entered(events, id) && current != Some(User(id))
      modifies this`prompts, this`slot
      ensures Valid() && ok == (old(slot) == None)
      ensures ok ==> prompts == old(prompts)[id := Prompt(false, None, false, 0)] && slot == Some(id)
      ensures !ok ==> prompts == old(prompts) && slot == old(slot)
    {
      ok := slot == None;
      if ok {
        NotEntered(events, id);
        prompts := prompts[id := Prompt(false, None, false, 0)];
        slot := Some(id);
      }
    }

    /** The relay receives the next event and reads the slot. */
    method Take(e: Event)
      requires Valid() && current == None
      modifies this`current, this`held
      ensures Valid() && current == Some(e) && held == slot
    {
      current, held := Some(e), slot;
    }

    /** The relay acts: binds on the prompt's own message, settles a bound prompt on a turn/end. */
    method Act()
      requires Valid() && current.Some?
      modifies this`prompts, this`current, this`events
      ensures Valid() && current == None && events == old(events) + [old(current).value]
      ensures prompts.Keys == old(prompts).Keys
      ensures forall id <- prompts.Keys :: held != Some(id) ==> prompts[id] == old(prompts)[id]
      ensures held.Some? ==> prompts[held.value] == Acted(old(prompts)[held.value], held.value, old(current).value)
    {
      var e := current.value;
      ghost var before := events;
      ghost var prompts0 := prompts;
      hide OwnEnd, Entered, PromptOk;
      events := events + [e];
      current := None;
      if held.Some? {
        var p := prompts[held.value];
        match e {
          case User(id) =>
            if id == held.value && !p.bound {
              prompts := prompts[held.value := p.(bound := true)];
            }
          case TurnEnd(kind) =>
            if p.bound && p.settled == None {
              prompts := prompts[held.value := p.(settled := Some(StopOf(kind)), closes := p.closes + 1)];
            }
          case Output =>
        }
      }
      forall id <- prompts.Keys ensures PromptOk(prompts[id], id, events) {
        ActKeeps(prompts0[id], id, before, e, held == Some(id));
      }
    }

    /** The client cancels: the prompt read from the slot is settled as cancelled unless it is settled. */
    method Cancel(id: string)
      requires Valid() && id in prompts
      modifies this`prompts
      ensures Valid() && prompts.Keys == old(prompts).Keys && prompts[id].settled.Some?
      ensures old(prompts)[id].settled.Some? ==> prompts[id].settled == old(prompts)[id].settled
      ensures old(prompts)[id].settled == None ==> prompts[id].settled == Some(Cancelled)
      ensures forall x <- prompts.Keys :: x != id ==> prompts[x] == old(prompts)[x]
    {
      hide OwnEnd, Entered;
      var p := prompts[id];
      if p.settled == None {
        prompts := prompts[id := p.(settled := Some(Cancelled), cancelled := true, closes := p.closes + 1)];
      }
    }

    /** The waiting call returns the settled reason and frees the slot when it is still its own. */
    method Collect(id: string) returns (reason: StopReason)
      requires Valid() && id in prompts && prompts[id].settled.Some?
      modifies this`slot
      ensures Valid() && prompts[id].settled == Some(reason) && slot == if old(slot) == Some(id) then None else old(slot)
      ensures !prompts[id].cancelled ==> OwnEnd(events, id) == Some(reason)
      ensures prompts[id].closes == 1
    {
      hide OwnEnd, Entered;
      reason := prompts[id].settled.value;
      if slot == Some(id) {
        slot := None;
      }
    }
  }

  /** What the relay does to the prompt it read from the slot. */
  function Acted(p: Prompt, id: string, e: Event): Prompt {
    match e
    case User(m) => if m == id then p.(bound := true) else p
    case TurnEnd(kind) => if p.bound && p.settled == None then p.(settled := Some(StopOf(kind)), closes := p.closes + 1) else p
    case Output => p
  }

  /** One event keeps one prompt in order, when the relay holds every prompt the event concerns. */
  lemma ActKeeps(p: Prompt, id: string, events: seq<Event>, e: Event, held: bool)
    requires PromptOk(p, id, events)
    requires p.settled == None && (e == User(id) || (e.TurnEnd? && p.bound)) ==> held
    ensures PromptOk(if held then Acted(p, id, e) else p, id, events + [e])
  {
    hide OwnEnd, Entered;
    OwnEndSnoc(events, e, id);
  }
}
