/** One permission prompt and the three racers that may end it: the GUI's answer, the timeout and a
    session stop (backend/pkg/gateway/http_router.go, approval functions).

    Every method is one critical section, of the server lock or of the hub lock, so any order of calls is
    an interleaving of the racers; `askers` and `dues` are where each of them stands in between. */
module Approval {
  import opened Wrappers

  type CallId = string
  type HostId = nat

  datatype Decision = AllowOnce | AllowAll | Deny | Cancel
  datatype Outcome = Allowed | Denied | Cancelled | TimedOut
  datatype HostFrame = Request(id: CallId) | Resolved(id: CallId, outcome: Outcome)

  /** Where askApproval stands. */
  datatype Asker =
    | Registered
    | StagedOnly
    | Waiting
    | ClosingTimeout          // took the entry itself, has not announced the timeout yet
    | Draining                // the timer fired but the entry was gone
    | Returned(decision: Decision)

  /** What the taker of the entry still has to do. */
  datatype Due = Nothing | AnnounceAnswer(decision: Decision) | SendCancel | AnnounceCancel

  /** Who removed the pending entry. */
  datatype Taker = Answer(decision: Decision) | SessionStop | Timer

  /** The decision a client's text stands for; anything unknown cancels. */
  function DecisionOf(text: string): Decision {
    match text
    case "allow_once" => AllowOnce
    case "allow_all" => AllowAll
    case "deny" => Deny
    case _ => Cancel
  }

  function OutcomeOf(d: Decision): Outcome {
    match d
    case AllowOnce => Allowed
    case AllowAll => Allowed
    case Deny => Denied
    case Cancel => Cancelled
  }

  /** The verdict of whoever took the entry. */
  function Verdict(t: Taker): Decision {
    if t.Answer? then t.decision else Cancel
  }

  function Announcement(t: Taker): Outcome {
    match t
    case Answer(d) => OutcomeOf(d)
    case SessionStop => Cancelled
    case Timer => TimedOut
  }

  /** One call: whether its entry is still in pendingApprovals, its capacity-one channel, where its asker
      and the taker of the entry stand; and, for the record, who took it, what the hub announced, and
      whether that came before the prompt was broadcast (`early`) or even before it was staged
      (`unstaged`). */
  datatype Call = Call(pending: bool, session: string, buffer: Option<Decision>, asker: Asker, due: Due,
                       taker: Option<Taker>, announced: seq<Outcome>, early: bool, unstaged: bool)

  /** The decision is in the channel, or the asker has already returned it. */
  predicate Delivered(c: Call, d: Decision) {
    || (c.buffer == Some(d) && !c.asker.Returned? && !c.asker.ClosingTimeout?)
    || (c.buffer == None && c.asker == Returned(d))
  }

  predicate TakenOk(c: Call, t: Taker) {
    match t
    case Answer(d) =>
      && Delivered(c, d)
      && (c.due == AnnounceAnswer(d) || c.due == Nothing)
      && c.announced == if c.due == Nothing then [OutcomeOf(d)] else []
    case SessionStop =>
      && (if c.due == SendCancel then c.buffer == None && !c.asker.Returned? && !c.asker.ClosingTimeout?
          else Delivered(c, Cancel))
      && (c.due == SendCancel || c.due == AnnounceCancel || c.due == Nothing)
      && c.announced == if c.due == Nothing then [Cancelled] else []
    case Timer =>
      && c.due == Nothing && c.buffer == None && (c.asker == ClosingTimeout || c.asker == Returned(Cancel))
      && c.announced == if c.asker == ClosingTimeout then [] else [TimedOut]
  }

  /** One call in any reachable state: the entry is pending exactly while nobody took it. */
  predicate CallOk(c: Call) {
    && (c.pending <==> c.taker == None)
    && (c.pending ==>
          c.buffer == None && c.due == Nothing && c.announced == [] &&
          (c.asker == Registered || c.asker == StagedOnly || c.asker == Waiting))
    && (c.taker.Some? ==> TakenOk(c, c.taker.value))
    && (c.unstaged ==> c.early) && (c.early ==> c.announced != [])
    && (c.announced != [] && c.asker == StagedOnly ==> c.early)
    && (c.announced != [] && c.asker == Registered ==> c.early && c.unstaged)
  }

  /** A prompt is announced at most once, with the outcome of whoever took the entry; the asker returns
      that racer's verdict and nobody else's; and an asker whose timer found the entry gone has that
      verdict in its channel or is about to be sent it. */
  lemma OneVerdict(c: Call)
    requires CallOk(c)
    ensures |c.announced| <= 1
    ensures c.announced != [] ==> c.taker.Some? && c.announced == [Announcement(c.taker.value)]
    ensures c.announced == [Allowed] ==> c.taker == Some(Answer(AllowOnce)) || c.taker == Some(Answer(AllowAll))
    ensures c.announced == [Denied] ==> c.taker == Some(Answer(Deny))
    ensures c.announced == [Cancelled] ==> c.taker == Some(Answer(Cancel)) || c.taker == Some(SessionStop)
    ensures c.announced == [TimedOut] ==> c.taker == Some(Timer)
    ensures c.asker == Returned(Cancel) ==>
              c.taker != Some(Answer(AllowOnce)) && c.taker != Some(Answer(AllowAll)) && c.taker != Some(Answer(Deny))
    ensures c.asker.Returned? && c.asker.decision != Cancel ==> c.taker == Some(Answer(c.asker.decision))
    ensures c.asker.Returned? ==> c.taker.Some? && c.asker.decision == Verdict(c.taker.value) && c.buffer == None
    ensures c.asker.Returned? && c.due == Nothing ==> c.announced != []
    ensures c.asker == Draining ==>
              c.taker.Some? && (c.buffer == Some(Verdict(c.taker.value)) || (c.buffer == None && c.due == SendCancel))
  {
  }

  /** A prompt is on the replay list from its staging until its outcome is announced; when the outcome
      came before the staging it stays there for good. */
  predicate Replayed(c: Call) {
    c.asker != Registered && (c.announced == [] || c.unstaged)
  }

  ghost predicate StageOk(staged: seq<CallId>, calls: map<CallId, Call>) {
    && Distinct(staged)
    && (forall id <- staged :: id in calls)
    && (forall id <- calls.Keys :: id in staged <==> Replayed(calls[id]))
  }

  /** One host stream: each outcome at most once and as announced; a prompt follows its own outcome only
      when the outcome was announced before the prompt was broadcast. */
  ghost predicate HostOk(frames: seq<HostFrame>, calls: map<CallId, Call>) {
    && (forall i :: 0 <= i < |frames| ==>
          frames[i].id in calls && (frames[i].Resolved? ==> calls[frames[i].id].announced == [frames[i].outcome]))
    && (forall i, j :: 0 <= i < j < |frames| && frames[i].Resolved? && frames[j].id == frames[i].id ==>
          frames[j].Request? && calls[frames[i].id].early)
  }

  ghost predicate HostsOk(hosts: map<HostId, seq<HostFrame>>, calls: map<CallId, Call>) {
    forall h <- hosts.Keys :: HostOk(hosts[h], calls)
  }

  ghost predicate CallsOk(calls: map<CallId, Call>) {
    forall id <- calls.Keys :: CallOk(calls[id])
  }

  lemma CallsUpdate(calls: map<CallId, Call>, id: CallId, c: Call)
    requires CallsOk(calls) && CallOk(c)
    ensures CallsOk(calls[id := c])
  {
    hide CallOk;
  }

  /** A step of one call that announces nothing leaves every host stream in order. */
  lemma HostsKeep(hosts: map<HostId, seq<HostFrame>>, calls: map<CallId, Call>, id: CallId, c: Call)
    requires HostsOk(hosts, calls)
    requires id in calls ==> calls[id].announced == c.announced && calls[id].early == c.early
    ensures HostsOk(hosts, calls[id := c])
  {
    forall h <- hosts.Keys ensures HostOk(hosts[h], calls[id := c]) {
      assert HostOk(hosts[h], calls);
    }
  }

  lemma StageKeep(staged: seq<CallId>, calls: map<CallId, Call>, id: CallId, c: Call)
    requires StageOk(staged, calls)
    requires id in calls ==> Replayed(calls[id]) == Replayed(c)
    requires id !in calls ==> !Replayed(c)
    ensures StageOk(staged, calls[id := c])
  {
    hide Replayed;
  }

  /** The record of a call once its outcome is announced. */
  function AfterAnnounce(c: Call, outcome: Outcome): Call {
    c.(announced := [outcome],
       early := c.asker == Registered || c.asker == StagedOnly,
       unstaged := c.asker == Registered)
  }

  lemma HostsAnnounce(before: map<HostId, seq<HostFrame>>, hosts: map<HostId, seq<HostFrame>>, calls: map<CallId, Call>,
                      id: CallId, outcome: Outcome)
    requires HostsOk(before, calls) && id in calls && calls[id].announced == []
    requires hosts.Keys == before.Keys && forall h <- hosts.Keys :: hosts[h] == before[h] + [Resolved(id, outcome)]
    ensures HostsOk(hosts, calls[id := AfterAnnounce(calls[id], outcome)])
  {
    var after := calls[id := AfterAnnounce(calls[id], outcome)];
    forall h <- hosts.Keys ensures HostOk(hosts[h], after) {
      assert HostOk(before[h], calls);
      forall i | 0 <= i < |before[h]| && before[h][i].Resolved? ensures before[h][i].id != id {
      }
    }
  }

  /** A prompt that follows its own outcome was broadcast late. */
  lemma HostsPublish(before: map<HostId, seq<HostFrame>>, hosts: map<HostId, seq<HostFrame>>,
                     calls: map<CallId, Call>, id: CallId)
    requires HostsOk(before, calls) && CallsOk(calls) && id in calls && calls[id].asker == StagedOnly
    requires hosts.Keys == before.Keys && forall h <- hosts.Keys :: hosts[h] == before[h] + [Request(id)]
    ensures HostsOk(hosts, calls)
  {
    forall h <- hosts.Keys ensures HostOk(hosts[h], calls) {
      assert HostOk(before[h], calls);
      assert CallOk(calls[id]);
    }
  }

  /** The replay list without the first frame of a call. */
  function Unstaged(staged: seq<CallId>, id: CallId): seq<CallId> {
    if staged == [] then []
    else if staged[0] == id then staged[1..]
    else [staged[0]] + Unstaged(staged[1..], id)
  }

  lemma {:induction false} UnstagedAt(staged: seq<CallId>, id: CallId, k: nat)
    requires k < |staged| && staged[k] == id && id !in staged[..k]
    ensures Unstaged(staged, id) == staged[..k] + staged[k + 1..]
    decreases k
  {
    if k > 0 {
      assert staged[0] == staged[..k][0];
      assert staged[1..][..k - 1] == staged[..k][1..];
      UnstagedAt(staged[1..], id, k - 1);
      assert staged[..k] == [staged[0]] + staged[1..][..k - 1];
    }
  }

  lemma {:induction false} UnstagedNone(staged: seq<CallId>, id: CallId)
    requires id !in staged
    ensures Unstaged(staged, id) == staged
    decreases |staged|
  {
    if staged != [] {
      UnstagedNone(staged[1..], id);
    }
  }

  lemma {:induction false} UnstagedDistinct(staged: seq<CallId>, id: CallId)
    requires Distinct(staged)
    ensures Distinct(Unstaged(staged, id))
    ensures forall x :: x in Unstaged(staged, id) <==> x in staged && x != id
    decreases |staged|
  {
    if staged != [] {
      UnstagedDistinct(staged[1..], id);
      assert forall i :: 0 <= i < |staged[1..]| ==> staged[1..][i] == staged[i + 1];
      assert staged[0] !in staged[1..];
    }
  }

  class ApprovalDesk {
    var calls: map<CallId, Call>
    var stagedFrames: seq<CallId>
    var hosts: map<HostId, seq<HostFrame>>

    ghost predicate Valid()
      reads this
    {
      CallsOk(calls) && StageOk(stagedFrames, calls) && HostsOk(hosts, calls)
    }

    constructor ()
      ensures Valid() && calls == map[] && hosts == map[] && stagedFrames == []
    {
      calls, stagedFrames, hosts := map[], [], map[];
    }

    /** One step of one call that neither announces nor changes what is replayed. */
    method Move(id: CallId, c: Call)
      requires Valid() && CallOk(c)
      requires id in calls ==>
                 calls[id].announced == c.announced && calls[id].early == c.early && Replayed(calls[id]) == Replayed(c)
      requires id !in calls ==> !Replayed(c)
      modifies this`calls
      ensures Valid() && calls == old(calls)[id := c]
    {
      hide CallOk, CallsOk, StageOk, HostsOk, Replayed;
      CallsUpdate(calls, id, c);
      StageKeep(stagedFrames, calls, id, c);
      HostsKeep(hosts, calls, id, c);
      calls := calls[id := c];
    }

    /** askApproval, first section: the entry is registered before anything is staged. */
    method Register(id: CallId, session: string)
      requires Valid() && id !in calls
      modifies this`calls
      ensures Valid()
      ensures calls == old(calls)[id := Call(true, session, None, Registered, Nothing, None, [], false, false)]
    {
      hide CallsOk, StageOk, HostsOk;
      Move(id, Call(true, session, None, Registered, Nothing, None, [], false, false));
    }

    /** askApproval, second section: the prompt goes on the replay list. */
    method Stage(id: CallId)
      requires Valid() && id in calls && calls[id].asker == Registered
      modifies this`stagedFrames, this`calls
      ensures Valid() && stagedFrames == old(stagedFrames) + [id]
      ensures calls == old(calls)[id := old(calls)[id].(asker := StagedOnly)]
    {
      hide CallsOk, HostsOk;
      var c := calls[id].(asker := StagedOnly);
      assert CallOk(calls[id]) by {
        assert CallsOk(calls);
        CallIn(calls, id);
      }
      CallsUpdate(calls, id, c);
      HostsKeep(hosts, calls, id, c);
      stagedFrames := stagedFrames + [id];
      calls := calls[id := c];
    }

    /** Sends one frame to every host client. */
    method BroadcastHost(f: HostFrame)
      modifies this`hosts
      ensures hosts.Keys == old(hosts).Keys && forall c <- hosts.Keys :: hosts[c] == old(hosts)[c] + [f]
    {
      var todo := hosts.Keys;
      while todo != {}
        invariant todo <= hosts.Keys == old(hosts).Keys
        invariant forall c <- hosts.Keys :: hosts[c] == if c in todo then old(hosts)[c] else old(hosts)[c] + [f]
        decreases |todo|
      {
        var c :| c in todo;
        todo := todo - {c};
        hosts := hosts[c := hosts[c] + [f]];
      }
    }

    /** askApproval, third section: the prompt is broadcast. */
    method Publish(id: CallId)
      requires Valid() && id in calls && calls[id].asker == StagedOnly
      modifies this`hosts, this`calls
      ensures Valid() && calls == old(calls)[id := old(calls)[id].(asker := Waiting)]
      ensures hosts.Keys == old(hosts).Keys && forall c <- hosts.Keys :: hosts[c] == old(hosts)[c] + [Request(id)]
    {
      hide CallsOk, HostsOk, StageOk;
      BroadcastHost(Request(id));
      HostsPublish(old(hosts), hosts, calls, id);
      CallIn(calls, id);
      Move(id, calls[id].(asker := Waiting));
    }

    /** askApproval: a decision is in the channel. Also the wait of an asker whose timer found the entry
        gone. */
    method Receive(id: CallId) returns (d: Decision)
      requires Valid() && id in calls && (calls[id].asker == Waiting || calls[id].asker == Draining)
      requires calls[id].buffer.Some?
      modifies this`calls
      ensures Valid() && calls == old(calls)[id := old(calls)[id].(buffer := None, asker := Returned(d))]
      ensures calls[id].taker.Some? && d == Verdict(calls[id].taker.value)
    {
      hide CallsOk, HostsOk, StageOk;
      CallIn(calls, id);
      d := calls[id].buffer.value;
      Move(id, calls[id].(buffer := None, asker := Returned(d)));
    }

    /** The timer fires: under the server lock, whoever removes the entry decides. When the entry is gone
        the decision is in the channel or the session stop is about to send it. */
    method Timeout(id: CallId) returns (stillPending: bool)
      requires Valid() && id in calls && calls[id].asker == Waiting
      modifies this`calls
      ensures Valid() && stillPending == old(calls)[id].pending
      ensures stillPending ==>
                calls == old(calls)[id := old(calls)[id].(pending := false, taker := Some(Timer), asker := ClosingTimeout)]
      ensures !stillPending ==>
                && calls == old(calls)[id := old(calls)[id].(asker := Draining)] && calls[id].taker.Some?
                && (calls[id].buffer == Some(Verdict(calls[id].taker.value)) || calls[id].due == SendCancel)
    {
      hide CallsOk, HostsOk, StageOk;
      CallIn(calls, id);
      stillPending := calls[id].pending;
      if stillPending {
        Move(id, calls[id].(pending := false, taker := Some(Timer), asker := ClosingTimeout));
      } else {
        Move(id, calls[id].(asker := Draining));
      }
    }

    /** The hub announces an outcome and takes the prompt off the replay list in one section; the caller
        then records in `next` that its own part is done. */
    method ResolvePermission(id: CallId, outcome: Outcome, next: Call)
      requires Valid() && id in calls && calls[id].announced == []
      requires CallOk(next)
      requires next == AfterAnnounce(calls[id], outcome).(due := next.due, asker := next.asker)
      requires next.asker == calls[id].asker || (next.asker.Returned? && calls[id].asker == ClosingTimeout)
      modifies this`hosts, this`stagedFrames, this`calls
      ensures Valid() && calls == old(calls)[id := next]
      ensures hosts.Keys == old(hosts).Keys && forall c <- hosts.Keys :: hosts[c] == old(hosts)[c] + [Resolved(id, outcome)]
      ensures stagedFrames == Unstaged(old(stagedFrames), id) && id !in stagedFrames
    {
      hide CallsOk, HostsOk, CallOk;
      BroadcastHost(Resolved(id, outcome));
      UnstagedDistinct(stagedFrames, id);
      Unstage(id);
      HostsAnnounce(old(hosts), hosts, calls, id, outcome);
      CallsUpdate(calls, id, next);
      ghost var announced := calls[id := AfterAnnounce(calls[id], outcome)];
      HostsKeep(hosts, announced, id, next);
      assert announced[id := next] == calls[id := next];
      calls := calls[id := next];
    }

    method Unstage(id: CallId)
      modifies this`stagedFrames
      ensures stagedFrames == Unstaged(old(stagedFrames), id)
    {
      for i := 0 to |stagedFrames|
        invariant stagedFrames == old(stagedFrames) && id !in stagedFrames[..i]
      {
        if stagedFrames[i] == id {
          UnstagedAt(stagedFrames, id, i);
          stagedFrames := stagedFrames[..i] + stagedFrames[i + 1..];
          return;
        }
      }
      UnstagedNone(stagedFrames, id);
    }

    /** askApproval, last section of the timeout path. */
    method AnnounceTimeout(id: CallId) returns (d: Decision)
      requires Valid() && id in calls && calls[id].asker == ClosingTimeout
      modifies this`hosts, this`stagedFrames, this`calls
      ensures Valid() && d == Cancel && calls.Keys == old(calls).Keys
      ensures calls[id].asker == Returned(Cancel) && calls[id].announced == [TimedOut] && id !in stagedFrames
      ensures forall x <- calls.Keys :: x != id ==> calls[x] == old(calls)[x]
    {
      hide CallsOk, HostsOk, StageOk;
      CallIn(calls, id);
      d := Cancel;
      ResolvePermission(id, TimedOut, AfterAnnounce(calls[id], TimedOut).(asker := Returned(d)));
    }

    /** approval.respond: take the entry and post the decision in one section of the server lock. */
    method Respond(id: CallId, text: string) returns (ok: bool)
      requires Valid()
      modifies this`calls
      ensures Valid() && ok == (id in old(calls) && old(calls)[id].pending)
      ensures ok ==> old(calls)[id].buffer == None
      ensures ok ==>
                calls == old(calls)[id := old(calls)[id].(pending := false, taker := Some(Answer(DecisionOf(text))),
                                                          buffer := Some(DecisionOf(text)), due := AnnounceAnswer(DecisionOf(text)))]
      ensures !ok ==> calls == old(calls)
    {
      hide CallsOk, HostsOk, StageOk;
      var decision := Cancel;
      if text == "allow_once" {
        decision := AllowOnce;
      } else if text == "allow_all" {
        decision := AllowAll;
      } else if text == "deny" {
        decision := Deny;
      }
      ok := id in calls && calls[id].pending;
      if ok {
        CallIn(calls, id);
        Move(id, calls[id].(pending := false, taker := Some(Answer(decision)), buffer := Some(decision),
                            due := AnnounceAnswer(decision)));
      }
    }

    /** approval.respond, after the server lock. */
    method AnnounceRespond(id: CallId)
      requires Valid() && id in calls && calls[id].due.AnnounceAnswer?
      modifies this`hosts, this`stagedFrames, this`calls
      ensures Valid() && calls.Keys == old(calls).Keys && calls[id].due == Nothing && id !in stagedFrames
      ensures calls[id].announced == [OutcomeOf(old(calls)[id].due.decision)]
      ensures forall x <- calls.Keys :: x != id ==> calls[x] == old(calls)[x]
    {
      hide CallsOk, HostsOk, StageOk;
      CallIn(calls, id);
      var outcome := Cancelled;
      match calls[id].due.decision {
        case AllowOnce | AllowAll => outcome := Allowed;
        case Deny => outcome := Denied;
        case Cancel =>
      }
      ResolvePermission(id, outcome, AfterAnnounce(calls[id], outcome).(due := Nothing));
    }

    /** Session stop: take every entry of the session in one section of the server lock. */
    method CancelSession(session: string) returns (found: set<CallId>)
      requires Valid()
      modifies this`calls
      ensures Valid() && calls.Keys == old(calls).Keys
      ensures found == if session == "" then {}
                       else set id | id in old(calls) && old(calls)[id].pending && old(calls)[id].session == session
      ensures forall id <- calls.Keys :: calls[id] == if id in found then StopTaken(old(calls)[id]) else old(calls)[id]
    {
      hide CallOk, HostsOk, StageOk, StopTaken;
      found := {};
      if session == "" {
        return;
      }
      var todo := calls.Keys;
      while todo != {}
        invariant Valid() && todo <= calls.Keys == old(calls).Keys
        invariant found == set id | id in old(calls) && id !in todo &&
                                    old(calls)[id].pending && old(calls)[id].session == session
        invariant forall id <- calls.Keys :: calls[id] == if id in found then StopTaken(old(calls)[id]) else old(calls)[id]
        decreases |todo|
      {
        var id :| id in todo;
        todo := todo - {id};
        if calls[id].pending && calls[id].session == session {
          found := found + {id};
          StopIsOk(calls[id]);
          Move(id, StopTaken(calls[id]));
        }
      }
    }

    /** Session stop: the send that never blocks; the buffer is always free, so nothing is dropped. */
    method PostCancel(id: CallId)
      requires Valid() && id in calls && calls[id].due == SendCancel
      modifies this`calls
      ensures Valid() && old(calls)[id].buffer == None
      ensures calls == old(calls)[id := old(calls)[id].(buffer := Some(Cancel), due := AnnounceCancel)]
    {
      hide CallsOk, HostsOk, StageOk;
      CallIn(calls, id);
      assert calls[id].buffer == None;
      Move(id, calls[id].(buffer := Some(Cancel), due := AnnounceCancel));
    }

    method AnnounceStop(id: CallId)
      requires Valid() && id in calls && calls[id].due == AnnounceCancel
      modifies this`hosts, this`stagedFrames, this`calls
      ensures Valid() && calls.Keys == old(calls).Keys && calls[id].due == Nothing && id !in stagedFrames
      ensures calls[id].announced == [Cancelled]
      ensures forall x <- calls.Keys :: x != id ==> calls[x] == old(calls)[x]
    {
      hide CallsOk, HostsOk, StageOk;
      CallIn(calls, id);
      ResolvePermission(id, Cancelled, AfterAnnounce(calls[id], Cancelled).(due := Nothing));
    }

    /** A host client registers and receives the replay list in the same hub section. Of the calls already
        decided it sees exactly the prompts whose outcome was announced before they were staged. */
    method RegisterHost(h: HostId)
      requires Valid() && h !in hosts
      modifies this`hosts
      ensures Valid() && hosts.Keys == old(hosts).Keys + {h}
      ensures |hosts[h]| == |stagedFrames| && forall i :: 0 <= i < |stagedFrames| ==> hosts[h][i] == Request(stagedFrames[i])
      ensures forall id <- calls.Keys ::
                calls[id].announced != [] ==> (Request(id) in hosts[h] <==> calls[id].asker != Registered && calls[id].unstaged)
    {
      hide CallsOk;
      var frames: seq<HostFrame> := [];
      for i := 0 to |stagedFrames|
        invariant |frames| == i && forall k :: 0 <= k < i ==> frames[k] == Request(stagedFrames[k])
      {
        frames := frames + [Request(stagedFrames[i])];
      }
      hosts := hosts[h := frames];
      forall id <- calls.Keys ensures Request(id) in frames <==> id in stagedFrames {
        if id in stagedFrames {
          var k :| 0 <= k < |stagedFrames| && stagedFrames[k] == id;
          assert frames[k] == Request(id);
        }
      }
    }

    /** The client left. */
    method UnregisterHost(h: HostId)
      requires Valid()
      modifies this`hosts
      ensures Valid() && hosts == old(hosts) - {h}
    {
      hide CallsOk, StageOk, HostOk;
      hosts := hosts - {h};
    }
  }

  /** A call whose entry a session stop just took. */
  function StopTaken(c: Call): Call {
    c.(pending := false, taker := Some(SessionStop), due := SendCancel)
  }

  lemma StopIsOk(c: Call)
    requires CallOk(c) && c.pending
    ensures CallOk(StopTaken(c)) && StopTaken(c).announced == c.announced && StopTaken(c).early == c.early
    ensures Replayed(StopTaken(c)) == Replayed(c)
  {
  }

  lemma CallIn(calls: map<CallId, Call>, id: CallId)
    requires CallsOk(calls) && id in calls
    ensures CallOk(calls[id])
  {
  }
}
