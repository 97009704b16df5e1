/** The JSON-RPC dispatcher: one message in, at most one reply out, with tool calls that run on and can be cancelled. */
module McpSession {
  import opened Outcomes
  import opened JsonValues

  /** A request id: a string or a finite number. */
  datatype Id = TextId(text: string) | NumberId(number: real)

  datatype Code = ParseError | InvalidRequest | InvalidParams | MethodNotFound | RequestCancelled

  /** `id` is `None` where the reply carries a null id. */
  datatype Reply = ErrorReply(id: Option<Id>, code: Code) | ResultReply(id: Option<Id>) | ToolErrorReply(id: Option<Id>)

  /** How a tool call ends: with a result, cut short by its cancel, refusing its input, or failing otherwise. */
  datatype ToolEnd = Returned | Aborted | BadInput | Threw

  // ---- one message ----

  /** A line as received: blank, not JSON, or a JSON value. */
  datatype Line = Blank | Unparsable | Parsed(message: Json)

  function Field(fields: seq<(string, Json)>, key: string): Option<Json> {
    var at := IndexOf(fields, key);
    if at < |fields| then Some(fields[at].1) else None
  }

  function IdOf(v: Json): Option<Id> {
    match v
    case Str(text) => Some(TextId(text))
    case Num(n) => Some(NumberId(n))
    case _ => None
  }

  /** `tools/call` arguments the validator accepts; the validator itself is in ToolSchemas. */
  datatype Handled = Silent | Replies(reply: Reply) | Cancels(target: Option<Id>) | StartsTool

  /** The dispatcher up to the point where a tool would start. `argumentsOk` is the validator's verdict and
      `initializeOk` whether the handshake parameters have the right shape. */
  function Dispatch(line: Line, argumentsOk: bool, initializeOk: bool): (Handled, Option<Id>) {
    match line
    case Blank => (Silent, None)
    case Unparsable => (Replies(ErrorReply(None, ParseError)), None)
    case Parsed(message) =>
      if !message.Obj? then (Replies(ErrorReply(None, InvalidRequest)), None)
      else if Field(message.fields, "jsonrpc") != Some(Str("2.0")) then (Replies(ErrorReply(None, InvalidRequest)), None)
      else
        var rawId := Field(message.fields, "id");
        if rawId.Some? && IdOf(rawId.value).None? then (Replies(ErrorReply(None, InvalidRequest)), None)
        else
          var id := if rawId.Some? then IdOf(rawId.value) else None;
          (DispatchMethod(id, Field(message.fields, "method"), Field(message.fields, "params"), argumentsOk, initializeOk), id)
  }

  function Answer(id: Option<Id>, reply: Reply): Handled {
    if id.None? then Silent else Replies(reply)
  }

  function DispatchMethod(id: Option<Id>, rawMethod: Option<Json>, params: Option<Json>, argumentsOk: bool, initializeOk: bool): Handled {
    if rawMethod.None? || !rawMethod.value.Str? then Answer(id, ErrorReply(id, InvalidRequest))
    else
      var name := rawMethod.value.text;
      if name == "notifications/cancelled" then
        if params.Some? && params.value.Obj? && Field(params.value.fields, "requestId").Some?
        then Cancels(IdOf(Field(params.value.fields, "requestId").value))
        else Cancels(None)
      else if name == "initialize" then Answer(id, if initializeOk then ResultReply(id) else ErrorReply(id, InvalidParams))
      else if name == "notifications/initialized" then Silent
      else if name == "ping" || name == "tools/list" then Answer(id, ResultReply(id))
      else if name == "tools/call" then
        if params.Some? && params.value.Obj? && argumentsOk then StartsTool else Answer(id, ErrorReply(id, InvalidParams))
      else Answer(id, ErrorReply(id, MethodNotFound))
  }

  function EndReply(id: Option<Id>, end: ToolEnd): Option<Reply> {
    if id.None? then None
    else Some(match end
              case Returned => ResultReply(id)
              case Aborted => ErrorReply(id, RequestCancelled)
              case BadInput => ErrorReply(id, InvalidParams)
              case Threw => ToolErrorReply(id))
  }

  // ---- the live registry ----

  /** A call in flight, named by the place of its message in the session. */
  datatype Call = Call(id: Option<Id>, aborted: bool)

  /** `requests` maps an id to the call it would cancel, `running` holds every call in flight, `replies` what was written
      with the message each reply answers, and `received` counts the messages. */
  datatype Session = Session(requests: map<Id, nat>, running: map<nat, Call>, replies: seq<(nat, Reply)>, received: nat)

  datatype Event = Receive(line: Line, argumentsOk: bool, initializeOk: bool) | Finish(call: nat, end: ToolEnd) | CloseInput

  const START := Session(map[], map[], [], 0)

  function Abort(s: Session, call: nat): Session
    requires call in s.running
  {
    s.(running := s.running[call := s.running[call].(aborted := true)])
  }

  function ReceiveStep(s: Session, line: Line, argumentsOk: bool, initializeOk: bool): Session {
    var n := s.received;
    var (handled, id) := Dispatch(line, argumentsOk, initializeOk);
    var s' := s.(received := n + 1);
    match handled
    case Silent => s'
    case Replies(reply) => s'.(replies := s.replies + [(n, reply)])
    case Cancels(target) =>
      if target.Some? && target.value in s.requests && s.requests[target.value] in s.running
      then Abort(s', s.requests[target.value]) else s'
    case StartsTool =>
      s'.(running := s.running[n := Call(id, false)], requests := if id.Some? then s.requests[id.value := n] else s.requests)
  }

  function FinishStep(s: Session, call: nat, end: ToolEnd): Session {
    if call !in s.running then s
    else
      var id := s.running[call].id;
      var reply := EndReply(id, end);
      s.(running := s.running - {call},
         requests := if id.Some? && id.value in s.requests && s.requests[id.value] == call then s.requests - {id.value} else s.requests,
         replies := if reply.Some? then s.replies + [(call, reply.value)] else s.replies)
  }

  function CloseStep(s: Session): Session {
    s.(running := map c | c in s.running :: s.running[c].(aborted := true))
  }

  function Step(s: Session, e: Event): Session {
    match e
    case Receive(line, argumentsOk, initializeOk) => ReceiveStep(s, line, argumentsOk, initializeOk)
    case Finish(call, end) => FinishStep(s, call, end)
    case CloseInput => CloseStep(s)
  }

  function Run(events: seq<Event>): Session {
    if events == [] then START else Step(Run(events[..|events| - 1]), events[|events| - 1])
  }

  lemma RunAppend(front: seq<Event>, last: Event)
    ensures Run(front + [last]) == Step(Run(front), last)
  {
    assert (front + [last])[..|front|] == front;
  }

  /** The dispatcher as the program runs it, updating its two collections in place. */
  class Dispatcher {
    var requests: map<Id, nat>
    var running: map<nat, Call>
    var replies: seq<(nat, Reply)>
    var received: nat

    constructor ()
      ensures State() == START
    {
      requests, running, replies, received := map[], map[], [], 0;
    }

    function State(): Session
      reads this
    {
      Session(requests, running, replies, received)
    }

    method Process(line: Line, argumentsOk: bool, initializeOk: bool)
      modifies this
      ensures State() == ReceiveStep(old(State()), line, argumentsOk, initializeOk)
    {
      var n := received;
      received := received + 1;
      var (handled, id) := Dispatch(line, argumentsOk, initializeOk);
      match handled {
        case Silent =>
        case Replies(reply) => replies := replies + [(n, reply)];
        case Cancels(target) =>
          if target.Some? && target.value in requests && requests[target.value] in running {
            var call := requests[target.value];
            running := running[call := running[call].(aborted := true)];
          }
        case StartsTool =>
          running := running[n := Call(id, false)];
          if id.Some? { requests := requests[id.value := n]; }
      }
    }

    method Complete(call: nat, end: ToolEnd)
      requires call in running
      modifies this
      ensures State() == FinishStep(old(State()), call, end)
    {
      var id := running[call].id;
      running := running - {call};
      if id.Some? && id.value in requests && requests[id.value] == call { requests := requests - {id.value}; }
      var reply := EndReply(id, end);
      if reply.Some? { replies := replies + [(call, reply.value)]; }
    }

    method Close()
      modifies this
      ensures State() == CloseStep(old(State()))
    {
      running := map c | c in running :: running[c].(aborted := true);
    }
  }

  // ---- registry invariants, over every interleaving ----

  /** Every registered id leads to a running call of that id, started after any other running call of the id. */
  ghost predicate Registered(s: Session) {
    && (forall c :: c in s.running ==> c < s.received)
    && (forall id :: id in s.requests ==> s.requests[id] in s.running && s.running[s.requests[id]].id == Some(id))
    && (forall c, id :: c in s.running && s.running[c].id == Some(id) && id in s.requests ==> c <= s.requests[id])
  }

  lemma ReceiveKeepsRegistry(s: Session, line: Line, argumentsOk: bool, initializeOk: bool)
    requires Registered(s)
    ensures Registered(ReceiveStep(s, line, argumentsOk, initializeOk))
  {
    hide Dispatch, Registered, Abort;
    var (handled, id) := Dispatch(line, argumentsOk, initializeOk);
    var s' := s.(received := s.received + 1);
    MessageKeepsRegistry(s, s.replies);
    match handled
    case Silent =>
    case Replies(reply) => MessageKeepsRegistry(s, s.replies + [(s.received, reply)]);
    case Cancels(target) =>
      if target.Some? && target.value in s.requests && s.requests[target.value] in s.running {
        AbortKeepsRegistry(s', s.requests[target.value]);
      }
    case StartsTool => CallKeepsRegistry(s, id);
  }

  lemma MessageKeepsRegistry(s: Session, replies: seq<(nat, Reply)>)
    requires Registered(s)
    ensures Registered(s.(received := s.received + 1, replies := replies))
  {
  }

  lemma AbortKeepsRegistry(s: Session, call: nat)
    requires Registered(s) && call in s.running
    ensures Registered(Abort(s, call))
  {
  }

  lemma CallKeepsRegistry(s: Session, id: Option<Id>)
    requires Registered(s)
    ensures var n := s.received;
            Registered(s.(received := n + 1, running := s.running[n := Call(id, false)],
                          requests := if id.Some? then s.requests[id.value := n] else s.requests))
  {
  }

  lemma FinishKeepsRegistry(s: Session, call: nat, end: ToolEnd)
    requires Registered(s)
    ensures Registered(FinishStep(s, call, end))
  {
    hide EndReply;
  }

  lemma StepKeepsRegistry(s: Session, e: Event)
    requires Registered(s)
    ensures Registered(Step(s, e))
  {
    match e
    case Receive(line, argumentsOk, initializeOk) => ReceiveKeepsRegistry(s, line, argumentsOk, initializeOk);
    case Finish(call, end) => FinishKeepsRegistry(s, call, end);
    case CloseInput =>
  }

  lemma {:induction false} RunKeepsRegistry(events: seq<Event>)
    ensures Registered(Run(events))
  {
    if events != [] {
      RunKeepsRegistry(events[..|events| - 1]);
      StepKeepsRegistry(Run(events[..|events| - 1]), events[|events| - 1]);
    }
  }

  /** The n-th event starts a tool call, which is named by the place of its message. */
  predicate StartsCall(events: seq<Event>, n: nat, call: nat)
    requires n < |events|
  {
    events[n].Receive? && Dispatch(events[n].line, events[n].argumentsOk, events[n].initializeOk).0 == StartsTool
    && Run(events[..n]).received == call
  }

  predicate FinishedAfter(events: seq<Event>, n: nat, call: nat) {
    exists m :: n < m < |events| && events[m].Finish? && events[m].call == call
  }

  /** A running call was started by some event and has not been finished since. */
  lemma {:induction false} RunningIsUnfinished(events: seq<Event>, call: nat) returns (n: nat)
    requires call in Run(events).running
    ensures n < |events| && StartsCall(events, n, call) && !FinishedAfter(events, n, call)
  {
    hide Dispatch;
    var front, last := events[..|events| - 1], events[|events| - 1];
    if call in Run(front).running {
      n := RunningIsUnfinished(front, call);
      assert front[n] == events[n] && front[..n] == events[..n];
      assert last.Finish? ==> last.call != call;
      forall m | n < m < |events| ensures !(events[m].Finish? && events[m].call == call) {
        if m < |front| { assert front[m] == events[m]; }
      }
    } else {
      n := |events| - 1;
    }
  }

  /** Once every tool call that was started has finished, both collections are empty: the registry cannot leak. */
  lemma QuietSessionIsEmpty(events: seq<Event>)
    requires forall n, call :: 0 <= n < |events| && StartsCall(events, n, call) ==> FinishedAfter(events, n, call)
    ensures Run(events).running == map[] && Run(events).requests == map[]
  {
    hide StartsCall, FinishedAfter, Run;
    RunKeepsRegistry(events);
    if Run(events).running != map[] {
      var call :| call in Run(events).running;
      var n := RunningIsUnfinished(events, call);
      assert false;
    }
  }

  /** Finishing a call leaves every other call, and every entry that leads to another call, as it was. */
  lemma {:induction false} FinishTouchesOnlyItself(s: Session, call: nat, end: ToolEnd)
    requires Registered(s)
    ensures var s' := FinishStep(s, call, end);
            && s'.running == s.running - {call}
            && (forall id :: id in s.requests && s.requests[id] != call ==> id in s'.requests && s'.requests[id] == s.requests[id])
            && (forall id :: id in s'.requests ==> id in s.requests && s.requests[id] != call)
  {
  }

  predicate StartsToolAs(e: Event, id: Id) {
    e.Receive? && Dispatch(e.line, e.argumentsOk, e.initializeOk) == (StartsTool, Some(id))
  }

  /** The call started last under an id since the session began, whether or not it still runs. */
  function Latest(events: seq<Event>, id: Id): Option<nat> {
    if events == [] then None
    else if StartsToolAs(events[|events| - 1], id) then Some(Run(events[..|events| - 1]).received)
    else Latest(events[..|events| - 1], id)
  }

  /** An id is registered exactly while the call started last under it still runs, and then leads to that call. */
  ghost predicate LeadsToLatest(events: seq<Event>, id: Id) {
    var s, latest := Run(events), Latest(events, id);
    && (latest.Some? ==> latest.value < s.received)
    && (id in s.requests <==> latest.Some? && latest.value in s.running)
    && (id in s.requests ==> s.requests[id] == latest.value)
  }

  lemma {:induction false} RegisteredMeansLatest(events: seq<Event>, id: Id)
    ensures LeadsToLatest(events, id)
  {
    hide Dispatch;
    if events != [] {
      var front, last := events[..|events| - 1], events[|events| - 1];
      RegisteredMeansLatest(front, id);
      RunKeepsRegistry(front);
      match last
      case Receive(line, argumentsOk, initializeOk) => ReceiveKeepsLatest(front, last, id);
      case Finish(call, end) => FinishTouchesOnlyItself(Run(front), call, end);
      case CloseInput =>
    }
  }

  lemma LatestAppend(front: seq<Event>, last: Event, id: Id)
    ensures Latest(front + [last], id) == if StartsToolAs(last, id) then Some(Run(front).received) else Latest(front, id)
  {
    assert (front + [last])[..|front|] == front;
  }

  lemma ReceiveKeepsLatest(front: seq<Event>, last: Event, id: Id)
    requires last.Receive? && LeadsToLatest(front, id) && Registered(Run(front))
    ensures LeadsToLatest(front + [last], id)
  {
    hide Dispatch, Run, Latest;
    RunAppend(front, last);
    LatestAppend(front, last, id);
  }

  predicate IsCancelOf(e: Event, id: Id) {
    e.Receive? && Dispatch(e.line, e.argumentsOk, e.initializeOk).0 == Cancels(Some(id))
  }

  /** A cancel marks the call started last under its id when that call still runs, and changes no call otherwise. */
  lemma CancelReachesLatest(events: seq<Event>, cancel: Event, id: Id)
    requires IsCancelOf(cancel, id)
    ensures var before, after := Run(events), Run(events + [cancel]);
            && after.requests == before.requests && after.replies == before.replies
            && (if Latest(events, id).Some? && Latest(events, id).value in before.running
                then var call := Latest(events, id).value;
                     after.running == before.running[call := Call(before.running[call].id, true)]
                else after.running == before.running)
  {
    hide Dispatch;
    RegisteredMeansLatest(events, id);
    assert (events + [cancel])[..|events|] == events;
  }

  lemma {:induction false} ReceivedGrows(events: seq<Event>, n: nat)
    requires n <= |events|
    ensures Run(events[..n]).received <= Run(events).received
  {
    if n == |events| {
      assert events[..n] == events;
    } else {
      var front := events[..|events| - 1];
      assert front[..n] == events[..n];
      ReceivedGrows(front, n);
      hide Dispatch;
    }
  }

  /** A step neither brings back an earlier call nor takes its abortion away. */
  lemma AbortedStays(s: Session, e: Event, call: nat)
    requires call < s.received && call in Step(s, e).running
    ensures call in s.running && (s.running[call].aborted ==> Step(s, e).running[call].aborted)
    ensures e == CloseInput ==> Step(s, e).running[call].aborted
  {
    hide Dispatch;
  }

  /** A call in flight when the input closes is aborted in every later state in which it still runs, also one without an
      id and whatever is received in between. */
  lemma {:induction false} CloseReachesAll(events: seq<Event>, n: nat, call: nat)
    requires n < |events| && events[n] == CloseInput && call in Run(events[..n]).running
    requires call in Run(events).running
    ensures Run(events).running[call].aborted
  {
    var front, last := events[..|events| - 1], events[|events| - 1];
    assert front[..n] == events[..n];
    RunKeepsRegistry(events[..n]);
    ReceivedGrows(front, n);
    AbortedStays(Run(front), last, call);
    if n < |front| {
      assert front[n] == events[n];
      CloseReachesAll(front, n, call);
    }
  }

  // ---- replies, over every interleaving ----

  function RepliesTo(replies: seq<(nat, Reply)>, n: nat): seq<Reply> {
    if replies == [] then []
    else RepliesTo(replies[..|replies| - 1], n) + if replies[|replies| - 1].0 == n then [replies[|replies| - 1].1] else []
  }

  /** The n-th message of the session. */
  function MessageAt(events: seq<Event>, n: nat): Option<Event> {
    if events == [] then None
    else if events[|events| - 1].Receive? && Run(events[..|events| - 1]).received == n then Some(events[|events| - 1])
    else MessageAt(events[..|events| - 1], n)
  }

  /** Every reply owed to the n-th message has been written once, and no other. */
  ghost predicate RepliedOnce(s: Session, n: nat, e: Event)
    requires e.Receive?
  {
    var (handled, id) := Dispatch(e.line, e.argumentsOk, e.initializeOk);
    var replies := RepliesTo(s.replies, n);
    match handled
    case Silent => replies == [] && n !in s.running
    case Cancels(_) => replies == [] && n !in s.running
    case Replies(reply) => replies == [reply] && n !in s.running
    case StartsTool =>
      if n in s.running then replies == [] && s.running[n].id == id
      else if id.None? then replies == []
      else |replies| == 1 && replies[0].id == id
  }

  ghost predicate Accounted(events: seq<Event>, n: nat) {
    var s, message := Run(events), MessageAt(events, n);
    && (n < s.received <==> message.Some?)
    && (message.Some? ==> message.value.Receive? && RepliedOnce(s, n, message.value))
    && (message.None? ==> RepliesTo(s.replies, n) == [] && n !in s.running)
  }

  /** However messages, completions and cancels interleave, every message gets its one reply or none. */
  lemma {:induction false} EveryMessageAccounted(events: seq<Event>, n: nat)
    ensures Accounted(events, n)
  {
    if events != [] {
      var front, last := events[..|events| - 1], events[|events| - 1];
      EveryMessageAccounted(front, n);
      assert events == front + [last];
      match last
      case Receive(_, _, _) => ReceiveAccounts(front, last, n);
      case Finish(call, end) => FinishAccounts(front, last, n);
      case CloseInput => CloseAccounts(front, last, n);
    }
  }

  lemma RepliesToAppended(replies: seq<(nat, Reply)>, m: nat, reply: Reply, n: nat)
    ensures RepliesTo(replies + [(m, reply)], n) == RepliesTo(replies, n) + if m == n then [reply] else []
  {
    assert (replies + [(m, reply)])[..|replies|] == replies;
  }

  lemma MessageAppend(front: seq<Event>, last: Event, n: nat)
    ensures MessageAt(front + [last], n) == if last.Receive? && Run(front).received == n then Some(last) else MessageAt(front, n)
  {
    assert (front + [last])[..|front|] == front;
  }

  /** Receiving a message leaves the account of any other as it was. */
  lemma ReceiveSparesOthers(s: Session, e: Event, n: nat)
    requires e.Receive? && n != s.received
    ensures var s' := Step(s, e);
            && RepliesTo(s'.replies, n) == RepliesTo(s.replies, n)
            && (n in s'.running <==> n in s.running) && (n in s.running ==> s'.running[n].id == s.running[n].id)
  {
    hide Dispatch, RepliesTo;
    var (handled, id) := Dispatch(e.line, e.argumentsOk, e.initializeOk);
    if handled.Replies? { RepliesToAppended(s.replies, s.received, handled.reply, n); }
  }

  /** What receiving a message does to the n-th message's account: opens it, or leaves it as it was. */
  lemma ReceiveOpens(s: Session, e: Event, n: nat)
    requires e.Receive?
    ensures var s' := Step(s, e);
            if n == s.received then RepliesTo(s.replies, n) == [] && n !in s.running ==> RepliedOnce(s', n, e)
            else RepliesTo(s'.replies, n) == RepliesTo(s.replies, n)
                 && (n in s'.running <==> n in s.running) && (n in s.running ==> s'.running[n].id == s.running[n].id)
  {
    hide Dispatch, RepliesTo;
    if n != s.received {
      ReceiveSparesOthers(s, e, n);
    } else {
      var (handled, id) := Dispatch(e.line, e.argumentsOk, e.initializeOk);
      if handled.Replies? { RepliesToAppended(s.replies, s.received, handled.reply, n); }
    }
  }

  lemma ReceiveAccounts(front: seq<Event>, last: Event, n: nat)
    requires last.Receive? && Accounted(front, n)
    ensures Accounted(front + [last], n)
  {
    hide Dispatch, Run, MessageAt, Step, RepliesTo;
    RunAppend(front, last);
    MessageAppend(front, last, n);
    ReceiveOpens(Run(front), last, n);
    assert Step(Run(front), last).received == Run(front).received + 1 by { ReceiveCounts(Run(front), last); }
  }

  lemma ReceiveCounts(s: Session, e: Event)
    requires e.Receive?
    ensures Step(s, e).received == s.received + 1
  {
    hide Dispatch;
  }

  /** What the end of a call does to the n-th message's account: settles its own, and leaves the others alone. */
  lemma FinishSettles(s: Session, call: nat, end: ToolEnd, n: nat)
    ensures var s' := FinishStep(s, call, end);
            && s'.received == s.received
            && if n == call && n in s.running
               then n !in s'.running && RepliesTo(s'.replies, n) == RepliesTo(s.replies, n)
                    + (match EndReply(s.running[n].id, end) case None => [] case Some(reply) => [reply])
               else RepliesTo(s'.replies, n) == RepliesTo(s.replies, n)
                    && (n in s'.running <==> n in s.running) && (n in s.running ==> s'.running[n] == s.running[n])
  {
    if call in s.running {
      var reply := EndReply(s.running[call].id, end);
      if reply.Some? { RepliesToAppended(s.replies, call, reply.value, n); }
    }
  }

  lemma FinishAccounts(front: seq<Event>, last: Event, n: nat)
    requires last.Finish? && Accounted(front, n)
    ensures Accounted(front + [last], n)
  {
    hide Dispatch, Run, MessageAt, FinishStep, RepliesTo;
    RunAppend(front, last);
    MessageAppend(front, last, n);
    FinishSettles(Run(front), last.call, last.end, n);
  }

  lemma CloseAccounts(front: seq<Event>, last: Event, n: nat)
    requires last.CloseInput? && Accounted(front, n)
    ensures Accounted(front + [last], n)
  {
    hide Dispatch, Run, MessageAt, RepliesTo;
    RunAppend(front, last);
    MessageAppend(front, last, n);
  }

  // ---- what JSON-RPC 2.0 asks for ----

  predicate WellFormedRequest(line: Line) {
    line.Parsed? && line.message.Obj? && Field(line.message.fields, "jsonrpc") == Some(Str("2.0"))
  }

  function RawId(line: Line): Option<Json>
    requires WellFormedRequest(line)
  {
    Field(line.message.fields, "id")
  }

  function MethodName(line: Line): Option<string>
    requires WellFormedRequest(line)
  {
    var raw := Field(line.message.fields, "method");
    if raw.Some? && raw.value.Str? then Some(raw.value.text) else None
  }

  lemma NotificationIsNotAnswered(line: Line, argumentsOk: bool, initializeOk: bool)
    requires WellFormedRequest(line) && RawId(line) == None
    ensures var (handled, id) := Dispatch(line, argumentsOk, initializeOk); id == None && !handled.Replies?
  {
    hide Field;
  }

  lemma RequestIsAnsweredOrStarted(line: Line, argumentsOk: bool, initializeOk: bool, id: Id)
    requires WellFormedRequest(line) && RawId(line).Some? && IdOf(RawId(line).value) == Some(id) && MethodName(line).Some?
    requires MethodName(line).value != "notifications/cancelled" && MethodName(line).value != "notifications/initialized"
    ensures var (handled, id') := Dispatch(line, argumentsOk, initializeOk);
            id' == Some(id) && ((handled.Replies? && handled.reply.id == Some(id)) || handled.StartsTool?)
  {
    hide Field, IdOf;
  }

  /** A notification never gets a reply (section 4.1 of the JSON-RPC 2.0 Specification), whatever its method, its
      parameters and the end of the call it may start. */
  lemma NotificationsGetNoReply(events: seq<Event>, n: nat)
    requires MessageAt(events, n).Some? && MessageAt(events, n).value.Receive?
    requires WellFormedRequest(MessageAt(events, n).value.line) && RawId(MessageAt(events, n).value.line) == None
    ensures RepliesTo(Run(events).replies, n) == []
  {
    hide Dispatch, Run, MessageAt, RepliesTo, WellFormedRequest, RawId;
    EveryMessageAccounted(events, n);
    var e := MessageAt(events, n).value;
    NotificationIsNotAnswered(e.line, e.argumentsOk, e.initializeOk);
  }

  /** A request with a valid id and a string method gets exactly one reply, which carries that id, as soon as no call of
      its own is running, unless its method is one of the two notifications. */
  lemma RequestsGetOneReply(events: seq<Event>, n: nat, id: Id)
    requires MessageAt(events, n).Some? && MessageAt(events, n).value.Receive?
    requires var line := MessageAt(events, n).value.line;
             && WellFormedRequest(line) && RawId(line).Some? && IdOf(RawId(line).value) == Some(id) && MethodName(line).Some?
             && MethodName(line).value != "notifications/cancelled" && MethodName(line).value != "notifications/initialized"
    ensures var replies := RepliesTo(Run(events).replies, n);
            if n in Run(events).running then replies == [] else |replies| == 1 && replies[0].id == Some(id)
  {
    hide Dispatch, Run, MessageAt, RepliesTo, WellFormedRequest, RawId, MethodName, IdOf;
    EveryMessageAccounted(events, n);
    var e := MessageAt(events, n).value;
    RequestIsAnsweredOrStarted(e.line, e.argumentsOk, e.initializeOk, id);
  }
}
