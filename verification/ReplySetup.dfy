/** One poll while a live run awaits its reply: owner cards are watched and never answered, and the isolated fixture's own
    folder-trust card is answered once. Everything the server says in a poll is an input. */
module ReplySetup {
  import opened Outcomes

  /** A text cell that is missing or empty takes the same branch. `problems` is what the folder-trust inspection found. */
  datatype Card = Card(requestId: string, answered: string, dismissed: bool, expired: bool, isTool: bool, folderTrust: bool, problems: seq<string>)
  datatype Message = Message(id: string, card: Option<Card>)
  datatype ChannelRun = ChannelRun(id: string, platform: string, botId: string, status: string, threadId: string)

  /** `taskInstance` is the engine the run's task is pinned to, when there is such a task; `accepts` tells which
      folder-trust responses the server takes. */
  datatype Server = Server(
    routinesOk: bool, runs: seq<ChannelRun>, taskInstance: Option<string>, messagesOk: bool, messages: seq<Message>, accepts: set<string>)

  datatype Fixture = Fixture(platform: string, chiefId: string, beforeRuns: set<string>, instanceId: string)

  datatype OwnerAction = OwnerAction(requestId: string, runId: string, threadId: string, messageId: string, settled: bool)

  datatype Stop =
    | NoRoutines | ManyRuns | ForeignRun | RunEnded | WrongEngine | NoMessages | ActionVanished | ActionLapsed | UnknownDecision
    | BadIdentity | IdentityReused | TrustRefused | TrustStillPending | TrustNotAccepted

  datatype Outcome = Waiting(forOwner: bool) | Stopped(stop: Stop)

  /** The state shared by every poll: the answered folder-trust requests, the owner actions in the order they were seen,
      and the responses posted so far. */
  datatype Watch = Watch(handled: set<string>, actions: seq<OwnerAction>, posted: seq<string>)

  // ---- what a poll looks at ----

  function CurrentRuns(fx: Fixture, runs: seq<ChannelRun>): seq<ChannelRun> {
    if runs == [] then []
    else (if runs[0].platform == fx.platform && runs[0].id !in fx.beforeRuns then [runs[0]] else []) + CurrentRuns(fx, runs[1..])
  }

  predicate Unsettled(actions: seq<OwnerAction>, runId: string) {
    exists i :: 0 <= i < |actions| && actions[i].runId == runId && !actions[i].settled
  }

  predicate IsPending(m: Message) {
    m.card.Some? && m.card.value.requestId != "" && m.card.value.answered == "" && !m.card.value.dismissed && !m.card.value.expired
  }

  function Pending(messages: seq<Message>): seq<Message> {
    if messages == [] then [] else (if IsPending(messages[0]) then [messages[0]] else []) + Pending(messages[1..])
  }

  function FindCard(messages: seq<Message>, messageId: string, requestId: string): Option<Card> {
    if messages == [] then None
    else if messages[0].id == messageId && messages[0].card.Some? && messages[0].card.value.requestId == requestId then messages[0].card
    else FindCard(messages[1..], messageId, requestId)
  }

  function FindAction(actions: seq<OwnerAction>, requestId: string): Option<OwnerAction> {
    if actions == [] then None else if actions[0].requestId == requestId then Some(actions[0]) else FindAction(actions[1..], requestId)
  }

  predicate IdentityChar(c: char) {
    'A' <= c <= 'Z' || 'a' <= c <= 'z' || '0' <= c <= '9' || c == '_' || c == '.' || c == ':' || c == '-'
  }

  predicate ValidIdentity(text: string) {
    1 <= |text| <= 128 && forall i :: 0 <= i < |text| ==> IdentityChar(text[i])
  }

  predicate Recognised(card: Card) {
    if card.isTool then card.answered == "allow" || card.answered == "deny" else card.answered == "answer" || card.answered == "skipped"
  }

  // ---- one poll, as a function of the shared state ----

  /** The run a poll inspects, a stop, or nothing to inspect yet. */
  datatype Inspection = Inspect(run: ChannelRun) | NotYet | Refuse(stop: Stop)

  function Inspected(fx: Fixture, sv: Server, actions: seq<OwnerAction>): Inspection {
    var current := CurrentRuns(fx, sv.runs);
    if !sv.routinesOk then Refuse(NoRoutines)
    else if |current| > 1 then Refuse(ManyRuns)
    else if current == [] then NotYet
    else
      var run := current[0];
      if run.botId != fx.chiefId then Refuse(ForeignRun)
      else if run.status == "failed" || run.status == "cancelled" || run.status == "interrupted" then Refuse(RunEnded)
      else if run.threadId == "" then NotYet
      else if run.status == "completed" && !Unsettled(actions, run.id) then NotYet
      else if sv.taskInstance != Some(fx.instanceId) then Refuse(WrongEngine)
      else if !sv.messagesOk then Refuse(NoMessages)
      else Inspect(run)
  }

  function SettleOne(action: OwnerAction, run: ChannelRun, messages: seq<Message>): (OwnerAction, Option<Stop>) {
    if action.runId != run.id || action.settled then (action, None)
    else
      var card := FindCard(messages, action.messageId, action.requestId);
      if card.None? || action.threadId != run.threadId then (action, Some(ActionVanished))
      else if card.value.expired || card.value.dismissed then (action, Some(ActionLapsed))
      else if card.value.answered == "" then (action, None)
      else if !Recognised(card.value) then (action, Some(UnknownDecision))
      else (action.(settled := true), None)
  }

  function SettleAll(actions: seq<OwnerAction>, run: ChannelRun, messages: seq<Message>): (seq<OwnerAction>, Option<Stop>) {
    if actions == [] then ([], None)
    else
      var (first, stop) := SettleOne(actions[0], run, messages);
      if stop.Some? then (actions, stop)
      else
        var (rest, stop') := SettleAll(actions[1..], run, messages);
        ([first] + rest, stop')
  }

  function WatchCard(w: Watch, run: ChannelRun, m: Message, accepts: set<string>): (Watch, Option<Stop>)
    requires m.card.Some?
  {
    var id := m.card.value.requestId;
    if !m.card.value.folderTrust then
      var seen := FindAction(w.actions, id);
      if !ValidIdentity(run.id) || !ValidIdentity(run.threadId) || !ValidIdentity(m.id) || !ValidIdentity(id) then (w, Some(BadIdentity))
      else if seen.Some? && (seen.value.runId != run.id || seen.value.threadId != run.threadId || seen.value.messageId != m.id || seen.value.settled)
      then (w, Some(IdentityReused))
      else if seen.Some? then (w, None)
      else (w.(actions := w.actions + [OwnerAction(id, run.id, run.threadId, m.id, false)]), None)
    else if m.card.value.problems != [] then (w, Some(TrustRefused))
    else if id in w.handled then (w, Some(TrustStillPending))
    else (w.(handled := w.handled + {id}, posted := w.posted + [id]), if id in accepts then None else Some(TrustNotAccepted))
  }

  function WatchAll(w: Watch, run: ChannelRun, pending: seq<Message>, accepts: set<string>, waiting: bool): (Watch, Outcome)
    requires forall m :: m in pending ==> m.card.Some?
    decreases |pending|
  {
    if pending == [] then (w, Waiting(waiting))
    else
      var (w', stop) := WatchCard(w, run, pending[0], accepts);
      if stop.Some? then (w', Stopped(stop.value))
      else WatchAll(w', run, pending[1..], accepts, waiting || !pending[0].card.value.folderTrust)
  }

  lemma {:induction false} PendingAreCards(messages: seq<Message>)
    ensures forall m :: m in Pending(messages) <==> m in messages && IsPending(m)
  {
    if messages != [] { PendingAreCards(messages[1..]); }
  }

  function Poll(fx: Fixture, sv: Server, w: Watch): (Watch, Outcome) {
    match Inspected(fx, sv, w.actions)
    case Refuse(stop) => (w, Stopped(stop))
    case NotYet => (w, Waiting(false))
    case Inspect(run) =>
      var (actions, stop) := SettleAll(w.actions, run, sv.messages);
      var w' := w.(actions := actions);
      if stop.Some? then (w', Stopped(stop.value))
      else
        PendingAreCards(sv.messages);
        WatchAll(w', run, Pending(sv.messages), sv.accepts, false)
  }

  /** The state after a sequence of polls, whatever each of them answered. The polls of every reply of a live run share
      it, while the fixture changes from reply to reply: each has its own set of earlier runs. */
  function Polls(polls: seq<(Fixture, Server)>): Watch {
    if polls == [] then Watch({}, [], [])
    else Poll(polls[|polls| - 1].0, polls[|polls| - 1].1, Polls(polls[..|polls| - 1])).0
  }

  /** Settling stops at the first action that refuses, with the ones before it settled and the rest untouched. */
  lemma {:induction false} SettleAllAt(actions: seq<OwnerAction>, run: ChannelRun, messages: seq<Message>, k: nat, after: seq<OwnerAction>)
    requires k <= |actions| == |after|
    requires forall i :: 0 <= i < k ==> SettleOne(actions[i], run, messages) == (after[i], None)
    requires forall i :: k <= i < |actions| ==> after[i] == actions[i]
    requires k < |actions| ==> SettleOne(actions[k], run, messages).1.Some?
    ensures SettleAll(actions, run, messages) == (after, if k < |actions| then SettleOne(actions[k], run, messages).1 else None)
  {
    hide SettleOne;
    if k == 0 {
      assert after == actions;
    } else {
      SettleAllAt(actions[1..], run, messages, k - 1, after[1..]);
      assert after == [after[0]] + after[1..];
    }
  }

  // ---- one poll, as the program runs it ----

  class Watcher {
    var handled: set<string>
    var actions: seq<OwnerAction>
    var posted: seq<string>

    constructor ()
      ensures State() == Watch({}, [], [])
    {
      handled, actions, posted := {}, [], [];
    }

    function State(): Watch
      reads this
    {
      Watch(handled, actions, posted)
    }

    method SettleObserved(run: ChannelRun, messages: seq<Message>) returns (stop: Option<Stop>)
      modifies this`actions
      ensures (actions, stop) == SettleAll(old(actions), run, messages)
    {
      hide SettleOne, SettleAll;
      ghost var before := actions;
      for i := 0 to |actions|
        invariant |actions| == |before|
        invariant forall j :: 0 <= j < i ==> SettleOne(before[j], run, messages) == (actions[j], None)
        invariant forall j :: i <= j < |before| ==> actions[j] == before[j]
      {
        var (action, refused) := SettleOne(actions[i], run, messages);
        if refused.Some? {
          SettleAllAt(before, run, messages, i, actions);
          return refused;
        }
        actions := actions[i := action];
      }
      SettleAllAt(before, run, messages, |before|, actions);
      stop := None;
    }

    method WatchPending(run: ChannelRun, pending: seq<Message>, accepts: set<string>) returns (outcome: Outcome)
      requires forall m :: m in pending ==> m.card.Some?
      modifies this
      ensures (State(), outcome) == WatchAll(old(State()), run, pending, accepts, false)
    {
      hide ValidIdentity;
      var waiting := false;
      for i := 0 to |pending|
        invariant WatchAll(old(State()), run, pending, accepts, false) == WatchAll(State(), run, pending[i..], accepts, waiting)
      {
        var m := pending[i];
        var card := m.card.value;
        assert pending[i..][1..] == pending[i + 1..];
        if !card.folderTrust {
          if !ValidIdentity(run.id) || !ValidIdentity(run.threadId) || !ValidIdentity(m.id) || !ValidIdentity(card.requestId) { return Stopped(BadIdentity); }
          var seen := FindAction(actions, card.requestId);
          if seen.Some? && (seen.value.runId != run.id || seen.value.threadId != run.threadId || seen.value.messageId != m.id || seen.value.settled) {
            return Stopped(IdentityReused);
          }
          if seen.None? { actions := actions + [OwnerAction(card.requestId, run.id, run.threadId, m.id, false)]; }
          waiting := true;
        } else {
          if card.problems != [] { return Stopped(TrustRefused); }
          if card.requestId in handled { return Stopped(TrustStillPending); }
          handled := handled + {card.requestId};
          posted := posted + [card.requestId];
          if card.requestId !in accepts { return Stopped(TrustNotAccepted); }
        }
      }
      outcome := Waiting(waiting);
    }

    method HandleFixtureReplySetup(fx: Fixture, sv: Server) returns (outcome: Outcome)
      modifies this
      ensures (State(), outcome) == Poll(fx, sv, old(State()))
    {
      if !sv.routinesOk { return Stopped(NoRoutines); }
      var current := CurrentRuns(fx, sv.runs);
      if |current| > 1 { return Stopped(ManyRuns); }
      if |current| == 0 { return Waiting(false); }
      var run := current[0];
      if run.botId != fx.chiefId { return Stopped(ForeignRun); }
      if run.status == "failed" || run.status == "cancelled" || run.status == "interrupted" { return Stopped(RunEnded); }
      if run.threadId == "" { return Waiting(false); }
      if run.status == "completed" && !Unsettled(actions, run.id) { return Waiting(false); }
      if sv.taskInstance != Some(fx.instanceId) { return Stopped(WrongEngine); }
      if !sv.messagesOk { return Stopped(NoMessages); }
      assert Inspected(fx, sv, actions) == Inspect(run);
      var stop := SettleObserved(run, sv.messages);
      if stop.Some? { return Stopped(stop.value); }
      PendingAreCards(sv.messages);
      outcome := WatchPending(run, Pending(sv.messages), sv.accepts);
    }
  }

  // ---- what one poll may do ----

  /** The owner actions a poll leaves: the ones it found, in order and with their identity, none of them unsettled
      again, and after them new ones. */
  ghost predicate Keeps(before: seq<OwnerAction>, after: seq<OwnerAction>) {
    && |before| <= |after|
    && (forall i :: 0 <= i < |before| ==> after[i] == before[i].(settled := after[i].settled) && (before[i].settled ==> after[i].settled))
  }

  /** The card with this identity among the messages, answered by the owner with a decision the runner knows. */
  ghost predicate Decided(messages: seq<Message>, a: OwnerAction) {
    exists m :: m in messages && m.id == a.messageId && m.card.Some? && m.card.value.requestId == a.requestId
                && Recognised(m.card.value) && !m.card.value.expired && !m.card.value.dismissed
  }

  ghost predicate SeenPending(messages: seq<Message>, run: ChannelRun, a: OwnerAction) {
    && a.runId == run.id && a.threadId == run.threadId
    && exists m :: m in messages && IsPending(m) && m.id == a.messageId && m.card.value.requestId == a.requestId && !m.card.value.folderTrust
  }

  /** A folder-trust card without problems, pending in these messages. */
  ghost predicate TrustedCard(messages: seq<Message>, requestId: string) {
    exists m :: m in messages && IsPending(m) && m.card.value.folderTrust && m.card.value.problems == [] && m.card.value.requestId == requestId
  }

  lemma {:induction false} FindCardFinds(messages: seq<Message>, messageId: string, requestId: string)
    ensures var card := FindCard(messages, messageId, requestId);
            card.Some? ==> card.value.requestId == requestId
                           && exists m :: m in messages && m.id == messageId && m.card == card
  {
    if messages != [] {
      FindCardFinds(messages[1..], messageId, requestId);
      if messages[0].id == messageId && messages[0].card.Some? && messages[0].card.value.requestId == requestId {
        assert messages[0] in messages;
      }
    }
  }

  /** Settling changes only actions of this run and thread whose own card carries a recognised decision. */
  lemma {:induction false} SettlingIsEarned(actions: seq<OwnerAction>, run: ChannelRun, messages: seq<Message>)
    ensures var after := SettleAll(actions, run, messages).0;
            && |after| == |actions|
            && forall i :: 0 <= i < |actions| ==>
                 after[i] == actions[i]
                 || (!actions[i].settled && after[i] == actions[i].(settled := true)
                     && actions[i].runId == run.id && actions[i].threadId == run.threadId && Decided(messages, actions[i]))
  {
    if actions != [] {
      hide Recognised;
      SettlingIsEarned(actions[1..], run, messages);
      FindCardFinds(messages, actions[0].messageId, actions[0].requestId);
      var (first, stop) := SettleOne(actions[0], run, messages);
      if stop.None? && first != actions[0] {
        var card := FindCard(messages, actions[0].messageId, actions[0].requestId);
        assert card.Some? && Recognised(card.value);
        assert Decided(messages, actions[0]);
      }
    }
  }

  /** What walking the pending cards leaves behind, from any starting state. */
  ghost predicate Walked(w: Watch, w': Watch, run: ChannelRun, messages: seq<Message>) {
    && w.actions <= w'.actions
    && (forall i :: |w.actions| <= i < |w'.actions| ==> !w'.actions[i].settled && SeenPending(messages, run, w'.actions[i]))
    && w.posted <= w'.posted
    && (forall i :: |w.posted| <= i < |w'.posted| ==> TrustedCard(messages, w'.posted[i]) && w'.posted[i] !in w.handled)
    && (forall i, j :: |w.posted| <= i < j < |w'.posted| ==> w'.posted[i] != w'.posted[j])
    && w'.handled == w.handled + set i | |w.posted| <= i < |w'.posted| :: w'.posted[i]
  }

  lemma WatchCardWalks(w: Watch, run: ChannelRun, m: Message, accepts: set<string>, messages: seq<Message>)
    requires m in messages && IsPending(m)
    ensures Walked(w, WatchCard(w, run, m, accepts).0, run, messages)
  {
    hide ValidIdentity;
    var w' := WatchCard(w, run, m, accepts).0;
    if w'.actions != w.actions { assert SeenPending(messages, run, w'.actions[|w.actions|]); }
    if w'.posted != w.posted { assert TrustedCard(messages, w'.posted[|w.posted|]); }
  }

  lemma WalksCompose(a: Watch, b: Watch, c: Watch, run: ChannelRun, messages: seq<Message>)
    requires Walked(a, b, run, messages) && Walked(b, c, run, messages)
    ensures Walked(a, c, run, messages)
  {
    hide SeenPending, TrustedCard;
    forall i | |a.actions| <= i < |c.actions| ensures !c.actions[i].settled && SeenPending(messages, run, c.actions[i]) {
      if i < |b.actions| { assert c.actions[i] == b.actions[i]; }
    }
    forall i | |a.posted| <= i < |c.posted| ensures TrustedCard(messages, c.posted[i]) && c.posted[i] !in a.handled {
      if i < |b.posted| { assert c.posted[i] == b.posted[i]; }
    }
    forall i, j | |a.posted| <= i < j < |c.posted| ensures c.posted[i] != c.posted[j] {
      if i < |b.posted| {
        assert c.posted[i] == b.posted[i];
        if j < |b.posted| { assert c.posted[j] == b.posted[j]; } else { assert b.posted[i] in b.handled; }
      }
    }
    assert forall i :: |a.posted| <= i < |b.posted| ==> b.posted[i] == c.posted[i];
  }

  lemma {:induction false} WatchAllWalks(w: Watch, run: ChannelRun, pending: seq<Message>, accepts: set<string>, waiting: bool, messages: seq<Message>)
    requires forall m :: m in pending ==> m.card.Some?
    requires forall m :: m in pending ==> m in messages && IsPending(m)
    ensures var (w', outcome) := WatchAll(w, run, pending, accepts, waiting);
            && Walked(w, w', run, messages)
            && (outcome.Waiting? ==> (outcome.forOwner <==> waiting || exists m :: m in pending && !m.card.value.folderTrust))
    decreases |pending|
  {
    hide WatchCard, Walked;
    if pending == [] {
      assert Walked(w, w, run, messages) by { StayingWalks(w, run, messages); }
    } else {
      var (w', stop) := WatchCard(w, run, pending[0], accepts);
      WatchCardWalks(w, run, pending[0], accepts, messages);
      if stop.None? {
        WatchAllWalks(w', run, pending[1..], accepts, waiting || !pending[0].card.value.folderTrust, messages);
        WalksCompose(w, w', WatchAll(w', run, pending[1..], accepts, waiting || !pending[0].card.value.folderTrust).0, run, messages);
        assert pending == [pending[0]] + pending[1..];
      }
    }
  }

  lemma StayingWalks(w: Watch, run: ChannelRun, messages: seq<Message>)
    ensures Walked(w, w, run, messages)
  {
  }

  /** One poll: which cards it answers, which owner actions it adds or settles, and when it says it waits. */
  lemma PollEffect(fx: Fixture, sv: Server, w: Watch)
    ensures var (w', outcome) := Poll(fx, sv, w);
            && Keeps(w.actions, w'.actions)
            && w.posted <= w'.posted
            && (forall i :: |w.posted| <= i < |w'.posted| ==> TrustedCard(sv.messages, w'.posted[i]) && w'.posted[i] !in w.handled)
            && (forall i, j :: |w.posted| <= i < j < |w'.posted| ==> w'.posted[i] != w'.posted[j])
            && w'.handled == w.handled + (set i | |w.posted| <= i < |w'.posted| :: w'.posted[i])
            && (w' != w ==> Inspected(fx, sv, w.actions).Inspect?)
  {
    hide Inspected, WatchAll, Pending, SettleAll, TrustedCard, SeenPending, Decided, IsPending;
    if Inspected(fx, sv, w.actions).Inspect? {
      var run := Inspected(fx, sv, w.actions).run;
      SettlingIsEarned(w.actions, run, sv.messages);
      PendingAreCards(sv.messages);
      var (actions, stop) := SettleAll(w.actions, run, sv.messages);
      if stop.None? {
        assert forall m :: m in Pending(sv.messages) ==> m.card.Some? by { PendingHaveCards(sv.messages); }
        WatchAllWalks(w.(actions := actions), run, Pending(sv.messages), sv.accepts, false, sv.messages);
      }
    }
  }

  lemma PendingHaveCards(messages: seq<Message>)
    ensures forall m :: m in Pending(messages) ==> m.card.Some?
  {
    PendingAreCards(messages);
  }

  /** An action a poll newly settles was already being watched, belongs to the run and thread the poll inspects, and its
      own card carries a decision the runner knows. An action it newly watches is a pending card of that run. */
  lemma SettledOnlyByItsOwner(fx: Fixture, sv: Server, w: Watch, i: nat)
    requires i < |Poll(fx, sv, w).0.actions|
    ensures var after := Poll(fx, sv, w).0.actions;
            var inspected := Inspected(fx, sv, w.actions);
            && (i < |w.actions| && after[i].settled && !w.actions[i].settled ==>
                  inspected.Inspect? && after[i].runId == inspected.run.id && after[i].threadId == inspected.run.threadId
                  && Decided(sv.messages, w.actions[i]))
            && (i >= |w.actions| ==> !after[i].settled && inspected.Inspect? && SeenPending(sv.messages, inspected.run, after[i]))
  {
    hide Inspected, WatchAll, Pending, SettleAll, TrustedCard, SeenPending, Decided, IsPending;
    if Inspected(fx, sv, w.actions).Inspect? {
      var run := Inspected(fx, sv, w.actions).run;
      SettlingIsEarned(w.actions, run, sv.messages);
      PendingAreCards(sv.messages);
      var (actions, stop) := SettleAll(w.actions, run, sv.messages);
      if stop.None? {
        PendingHaveCards(sv.messages);
        WatchAllWalks(w.(actions := actions), run, Pending(sv.messages), sv.accepts, false, sv.messages);
      }
    }
  }

  /** A poll that inspects a run with a pending owner card reports waiting or stops; and it reports waiting only then. */
  lemma PendingOwnerCardWaits(fx: Fixture, sv: Server, w: Watch)
    requires Inspected(fx, sv, w.actions).Inspect? && Poll(fx, sv, w).1.Waiting?
    ensures Poll(fx, sv, w).1.forOwner <==> exists m :: m in sv.messages && IsPending(m) && !m.card.value.folderTrust
  {
    hide Inspected, WatchAll, Pending, SettleAll, Walked;
    var run := Inspected(fx, sv, w.actions).run;
    PendingAreCards(sv.messages);
    PendingHaveCards(sv.messages);
    var (actions, stop) := SettleAll(w.actions, run, sv.messages);
    if stop.None? { WatchAllWalks(w.(actions := actions), run, Pending(sv.messages), sv.accepts, false, sv.messages); }
  }

  // ---- any sequence of polls, across replies ----

  /** No folder-trust request is ever answered twice, and nothing is answered but what is marked as handled. */
  lemma {:induction false} AnsweredAtMostOnce(polls: seq<(Fixture, Server)>)
    ensures var w := Polls(polls);
            && (forall i, j :: 0 <= i < j < |w.posted| ==> w.posted[i] != w.posted[j])
            && w.handled == set i | 0 <= i < |w.posted| :: w.posted[i]
  {
    if polls != [] {
      hide Poll, TrustedCard, Keeps;
      var front, last := polls[..|polls| - 1], polls[|polls| - 1];
      AnsweredAtMostOnce(front);
      var w := Polls(front);
      PollEffect(last.0, last.1, w);
      var w' := Poll(last.0, last.1, w).0;
      forall i, j | 0 <= i < j < |w'.posted| ensures w'.posted[i] != w'.posted[j] {
        if i < |w.posted| { assert w'.posted[i] == w.posted[i] && w.posted[i] in w.handled; }
        if j < |w.posted| { assert w'.posted[j] == w.posted[j]; }
      }
      assert forall i :: 0 <= i < |w.posted| ==> w'.posted[i] == w.posted[i];
    }
  }

  /** Whatever was ever answered was, in some poll, a pending folder-trust card with nothing wrong about it. */
  lemma {:induction false} OnlyTrustIsAnswered(polls: seq<(Fixture, Server)>, i: nat)
    requires i < |Polls(polls).posted|
    ensures exists n :: 0 <= n < |polls| && TrustedCard(polls[n].1.messages, Polls(polls).posted[i])
  {
    if polls != [] {
      hide Poll, TrustedCard, Keeps;
      var front, last := polls[..|polls| - 1], polls[|polls| - 1];
      PollEffect(last.0, last.1, Polls(front));
      if i < |Polls(front).posted| {
        OnlyTrustIsAnswered(front, i);
        var n :| 0 <= n < |front| && TrustedCard(front[n].1.messages, Polls(front).posted[i]);
        assert polls[n] == front[n];
      } else {
        assert TrustedCard(polls[|polls| - 1].1.messages, Polls(polls).posted[i]);
      }
    }
  }

  /** Over any continuation, a watched action keeps its identity and never stops being settled. */
  lemma {:induction false} SettledNeverReverts(polls: seq<(Fixture, Server)>, n: nat)
    requires n <= |polls|
    ensures Keeps(Polls(polls[..n]).actions, Polls(polls).actions)
  {
    hide Poll;
    if n == |polls| {
      assert polls[..n] == polls;
    } else {
      var front, last := polls[..|polls| - 1], polls[|polls| - 1];
      SettledNeverReverts(front, n);
      assert front[..n] == polls[..n];
      PollEffect(last.0, last.1, Polls(front));
    }
  }

  /** The n-th poll inspects the action's own run and thread. */
  ghost predicate InspectsIts(polls: seq<(Fixture, Server)>, n: nat, a: OwnerAction)
    requires n < |polls|
  {
    var inspected := Inspected(polls[n].0, polls[n].1, Polls(polls[..n]).actions);
    inspected.Inspect? && inspected.run.id == a.runId && inspected.run.threadId == a.threadId
  }

  /** Every watched action was a pending owner card of its own run, thread and message in some poll `seen`; when it is
      settled, its own card carried the owner's decision in a later poll `decided` of that run and thread. */
  lemma {:induction false} SettledAfterPending(polls: seq<(Fixture, Server)>, i: nat) returns (seen: nat, run: ChannelRun, decided: nat)
    requires i < |Polls(polls).actions|
    ensures var a := Polls(polls).actions[i];
            && seen < |polls| && SeenPending(polls[seen].1.messages, run, a) && InspectsIts(polls, seen, a)
            && (a.settled ==> seen < decided < |polls| && Decided(polls[decided].1.messages, a) && InspectsIts(polls, decided, a))
  {
    hide Poll, Inspected, IsPending, Recognised, TrustedCard;
    var n := |polls| - 1;
    var front, last := polls[..n], polls[n];
    var w := Polls(front);
    PollEffect(last.0, last.1, w);
    SettledOnlyByItsOwner(last.0, last.1, w, i);
    if i < |w.actions| {
      seen, run, decided := SettledAfterPending(front, i);
      assert polls[seen] == front[seen] && polls[..seen] == front[..seen];
      if w.actions[i].settled { assert polls[decided] == front[decided] && polls[..decided] == front[..decided]; } else { decided := n; }
    } else {
      seen, run, decided := n, Inspected(last.0, last.1, w.actions).run, n;
    }
  }
}
