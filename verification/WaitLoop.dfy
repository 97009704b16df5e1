/** `wait_for_conversation`: poll a bot or a channel until its conversation ends, needs its user, or times out. The fleet
    snapshots, message tails and clock readings of every poll are inputs. */
module WaitLoop {
  import opened Outcomes
  import opened Texts

  // ---- what a poll reads ----

  datatype Card = Card(requestId: string, answered: bool, dismissed: bool)
  datatype Connector = Connector(connected: bool, dismissed: bool, resumed: bool)
  datatype Secret = Secret(provided: bool, dismissed: bool)

  /** `ok` is `None` unless the tool reported a boolean. */
  datatype ToolNote = ToolNote(name: string, ok: Option<bool>)

  datatype Message = Message(
    role: string, kind: string, text: string,
    card: Option<Card>, connector: Option<Connector>, secret: Option<Secret>, tool: Option<ToolNote>)

  datatype Activity = WaitingOnYou | Dead | NoSignal | OtherActivity

  /** `tasks` are the owner's tasks, listed or confirmed when asked for by id. */
  datatype Bot = Bot(id: string, threadId: string, busy: bool, activity: Activity, tasks: set<string>)

  /** `working` is `None` on servers without the field, `busyBotId` is "" when no bot is busy. */
  datatype Channel = Channel(id: string, threadId: string, working: Option<bool>, busyBotId: string, tasks: set<string>)

  datatype Fleet = Fleet(bots: seq<Bot>, groups: seq<Channel>)

  /** One poll: the snapshot, the tail read while deciding, the tail read when answering, the clock as the grace check,
      the deadline check and the sleep read it, and whether the sleep was cut short by a cancel. */
  datatype Poll = Poll(
    fleet: Fleet, tail: seq<Message>, finalTail: seq<Message>,
    graceCheck: int, deadlineCheck: int, sleepStart: int, cancelled: bool)

  datatype Target = WaitOnBot | WaitOnChannel

  datatype Status = Settled | Failed | NeedsUser | Stalled | TimedOut

  datatype WaitError = TargetNotFound | NotItsTask | BusyInChannel | Cancelled

  // ---- messages ----

  predicate NeedsInput(m: Message) {
    || (m.card.Some? && m.card.value.requestId != "" && !m.card.value.answered && !m.card.value.dismissed)
    || (m.connector.Some? && !m.connector.value.dismissed && !m.connector.value.resumed && !m.connector.value.connected)
    || (m.secret.Some? && !m.secret.value.provided && !m.secret.value.dismissed)
  }

  predicate HasOpenCard(tail: seq<Message>) {
    exists i :: 0 <= i < |tail| && NeedsInput(tail[i])
  }

  predicate SpeaksText(m: Message) {
    m.role == "bot" && m.kind == "text" && Trim(m.text) != ""
  }

  predicate ReportsError(m: Message) {
    m.kind == "activity" && m.tool.Some? && m.tool.value.ok == Some(false) && MatchesAt(Trim(m.tool.value.name), 0, "error:")
  }

  /** After the last user message (or from the start, when there is none). */
  predicate InLatestTurn(tail: seq<Message>, i: nat)
    requires i < |tail|
  {
    forall j :: i <= j < |tail| ==> tail[j].role != "user"
  }

  predicate DispatchFailed(tail: seq<Message>) {
    && (exists i :: 0 <= i < |tail| && InLatestTurn(tail, i) && ReportsError(tail[i]))
    && (forall i :: 0 <= i < |tail| && InLatestTurn(tail, i) ==> !SpeaksText(tail[i]))
  }

  method DispatchFailedAfterLatestUser(messages: seq<Message>) returns (failed: bool)
    ensures failed <==> DispatchFailed(messages)
  {
    hide SpeaksText, ReportsError;
    var first := |messages|;
    while first > 0 && messages[first - 1].role != "user"
      invariant 0 <= first <= |messages|
      invariant forall j :: first <= j < |messages| ==> messages[j].role != "user"
    {
      first := first - 1;
    }
    assert forall i :: 0 <= i < |messages| ==> (InLatestTurn(messages, i) <==> first <= i);
    failed := false;
    for i := first to |messages|
      invariant failed <==> exists j :: first <= j < i && ReportsError(messages[j])
      invariant forall j :: first <= j < i ==> !SpeaksText(messages[j])
    {
      if SpeaksText(messages[i]) {
        assert InLatestTurn(messages, i);
        return false;
      }
      if ReportsError(messages[i]) { failed := true; }
    }
  }

  /** What is answered once the wait has decided on `base`. */
  function FinalStatus(base: Status, tail: seq<Message>): Status {
    if HasOpenCard(tail) then NeedsUser
    else if base == Settled && DispatchFailed(tail) then Failed
    else base
  }

  // ---- snapshots ----

  function FindBot(bots: seq<Bot>, id: string): Option<Bot> {
    if bots == [] then None else if bots[0].id == id then Some(bots[0]) else FindBot(bots[1..], id)
  }

  function FindChannel(groups: seq<Channel>, id: string): Option<Channel> {
    if groups == [] then None else if groups[0].id == id then Some(groups[0]) else FindChannel(groups[1..], id)
  }

  predicate BusyElsewhere(groups: seq<Channel>, botId: string) {
    exists i :: 0 <= i < |groups| && groups[i].busyBotId == botId
  }

  predicate IsWorking(c: Channel) {
    c.working == Some(true) || c.busyBotId != ""
  }

  function ByActivity(a: Activity): Option<Status> {
    match a
    case WaitingOnYou => Some(NeedsUser)
    case Dead => Some(Failed)
    case NoSignal => Some(Stalled)
    case OtherActivity => None
  }

  /** What one poll leads to: an answer, an error, or another poll. */
  datatype Verdict = Answer(base: Status, tail: seq<Message>) | Throw(error: WaitError) | Continue

  predicate LatestIsUsers(tail: seq<Message>) {
    tail != [] && tail[|tail| - 1].role == "user"
  }

  ghost function BotVerdict(poll: Poll, id: string, taskId: string): Verdict {
    var bot := FindBot(poll.fleet.bots, id);
    if bot.None? then Throw(TargetNotFound)
    else if bot.value.threadId != taskId && taskId !in bot.value.tasks then Throw(NotItsTask)
    else if bot.value.threadId != taskId then Answer(Settled, poll.finalTail)
    else if BusyElsewhere(poll.fleet.groups, id) then Throw(BusyInChannel)
    else if ByActivity(bot.value.activity).Some? then Answer(ByActivity(bot.value.activity).value, poll.finalTail)
    else if !bot.value.busy then Answer(Settled, poll.finalTail)
    else Continue
  }

  ghost function ChannelVerdict(poll: Poll, id: string, taskId: string, sawBusy: bool, graceDeadline: int): Verdict {
    var channel := FindChannel(poll.fleet.groups, id);
    if channel.None? then Throw(TargetNotFound)
    else if channel.value.threadId != taskId && taskId !in channel.value.tasks then Throw(NotItsTask)
    else if channel.value.threadId != taskId then Answer(Settled, poll.finalTail)
    else if HasOpenCard(poll.tail) then Answer(NeedsUser, poll.tail)
    else if IsWorking(channel.value) then
      if channel.value.busyBotId == "" then Continue
      else
        var speaker := FindBot(poll.fleet.bots, channel.value.busyBotId);
        if speaker.None? then Answer(Stalled, poll.finalTail)
        else if ByActivity(speaker.value.activity).Some? then Answer(ByActivity(speaker.value.activity).value, poll.finalTail)
        else Continue
    else if sawBusy || channel.value.working == Some(false) || !LatestIsUsers(poll.tail) || poll.graceCheck >= graceDeadline
    then Answer(Settled, poll.tail)
    else Continue
  }

  ghost predicate ActiveChannelWorks(poll: Poll, id: string) {
    FindChannel(poll.fleet.groups, id).Some? && IsWorking(FindChannel(poll.fleet.groups, id).value)
  }

  /** The channel was seen working in an earlier poll. */
  ghost predicate SawBusy(polls: nat -> Poll, n: nat, id: string) {
    exists j :: 0 <= j < n && ActiveChannelWorks(polls(j), id)
  }

  ghost function VerdictAt(polls: nat -> Poll, n: nat, target: Target, id: string, taskId: string, graceDeadline: int): Verdict {
    if target == WaitOnBot then BotVerdict(polls(n), id, taskId)
    else ChannelVerdict(polls(n), id, taskId, SawBusy(polls, n, id), graceDeadline)
  }

  // ---- the clock ----

  function Min(a: int, b: int): int {
    if a <= b then a else b
  }

  /** The clock never goes back, and a sleep lasts at least as long as it was asked to. */
  ghost predicate Clock(polls: nat -> Poll, start: int, deadline: int) {
    && start <= polls(0).graceCheck
    && (forall n: nat :: polls(n).graceCheck <= polls(n).deadlineCheck <= polls(n).sleepStart)
    && (forall n: nat :: polls(n + 1).graceCheck >=
          polls(n).sleepStart + Min(500, if deadline > polls(n).sleepStart then deadline - polls(n).sleepStart else 0))
  }

  /** The clock at the n-th deadline check: half a second further a poll, or past the deadline. */
  lemma {:induction false} PollTime(polls: nat -> Poll, start: int, deadline: int, n: nat)
    requires Clock(polls, start, deadline)
    ensures polls(n).deadlineCheck >= deadline || polls(n).deadlineCheck >= start + 500 * n
  {
    if n > 0 {
      PollTime(polls, start, deadline, n - 1);
      assert polls((n - 1) + 1).graceCheck >= polls(n - 1).sleepStart +
             Min(500, if deadline > polls(n - 1).sleepStart then deadline - polls(n - 1).sleepStart else 0);
    }
  }

  function ParsePositiveLimit(raw: Option<real>, fallback: int, maximum: int): int {
    if raw.Some? && raw.value.Floor > 0 then Min(raw.value.Floor, maximum) else fallback
  }

  // ---- the loop ----

  datatype Report = Report(status: Status, base: Status, tail: seq<Message>)

  method Conclude(base: Status, tail: seq<Message>) returns (report: Report)
    ensures report == Report(FinalStatus(base, tail), base, tail)
  {
    var failed := false;
    if base == Settled { failed := DispatchFailedAfterLatestUser(tail); }
    report := Report(if HasOpenCard(tail) then NeedsUser else if failed then Failed else base, base, tail);
  }

  method PollBot(poll: Poll, id: string, taskId: string) returns (v: Verdict)
    ensures v == BotVerdict(poll, id, taskId)
  {
    var bot := FindBot(poll.fleet.bots, id);
    if bot.None? { return Throw(TargetNotFound); }
    var target := bot.value;
    if target.threadId != taskId && taskId !in target.tasks { return Throw(NotItsTask); }
    if target.threadId != taskId { return Answer(Settled, poll.finalTail); }
    if BusyElsewhere(poll.fleet.groups, id) { return Throw(BusyInChannel); }
    if target.activity == WaitingOnYou { return Answer(NeedsUser, poll.finalTail); }
    if target.activity == Dead { return Answer(Failed, poll.finalTail); }
    if target.activity == NoSignal { return Answer(Stalled, poll.finalTail); }
    if !target.busy { return Answer(Settled, poll.finalTail); }
    v := Continue;
  }

  method PollChannel(poll: Poll, id: string, taskId: string, sawBusy: bool, graceDeadline: int) returns (v: Verdict, busy: bool)
    ensures v == ChannelVerdict(poll, id, taskId, sawBusy, graceDeadline)
    ensures v == Continue ==> (busy <==> sawBusy || ActiveChannelWorks(poll, id))
  {
    busy := sawBusy;
    var channel := FindChannel(poll.fleet.groups, id);
    if channel.None? { return Throw(TargetNotFound), busy; }
    var target := channel.value;
    if target.threadId != taskId && taskId !in target.tasks { return Throw(NotItsTask), busy; }
    if target.threadId != taskId { return Answer(Settled, poll.finalTail), busy; }
    if HasOpenCard(poll.tail) { return Answer(NeedsUser, poll.tail), busy; }
    if target.working == Some(true) || target.busyBotId != "" {
      busy := true;
      if target.busyBotId != "" {
        var speaker := FindBot(poll.fleet.bots, target.busyBotId);
        if speaker.None? { return Answer(Stalled, poll.finalTail), busy; }
        if speaker.value.activity == WaitingOnYou { return Answer(NeedsUser, poll.finalTail), busy; }
        if speaker.value.activity == Dead { return Answer(Failed, poll.finalTail), busy; }
        if speaker.value.activity == NoSignal { return Answer(Stalled, poll.finalTail), busy; }
      }
    } else {
      if busy || target.working == Some(false) || !LatestIsUsers(poll.tail) { return Answer(Settled, poll.tail), busy; }
      if poll.graceCheck >= graceDeadline { return Answer(Settled, poll.tail), busy; }
    }
    v := Continue;
  }

  /** The conversation waited on: the one asked for, or the active one of the target. */
  function TaskOf(target: Target, fleet: Fleet, id: string, taskArg: Option<string>): string {
    if taskArg.Some? then taskArg.value
    else if target == WaitOnBot then (match FindBot(fleet.bots, id) case None => "" case Some(b) => b.threadId)
    else (match FindChannel(fleet.groups, id) case None => "" case Some(c) => c.threadId)
  }

  /** Every poll before the n-th let the wait go on, with time left and no cancel. */
  ghost predicate WentOn(polls: nat -> Poll, n: nat, target: Target, id: string, taskId: string, grace: int, deadline: int) {
    forall j :: 0 <= j < n ==>
      VerdictAt(polls, j, target, id, taskId, grace) == Continue && polls(j).deadlineCheck < deadline && !polls(j).cancelled
  }

  /** What the wait answers when the n-th poll is its last. */
  ghost predicate EndsAt(polls: nat -> Poll, n: nat, target: Target, id: string, taskId: string, grace: int, deadline: int,
                         r: Result<Report, WaitError>)
  {
    match VerdictAt(polls, n, target, id, taskId, grace)
    case Answer(base, tail) => r == Ok(Report(FinalStatus(base, tail), base, tail))
    case Throw(error) => r == Err(error)
    case Continue =>
      var last := polls(n);
      if last.deadlineCheck >= deadline then r == Ok(Report(FinalStatus(TimedOut, last.finalTail), TimedOut, last.finalTail))
      else last.cancelled && r == Err(Cancelled)
  }

  /** Stops within two polls a second and one more: on the first poll that answers, throws, reaches the deadline or is
      cancelled. */
  method WaitForConversation(target: Target, id: string, taskArg: Option<string>, timeout: Option<real>,
                             start: int, graceBase: int, polls: nat -> Poll)
    returns (r: Result<Report, WaitError>, used: nat)
    requires start <= graceBase <= polls(0).graceCheck
    requires Clock(polls, start, start + ParsePositiveLimit(timeout, 30, 120) * 1000)
    ensures var seconds := ParsePositiveLimit(timeout, 30, 120);
            var deadline := start + seconds * 1000;
            var grace := Min(deadline, graceBase + 750);
            var taskId := TaskOf(target, polls(0).fleet, id, taskArg);
            && 1 <= used <= 2 * seconds + 1 <= 241
            && WentOn(polls, used - 1, target, id, taskId, grace, deadline)
            && EndsAt(polls, used - 1, target, id, taskId, grace, deadline, r)
  {
    hide BotVerdict, ChannelVerdict, FinalStatus, DispatchFailed, Clock;
    var seconds := ParsePositiveLimit(timeout, 30, 120);
    var deadline := start + seconds * 1000;
    var grace := Min(deadline, graceBase + 750);
    var taskId := TaskOf(target, polls(0).fleet, id, taskArg);
    var sawBusy := false;
    used := 1;
    while true
      invariant 1 <= used <= 2 * seconds + 1
      invariant WentOn(polls, used - 1, target, id, taskId, grace, deadline)
      invariant target == WaitOnChannel ==> (sawBusy <==> SawBusy(polls, used - 1, id))
      decreases 2 * seconds + 1 - used
    {
      var poll := polls(used - 1);
      var v: Verdict;
      if target == WaitOnBot {
        v := PollBot(poll, id, taskId);
      } else {
        v, sawBusy := PollChannel(poll, id, taskId, sawBusy, grace);
      }
      if v.Throw? { r := Err(v.error); return; }
      if v.Answer? {
        var report := Conclude(v.base, v.tail);
        r := Ok(report);
        return;
      }
      if poll.deadlineCheck >= deadline {
        var report := Conclude(TimedOut, poll.finalTail);
        r := Ok(report);
        return;
      }
      if poll.cancelled { r := Err(Cancelled); return; }
      PollTime(polls, start, deadline, used - 1);
      used := used + 1;
    }
  }

  // ---- what the answers mean ----

  ghost predicate WaitsOnUser(bots: seq<Bot>, id: string) {
    FindBot(bots, id).Some? && FindBot(bots, id).value.activity == WaitingOnYou
  }

  lemma BotWaitsOnUser(poll: Poll, id: string, taskId: string)
    ensures var v := BotVerdict(poll, id, taskId); v.Answer? && v.base == NeedsUser ==> WaitsOnUser(poll.fleet.bots, id)
  {
    hide FindBot;
  }

  lemma ChannelWaitsOnUser(poll: Poll, id: string, taskId: string, sawBusy: bool, grace: int)
    ensures var v, channel := ChannelVerdict(poll, id, taskId, sawBusy, grace), FindChannel(poll.fleet.groups, id);
            v.Answer? && v.base == NeedsUser && !HasOpenCard(v.tail) ==>
              channel.Some? && WaitsOnUser(poll.fleet.bots, channel.value.busyBotId)
  {
    hide FindBot, FindChannel, HasOpenCard, LatestIsUsers;
  }

  /** `needs-user` is answered whenever the reported tail holds an open card, and otherwise only when the bot waited on,
      or the bot speaking in the channel, is itself waiting on the user. */
  lemma {:induction false} NeedsUserMeansOpenCard(polls: nat -> Poll, n: nat, target: Target, id: string, taskId: string, grace: int, deadline: int,
                               r: Result<Report, WaitError>)
    requires EndsAt(polls, n, target, id, taskId, grace, deadline, r) && r.Ok?
    ensures HasOpenCard(r.value.tail) ==> r.value.status == NeedsUser
    ensures r.value.status == NeedsUser && !HasOpenCard(r.value.tail) ==>
              var fleet := polls(n).fleet;
              if target == WaitOnBot then WaitsOnUser(fleet.bots, id)
              else FindChannel(fleet.groups, id).Some? && WaitsOnUser(fleet.bots, FindChannel(fleet.groups, id).value.busyBotId)
  {
    hide HasOpenCard, DispatchFailed, BotVerdict, ChannelVerdict, FindBot, FindChannel, SawBusy, WaitsOnUser;
    BotWaitsOnUser(polls(n), id, taskId);
    ChannelWaitsOnUser(polls(n), id, taskId, SawBusy(polls, n, id), grace);
  }

  /** An active channel is called settled, or failed because its dispatch failed, only from a snapshot in which it is not
      working, and only when it was seen working before, says it is not, heard from someone other than the user last, or
      the 750 ms grace is over. The one other way to `failed` is a dead speaker. */
  lemma {:induction false} ChannelSettlesOnlyWhenDone(polls: nat -> Poll, n: nat, id: string, taskId: string, grace: int, deadline: int,
                                   r: Result<Report, WaitError>)
    requires EndsAt(polls, n, WaitOnChannel, id, taskId, grace, deadline, r) && r.Ok?
    ensures var channel := FindChannel(polls(n).fleet.groups, id);
            channel.Some? && channel.value.threadId == taskId && (r.value.status == Settled || r.value.status == Failed) ==>
              if r.value.base == Settled then
                && !IsWorking(channel.value) && r.value.tail == polls(n).tail && !HasOpenCard(r.value.tail)
                && (SawBusy(polls, n, id) || channel.value.working == Some(false) || !LatestIsUsers(polls(n).tail) || polls(n).graceCheck >= grace)
              else
                && r.value.status == Failed && IsWorking(channel.value)
                && FindBot(polls(n).fleet.bots, channel.value.busyBotId).Some?
                && FindBot(polls(n).fleet.bots, channel.value.busyBotId).value.activity == Dead
  {
    hide HasOpenCard, DispatchFailed, LatestIsUsers, FindBot, FindChannel, SawBusy;
  }

  /** The bot waited on, or the bot speaking in the channel waited on, is dead while its conversation is the active one. */
  ghost predicate SpeakerIsDead(poll: Poll, target: Target, id: string, taskId: string) {
    var bots, groups := poll.fleet.bots, poll.fleet.groups;
    if target == WaitOnBot then
      && FindBot(bots, id).Some? && FindBot(bots, id).value.threadId == taskId && !BusyElsewhere(groups, id)
      && FindBot(bots, id).value.activity == Dead
    else
      var channel := FindChannel(groups, id);
      && channel.Some? && channel.value.threadId == taskId && !HasOpenCard(poll.tail) && channel.value.busyBotId != ""
      && FindBot(bots, channel.value.busyBotId).Some? && FindBot(bots, channel.value.busyBotId).value.activity == Dead
  }

  lemma BotFailsWhenDead(poll: Poll, id: string, taskId: string)
    ensures var v := BotVerdict(poll, id, taskId); v.Answer? && v.base == Failed <==> SpeakerIsDead(poll, WaitOnBot, id, taskId)
  {
    hide FindBot, BusyElsewhere;
  }

  lemma ChannelFailsWhenDead(poll: Poll, id: string, taskId: string, sawBusy: bool, grace: int)
    ensures var v := ChannelVerdict(poll, id, taskId, sawBusy, grace);
            v.Answer? && v.base == Failed <==> SpeakerIsDead(poll, WaitOnChannel, id, taskId)
  {
    hide FindBot, FindChannel, HasOpenCard, LatestIsUsers;
  }

  /** The answer of a whole poll, for a bot or a channel: `failed` exactly when no card is open, and either the speaker is
      dead, or the wait decided on `settled` and the latest turn holds an error activity and no bot text; and `settled`
      exactly when that was decided, no card is open and the latest turn did not fail so. */
  lemma {:induction false} SettledBecomesFailed(polls: nat -> Poll, n: nat, target: Target, id: string, taskId: string, grace: int, deadline: int,
                               r: Result<Report, WaitError>)
    requires EndsAt(polls, n, target, id, taskId, grace, deadline, r) && r.Ok?
    ensures r.value.status == Failed <==>
              !HasOpenCard(r.value.tail)
              && (SpeakerIsDead(polls(n), target, id, taskId) || (r.value.base == Settled && DispatchFailed(r.value.tail)))
    ensures r.value.status == Settled <==> r.value.base == Settled && !HasOpenCard(r.value.tail) && !DispatchFailed(r.value.tail)
  {
    hide HasOpenCard, DispatchFailed, BotVerdict, ChannelVerdict, SpeakerIsDead, SawBusy;
    BotFailsWhenDead(polls(n), id, taskId);
    ChannelFailsWhenDead(polls(n), id, taskId, SawBusy(polls, n, id), grace);
  }
}
