/** Starting an admitted turn, and giving its thread back when the start or the turn's own failure handling fails. Which
    steps throw, which turns are admitted meanwhile and which log lines cannot be written are inputs. */
module AdmittedTurn {
  import opened Outcomes

  datatype Phase = InStart | InSetup

  /** What the turn's own failure handler has settled already. */
  datatype Settled = Settled(keepThread: bool, reported: bool)

  datatype Step = EndMarks | Current | Release | ThreadHeld | MarkIdle | Report | Drain

  datatype Fate = Works | ThrowsFirst | ThrowsAfter

  /** How each step goes, the turn admitted to the thread as it is released, and the one admitted as queues drain. */
  datatype Fates = Fates(steps: map<Step, Fate>, next: Option<nat>, queued: Option<nat>)
  {
    function Of(step: Step): Fate {
      if step in steps then steps[step] else Works
    }
  }

  /** The run that holds the thread, the bot's busy mark, the runs with per-turn marks, and the failures reported. */
  datatype World = World(thread: Option<nat>, busy: bool, marks: set<nat>, reports: seq<(nat, string)>)

  /** One give-back: of which run, after which error, and how its steps go. */
  datatype Job = Job(run: nat, settled: Settled, phase: Phase, error: string, fates: Fates)

  /** Whether the n-th log line fails to be written. */
  type Log = nat -> bool

  /** The world with the log lines written so far, whether a failing line has been thrown, and the steps attempted. */
  datatype State = State(world: World, lines: nat, escaped: bool, tried: seq<Step>)

  // ---- a give-back, step by step ----

  function Admit(w: World, turn: Option<nat>): World {
    if w.thread.None? && turn.Some? then w.(thread := turn, busy := true) else w
  }

  function Effect(w: World, step: Step, j: Job): World {
    if j.fates.Of(step) == ThrowsFirst then w
    else
      match step
      case EndMarks => w.(marks := w.marks - {j.run})
      case Release => Admit(w.(thread := None), j.fates.next)
      case MarkIdle => w.(busy := false)
      case Report => w.(reports := w.reports + [(j.run, j.error)])
      case Drain => Admit(w, j.fates.queued)
      case Current => w
      case ThreadHeld => w
  }

  /** One step on its own: a throw is logged and goes no further, unless the log line fails too. */
  function Try(s: State, step: Step, j: Job, log: Log): State {
    if s.escaped then s
    else if j.fates.Of(step) == Works then s.(world := Effect(s.world, step, j), tried := s.tried + [step])
    else State(Effect(s.world, step, j), s.lines + 1, log(s.lines), s.tried + [step])
  }

  predicate IsCurrent(w: World, j: Job) {
    j.fates.Of(Current) == Works && w.thread == Some(j.run)
  }

  /** A thread whose holder cannot be read counts as held. */
  predicate CountsAsHeld(w: World, j: Job) {
    j.fates.Of(ThreadHeld) == Works ==> w.thread.Some?
  }

  predicate Reports(j: Job) {
    j.phase == InSetup && !j.settled.reported
  }

  function Released(s: State, j: Job, log: Log): State {
    var read := Try(s, Current, j, log);
    if IsCurrent(s.world, j) then Try(read, Release, j, log) else read
  }

  /** The middle: release the thread if the run is current, then idle the bot if the thread is free. */
  function LetGo(s: State, j: Job, log: Log): State {
    var released := Released(s, j, log);
    var seen := Try(released, ThreadHeld, j, log);
    if CountsAsHeld(released.world, j) then seen else Try(seen, MarkIdle, j, log)
  }

  /** The end: report the failure if it is still to be reported, and drain the queues. */
  function Concluded(s: State, j: Job, log: Log): State {
    Try(if Reports(j) then Try(s, Report, j, log) else s, Drain, j, log)
  }

  function GiveBack(s: State, j: Job, log: Log): State {
    var ended := Try(s, EndMarks, j, log);
    if j.settled.keepThread then ended else Concluded(LetGo(ended, j, log), j, log)
  }

  /** A give-back that fails is logged. `closes` says whether closing the turn's allowance, which precedes it, works. */
  function GiveBackQuietly(s: State, j: Job, closes: bool, log: Log): State {
    var done := if closes then GiveBack(s, j, log) else s.(escaped := true);
    if done.escaped then done.(lines := done.lines + 1, escaped := log(done.lines)) else done
  }

  // ---- the start of a turn ----

  datatype Start = Throws(error: string) | Resolves | Rejects(error: string)

  /** How the start ends for its caller; a log line that cannot be written replaces any other error. */
  datatype Ended = Raised(error: string) | Fulfilled | LogFailed

  function JobOf(start: Start, run: nat, settled: Settled, fates: Fates): Job
    requires !start.Resolves?
  {
    Job(run, settled, if start.Throws? then InStart else InSetup, start.error, fates)
  }

  /** The state a start leaves, how it ends, and how many give-backs it made. */
  function Started(s: State, start: Start, run: nat, settled: Settled, fates: Fates, closes: bool, log: Log): (State, Ended, nat) {
    match start
    case Resolves => (s, Fulfilled, 0)
    case Throws(error) =>
      var done := GiveBackQuietly(s, JobOf(start, run, settled, fates), closes, log);
      (done, if done.escaped then LogFailed else Raised(error), 1)
    case Rejects(error) =>
      if log(s.lines) then (s.(lines := s.lines + 1, escaped := true), LogFailed, 0)
      else
        var done := GiveBackQuietly(s.(lines := s.lines + 1), JobOf(start, run, settled, fates), closes, log);
        (done, if done.escaped then LogFailed else Fulfilled, 1)
  }

  /** The host as the program changes it, one step at a time. */
  class Host {
    const log: Log
    var lines: nat
    var thread: Option<nat>
    var busy: bool
    var marks: set<nat>
    var reports: seq<(nat, string)>
    /** Every give-back step attempted, and the number of give-backs begun. */
    var attempted: seq<Step>
    var giveBacks: nat

    constructor (log: Log, world: World)
      ensures this.log == log && Now(false) == State(world, 0, false, []) && giveBacks == 0
    {
      this.log, lines, attempted, giveBacks := log, 0, [], 0;
      thread, busy, marks, reports := world.thread, world.busy, world.marks, world.reports;
    }

    function Now(escaped: bool): State
      reads this
    {
      State(World(thread, busy, marks, reports), lines, escaped, attempted)
    }

    method Attempt(step: Step, j: Job) returns (escaped: bool)
      modifies this
      ensures Now(escaped) == Try(old(Now(false)), step, j, log) && giveBacks == old(giveBacks)
    {
      attempted := attempted + [step];
      if j.fates.Of(step) != ThrowsFirst {
        match step {
          case EndMarks => marks := marks - {j.run};
          case Release =>
            thread := None;
            if j.fates.next.Some? { thread, busy := j.fates.next, true; }
          case MarkIdle => busy := false;
          case Report => reports := reports + [(j.run, j.error)];
          case Drain =>
            if thread.None? && j.fates.queued.Some? { thread, busy := j.fates.queued, true; }
          case Current =>
          case ThreadHeld =>
        }
      }
      escaped := false;
      if j.fates.Of(step) != Works {
        escaped := log(lines);
        lines := lines + 1;
      }
    }

    method GiveBackAdmitted(j: Job) returns (escaped: bool)
      modifies this
      ensures Now(escaped) == GiveBack(old(Now(false)), j, log) && giveBacks == old(giveBacks)
    {
      hide Effect, Fates.Of;
      escaped := Attempt(EndMarks, j);
      if j.settled.keepThread { return; }
      if escaped {
        EscapedStays(Now(true), j, log);
        return;
      }
      escaped := ReleaseThread(j);
      if escaped {
        EscapedEnds(Now(true), j, log);
        return;
      }
      if j.phase == InSetup && !j.settled.reported {
        escaped := Attempt(Report, j);
        if escaped { return; }
      }
      escaped := Attempt(Drain, j);
    }

    /** The middle steps of a give-back. */
    method ReleaseThread(j: Job) returns (escaped: bool)
      modifies this
      ensures Now(escaped) == LetGo(old(Now(false)), j, log) && giveBacks == old(giveBacks)
    {
      hide Admit, Fates.Of;
      var current, held := false, true;
      escaped := Attempt(Current, j);
      if escaped { return; }
      if j.fates.Of(Current) == Works { current := thread == Some(j.run); }
      if current {
        escaped := Attempt(Release, j);
        if escaped { return; }
      }
      escaped := Attempt(ThreadHeld, j);
      if escaped { return; }
      if j.fates.Of(ThreadHeld) == Works { held := thread.Some?; }
      if !held {
        escaped := Attempt(MarkIdle, j);
      }
    }

    method GiveBackLogged(j: Job, closes: bool) returns (escaped: bool)
      modifies this
      ensures Now(escaped) == GiveBackQuietly(old(Now(false)), j, closes, log) && giveBacks == old(giveBacks) + 1
    {
      hide GiveBack;
      giveBacks := giveBacks + 1;
      escaped := !closes;
      if closes { escaped := GiveBackAdmitted(j); }
      if escaped {
        escaped := log(lines);
        lines := lines + 1;
      }
    }

    method StartAdmittedTurn(start: Start, run: nat, settled: Settled, fates: Fates, closes: bool) returns (ended: Ended, escaped: bool)
      modifies this
      ensures (Now(escaped), ended, giveBacks - old(giveBacks)) == Started(old(Now(false)), start, run, settled, fates, closes, log)
    {
      hide GiveBackQuietly;
      escaped := false;
      match start
      case Resolves =>
        ended := Fulfilled;
      case Rejects(error) =>
        escaped := log(lines);
        lines := lines + 1;
        if escaped { return LogFailed, true; }
        escaped := GiveBackLogged(JobOf(start, run, settled, fates), closes);
        ended := if escaped then LogFailed else Fulfilled;
      case Throws(error) =>
        escaped := GiveBackLogged(JobOf(start, run, settled, fates), closes);
        ended := if escaped then LogFailed else Raised(error);
    }
  }

  // ---- what a give-back means, whatever throws and whatever the log does ----

  /** Once a log line has been thrown, no further step is attempted. */
  lemma EscapedStays(s: State, j: Job, log: Log)
    requires s.escaped
    ensures Concluded(LetGo(s, j, log), j, log) == s
  {
  }

  lemma EscapedEnds(s: State, j: Job, log: Log)
    requires s.escaped
    ensures Concluded(s, j, log) == s
  {
  }

  /** These steps leave a held thread and the busy mark as they are; all but the drain do so for a free thread too. */
  lemma NeutralSteps(s: State, j: Job, log: Log)
    ensures forall step :: step == EndMarks || step == Report || step == Current || step == ThreadHeld ==>
              Try(s, step, j, log).world.thread == s.world.thread && Try(s, step, j, log).world.busy == s.world.busy
    ensures s.world.thread.Some? ==> Try(s, Drain, j, log).world == s.world
  {
  }

  /** The log line about a failed give-back changes nothing but the log. */
  lemma QuietWorld(s: State, j: Job, closes: bool, log: Log)
    ensures var after := GiveBackQuietly(s, j, closes, log);
            after.world == (if closes then GiveBack(s, j, log).world else s.world)
            && after.tried == if closes then GiveBack(s, j, log).tried else s.tried
  {
    hide GiveBack;
  }

  /** The steps attempted since are none of the two that touch a thread or its busy mark. */
  predicate OnlyLooks(s: State, after: State) {
    s.tried <= after.tried && forall i :: |s.tried| <= i < |after.tried| ==> after.tried[i] != Release && after.tried[i] != MarkIdle
  }

  lemma LetGoLooks(s: State, j: Job, log: Log)
    requires s.world.thread.Some? && s.world.thread != Some(j.run)
    ensures var after := LetGo(s, j, log);
            OnlyLooks(s, after) && after.world.thread == s.world.thread && after.world.busy == s.world.busy
  {
    hide Effect;
    var read := Try(s, Current, j, log);
    NeutralSteps(s, j, log);
    NeutralSteps(read, j, log);
  }

  lemma ConcludedLooks(s: State, j: Job, log: Log)
    requires s.world.thread.Some?
    ensures var after := Concluded(s, j, log);
            OnlyLooks(s, after) && after.world.thread == s.world.thread && after.world.busy == s.world.busy
  {
    hide Effect;
    NeutralSteps(s, j, log);
    NeutralSteps(Try(s, Report, j, log), j, log);
  }

  lemma LooksCompose(a: State, b: State, c: State)
    requires OnlyLooks(a, b) && OnlyLooks(b, c)
    ensures OnlyLooks(a, c)
  {
  }

  /** A thread that a newer turn holds, or that was kept on purpose, stays as it is; releasing or idling is not tried. */
  lemma NewerTurnIsUntouched(s: State, j: Job, closes: bool, log: Log)
    requires j.settled.keepThread || (s.world.thread.Some? && s.world.thread != Some(j.run))
    ensures var after := GiveBackQuietly(s, j, closes, log);
            OnlyLooks(s, after) && after.world.thread == s.world.thread && after.world.busy == s.world.busy
  {
    QuietWorld(s, j, closes, log);
    NeutralSteps(s, j, log);
    var ended := Try(s, EndMarks, j, log);
    assert OnlyLooks(s, ended);
    hide GiveBackQuietly, OnlyLooks, Try;
    if !j.settled.keepThread {
      LetGoLooks(ended, j, log);
      var free := LetGo(ended, j, log);
      ConcludedLooks(free, j, log);
      LooksCompose(s, ended, free);
      LooksCompose(s, free, Concluded(free, j, log));
      hide LetGo, Concluded;
    }
    assert OnlyLooks(s, s) by { SameLooks(s); }
    assert OnlyLooks(s, GiveBack(s, j, log));
    SameTried(s, GiveBack(s, j, log), GiveBackQuietly(s, j, closes, log));
    SameTried(s, s, GiveBackQuietly(s, j, closes, log));
  }

  lemma SameLooks(s: State)
    ensures OnlyLooks(s, s)
  {
  }

  lemma SameTried(s: State, a: State, b: State)
    requires OnlyLooks(s, a)
    ensures a.tried == b.tried ==> OnlyLooks(s, b)
  {
  }

  /** No log line of those written meanwhile failed, or the last one did and was thrown. */
  predicate EscapedByLog(s: State, after: State, log: Log) {
    && s.lines <= after.lines && (s.escaped ==> after == s)
    && (!s.escaped && after.escaped ==> s.lines < after.lines && log(after.lines - 1))
    && (!after.escaped ==> forall n :: s.lines <= n < after.lines ==> !log(n))
  }

  lemma TryLogs(s: State, step: Step, j: Job, log: Log)
    ensures EscapedByLog(s, Try(s, step, j, log), log)
  {
  }

  lemma LogsCompose(a: State, b: State, c: State, log: Log)
    requires EscapedByLog(a, b, log) && EscapedByLog(b, c, log)
    ensures EscapedByLog(a, c, log)
  {
  }

  /** A give-back throws exactly when a log line it writes fails, and it always ends the run's marks first. */
  lemma ThrowsOnlyByLog(s: State, j: Job, log: Log)
    requires !s.escaped
    ensures EscapedByLog(s, GiveBack(s, j, log), log)
    ensures var after := GiveBack(s, j, log); s.tried + [EndMarks] <= after.tried
  {
    var ended := Try(s, EndMarks, j, log);
    TryLogs(s, EndMarks, j, log);
    if !j.settled.keepThread {
      LetGoLogs(ended, j, log);
      var free := LetGo(ended, j, log);
      ConcludedLogs(free, j, log);
      hide LetGo, Concluded, EscapedByLog;
      LogsCompose(s, ended, free, log);
      LogsCompose(s, free, Concluded(free, j, log), log);
    }
  }

  lemma LetGoLogs(s: State, j: Job, log: Log)
    ensures EscapedByLog(s, LetGo(s, j, log), log) && s.tried <= LetGo(s, j, log).tried
  {
    var read := Try(s, Current, j, log);
    var released := Released(s, j, log);
    var seen := Try(released, ThreadHeld, j, log);
    TryLogs(s, Current, j, log);
    TryLogs(read, Release, j, log);
    TryLogs(released, ThreadHeld, j, log);
    TryLogs(seen, MarkIdle, j, log);
    hide Effect, EscapedByLog;
    if released != read { LogsCompose(s, read, released, log); }
    LogsCompose(s, released, seen, log);
    if LetGo(s, j, log) != seen { LogsCompose(s, seen, LetGo(s, j, log), log); }
  }

  lemma ConcludedLogs(s: State, j: Job, log: Log)
    ensures EscapedByLog(s, Concluded(s, j, log), log) && s.tried <= Concluded(s, j, log).tried
  {
    var told := if Reports(j) then Try(s, Report, j, log) else s;
    TryLogs(s, Report, j, log);
    TryLogs(told, Drain, j, log);
    hide Effect, EscapedByLog;
    if told != s { LogsCompose(s, told, Concluded(s, j, log), log); }
  }

  function ThreadReleased(w: World, j: Job): Option<nat> {
    if IsCurrent(w, j) && j.fates.Of(Release) != ThrowsFirst then j.fates.next else w.thread
  }

  /** Who holds the thread after a give-back that did not throw, and whether the bot is busy then. So, when the turns
      admitted meanwhile are new ones, the run keeps the thread exactly when that was on purpose, or reading or releasing
      the holder threw; and when the steps work, a free thread's bot is idle. */
  lemma ThreadAfter(s: State, j: Job, log: Log)
    requires !s.escaped && !GiveBack(s, j, log).escaped
    ensures var (w, after, f) := (s.world, GiveBack(s, j, log).world, j.fates);
            var released := ThreadReleased(w, j);
            && after.thread == (if j.settled.keepThread then w.thread
                                else if released.None? && f.Of(Drain) != ThrowsFirst then f.queued else released)
            && (!j.settled.keepThread && after.thread.None? ==>
                  after.busy == (w.busy && (f.Of(ThreadHeld) != Works || f.Of(MarkIdle) == ThrowsFirst)))
            && (w.thread == Some(j.run) && f.next != Some(j.run) && f.queued != Some(j.run) ==>
                  (after.thread == Some(j.run) <==> j.settled.keepThread || f.Of(Current) != Works || f.Of(Release) == ThrowsFirst))
  {
    ThrowsOnlyByLog(s, j, log);
    var ended := Try(s, EndMarks, j, log);
    if !j.settled.keepThread {
      if ended.escaped { EscapedStays(ended, j, log); }
      var free := LetGo(ended, j, log);
      if free.escaped { EscapedEnds(free, j, log); }
      NeutralSteps(s, j, log);
      LetGoThread(ended, j, log);
      ConcludedThread(free, j, log);
      hide LetGo, Concluded, Effect;
    }
  }

  lemma LetGoThread(s: State, j: Job, log: Log)
    requires !s.escaped && !LetGo(s, j, log).escaped
    ensures var (w, free, f) := (s.world, LetGo(s, j, log).world, j.fates);
            && free.thread == ThreadReleased(w, j)
            && (free.thread.None? ==> free.busy == (w.busy && (f.Of(ThreadHeld) != Works || f.Of(MarkIdle) == ThrowsFirst)))
  {
    var released := Released(s, j, log);
    assert !released.escaped;
    assert released.world.thread == ThreadReleased(s.world, j) && (released.world.thread.None? ==> released.world.busy == s.world.busy);
    hide Released, ThreadReleased;
  }

  lemma ConcludedThread(s: State, j: Job, log: Log)
    requires !s.escaped && !Concluded(s, j, log).escaped
    ensures var (w, after) := (s.world, Concluded(s, j, log).world);
            && after.thread == (if w.thread.None? && j.fates.Of(Drain) != ThrowsFirst then j.fates.queued else w.thread)
            && (after.thread.None? ==> after.busy == w.busy)
  {
    NeutralSteps(s, j, log);
  }

  /** From where a give-back may take the thread, and that a holder's bot is busy, whatever throws. */
  predicate Passes(w: World, after: World, run: nat, settled: Settled, fates: Fates) {
    && (after.thread == w.thread || after.thread == fates.next || after.thread == fates.queued || (after.thread.None? && w.thread == Some(run)))
    && (after.thread != w.thread ==> w.thread.None? || (w.thread == Some(run) && !settled.keepThread))
    && ((w.thread.Some? ==> w.busy) ==> (after.thread.Some? ==> after.busy))
  }

  lemma LetGoPasses(s: State, j: Job, log: Log)
    requires !j.settled.keepThread
    ensures Passes(s.world, LetGo(s, j, log).world, j.run, j.settled, j.fates)
    ensures LetGo(s, j, log).world.thread != s.world.thread ==> s.world.thread == Some(j.run)
  {
    NeutralSteps(s, j, log);
    var released := Released(s, j, log);
    assert Passes(s.world, released.world, j.run, j.settled, j.fates) && (released.world.thread != s.world.thread ==> s.world.thread == Some(j.run));
    hide Released;
  }

  lemma ConcludedPasses(s: State, j: Job, log: Log)
    ensures var (w, after) := (s.world, Concluded(s, j, log).world);
            && (after.thread == w.thread || (w.thread.None? && after.thread == j.fates.queued))
            && (after.busy == w.busy || after.busy) && (after.thread != w.thread ==> after.busy)
  {
    var told := if Reports(j) then Try(s, Report, j, log) else s;
    NeutralSteps(s, j, log);
    assert told.world.thread == s.world.thread && told.world.busy == s.world.busy;
    hide Reports;
  }

  /** Also when a log line fails half way: the thread passes only from the run itself or from nobody, to a turn admitted
      meanwhile or to nobody, and every holder's bot stays marked busy. */
  lemma HeldStaysBusy(s: State, j: Job, closes: bool, log: Log)
    ensures Passes(s.world, GiveBackQuietly(s, j, closes, log).world, j.run, j.settled, j.fates)
  {
    QuietWorld(s, j, closes, log);
    var ended := Try(s, EndMarks, j, log);
    NeutralSteps(s, j, log);
    hide GiveBackQuietly, LetGo, Concluded, Try;
    if !j.settled.keepThread {
      LetGoPasses(ended, j, log);
      ConcludedPasses(LetGo(ended, j, log), j, log);
    }
  }

  /** At most one report more, about this run. */
  predicate Told(was: seq<(nat, string)>, now: seq<(nat, string)>, run: nat) {
    now == was || (|now| == |was| + 1 && now[..|was|] == was && now[|was|].0 == run)
  }

  /** A failure is reported at most once and only in the setup phase, and when nothing is thrown exactly if nobody reported
      it before and the report does not throw first. */
  lemma ReportedOnce(s: State, j: Job, closes: bool, log: Log)
    ensures var was, now := s.world.reports, GiveBackQuietly(s, j, closes, log).world.reports;
            && Told(was, now, j.run) && (now != was ==> now == was + [(j.run, j.error)] && Reports(j) && !j.settled.keepThread)
            && (!s.escaped && closes && !GiveBack(s, j, log).escaped ==>
                  now == was + if Reports(j) && !j.settled.keepThread && j.fates.Of(Report) != ThrowsFirst then [(j.run, j.error)] else [])
  {
    QuietWorld(s, j, closes, log);
    var ended := Try(s, EndMarks, j, log);
    assert ended.world.reports == s.world.reports;
    hide GiveBackQuietly, Try, LetGo, Concluded, Reports;
    if !j.settled.keepThread {
      LetGoReportsNothing(ended, j, log);
      ConcludedReports(LetGo(ended, j, log), j, log);
    }
  }

  lemma ConcludedReports(s: State, j: Job, log: Log)
    ensures var was, now := s.world.reports, Concluded(s, j, log).world.reports;
            && (now == was || (Reports(j) && now == was + [(j.run, j.error)]))
            && (!Concluded(s, j, log).escaped ==>
                  now == was + if Reports(j) && j.fates.Of(Report) != ThrowsFirst then [(j.run, j.error)] else [])
  {
    hide Reports;
    var told := if Reports(j) then Try(s, Report, j, log) else s;
    assert Try(told, Drain, j, log).world.reports == told.world.reports;
  }

  lemma LetGoReportsNothing(s: State, j: Job, log: Log)
    ensures LetGo(s, j, log).world.reports == s.world.reports
  {
    var released := Released(s, j, log);
    assert released.world.reports == s.world.reports;
    hide Released;
  }

  predicate NeverReleases(s: State, after: State) {
    s.tried <= after.tried && forall i :: |s.tried| <= i < |after.tried| ==> after.tried[i] != Release
  }

  /** Giving back once more releases nothing and leaves a holder alone: the run is no longer current. */
  lemma GivingBackTwice(s: State, j: Job, again: Job, log: Log)
    requires !s.escaped && !GiveBack(s, j, log).escaped && again.run == j.run
    requires j.fates.next != Some(j.run) && j.fates.queued != Some(j.run)
    requires !j.settled.keepThread && j.fates.Of(Current) == Works && j.fates.Of(Release) != ThrowsFirst
    ensures var once := GiveBack(s, j, log); var twice := GiveBack(once, again, log);
            NeverReleases(once, twice) && (once.world.thread.Some? ==> twice.world.thread == once.world.thread && twice.world.busy == once.world.busy)
  {
    var once := GiveBack(s, j, log);
    ThreadAfter(s, j, log);
    assert once.world.thread != Some(j.run);
    hide GiveBack;
    NotCurrentAnyMore(once, again, log);
  }

  lemma NotCurrentAnyMore(s: State, j: Job, log: Log)
    requires s.world.thread != Some(j.run)
    ensures var after := GiveBack(s, j, log);
            NeverReleases(s, after) && (s.world.thread.Some? ==> after.world.thread == s.world.thread && after.world.busy == s.world.busy)
  {
    var ended := Try(s, EndMarks, j, log);
    NeutralSteps(s, j, log);
    if s.world.thread.Some? {
      NewerTurnIsUntouched(s, j, true, log);
      QuietWorld(s, j, true, log);
    }
    hide GiveBackQuietly, OnlyLooks;
    if !j.settled.keepThread {
      var free := LetGo(ended, j, log);
      LetGoNeverReleases(ended, j, log);
      ConcludedNeverReleases(free, j, log);
      hide LetGo, Concluded;
    }
  }

  lemma LetGoNeverReleases(s: State, j: Job, log: Log)
    requires s.world.thread != Some(j.run)
    ensures NeverReleases(s, LetGo(s, j, log))
  {
    hide Effect;
  }

  lemma ConcludedNeverReleases(s: State, j: Job, log: Log)
    ensures NeverReleases(s, Concluded(s, j, log))
  {
    hide Effect;
  }

  // ---- how a start ends ----

  lemma QuietLogs(s: State, j: Job, closes: bool, log: Log)
    requires !s.escaped
    ensures var after := GiveBackQuietly(s, j, closes, log);
            s.lines <= after.lines && (after.escaped ==> after.lines > s.lines && log(after.lines - 1))
    ensures closes && (forall n :: !log(n)) ==> GiveBackQuietly(s, j, closes, log) == GiveBack(s, j, log) && !GiveBack(s, j, log).escaped
  {
    ThrowsOnlyByLog(s, j, log);
    hide GiveBack;
  }

  /** Handed over, or given back: a throw once, a background failure once exactly when the line that announces it can be
      written; and the caller sees the original error unless the last line written has failed. */
  lemma StartEnds(s: State, start: Start, run: nat, settled: Settled, fates: Fates, closes: bool, log: Log)
    requires !s.escaped
    ensures var (after, ended, giveBacks) := Started(s, start, run, settled, fates, closes, log);
            && giveBacks == (if start.Resolves? || (start.Rejects? && log(s.lines)) then 0 else 1)
            && (giveBacks == 0 ==> after.world == s.world)
            && (ended == LogFailed <==> after.escaped)
            && (ended == LogFailed ==> after.lines > s.lines && log(after.lines - 1))
            && (ended != LogFailed ==> ended == if start.Throws? then Raised(start.error) else Fulfilled)
  {
    hide GiveBackQuietly, GiveBack;
    if !start.Resolves? {
      QuietLogs(if start.Rejects? then s.(lines := s.lines + 1) else s, JobOf(start, run, settled, fates), closes, log);
    }
  }

  // ---- any sequence of turns on a thread ----

  /** A turn takes the free thread, finishes by itself, or the outcome of its start arrives, early or late. */
  datatype Event =
    | Admits(turn: nat)
    | Finishes(turn: nat)
    | Starts(run: nat, start: Start, settled: Settled, fates: Fates, closes: bool)

  /** The thread's world, the log lines so far, every turn that ever held it, those that are over, and those whose start
      has ended. */
  datatype Thread = Thread(world: World, lines: nat, admitted: set<nat>, over: set<nat>, ended: set<nat>)

  function Holder(w: World): set<nat> {
    if w.thread.Some? then {w.thread.value} else {}
  }

  /** Turns admitted during a give-back are turns that never held the thread before. */
  predicate Offers(t: Thread, f: Fates) {
    (f.next.Some? ==> f.next.value !in t.admitted) && (f.queued.Some? ==> f.queued.value !in t.admitted)
  }

  function Occurs(t: Thread, e: Event, log: Log): Thread {
    match e
    case Admits(turn) =>
      if t.world.thread.None? && turn !in t.admitted
      then t.(world := Admit(t.world, Some(turn)).(marks := t.world.marks + {turn}), admitted := t.admitted + {turn}) else t
    case Finishes(turn) =>
      if t.world.thread == Some(turn)
      then t.(world := t.world.(thread := None, busy := false, marks := t.world.marks - {turn}), over := t.over + {turn}) else t
    case Starts(run, start, settled, fates, closes) =>
      if run in t.admitted && run !in t.ended && Offers(t, fates) then
        var after := Started(State(t.world, t.lines, false, []), start, run, settled, fates, closes, log).0;
        Thread(after.world, after.lines, t.admitted + Holder(after.world), t.over + (Holder(t.world) - Holder(after.world)), t.ended + {run})
      else t
  }

  function After(t: Thread, events: seq<Event>, log: Log): Thread {
    if events == [] then t else Occurs(After(t, events[..|events| - 1], log), events[|events| - 1], log)
  }

  /** The holder was admitted and is not over, its bot is busy, and no run's failure was reported twice. */
  predicate Sound(t: Thread) {
    && t.over <= t.admitted
    && (t.world.thread.Some? ==> t.world.thread.value in t.admitted && t.world.thread.value !in t.over && t.world.busy)
    && OncePerRun(t.world.reports, t.ended)
  }

  /** No two reports are about the same run, and each is about one whose start has ended. */
  predicate OncePerRun(reports: seq<(nat, string)>, ended: set<nat>) {
    && (forall i :: 0 <= i < |reports| ==> reports[i].0 in ended)
    && (forall i, j :: 0 <= i < j < |reports| ==> reports[i].0 != reports[j].0)
  }

  /** A start leaves the world as it was, or as its give-back leaves it. */
  lemma StartedWorld(s: State, start: Start, run: nat, settled: Settled, fates: Fates, closes: bool, log: Log)
    ensures var after := Started(s, start, run, settled, fates, closes, log).0;
            if start.Resolves? || (start.Rejects? && log(s.lines)) then after.world == s.world
            else after == GiveBackQuietly(if start.Rejects? then s.(lines := s.lines + 1) else s, JobOf(start, run, settled, fates), closes, log)
  {
    hide GiveBackQuietly;
  }

  /** What the end of a start does to the thread and the reports, whatever throws and whatever the log does. */
  lemma StartedPasses(s: State, start: Start, run: nat, settled: Settled, fates: Fates, closes: bool, log: Log)
    ensures var after := Started(s, start, run, settled, fates, closes, log).0.world;
            && Passes(s.world, after, run, settled, fates) && Told(s.world.reports, after.reports, run)
            && (start.Resolves? ==> after == s.world)
  {
    StartedWorld(s, start, run, settled, fates, closes, log);
    assert Passes(s.world, s.world, run, settled, fates) && Told(s.world.reports, s.world.reports, run);
    hide GiveBackQuietly, GiveBack, Started, Passes, Told;
    if !start.Resolves? {
      var from := if start.Rejects? then s.(lines := s.lines + 1) else s;
      HeldStaysBusy(from, JobOf(start, run, settled, fates), closes, log);
      ReportedOnce(from, JobOf(start, run, settled, fates), closes, log);
    }
  }

  /** Only the holder's own end or failed start takes the thread from it. */
  lemma OnlyItsOwnEnd(t: Thread, e: Event, log: Log, holder: nat)
    requires t.world.thread == Some(holder) && Occurs(t, e, log).world.thread != Some(holder)
    ensures e == Finishes(holder) || (e.Starts? && e.run == holder && !e.start.Resolves? && !e.settled.keepThread)
  {
    hide Started;
    if e.Starts? { StartedPasses(State(t.world, t.lines, false, []), e.start, e.run, e.settled, e.fates, e.closes, log); }
  }

  /** One report more about a run that was not reported on before. */
  lemma ToldOnce(was: seq<(nat, string)>, now: seq<(nat, string)>, run: nat, ended: set<nat>)
    requires Told(was, now, run) && run !in ended && OncePerRun(was, ended)
    ensures OncePerRun(now, ended + {run})
  {
    if now != was { assert forall i :: 0 <= i < |was| ==> now[i] == was[i]; }
  }

  lemma OccursKeepsSound(t: Thread, e: Event, log: Log)
    requires Sound(t)
    ensures Sound(Occurs(t, e, log)) && t.over <= Occurs(t, e, log).over
  {
    hide Started, OncePerRun;
    if e.Starts? {
      var s := State(t.world, t.lines, false, []);
      StartedPasses(s, e.start, e.run, e.settled, e.fates, e.closes, log);
      var after := Started(s, e.start, e.run, e.settled, e.fates, e.closes, log).0.world;
      if e.run !in t.ended { ToldOnce(t.world.reports, after.reports, e.run, t.ended); }
      hide Told;
    }
  }

  lemma {:induction false} EventsKeepSound(t: Thread, events: seq<Event>, log: Log)
    requires Sound(t)
    ensures Sound(After(t, events, log))
  {
    if events != [] {
      EventsKeepSound(t, events[..|events| - 1], log);
      OccursKeepsSound(After(t, events[..|events| - 1], log), events[|events| - 1], log);
      hide Occurs, Sound;
    }
  }

  /** Over any sequence of turns, ends and starts, and whatever the log does: a held thread's bot is busy, no failure is
      reported twice, and a turn that is over never holds the thread again. */
  lemma {:induction false} OverNeverReturns(t: Thread, events: seq<Event>, log: Log, n: nat, turn: nat)
    requires Sound(t) && n <= |events| && turn in After(t, events[..n], log).over
    ensures var now := After(t, events, log); Sound(now) && turn in now.over && now.world.thread != Some(turn)
  {
    hide Occurs;
    EventsKeepSound(t, events, log);
    if n < |events| {
      var front := events[..|events| - 1];
      assert front[..n] == events[..n];
      OverNeverReturns(t, front, log, n, turn);
      EventsKeepSound(t, front, log);
      OccursKeepsSound(After(t, front, log), events[|events| - 1], log);
    } else {
      assert events[..n] == events;
    }
  }

  /** A failed start that nobody keeps the thread for ends the run, when its lines are written and its steps work. */
  lemma FailedStartLetsGo(t: Thread, e: Event, log: Log)
    requires Sound(t) && e.Starts? && !e.start.Resolves? && e.closes && !e.settled.keepThread
    requires t.world.thread == Some(e.run) && e.run !in t.ended && Offers(t, e.fates)
    requires (forall n :: !log(n)) && e.fates.Of(Current) == Works && e.fates.Of(Release) != ThrowsFirst
    ensures e.run in Occurs(t, e, log).over && Occurs(t, e, log).world.thread != Some(e.run)
  {
    hide GiveBack, GiveBackQuietly, Started, OncePerRun;
    var j := JobOf(e.start, e.run, e.settled, e.fates);
    var s := State(t.world, t.lines, false, []);
    var from := if e.start.Rejects? then s.(lines := s.lines + 1) else s;
    StartedWorld(s, e.start, e.run, e.settled, e.fates, true, log);
    QuietLogs(from, j, true, log);
    ThreadAfter(from, j, log);
  }
}
