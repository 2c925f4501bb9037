/** Waiting for a Job (`internal/execution/monitor.go`): an event loop over a watch channel, a
    two-second re-fetch and a deadline. Times are nanoseconds. */
module JobMonitor {
  import opened Common

  const POLL_INTERVAL := 2_000_000_000

  // ------------------------------------------------------------ job status

  datatype ConditionType = JobComplete | JobFailed | OtherCondition

  datatype Condition = Condition(kind: ConditionType, holds: bool)

  datatype JobStatus = JobStatus(conditions: seq<Condition>, succeeded: int, failed: int)

  predicate IsJobComplete(s: JobStatus) {
    Condition(JobComplete, true) in s.conditions || s.succeeded > 0
  }

  predicate IsJobFailed(s: JobStatus) {
    Condition(JobFailed, true) in s.conditions || s.failed > 0
  }

  predicate Finished(s: JobStatus) {
    IsJobComplete(s) || IsJobFailed(s)
  }

  // ----------------------------------------------------------- environment

  datatype WatchObject = JobObject(name: string, status: JobStatus) | OtherObject

  datatype WatchEvent = WatchEvent(deleted: bool, obj: WatchObject)

  /** What the loop meets: the events the watch delivers at each instant (finitely many, but for ever),
      when its channel closes and when the caller cancels, if ever, what re-fetching the Job returns at
      each instant (nothing on an API error), which of channel and timer a `select` picks when both are
      ready, and how long each turn of the loop takes. */
  datatype Environment = Environment(
    watchOk: bool,
    arrivals: nat -> seq<WatchEvent>,
    closesAt: Option<nat>,
    cancelledAt: Option<nat>,
    fetch: nat -> Option<JobStatus>,
    timerFirst: nat -> bool,
    lag: nat -> nat)

  predicate Reached(moment: Option<nat>, now: nat) {
    moment.Some? && moment.value <= now
  }

  /** Everything delivered from `lo` up to and including `hi`. */
  function Stream(env: Environment, lo: nat, hi: nat): seq<WatchEvent>
    requires lo <= hi
    decreases hi
  {
    if hi == lo then env.arrivals(lo) else Stream(env, lo, hi - 1) + env.arrivals(hi)
  }

  /** The oldest event delivered by `t` and not yet received. */
  function NextEvent(env: Environment, start: nat, received: seq<WatchEvent>, t: nat): Option<WatchEvent>
    requires start <= t
  {
    if |received| < |Stream(env, start, t)| then Some(Stream(env, start, t)[|received|]) else None
  }

  /** At `t` the channel offers nothing: no event, and it is open. */
  predicate Quiet(env: Environment, start: nat, received: seq<WatchEvent>, t: nat) {
    start <= t && NextEvent(env, start, received, t) == None && !Reached(env.closesAt, t)
  }

  /** A `select` that begins at `b` ends at `at`: at most one poll interval later, and not before the
      channel has something to offer. */
  ghost predicate Idle(env: Environment, start: nat, received: seq<WatchEvent>, b: nat, at: nat) {
    start <= b <= at <= b + POLL_INTERVAL && forall t :: b <= t < at ==> Quiet(env, start, received, t)
  }

  /** A watch: the events delivered and not yet received. */
  class Watch {
    const env: Environment
    const openedAt: nat
    var now: nat
    var queue: seq<WatchEvent>
    ghost var received: seq<WatchEvent>

    ghost predicate Valid()
      reads this
    {
      openedAt <= now && received + queue == Stream(env, openedAt, now)
    }

    constructor (env: Environment, now: nat)
      ensures Valid() && this.env == env && openedAt == now && this.now == now && received == []
    {
      this.env, openedAt, this.now, queue := env, now, now, env.arrivals(now);
      received := [];
    }

    method Pass(d: nat)
      requires Valid()
      modifies this`now, this`queue
      ensures Valid() && now == old(now) + d
      ensures received == old(received) && (d == 0 ==> queue == old(queue))
    {
      for i := 0 to d
        invariant Valid() && now == old(now) + i
        invariant i == 0 ==> queue == old(queue)
      {
        now := now + 1;
        queue := queue + env.arrivals(now);
      }
    }

    /** The `select` of the loop: the next event, the closing of the channel, or, after two seconds
        without either, the timer. */
    method Select() returns (signal: Signal)
      requires Valid()
      modifies this
      ensures Valid() && Idle(env, openedAt, old(received), old(now), now)
      ensures match signal
              case Received(e) =>
                && received == old(received) + [e] && (now == old(now) ==> |queue| < |old(queue)|)
                && NextEvent(env, openedAt, old(received), now) == Some(e)
                && (now == old(now) + POLL_INTERVAL ==> !env.timerFirst(now))
              case ChannelClosed =>
                && received == old(received) && queue == [] && Reached(env.closesAt, now)
                && (now == old(now) + POLL_INTERVAL ==> !env.timerFirst(now))
              case Timer =>
                && received == old(received) && now == old(now) + POLL_INTERVAL
                && (Quiet(env, openedAt, received, now) || env.timerFirst(now))
    {
      var timerAt := now + POLL_INTERVAL;
      while queue == [] && !Reached(env.closesAt, now) && now < timerAt
        invariant Valid() && old(now) <= now <= timerAt && received == old(received)
        invariant forall t :: old(now) <= t < now ==> Quiet(env, openedAt, received, t)
        invariant now == old(now) ==> queue == old(queue)
        decreases timerAt - now
      {
        Pass(1);
      }
      if now == timerAt && ((queue == [] && !Reached(env.closesAt, now)) || env.timerFirst(now)) {
        return Timer;
      }
      if queue != [] {
        signal := Received(queue[0]);
        received := received + [queue[0]];
        queue := queue[1..];
      } else {
        signal := ChannelClosed;
      }
    }
  }

  datatype Signal = Received(event: WatchEvent) | ChannelClosed | Timer

  // ----------------------------------------------------------- what is seen

  /** What one turn of the loop learns. */
  datatype Observation =
    | Delivered(at: nat, event: WatchEvent)
    | AfterClose(at: nat, fetched: Option<JobStatus>)
    | Polled(at: nat, fetched: Option<JobStatus>)

  datatype WaitError = WatchFailed | Cancelled | TimedOut | JobDeleted | FetchFailed

  /** The part of the result taken from the Job itself. */
  datatype JobResult = JobResult(jobName: string, succeeded: bool)

  function CollectResult(name: string, s: JobStatus): JobResult {
    JobResult(name, s.succeeded > 0)
  }

  /** An observation that ends the wait: a deletion, any state fetched after the channel closed, a
      failed fetch, or the Job seen complete or failed. */
  predicate Decisive(name: string, o: Observation) {
    match o
    case Delivered(_, e) => e.deleted || (e.obj.JobObject? && e.obj.name == name && Finished(e.obj.status))
    case AfterClose(_, _) => true
    case Polled(_, fetched) => fetched.None? || Finished(fetched.value)
  }

  function VerdictOf(name: string, o: Observation): Result<JobResult, WaitError> {
    match o
    case Delivered(_, e) =>
      if e.deleted || e.obj.OtherObject? then Err(JobDeleted) else Ok(CollectResult(name, e.obj.status))
    case AfterClose(_, fetched) => if fetched.Some? then Ok(CollectResult(name, fetched.value)) else Err(FetchFailed)
    case Polled(_, fetched) => if fetched.Some? then Ok(CollectResult(name, fetched.value)) else Err(FetchFailed)
  }

  function EventsOf(log: seq<Observation>): seq<WatchEvent> {
    if log == [] then []
    else EventsOf(log[..|log| - 1]) + if log[|log| - 1].Delivered? then [log[|log| - 1].event] else []
  }

  function PollsOf(log: seq<Observation>): nat {
    if log == [] then 0 else PollsOf(log[..|log| - 1]) + if log[|log| - 1].Polled? then 1 else 0
  }

  // ------------------------------------------------------------ the account

  /** The turn that begins at `b`, with `received` behind it, observes `o`: an event that is there is
      received first and at once, then the closing; the Job is fetched only after two seconds in which
      the channel offered nothing. When both are ready at that very moment, either may be chosen. */
  ghost predicate TurnOf(env: Environment, start: nat, received: seq<WatchEvent>, b: nat, o: Observation) {
    && Idle(env, start, received, b, o.at)
    && match o
       case Delivered(at, event) =>
         NextEvent(env, start, received, at) == Some(event) && (at == b + POLL_INTERVAL ==> !env.timerFirst(at))
       case AfterClose(at, fetched) =>
         && NextEvent(env, start, received, at) == None && Reached(env.closesAt, at) && fetched == env.fetch(at)
         && (at == b + POLL_INTERVAL ==> !env.timerFirst(at))
       case Polled(at, fetched) =>
         at == b + POLL_INTERVAL && fetched == env.fetch(at) && (Quiet(env, start, received, at) || env.timerFirst(at))
  }

  /** When the turn after those of `log` begins. */
  function NextTurnAt(env: Environment, start: nat, log: seq<Observation>): nat {
    if log == [] then start else log[|log| - 1].at + env.lag(|log| - 1)
  }

  /** The loop enters another turn at `b`. */
  predicate GoesOn(env: Environment, deadline: nat, b: nat) {
    !Reached(env.cancelledAt, b) && b <= deadline
  }

  /** The turns of `log` are the turns of the loop, one after another from `start` on, none of them past
      the deadline or a cancellation, and none but perhaps the last deciding the wait. */
  ghost predicate Turns(env: Environment, name: string, start: nat, deadline: nat, log: seq<Observation>)
    decreases |log|
  {
    log == [] || (
      var before := log[..|log| - 1];
      && Turns(env, name, start, deadline, before)
      && (before == [] || !Decisive(name, before[|before| - 1]))
      && GoesOn(env, deadline, NextTurnAt(env, start, before))
      && TurnOf(env, start, EventsOf(before), NextTurnAt(env, start, before), log[|log| - 1]))
  }

  predicate Decided(name: string, log: seq<Observation>) {
    log != [] && Decisive(name, log[|log| - 1])
  }

  /** A full account of a wait: all its turns, to the one that decided it or to the deadline or the
      cancellation that stopped it. Without a watch there is no turn. */
  ghost predicate Account(env: Environment, name: string, start: nat, timeout: nat, log: seq<Observation>) {
    if !env.watchOk then log == []
    else
      && Turns(env, name, start, start + timeout, log)
      && (Decided(name, log) || !GoesOn(env, start + timeout, NextTurnAt(env, start, log)))
  }

  /** The answer of a wait with this account. */
  function AnswerOf(env: Environment, name: string, start: nat, log: seq<Observation>): Result<JobResult, WaitError> {
    if !env.watchOk then Err(WatchFailed)
    else if Decided(name, log) then VerdictOf(name, log[|log| - 1])
    else if Reached(env.cancelledAt, NextTurnAt(env, start, log)) then Err(Cancelled)
    else Err(TimedOut)
  }

  lemma {:induction false} LogSnoc(log: seq<Observation>, o: Observation)
    ensures (log + [o])[..|log|] == log
    ensures EventsOf(log + [o]) == EventsOf(log) + if o.Delivered? then [o.event] else []
    ensures PollsOf(log + [o]) == PollsOf(log) + if o.Polled? then 1 else 0
  {
    assert (log + [o])[..|log|] == log;
  }

  lemma {:induction false} TurnsSnoc(env: Environment, name: string, start: nat, deadline: nat, log: seq<Observation>, o: Observation)
    requires Turns(env, name, start, deadline, log) && !Decided(name, log)
    requires GoesOn(env, deadline, NextTurnAt(env, start, log))
    requires TurnOf(env, start, EventsOf(log), NextTurnAt(env, start, log), o)
    ensures Turns(env, name, start, deadline, log + [o])
  {
    LogSnoc(log, o);
  }

  lemma {:induction false} TurnsBefore(env: Environment, name: string, start: nat, deadline: nat, log: seq<Observation>, n: nat)
    requires Turns(env, name, start, deadline, log) && n <= |log|
    ensures Turns(env, name, start, deadline, log[..n])
    ensures n < |log| ==> !Decided(name, log[..n]) && GoesOn(env, deadline, NextTurnAt(env, start, log[..n]))
    ensures n < |log| ==> TurnOf(env, start, EventsOf(log[..n]), NextTurnAt(env, start, log[..n]), log[n])
    decreases |log|
  {
    if n < |log| {
      var before := log[..|log| - 1];
      if n < |before| {
        TurnsBefore(env, name, start, deadline, before, n);
        assert before[..n] == log[..n];
      } else {
        assert before == log[..n];
      }
    } else {
      assert log[..n] == log;
    }
  }

  // ---------------------------------------------- an account tells everything

  /** What a turn observes is settled by when it begins and what was received before. */
  lemma {:induction false} TurnIsSettled(env: Environment, start: nat, received: seq<WatchEvent>, b: nat, o: Observation, o': Observation)
    requires TurnOf(env, start, received, b, o) && TurnOf(env, start, received, b, o')
    ensures o == o'
  {
    assert o.at < o'.at ==> Quiet(env, start, received, o.at);
    assert o'.at < o.at ==> Quiet(env, start, received, o'.at);
  }

  lemma {:induction false} SameTurns(env: Environment, name: string, start: nat, deadline: nat, log: seq<Observation>, log': seq<Observation>, n: nat)
    requires Turns(env, name, start, deadline, log) && Turns(env, name, start, deadline, log')
    requires n <= |log| && n <= |log'|
    ensures log[..n] == log'[..n]
    decreases n
  {
    if n > 0 {
      SameTurns(env, name, start, deadline, log, log', n - 1);
      TurnsBefore(env, name, start, deadline, log, n - 1);
      TurnsBefore(env, name, start, deadline, log', n - 1);
      TurnIsSettled(env, start, EventsOf(log[..n - 1]), NextTurnAt(env, start, log[..n - 1]), log[n - 1], log'[n - 1]);
      assert log[..n] == log[..n - 1] + [log[n - 1]];
      assert log'[..n] == log'[..n - 1] + [log'[n - 1]];
    }
  }

  lemma {:induction false} NoLongerAccount(env: Environment, name: string, start: nat, timeout: nat, log: seq<Observation>, log': seq<Observation>)
    requires Account(env, name, start, timeout, log) && Account(env, name, start, timeout, log')
    ensures |log'| <= |log|
  {
    if |log| < |log'| {
      assert log[..|log|] == log;
      SameTurns(env, name, start, start + timeout, log, log', |log|);
      TurnsBefore(env, name, start, start + timeout, log', |log|);
      assert false;
    }
  }

  /** Every environment has at most one account, hence one answer: nothing is left to choose. */
  lemma {:induction false} AccountUnique(env: Environment, name: string, start: nat, timeout: nat, log: seq<Observation>, log': seq<Observation>)
    requires Account(env, name, start, timeout, log) && Account(env, name, start, timeout, log')
    ensures log == log'
  {
    NoLongerAccount(env, name, start, timeout, log, log');
    NoLongerAccount(env, name, start, timeout, log', log);
    if env.watchOk {
      SameTurns(env, name, start, start + timeout, log, log', |log|);
      assert log[..|log|] == log && log'[..|log|] == log';
    }
  }

  lemma {:induction false} StreamGrows(env: Environment, lo: nat, hi: nat, hi': nat)
    requires lo <= hi <= hi'
    ensures Stream(env, lo, hi) <= Stream(env, lo, hi')
    decreases hi'
  {
    if hi < hi' {
      StreamGrows(env, lo, hi, hi' - 1);
    }
  }

  /** The events received are the first ones of the stream, none skipped. */
  lemma {:induction false} NothingSkipped(env: Environment, name: string, start: nat, deadline: nat, log: seq<Observation>, t: nat)
    requires Turns(env, name, start, deadline, log) && start <= t && (log != [] ==> log[|log| - 1].at <= t)
    ensures EventsOf(log) <= Stream(env, start, t)
    decreases |log|
  {
    if log != [] {
      var before, o := log[..|log| - 1], log[|log| - 1];
      NothingSkipped(env, name, start, deadline, before, o.at);
      StreamGrows(env, start, o.at, t);
    }
  }

  lemma {:induction false} PollsTakeTime(env: Environment, name: string, start: nat, deadline: nat, log: seq<Observation>)
    requires Turns(env, name, start, deadline, log)
    ensures start + PollsOf(log) * POLL_INTERVAL <= NextTurnAt(env, start, log)
    decreases |log|
  {
    if log != [] {
      PollsTakeTime(env, name, start, deadline, log[..|log| - 1]);
    }
  }

  /** The timer fires at most once for every two seconds of the timeout, and once more. */
  lemma {:induction false} PollBound(env: Environment, name: string, start: nat, timeout: nat, log: seq<Observation>)
    requires Account(env, name, start, timeout, log)
    ensures PollsOf(log) <= timeout / 2_000_000_000 + 1
  {
    if log != [] {
      PollsTakeTime(env, name, start, start + timeout, log[..|log| - 1]);
    }
  }

  /** The state of the awaited Job that an observation shows. */
  function StatusShown(name: string, o: Observation): Option<JobStatus> {
    match o
    case Delivered(_, e) => if !e.deleted && e.obj.JobObject? && e.obj.name == name then Some(e.obj.status) else None
    case AfterClose(_, fetched) => fetched
    case Polled(_, fetched) => fetched
  }

  predicate LastSeenSucceeded(name: string, log: seq<Observation>) {
    |log| > 0 && StatusShown(name, log[|log| - 1]).Some? && StatusShown(name, log[|log| - 1]).value.succeeded > 0
  }

  /** A result is that of the awaited Job as it was last seen: finished, or in whatever state it was
      when the channel had closed; so it is that of a finished Job if the channel stays open until the
      last poll. And the wait brings back a success exactly when the Job was last seen with a succeeded
      Pod. */
  lemma {:induction false} ResultOfTheJob(env: Environment, name: string, start: nat, timeout: nat, log: seq<Observation>)
    requires Account(env, name, start, timeout, log)
    ensures var r := AnswerOf(env, name, start, log);
            && (r.Ok? ==>
                  && |log| > 0 && StatusShown(name, log[|log| - 1]).Some?
                  && var s := StatusShown(name, log[|log| - 1]).value;
                  r.value == JobResult(name, s.succeeded > 0) && (Finished(s) || log[|log| - 1].AfterClose?))
            && (r.Ok? && r.value.succeeded <==> LastSeenSucceeded(name, log))
            && (r.Ok? && !Reached(env.closesAt, start + timeout + POLL_INTERVAL) ==> Finished(StatusShown(name, log[|log| - 1]).value))
  {
    if env.watchOk {
      LastTurnInTime(env, name, start, start + timeout, log);
    }
    if |log| > 0 {
      var o := log[|log| - 1];
      if StatusShown(name, o).Some? && StatusShown(name, o).value.succeeded > 0 {
        assert Decisive(name, o);
      }
    }
  }

  /** The state that decides is a finished one, by its conditions or by its counts. */
  lemma {:induction false} FinishedExactly(s: JobStatus)
    ensures Finished(s) <==>
            || Condition(JobComplete, true) in s.conditions || Condition(JobFailed, true) in s.conditions
            || s.succeeded > 0 || s.failed > 0
  {}

  // ----------------------------------------- deadline, cancellation and errors

  /** Every turn of a wait began after its predecessor, by the deadline and before any cancellation. So
      whatever was seen was seen at most two seconds after the deadline, and after a cancellation. */
  lemma {:induction false} TurnsBeginInTime(env: Environment, name: string, start: nat, timeout: nat, log: seq<Observation>, i: nat)
    requires Account(env, name, start, timeout, log) && i < |log|
    ensures var b := if i == 0 then start else log[i - 1].at + env.lag(i - 1);
            && start <= b <= start + timeout && b <= log[i].at <= b + 2_000_000_000
            && (env.cancelledAt.Some? ==> b < env.cancelledAt.value)
  {
    TurnsBefore(env, name, start, start + timeout, log, i);
    if i > 0 {
      assert log[..i][|log[..i]| - 1] == log[i - 1];
    }
  }

  /** A wait that is cancelled before it begins observes nothing. */
  lemma {:induction false} CancelledAtOnce(env: Environment, name: string, start: nat, timeout: nat, log: seq<Observation>)
    requires Account(env, name, start, timeout, log) && env.watchOk
    requires env.cancelledAt.Some? && env.cancelledAt.value <= start
    ensures log == [] && AnswerOf(env, name, start, log) == Err(Cancelled)
  {
    NoTurnAfter(env, name, start, start + timeout, log);
  }

  lemma {:induction false} NoTurnAfter(env: Environment, name: string, start: nat, deadline: nat, log: seq<Observation>)
    requires Turns(env, name, start, deadline, log) && !GoesOn(env, deadline, start)
    ensures log == []
    decreases |log|
  {
    if log != [] {
      NoTurnAfter(env, name, start, deadline, log[..|log| - 1]);
    }
  }

  predicate DecidesNothing(name: string, log: seq<Observation>) {
    log == [] || !Decisive(name, log[|log| - 1])
  }

  /** Without a deciding observation the wait ends where its next turn would begin: as cancelled if the
      cancellation has come by then, otherwise as timed out, and then that moment is past the deadline. */
  lemma {:induction false} UndecidedEnds(env: Environment, name: string, start: nat, timeout: nat, log: seq<Observation>)
    requires Account(env, name, start, timeout, log) && env.watchOk && DecidesNothing(name, log)
    ensures var b := if log == [] then start else log[|log| - 1].at + env.lag(|log| - 1);
            && (env.cancelledAt.Some? && env.cancelledAt.value <= b ==> AnswerOf(env, name, start, log) == Err(Cancelled))
            && (env.cancelledAt.None? || b < env.cancelledAt.value ==> AnswerOf(env, name, start, log) == Err(TimedOut) && b > start + timeout)
  {}

  /** The state that an observation shows of the Job, if it decides the wait by that. */
  predicate Settles(name: string, o: Observation, s: JobStatus) {
    match o
    case Delivered(_, e) => e == WatchEvent(false, JobObject(name, s)) && Finished(s)
    case AfterClose(_, fetched) => fetched == Some(s)
    case Polled(_, fetched) => fetched == Some(s) && Finished(s)
  }

  predicate SettledBy(name: string, log: seq<Observation>, s: JobStatus) {
    log != [] && Settles(name, log[|log| - 1], s)
  }

  /** What each answer means, and that there are no others: a result comes from a state that settles the
      wait, an error from a deletion, a failed fetch, a cancellation, a timeout or a watch that failed. */
  lemma {:induction false} AnswersExactly(env: Environment, name: string, start: nat, timeout: nat, log: seq<Observation>)
    requires Account(env, name, start, timeout, log)
    ensures var r := AnswerOf(env, name, start, log);
            && (forall s :: SettledBy(name, log, s) ==> r == Ok(JobResult(name, s.succeeded > 0)))
            && (r.Ok? ==> exists s :: SettledBy(name, log, s))
            && (r == Err(JobDeleted) <==> log != [] && log[|log| - 1].Delivered? && log[|log| - 1].event.deleted)
            && (r == Err(FetchFailed) <==> log != [] && !log[|log| - 1].Delivered? && log[|log| - 1].fetched.None?)
            && (r == Err(WatchFailed) <==> !env.watchOk)
  {
    var r := AnswerOf(env, name, start, log);
    if r.Ok? {
      assert SettledBy(name, log, StatusShown(name, log[|log| - 1]).value);
    }
  }

  /** A closed channel ends the wait with the next turn, unless events are still unread: no turn that
      begins after the closing waits or polls. */
  lemma {:induction false} ClosingEndsTheWait(env: Environment, name: string, start: nat, timeout: nat, log: seq<Observation>, c: nat, i: nat)
    requires Account(env, name, start, timeout, log) && env.closesAt == Some(c) && i < |log|
    ensures var b := if i == 0 then start else log[i - 1].at + env.lag(i - 1);
            && b >= start
            && (b >= c ==> log[i].at == b && !log[i].Polled?)
            && (b >= c && |EventsOf(log[..i])| < |Stream(env, start, b)| ==> log[i].Delivered?)
            && (log[i].AfterClose? ==> log[i].at >= c)
  {
    TurnsBefore(env, name, start, start + timeout, log, i);
    if i > 0 {
      assert log[..i][|log[..i]| - 1] == log[i - 1];
    }
    var b := NextTurnAt(env, start, log[..i]);
    assert b >= c ==> !Quiet(env, start, EventsOf(log[..i]), b);
  }

  // --------------------------------------------- a finished Job is not missed

  /** The event alone decides the wait. */
  predicate Announces(name: string, e: WatchEvent) {
    e.deleted || (e.obj.JobObject? && e.obj.name == name && Finished(e.obj.status))
  }

  predicate Prompt(env: Environment, lag: nat, turns: nat) {
    forall n | 0 <= n < turns :: env.lag(n) <= lag
  }

  lemma {:induction false} StreamAgrees(env: Environment, start: nat, t: nat, t': nat, k: nat)
    requires start <= t && start <= t' && k < |Stream(env, start, t)| && k < |Stream(env, start, t')|
    ensures Stream(env, start, t)[k] == Stream(env, start, t')[k]
  {
    if t <= t' {
      StreamGrows(env, start, t, t');
    } else {
      StreamGrows(env, start, t', t);
    }
  }

  /** While an announcement lies in the channel every turn receives an event at once. */
  lemma {:induction false} TurnBeforeAnnouncement(env: Environment, name: string, start: nat, received: seq<WatchEvent>, b: nat, o: Observation, t: nat, k: nat)
    requires start <= t && k < |Stream(env, start, t)| && Announces(name, Stream(env, start, t)[k])
    requires TurnOf(env, start, received, b, o) && |received| <= k && !Decisive(name, o)
    ensures o.Delivered? ==> |received| < k
    ensures b >= t ==> o.Delivered? && o.at == b
  {
    if b >= t {
      StreamGrows(env, start, t, b);
      assert !Quiet(env, start, received, b);
    }
    if o.Delivered? && |received| == k {
      StreamAgrees(env, start, t, o.at, k);
    }
  }

  lemma {:induction false} UnreadAnnouncement(env: Environment, name: string, start: nat, deadline: nat, log: seq<Observation>, t: nat, k: nat, lag: nat)
    requires Turns(env, name, start, deadline, log) && !Decided(name, log) && Prompt(env, lag, |log|)
    requires start <= t && k < |Stream(env, start, t)| && Announces(name, Stream(env, start, t)[k])
    ensures |EventsOf(log)| <= k
    ensures NextTurnAt(env, start, log) <= t + POLL_INTERVAL + lag + |EventsOf(log)| * lag
    decreases |log|
  {
    if log != [] {
      var before, o := log[..|log| - 1], log[|log| - 1];
      UnreadAnnouncement(env, name, start, deadline, before, t, k, lag);
      TurnBeforeAnnouncement(env, name, start, EventsOf(before), NextTurnAt(env, start, before), o, t, k);
      assert env.lag(|log| - 1) <= lag;
      TurnTakes(t, NextTurnAt(env, start, before), o.at, env.lag(|log| - 1), |EventsOf(before)|, |EventsOf(log)|, lag);
    }
  }

  lemma {:induction false} TurnTakes(t: nat, b: nat, at: nat, d: nat, n: nat, n': nat, lag: nat)
    requires b <= t + POLL_INTERVAL + lag + n * lag && n <= n' <= n + 1 && d <= lag
    requires if b < t then at <= b + POLL_INTERVAL else at == b && n' == n + 1
    ensures at + d <= t + POLL_INTERVAL + lag + n' * lag
  {
    if n' == n + 1 {
      assert n' * lag == n * lag + lag;
    }
  }

  /** Every fetch from `t` to `horizon` decides the wait. */
  predicate FetchesDecide(env: Environment, t: nat, horizon: nat) {
    forall u | t <= u <= horizon :: env.fetch(u).None? || Finished(env.fetch(u).value)
  }

  lemma {:induction false} NotYetPolled(env: Environment, name: string, start: nat, deadline: nat, log: seq<Observation>, t: nat, lag: nat)
    requires Turns(env, name, start, deadline, log) && !Decided(name, log) && Prompt(env, lag, |log|)
    requires start <= t && FetchesDecide(env, t, deadline + POLL_INTERVAL)
    ensures NextTurnAt(env, start, log) <= t + (|EventsOf(log)| + 1) * (POLL_INTERVAL + lag)
    decreases |log|
  {
    if log != [] {
      var before, o := log[..|log| - 1], log[|log| - 1];
      NotYetPolled(env, name, start, deadline, before, t, lag);
      if o.Delivered? {
        assert (|EventsOf(log)| + 1) * (POLL_INTERVAL + lag) == (|EventsOf(before)| + 1) * (POLL_INTERVAL + lag) + (POLL_INTERVAL + lag);
      }
      assert |EventsOf(log)| * (POLL_INTERVAL + lag) >= 0;
    }
  }

  /** Up to `horizon` nobody deletes the Job, closes the channel or cancels, and every fetch gets through. */
  ghost predicate Untroubled(env: Environment, start: nat, horizon: nat)
    requires start <= horizon
  {
    && env.watchOk && !Reached(env.closesAt, horizon) && !Reached(env.cancelledAt, horizon)
    && (forall k :: 0 <= k < |Stream(env, start, horizon)| ==> !Stream(env, start, horizon)[k].deleted)
    && (forall u :: start <= u <= horizon ==> env.fetch(u).Some?)
  }

  /** The Job is seen finished early enough, by an announcement that comes as the k-th event at `t`, or
      by every fetch from `t` on, when no turn of the loop takes longer than `lag`. Each event still
      unread takes a turn; before a fetch the channel must fall silent, so there every event counts. */
  ghost predicate SeenInTime(env: Environment, name: string, start: nat, timeout: nat, t: nat, lag: nat) {
    && start <= t && (forall n :: env.lag(n) <= lag)
    && ((exists k: nat :: k < |Stream(env, start, t)| && Announces(name, Stream(env, start, t)[k])
           && t + POLL_INTERVAL + (k + 1) * lag <= start + timeout)
        || (&& FetchesDecide(env, t, start + timeout + POLL_INTERVAL)
            && t + (|Stream(env, start, start + timeout + POLL_INTERVAL)| + 1) * (POLL_INTERVAL + lag) <= start + timeout))
  }

  lemma {:induction false} DecidedInTime(env: Environment, name: string, start: nat, timeout: nat, log: seq<Observation>, t: nat, lag: nat)
    requires Account(env, name, start, timeout, log) && Untroubled(env, start, start + timeout + POLL_INTERVAL)
    requires SeenInTime(env, name, start, timeout, t, lag)
    ensures Decided(name, log)
  {
    if !Decided(name, log) {
      var horizon := start + timeout + POLL_INTERVAL;
      assert Prompt(env, lag, |log|);
      if k: nat :| k < |Stream(env, start, t)| && Announces(name, Stream(env, start, t)[k])
                   && t + POLL_INTERVAL + (k + 1) * lag <= start + timeout {
        UnreadAnnouncement(env, name, start, start + timeout, log, t, k, lag);
        NoMore(|EventsOf(log)|, k, lag);
      } else {
        NotYetPolled(env, name, start, start + timeout, log, t, lag);
        LastTurnInTime(env, name, start, start + timeout, log);
        NothingSkipped(env, name, start, start + timeout, log, horizon);
        NoMore(|EventsOf(log)| + 1, |Stream(env, start, horizon)| + 1, POLL_INTERVAL + lag);
      }
      assert false;
    }
  }

  lemma {:induction false} NoMore(a: nat, b: nat, c: nat)
    requires a <= b
    ensures a * c <= b * c && (b + 1) * c == b * c + c
  {}

  lemma {:induction false} LastTurnInTime(env: Environment, name: string, start: nat, deadline: nat, log: seq<Observation>)
    requires Turns(env, name, start, deadline, log)
    ensures log != [] ==> start <= log[|log| - 1].at <= deadline + POLL_INTERVAL
  {}

  /** A finished Job that can be seen early enough before the deadline is reported: with no deletion, no
      closing, no cancellation and no failed fetch the answer is the Job's result. */
  lemma {:induction false} FinishIsReported(env: Environment, name: string, start: nat, timeout: nat, log: seq<Observation>, t: nat, lag: nat)
    requires Account(env, name, start, timeout, log) && Untroubled(env, start, start + timeout + POLL_INTERVAL)
    requires SeenInTime(env, name, start, timeout, t, lag)
    ensures AnswerOf(env, name, start, log).Ok?
    ensures log != [] && StatusShown(name, log[|log| - 1]).Some? && Finished(StatusShown(name, log[|log| - 1]).value)
    ensures log[|log| - 1].Delivered? || log[|log| - 1].Polled?
    ensures start <= log[|log| - 1].at <= start + timeout + POLL_INTERVAL
  {
    DecidedInTime(env, name, start, timeout, log, t, lag);
    LastTurnInTime(env, name, start, start + timeout, log);
    var o := log[|log| - 1];
    if o.Delivered? {
      LastIsInStream(env, name, start, start + timeout, log, start + timeout + POLL_INTERVAL);
    }
  }

  lemma {:induction false} LastIsInStream(env: Environment, name: string, start: nat, deadline: nat, log: seq<Observation>, horizon: nat)
    requires Turns(env, name, start, deadline, log) && log != [] && log[|log| - 1].Delivered?
    requires log[|log| - 1].at <= horizon
    ensures start <= horizon && log[|log| - 1].event in Stream(env, start, horizon)
  {
    var o, received := log[|log| - 1], EventsOf(log[..|log| - 1]);
    StreamGrows(env, start, o.at, horizon);
    assert Stream(env, start, horizon)[|received|] == o.event;
  }

  /** Every finished state the environment shows by `horizon` has a succeeded Pod. */
  ghost predicate OnlySucceeds(env: Environment, name: string, start: nat, horizon: nat)
    requires start <= horizon
  {
    && (forall e :: e in Stream(env, start, horizon) && e.obj.JobObject? && e.obj.name == name && Finished(e.obj.status) ==> e.obj.status.succeeded > 0)
    && (forall u :: start <= u <= horizon && env.fetch(u).Some? && Finished(env.fetch(u).value) ==> env.fetch(u).value.succeeded > 0)
  }

  /** So a success that can be seen early enough is reported as one. */
  lemma {:induction false} SuccessIsReported(env: Environment, name: string, start: nat, timeout: nat, log: seq<Observation>, t: nat, lag: nat)
    requires Account(env, name, start, timeout, log) && Untroubled(env, start, start + timeout + POLL_INTERVAL)
    requires SeenInTime(env, name, start, timeout, t, lag) && OnlySucceeds(env, name, start, start + timeout + POLL_INTERVAL)
    ensures LastSeenSucceeded(name, log)
  {
    FinishIsReported(env, name, start, timeout, log, t, lag);
    if log[|log| - 1].Delivered? {
      LastIsInStream(env, name, start, start + timeout, log, start + timeout + POLL_INTERVAL);
    } else {
      var before := log[..|log| - 1];
      assert TurnOf(env, start, EventsOf(before), NextTurnAt(env, start, before), log[|log| - 1]);
    }
  }

  // ------------------------------------------ answers one might not expect

  const RUNNING := JobStatus([], 0, 0)
  const SUCCEEDED := JobStatus([Condition(JobComplete, true)], 1, 0)
  const RETRYING := JobStatus([], 0, 1)

  lemma {:induction false} OneTurn(env: Environment, name: string, start: nat, timeout: nat, o: Observation)
    requires env.watchOk && GoesOn(env, start + timeout, start) && TurnOf(env, start, [], start, o) && Decisive(name, o)
    ensures Account(env, name, start, timeout, [o]) && AnswerOf(env, name, start, [o]) == VerdictOf(name, o)
  {
    assert [o][..0] == [];
    assert Turns(env, name, start, start + timeout, []);
  }

  /** The watch closes at once while the Job is running. */
  const CLOSING := Environment(true, t => [], Some(0), None, t => Some(RUNNING), t => false, n => 0)

  /** An unfinished Job is reported as one that did not succeed, whatever the timeout. */
  lemma {:induction false} UnfinishedIsReported(name: string, timeout: nat, log: seq<Observation>)
    requires Account(CLOSING, name, 0, timeout, log)
    ensures AnswerOf(CLOSING, name, 0, log) == Ok(JobResult(name, false)) && !Finished(RUNNING)
    ensures Account(CLOSING, name, 0, timeout, [AfterClose(0, Some(RUNNING))])
  {
    OneTurn(CLOSING, name, 0, timeout, AfterClose(0, Some(RUNNING)));
    AccountUnique(CLOSING, name, 0, timeout, log, [AfterClose(0, Some(RUNNING))]);
  }

  /** A first Pod fails; from the next instant on the Job has succeeded. */
  function Retried(name: string): Environment {
    Environment(true, t => if t == 0 then [WatchEvent(false, JobObject(name, RETRYING))] else [], None, None,
                t => Some(if t == 0 then RETRYING else SUCCEEDED), t => false, n => 0)
  }

  /** The first failed Pod ends the wait, though the Job goes on to succeed. */
  lemma {:induction false} FirstFailureIsReported(name: string, timeout: nat, log: seq<Observation>)
    requires Account(Retried(name), name, 0, timeout, log)
    ensures AnswerOf(Retried(name), name, 0, log) == Ok(JobResult(name, false))
    ensures forall t :: t > 0 ==> Retried(name).fetch(t) == Some(SUCCEEDED)
    ensures Account(Retried(name), name, 0, timeout, [Delivered(0, WatchEvent(false, JobObject(name, RETRYING)))])
  {
    var o := Delivered(0, WatchEvent(false, JobObject(name, RETRYING)));
    assert Stream(Retried(name), 0, 0) == [o.event];
    OneTurn(Retried(name), name, 0, timeout, o);
    AccountUnique(Retried(name), name, 0, timeout, log, [o]);
  }

  const NOISE := WatchEvent(false, OtherObject)

  /** The Job has succeeded, but the watch tells of other things at every instant. */
  const NOISY := Environment(true, t => [NOISE], None, None, t => Some(SUCCEEDED), t => false, n => 1)

  function Noise(n: nat): seq<Observation> {
    if n == 0 then [] else Noise(n - 1) + [Delivered(n - 1, NOISE)]
  }

  lemma {:induction false} NoisyStream(t: nat)
    ensures |Stream(NOISY, 0, t)| == t + 1 && Stream(NOISY, 0, t)[t] == NOISE
    decreases t
  {
    if t > 0 {
      NoisyStream(t - 1);
    }
  }

  lemma {:induction false} NoisyTurns(name: string, timeout: nat, n: nat)
    requires n <= timeout + 1
    ensures Turns(NOISY, name, 0, timeout, Noise(n)) && !Decided(name, Noise(n))
    ensures |Noise(n)| == n && |EventsOf(Noise(n))| == n && NextTurnAt(NOISY, 0, Noise(n)) == n
    decreases n
  {
    if n > 0 {
      NoisyTurns(name, timeout, n - 1);
      NoisyStream(n - 1);
      LogSnoc(Noise(n - 1), Delivered(n - 1, NOISE));
    }
  }

  /** The timer starts afresh at every turn, so events that keep coming keep the loop from ever fetching
      the Job: it times out on a Job that succeeded before the wait began. */
  lemma {:induction false} NoiseStarvesPolling(name: string, timeout: nat, log: seq<Observation>)
    requires Account(NOISY, name, 0, timeout, log)
    ensures AnswerOf(NOISY, name, 0, log) == Err(TimedOut)
    ensures Account(NOISY, name, 0, timeout, Noise(timeout + 1))
  {
    NoisyTurns(name, timeout, timeout + 1);
    AccountUnique(NOISY, name, 0, timeout, log, Noise(timeout + 1));
  }

  /** One turn: what the `select` brought, and the answer if that ends the wait. */
  method Turn(watch: Watch, jobName: string) returns (answer: Option<Result<JobResult, WaitError>>, ghost o: Observation)
    requires watch.Valid()
    modifies watch
    ensures watch.Valid() && watch.now == o.at
    ensures TurnOf(watch.env, watch.openedAt, old(watch.received), old(watch.now), o)
    ensures watch.now == old(watch.now) ==> |watch.queue| < |old(watch.queue)| || answer.Some?
    ensures watch.received == old(watch.received) + if o.Delivered? then [o.event] else []
    ensures answer == if Decisive(jobName, o) then Some(VerdictOf(jobName, o)) else None
  {
    var signal := watch.Select();
    match signal {
      case ChannelClosed =>
        var fetched := watch.env.fetch(watch.now);
        o := AfterClose(watch.now, fetched);
        answer := Some(if fetched.None? then Err(FetchFailed) else Ok(CollectResult(jobName, fetched.value)));
      case Received(event) =>
        o := Delivered(watch.now, event);
        if event.deleted {
          return Some(Err(JobDeleted)), o;
        }
        if event.obj.OtherObject? || event.obj.name != jobName {
          return None, o;
        }
        answer := None;
        if IsJobComplete(event.obj.status) || IsJobFailed(event.obj.status) {
          answer := Some(Ok(CollectResult(jobName, event.obj.status)));
        }
      case Timer =>
        var fetched := watch.env.fetch(watch.now);
        o := Polled(watch.now, fetched);
        if fetched.None? {
          return Some(Err(FetchFailed)), o;
        }
        answer := None;
        if IsJobComplete(fetched.value) || IsJobFailed(fetched.value) {
          answer := Some(Ok(CollectResult(jobName, fetched.value)));
        }
    }
  }

  /** The answer of a wait, which `AccountUnique` says there is only one of. */
  ghost predicate Answers(env: Environment, name: string, start: nat, timeout: nat, r: Result<JobResult, WaitError>) {
    exists log: seq<Observation> :: Account(env, name, start, timeout, log) && r == AnswerOf(env, name, start, log)
  }

  lemma {:induction false} OneAnswer(env: Environment, name: string, start: nat, timeout: nat,
                                     r: Result<JobResult, WaitError>, r': Result<JobResult, WaitError>)
    requires Answers(env, name, start, timeout, r) && Answers(env, name, start, timeout, r')
    ensures r == r'
  {
    var log: seq<Observation> :| Account(env, name, start, timeout, log) && r == AnswerOf(env, name, start, log);
    var log': seq<Observation> :| Account(env, name, start, timeout, log') && r' == AnswerOf(env, name, start, log');
    AccountUnique(env, name, start, timeout, log, log');
  }

  /** The wait ends, for every environment, with the answer of its account. */
  method Wait(env: Environment, jobName: string, start: nat, timeout: nat)
    returns (r: Result<JobResult, WaitError>, ghost log: seq<Observation>)
    ensures Account(env, jobName, start, timeout, log)
    ensures r == AnswerOf(env, jobName, start, log)
    ensures Answers(env, jobName, start, timeout, r)
  {
    log := [];
    if !env.watchOk {
      return Err(WatchFailed), log;
    }
    var watch := new Watch(env, start);
    var deadline := start + timeout;
    var turn := 0;
    while true
      invariant watch.Valid() && watch.env == env && watch.openedAt == start && fresh(watch)
      invariant turn == |log| && watch.now == NextTurnAt(env, start, log) && watch.received == EventsOf(log)
      invariant Turns(env, jobName, start, deadline, log) && !Decided(jobName, log)
      decreases if watch.now <= deadline then deadline - watch.now + 1 else 0, |watch.queue|
    {
      if Reached(env.cancelledAt, watch.now) {
        return Err(Cancelled), log;
      }
      if watch.now > deadline {
        return Err(TimedOut), log;
      }
      ghost var o;
      var answer;
      answer, o := Turn(watch, jobName);
      TurnsSnoc(env, jobName, start, deadline, log, o);
      LogSnoc(log, o);
      log := log + [o];
      if answer.Some? {
        return answer.value, log;
      }
      watch.Pass(env.lag(turn));
      turn := turn + 1;
    }
  }
}
