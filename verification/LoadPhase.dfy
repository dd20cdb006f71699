/** One load phase of the benchmark: a closed-loop worker pool behind a barrier, sharing `submitted`, `stop`, `rows`
    and `start`. A state machine whose steps are the sections between blocking points; every access to the shared
    variables happens under the lock, so each lock section is one step. */
module LoadPhase {
  import opened Sequences
  import opened StreamRows

  datatype Config = Config(concurrency: nat, limit: nat, seconds: real)

  /** Where a worker thread is. `Crashed` is the arithmetic error of reading `start` before it is set. */
  datatype Worker = Created | Waiting | Ready | Calling | Holding(row: Row) | Exited(at: real) | Crashed

  /** Where the main thread is. */
  datatype Main = Submitting | Started | AtBarrier | Joining(next: nat) | Finished

  datatype State = State(
    main: Main,
    workers: seq<Worker>,
    arrived: nat,
    start: Option<real>,
    clock: real,
    submitted: nat,
    stop: bool,
    rows: seq<Row>)

  datatype Step =
    | Tick(now: real)
    | Submit
    | ReadClock
    | MainArrives
    | MainPasses
    | Join
    | Finish
    | Arrive(w: nat)
    | Pass(w: nat)
    | Decide(w: nat)
    | Return(w: nat, row: Row)
    | Record(w: nat)

  ghost predicate Init(s: State) {
    s.main == Submitting && s.workers == [] && s.arrived == 0 && s.start.None? && s.submitted == 0 && !s.stop && s.rows == []
  }

  /** The barrier opens once all parties, the workers and the main thread, have reached it. */
  predicate Open(c: Config, s: State) {
    s.arrived == c.concurrency + 1
  }

  predicate At(s: State, w: nat, where: Worker) {
    w < |s.workers| && s.workers[w] == where
  }

  predicate Elapsed(c: Config, s: State) {
    s.start.Some? && s.clock - s.start.value >= c.seconds
  }

  predicate Enabled(c: Config, s: State, step: Step) {
    match step
    case Tick(now) => now >= s.clock
    case Submit => s.main == Submitting && |s.workers| < c.concurrency
    case ReadClock => s.main == Submitting && |s.workers| == c.concurrency
    case MainArrives => s.main == Started
    case MainPasses => s.main == AtBarrier && Open(c, s)
    case Join => s.main.Joining? && s.main.next < |s.workers| && s.workers[s.main.next].Exited?
    case Finish => s.main.Joining? && s.main.next == |s.workers|
    case Arrive(w) => At(s, w, Created)
    case Pass(w) => At(s, w, Waiting) && Open(c, s)
    case Decide(w) => At(s, w, Ready)
    case Return(w, _) => At(s, w, Calling)
    case Record(w) => w < |s.workers| && s.workers[w].Holding?
  }

  function Move(s: State, w: nat, to: Worker): State
    requires w < |s.workers|
  {
    s.(workers := s.workers[w := to])
  }

  /** The head of a worker's loop: give up, or claim one submission. */
  function Decision(c: Config, s: State, w: nat): State
    requires w < |s.workers|
  {
    if s.stop || s.submitted >= c.limit then Move(s, w, Exited(s.clock))
    else if s.start.None? then Move(s, w, Crashed)
    else if s.clock - s.start.value >= c.seconds then Move(s, w, Exited(s.clock))
    else Move(s, w, Calling).(submitted := s.submitted + 1)
  }

  function Apply(c: Config, s: State, step: Step): State
    requires Enabled(c, s, step)
  {
    match step
    case Tick(now) => s.(clock := now)
    case Submit => s.(workers := s.workers + [Created])
    case ReadClock => s.(main := Started, start := Some(s.clock))
    case MainArrives => s.(main := AtBarrier, arrived := s.arrived + 1)
    case MainPasses => s.(main := Joining(0))
    case Join => s.(main := Joining(s.main.next + 1))
    case Finish => s.(main := Finished)
    case Arrive(w) => Move(s, w, Waiting).(arrived := s.arrived + 1)
    case Pass(w) => Move(s, w, Ready)
    case Decide(w) => Decision(c, s, w)
    case Return(w, row) => Move(s, w, Holding(row))
    case Record(w) =>
      var row := s.workers[w].row;
      Move(s, w, Ready).(rows := s.rows + [row], stop := s.stop || !row.qualityPass)
  }

  /** A run: some interleaving of the threads, with the states it passes through. */
  ghost predicate Run(c: Config, states: seq<State>, steps: seq<Step>) {
    && |states| == |steps| + 1
    && Init(states[0])
    && forall i :: 0 <= i < |steps| ==> Enabled(c, states[i], steps[i]) && states[i + 1] == Apply(c, states[i], steps[i])
  }

  // ---- Sums over the pool ----

  function Sum(workers: seq<Worker>, f: Worker -> nat): nat {
    if workers == [] then 0 else Sum(workers[..|workers| - 1], f) + f(workers[|workers| - 1])
  }

  lemma {:induction false} SumUpdate(workers: seq<Worker>, f: Worker -> nat, w: nat, to: Worker)
    requires w < |workers|
    ensures Sum(workers[w := to], f) == Sum(workers, f) - f(workers[w]) + f(to)
  {
    var n := |workers| - 1;
    if w == n {
      assert workers[w := to][..n] == workers[..n];
    } else {
      assert workers[w := to][..n] == workers[..n][w := to];
      SumUpdate(workers[..n], f, w, to);
    }
  }

  lemma SumAppend(workers: seq<Worker>, f: Worker -> nat, x: Worker)
    ensures Sum(workers + [x], f) == Sum(workers, f) + f(x)
  {
    assert (workers + [x])[..|workers|] == workers;
  }

  /** `f` is `value` at every worker. */
  ghost predicate Throughout(workers: seq<Worker>, f: Worker -> nat, value: nat) {
    forall i :: 0 <= i < |workers| ==> f(workers[i]) == value
  }

  lemma ThroughoutStep(workers: seq<Worker>, f: Worker -> nat, value: nat)
    requires workers != []
    ensures Throughout(workers, f, value) <==>
            Throughout(workers[..|workers| - 1], f, value) && f(workers[|workers| - 1]) == value
  {
    var front := workers[..|workers| - 1];
    assert forall i :: 0 <= i < |front| ==> front[i] == workers[i];
  }

  lemma {:induction false} SumExtremes(workers: seq<Worker>, f: Worker -> nat)
    requires forall i :: 0 <= i < |workers| ==> f(workers[i]) <= 1
    ensures Sum(workers, f) <= |workers|
    ensures Sum(workers, f) == |workers| <==> Throughout(workers, f, 1)
    ensures Sum(workers, f) == 0 <==> Throughout(workers, f, 0)
  {
    if workers != [] {
      SumExtremes(workers[..|workers| - 1], f);
      ThroughoutStep(workers, f, 1);
      ThroughoutStep(workers, f, 0);
    }
  }

  lemma SumAtMost(workers: seq<Worker>, f: Worker -> nat)
    requires forall x :: x in workers ==> f(x) <= 1
    ensures Sum(workers, f) <= |workers|
    ensures Sum(workers, f) == |workers| <==> forall x :: x in workers ==> f(x) == 1
    ensures Sum(workers, f) == 0 <==> forall x :: x in workers ==> f(x) == 0
  {
    SumExtremes(workers, f);
  }

  function HasArrived(x: Worker): nat {
    if x.Created? then 0 else 1
  }

  /** Issued and not yet recorded. */
  function InFlight(x: Worker): nat {
    if x.Calling? || x.Holding? then 1 else 0
  }

  function MainArrived(s: State): nat {
    if s.main.Submitting? || s.main.Started? then 0 else 1
  }

  predicate Failed(row: Row) {
    !row.qualityPass
  }

  // ---- The invariant ----

  ghost predicate WorkerSound(c: Config, s: State, x: Worker) {
    && !x.Crashed?
    && (x.Ready? || x.Calling? || x.Holding? || x.Exited? ==> Open(c, s))
    && (x.Exited? ==>
          s.stop || s.submitted >= c.limit || (s.start.Some? && x.at - s.start.value >= c.seconds))
  }

  ghost predicate Invariant(c: Config, s: State) {
    && |s.workers| <= c.concurrency
    && (s.main.Submitting? ==> s.start.None?)
    && (!s.main.Submitting? ==> |s.workers| == c.concurrency && s.start.Some? && s.start.value <= s.clock)
    && (s.main.Joining? || s.main.Finished? ==> Open(c, s))
    && (s.main.Joining? ==> s.main.next <= |s.workers| && forall i :: 0 <= i < s.main.next ==> s.workers[i].Exited?)
    && (s.main.Finished? ==> forall i :: 0 <= i < |s.workers| ==> s.workers[i].Exited?)
    && s.arrived == Sum(s.workers, HasArrived) + MainArrived(s)
    && s.submitted <= c.limit
    && s.submitted == |s.rows| + Sum(s.workers, InFlight)
    && (s.stop <==> exists row :: row in s.rows && Failed(row))
    && (forall x :: x in s.workers ==> WorkerSound(c, s, x))
  }

  /** An open barrier means everyone arrived, the main thread with its clock read. */
  lemma OpenMeansStarted(c: Config, s: State)
    requires Invariant(c, s) && Open(c, s)
    ensures s.start.Some? && |s.workers| == c.concurrency && forall x :: x in s.workers ==> !x.Created?
  {
    SumAtMost(s.workers, HasArrived);
  }

  lemma MoveKeeps(c: Config, s: State, w: nat, to: Worker)
    requires w < |s.workers|
    ensures forall x :: x in Move(s, w, to).workers ==> x in s.workers || x == to
    ensures Sum(Move(s, w, to).workers, HasArrived) == Sum(s.workers, HasArrived) - HasArrived(s.workers[w]) + HasArrived(to)
    ensures Sum(Move(s, w, to).workers, InFlight) == Sum(s.workers, InFlight) - InFlight(s.workers[w]) + InFlight(to)
  {
    SumUpdate(s.workers, HasArrived, w, to);
    SumUpdate(s.workers, InFlight, w, to);
  }

  lemma MainKeeps(c: Config, s: State, step: Step)
    requires Invariant(c, s) && Enabled(c, s, step)
    requires step.Tick? || step.ReadClock? || step.MainArrives? || step.MainPasses? || step.Join? || step.Finish?
    ensures Invariant(c, Apply(c, s, step))
  {
    var t := Apply(c, s, step);
    SumAtMost(s.workers, HasArrived);
    forall x | x in t.workers ensures WorkerSound(c, t, x) {
      assert x in s.workers;
      assert MainArrived(s) == 0 ==> !Open(c, s);
    }
  }

  lemma SubmitKeeps(c: Config, s: State)
    requires Invariant(c, s) && Enabled(c, s, Submit)
    ensures Invariant(c, Apply(c, s, Submit))
  {
    var t := Apply(c, s, Submit);
    SumAppend(s.workers, HasArrived, Created);
    SumAppend(s.workers, InFlight, Created);
    forall x | x in t.workers ensures WorkerSound(c, t, x) {
      assert x in s.workers || x == Created;
    }
  }

  lemma ArriveKeeps(c: Config, s: State, w: nat)
    requires Invariant(c, s) && Enabled(c, s, Arrive(w))
    ensures Invariant(c, Apply(c, s, Arrive(w)))
  {
    var t := Apply(c, s, Arrive(w));
    MoveKeeps(c, s, w, Waiting);
    assert s.workers[w] in s.workers;
    assert !Open(c, s) by {
      if Open(c, s) {
        OpenMeansStarted(c, s);
      }
    }
    forall x | x in t.workers ensures WorkerSound(c, t, x) {
      assert x in s.workers || x == Waiting;
    }
  }

  /** A worker that goes on without counting: through the barrier, or with its call returned. */
  lemma MoveOnKeeps(c: Config, s: State, w: nat, to: Worker)
    requires Invariant(c, s) && w < |s.workers| && (to.Ready? || to.Holding?) && Open(c, s)
    requires !s.workers[w].Created? && !s.workers[w].Exited? && InFlight(to) == InFlight(s.workers[w])
    ensures Invariant(c, Move(s, w, to))
  {
    var t := Move(s, w, to);
    MoveKeeps(c, s, w, to);
    OpenMeansStarted(c, s);
    forall x | x in t.workers ensures WorkerSound(c, t, x) {
      assert x in s.workers || x == to;
    }
  }

  lemma DecideKeeps(c: Config, s: State, w: nat)
    requires Invariant(c, s) && Enabled(c, s, Decide(w))
    ensures Invariant(c, Decision(c, s, w))
  {
    var t := Decision(c, s, w);
    assert s.workers[w] in s.workers && WorkerSound(c, s, s.workers[w]);
    OpenMeansStarted(c, s);
    MoveKeeps(c, s, w, t.workers[w]);
    forall x | x in t.workers ensures WorkerSound(c, t, x) {
      assert x in s.workers || x == t.workers[w];
    }
  }

  lemma RecordKeeps(c: Config, s: State, w: nat)
    requires Invariant(c, s) && Enabled(c, s, Record(w))
    ensures Invariant(c, Apply(c, s, Record(w)))
  {
    var t := Apply(c, s, Record(w));
    MoveKeeps(c, s, w, Ready);
    assert s.workers[w] in s.workers;
    var row := s.workers[w].row;
    assert t.stop <==> exists r :: r in t.rows && Failed(r) by {
      assert forall r :: r in t.rows <==> r in s.rows || r == row;
      assert t.stop <==> s.stop || Failed(row);
    }
    forall x | x in t.workers ensures WorkerSound(c, t, x) {
    }
  }

  /** Every step of every thread keeps the invariant. */
  lemma StepKeeps(c: Config, s: State, step: Step)
    requires Invariant(c, s) && Enabled(c, s, step)
    ensures Invariant(c, Apply(c, s, step))
  {
    match step {
      case Tick(_) => MainKeeps(c, s, step);
      case Submit => SubmitKeeps(c, s);
      case ReadClock => MainKeeps(c, s, step);
      case MainArrives => MainKeeps(c, s, step);
      case MainPasses => MainKeeps(c, s, step);
      case Join => MainKeeps(c, s, step);
      case Finish => MainKeeps(c, s, step);
      case Arrive(w) => ArriveKeeps(c, s, w);
      case Pass(w) => MoveOnKeeps(c, s, w, Ready);
      case Decide(w) => DecideKeeps(c, s, w);
      case Return(w, row) =>
        assert s.workers[w] in s.workers && WorkerSound(c, s, s.workers[w]);
        MoveOnKeeps(c, s, w, Holding(row));
      case Record(w) => RecordKeeps(c, s, w);
    }
  }

  lemma {:induction false} RunKeeps(c: Config, states: seq<State>, steps: seq<Step>, n: nat)
    requires Run(c, states, steps) && n < |states|
    ensures Invariant(c, states[n])
  {
    if n > 0 {
      RunKeeps(c, states, steps, n - 1);
      StepKeeps(c, states[n - 1], steps[n - 1]);
    }
  }

  // ---- What holds throughout every run ----

  /** Calls never exceed the limit, outstanding calls never exceed the pool, and no worker reads an unset clock. */
  lemma RunSafe(c: Config, states: seq<State>, steps: seq<Step>, n: nat)
    requires Run(c, states, steps) && n < |states|
    ensures var s := states[n];
      && s.submitted <= c.limit
      && Sum(s.workers, InFlight) <= c.concurrency
      && |s.rows| + Sum(s.workers, InFlight) == s.submitted
      && Crashed !in s.workers
      && (forall w: nat :: At(s, w, Ready) ==> s.start.Some?)
      && (s.stop <==> exists row :: row in s.rows && Failed(row))
  {
    RunKeeps(c, states, steps, n);
    var s := states[n];
    SumAtMost(s.workers, InFlight);
    forall w: nat | At(s, w, Ready) ensures s.start.Some? {
      assert s.workers[w] in s.workers;
      OpenMeansStarted(c, s);
    }
  }

  /** No worker may claim another call: a check has failed, the limit is used up, or the window has passed. */
  predicate Closed(c: Config, s: State) {
    s.stop || s.submitted >= c.limit || Elapsed(c, s)
  }

  lemma StepMonotone(c: Config, s: State, step: Step)
    requires Invariant(c, s) && Enabled(c, s, step)
    ensures var t := Apply(c, s, step);
      && s.rows <= t.rows
      && (s.stop ==> t.stop)
      && s.submitted <= t.submitted
      && (Closed(c, s) ==> Closed(c, t) && t.submitted == s.submitted)
  {
    match step {
      case Decide(_) =>
      case _ =>
    }
  }

  /** Once issuing is closed nothing more is ever issued; recorded rows are never lost or reordered. */
  lemma {:induction false} NothingIssuedOnceClosed(c: Config, states: seq<State>, steps: seq<Step>, i: nat, j: nat)
    requires Run(c, states, steps) && i <= j < |states|
    ensures states[i].rows <= states[j].rows
    ensures states[i].stop ==> states[j].stop
    ensures Closed(c, states[i]) ==> Closed(c, states[j]) && states[j].submitted == states[i].submitted
    decreases j
  {
    if i < j {
      NothingIssuedOnceClosed(c, states, steps, i, j - 1);
      RunKeeps(c, states, steps, j - 1);
      StepMonotone(c, states[j - 1], steps[j - 1]);
    }
  }

  /** A worker that looks while issuing is open claims exactly one call; once it is closed the worker leaves, then and there. */
  lemma DecisionTells(c: Config, s: State, w: nat)
    requires Invariant(c, s) && Enabled(c, s, Decide(w))
    ensures Apply(c, s, Decide(w)) ==
      if Closed(c, s) then s.(workers := s.workers[w := Exited(s.clock)])
      else s.(workers := s.workers[w := Calling], submitted := s.submitted + 1)
  {
    assert s.workers[w] in s.workers;
    OpenMeansStarted(c, s);
  }

  lemma ExitStep(c: Config, s: State, step: Step, w: nat)
    requires Invariant(c, s) && Enabled(c, s, step)
    requires w < |Apply(c, s, step).workers| && Apply(c, s, step).workers[w].Exited?
    ensures At(s, w, Apply(c, s, step).workers[w])
         || (step == Decide(w) && Closed(c, s) && Apply(c, s, step).workers[w] == Exited(s.clock))
  {
    if step.Decide? {
      DecisionTells(c, s, step.w);
    }
  }

  /** Every worker that has left did so in a step of its own, at a moment when issuing was closed. */
  lemma {:induction false} ExitTells(c: Config, states: seq<State>, steps: seq<Step>, n: nat, w: nat)
    requires Run(c, states, steps) && n < |states| && w < |states[n].workers| && states[n].workers[w].Exited?
    ensures exists i :: 0 <= i < n && steps[i] == Decide(w) && Closed(c, states[i]) && states[n].workers[w] == Exited(states[i].clock)
  {
    if n > 0 {
      RunKeeps(c, states, steps, n - 1);
      ExitStep(c, states[n - 1], steps[n - 1], w);
      if steps[n - 1] != Decide(w) || !Closed(c, states[n - 1]) || states[n].workers[w] != Exited(states[n - 1].clock) {
        ExitTells(c, states, steps, n - 1, w);
      }
    }
  }

  lemma StartStep(c: Config, s: State, step: Step)
    requires Invariant(c, s) && Enabled(c, s, step)
    ensures var t := Apply(c, s, step);
      && s.clock <= t.clock
      && (t.start == s.start || (step == ReadClock && t.start == Some(s.clock) && |s.workers| == c.concurrency))
      && (t.submitted > s.submitted ==> Open(c, s))
      && (Open(c, s) ==> Open(c, t))
  {
    SumAtMost(s.workers, HasArrived);
    if step.Decide? {
      assert s.workers[step.w] in s.workers;
    }
    if step.Arrive? {
      assert s.workers[step.w] in s.workers;
      if Open(c, s) {
        OpenMeansStarted(c, s);
      }
    }
  }

  /** No call is issued before every worker and the main thread have reached the barrier. */
  lemma {:induction false} BarrierFirst(c: Config, states: seq<State>, steps: seq<Step>, n: nat)
    requires Run(c, states, steps) && n < |states| && states[n].submitted > 0
    ensures Open(c, states[n]) && |states[n].workers| == c.concurrency && forall x :: x in states[n].workers ==> !x.Created?
  {
    RunKeeps(c, states, steps, n);
    if n > 0 {
      RunKeeps(c, states, steps, n - 1);
      StartStep(c, states[n - 1], steps[n - 1]);
      if states[n - 1].submitted > 0 {
        BarrierFirst(c, states, steps, n - 1);
      }
    }
    OpenMeansStarted(c, states[n]);
  }

  /** Step `i` of the run reads `time` off the clock, with the whole pool created and no call issued. */
  ghost predicate Reads(c: Config, states: seq<State>, steps: seq<Step>, i: nat, time: real) {
    && i < |steps| && i < |states| && steps[i] == ReadClock
    && states[i].clock == time && |states[i].workers| == c.concurrency && states[i].submitted == 0
  }

  /** The clock never runs back, and the window starts when the main thread reads it, before any call is issued. */
  lemma {:induction false} ClockTells(c: Config, states: seq<State>, steps: seq<Step>, n: nat)
    requires Run(c, states, steps) && n < |states|
    ensures states[0].clock <= states[n].clock
    ensures states[n].start.Some? ==> exists i: nat :: i < n && Reads(c, states, steps, i, states[n].start.value)
  {
    if n > 0 {
      ClockTells(c, states, steps, n - 1);
      RunKeeps(c, states, steps, n - 1);
      var s := states[n - 1];
      StartStep(c, s, steps[n - 1]);
      if states[n].start != s.start {
        if s.submitted > 0 {
          BarrierFirst(c, states, steps, n - 1);
          OpenMeansStarted(c, s);
        }
        assert Reads(c, states, steps, n - 1, s.clock);
      }
    }
  }

  // ---- The report ----

  datatype StopReason = QualityFailure | RequestLimit | TimeLimit

  function ReasonOf(c: Config, s: State): StopReason {
    if s.stop then QualityFailure else if s.submitted >= c.limit then RequestLimit else TimeLimit
  }

  /** At join every issued call has left its row, and the reported reason is the right one. */
  lemma JoinedReport(c: Config, states: seq<State>, steps: seq<Step>, n: nat)
    requires Run(c, states, steps) && n < |states| && states[n].main.Finished?
    ensures var s, reason := states[n], ReasonOf(c, states[n]);
      && |s.rows| == s.submitted <= c.limit
      && (forall x :: x in s.workers ==> x.Exited?)
      && (reason == QualityFailure <==> exists row :: row in s.rows && Failed(row))
      && (reason == RequestLimit <==> |s.rows| == c.limit && forall row :: row in s.rows ==> !Failed(row))
      && (reason == TimeLimit ==>
            && s.start.Some?
            && |s.rows| < c.limit
            && forall x :: x in s.workers ==> x.at - s.start.value >= c.seconds)
  {
    RunKeeps(c, states, steps, n);
    var s := states[n];
    SumAtMost(s.workers, InFlight);
    assert forall x :: x in s.workers ==> WorkerSound(c, s, x);
  }

  // ---- Progress ----

  function Remaining(x: Worker): nat {
    match x
    case Created => 3
    case Waiting => 2
    case Ready => 1
    case Calling => 3
    case Holding(_) => 2
    case Exited(_) => 0
    case Crashed => 0
  }

  function MainRemaining(c: Config, main: Main): int {
    match main
    case Submitting => c.concurrency + 4
    case Started => c.concurrency + 3
    case AtBarrier => c.concurrency + 2
    case Joining(next) => c.concurrency + 1 - next
    case Finished => 0
  }

  /** An upper bound on the steps still to come, clock ticks aside. */
  function Work(c: Config, s: State): int {
    MainRemaining(c, s.main) + 4 * (c.concurrency - |s.workers|) + 3 * (c.limit - s.submitted) + Sum(s.workers, Remaining)
  }

  lemma WorkBounded(c: Config, s: State)
    requires Invariant(c, s)
    ensures Work(c, s) >= 0
  {
  }

  lemma MainWorks(c: Config, s: State, step: Step)
    requires Invariant(c, s) && Enabled(c, s, step)
    requires step.Submit? || step.ReadClock? || step.MainArrives? || step.MainPasses? || step.Join? || step.Finish?
    ensures Work(c, Apply(c, s, step)) < Work(c, s)
  {
    if step.Submit? {
      SumAppend(s.workers, Remaining, Created);
    }
  }

  lemma DecideWorks(c: Config, s: State, w: nat)
    requires Invariant(c, s) && Enabled(c, s, Decide(w))
    ensures Work(c, Decision(c, s, w)) < Work(c, s)
  {
    SumUpdate(s.workers, Remaining, w, Decision(c, s, w).workers[w]);
  }

  lemma MoveWorks(c: Config, s: State, w: nat, to: Worker)
    requires w < |s.workers| && Remaining(to) < Remaining(s.workers[w])
    ensures Work(c, Move(s, w, to)) < Work(c, s)
  {
    SumUpdate(s.workers, Remaining, w, to);
  }

  /** Every step but a clock tick uses up work. */
  lemma StepWorks(c: Config, s: State, step: Step)
    requires Invariant(c, s) && Enabled(c, s, step) && !step.Tick?
    ensures Work(c, Apply(c, s, step)) < Work(c, s)
  {
    match step {
      case Arrive(w) => MoveWorks(c, s, w, Waiting);
      case Pass(w) => MoveWorks(c, s, w, Ready);
      case Decide(w) => DecideWorks(c, s, w);
      case Return(w, row) => MoveWorks(c, s, w, Holding(row));
      case Record(w) => MoveWorks(c, s, w, Ready);
      case _ => MainWorks(c, s, step);
    }
  }

  function Effective(steps: seq<Step>): nat {
    if steps == [] then 0 else Effective(steps[..|steps| - 1]) + if steps[|steps| - 1].Tick? then 0 else 1
  }

  /** A run makes at most 5 * concurrency + 3 * limit + 4 steps besides clock ticks, however it is interleaved. */
  lemma {:induction false} RunBounded(c: Config, states: seq<State>, steps: seq<Step>)
    requires Run(c, states, steps)
    ensures Effective(steps) <= 5 * c.concurrency + 3 * c.limit + 4
    ensures Effective(steps) + Work(c, states[|steps|]) <= 5 * c.concurrency + 3 * c.limit + 4
    decreases |steps|
  {
    RunKeeps(c, states, steps, |steps|);
    WorkBounded(c, states[|steps|]);
    if steps != [] {
      var n := |steps| - 1;
      RunBounded(c, states[..n + 1], steps[..n]);
      RunKeeps(c, states, steps, n);
      if !steps[n].Tick? {
        StepWorks(c, states[n], steps[n]);
      }
    }
  }

  /** No deadlock: until the phase has finished, some thread can move without the clock advancing. */
  lemma NeverStuck(c: Config, states: seq<State>, steps: seq<Step>, n: nat, reply: Row) returns (step: Step)
    requires Run(c, states, steps) && n < |states| && !states[n].main.Finished?
    ensures !step.Tick? && Enabled(c, states[n], step) && (step.Return? ==> step.row == reply)
  {
    var s := states[n];
    RunKeeps(c, states, steps, n);
    match s.main {
      case Submitting => step := if |s.workers| < c.concurrency then Submit else ReadClock;
      case Started => step := MainArrives;
      case AtBarrier =>
        if Open(c, s) {
          step := MainPasses;
        } else {
          SumAtMost(s.workers, HasArrived);
          var x :| x in s.workers && HasArrived(x) == 0;
          var w :| 0 <= w < |s.workers| && s.workers[w] == x;
          step := Arrive(w);
        }
      case Joining(next) =>
        if next == |s.workers| {
          step := Finish;
        } else {
          OpenMeansStarted(c, s);
          assert s.workers[next] in s.workers && WorkerSound(c, s, s.workers[next]);
          step := match s.workers[next]
            case Waiting => Pass(next)
            case Ready => Decide(next)
            case Calling => Return(next, reply)
            case Holding(_) => Record(next)
            case _ => Join;
        }
    }
  }

  lemma RunExtend(c: Config, states: seq<State>, steps: seq<Step>, step: Step)
    requires Run(c, states, steps) && Enabled(c, states[|steps|], step)
    ensures Run(c, states + [Apply(c, states[|steps|], step)], steps + [step])
    ensures Effective(steps + [step]) == Effective(steps) + if step.Tick? then 0 else 1
  {
    EffectiveStep(steps, step);
    var next := Apply(c, states[|steps|], step);
    forall i | 0 <= i < |steps + [step]|
      ensures Enabled(c, (states + [next])[i], (steps + [step])[i])
      ensures (states + [next])[i + 1] == Apply(c, (states + [next])[i], (steps + [step])[i])
    {
      if i < |steps| {
        assert states[i + 1] == Apply(c, states[i], steps[i]);
      }
    }
  }

  lemma EffectiveStep(steps: seq<Step>, step: Step)
    ensures Effective(steps + [step]) == Effective(steps) + if step.Tick? then 0 else 1
  {
    assert (steps + [step])[..|steps|] == steps;
  }

  /** Every run can be completed without waiting for the clock, whatever row the outstanding calls then return. */
  lemma {:induction false} Completes(c: Config, states: seq<State>, steps: seq<Step>, reply: Row)
    returns (states': seq<State>, steps': seq<Step>)
    requires Run(c, states, steps)
    ensures Run(c, states', steps') && states <= states' && steps <= steps' && states'[|steps'|].main.Finished?
    ensures forall i :: |steps| <= i < |steps'| ==> !steps'[i].Tick? && (steps'[i].Return? ==> steps'[i].row == reply)
    decreases 5 * c.concurrency + 3 * c.limit + 4 - Effective(steps)
  {
    states', steps' := states, steps;
    if !states[|steps|].main.Finished? {
      var step := NeverStuck(c, states, steps, |steps|, reply);
      RunExtend(c, states, steps, step);
      var next := states + [Apply(c, states[|steps|], step)];
      RunBounded(c, next, steps + [step]);
      states', steps' := Completes(c, next, steps + [step], reply);
    }
  }

  // ---- The pool at work ----

  /** The first `k` of `n` workers at `done`, the others still at `todo`. */
  function Pool(n: nat, k: nat, done: Worker, todo: Worker): (pool: seq<Worker>)
    ensures |pool| == n
  {
    seq(n, i => if i < k then done else todo)
  }

  lemma PoolStep(n: nat, k: nat, done: Worker, todo: Worker)
    requires k < n
    ensures Pool(n, k, done, todo)[k] == todo && Pool(n, k, done, todo)[k := done] == Pool(n, k + 1, done, todo)
  {
  }

  lemma PoolTurn(n: nat, done: Worker, todo: Worker, next: Worker)
    ensures Pool(n, n, done, todo) == Pool(n, 0, next, done)
  {
  }

  /** A state of the phase in which nothing has come back yet. */
  function Early(main: Main, workers: seq<Worker>, arrived: nat, start: Option<real>, submitted: nat): State {
    State(main, workers, arrived, start, 0.0, submitted, false, [])
  }

  /** `steps` leads to `s`. */
  ghost predicate Leads(c: Config, states: seq<State>, steps: seq<Step>, s: State) {
    Run(c, states, steps) && states[|steps|] == s
  }

  ghost predicate Reachable(c: Config, s: State) {
    exists states, steps :: Leads(c, states, steps, s)
  }

  lemma ReachStep(c: Config, s: State, step: Step)
    requires Reachable(c, s) && Enabled(c, s, step)
    ensures Reachable(c, Apply(c, s, step))
  {
    var states, steps :| Leads(c, states, steps, s);
    RunExtend(c, states, steps, step);
    assert Leads(c, states + [Apply(c, s, step)], steps + [step], Apply(c, s, step));
  }

  /** Time passes by any amount, whatever the threads are doing. */
  lemma ClockRuns(c: Config, s: State, now: real)
    requires Reachable(c, s) && now >= s.clock
    ensures Reachable(c, s.(clock := now))
  {
    ReachStep(c, s, Tick(now));
  }

  lemma {:induction false} ReachSubmitted(c: Config, k: nat)
    requires k <= c.concurrency
    ensures Reachable(c, Early(Submitting, Pool(k, 0, Waiting, Created), 0, None, 0))
  {
    if k == 0 {
      assert Leads(c, [Early(Submitting, [], 0, None, 0)], [], Early(Submitting, [], 0, None, 0));
    } else {
      ReachSubmitted(c, k - 1);
      ReachStep(c, Early(Submitting, Pool(k - 1, 0, Waiting, Created), 0, None, 0), Submit);
      assert Pool(k - 1, 0, Waiting, Created) + [Created] == Pool(k, 0, Waiting, Created);
    }
  }

  lemma {:induction false} ReachArrived(c: Config, k: nat)
    requires k <= c.concurrency
    ensures Reachable(c, Early(AtBarrier, Pool(c.concurrency, k, Waiting, Created), k + 1, Some(0.0), 0))
  {
    var n := c.concurrency;
    if k == 0 {
      ReachSubmitted(c, n);
      ReachStep(c, Early(Submitting, Pool(n, 0, Waiting, Created), 0, None, 0), ReadClock);
      ReachStep(c, Early(Started, Pool(n, 0, Waiting, Created), 0, Some(0.0), 0), MainArrives);
    } else {
      ReachArrived(c, k - 1);
      PoolStep(n, k - 1, Waiting, Created);
      ReachStep(c, Early(AtBarrier, Pool(n, k - 1, Waiting, Created), k, Some(0.0), 0), Arrive(k - 1));
    }
  }

  lemma {:induction false} ReachReady(c: Config, k: nat)
    requires k <= c.concurrency
    ensures Reachable(c, Early(AtBarrier, Pool(c.concurrency, k, Ready, Waiting), c.concurrency + 1, Some(0.0), 0))
  {
    var n := c.concurrency;
    if k == 0 {
      ReachArrived(c, n);
      PoolTurn(n, Waiting, Created, Ready);
    } else {
      ReachReady(c, k - 1);
      PoolStep(n, k - 1, Ready, Waiting);
      ReachStep(c, Early(AtBarrier, Pool(n, k - 1, Ready, Waiting), n + 1, Some(0.0), 0), Pass(k - 1));
    }
  }

  lemma {:induction false} ReachCalling(c: Config, k: nat)
    requires k <= c.concurrency && k <= c.limit && c.seconds > 0.0
    ensures Reachable(c, Early(AtBarrier, Pool(c.concurrency, k, Calling, Ready), c.concurrency + 1, Some(0.0), k))
  {
    var n := c.concurrency;
    if k == 0 {
      ReachReady(c, n);
      PoolTurn(n, Ready, Waiting, Calling);
    } else {
      ReachCalling(c, k - 1);
      PoolStep(n, k - 1, Calling, Ready);
      ReachStep(c, Early(AtBarrier, Pool(n, k - 1, Calling, Ready), n + 1, Some(0.0), k - 1), Decide(k - 1));
    }
  }

  /** The bound on outstanding calls is attained: where the limit allows it the whole pool can be calling at once. */
  lemma FullyParallel(c: Config)
    requires c.concurrency <= c.limit && c.seconds > 0.0
    ensures exists s :: Reachable(c, s) && Sum(s.workers, InFlight) == c.concurrency && forall x :: x in s.workers ==> x == Calling
  {
    var s := Early(AtBarrier, Pool(c.concurrency, c.concurrency, Calling, Ready), c.concurrency + 1, Some(0.0), c.concurrency);
    ReachCalling(c, c.concurrency);
    SumAtMost(s.workers, InFlight);
    assert Reachable(c, s);
  }

  // ---- Where the rows come from ----

  /** Whether a worker holds `row`, come back and waiting for the lock. */
  function Holds(row: Row): Worker -> nat {
    (x: Worker) => if x == Holding(row) then 1 else 0
  }

  /** How often `row` has come back: recorded or held. */
  function Times(s: State, row: Row): nat {
    multiset(s.rows)[row] + Sum(s.workers, Holds(row))
  }

  function Brings(step: Step, row: Row): nat {
    if step.Return? && step.row == row then 1 else 0
  }

  /** How often the calls have returned `row`. */
  function Returned(steps: seq<Step>, row: Row): nat {
    if steps == [] then 0 else Returned(steps[..|steps| - 1], row) + Brings(steps[|steps| - 1], row)
  }

  lemma MoveTimes(s: State, w: nat, to: Worker, row: Row)
    requires w < |s.workers|
    ensures Times(Move(s, w, to), row) + Holds(row)(s.workers[w]) == Times(s, row) + Holds(row)(to)
  {
    SumUpdate(s.workers, Holds(row), w, to);
  }

  lemma RecordTimes(c: Config, s: State, w: nat, row: Row)
    requires Enabled(c, s, Record(w))
    ensures Times(Apply(c, s, Record(w)), row) == Times(s, row)
  {
    MoveTimes(s, w, Ready, row);
    assert multiset(s.rows + [s.workers[w].row])[row]
        == multiset(s.rows)[row] + if s.workers[w].row == row then 1 else 0;
  }

  lemma StepTimes(c: Config, s: State, step: Step, row: Row)
    requires Enabled(c, s, step)
    ensures Times(Apply(c, s, step), row) == Times(s, row) + Brings(step, row)
  {
    match step {
      case Submit => SumAppend(s.workers, Holds(row), Created);
      case Arrive(w) => QuietTimes(s, w, Waiting, row);
      case Pass(w) => QuietTimes(s, w, Ready, row);
      case Decide(w) => DecideTimes(c, s, w, row);
      case Return(w, back) => MoveTimes(s, w, Holding(back), row);
      case Record(w) => RecordTimes(c, s, w, row);
      case _ =>
    }
  }

  lemma QuietTimes(s: State, w: nat, to: Worker, row: Row)
    requires w < |s.workers| && !s.workers[w].Holding? && !to.Holding?
    ensures Times(Move(s, w, to), row) == Times(s, row)
  {
    MoveTimes(s, w, to, row);
  }

  lemma DecideTimes(c: Config, s: State, w: nat, row: Row)
    requires Enabled(c, s, Decide(w))
    ensures Times(Decision(c, s, w), row) == Times(s, row)
  {
    QuietTimes(s, w, Decision(c, s, w).workers[w], row);
  }

  lemma ReturnedStep(steps: seq<Step>, n: nat, row: Row)
    requires n < |steps|
    ensures Returned(steps[..n + 1], row) == Returned(steps[..n], row) + Brings(steps[n], row)
  {
    assert steps[..n + 1][..n] == steps[..n];
  }

  /** Conservation of rows: at every moment a row has been recorded or is held exactly as often as the calls have returned it. */
  lemma {:induction false} RowsAreReturned(c: Config, states: seq<State>, steps: seq<Step>, n: nat, row: Row)
    requires Run(c, states, steps) && n < |states|
    ensures Times(states[n], row) == Returned(steps[..n], row)
  {
    if n > 0 {
      RowsAreReturned(c, states, steps, n - 1, row);
      StepTimes(c, states[n - 1], steps[n - 1], row);
      ReturnedStep(steps, n - 1, row);
    }
  }

  lemma {:induction false} NoneHeld(workers: seq<Worker>, row: Row)
    requires forall i :: 0 <= i < |workers| ==> !workers[i].Holding?
    ensures Sum(workers, Holds(row)) == 0
  {
    if workers != [] {
      NoneHeld(workers[..|workers| - 1], row);
    }
  }

  /** At join the report holds every row exactly as often as the calls returned it. */
  lemma JoinedRows(c: Config, states: seq<State>, steps: seq<Step>, n: nat, row: Row)
    requires Run(c, states, steps) && n < |states| && states[n].main.Finished?
    ensures multiset(states[n].rows)[row] == Returned(steps[..n], row)
  {
    RunKeeps(c, states, steps, n);
    NoneHeld(states[n].workers, row);
    RowsAreReturned(c, states, steps, n, row);
  }

  lemma {:induction false} ReturnedFrom(steps: seq<Step>, row: Row)
    requires Returned(steps, row) > 0
    ensures exists i :: 0 <= i < |steps| && steps[i].Return? && steps[i].row == row
  {
    var n := |steps| - 1;
    if Brings(steps[n], row) == 0 {
      ReturnedFrom(steps[..n], row);
      var i :| 0 <= i < n && steps[..n][i].Return? && steps[..n][i].row == row;
      assert steps[i].Return?;
    }
  }
}
