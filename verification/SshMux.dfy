/** One multiplexed SSH connection shared by any number of workers: the double-checked lock, the master, its recorded
    age. */
module SshMux {
  import opened Text

  datatype Config = Config(enabled: bool, healthChecked: bool, maxAge: int, lockTtl: int, lockTimeout: int)

  /** connectionIsReusable runs twice, the second time under the lock. */
  datatype Round = First | Locked

  datatype Reason = Missing | Expired | Unhealthy

  datatype Answer = Reused | Established | NotEstablished | TimedOut | Unavailable | Disabled | Threw

  predicate ReturnsTrue(answer: Answer) {
    answer == Reused || answer == Established
  }

  /** Where a worker stands in ensureMultiplexedConnection; each value names the next atomic action. */
  datatype Pc =
    | Idle
    | Probe(round: Round)
    | ReadAge(round: Round)
    | Stamp(round: Round)
    | ReadExpiry(round: Round)
    | Health(round: Round)
    | Wait(deadline: int)
    | Exists(reason: Reason)
    | Exit(reason: Reason)
    | Clear
    | Establish
    | Store
    | Release(answer: Answer)
    | Done(answer: Answer)
    | Dead

  /** A worker, and whether its current call has sent an exit or an establish command. */
  datatype Worker = Worker(pc: Pc, acted: bool)

  datatype Lock = Free | Held(owner: nat, until: int)

  datatype State = State(
    now: int, lock: Lock, master: Option<int>, healthy: bool, recorded: Option<int>, workers: seq<Worker>)

  /** How the process or lock call of an action ends. */
  datatype Outcome = Succeeds | Fails | Throws

  datatype Step = Work(w: nat, outcome: Outcome) | Crash(w: nat) | Tick(d: nat) | MasterDies | HealthFlips | RecordLost

  predicate Critical(pc: Pc) {
    match pc
    case Probe(r) => r == Locked
    case ReadAge(r) => r == Locked
    case Stamp(r) => r == Locked
    case ReadExpiry(r) => r == Locked
    case Health(r) => r == Locked
    case Exists(_) => true
    case Exit(_) => true
    case Clear => true
    case Establish => true
    case Store => true
    case Release(_) => true
    case _ => false
  }

  /** An expired lock can be taken by anyone. */
  predicate Available(s: State) {
    s.lock.Free? || s.now >= s.lock.until
  }

  function Start(c: Config): Pc {
    if c.enabled then Probe(First) else Done(Disabled)
  }

  function Accept(round: Round): Pc {
    if round == First then Done(Reused) else Release(Reused)
  }

  function Refuse(c: Config, now: int, round: Round, reason: Reason): Pc {
    if round == First then Wait(now + c.lockTimeout) else Exists(reason)
  }

  /** An exception leaves the first check to the caller; under the lock it is caught after the release. */
  function Abort(round: Round): Pc {
    if round == First then Done(Threw) else Release(Unavailable)
  }

  predicate TooOld(c: Config, s: State) {
    s.recorded.Some? && s.now - s.recorded.value > c.maxAge
  }

  function Go(s: State, w: nat, pc: Pc): State
    requires w < |s.workers|
  {
    s.(workers := s.workers[w := s.workers[w].(pc := pc)])
  }

  function Act(s: State, w: nat, pc: Pc): State
    requires w < |s.workers|
  {
    s.(workers := s.workers[w := Worker(pc, true)])
  }

  function AfterWork(c: Config, s: State, w: nat, o: Outcome): State
    requires w < |s.workers|
  {
    match s.workers[w].pc
    case Idle => s.(workers := s.workers[w := Worker(Start(c), false)])
    case Done(_) => s.(workers := s.workers[w := Worker(Start(c), false)])
    case Probe(r) =>
      Go(s, w, if o.Throws? then Abort(r) else if s.master.None? then Refuse(c, s.now, r, Missing) else ReadAge(r))
    case ReadAge(r) => Go(s, w, if s.recorded.None? then Stamp(r) else ReadExpiry(r))
    case Stamp(r) => Go(s.(recorded := Some(s.now)), w, ReadExpiry(r))
    case ReadExpiry(r) =>
      Go(s, w, if TooOld(c, s) then Refuse(c, s.now, r, Expired) else if c.healthChecked then Health(r) else Accept(r))
    case Health(r) =>
      Go(s, w, if o.Throws? then Abort(r) else if s.healthy then Accept(r) else Refuse(c, s.now, r, Unhealthy))
    case Wait(deadline) =>
      if o.Throws? then Go(s, w, Done(Unavailable))
      else if Available(s) then Go(s.(lock := Held(w, s.now + c.lockTtl)), w, Probe(Locked))
      else if s.now >= deadline then Go(s, w, Done(TimedOut))
      else s
    case Exists(reason) =>
      Go(s, w, if o.Throws? then Release(Unavailable) else if s.master.Some? then Exit(reason) else Establish)
    case Exit(_) =>
      // The exit status is not looked at.
      if o.Throws? then Act(s, w, Release(Unavailable))
      else Act(s.(master := if o.Succeeds? then None else s.master), w, Clear)
    case Clear => Go(s.(recorded := None), w, Establish)
    case Establish =>
      if o.Throws? then Act(s, w, Release(Unavailable))
      else if o.Fails? then Act(s, w, Release(NotEstablished))
      // ControlMaster=auto joins a master that is still there.
      else Act(s.(master := if s.master.None? then Some(s.now) else s.master), w, Store)
    case Store => Go(s.(recorded := Some(s.now)), w, Release(Established))
    case Release(answer) =>
      // Only the owner's token frees the lock.
      Go(s.(lock := if s.lock.Held? && s.lock.owner == w then Free else s.lock), w, Done(answer))
    case Dead => s
  }

  function Apply(c: Config, s: State, step: Step): State
    requires Enabled(s, step)
  {
    match step
    case Work(w, o) => AfterWork(c, s, w, o)
    case Crash(w) => Go(s, w, Dead)
    case Tick(d) => s.(now := s.now + d)
    case MasterDies => s.(master := None)
    case HealthFlips => s.(healthy := !s.healthy)
    case RecordLost => s.(recorded := None)
  }

  predicate Enabled(s: State, step: Step) {
    match step
    case Work(w, _) => w < |s.workers|
    case Crash(w) => w < |s.workers|
    case _ => true
  }

  /** Time never reaches the lock's expiry while its owner is alive in its critical section. */
  predicate Timely(s: State, step: Step) {
    step.Tick? && s.lock.Held? && s.lock.owner < |s.workers| && Critical(s.workers[s.lock.owner].pc) ==>
      s.now + step.d < s.lock.until
  }

  /** The worker does not die between creating a master and recording its time. */
  predicate Clean(s: State, step: Step) {
    step.Crash? && step.w < |s.workers| ==> s.workers[step.w].pc != Store
  }

  /* Runs. */

  ghost predicate Possible(c: Config, s: State, steps: seq<Step>)
    decreases steps
  {
    steps == [] || (Enabled(s, steps[0]) && Possible(c, Apply(c, s, steps[0]), steps[1..]))
  }

  ghost function After(c: Config, s: State, steps: seq<Step>): State
    requires Possible(c, s, steps)
    decreases steps
  {
    if steps == [] then s else After(c, Apply(c, s, steps[0]), steps[1..])
  }

  ghost predicate AllTimely(c: Config, s: State, steps: seq<Step>)
    requires Possible(c, s, steps)
    decreases steps
  {
    steps == [] || (Timely(s, steps[0]) && AllTimely(c, Apply(c, s, steps[0]), steps[1..]))
  }

  ghost predicate AllClean(c: Config, s: State, steps: seq<Step>)
    requires Possible(c, s, steps)
    decreases steps
  {
    steps == [] || (Clean(s, steps[0]) && AllClean(c, Apply(c, s, steps[0]), steps[1..]))
  }

  /** Everyone is outside; a recorded time belongs to the master. */
  ghost predicate Initial(s: State) {
    && s.lock.Free?
    && (forall w :: 0 <= w < |s.workers| ==> s.workers[w] == Worker(Idle, false))
    && InThePast(s)
    && Fresh(s)
  }

  predicate InThePast(s: State) {
    && (s.master.Some? ==> s.master.value <= s.now)
    && (s.recorded.Some? ==> s.recorded.value <= s.now)
  }

  /** The recorded time is no earlier than the creation of the live master. */
  predicate Fresh(s: State) {
    s.master.Some? && s.recorded.Some? ==> s.master.value <= s.recorded.value
  }

  /** What a worker's action leaves alone. */
  lemma WorkFrame(c: Config, s: State, w: nat, o: Outcome)
    requires w < |s.workers|
    ensures var s', pc := AfterWork(c, s, w, o), s.workers[w].pc;
            && s'.now == s.now && s'.healthy == s.healthy && |s'.workers| == |s.workers|
            && (forall v :: 0 <= v < |s.workers| && v != w ==> s'.workers[v] == s.workers[v])
            && (s'.master != s.master ==> pc.Exit? || (pc.Establish? && s.master.None? && s'.master == Some(s.now)))
            && (s'.recorded != s.recorded ==> pc.Clear? || s'.recorded == Some(s.now))
            && (s'.lock != s.lock ==> (pc.Wait? && Available(s)) || (pc.Release? && s.lock.Held? && s.lock.owner == w))
  {
  }

  /* Mutual exclusion. */

  ghost predicate OwnersInside(c: Config, s: State) {
    forall w :: 0 <= w < |s.workers| && Critical(s.workers[w].pc) ==>
      s.lock.Held? && s.lock.owner == w && s.now < s.lock.until
  }

  /** A worker gets inside by taking the lock, and keeps it until it releases it. */
  lemma Entering(c: Config, s: State, w: nat, o: Outcome)
    requires w < |s.workers| && Critical(AfterWork(c, s, w, o).workers[w].pc)
    ensures AfterWork(c, s, w, o).lock == if Critical(s.workers[w].pc) then s.lock else Held(w, s.now + c.lockTtl)
  {
  }

  /** The worker itself is inside exactly while it holds the lock. */
  lemma WorkerInside(c: Config, s: State, w: nat, o: Outcome)
    requires c.lockTtl > 0 && OwnersInside(c, s) && w < |s.workers|
    requires Critical(AfterWork(c, s, w, o).workers[w].pc)
    ensures var lock := AfterWork(c, s, w, o).lock;
            lock.Held? && lock.owner == w && s.now < lock.until
  {
    Entering(c, s, w, o);
    hide AfterWork;
  }

  lemma OwnersStayInside(c: Config, s: State, step: Step)
    requires c.lockTtl > 0 && OwnersInside(c, s) && Enabled(s, step) && Timely(s, step)
    ensures OwnersInside(c, Apply(c, s, step))
  {
    if step.Work? {
      WorkFrame(c, s, step.w, step.outcome);
      var s' := AfterWork(c, s, step.w, step.outcome);
      forall v | 0 <= v < |s'.workers| && Critical(s'.workers[v].pc)
        ensures s'.lock.Held? && s'.lock.owner == v && s'.now < s'.lock.until
      {
        hide AfterWork;
        if v == step.w {
          WorkerInside(c, s, v, step.outcome);
        } else {
          assert Critical(s.workers[v].pc);
        }
      }
    }
  }

  lemma {:induction false} RunsKeepOwnersInside(c: Config, s: State, steps: seq<Step>)
    requires c.lockTtl > 0 && OwnersInside(c, s)
    requires Possible(c, s, steps) && AllTimely(c, s, steps)
    ensures OwnersInside(c, After(c, s, steps))
    decreases steps
  {
    hide OwnersInside, Timely, Apply, Enabled;
    if steps != [] {
      OwnersStayInside(c, s, steps[0]);
      RunsKeepOwnersInside(c, Apply(c, s, steps[0]), steps[1..]);
    }
  }

  /** In no run of any number of workers are two of them refreshing, establishing or deciding to at once. */
  lemma AtMostOneInside(c: Config, s: State, steps: seq<Step>, v: nat, w: nat)
    requires c.lockTtl > 0 && Initial(s) && Possible(c, s, steps) && AllTimely(c, s, steps)
    requires v < |After(c, s, steps).workers| && w < |After(c, s, steps).workers|
    requires Critical(After(c, s, steps).workers[v].pc) && Critical(After(c, s, steps).workers[w].pc)
    ensures v == w
  {
    RunsKeepOwnersInside(c, s, steps);
  }

  /* What a call did when it answers. */

  predicate ActedFits(worker: Worker) {
    match worker.pc
    case Idle => !worker.acted
    case Establish => true
    case Clear => worker.acted
    case Store => worker.acted
    case Release(answer) => AnswerFits(answer, worker.acted)
    case Done(answer) => AnswerFits(answer, worker.acted)
    case Dead => true
    case _ => !worker.acted
  }

  predicate AnswerFits(answer: Answer, acted: bool) {
    match answer
    case Established => acted
    case NotEstablished => acted
    case Unavailable => true
    case _ => !acted
  }

  lemma {:induction false} RunsKeepActed(c: Config, s: State, steps: seq<Step>)
    requires forall w :: 0 <= w < |s.workers| ==> ActedFits(s.workers[w])
    requires Possible(c, s, steps)
    ensures forall w :: 0 <= w < |After(c, s, steps).workers| ==> ActedFits(After(c, s, steps).workers[w])
    decreases steps
  {
    if steps != [] {
      var s' := Apply(c, s, steps[0]);
      forall w | 0 <= w < |s'.workers| ensures ActedFits(s'.workers[w]) {
        if steps[0].Work? {
          ActedAfterWork(c, s, steps[0].w, steps[0].outcome, w);
        }
      }
      hide ActedFits, Apply;
      RunsKeepActed(c, s', steps[1..]);
    }
  }

  lemma ActedAfterWork(c: Config, s: State, w: nat, o: Outcome, v: nat)
    requires w < |s.workers| && v < |s.workers|
    requires ActedFits(s.workers[v])
    ensures ActedFits(AfterWork(c, s, w, o).workers[v])
  {
    if v != w {
      WorkFrame(c, s, w, o);
    }
  }

  /** Timing out, or finding the connection reusable under the lock, sent no exit and no establish command; establishing
      did. */
  lemma AnswersTellWhatWasDone(c: Config, s: State, steps: seq<Step>, w: nat)
    requires Initial(s) && Possible(c, s, steps) && w < |After(c, s, steps).workers|
    requires After(c, s, steps).workers[w].pc.Done?
    ensures var worker := After(c, s, steps).workers[w];
            var answer := worker.pc.answer;
            && (answer in {TimedOut, Reused, Disabled, Threw} ==> !worker.acted)
            && (answer in {Established, NotEstablished} ==> worker.acted)
  {
    RunsKeepActed(c, s, steps);
    var worker := After(c, s, steps).workers[w];
    hide After, Possible;
    assert ActedFits(worker);
  }

  /** A worker changes the master only by a command its call is charged with, and only from inside the lock. */
  lemma OnlyActorsTouch(c: Config, s: State, w: nat, o: Outcome)
    requires w < |s.workers| && AfterWork(c, s, w, o).master != s.master
    ensures AfterWork(c, s, w, o).workers[w].acted && Critical(s.workers[w].pc)
  {
  }

  /* The age of the master. */

  ghost predicate NobodyStoring(s: State) {
    forall w :: 0 <= w < |s.workers| ==> s.workers[w].pc != Store
  }

  /** Why the owner is about to replace the master is still true of the master it is about to replace. */
  predicate ReasonHolds(c: Config, s: State, pc: Pc) {
    match pc
    case Exists(Missing) => s.master.None?
    case Exists(Expired) => OldMaster(c, s)
    case Exit(Missing) => false
    case Exit(Expired) => OldMaster(c, s)
    case _ => true
  }

  predicate OldMaster(c: Config, s: State) {
    s.master.Some? ==> s.now - s.master.value > c.maxAge
  }

  ghost predicate ReasonsHold(c: Config, s: State) {
    forall w :: 0 <= w < |s.workers| ==> ReasonHolds(c, s, s.workers[w].pc)
  }

  ghost predicate AgesSound(c: Config, s: State) {
    InThePast(s) && (NobodyStoring(s) ==> Fresh(s)) && ReasonsHold(c, s)
  }

  lemma OthersNotInside(c: Config, s: State, v: nat, w: nat)
    requires OwnersInside(c, s) && v < |s.workers| && w < |s.workers| && v != w
    requires Critical(s.workers[w].pc)
    ensures !Critical(s.workers[v].pc)
  {
  }

  lemma WorkKeepsFresh(c: Config, s: State, w: nat, o: Outcome)
    requires OwnersInside(c, s) && AgesSound(c, s) && w < |s.workers|
    ensures InThePast(AfterWork(c, s, w, o))
    ensures NobodyStoring(AfterWork(c, s, w, o)) ==> Fresh(AfterWork(c, s, w, o))
  {
    var s' := AfterWork(c, s, w, o);
    WorkFrame(c, s, w, o);
    if NobodyStoring(s') && s.workers[w].pc != Store {
      assert s'.workers[w].pc != Store;
      forall v | 0 <= v < |s.workers| ensures s.workers[v].pc != Store {
        assert s'.workers[v].pc != Store;
      }
    }
  }

  lemma WorkKeepsReasons(c: Config, s: State, w: nat, o: Outcome)
    requires OwnersInside(c, s) && AgesSound(c, s) && w < |s.workers|
    ensures ReasonsHold(c, AfterWork(c, s, w, o))
  {
    var s' := AfterWork(c, s, w, o);
    WorkFrame(c, s, w, o);
    forall v | 0 <= v < |s'.workers| ensures ReasonHolds(c, s', s'.workers[v].pc) {
      assert ReasonHolds(c, s, s.workers[v].pc);
      if v == w {
        WorkerHasReason(c, s, w, o);
      } else if Critical(s.workers[v].pc) {
        OthersNotInside(c, s, w, v);
      }
    }
  }

  lemma WorkerHasReason(c: Config, s: State, w: nat, o: Outcome)
    requires OwnersInside(c, s) && AgesSound(c, s) && w < |s.workers|
    ensures ReasonHolds(c, AfterWork(c, s, w, o), AfterWork(c, s, w, o).workers[w].pc)
  {
    assert ReasonHolds(c, s, s.workers[w].pc);
    if Critical(s.workers[w].pc) && s.workers[w].pc != Store {
      forall v | 0 <= v < |s.workers| ensures s.workers[v].pc != Store {
        if v != w {
          OthersNotInside(c, s, v, w);
        }
      }
      assert NobodyStoring(s);
    }
  }

  lemma StepKeepsAges(c: Config, s: State, step: Step)
    requires OwnersInside(c, s) && AgesSound(c, s) && Enabled(s, step) && Clean(s, step)
    ensures AgesSound(c, Apply(c, s, step))
  {
    var s' := Apply(c, s, step);
    if step.Work? {
      WorkKeepsFresh(c, s, step.w, step.outcome);
      WorkKeepsReasons(c, s, step.w, step.outcome);
    } else {
      assert |s'.workers| == |s.workers|;
      forall v | 0 <= v < |s'.workers|
        ensures ReasonHolds(c, s', s'.workers[v].pc) && (s.workers[v].pc == Store ==> s'.workers[v].pc == Store)
      {
        assert ReasonHolds(c, s, s.workers[v].pc);
      }
    }
  }

  lemma {:induction false} RunsKeepAges(c: Config, s: State, steps: seq<Step>)
    requires c.lockTtl > 0 && OwnersInside(c, s) && AgesSound(c, s)
    requires Possible(c, s, steps) && AllTimely(c, s, steps) && AllClean(c, s, steps)
    ensures OwnersInside(c, After(c, s, steps)) && AgesSound(c, After(c, s, steps))
    decreases steps
  {
    hide OwnersInside, AgesSound, Timely, Clean, Apply, Enabled;
    if steps != [] {
      OwnersStayInside(c, s, steps[0]);
      StepKeepsAges(c, s, steps[0]);
      RunsKeepAges(c, Apply(c, s, steps[0]), steps[1..]);
    }
  }

  /** Whenever the lock can be taken, the recorded time is no earlier than the creation of the live master. */
  lemma FreshWheneverFree(c: Config, s: State, steps: seq<Step>)
    requires c.lockTtl > 0 && Initial(s)
    requires Possible(c, s, steps) && AllTimely(c, s, steps) && AllClean(c, s, steps)
    requires Available(After(c, s, steps))
    ensures Fresh(After(c, s, steps))
  {
    RunsKeepAges(c, s, steps);
    var e := After(c, s, steps);
    hide After, Possible;
    assert forall w :: 0 <= w < |e.workers| ==> !Critical(e.workers[w].pc);
  }

  /** A master about to be closed because it expired really is older than the maximum age, and no master is closed for
      being missing. */
  lemma RefreshedOnlyWhenOld(c: Config, s: State, steps: seq<Step>, w: nat)
    requires c.lockTtl > 0 && Initial(s)
    requires Possible(c, s, steps) && AllTimely(c, s, steps) && AllClean(c, s, steps)
    requires w < |After(c, s, steps).workers| && After(c, s, steps).workers[w].pc.Exit?
    ensures After(c, s, steps).workers[w].pc.reason != Missing
    ensures After(c, s, steps).workers[w].pc.reason == Expired ==> OldMaster(c, After(c, s, steps))
  {
    RunsKeepAges(c, s, steps);
    var e := After(c, s, steps);
    hide After, Possible;
    assert ReasonHolds(c, e, e.workers[w].pc);
  }

  /** The recorded time falls behind a live master in exactly one way: its creator dies before recording it. */
  lemma StaleExactly(c: Config, s: State, step: Step)
    requires c.lockTtl > 0 && OwnersInside(c, s) && AgesSound(c, s) && Enabled(s, step) && Timely(s, step)
    ensures NobodyStoring(Apply(c, s, step)) && !Fresh(Apply(c, s, step))
       <==> step.Crash? && s.workers[step.w].pc == Store && !Fresh(s)
  {
    if step.Crash? && s.workers[step.w].pc == Store {
      forall v | 0 <= v < |s.workers| && v != step.w ensures s.workers[v].pc != Store {
        OthersNotInside(c, s, v, step.w);
      }
    } else {
      StepKeepsAges(c, s, step);
    }
  }

  /* Reuse under the lock. */

  /** The connection can be used as it is; its recorded time may be missing. */
  predicate Reusable(c: Config, s: State, m: int) {
    s.master == Some(m) && s.healthy && !TooOld(c, s)
  }

  /** Own actions left on the way to returning true from the check under the lock; one more when the recorded time may
      be missing. */
  function Remaining(pc: Pc, missing: bool): Option<nat> {
    var extra := if missing then 1 else 0;
    match pc
    case Probe(Locked) => Some(5 + extra)
    case ReadAge(Locked) => Some(4 + extra)
    case Stamp(Locked) => if missing then Some(4) else None
    case ReadExpiry(Locked) => Some(3)
    case Health(Locked) => Some(2)
    case Release(Reused) => Some(1)
    case Done(Reused) => Some(0)
    case _ => None
  }

  /** Anything may happen except what ends the connection, ages it out or stops the worker, which takes its steps until
      it returns. */
  predicate Calm(c: Config, s: State, step: Step, w: nat, m: int, missing: bool)
    requires Enabled(s, step) && w < |s.workers|
  {
    match step
    case Work(v, o) => v == w ==> !o.Throws? && !s.workers[w].pc.Done?
    case Crash(v) => v != w
    case RecordLost => missing
    case _ => Reusable(c, Apply(c, s, step), m)
  }

  ghost predicate AllCalm(c: Config, s: State, steps: seq<Step>, w: nat, m: int, missing: bool)
    requires Possible(c, s, steps)
    decreases steps
  {
    steps == []
    || (w < |s.workers| && Calm(c, s, steps[0], w, m, missing)
        && AllCalm(c, Apply(c, s, steps[0]), steps[1..], w, m, missing))
  }

  function OwnSteps(steps: seq<Step>, w: nat): nat {
    if steps == [] then 0 else (if steps[0].Work? && steps[0].w == w then 1 else 0) + OwnSteps(steps[1..], w)
  }

  /** Everyone inside the lock is on the way to returning, not to replacing the master. */
  ghost predicate InsideReuse(s: State, missing: bool) {
    forall v :: 0 <= v < |s.workers| && Critical(s.workers[v].pc) ==>
      Remaining(s.workers[v].pc, missing).Some? || s.workers[v].pc.Release?
  }

  ghost predicate Reusing(c: Config, s: State, w: nat, m: int, missing: bool) {
    && OwnersInside(c, s) && InsideReuse(s, missing)
    && Reusable(c, s, m) && (missing || s.recorded.Some?)
    && w < |s.workers|
    && !s.workers[w].acted
    && Remaining(s.workers[w].pc, missing).Some?
  }

  lemma WorkKeepsReusable(c: Config, s: State, v: nat, o: Outcome, m: int, missing: bool)
    requires c.maxAge >= 0 && InsideReuse(s, missing) && v < |s.workers|
    requires Reusable(c, s, m) && (missing || s.recorded.Some?)
    ensures var s' := AfterWork(c, s, v, o); Reusable(c, s', m) && (missing || s'.recorded.Some?)
    ensures var pc := AfterWork(c, s, v, o).workers[v].pc;
            Critical(pc) ==> Remaining(pc, missing).Some? || pc.Release?
  {
    WorkFrame(c, s, v, o);
  }

  lemma OwnWorkAdvances(c: Config, s: State, w: nat, o: Outcome, m: int, missing: bool)
    requires w < |s.workers| && !s.workers[w].acted
    requires Reusable(c, s, m) && (missing || s.recorded.Some?)
    requires Remaining(s.workers[w].pc, missing).Some? && !s.workers[w].pc.Done? && !o.Throws?
    ensures var worker := AfterWork(c, s, w, o).workers[w];
            && !worker.acted && Remaining(worker.pc, missing).Some?
            && Remaining(worker.pc, missing).value < Remaining(s.workers[w].pc, missing).value
  {
  }

  lemma CalmStepReuses(c: Config, s: State, step: Step, w: nat, m: int, missing: bool)
    requires c.lockTtl > 0 && c.maxAge >= 0 && Reusing(c, s, w, m, missing)
    requires Enabled(s, step) && Timely(s, step) && Calm(c, s, step, w, m, missing)
    ensures Reusing(c, Apply(c, s, step), w, m, missing)
    ensures Remaining(Apply(c, s, step).workers[w].pc, missing).value + (if step.Work? && step.w == w then 1 else 0)
         <= Remaining(s.workers[w].pc, missing).value
  {
    OwnersStayInside(c, s, step);
    if step.Work? {
      WorkFrame(c, s, step.w, step.outcome);
      WorkKeepsReusable(c, s, step.w, step.outcome, m, missing);
      if step.w == w {
        OwnWorkAdvances(c, s, w, step.outcome, m, missing);
      }
      hide AfterWork, OwnersInside;
      assert InsideReuse(Apply(c, s, step), missing);
    }
  }

  lemma {:induction false} CalmRunsReuse(c: Config, s: State, steps: seq<Step>, w: nat, m: int, missing: bool)
    requires c.lockTtl > 0 && c.maxAge >= 0 && Reusing(c, s, w, m, missing)
    requires Possible(c, s, steps) && AllTimely(c, s, steps) && AllCalm(c, s, steps, w, m, missing)
    ensures Reusing(c, After(c, s, steps), w, m, missing)
    ensures Remaining(After(c, s, steps).workers[w].pc, missing).value + OwnSteps(steps, w)
         <= Remaining(s.workers[w].pc, missing).value
    decreases steps
  {
    hide Timely, Calm, Apply, Enabled, OwnersInside, InsideReuse, Reusable, Remaining;
    if steps != [] {
      CalmStepReuses(c, s, steps[0], w, m, missing);
      CalmRunsReuse(c, Apply(c, s, steps[0]), steps[1..], w, m, missing);
    }
  }

  /** A worker that gets the lock after any run and finds the master alive, healthy and not too old has at every later
      moment sent no command, and is on the way to returning true within five actions of its own, six if the recorded
      time is missing or gets lost; when it has returned, it has returned true. However the others interleave, nobody
      replaces the master meanwhile. */
  lemma LatecomerReuses(c: Config, s0: State, before: seq<Step>, steps: seq<Step>, w: nat, m: int, missing: bool)
    requires c.lockTtl > 0 && c.maxAge >= 0 && Initial(s0)
    requires Possible(c, s0, before) && AllTimely(c, s0, before)
    requires var s := After(c, s0, before);
             && w < |s.workers| && s.workers[w].pc == Probe(Locked)
             && Reusable(c, s, m) && (missing || s.recorded.Some?)
             && Possible(c, s, steps) && AllTimely(c, s, steps) && AllCalm(c, s, steps, w, m, missing)
    ensures var s := After(c, s0, before);
            var e := After(c, s, steps);
            && e.master == Some(m)
            && w < |e.workers| && !e.workers[w].acted
            && Remaining(e.workers[w].pc, missing).Some?
            && Remaining(e.workers[w].pc, missing).value + OwnSteps(steps, w) <= (if missing then 6 else 5)
            && (e.workers[w].pc.Done? ==> e.workers[w].pc == Done(Reused))
  {
    RunsKeepOwnersInside(c, s0, before);
    RunsKeepActed(c, s0, before);
    var s := After(c, s0, before);
    hide After, Possible, AllTimely, AllCalm;
    assert ActedFits(s.workers[w]);
    assert InsideReuse(s, missing);
    CalmRunsReuse(c, s, steps, w, m, missing);
  }

  /* Why the two conditions are needed. */

  function Repeat(w: nat, n: nat): seq<Step> {
    if n == 0 then [] else [Work(w, Succeeds)] + Repeat(w, n - 1)
  }

  lemma {:induction false} RunsJoin(c: Config, s: State, a: seq<Step>, b: seq<Step>)
    requires Possible(c, s, a) && Possible(c, After(c, s, a), b)
    ensures Possible(c, s, a + b) && After(c, s, a + b) == After(c, After(c, s, a), b)
    ensures AllTimely(c, s, a) && AllTimely(c, After(c, s, a), b) ==> AllTimely(c, s, a + b)
    decreases a
  {
    if a == [] {
      assert a + b == b;
    } else {
      assert (a + b)[0] == a[0] && (a + b)[1..] == a[1..] + b;
      RunsJoin(c, Apply(c, s, a[0]), a[1..], b);
    }
  }

  lemma OneStep(c: Config, s: State, step: Step)
    requires Enabled(s, step)
    ensures Possible(c, s, [step]) && After(c, s, [step]) == Apply(c, s, step)
    ensures Timely(s, step) ==> AllTimely(c, s, [step])
  {
    assert [step][1..] == [];
    assert Possible(c, Apply(c, s, step), []);
  }

  /** One more action of the same worker at the front. */
  lemma RepeatStep(c: Config, s: State, w: nat, n: nat)
    requires n > 0 && w < |s.workers| && Possible(c, AfterWork(c, s, w, Succeeds), Repeat(w, n - 1))
    ensures Possible(c, s, Repeat(w, n))
    ensures After(c, s, Repeat(w, n)) == After(c, AfterWork(c, s, w, Succeeds), Repeat(w, n - 1))
    ensures AllTimely(c, AfterWork(c, s, w, Succeeds), Repeat(w, n - 1)) ==> AllTimely(c, s, Repeat(w, n))
  {
    assert Repeat(w, n)[0] == Work(w, Succeeds) && Repeat(w, n)[1..] == Repeat(w, n - 1);
  }

  /** A call alone on a missing master gets as far as creating one. */
  lemma ReachesEstablish(c: Config, s: State, w: nat)
    requires c.enabled && w < |s.workers| && s.workers[w] == Worker(Idle, false)
    requires s.master.None? && Available(s)
    ensures Possible(c, s, Repeat(w, 5)) && AllTimely(c, s, Repeat(w, 5))
    ensures After(c, s, Repeat(w, 5))
         == s.(lock := Held(w, s.now + c.lockTtl), workers := s.workers[w := Worker(Establish, false)])
  {
    var s1 := AfterWork(c, s, w, Succeeds);
    var s2 := AfterWork(c, s1, w, Succeeds);
    var s3 := AfterWork(c, s2, w, Succeeds);
    var s4 := AfterWork(c, s3, w, Succeeds);
    var s5 := AfterWork(c, s4, w, Succeeds);
    assert s5.workers == s.workers[w := Worker(Establish, false)];
    hide AfterWork;
    assert Repeat(w, 0) == [];
    RepeatStep(c, s4, w, 1);
    RepeatStep(c, s3, w, 2);
    RepeatStep(c, s2, w, 3);
    RepeatStep(c, s1, w, 4);
    RepeatStep(c, s, w, 5);
  }

  function TwoIdle(now: int, recorded: Option<int>): State {
    State(now, Free, None, true, recorded, [Worker(Idle, false), Worker(Idle, false)])
  }

  /** Once a critical section outlives the lock, two workers establish at the same time. */
  lemma OverlapPastTheTtl(c: Config, now: int)
    requires c.enabled && c.lockTtl > 0
    ensures Initial(TwoIdle(now, None))
    ensures exists steps :: Possible(c, TwoIdle(now, None), steps)
              && After(c, TwoIdle(now, None), steps).workers == [Worker(Establish, false), Worker(Establish, false)]
  {
    var s0 := TwoIdle(now, None);
    var first, wait, second := Repeat(0, 5), [Tick(c.lockTtl)], Repeat(1, 5);
    ReachesEstablish(c, s0, 0);
    var s1 := After(c, s0, first);
    OneStep(c, s1, wait[0]);
    var s2 := After(c, s1, wait);
    ReachesEstablish(c, s2, 1);
    hide AfterWork, Possible, After, AllTimely, Repeat;
    RunsJoin(c, s1, wait, second);
    RunsJoin(c, s0, first, wait + second);
    assert Possible(c, s0, first + (wait + second));
  }

  /** A call alone on a connection that looks too old gets as far as closing it. */
  lemma ReachesExit(c: Config, s: State, w: nat)
    requires c.enabled && w < |s.workers| && s.workers[w] == Worker(Idle, false)
    requires s.master.Some? && TooOld(c, s) && Available(s)
    ensures Possible(c, s, Repeat(w, 9)) && AllTimely(c, s, Repeat(w, 9))
    ensures After(c, s, Repeat(w, 9))
         == s.(lock := Held(w, s.now + c.lockTtl), workers := s.workers[w := Worker(Exit(Expired), false)])
  {
    var s1 := AfterWork(c, s, w, Succeeds);
    var s2 := AfterWork(c, s1, w, Succeeds);
    var s3 := AfterWork(c, s2, w, Succeeds);
    var s4 := AfterWork(c, s3, w, Succeeds);
    var s5 := AfterWork(c, s4, w, Succeeds);
    var s6 := AfterWork(c, s5, w, Succeeds);
    var s7 := AfterWork(c, s6, w, Succeeds);
    var s8 := AfterWork(c, s7, w, Succeeds);
    var s9 := AfterWork(c, s8, w, Succeeds);
    assert s9.workers == s.workers[w := Worker(Exit(Expired), false)];
    hide AfterWork;
    assert Repeat(w, 0) == [];
    RepeatStep(c, s8, w, 1);
    RepeatStep(c, s7, w, 2);
    RepeatStep(c, s6, w, 3);
    RepeatStep(c, s5, w, 4);
    RepeatStep(c, s4, w, 5);
    RepeatStep(c, s3, w, 6);
    RepeatStep(c, s2, w, 7);
    RepeatStep(c, s1, w, 8);
    RepeatStep(c, s, w, 9);
  }

  /** A creator that dies before recording leaves a dead worker, a new master and the old recorded time. */
  lemma CreateAndCrash(c: Config, s: State) returns (steps: seq<Step>)
    requires c.lockTtl > 0 && |s.workers| == 2
    requires s.workers[0] == Worker(Establish, false) && s.workers[1] == Worker(Idle, false)
    requires s.master.None? && s.lock == Held(0, s.now + c.lockTtl)
    ensures Possible(c, s, steps) && AllTimely(c, s, steps)
    ensures After(c, s, steps)
         == s.(now := s.now + c.lockTtl, master := Some(s.now), workers := [Worker(Dead, true), Worker(Idle, false)])
  {
    var create, crash, wait := [Work(0, Succeeds)], [Crash(0)], [Tick(c.lockTtl)];
    OneStep(c, s, create[0]);
    var s1 := After(c, s, create);
    OneStep(c, s1, crash[0]);
    var s2 := After(c, s1, crash);
    OneStep(c, s2, wait[0]);
    assert After(c, s2, wait)
        == s.(now := s.now + c.lockTtl, master := Some(s.now),
              workers := [Worker(Dead, true), Worker(Idle, false)]) by {
      assert s2.workers == [Worker(Dead, true), Worker(Idle, false)];
    }
    hide AfterWork, Possible, After, AllTimely;
    RunsJoin(c, s1, crash, wait);
    RunsJoin(c, s, create, crash + wait);
    steps := create + (crash + wait);
  }

  /** After such a crash the next worker closes a young master as expired. */
  lemma YoungMasterClosedAfterCrash(c: Config, now: int)
    requires c.enabled && 0 < c.lockTtl <= c.maxAge
    ensures var s0 := TwoIdle(now, Some(now - c.maxAge - 1));
            && Initial(s0)
            && exists steps :: Possible(c, s0, steps) && AllTimely(c, s0, steps)
                 && |After(c, s0, steps).workers| == 2
                 && After(c, s0, steps).workers[1].pc == Exit(Expired) && !OldMaster(c, After(c, s0, steps))
  {
    var s0 := TwoIdle(now, Some(now - c.maxAge - 1));
    assert Initial(s0);
    hide AfterWork, Possible, After, AllTimely, Repeat, Initial, Critical;
    var first, second := Repeat(0, 5), Repeat(1, 9);
    ReachesEstablish(c, s0, 0);
    var s1 := After(c, s0, first);
    var fault := CreateAndCrash(c, s1);
    var s2 := After(c, s1, fault);
    ReachesExit(c, s2, 1);
    RunsJoin(c, s1, fault, second);
    RunsJoin(c, s0, first, fault + second);
    assert Possible(c, s0, first + (fault + second));
  }
}
