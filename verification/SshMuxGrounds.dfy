/** What a worker has seen during its call, and that every answer and every refusal rests on it. */
module SshMuxGrounds {
  import opened SshMux

  datatype Finding = Unseen | Holds | DoesNot | Raised

  /** The findings of a call's last check of the connection, the time of its last look, what it last found of the lock
      and after how much waiting, and how its last attempt to create a master ended. */
  datatype Evidence = Evidence(
    alive: Finding, young: Finding, healthy: Finding, looked: int, lock: Finding, waited: int, created: Finding)

  const NOTHING := Evidence(Unseen, Unseen, Unseen, 0, Unseen, 0, Unseen)

  function Found(o: Outcome, holds: bool): Finding {
    if o.Throws? then Raised else if holds then Holds else DoesNot
  }

  /** What the worker learns from one step of the run; a new call forgets everything. */
  function Observed(c: Config, e: Evidence, s: State, w: nat, step: Step): Evidence {
    if !step.Work? || step.w != w || w >= |s.workers| then e
    else
      match s.workers[w].pc
      case Idle => NOTHING
      case Done(_) => NOTHING
      case Probe(_) =>
        e.(alive := Found(step.outcome, s.master.Some?), young := Unseen, healthy := Unseen, looked := s.now)
      case ReadExpiry(_) =>
        var age := if s.recorded.Some? then s.now - s.recorded.value else 0;
        e.(young := if s.recorded.Some? && age > c.maxAge then DoesNot else Holds, looked := s.now)
      case Health(_) => e.(healthy := Found(step.outcome, s.healthy), looked := s.now)
      case Wait(_) =>
        var free := s.lock.Free? || s.lock.until <= s.now;
        e.(lock := Found(step.outcome, free), waited := s.now - e.looked)
      case Establish => e.(created := Found(step.outcome, step.outcome.Succeeds?))
      case _ => e
  }

  ghost function Gathered(c: Config, s: State, e: Evidence, steps: seq<Step>, w: nat): Evidence
    requires Possible(c, s, steps)
    decreases steps
  {
    if steps == [] then e
    else Gathered(c, Apply(c, s, steps[0]), Observed(c, e, s, w, steps[0]), steps[1..], w)
  }

  /** The check found the connection reusable. */
  predicate Good(c: Config, e: Evidence) {
    e.alive == Holds && e.young == Holds && (c.healthChecked ==> e.healthy == Holds)
  }

  /** The check refused the connection for this reason. */
  predicate Refused(c: Config, e: Evidence, reason: Reason) {
    match reason
    case Missing => e.alive == DoesNot
    case Expired => e.alive == Holds && e.young == DoesNot
    case Unhealthy => c.healthChecked && e.alive == Holds && e.young == Holds && e.healthy == DoesNot
  }

  /** Where a worker stands rests on what it has seen. */
  predicate Grounded(c: Config, e: Evidence, pc: Pc) {
    match pc
    case Idle => true
    case Dead => true
    case Done(answer) => Answered(c, e, answer)
    case Release(answer) => Answered(c, e, answer) && answer != TimedOut && answer != Disabled && answer != Threw
    case ReadAge(_) => c.enabled && e.alive == Holds
    case Stamp(_) => c.enabled && e.alive == Holds
    case ReadExpiry(_) => c.enabled && e.alive == Holds
    case Health(_) => c.enabled && c.healthChecked && e.alive == Holds && e.young == Holds
    case Wait(deadline) => c.enabled && deadline == e.looked + c.lockTimeout && SomeReason(c, e)
    case Exists(reason) => c.enabled && Refused(c, e, reason)
    case Exit(reason) => c.enabled && Refused(c, e, reason)
    case Clear => c.enabled && SomeReason(c, e)
    case Establish => c.enabled && SomeReason(c, e)
    case Store => c.enabled && SomeReason(c, e) && e.created == Holds
    case Probe(r) => c.enabled
  }

  predicate SomeReason(c: Config, e: Evidence) {
    Refused(c, e, Missing) || Refused(c, e, Expired) || Refused(c, e, Unhealthy)
  }

  predicate Answered(c: Config, e: Evidence, answer: Answer) {
    match answer
    case Disabled => !c.enabled
    case Reused => c.enabled && Good(c, e)
    case TimedOut => c.enabled && SomeReason(c, e) && e.lock == DoesNot && e.waited >= c.lockTimeout
    case Established => c.enabled && SomeReason(c, e) && e.created == Holds
    case NotEstablished => c.enabled && SomeReason(c, e) && e.created == DoesNot
    case Threw => c.enabled && (e.alive == Raised || e.healthy == Raised)
    case Unavailable => c.enabled
  }

  lemma ProbeKeepsGrounds(c: Config, e: Evidence, s: State, w: nat, o: Outcome)
    requires w < |s.workers| && Grounded(c, e, s.workers[w].pc)
    requires var pc := s.workers[w].pc; pc.Idle? || pc.Done? || pc.Probe? || pc.ReadAge? || pc.Stamp?
    ensures Grounded(c, Observed(c, e, s, w, Work(w, o)), AfterWork(c, s, w, o).workers[w].pc)
  {
  }

  lemma ExpiryKeepsGrounds(c: Config, e: Evidence, s: State, w: nat, o: Outcome)
    requires w < |s.workers| && Grounded(c, e, s.workers[w].pc) && s.workers[w].pc.ReadExpiry?
    ensures Grounded(c, Observed(c, e, s, w, Work(w, o)), AfterWork(c, s, w, o).workers[w].pc)
  {
  }

  lemma HealthKeepsGrounds(c: Config, e: Evidence, s: State, w: nat, o: Outcome)
    requires w < |s.workers| && Grounded(c, e, s.workers[w].pc) && s.workers[w].pc.Health?
    ensures Grounded(c, Observed(c, e, s, w, Work(w, o)), AfterWork(c, s, w, o).workers[w].pc)
  {
  }

  lemma WaitKeepsGrounds(c: Config, e: Evidence, s: State, w: nat, o: Outcome)
    requires w < |s.workers| && Grounded(c, e, s.workers[w].pc) && s.workers[w].pc.Wait?
    ensures Grounded(c, Observed(c, e, s, w, Work(w, o)), AfterWork(c, s, w, o).workers[w].pc)
  {
  }

  lemma ActsKeepGrounds(c: Config, e: Evidence, s: State, w: nat, o: Outcome)
    requires w < |s.workers| && Grounded(c, e, s.workers[w].pc)
    requires var pc := s.workers[w].pc; pc.Exists? || pc.Exit? || pc.Clear? || pc.Establish? || pc.Store?
    ensures Grounded(c, Observed(c, e, s, w, Work(w, o)), AfterWork(c, s, w, o).workers[w].pc)
  {
  }

  lemma LeavingKeepsGrounds(c: Config, e: Evidence, s: State, w: nat, o: Outcome)
    requires w < |s.workers| && Grounded(c, e, s.workers[w].pc)
    requires var pc := s.workers[w].pc; pc.Release? || pc.Dead?
    ensures Grounded(c, Observed(c, e, s, w, Work(w, o)), AfterWork(c, s, w, o).workers[w].pc)
  {
    hide Refused;
  }

  lemma WorkKeepsGrounds(c: Config, e: Evidence, s: State, w: nat, o: Outcome)
    requires w < |s.workers| && Grounded(c, e, s.workers[w].pc)
    ensures Grounded(c, Observed(c, e, s, w, Work(w, o)), AfterWork(c, s, w, o).workers[w].pc)
  {
    hide Grounded, Observed, AfterWork;
    match s.workers[w].pc
    case ReadExpiry(_) => ExpiryKeepsGrounds(c, e, s, w, o);
    case Health(_) => HealthKeepsGrounds(c, e, s, w, o);
    case Wait(_) => WaitKeepsGrounds(c, e, s, w, o);
    case Exists(_) => ActsKeepGrounds(c, e, s, w, o);
    case Exit(_) => ActsKeepGrounds(c, e, s, w, o);
    case Clear => ActsKeepGrounds(c, e, s, w, o);
    case Establish => ActsKeepGrounds(c, e, s, w, o);
    case Store => ActsKeepGrounds(c, e, s, w, o);
    case Release(_) => LeavingKeepsGrounds(c, e, s, w, o);
    case Dead => LeavingKeepsGrounds(c, e, s, w, o);
    case _ => ProbeKeepsGrounds(c, e, s, w, o);
  }

  lemma StepKeepsGrounds(c: Config, e: Evidence, s: State, w: nat, step: Step)
    requires w < |s.workers| && Enabled(s, step) && Grounded(c, e, s.workers[w].pc)
    ensures w < |Apply(c, s, step).workers|
    ensures Grounded(c, Observed(c, e, s, w, step), Apply(c, s, step).workers[w].pc)
  {
    hide AfterWork;
    if step.Work? {
      WorkFrame(c, s, step.w, step.outcome);
      if step.w == w {
        WorkKeepsGrounds(c, e, s, w, step.outcome);
      }
    }
    hide Answered, Refused, SomeReason;
  }

  /** In every run each answer, and each decision on the way, rests on what the worker has seen during its call: a
      reused connection was found alive, not too old and, if that is checked, healthy. */
  lemma {:induction false} AnswersHaveGrounds(c: Config, s: State, e: Evidence, steps: seq<Step>, w: nat)
    requires w < |s.workers| && Possible(c, s, steps) && Grounded(c, e, s.workers[w].pc)
    ensures w < |After(c, s, steps).workers|
    ensures Grounded(c, Gathered(c, s, e, steps, w), After(c, s, steps).workers[w].pc)
    decreases steps
  {
    hide Grounded, Observed, Apply;
    if steps != [] {
      StepKeepsGrounds(c, e, s, w, steps[0]);
      AnswersHaveGrounds(c, Apply(c, s, steps[0]), Observed(c, e, s, w, steps[0]), steps[1..], w);
    }
  }

  /** The two findings that a reuse needs, spelled out. */
  lemma ReusedWasReusable(c: Config, s: State, steps: seq<Step>, w: nat)
    requires w < |s.workers| && s.workers[w].pc == Idle && Possible(c, s, steps)
    requires w < |After(c, s, steps).workers| && After(c, s, steps).workers[w].pc == Done(Reused)
    ensures var e := Gathered(c, s, NOTHING, steps, w);
            e.alive == Holds && e.young == Holds && (c.healthChecked ==> e.healthy == Holds)
  {
    AnswersHaveGrounds(c, s, NOTHING, steps, w);
    hide After, Gathered;
  }

  /** A call alone on a live and recent but unhealthy master gets as far as closing it. */
  lemma ReachesUnhealthyExit(c: Config, s: State, w: nat)
    requires c.enabled && c.healthChecked && w < |s.workers| && s.workers[w] == Worker(Idle, false)
    requires s.master.Some? && !s.healthy && Available(s)
    requires s.recorded.Some? && s.now - s.recorded.value <= c.maxAge
    ensures Possible(c, s, Repeat(w, 11)) && AllTimely(c, s, Repeat(w, 11))
    ensures After(c, s, Repeat(w, 11))
         == s.(lock := Held(w, s.now + c.lockTtl), workers := s.workers[w := Worker(Exit(Unhealthy), false)])
  {
    var s1 := AfterWork(c, s, w, Succeeds);
    var s2 := AfterWork(c, s1, w, Succeeds);
    var s3 := AfterWork(c, s2, w, Succeeds);
    var s4 := AfterWork(c, s3, w, Succeeds);
    var s5 := AfterWork(c, s4, w, Succeeds);
    var s6 := AfterWork(c, s5, w, Succeeds);
    SecondHalf(c, s6, w);
    assert s6 == s.(lock := Held(w, s.now + c.lockTtl), workers := s.workers[w := Worker(Probe(Locked), false)]);
    hide AfterWork;
    RepeatStep(c, s5, w, 6);
    RepeatStep(c, s4, w, 7);
    RepeatStep(c, s3, w, 8);
    RepeatStep(c, s2, w, 9);
    RepeatStep(c, s1, w, 10);
    RepeatStep(c, s, w, 11);
  }

  lemma SecondHalf(c: Config, s: State, w: nat)
    requires c.healthChecked && w < |s.workers| && s.workers[w] == Worker(Probe(Locked), false)
    requires s.master.Some? && !s.healthy && s.recorded.Some? && s.now - s.recorded.value <= c.maxAge
    ensures Possible(c, s, Repeat(w, 5)) && AllTimely(c, s, Repeat(w, 5))
    ensures After(c, s, Repeat(w, 5)) == s.(workers := s.workers[w := Worker(Exit(Unhealthy), false)])
  {
    var s1 := AfterWork(c, s, w, Succeeds);
    var s2 := AfterWork(c, s1, w, Succeeds);
    var s3 := AfterWork(c, s2, w, Succeeds);
    var s4 := AfterWork(c, s3, w, Succeeds);
    var s5 := AfterWork(c, s4, w, Succeeds);
    assert s5.workers == s.workers[w := Worker(Exit(Unhealthy), false)];
    hide AfterWork;
    assert Repeat(w, 0) == [];
    RepeatStep(c, s4, w, 1);
    RepeatStep(c, s3, w, 2);
    RepeatStep(c, s2, w, 3);
    RepeatStep(c, s1, w, 4);
    RepeatStep(c, s, w, 5);
  }
}
