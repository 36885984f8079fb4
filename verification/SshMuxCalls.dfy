/** The helper's methods as one worker runs them, with the other workers and the world free to act between any two of
    its actions. */
module SshMuxCalls {
  import opened SshMux
  import SshMuxGrounds

  datatype Verdict = Yes | No | Raised

  /** What the world chooses. */
  method AnyStep() returns (step: Step) {
    step := *;
  }

  method AnyNumber() returns (n: nat) {
    n := *;
  }

  class Call {
    const c: Config
    const w: nat
    var s: State
    ghost const s0: State
    ghost var run: seq<Step>

    constructor (c: Config, s: State, w: nat)
      requires w < |s.workers|
      ensures Valid() && this.c == c && this.w == w && this.s == s && s0 == s && run == []
    {
      this.c, this.w, this.s, this.s0, this.run := c, w, s, s, [];
    }

    /** The state is the one the recorded run of the machine leads to. */
    ghost predicate Valid()
      reads this
    {
      w < |s.workers| && Possible(c, s0, run) && s == After(c, s0, run)
    }

    function Me(): Worker
      requires w < |s.workers|
      reads this
    {
      s.workers[w]
    }

    predicate Mine(step: Step) {
      (step.Work? || step.Crash?) && step.w == w
    }

    method Do(step: Step)
      requires Valid() && Enabled(s, step)
      modifies this
      ensures Valid() && s == Apply(c, old(s), step) && run == old(run) + [step]
    {
      OneStep(c, s, step);
      RunsJoin(c, s0, run, [step]);
      KeepsWorkers(c, s, step);
      s := Apply(c, s, step);
      run := run + [step];
    }

    /** Any number of actions of the other workers and of the world. */
    method Others()
      requires Valid()
      modifies this
      ensures Valid() && Me() == old(Me()) && s.now >= old(s.now)
    {
      var count := AnyNumber();
      for i := 0 to count
        invariant Valid() && Me() == old(Me()) && s.now >= old(s.now)
      {
        var step := AnyStep();
        if Enabled(s, step) && !Mine(step) {
          if step.Work? {
            WorkFrame(c, s, step.w, step.outcome);
          }
          Do(step);
        }
      }
    }

    method Act() returns (o: Outcome)
      requires Valid()
      modifies this
      ensures Valid() && s == AfterWork(c, old(s), w, o)
    {
      o := *;
      Do(Work(w, o));
    }

    /** connectionIsReusable. */
    method ConnectionIsReusable(round: Round) returns (r: Verdict)
      requires Valid() && Me().pc == Probe(round)
      modifies this
      ensures Valid() && Me().acted == old(Me().acted)
      ensures r == Yes ==> Me().pc == Accept(round)
      ensures r == No ==> if round == First then Me().pc.Wait? else Me().pc.Exists?
      ensures r == Raised ==> Me().pc == Abort(round)
    {
      hide Possible, After;
      Others();
      var alive := s.master.Some?;
      var o := Act();
      if o.Throws? { return Raised; }
      if !alive { return No; }
      Others();
      var age := s.recorded;
      o := Act();
      if age.None? {
        Others();
        o := Act();
      }
      Others();
      var expired := TooOld(c, s);
      o := Act();
      if expired { return No; }
      if c.healthChecked {
        Others();
        var healthy := s.healthy;
        o := Act();
        if o.Throws? { return Raised; }
        if !healthy { return No; }
      }
      return Yes;
    }

    /** establishNewMultiplexedConnection. */
    method EstablishNewMultiplexedConnection() returns (r: Verdict)
      requires Valid() && Me().pc == Establish
      modifies this
      ensures Valid()
      ensures Me().pc == Release(match r case Yes => Established case No => NotEstablished case Raised => Unavailable)
    {
      Others();
      var o := Act();
      if o.Throws? { return Raised; }
      if o.Fails? { return No; }
      Others();
      o := Act();
      return Yes;
    }

    /** refreshMultiplexedConnection, with removeMuxFile in front. */
    method RefreshMultiplexedConnection() returns (r: Verdict)
      requires Valid() && Me().pc.Exit?
      modifies this
      ensures Valid()
      ensures Me().pc == Release(match r case Yes => Established case No => NotEstablished case Raised => Unavailable)
    {
      Others();
      var o := Act();
      if o.Throws? { return Raised; }
      Others();
      o := Act();
      r := EstablishNewMultiplexedConnection();
    }

    /** The callback under the lock, up to the release. */
    method UnderTheLock() returns (r: Verdict)
      requires Valid() && Me().pc == Probe(Locked)
      modifies this
      ensures Valid() && Me().pc.Release? && Me().pc.answer in {Reused, Established, NotEstablished, Unavailable}
      ensures r == (if Me().pc.answer == Unavailable then Raised else if ReturnsTrue(Me().pc.answer) then Yes else No)
    {
      r := ConnectionIsReusable(Locked);
      if r != No { return; }
      Others();
      var alive := s.master.Some?;
      var o := Act();
      if o.Throws? { return Raised; }
      if alive {
        r := RefreshMultiplexedConnection();
      } else {
        r := EstablishNewMultiplexedConnection();
      }
    }

    /** The body of ensureMultiplexedConnection. */
    method Ensure() returns (r: Verdict)
      requires Valid() && (Me().pc.Idle? || Me().pc.Done?)
      modifies this
      ensures Valid() && Me().pc.Done?
      ensures r == (if Me().pc.answer == Threw then Raised else if ReturnsTrue(Me().pc.answer) then Yes else No)
    {
      hide Possible, After;
      Others();
      var o := Act();
      if !c.enabled { return No; }
      r := ConnectionIsReusable(First);
      if r != No { return; }
      while Me().pc.Wait?
        invariant Valid()
        invariant Me().pc.Wait? || Me().pc == Probe(Locked) || Me().pc == Done(TimedOut) || Me().pc == Done(Unavailable)
        decreases if Me().pc.Wait? then 1 else 0, if Me().pc.Wait? then Me().pc.deadline - s.now else 0
      {
        Others();
        o := Act();
        if Me().pc.Wait? {
          Do(Tick(1));
        }
      }
      if Me().pc.Done? { return No; }
      r := UnderTheLock();
      if r == Raised {
        r := No;
      }
      Others();
      o := Act();
    }

    /** ensureMultiplexedConnection: every execution is a run of the machine, the value returned is the answer of the
        machine, and that answer rests on what the call has seen. */
    method EnsureMultiplexedConnection() returns (r: Verdict)
      requires Valid() && (Me().pc.Idle? || Me().pc.Done?)
      modifies this
      ensures Valid() && Me().pc.Done?
      ensures r == (if Me().pc.answer == Threw then Raised else if ReturnsTrue(Me().pc.answer) then Yes else No)
      ensures old(run) == [] && old(Me()).pc.Idle? ==>
                SshMuxGrounds.Answered(c, SshMuxGrounds.Gathered(c, s0, SshMuxGrounds.NOTHING, run, w), Me().pc.answer)
    {
      ghost var idle := run == [] && Me().pc.Idle?;
      r := Ensure();
      if idle {
        SshMuxGrounds.AnswersHaveGrounds(c, s0, SshMuxGrounds.NOTHING, run, w);
      }
    }
  }

  lemma KeepsWorkers(c: Config, s: State, step: Step)
    requires Enabled(s, step)
    ensures |Apply(c, s, step).workers| == |s.workers|
  {
    if step.Work? {
      WorkFrame(c, s, step.w, step.outcome);
    }
  }
}
