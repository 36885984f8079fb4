/** The status row of one deployment, written by its job and by any number of cancellers that read first and write
    later. */
module DeploymentStatus {

  datatype Status = Queued | InProgress | Finished | Failed | Cancelled

  predicate Terminal(status: Status) {
    status in {Finished, Failed, Cancelled}
  }

  /** The row, and how often the side effects of success and of failure ran. */
  datatype Row = Row(status: Status, successes: nat, failures: nat)

  /** transitionToStatus for FINISHED or FAILED. A cancelled row makes it throw. */
  function Transitioned(row: Row, to: Status): Row {
    if Terminal(row.status) then row
    else
      match to
      case Finished => row.(status := to, successes := row.successes + 1)
      case Failed => row.(status := to, failures := row.failures + 1)
      case _ => row.(status := to)
  }

  function Overwritten(row: Row): Row {
    row.(status := Cancelled)
  }

  /** The start of handle: a cancelled row stops the job. */
  function Begun(row: Row): Row {
    if row.status == Cancelled then row else row.(status := InProgress)
  }

  /** The row, whether the job has begun, and how many cancellers hold the row in their list. */
  datatype State = State(row: Row, begun: bool, listed: nat)

  datatype Step = Begin | Complete | Fail | CancelRead | CancelWrite

  /** The job begins once and acts only after that; a canceller writes only what it listed. */
  predicate Enabled(s: State, step: Step) {
    match step
    case Begin => !s.begun
    case Complete => s.begun
    case Fail => s.begun
    case CancelRead => true
    case CancelWrite => s.listed > 0
  }

  function Apply(s: State, step: Step): State
    requires Enabled(s, step)
  {
    match step
    case Begin => s.(row := Begun(s.row), begun := true)
    case Complete => s.(row := Transitioned(s.row, Finished))
    case Fail => s.(row := Transitioned(s.row, Failed))
    case CancelRead => if s.row.status in {Queued, InProgress} then s.(listed := s.listed + 1) else s
    case CancelWrite => s.(row := Overwritten(s.row), listed := s.listed - 1)
  }

  ghost predicate Possible(s: State, steps: seq<Step>)
    decreases steps
  {
    steps == [] || (Enabled(s, steps[0]) && Possible(Apply(s, steps[0]), steps[1..]))
  }

  ghost function After(s: State, steps: seq<Step>): State
    requires Possible(s, steps)
    decreases steps
  {
    if steps == [] then s else After(Apply(s, steps[0]), steps[1..])
  }

  predicate Initial(s: State) {
    s.row.status in {Queued, InProgress} && s.row.successes == 0 && s.row.failures == 0 && !s.begun && s.listed == 0
  }

  /** Side effects ran only if the row was taken to a terminal status, from which no step leads back. */
  predicate Sound(s: State) {
    && s.row.successes + s.row.failures <= 1
    && (!Terminal(s.row.status) ==> s.row.successes + s.row.failures == 0)
    && (s.row.status == Finished ==> s.row.successes == 1)
    && (s.row.status == Failed ==> s.row.failures == 1)
    && (!s.begun ==> s.row.successes + s.row.failures == 0)
  }

  lemma {:induction false} RunsStaySound(s: State, steps: seq<Step>)
    requires Sound(s) && Possible(s, steps)
    ensures Sound(After(s, steps))
    decreases steps
  {
    if steps != [] {
      RunsStaySound(Apply(s, steps[0]), steps[1..]);
    }
  }

  /** However the job and the cancellers interleave, the side effects of success and failure together run at most once,
      and a finished or failed row has run its own. */
  lemma EffectsRunAtMostOnce(s: State, steps: seq<Step>)
    requires Initial(s) && Possible(s, steps)
    ensures var row := After(s, steps).row;
            && row.successes + row.failures <= 1
            && (row.status == Finished ==> row.successes == 1 && row.failures == 0)
            && (row.status == Failed ==> row.successes == 0 && row.failures == 1)
  {
    RunsStaySound(s, steps);
  }

  /** A terminal status changes in exactly one way: a canceller writes to a row that became terminal after it listed
      it. */
  lemma TerminalChangesExactly(s: State, before: seq<Step>, step: Step)
    requires Initial(s) && Possible(s, before) && Enabled(After(s, before), step)
    requires Terminal(After(s, before).row.status)
    ensures Apply(After(s, before), step).row.status != After(s, before).row.status
       <==> step == CancelWrite && After(s, before).row.status in {Finished, Failed}
  {
    RunsStaySound(s, before);
  }

  /** Such a run exists: the canceller lists the row, the job finishes and runs its side effects, the canceller
      overwrites it. */
  lemma StaleCancelOverwrites(s: State)
    requires Initial(s)
    ensures var steps := [Begin, CancelRead, Complete];
            && Possible(s, steps) && After(s, steps).row == Row(Finished, 1, 0)
            && Enabled(After(s, steps), CancelWrite) && Apply(After(s, steps), CancelWrite).row == Row(Cancelled, 1, 0)
  {
    var steps := [Begin, CancelRead, Complete];
    var s1 := Apply(s, Begin);
    var s2 := Apply(s1, CancelRead);
    var s3 := Apply(s2, Complete);
    assert steps[1..] == [CancelRead, Complete] && steps[1..][1..] == [Complete] && steps[1..][1..][1..] == [];
    assert Possible(s3, []) && After(s3, []) == s3;
    assert Possible(s2, [Complete]) && After(s2, [Complete]) == s3;
    assert Possible(s1, steps[1..]) && After(s1, steps[1..]) == s3;
  }

  /* Cancellers that do not act on stale lists. */

  /** Every write of a canceller meets a row that is still active. */
  ghost predicate NeverStale(s: State, steps: seq<Step>)
    requires Possible(s, steps)
    decreases steps
  {
    steps == [] || ((steps[0] == CancelWrite ==> !Terminal(s.row.status)) && NeverStale(Apply(s, steps[0]), steps[1..]))
  }

  /** The status the first deciding step of a run leads to, if there is one. */
  function FirstDecision(steps: seq<Step>, otherwise: Status): Status {
    if steps == [] then otherwise
    else
      match steps[0]
      case Complete => Finished
      case Fail => Failed
      case CancelWrite => Cancelled
      case Begin => FirstDecision(steps[1..], InProgress)
      case CancelRead => FirstDecision(steps[1..], otherwise)
  }

  lemma {:induction false} TerminalStays(s: State, steps: seq<Step>)
    requires Sound(s) && Terminal(s.row.status) && Possible(s, steps) && NeverStale(s, steps)
    ensures After(s, steps).row == s.row
    decreases steps
  {
    if steps != [] {
      TerminalStays(Apply(s, steps[0]), steps[1..]);
    }
  }

  /** Then the first decision of the run is final. */
  lemma {:induction false} FirstDecisionWins(s: State, steps: seq<Step>)
    requires Sound(s) && !Terminal(s.row.status) && Possible(s, steps) && NeverStale(s, steps)
    ensures After(s, steps).row.status == FirstDecision(steps, s.row.status)
    decreases steps
  {
    if steps != [] {
      var s' := Apply(s, steps[0]);
      if Terminal(s'.row.status) {
        TerminalStays(s', steps[1..]);
      } else {
        FirstDecisionWins(s', steps[1..]);
      }
    }
  }

  /* The cancel loop over all deployments of a preview. */

  datatype Deployment = Deployment(application: nat, pullRequest: nat, row: Row)

  predicate Active(d: Deployment, application: nat, pullRequest: nat) {
    d.application == application && d.pullRequest == pullRequest && d.row.status in {Queued, InProgress}
  }

  /** What jobs may do to a row between two actions of the canceller. */
  predicate JobReaches(before: Row, after: Row) {
    || after == before
    || (!Terminal(before.status) && (after.status == InProgress || after.status == Finished || after.status == Failed))
  }

  /** Only the row of a deployment changes, to cancelled or as its job may change it. */
  predicate Fate(before: Deployment, now: Deployment, cancelled: bool) {
    && now == before.(row := now.row)
    && if cancelled then now.row.status == Cancelled else JobReaches(before.row, now.row)
  }

  ghost predicate JobsOnly(before: seq<Deployment>, now: seq<Deployment>) {
    |now| == |before| && forall i :: 0 <= i < |now| ==> Fate(before[i], now[i], false)
  }

  /** The writes to these deployments have been tried, and some of them raised. */
  ghost predicate Tried(before: seq<Deployment>, now: seq<Deployment>, tried: seq<nat>, raised: set<nat>) {
    && |now| == |before|
    && (forall k :: k in raised ==> k in tried)
    && forall k :: 0 <= k < |now| ==> Fate(before[k], now[k], k in tried && k !in raised)
  }

  lemma JobsKeepTried(before: seq<Deployment>, now: seq<Deployment>, later: seq<Deployment>, tried: seq<nat>,
                      raised: set<nat>)
    requires Tried(before, now, tried, raised) && JobsOnly(now, later)
    ensures Tried(before, later, tried, raised)
  {
    forall k | 0 <= k < |later| ensures Fate(before[k], later[k], k in tried && k !in raised) {
      assert Fate(before[k], now[k], k in tried && k !in raised) && Fate(now[k], later[k], false);
    }
  }

  lemma OneMoreTried(before: seq<Deployment>, now: seq<Deployment>, tried: seq<nat>, raised: set<nat>, at: nat)
    requires Tried(before, now, tried, raised) && at < |now| && at !in tried
    ensures Tried(before, now, tried + [at], raised + {at})
    ensures Tried(before, now[at := now[at].(row := Overwritten(now[at].row))], tried + [at], raised)
  {
    assert forall k :: k in tried + [at] <==> k in tried || k == at;
    assert forall k :: 0 <= k < |now| ==> Fate(before[k], now[k], k in tried && k !in raised);
  }

  method AnyNumber() returns (n: nat) {
    n := *;
  }

  class DeploymentTable {
    var rows: seq<Deployment>

    constructor (rows: seq<Deployment>)
      ensures this.rows == rows
    {
      this.rows := rows;
    }

    /** Any job takes a step on its own row. */
    method Jobs()
      modifies this
      ensures JobsOnly(old(rows), rows)
    {
      var count := AnyNumber();
      for k := 0 to count
        invariant JobsOnly(old(rows), rows)
      {
        var i := AnyNumber();
        if i < |rows| {
          var row := rows[i].row;
          var begins, completes: bool := *, *;
          if begins && !Terminal(row.status) {
            row := Begun(row);
          } else {
            row := Transitioned(row, if completes then Finished else Failed);
          }
          rows := rows[i := rows[i].(row := row)];
        }
      }
    }

    /** The deployments the query lists, in order. */
    method List(application: nat, pullRequest: nat) returns (listed: seq<nat>)
      ensures forall i, j :: 0 <= i < j < |listed| ==> listed[i] < listed[j]
      ensures forall i :: i in listed <==> 0 <= i < |rows| && Active(rows[i], application, pullRequest)
    {
      listed := [];
      for i := 0 to |rows|
        invariant forall k :: 0 <= k < |listed| ==> listed[k] < i
        invariant forall k, m :: 0 <= k < m < |listed| ==> listed[k] < listed[m]
        invariant forall k :: k in listed <==> 0 <= k < i && Active(rows[k], application, pullRequest)
      {
        if Active(rows[i], application, pullRequest) {
          listed := listed + [i];
        }
      }
    }

    /** The cancel loop of deleteApplicationPreview, with the jobs running between its query and its writes. A write
        that raises is swallowed. Every other deployment listed by the query ends cancelled; the rest is only touched by
        its own job, and what is over stays as it was. */
    method CancelActiveDeployments(application: nat, pullRequest: nat) returns (listed: seq<nat>, raised: set<nat>)
      modifies this
      ensures |rows| == |old(rows)|
      ensures forall i :: i in listed <==> 0 <= i < |rows| && Active(old(rows)[i], application, pullRequest)
      ensures forall i :: i in raised ==> i in listed
      ensures forall i :: 0 <= i < |rows| ==> Fate(old(rows)[i], rows[i], i in listed && i !in raised)
    {
      listed := List(application, pullRequest);
      raised := {};
      assert listed[..0] == [];
      assert forall k :: 0 <= k < |listed| ==> listed[k] in listed;
      hide Fate, JobsOnly, Active;
      Untried(rows);
      for n := 0 to |listed|
        invariant Tried(old(rows), rows, listed[..n], raised)
      {
        ghost var before := rows;
        Jobs();
        JobsKeepTried(old(rows), before, rows, listed[..n], raised);
        var at := listed[n];
        OneMoreTried(old(rows), rows, listed[..n], raised, at);
        assert listed[..n + 1] == listed[..n] + [at];
        var raises: bool := *;
        if raises {
          raised := raised + {at};
        } else {
          rows := rows[at := rows[at].(row := Overwritten(rows[at].row))];
        }
      }
      assert listed[..|listed|] == listed;
    }
  }

  lemma Untried(rows: seq<Deployment>)
    ensures Tried(rows, rows, [], {})
  {
  }
}
