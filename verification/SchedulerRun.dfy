/** The scheduler's pass over both tables: pages of both, prechecks, then turns between the due backups and the due
    tasks. */
module SchedulerRun {
  import opened CronDedup
  import opened ScheduledJobs

  /** One table with its cache keys and what the pass did to it. */
  class Stream {
    const kind: Kind
    var rows: seq<Job>
    var keys: map<nat, Entry>
    var prechecked: seq<nat>
    var dispatched: seq<nat>
    var skipped: nat

    constructor (kind: Kind, rows: seq<Job>, keys: map<nat, Entry>)
      ensures this.kind == kind && Now() == State(rows, keys, [], [], 0)
    {
      this.kind, this.rows, this.keys := kind, rows, keys;
      prechecked, dispatched, skipped := [], [], 0;
    }

    ghost function Now(): State
      reads this
    {
      State(rows, keys, prechecked, dispatched, skipped)
    }

    /** processScheduledBackup and processScheduledTask. */
    method Process(job: Job, now: int)
      modifies this
      ensures Now() == AfterProcess(kind, old(Now()), job, now)
    {
      // A backup's missing resource is noticed first, a task's only after its server was found fit.
      if !job.hasServer || (kind == Backup && !job.hasResource) {
        rows := WithoutId(rows, job.id);
        skipped := skipped + 1;
        return;
      }
      if !job.fit {
        skipped := skipped + 1;
        return;
      }
      if !job.hasResource {
        rows := WithoutId(rows, job.id);
        skipped := skipped + 1;
        return;
      }
      var entry := Look(keys, job.id);
      PrecheckAgrees(job.cron, entry, now);
      var (fires, after) := ShouldRunCronNow(job.cron, entry, now);
      keys := keys[job.id := after];
      if !fires {
        return;
      }
      if kind == Task && !job.running {
        skipped := skipped + 1;
        return;
      }
      dispatched := dispatched + [job.id];
    }

    /** One iteration of dueScheduledBackups or dueScheduledTasks. */
    method Precheck(job: Job, now: int) returns (due: bool)
      modifies this
      ensures Now() == AfterPrecheckOf(kind, old(Now()), job, now)
      ensures due == Due(job, Look(old(keys), job.id), now)
    {
      prechecked := prechecked + [job.id];
      if Orphaned(job) {
        Process(job, now);
        return false;
      }
      var entry := Look(keys, job.id);
      PrecheckAgrees(job.cron, entry, now);
      var (candidate, after) := DueCandidate(job.cron, entry, now);
      due := candidate;
      if !due {
        keys := keys[job.id := after];
      }
    }

    /** The due jobs of a page, after prechecking the whole page. */
    method PrecheckPage(page: seq<Job>, now: int, ghost s0: State, ghost done: seq<Job>) returns (due: seq<Job>)
      requires Reached(kind, s0, done, [], Now(), now)
      requires DistinctIds(done + page)
      modifies this
      ensures Reached(kind, s0, done + page, due, Now(), now)
    {
      hide Reached, AfterPrecheckOf, Due, HasId, DistinctIds;
      due := [];
      Extend(done, page);
      for i := 0 to |page|
        invariant Reached(kind, s0, done + page[..i], due, Now(), now)
      {
        ghost var before := done + page[..i];
        NextIsNew(done, page, i);
        PrecheckReaches(kind, s0, before, due, Now(), page[i], now);
        KeyUntouched(kind, s0, before, due, Now(), page[i], now);
        ExtendBy(done, page, i);
        var isDue := Precheck(page[i], now);
        due := if isDue then due + [page[i]] else due;
      }
    }
  }

  lemma Extend(done: seq<Job>, page: seq<Job>)
    ensures done + page[..0] == done && done + page[..|page|] == done + page
  {
    assert page[..|page|] == page;
  }

  lemma ExtendBy(done: seq<Job>, page: seq<Job>, i: nat)
    requires i < |page|
    ensures done + page[..i] + [page[i]] == done + page[..i + 1]
  {
  }

  lemma KeyUntouched(kind: Kind, s0: State, done: seq<Job>, pending: seq<Job>, s: State, job: Job, now: int)
    requires Reached(kind, s0, done, pending, s, now) && !HasId(done, job.id)
    ensures Look(s.keys, job.id) == Look(s0.keys, job.id)
  {
    PrecheckKeys(kind, s0, done, pending, s, job, now);
  }

  lemma NextIsNew(done: seq<Job>, page: seq<Job>, i: nat)
    requires DistinctIds(done + page) && i < |page|
    ensures !HasId(done + page[..i], page[i].id)
  {
    var all, before := done + page, done + page[..i];
    assert all[|done| + i] == page[i];
    assert forall j :: 0 <= j < |before| ==> before[j] == all[j];
  }

  /* Taking turns. */

  function Less(n: nat, m: nat): nat {
    if n <= m then 0 else n - m
  }

  /** The order in which m due backups and n due tasks are processed. */
  function Turns(m: nat, n: nat): seq<Kind>
    decreases m + n
  {
    if m == 0 && n == 0 then []
    else (if m > 0 then [Backup] else []) + (if n > 0 then [Task] else []) + Turns(Less(m, 1), Less(n, 1))
  }

  function Count(kind: Kind, order: seq<Kind>): nat {
    if order == [] then 0 else (if order[0] == kind then 1 else 0) + Count(kind, order[1..])
  }

  lemma {:induction false} CountSplits(kind: Kind, a: seq<Kind>, b: seq<Kind>)
    ensures Count(kind, a + b) == Count(kind, a) + Count(kind, b)
  {
    if a == [] {
      assert a + b == b;
    } else {
      assert (a + b)[1..] == a[1..] + b;
      CountSplits(kind, a[1..], b);
    }
  }

  /** Neither kind starves: at every moment the numbers processed differ by at most one, until one kind is exhausted. */
  lemma {:induction false} TurnsAreFair(m: nat, n: nat, k: nat)
    requires k <= |Turns(m, n)|
    ensures var b, t := Count(Backup, Turns(m, n)[..k]), Count(Task, Turns(m, n)[..k]);
            && b <= m && t <= n && b + t == k
            && (b < m && t < n ==> t <= b <= t + 1)
            && (k == |Turns(m, n)| ==> b == m && t == n)
    decreases m + n
  {
    var order := Turns(m, n);
    if m > 0 || n > 0 {
      var head := (if m > 0 then [Backup] else []) + (if n > 0 then [Task] else []);
      var rest := Turns(Less(m, 1), Less(n, 1));
      assert order == head + rest;
      if k >= |head| {
        TurnsAreFair(Less(m, 1), Less(n, 1), k - |head|);
        assert order[..k] == head + rest[..k - |head|];
        CountSplits(Backup, head, rest[..k - |head|]);
        CountSplits(Task, head, rest[..k - |head|]);
        HeadCounts(m, n);
      } else {
        assert order[..k] == head[..k];
        assert k == 1 ==> head[..1] == [head[0]] && [head[0]][1..] == [];
      }
    }
  }

  lemma HeadCounts(m: nat, n: nat)
    ensures var head := (if m > 0 then [Backup] else []) + (if n > 0 then [Task] else []);
            Count(Backup, head) == (if m > 0 then 1 else 0) && Count(Task, head) == (if n > 0 then 1 else 0)
  {
    CountSplits(Backup, if m > 0 then [Backup] else [], if n > 0 then [Task] else []);
    CountSplits(Task, if m > 0 then [Backup] else [], if n > 0 then [Task] else []);
  }

  function From(jobs: seq<Job>, i: nat): seq<Job> {
    if i <= |jobs| then jobs[i..] else []
  }

  lemma FromStep(jobs: seq<Job>, i: nat)
    ensures i < |jobs| ==> From(jobs, i) != [] && From(jobs, i)[0] == jobs[i] && From(jobs, i)[1..] == From(jobs, i + 1)
    ensures i >= |jobs| ==> From(jobs, i) == [] == From(jobs, i + 1)
  {
  }

  /** What is left of the turns after the first rounds. */
  ghost function TurnsFrom(m: nat, n: nat, index: nat): seq<Kind> {
    Turns(Less(m, index), Less(n, index))
  }

  /** The next round. */
  function Round(m: nat, n: nat, index: nat): seq<Kind> {
    (if index < m then [Backup] else []) + (if index < n then [Task] else [])
  }

  lemma TurnsUnfold(m: nat, n: nat, index: nat)
    requires index < m || index < n
    ensures TurnsFrom(m, n, index) == Round(m, n, index) + TurnsFrom(m, n, index + 1)
  {
    assert Less(Less(m, index), 1) == Less(m, index + 1) && Less(Less(n, index), 1) == Less(n, index + 1);
  }

  lemma TurnsStep(m: nat, n: nat, index: nat, order: seq<Kind>, order': seq<Kind>)
    requires index < m || index < n
    requires Turns(m, n) == order + TurnsFrom(m, n, index)
    requires order' == order + Round(m, n, index)
    ensures Turns(m, n) == order' + TurnsFrom(m, n, index + 1)
  {
    TurnsUnfold(m, n, index);
    hide Turns, TurnsFrom, Round;
    assert order + (Round(m, n, index) + TurnsFrom(m, n, index + 1))
        == order + Round(m, n, index) + TurnsFrom(m, n, index + 1);
  }

  lemma TurnsEnds(m: nat, n: nat, index: nat)
    requires index >= m && index >= n
    ensures TurnsFrom(m, n, index) == []
  {
  }

  /** processInterleavedDueSchedules. */
  method ProcessInterleaved(backups: Stream, tasks: Stream, dueBackups: seq<Job>, dueTasks: seq<Job>, now: int,
                            ghost b0: State, ghost t0: State, ghost doneB: seq<Job>, ghost doneT: seq<Job>)
    returns (order: seq<Kind>)
    requires backups != tasks
    requires Reached(backups.kind, b0, doneB, dueBackups, backups.Now(), now)
    requires Reached(tasks.kind, t0, doneT, dueTasks, tasks.Now(), now)
    modifies backups, tasks
    ensures Reached(backups.kind, b0, doneB, [], backups.Now(), now)
    ensures Reached(tasks.kind, t0, doneT, [], tasks.Now(), now)
    ensures order == Turns(|dueBackups|, |dueTasks|)
  {
    hide Reached, AfterProcess, Turns, TurnsFrom;
    order := [];
    var maxCount := if |dueBackups| > |dueTasks| then |dueBackups| else |dueTasks|;
    FromStart(dueBackups);
    FromStart(dueTasks);
    TurnsStart(|dueBackups|, |dueTasks|);
    hide From;
    for index := 0 to maxCount
      invariant Reached(backups.kind, b0, doneB, From(dueBackups, index), backups.Now(), now)
      invariant Reached(tasks.kind, t0, doneT, From(dueTasks, index), tasks.Now(), now)
      invariant Turns(|dueBackups|, |dueTasks|) == order + TurnsFrom(|dueBackups|, |dueTasks|, index)
    {
      ghost var before := order;
      FromStep(dueBackups, index);
      FromStep(dueTasks, index);
      if index < |dueBackups| {
        ProcessReaches(backups.kind, b0, doneB, From(dueBackups, index), backups.Now(), now);
        backups.Process(dueBackups[index], now);
        order := order + [Backup];
      }
      if index < |dueTasks| {
        ProcessReaches(tasks.kind, t0, doneT, From(dueTasks, index), tasks.Now(), now);
        tasks.Process(dueTasks[index], now);
        order := order + [Task];
      }
      assert order == before + Round(|dueBackups|, |dueTasks|, index);
      TurnsStep(|dueBackups|, |dueTasks|, index, before, order);
    }
    TurnsEnds(|dueBackups|, |dueTasks|, maxCount);
    FromEnds(dueBackups, maxCount);
    FromEnds(dueTasks, maxCount);
  }

  lemma TurnsStart(m: nat, n: nat)
    ensures Turns(m, n) == [] + TurnsFrom(m, n, 0)
  {
    assert Less(m, 0) == m && Less(n, 0) == n;
  }

  lemma FromStart(jobs: seq<Job>)
    ensures From(jobs, 0) == jobs
  {
  }

  lemma FromEnds(jobs: seq<Job>, i: nat)
    ensures i >= |jobs| ==> From(jobs, i) == []
  {
  }

  /* The whole pass. */

  /** The cursor after n of the selected rows. */
  ghost function Cursor(all: seq<Job>, n: nat): nat
    requires n <= |all|
  {
    if n == 0 then 0 else all[n - 1].id
  }

  function Advance(all: seq<Job>, n: nat, limit: nat): (m: nat)
    requires n <= |all|
    ensures n <= m <= |all|
  {
    if |all| - n <= limit then |all| else n + limit
  }

  /** Although rows were deleted on the way, the next page is the next part of the original selection. */
  lemma NextPage(kind: Kind, s0: State, s: State, n: nat, limit: nat, now: int)
    requires Ordered(s0.rows) && n <= |Selected(s0.rows, 0)|
    requires Reached(kind, s0, Selected(s0.rows, 0)[..n], [], s, now)
    ensures var all := Selected(s0.rows, 0);
            var m := Advance(all, n, limit);
            && Page(s.rows, Cursor(all, n), limit) == all[n..m]
            && DistinctIds(all[..n] + all[n..m])
            && all[..n] + all[n..m] == all[..m]
  {
    var all := Selected(s0.rows, 0);
    var m := Advance(all, n, limit);
    SelectedOrdered(s0.rows, 0);
    assert s.rows == RowsAfter(kind, all[..n], s0.rows);
    SelectedAfterDeletions(kind, all[..n], s0.rows, Cursor(all, n));
    if n > 0 {
      SelectedAfter(s0.rows, 0, n);
    }
    hide Reached, RowsAfter, Selected;
    assert Selected(s.rows, Cursor(all, n)) == all[n..];
    PageSlices(all, n, limit);
  }

  lemma PageSlices(all: seq<Job>, n: nat, limit: nat)
    requires n <= |all| && Ordered(all)
    ensures var m := Advance(all, n, limit);
            && (if |all[n..]| <= limit then all[n..] else all[n..][..limit]) == all[n..m]
            && DistinctIds(all[..n] + all[n..m])
            && all[..n] + all[n..m] == all[..m]
  {
    var m := Advance(all, n, limit);
    assert all[..n] + all[n..m] == all[..m];
  }

  /** The order of every chunk takes turns. */
  ghost predicate InTurns(orders: seq<seq<Kind>>) {
    forall order :: order in orders ==> exists m: nat, n: nat :: order == Turns(m, n)
  }

  lemma InTurnsGrows(orders: seq<seq<Kind>>, m: nat, n: nat)
    requires InTurns(orders)
    ensures InTurns(orders + [Turns(m, n)])
  {
  }

  /** processScheduledBackupsAndTasks, with the chunk size as a parameter. */
  method ProcessScheduledBackupsAndTasks(backups: Stream, tasks: Stream, chunkSize: nat, now: int)
    returns (orders: seq<seq<Kind>>)
    requires backups != tasks && chunkSize >= 1
    requires backups.kind == Backup && tasks.kind == Task
    requires Ordered(backups.rows) && Ordered(tasks.rows)
    modifies backups, tasks
    ensures Handled(Backup, old(backups.Now()), Selected(old(backups.rows), 0), backups.Now(), now)
    ensures Handled(Task, old(tasks.Now()), Selected(old(tasks.rows), 0), tasks.Now(), now)
    ensures InTurns(orders)
  {
    hide Reached, Handled, Selected, Page, Ordered, DistinctIds, InTurns, Turns;
    ghost var b0, t0 := backups.Now(), tasks.Now();
    ghost var allB, allT := Selected(b0.rows, 0), Selected(t0.rows, 0);
    ghost var nb, nt := 0, 0;
    var lastBackupId, lastTaskId := 0, 0;
    var more := true;
    orders := [];
    Beginnings(b0, t0, now);
    while more
      invariant nb <= |allB| && nt <= |allT|
      invariant lastBackupId == Cursor(allB, nb) && lastTaskId == Cursor(allT, nt)
      invariant Reached(Backup, b0, allB[..nb], [], backups.Now(), now)
      invariant Reached(Task, t0, allT[..nt], [], tasks.Now(), now)
      invariant !more ==> nb == |allB| && nt == |allT|
      invariant InTurns(orders)
      decreases |allB| - nb + |allT| - nt, more
    {
      NextPage(Backup, b0, backups.Now(), nb, chunkSize, now);
      NextPage(Task, t0, tasks.Now(), nt, chunkSize, now);
      ghost var mb, mt := Advance(allB, nb, chunkSize), Advance(allT, nt, chunkSize);
      var backupPage := Page(backups.rows, lastBackupId, chunkSize);
      var taskPage := Page(tasks.rows, lastTaskId, chunkSize);
      if backupPage != [] {
        lastBackupId := backupPage[|backupPage| - 1].id;
      }
      if taskPage != [] {
        lastTaskId := taskPage[|taskPage| - 1].id;
      }
      var dueBackups := backups.PrecheckPage(backupPage, now, b0, allB[..nb]);
      var dueTasks := tasks.PrecheckPage(taskPage, now, t0, allT[..nt]);
      nb, nt := mb, mt;
      var order := ProcessInterleaved(backups, tasks, dueBackups, dueTasks, now, b0, t0, allB[..nb], allT[..nt]);
      InTurnsGrows(orders, |dueBackups|, |dueTasks|);
      orders := orders + [order];
      more := backupPage != [] || taskPage != [];
    }
    Endings(b0, t0, backups.Now(), tasks.Now(), now);
  }

  lemma Beginnings(b0: State, t0: State, now: int)
    ensures Reached(Backup, b0, Selected(b0.rows, 0)[..0], [], b0, now)
    ensures Reached(Task, t0, Selected(t0.rows, 0)[..0], [], t0, now)
    ensures InTurns([])
  {
    hide Reached, Selected;
    NothingReachedYet(Backup, b0, now);
    NothingReachedYet(Task, t0, now);
  }

  lemma Endings(b0: State, t0: State, b: State, t: State, now: int)
    requires Reached(Backup, b0, Selected(b0.rows, 0)[..|Selected(b0.rows, 0)|], [], b, now)
    requires Reached(Task, t0, Selected(t0.rows, 0)[..|Selected(t0.rows, 0)|], [], t, now)
    ensures Handled(Backup, b0, Selected(b0.rows, 0), b, now) && Handled(Task, t0, Selected(t0.rows, 0), t, now)
  {
    hide Reached, Handled, Selected;
    var allB, allT := Selected(b0.rows, 0), Selected(t0.rows, 0);
    assert allB[..|allB|] == allB && allT[..|allT|] == allT;
    HandledIsReached(Backup, b0, allB, b, now);
    HandledIsReached(Task, t0, allT, t, now);
  }

  lemma NothingReachedYet(kind: Kind, s0: State, now: int)
    ensures Reached(kind, s0, [], [], s0, now)
  {
    assert s0.prechecked + Ids([]) == s0.prechecked;
  }

  /* What the pass means for each job. */

  lemma {:induction false} EntryAfterOf(kind: Kind, jobs: seq<Job>, keys: map<nat, Entry>, i: nat, now: int)
    requires i < |jobs| && DistinctIds(jobs)
    ensures EntryAfter(kind, jobs, keys, jobs[i].id, now) == HandledEntry(kind, jobs[i], Look(keys, jobs[i].id), now)
  {
    var n := |jobs| - 1;
    if i < n {
      assert jobs[..n][i] == jobs[i] && jobs[i].id != jobs[n].id;
      EntryAfterOf(kind, jobs[..n], keys, i, now);
    }
  }

  /** Each enabled job's key goes through exactly one tick of its own, whatever the other jobs and pages are; the keys
      of disabled or unknown jobs stay. */
  lemma EachJobTicksOnce(kind: Kind, s0: State, s: State, now: int)
    requires Ordered(s0.rows) && Handled(kind, s0, Selected(s0.rows, 0), s, now)
    ensures forall job :: job in s0.rows && job.enabled ==>
              Look(s.keys, job.id) == HandledEntry(kind, job, Look(s0.keys, job.id), now)
    ensures forall id :: !HasId(Selected(s0.rows, 0), id) ==> Look(s.keys, id) == Look(s0.keys, id)
  {
    var all := Selected(s0.rows, 0);
    SelectedMember(s0.rows, 0);
    SelectedOrdered(s0.rows, 0);
    forall job | job in s0.rows && job.enabled
      ensures Look(s.keys, job.id) == HandledEntry(kind, job, Look(s0.keys, job.id), now)
    {
      assert job in all;
      var i :| 0 <= i < |all| && all[i] == job;
      EntryAfterOf(kind, all, s0.keys, i, now);
    }
    forall id | !HasId(all, id) ensures Look(s.keys, id) == Look(s0.keys, id) {
      NotDoneUntouched(kind, all, s0.keys, id, now);
    }
  }

  /** Ids strictly rise along a list. */
  ghost predicate Rising(ids: seq<nat>) {
    forall i, j :: 0 <= i < j < |ids| ==> ids[i] < ids[j]
  }

  /** The prechecked ids are those of the enabled rows, each exactly once and in id order. */
  lemma PrecheckedExactlyOnce(kind: Kind, s0: State, s: State, now: int)
    requires Ordered(s0.rows) && s0.prechecked == [] && Handled(kind, s0, Selected(s0.rows, 0), s, now)
    ensures Rising(s.prechecked)
    ensures forall id :: id in s.prechecked <==> IsEnabled(s0.rows, id)
  {
    var all := Selected(s0.rows, 0);
    SelectedOrdered(s0.rows, 0);
    assert s.prechecked == Ids(all) by {
      assert [] + Ids(all) == Ids(all);
    }
    hide Handled, Selected, Ids, Rising, Ordered;
    IdsOf(all);
    forall id ensures id in Ids(all) <==> IsEnabled(s0.rows, id) {
      SelectedIds(s0.rows, id);
    }
  }

  /** The id belongs to an enabled row. */
  ghost predicate IsEnabled(rows: seq<Job>, id: nat) {
    exists job :: job in rows && job.enabled && job.id == id
  }

  lemma SelectedIds(rows: seq<Job>, id: nat)
    requires Ordered(rows)
    ensures (exists job :: job in Selected(rows, 0) && job.id == id) <==> IsEnabled(rows, id)
  {
    SelectedMember(rows, 0);
    hide Selected;
    if job :| job in Selected(rows, 0) && job.id == id {
      assert job in rows && job.enabled;
    }
    if job :| job in rows && job.enabled && job.id == id {
      assert job in Selected(rows, 0);
    }
  }

  lemma IdsOf(jobs: seq<Job>)
    requires Ordered(jobs)
    ensures Rising(Ids(jobs))
    ensures forall id :: id in Ids(jobs) <==> exists job :: job in jobs && job.id == id
  {
    forall id ensures id in Ids(jobs) <==> exists job :: job in jobs && job.id == id {
      if id in Ids(jobs) {
        var i :| 0 <= i < |jobs| && Ids(jobs)[i] == id;
        assert jobs[i] in jobs;
      }
      if job :| job in jobs && job.id == id {
        var i :| 0 <= i < |jobs| && jobs[i] == job;
        assert Ids(jobs)[i] == id;
      }
    }
  }

  lemma {:induction false} DispatchedMember(kind: Kind, jobs: seq<Job>, keys: map<nat, Entry>, now: int)
    requires Ordered(jobs)
    ensures Rising(DispatchedIds(kind, jobs, keys, now))
    ensures forall id :: id in DispatchedIds(kind, jobs, keys, now)
              <==> exists i :: 0 <= i < |jobs| && jobs[i].id == id && Dispatches(kind, jobs[i], Look(keys, id), now)
  {
    if jobs != [] {
      var n := |jobs| - 1;
      var before := DispatchedIds(kind, jobs[..n], keys, now);
      DispatchedMember(kind, jobs[..n], keys, now);
      assert forall i :: 0 <= i < n ==> jobs[..n][i] == jobs[i];
      forall k | 0 <= k < |before| ensures before[k] < jobs[n].id {
        assert before[k] in before;
      }
    }
  }

  /** A job is dispatched at most once in a pass, and exactly when its own tick says so. */
  lemma DispatchedExactly(kind: Kind, s0: State, s: State, now: int)
    requires Ordered(s0.rows) && s0.dispatched == [] && Handled(kind, s0, Selected(s0.rows, 0), s, now)
    ensures Rising(s.dispatched)
    ensures forall job :: job in s0.rows && job.enabled ==>
              (job.id in s.dispatched <==> Dispatches(kind, job, Look(s0.keys, job.id), now))
  {
    var all := Selected(s0.rows, 0);
    SelectedMember(s0.rows, 0);
    SelectedOrdered(s0.rows, 0);
    DispatchedMember(kind, all, s0.keys, now);
    forall job | job in s0.rows && job.enabled
      ensures job.id in s.dispatched <==> Dispatches(kind, job, Look(s0.keys, job.id), now)
    {
      assert job in all;
      var i :| 0 <= i < |all| && all[i] == job;
      if job.id in s.dispatched {
        var k :| 0 <= k < |all| && all[k].id == job.id && Dispatches(kind, all[k], Look(s0.keys, job.id), now);
        assert k == i;
      }
    }
  }
}
