/** What one pass does to a row, told from the row's own fields. */
module SchedulerOutcomes {
  import opened CronDedup
  import opened ScheduledJobs
  import opened SchedulerRun

  /** A slot lies between the recorded time and now; without a live key, now is a slot's minute. */
  predicate DueNow(cron: Cron, entry: Entry, now: int) {
    if entry.Recorded? && now < entry.expires then cron(now) > entry.at
    else cron(now - now % 60) == now - now % 60
  }

  /** A pass has handled the enabled rows. */
  ghost predicate OnePass(kind: Kind, s0: State, s: State, now: int) {
    Ordered(s0.rows) && s0.dispatched == [] && Handled(kind, s0, Selected(s0.rows, 0), s, now)
  }

  predicate GoesOut(kind: Kind, job: Job, entry: Entry, now: int) {
    job.hasServer && job.hasResource && job.fit && DueNow(job.cron, entry, now) && (kind == Backup || job.running)
  }

  lemma DispatchesByFields(kind: Kind, job: Job, entry: Entry, now: int)
    ensures Dispatches(kind, job, entry, now) <==> GoesOut(kind, job, entry, now)
  {
  }

  /** An enabled row is dispatched exactly when its server and resource are there, the server is fit, a slot is due and,
      for a task only, the resource is running. */
  lemma DispatchedByFields(kind: Kind, s0: State, s: State, now: int)
    requires OnePass(kind, s0, s, now)
    ensures forall job :: job in s0.rows ==>
              (job.id in s.dispatched <==> job.enabled && GoesOut(kind, job, Look(s0.keys, job.id), now))
  {
    DispatchedExactly(kind, s0, s, now);
    SelectedMember(s0.rows, 0);
    SelectedOrdered(s0.rows, 0);
    var all := Selected(s0.rows, 0);
    DispatchedMember(kind, all, s0.keys, now);
    hide Dispatches, Selected, DispatchedIds, GoesOut;
    forall job | job in s0.rows
      ensures job.id in s.dispatched <==> job.enabled && GoesOut(kind, job, Look(s0.keys, job.id), now)
    {
      DispatchesByFields(kind, job, Look(s0.keys, job.id), now);
      if !job.enabled && job.id in s.dispatched {
        var i :| 0 <= i < |all| && all[i].id == job.id;
        assert all[i] in all;
        OneRowPerId(s0.rows, all[i], job);
      }
    }
  }

  lemma OneRowPerId(rows: seq<Job>, a: Job, b: Job)
    requires Ordered(rows) && a in rows && b in rows && a.id == b.id
    ensures a == b
  {
    var i :| 0 <= i < |rows| && rows[i] == a;
    var j :| 0 <= j < |rows| && rows[j] == b;
    assert i == j;
  }

  /** A due task whose resource is not running consumes its slot: it is not dispatched, and its key records the time. */
  lemma IdleTaskConsumes(s0: State, s: State, now: int, job: Job)
    requires OnePass(Task, s0, s, now) && job in s0.rows && job.enabled && job.hasServer && job.hasResource
    requires job.fit && !job.running && DueNow(job.cron, Look(s0.keys, job.id), now)
    ensures job.id !in s.dispatched && Look(s.keys, job.id) == Recorded(now, now + TTL)
  {
    DispatchedByFields(Task, s0, s, now);
    EachJobTicksOnce(Task, s0, s, now);
    hide Handled, Selected;
  }

  /** A due backup on a fit server goes out, whatever its resource does. */
  lemma DueBackupGoesOut(s0: State, s: State, now: int, job: Job)
    requires OnePass(Backup, s0, s, now) && job in s0.rows && job.enabled && job.hasServer && job.hasResource
    requires job.fit && DueNow(job.cron, Look(s0.keys, job.id), now)
    ensures job.id in s.dispatched && Look(s.keys, job.id) == Recorded(now, now + TTL)
  {
    DispatchedByFields(Backup, s0, s, now);
    EachJobTicksOnce(Backup, s0, s, now);
    hide Handled, Selected;
  }

  /** The key an enabled row has after a pass: kept while the row has no server or resource, or is due on an unfit one,
      and else recorded for thirty days, with the time of the pass if it was due and of the last slot if it was not. */
  lemma KeyByFields(kind: Kind, s0: State, s: State, now: int, job: Job)
    requires OnePass(kind, s0, s, now) && job in s0.rows && job.enabled
    ensures var before, due := Look(s0.keys, job.id), DueNow(job.cron, Look(s0.keys, job.id), now);
            Look(s.keys, job.id)
            == if !job.hasServer || !job.hasResource || (due && !job.fit) then before
               else Recorded(if due then now else job.cron(now), now + 30 * 24 * 60 * 60)
  {
    EachJobTicksOnce(kind, s0, s, now);
    hide Handled, Selected;
  }

  /* Skips. */

  /** Rows that are skipped: without server or resource, or due and kept back. */
  predicate KeptBack(kind: Kind, job: Job, entry: Entry, now: int) {
    || !job.hasServer || !job.hasResource
    || (DueNow(job.cron, entry, now) && (!job.fit || (kind == Task && !job.running)))
  }

  function KeptBackCount(kind: Kind, rows: seq<Job>, keys: map<nat, Entry>, now: int): nat {
    if rows == [] then 0
    else
      KeptBackCount(kind, rows[1..], keys, now)
      + if rows[0].enabled && KeptBack(kind, rows[0], Look(keys, rows[0].id), now) then 1 else 0
  }

  lemma SkipsByFields(kind: Kind, job: Job, entry: Entry, now: int)
    ensures Skips(kind, job, entry, now) <==> KeptBack(kind, job, entry, now)
  {
  }

  lemma {:induction false} SkipCountByFields(kind: Kind, rows: seq<Job>, keys: map<nat, Entry>, now: int)
    requires Ordered(rows)
    ensures SkipCount(kind, Selected(rows, 0), keys, now) == KeptBackCount(kind, rows, keys, now)
  {
    if rows != [] {
      assert rows[0].id > 0;
      OrderedTail(rows);
      SelectedUnfolds(rows, 0);
      SkipCountByFields(kind, rows[1..], keys, now);
      SkipsByFields(kind, rows[0], Look(keys, rows[0].id), now);
      hide Skips, KeptBack, Ordered, Selected;
      if rows[0].enabled {
        TalliesShrink(kind, rows[0], Selected(rows[1..], 0), keys, now);
      }
    }
  }

  /** The skip counter grows by the number of enabled rows kept back. */
  lemma SkippedByFields(kind: Kind, s0: State, s: State, now: int)
    requires OnePass(kind, s0, s, now)
    ensures s.skipped == s0.skipped + KeptBackCount(kind, s0.rows, s0.keys, now)
  {
    SkipCountByFields(kind, s0.rows, s0.keys, now);
  }

  /* Deletions. */

  lemma {:induction false} WithoutMember(rows: seq<Job>, id: nat)
    ensures forall job :: job in WithoutId(rows, id) <==> job in rows && job.id != id
  {
    if rows != [] {
      WithoutMember(rows[1..], id);
      assert forall job :: job in rows <==> job == rows[0] || job in rows[1..];
    }
  }

  lemma {:induction false} RowsAfterMember(kind: Kind, jobs: seq<Job>, rows: seq<Job>, row: Job)
    ensures row in RowsAfter(kind, jobs, rows)
       <==> row in rows && forall job :: job in jobs && job.id == row.id ==> !Deleted(kind, job)
  {
    hide Deleted;
    if jobs != [] {
      var n := |jobs| - 1;
      RowsAfterMember(kind, jobs[..n], rows, row);
      WithoutMember(RowsAfter(kind, jobs[..n], rows), jobs[n].id);
      assert forall job :: job in jobs <==> job in jobs[..n] || job == jobs[n];
    }
  }

  /** The rows a pass deletes: enabled backups without server or resource, and enabled tasks without server or, on a fit
      one, without resource. */
  lemma DeletedByFields(kind: Kind, s0: State, s: State, now: int, row: Job)
    requires OnePass(kind, s0, s, now) && row in s0.rows
    ensures row !in s.rows <==>
              && row.enabled
              && (!row.hasServer || (!row.hasResource && (kind == Backup || row.fit)))
  {
    var all := Selected(s0.rows, 0);
    RowsAfterMember(kind, all, s0.rows, row);
    SelectedMember(s0.rows, 0);
    hide Selected;
    assert row.id > 0;
    forall job | job in all && job.id == row.id ensures job == row {
      OneRowPerId(s0.rows, job, row);
    }
  }
}
