/** One run of the scheduled job manager: two tables paged by id, prechecked, and processed in turns. */
module ScheduledJobs {
  import opened CronDedup

  datatype Kind = Backup | Task

  /** A row of either table with what the manager reads from its relations. */
  datatype Job = Job(id: nat, enabled: bool, cron: Cron, hasServer: bool, hasResource: bool, fit: bool, running: bool)

  /** Rows whose server or resource is gone are handled, and mostly deleted, before the due check. */
  predicate Orphaned(job: Job) {
    !job.hasServer || !job.hasResource
  }

  /** A task whose server exists but is unfit is skipped before its missing resource is noticed. */
  predicate Deleted(kind: Kind, job: Job) {
    match kind
    case Backup => Orphaned(job)
    case Task => !job.hasServer || (!job.hasResource && job.fit)
  }

  function TickOf(kind: Kind, job: Job, now: int): Tick {
    Tick(now, job.fit, kind == Backup || job.running)
  }

  function Look(keys: map<nat, Entry>, id: nat): Entry {
    if id in keys then keys[id] else Absent
  }

  /** The cache entry of a job after the manager has handled it. */
  function HandledEntry(kind: Kind, job: Job, entry: Entry, now: int): Entry {
    if Orphaned(job) then entry else TickEntry(job.cron, entry, TickOf(kind, job, now))
  }

  predicate Dispatches(kind: Kind, job: Job, entry: Entry, now: int) {
    !Orphaned(job) && TickOutcome(job.cron, entry, TickOf(kind, job, now)) == Dispatched
  }

  predicate Skips(kind: Kind, job: Job, entry: Entry, now: int) {
    Orphaned(job) || TickOutcome(job.cron, entry, TickOf(kind, job, now)) in {Unfit, Consumed}
  }

  predicate Due(job: Job, entry: Entry, now: int) {
    !Orphaned(job) && Fires(job.cron, entry, now)
  }

  /** Ids rise along the table and start above the initial cursor. */
  ghost predicate Ordered(rows: seq<Job>) {
    && (forall i :: 0 <= i < |rows| ==> rows[i].id > 0)
    && forall i, j :: 0 <= i < j < |rows| ==> rows[i].id < rows[j].id
  }

  /** The enabled rows after the cursor, in id order. */
  function Selected(rows: seq<Job>, last: nat): seq<Job> {
    if rows == [] then []
    else (if rows[0].enabled && rows[0].id > last then [rows[0]] else []) + Selected(rows[1..], last)
  }

  function Page(rows: seq<Job>, last: nat, limit: nat): seq<Job> {
    var all := Selected(rows, last);
    if |all| <= limit then all else all[..limit]
  }

  function Ids(jobs: seq<Job>): (ids: seq<nat>)
    ensures |ids| == |jobs| && forall i :: 0 <= i < |jobs| ==> ids[i] == jobs[i].id
  {
    seq(|jobs|, i requires 0 <= i < |jobs| => jobs[i].id)
  }

  /** The ids dispatched for these jobs, each judged by its entry before the run. */
  function DispatchedIds(kind: Kind, jobs: seq<Job>, keys: map<nat, Entry>, now: int): seq<nat> {
    if jobs == [] then []
    else
      var last := jobs[|jobs| - 1];
      DispatchedIds(kind, jobs[..|jobs| - 1], keys, now)
      + (if Dispatches(kind, last, Look(keys, last.id), now) then [last.id] else [])
  }

  function SkipCount(kind: Kind, jobs: seq<Job>, keys: map<nat, Entry>, now: int): nat {
    if jobs == [] then 0
    else
      var last := jobs[|jobs| - 1];
      SkipCount(kind, jobs[..|jobs| - 1], keys, now) + (if Skips(kind, last, Look(keys, last.id), now) then 1 else 0)
  }

  function WithoutId(rows: seq<Job>, id: nat): seq<Job> {
    if rows == [] then []
    else (if rows[0].id == id then [] else [rows[0]]) + WithoutId(rows[1..], id)
  }

  /* Tables under deletion. */

  lemma {:induction false} SelectedMember(rows: seq<Job>, last: nat)
    ensures forall j :: j in Selected(rows, last) <==> j in rows && j.enabled && j.id > last
  {
    if rows != [] {
      SelectedMember(rows[1..], last);
      assert forall j :: j in rows <==> j == rows[0] || j in rows[1..];
    }
  }

  lemma OrderedTail(rows: seq<Job>)
    requires Ordered(rows) && rows != []
    ensures Ordered(rows[1..])
    ensures forall j :: j in rows[1..] ==> j.id > rows[0].id
  {
    forall j | j in rows[1..] ensures j.id > rows[0].id {
      var k :| 0 <= k < |rows[1..]| && rows[1..][k] == j;
      assert rows[k + 1] == j;
    }
  }

  lemma OrderedCons(row: Job, rows: seq<Job>)
    requires Ordered(rows) && row.id > 0
    requires forall j :: j in rows ==> j.id > row.id
    ensures Ordered([row] + rows)
  {
  }

  lemma {:induction false} SelectedOrdered(rows: seq<Job>, last: nat)
    requires Ordered(rows)
    ensures Ordered(Selected(rows, last))
  {
    if rows != [] {
      assert rows[0].id > 0;
      OrderedTail(rows);
      hide Ordered;
      SelectedOrdered(rows[1..], last);
      SelectedMember(rows[1..], last);
      OrderedCons(rows[0], Selected(rows[1..], last));
      assert [] + Selected(rows[1..], last) == Selected(rows[1..], last);
    }
  }

  /** The cursor only drops rows at or before it: what is selected after the n-th selected row is the rest of the
      selection. */
  lemma {:induction false} SelectedAfter(rows: seq<Job>, last: nat, n: nat)
    requires Ordered(rows) && 0 < n <= |Selected(rows, last)|
    ensures Selected(rows, Selected(rows, last)[n - 1].id) == Selected(rows, last)[n..]
    decreases |rows|
  {
    OrderedTail(rows);
    hide Ordered;
    SelectedUnfolds(rows, last);
    SelectedRises(rows, last, n - 1);
    hide Selected;
    if !(rows[0].enabled && rows[0].id > last) {
      SelectedAfter(rows[1..], last, n);
      SelectedUnfolds(rows, Selected(rows, last)[n - 1].id);
    } else {
      if n > 1 {
        SelectedAfter(rows[1..], last, n - 1);
      }
      SelectedAfterTaken(rows, last, n);
    }
  }

  /** The case in which the first row is selected. */
  lemma SelectedAfterTaken(rows: seq<Job>, last: nat, n: nat)
    requires rows != [] && rows[0].enabled && rows[0].id > last
    requires forall j :: j in rows[1..] ==> j.id > rows[0].id
    requires var rest := Selected(rows[1..], last);
             && 0 < n <= |rest| + 1
             && (n > 1 ==> Selected(rows[1..], rest[n - 2].id) == rest[n - 1..])
    ensures n <= |Selected(rows, last)| && Selected(rows, Selected(rows, last)[n - 1].id) == Selected(rows, last)[n..]
  {
    var rest := Selected(rows[1..], last);
    SelectedUnfolds(rows, last);
    ConsSlices(rows[0], rest, n);
    if n == 1 {
      SelectedAll(rows[1..], last, rows[0].id);
      SelectedUnfolds(rows, rows[0].id);
    } else {
      SelectedMember(rows[1..], last);
      assert rest[n - 2] in rest;
      SelectedUnfolds(rows, rest[n - 2].id);
    }
  }

  lemma ConsSlices(row: Job, rest: seq<Job>, n: nat)
    requires 0 < n <= |rest| + 1
    ensures ([row] + rest)[n..] == rest[n - 1..]
    ensures ([row] + rest)[n - 1] == if n == 1 then row else rest[n - 2]
  {
  }

  lemma SelectedUnfolds(rows: seq<Job>, last: nat)
    requires rows != []
    ensures Selected(rows, last) ==
              if rows[0].enabled && rows[0].id > last
              then [rows[0]] + Selected(rows[1..], last) else Selected(rows[1..], last)
  {
    assert [] + Selected(rows[1..], last) == Selected(rows[1..], last);
  }

  lemma SelectedRises(rows: seq<Job>, last: nat, i: nat)
    requires i < |Selected(rows, last)|
    ensures Selected(rows, last)[i].id > last
  {
    SelectedMember(rows, last);
    assert Selected(rows, last)[i] in Selected(rows, last);
  }

  lemma {:induction false} SelectedAll(rows: seq<Job>, last: nat, next: nat)
    requires forall j :: j in rows ==> j.id > next
    requires next > last
    ensures Selected(rows, next) == Selected(rows, last)
  {
    if rows != [] {
      SelectedAll(rows[1..], last, next);
    }
  }

  /** Deleting a row at or before the cursor does not change what is selected after it. */
  lemma {:induction false} SelectedIgnoresDeleted(rows: seq<Job>, id: nat, last: nat)
    requires id <= last
    ensures Selected(WithoutId(rows, id), last) == Selected(rows, last)
  {
    if rows != [] {
      SelectedIgnoresDeleted(rows[1..], id, last);
      var kept := WithoutId(rows[1..], id);
      if rows[0].id != id {
        assert WithoutId(rows, id)[1..] == kept;
      } else {
        assert WithoutId(rows, id) == kept;
      }
    }
  }

  /** The table after the manager has handled these jobs. */
  function RowsAfter(kind: Kind, jobs: seq<Job>, rows: seq<Job>): seq<Job> {
    if jobs == [] then rows
    else
      var job := jobs[|jobs| - 1];
      var before := RowsAfter(kind, jobs[..|jobs| - 1], rows);
      if Deleted(kind, job) then WithoutId(before, job.id) else before
  }

  lemma {:induction false} SelectedAfterDeletions(kind: Kind, jobs: seq<Job>, rows: seq<Job>, last: nat)
    requires forall i :: 0 <= i < |jobs| ==> jobs[i].id <= last
    ensures Selected(RowsAfter(kind, jobs, rows), last) == Selected(rows, last)
  {
    if jobs != [] {
      var n := |jobs| - 1;
      SelectedAfterDeletions(kind, jobs[..n], rows, last);
      SelectedIgnoresDeleted(RowsAfter(kind, jobs[..n], rows), jobs[n].id, last);
    }
  }

  /** The entry under an id after the manager has handled these jobs, from the keys before the run. */
  function EntryAfter(kind: Kind, jobs: seq<Job>, keys: map<nat, Entry>, id: nat, now: int): Entry {
    if jobs == [] then Look(keys, id)
    else
      var job := jobs[|jobs| - 1];
      if job.id == id then HandledEntry(kind, job, Look(keys, id), now)
      else EntryAfter(kind, jobs[..|jobs| - 1], keys, id, now)
  }

  /* One table and its keys, step by step. */

  datatype State = State(
    rows: seq<Job>, keys: map<nat, Entry>, prechecked: seq<nat>, dispatched: seq<nat>, skipped: nat)

  function AfterProcess(kind: Kind, s: State, job: Job, now: int): State {
    if Orphaned(job) then
      s.(rows := if Deleted(kind, job) then WithoutId(s.rows, job.id) else s.rows, skipped := s.skipped + 1)
    else if !job.fit then s.(skipped := s.skipped + 1)
    else
      var entry := Look(s.keys, job.id);
      var written := s.(keys := s.keys[job.id := AfterShouldRun(job.cron, entry, now)]);
      if !Fires(job.cron, entry, now) then written
      else if TickOf(kind, job, now).running then written.(dispatched := s.dispatched + [job.id])
      else written.(skipped := s.skipped + 1)
  }

  function AfterPrecheckOf(kind: Kind, s: State, job: Job, now: int): State {
    var seen := s.(prechecked := s.prechecked + [job.id]);
    if Orphaned(job) then AfterProcess(kind, seen, job, now)
    else if Fires(job.cron, Look(s.keys, job.id), now) then seen
    else seen.(keys := s.keys[job.id := AfterPrecheck(job.cron, Look(s.keys, job.id), now)])
  }

  ghost predicate DistinctIds(jobs: seq<Job>) {
    forall i, j :: 0 <= i < j < |jobs| ==> jobs[i].id != jobs[j].id
  }

  ghost predicate HasId(jobs: seq<Job>, id: nat) {
    exists i :: 0 <= i < |jobs| && jobs[i].id == id
  }

  ghost predicate KeysReached(kind: Kind, keys0: map<nat, Entry>, done: seq<Job>, pending: seq<Job>,
                              keys: map<nat, Entry>, now: int)
  {
    forall id :: Look(keys, id)
              == if HasId(pending, id) then Look(keys0, id) else EntryAfter(kind, done, keys0, id, now)
  }

  ghost predicate Tallied(kind: Kind, s0: State, done: seq<Job>, pending: seq<Job>, s: State, now: int) {
    && s.dispatched + DispatchedIds(kind, pending, s0.keys, now)
       == s0.dispatched + DispatchedIds(kind, done, s0.keys, now)
    && s.skipped + SkipCount(kind, pending, s0.keys, now) == s0.skipped + SkipCount(kind, done, s0.keys, now)
  }

  ghost predicate IsPending(kind: Kind, keys0: map<nat, Entry>, done: seq<Job>, job: Job, now: int) {
    && Due(job, Look(keys0, job.id), now)
    && HasId(done, job.id)
    && EntryAfter(kind, done, keys0, job.id, now) == HandledEntry(kind, job, Look(keys0, job.id), now)
  }

  ghost predicate ArePending(kind: Kind, keys0: map<nat, Entry>, done: seq<Job>, pending: seq<Job>, now: int) {
    && DistinctIds(pending)
    && forall i :: 0 <= i < |pending| ==> IsPending(kind, keys0, done, pending[i], now)
  }

  /** From s0 the jobs in done were prechecked, and all of them were handled except the due ones still pending. */
  ghost predicate Reached(kind: Kind, s0: State, done: seq<Job>, pending: seq<Job>, s: State, now: int) {
    && s.rows == RowsAfter(kind, done, s0.rows)
    && s.prechecked == s0.prechecked + Ids(done)
    && KeysReached(kind, s0.keys, done, pending, s.keys, now)
    && Tallied(kind, s0, done, pending, s, now)
    && ArePending(kind, s0.keys, done, pending, now)
  }

  /** The single pass finished for these jobs: nothing is pending. */
  ghost predicate Handled(kind: Kind, s0: State, jobs: seq<Job>, s: State, now: int) {
    && s.rows == RowsAfter(kind, jobs, s0.rows)
    && s.prechecked == s0.prechecked + Ids(jobs)
    && (forall id :: Look(s.keys, id) == EntryAfter(kind, jobs, s0.keys, id, now))
    && s.dispatched == s0.dispatched + DispatchedIds(kind, jobs, s0.keys, now)
    && s.skipped == s0.skipped + SkipCount(kind, jobs, s0.keys, now)
  }

  lemma HandledIsReached(kind: Kind, s0: State, jobs: seq<Job>, s: State, now: int)
    ensures Handled(kind, s0, jobs, s, now) <==> Reached(kind, s0, jobs, [], s, now)
  {
    assert s.dispatched + [] == s.dispatched;
  }

  lemma IdsGrow(jobs: seq<Job>, job: Job)
    ensures Ids(jobs + [job]) == Ids(jobs) + [job.id]
  {
  }

  lemma {:induction false} NotDoneUntouched(kind: Kind, jobs: seq<Job>, keys: map<nat, Entry>, id: nat, now: int)
    requires !HasId(jobs, id)
    ensures EntryAfter(kind, jobs, keys, id, now) == Look(keys, id)
  {
    if jobs != [] {
      var n := |jobs| - 1;
      assert forall i :: 0 <= i < n ==> jobs[..n][i].id == jobs[i].id;
      NotDoneUntouched(kind, jobs[..n], keys, id, now);
    }
  }

  /** What one more prechecked job adds to the tallies. */
  lemma TalliesGrow(kind: Kind, jobs: seq<Job>, job: Job, keys: map<nat, Entry>, now: int)
    ensures DispatchedIds(kind, jobs + [job], keys, now)
         == DispatchedIds(kind, jobs, keys, now)
            + (if Dispatches(kind, job, Look(keys, job.id), now) then [job.id] else [])
    ensures SkipCount(kind, jobs + [job], keys, now)
         == SkipCount(kind, jobs, keys, now) + (if Skips(kind, job, Look(keys, job.id), now) then 1 else 0)
  {
    assert (jobs + [job])[..|jobs|] == jobs;
  }

  lemma {:induction false} TalliesShrink(kind: Kind, job: Job, rest: seq<Job>, keys: map<nat, Entry>, now: int)
    ensures DispatchedIds(kind, [job] + rest, keys, now)
         == (if Dispatches(kind, job, Look(keys, job.id), now) then [job.id] else [])
            + DispatchedIds(kind, rest, keys, now)
    ensures SkipCount(kind, [job] + rest, keys, now)
         == (if Skips(kind, job, Look(keys, job.id), now) then 1 else 0) + SkipCount(kind, rest, keys, now)
  {
    hide Dispatches, Skips, Look;
    if rest == [] {
      assert [job] + rest == [] + [job];
      TalliesGrow(kind, [], job, keys, now);
    } else {
      var n := |rest| - 1;
      var first := if Dispatches(kind, job, Look(keys, job.id), now) then [job.id] else [];
      var last := if Dispatches(kind, rest[n], Look(keys, rest[n].id), now) then [rest[n].id] else [];
      TalliesShrink(kind, job, rest[..n], keys, now);
      assert [job] + rest == ([job] + rest[..n]) + [rest[n]];
      assert rest == rest[..n] + [rest[n]];
      TalliesGrow(kind, [job] + rest[..n], rest[n], keys, now);
      TalliesGrow(kind, rest[..n], rest[n], keys, now);
      hide DispatchedIds, SkipCount;
      Associate(first, DispatchedIds(kind, rest[..n], keys, now), last);
    }
  }

  lemma EntryAfterGrow(kind: Kind, jobs: seq<Job>, job: Job, keys: map<nat, Entry>, id: nat, now: int)
    ensures EntryAfter(kind, jobs + [job], keys, id, now) ==
              if job.id == id then HandledEntry(kind, job, Look(keys, id), now)
              else EntryAfter(kind, jobs, keys, id, now)
  {
    assert (jobs + [job])[..|jobs|] == jobs;
  }

  lemma HasIdGrow(jobs: seq<Job>, job: Job, id: nat)
    ensures HasId(jobs + [job], id) <==> HasId(jobs, id) || job.id == id
  {
    if HasId(jobs, id) {
      var i :| 0 <= i < |jobs| && jobs[i].id == id;
      assert (jobs + [job])[i].id == id;
    }
    assert (jobs + [job])[|jobs|] == job;
    if HasId(jobs + [job], id) {
      var i :| 0 <= i < |jobs + [job]| && (jobs + [job])[i].id == id;
      assert i < |jobs| ==> jobs[i].id == id;
    }
  }

  lemma HasIdTail(jobs: seq<Job>, id: nat)
    requires jobs != []
    ensures HasId(jobs, id) <==> jobs[0].id == id || HasId(jobs[1..], id)
  {
    if HasId(jobs, id) {
      var i :| 0 <= i < |jobs| && jobs[i].id == id;
      assert i > 0 ==> jobs[1..][i - 1].id == id;
    }
    if HasId(jobs[1..], id) {
      var i :| 0 <= i < |jobs[1..]| && jobs[1..][i].id == id;
      assert jobs[i + 1].id == id;
    }
  }

  /** Pending jobs stay what they are while another job is prechecked. */
  lemma PendingKept(kind: Kind, keys0: map<nat, Entry>, done: seq<Job>, pending: seq<Job>, job: Job, now: int)
    requires ArePending(kind, keys0, done, pending, now) && !HasId(done, job.id)
    ensures !HasId(pending, job.id)
    ensures ArePending(kind, keys0, done + [job], pending, now)
  {
    forall i | 0 <= i < |pending|
      ensures pending[i].id != job.id && IsPending(kind, keys0, done + [job], pending[i], now)
    {
      assert IsPending(kind, keys0, done, pending[i], now);
      EntryAfterGrow(kind, done, job, keys0, pending[i].id, now);
      HasIdGrow(done, job, pending[i].id);
    }
  }

  lemma PendingGrows(kind: Kind, keys0: map<nat, Entry>, done: seq<Job>, pending: seq<Job>, job: Job, now: int)
    requires ArePending(kind, keys0, done, pending, now) && !HasId(done, job.id)
    requires Due(job, Look(keys0, job.id), now)
    ensures ArePending(kind, keys0, done + [job], pending + [job], now)
  {
    PendingKept(kind, keys0, done, pending, job, now);
    EntryAfterGrow(kind, done, job, keys0, job.id, now);
    HasIdGrow(done, job, job.id);
    assert forall i :: 0 <= i < |pending| ==> pending[i].id != job.id;
  }

  lemma RowsAfterGrow(kind: Kind, jobs: seq<Job>, job: Job, rows: seq<Job>)
    ensures RowsAfter(kind, jobs + [job], rows)
         == if Deleted(kind, job) then WithoutId(RowsAfter(kind, jobs, rows), job.id) else RowsAfter(kind, jobs, rows)
  {
    assert (jobs + [job])[..|jobs|] == jobs;
  }

  lemma PrecheckKeys(kind: Kind, s0: State, done: seq<Job>, pending: seq<Job>, s: State, job: Job, now: int)
    requires KeysReached(kind, s0.keys, done, pending, s.keys, now)
    requires ArePending(kind, s0.keys, done, pending, now) && !HasId(done, job.id)
    ensures Look(s.keys, job.id) == Look(s0.keys, job.id)
    ensures var due := Due(job, Look(s0.keys, job.id), now);
            var pending' := if due then pending + [job] else pending;
            KeysReached(kind, s0.keys, done + [job], pending', AfterPrecheckOf(kind, s, job, now).keys, now)
  {
    PendingKept(kind, s0.keys, done, pending, job, now);
    NotDoneUntouched(kind, done, s0.keys, job.id, now);
    var keys' := AfterPrecheckOf(kind, s, job, now).keys;
    assert Look(s.keys, job.id) == Look(s0.keys, job.id);
    var pending' := if Due(job, Look(s0.keys, job.id), now) then pending + [job] else pending;
    forall id
      ensures Look(keys', id)
           == if HasId(pending', id) then Look(s0.keys, id) else EntryAfter(kind, done + [job], s0.keys, id, now)
    {
      EntryAfterGrow(kind, done, job, s0.keys, id, now);
      HasIdGrow(pending, job, id);
    }
  }

  lemma PrecheckTallies(kind: Kind, s0: State, done: seq<Job>, pending: seq<Job>, s: State, job: Job, now: int)
    requires Tallied(kind, s0, done, pending, s, now)
    requires Look(s.keys, job.id) == Look(s0.keys, job.id)
    ensures var due := Due(job, Look(s0.keys, job.id), now);
            var pending' := if due then pending + [job] else pending;
            Tallied(kind, s0, done + [job], pending', AfterPrecheckOf(kind, s, job, now), now)
  {
    TalliesGrow(kind, done, job, s0.keys, now);
    TalliesGrow(kind, pending, job, s0.keys, now);
    var extra := if Dispatches(kind, job, Look(s0.keys, job.id), now) then [job.id] else [];
    Associate(s.dispatched, DispatchedIds(kind, pending, s0.keys, now), extra);
    Associate(s0.dispatched, DispatchedIds(kind, done, s0.keys, now), extra);
    assert DispatchedIds(kind, done, s0.keys, now) + [] == DispatchedIds(kind, done, s0.keys, now);
  }

  lemma Associate(a: seq<nat>, b: seq<nat>, c: seq<nat>)
    ensures (a + b) + c == a + (b + c)
  {
  }

  /** Prechecking one more job handles it at once, unless it is due: then it becomes pending. */
  lemma PrecheckReaches(kind: Kind, s0: State, done: seq<Job>, pending: seq<Job>, s: State, job: Job, now: int)
    requires Reached(kind, s0, done, pending, s, now) && !HasId(done, job.id)
    ensures var due := Due(job, Look(s0.keys, job.id), now);
            var pending' := if due then pending + [job] else pending;
            Reached(kind, s0, done + [job], pending', AfterPrecheckOf(kind, s, job, now), now)
  {
    PrecheckKeys(kind, s0, done, pending, s, job, now);
    PrecheckTallies(kind, s0, done, pending, s, job, now);
    PrecheckRows(kind, s, job, now);
    hide KeysReached, Tallied, ArePending, Fires, AfterPrecheckOf, HasId, Ids, RowsAfter;
    IdsGrow(done, job);
    assert s0.prechecked + Ids(done) + [job.id] == s0.prechecked + (Ids(done) + [job.id]);
    RowsAfterGrow(kind, done, job, s0.rows);
    PendingKept(kind, s0.keys, done, pending, job, now);
    if Due(job, Look(s0.keys, job.id), now) {
      PendingGrows(kind, s0.keys, done, pending, job, now);
    }
  }

  lemma PrecheckRows(kind: Kind, s: State, job: Job, now: int)
    ensures var s' := AfterPrecheckOf(kind, s, job, now);
            && s'.rows == (if Orphaned(job) && Deleted(kind, job) then WithoutId(s.rows, job.id) else s.rows)
            && s'.prechecked == s.prechecked + [job.id]
  {
  }

  lemma ProcessKeys(kind: Kind, s0: State, done: seq<Job>, pending: seq<Job>, s: State, now: int)
    requires KeysReached(kind, s0.keys, done, pending, s.keys, now)
    requires ArePending(kind, s0.keys, done, pending, now) && pending != []
    ensures Look(s.keys, pending[0].id) == Look(s0.keys, pending[0].id)
    ensures KeysReached(kind, s0.keys, done, pending[1..], AfterProcess(kind, s, pending[0], now).keys, now)
  {
    var job, rest := pending[0], pending[1..];
    var keys' := AfterProcess(kind, s, job, now).keys;
    HasIdTail(pending, job.id);
    assert Look(s.keys, job.id) == Look(s0.keys, job.id);
    assert IsPending(kind, s0.keys, done, job, now);
    assert Look(keys', job.id) == HandledEntry(kind, job, Look(s0.keys, job.id), now);
    assert !HasId(rest, job.id) by {
      assert forall i :: 0 <= i < |rest| ==> rest[i].id == pending[i + 1].id;
    }
    forall id
      ensures Look(keys', id)
           == if HasId(rest, id) then Look(s0.keys, id) else EntryAfter(kind, done, s0.keys, id, now)
    {
      HasIdTail(pending, id);
    }
  }

  lemma ProcessTallies(kind: Kind, s0: State, done: seq<Job>, pending: seq<Job>, s: State, now: int)
    requires Tallied(kind, s0, done, pending, s, now)
    requires pending != [] && Due(pending[0], Look(s0.keys, pending[0].id), now)
    requires Look(s.keys, pending[0].id) == Look(s0.keys, pending[0].id)
    ensures Tallied(kind, s0, done, pending[1..], AfterProcess(kind, s, pending[0], now), now)
  {
    var job, rest := pending[0], pending[1..];
    assert pending == [job] + rest;
    TalliesShrink(kind, job, rest, s0.keys, now);
    var extra := if Dispatches(kind, job, Look(s0.keys, job.id), now) then [job.id] else [];
    Associate(s.dispatched, extra, DispatchedIds(kind, rest, s0.keys, now));
    assert s.dispatched + [] == s.dispatched;
  }

  /** Processing the first pending job handles it. */
  lemma ProcessReaches(kind: Kind, s0: State, done: seq<Job>, pending: seq<Job>, s: State, now: int)
    requires Reached(kind, s0, done, pending, s, now) && pending != []
    ensures Reached(kind, s0, done, pending[1..], AfterProcess(kind, s, pending[0], now), now)
  {
    assert IsPending(kind, s0.keys, done, pending[0], now);
    ProcessKeys(kind, s0, done, pending, s, now);
    ProcessTallies(kind, s0, done, pending, s, now);
    var rest := pending[1..];
    assert forall i :: 0 <= i < |rest| ==> rest[i] == pending[i + 1];
    hide KeysReached, Tallied, IsPending, Fires;
  }
}
