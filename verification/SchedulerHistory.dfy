/** Any number of passes of the scheduler, one after the other: what they do to one row's key, and which of them
    dispatch it. */
module SchedulerHistory {
  import opened Text
  import opened CronDedup
  import opened ScheduledJobs
  import opened SchedulerRun

  /** One table before and after a pass at a time. Between passes rows may change in any way, the keys do not. */
  datatype Pass = Pass(before: State, after: State, now: int)

  ghost predicate IsPass(kind: Kind, p: Pass) {
    && Ordered(p.before.rows) && p.before.dispatched == []
    && Handled(kind, p.before, Selected(p.before.rows, 0), p.after, p.now)
  }

  predicate Follows(passes: seq<Pass>, i: nat)
    requires 0 < i < |passes|
  {
    passes[i].before.keys == passes[i - 1].after.keys
  }

  ghost predicate ArePasses(kind: Kind, passes: seq<Pass>) {
    && (forall i :: 0 <= i < |passes| ==> IsPass(kind, passes[i]))
    && (forall i :: 0 < i < |passes| ==> Follows(passes, i))
    && forall i, j :: 0 <= i <= j < |passes| ==> passes[i].now <= passes[j].now
  }

  function Find(rows: seq<Job>, id: nat): Option<Job> {
    if rows == [] then None
    else if rows[0].id == id then Some(rows[0]) else Find(rows[1..], id)
  }

  lemma {:induction false} FindRow(rows: seq<Job>, id: nat)
    requires Ordered(rows)
    ensures Find(rows, id).Some? ==> Find(rows, id).value in rows && Find(rows, id).value.id == id
    ensures forall job :: job in rows && job.id == id ==> Find(rows, id) == Some(job)
  {
    if rows != [] {
      OrderedTail(rows);
      FindRow(rows[1..], id);
      assert forall job :: job in rows <==> job == rows[0] || job in rows[1..];
    }
  }

  /** The row a pass handles under an id, unless it is disabled, gone, or without its server or resource. */
  function Handles(p: Pass, id: nat): Option<Job> {
    var found := Find(p.before.rows, id);
    if found.Some? && found.value.enabled && !Orphaned(found.value) then found else None
  }

  /** The tick a row gets from one pass, if it is handled. */
  function TickFrom(kind: Kind, id: nat, p: Pass): (ticks: seq<Tick>)
    ensures |ticks| <= 1 && forall k :: 0 <= k < |ticks| ==> ticks[k].now == p.now
  {
    match Handles(p, id)
    case Some(job) => [TickOf(kind, job, p.now)]
    case None => []
  }

  /** The ticks a row gets from these passes. */
  function TicksOf(kind: Kind, id: nat, passes: seq<Pass>): seq<Tick> {
    if passes == [] then []
    else TicksOf(kind, id, passes[..|passes| - 1]) + TickFrom(kind, id, passes[|passes| - 1])
  }

  /** The row keeps its schedule. */
  ghost predicate Scheduled(id: nat, cron: Cron, passes: seq<Pass>) {
    forall i :: 0 <= i < |passes| && Handles(passes[i], id).Some? ==> Handles(passes[i], id).value.cron == cron
  }

  /* One pass. */

  lemma OnePass(kind: Kind, p: Pass, id: nat)
    requires IsPass(kind, p)
    ensures var entry := Look(p.before.keys, id);
            Look(p.after.keys, id) == match Handles(p, id)
                                      case Some(job) => TickEntry(job.cron, entry, TickOf(kind, job, p.now))
                                      case None => entry
    ensures var entry, handled := Look(p.before.keys, id), Handles(p, id);
            id in p.after.dispatched <==>
              && handled.Some?
              && TickOutcome(handled.value.cron, entry, TickOf(kind, handled.value, p.now)) == Dispatched
  {
    var rows, all := p.before.rows, Selected(p.before.rows, 0);
    FindRow(rows, id);
    EachJobTicksOnce(kind, p.before, p.after, p.now);
    DispatchedExactly(kind, p.before, p.after, p.now);
    UnknownNotDispatched(kind, p, id);
  }

  lemma UnknownNotDispatched(kind: Kind, p: Pass, id: nat)
    requires IsPass(kind, p)
    ensures !(Find(p.before.rows, id).Some? && Find(p.before.rows, id).value.enabled) ==>
              id !in p.after.dispatched && !HasId(Selected(p.before.rows, 0), id)
  {
    var all := Selected(p.before.rows, 0);
    FindRow(p.before.rows, id);
    SelectedMember(p.before.rows, 0);
    SelectedOrdered(p.before.rows, 0);
    DispatchedMember(kind, all, p.before.keys, p.now);
    assert forall i :: 0 <= i < |all| ==> all[i] in all;
  }

  /* All passes. */

  lemma RunAppended(cron: Cron, entry: Entry, ticks: seq<Tick>, more: seq<Tick>)
    requires |more| <= 1
    ensures RunEntry(cron, entry, ticks + more)
         == if more == [] then RunEntry(cron, entry, ticks) else TickEntry(cron, RunEntry(cron, entry, ticks), more[0])
  {
    hide TickEntry;
    if more == [] {
      assert ticks + more == ticks;
    } else {
      assert (ticks + more)[..|ticks|] == ticks;
    }
  }

  lemma TicksGrow(kind: Kind, id: nat, passes: seq<Pass>, n: nat)
    requires n < |passes|
    ensures TicksOf(kind, id, passes[..n + 1]) == TicksOf(kind, id, passes[..n]) + TickFrom(kind, id, passes[n])
  {
    assert passes[..n + 1][..n] == passes[..n];
  }

  /** One pass under a schedule. */
  lemma OneScheduledPass(kind: Kind, p: Pass, id: nat, cron: Cron)
    requires IsPass(kind, p) && (Handles(p, id).Some? ==> Handles(p, id).value.cron == cron)
    ensures var ticks := TickFrom(kind, id, p);
            && Look(p.after.keys, id)
            == (if ticks == [] then Look(p.before.keys, id) else TickEntry(cron, Look(p.before.keys, id), ticks[0]))
            && (id in p.after.dispatched <==>
                  ticks != [] && TickOutcome(cron, Look(p.before.keys, id), ticks[0]) == Dispatched)
  {
    OnePass(kind, p, id);
    hide IsPass, Handles, TickEntry, TickOutcome;
  }

  /** The key of a row before pass n has gone through the run of the ticks of the passes before. */
  lemma {:induction false} KeyFollowsRun(kind: Kind, id: nat, cron: Cron, passes: seq<Pass>, n: nat)
    requires ArePasses(kind, passes) && Scheduled(id, cron, passes) && n < |passes|
    ensures Look(passes[n].before.keys, id)
         == RunEntry(cron, Look(passes[0].before.keys, id), TicksOf(kind, id, passes[..n]))
  {
    hide IsPass, Handles, TicksOf, RunEntry, TickEntry, TickFrom;
    if n > 0 {
      var p, ticks := passes[n - 1], TicksOf(kind, id, passes[..n - 1]);
      KeyFollowsRun(kind, id, cron, passes, n - 1);
      OneScheduledPass(kind, p, id, cron);
      TicksGrow(kind, id, passes, n - 1);
      RunAppended(cron, Look(passes[0].before.keys, id), ticks, TickFrom(kind, id, p));
      assert Follows(passes, n);
    } else {
      assert passes[..0] == [];
      Nothing(kind, id, cron, Look(passes[0].before.keys, id));
    }
  }

  lemma Nothing(kind: Kind, id: nat, cron: Cron, entry: Entry)
    ensures TicksOf(kind, id, []) == [] && RunEntry(cron, entry, []) == entry
  {
  }

  ghost predicate UpTo(ticks: seq<Tick>, now: int) {
    forall k :: 0 <= k < |ticks| ==> ticks[k].now <= now
  }

  lemma InOrder(ticks: seq<Tick>, more: seq<Tick>, last: int, now: int)
    requires NonDecreasing(ticks) && UpTo(ticks, last) && last <= now
    requires |more| <= 1 && forall k :: 0 <= k < |more| ==> more[k].now == now
    ensures NonDecreasing(ticks + more) && UpTo(ticks + more, now)
  {
  }

  /** The ticks are in time order. */
  lemma {:induction false} TicksInOrder(kind: Kind, id: nat, passes: seq<Pass>, n: nat)
    requires ArePasses(kind, passes) && n <= |passes|
    ensures NonDecreasing(TicksOf(kind, id, passes[..n]))
    ensures var ticks := TicksOf(kind, id, passes[..n]);
            if n == 0 then ticks == [] else UpTo(ticks, passes[n - 1].now)
  {
    hide IsPass, Handles, TicksOf, TickFrom;
    if n > 0 {
      TicksInOrder(kind, id, passes, n - 1);
      TicksGrow(kind, id, passes, n - 1);
      var last := if n > 1 then passes[n - 2].now else passes[n - 1].now;
      InOrder(TicksOf(kind, id, passes[..n - 1]), TickFrom(kind, id, passes[n - 1]), last, passes[n - 1].now);
    } else {
      assert passes[..0] == [];
      Nothing(kind, id, t => t, Absent);
    }
  }

  /** The ticks of the first passes are the first ticks. */
  lemma {:induction false} TicksOfFirst(kind: Kind, id: nat, passes: seq<Pass>, n: nat, m: nat)
    requires n <= m <= |passes|
    ensures TicksOf(kind, id, passes[..n]) <= TicksOf(kind, id, passes[..m])
    decreases m
  {
    if n < m {
      TicksOfFirst(kind, id, passes, n, m - 1);
      TicksGrow(kind, id, passes, m - 1);
      hide TicksOf, TickFrom;
    }
  }

  /** A pass dispatches a row exactly when the row's next tick in the run of its ticks does. */
  lemma DispatchFollowsRun(kind: Kind, id: nat, cron: Cron, passes: seq<Pass>, n: nat)
    requires ArePasses(kind, passes) && Scheduled(id, cron, passes) && n < |passes|
    ensures var ticks, at := TicksOf(kind, id, passes), |TicksOf(kind, id, passes[..n])|;
            id in passes[n].after.dispatched <==>
              at < |TicksOf(kind, id, passes[..n + 1])| <= |ticks|
              && ticks[at].now == passes[n].now
              && OutcomeAt(cron, Look(passes[0].before.keys, id), ticks, at) == Dispatched
  {
    hide IsPass, TicksOf, TickOutcome, RunEntry, Handles, TickFrom;
    var ticks, before := TicksOf(kind, id, passes), TicksOf(kind, id, passes[..n]);
    var now := TicksOf(kind, id, passes[..n + 1]);
    KeyFollowsRun(kind, id, cron, passes, n);
    OneScheduledPass(kind, passes[n], id, cron);
    TicksGrow(kind, id, passes, n);
    TicksOfFirst(kind, id, passes, n + 1, |passes|);
    assert passes[..|passes|] == passes;
    assert ticks[..|now|] == now;
    assert now[..|before|] == before == ticks[..|before|];
  }

  /** No slot ever dispatches a row twice, over any passes, whether its key was seeded or expires, and however servers,
      resources and other rows change in between. */
  lemma SlotDispatchedOnce(kind: Kind, id: nat, cron: Cron, passes: seq<Pass>, i: nat, j: nat)
    requires Regular(cron) && ArePasses(kind, passes) && Scheduled(id, cron, passes) && i < j < |passes|
    requires id in passes[i].after.dispatched && id in passes[j].after.dispatched
    ensures cron(passes[i].now) < cron(passes[j].now)
  {
    var ticks, entry := TicksOf(kind, id, passes), Look(passes[0].before.keys, id);
    DispatchFollowsRun(kind, id, cron, passes, i);
    DispatchFollowsRun(kind, id, cron, passes, j);
    TicksOfFirst(kind, id, passes, i + 1, j);
    TicksInOrder(kind, id, passes, |passes|);
    assert passes[..|passes|] == passes;
    hide IsPass, TicksOf, OutcomeAt, Regular;
    var a, b := |TicksOf(kind, id, passes[..i])|, |TicksOf(kind, id, passes[..j])|;
    assert a < b;
    SlotsFireAtMostOnce(cron, entry, ticks, a, b);
  }

  /* A seeded key. */

  /** The key was recorded before the first pass and expires after the last, no later than a write of the passes
      would. */
  ghost predicate Seeded(passes: seq<Pass>, id: nat) {
    && passes != []
    && var entry := Look(passes[0].before.keys, id);
       && entry.Recorded? && entry.at <= passes[0].now
       && passes[|passes| - 1].now < entry.expires <= passes[0].now + TTL
  }

  /** The passes from i to j that handle the row find its server unfit. */
  ghost predicate UnfitBetween(passes: seq<Pass>, id: nat, i: nat, j: nat)
    requires j <= |passes|
  {
    forall p :: i <= p < j && Handles(passes[p], id).Some? ==> !Handles(passes[p], id).value.fit
  }

  ghost predicate NoneFit(ticks: seq<Tick>, a: nat, b: nat) {
    forall k :: a <= k < b && k < |ticks| ==> !ticks[k].fit
  }

  lemma {:induction false} TicksBetween(kind: Kind, id: nat, passes: seq<Pass>, i: nat, j: nat)
    requires i <= j <= |passes| && UnfitBetween(passes, id, i, j)
    ensures var before, ticks := TicksOf(kind, id, passes[..i]), TicksOf(kind, id, passes[..j]);
            NoneFit(ticks, |before|, |ticks|)
    decreases j
  {
    if i < j {
      TicksBetween(kind, id, passes, i, j - 1);
      TicksGrow(kind, id, passes, j - 1);
      assert Handles(passes[j - 1], id).Some? ==> !Handles(passes[j - 1], id).value.fit;
      hide TicksOf, Handles;
    }
  }

  ghost predicate From(ticks: seq<Tick>, first: int) {
    forall k :: 0 <= k < |ticks| ==> first <= ticks[k].now
  }

  lemma FromGrows(ticks: seq<Tick>, more: seq<Tick>, first: int, now: int)
    requires From(ticks, first) && first <= now && forall k :: 0 <= k < |more| ==> more[k].now == now
    ensures From(ticks + more, first)
  {
  }

  lemma {:induction false} TicksSince(kind: Kind, id: nat, passes: seq<Pass>, n: nat)
    requires ArePasses(kind, passes) && n <= |passes|
    ensures n > 0 ==> From(TicksOf(kind, id, passes[..n]), passes[0].now)
  {
    hide IsPass, TicksOf, TickFrom, Handles;
    if n > 0 {
      if n > 1 {
        TicksSince(kind, id, passes, n - 1);
      } else {
        assert passes[..0] == [];
        Nothing(kind, id, t => t, Absent);
      }
      TicksGrow(kind, id, passes, n - 1);
      var p := passes[n - 1];
      FromGrows(TicksOf(kind, id, passes[..n - 1]), TickFrom(kind, id, p), passes[0].now, p.now);
    }
  }

  lemma DatesSuffice(entry: Entry, ticks: seq<Tick>, first: int, last: int)
    requires entry.Recorded? && entry.at <= first && last < entry.expires <= first + TTL
    requires From(ticks, first) && UpTo(ticks, last)
    ensures BeforeExpiry(entry, ticks) && (ticks != [] ==> entry.at <= ticks[0].now)
  {
  }

  /** The dates of the passes keep a seeded key alive at all ticks. */
  lemma SeededIsLive(kind: Kind, id: nat, cron: Cron, passes: seq<Pass>)
    requires ArePasses(kind, passes) && Seeded(passes, id)
    ensures var entry, ticks := Look(passes[0].before.keys, id), TicksOf(kind, id, passes);
            && AlwaysLive(cron, entry, ticks) && NonDecreasing(ticks)
            && (ticks != [] ==> entry.at <= ticks[0].now)
  {
    hide IsPass, TicksOf, NonDecreasing, ArePasses, AlwaysLive, Look, UpTo, From, BeforeExpiry;
    var entry, ticks := Look(passes[0].before.keys, id), TicksOf(kind, id, passes);
    assert passes[..|passes|] == passes;
    TicksInOrder(kind, id, passes, |passes|);
    TicksSince(kind, id, passes, |passes|);
    DatesSuffice(entry, ticks, passes[0].now, passes[|passes| - 1].now);
    LiveBeforeExpiry(cron, entry, ticks);
  }

  lemma PrefixAt(ticks: seq<Tick>, before: seq<Tick>, tick: Tick)
    requires before + [tick] <= ticks
    ensures |before| < |ticks| && ticks[|before|] == tick && ticks[..|before|] == before
  {
    assert (before + [tick])[|before|] == tick;
    assert (before + [tick])[..|before|] == before;
  }

  lemma TickOfHandled(kind: Kind, id: nat, p: Pass)
    requires Handles(p, id).Some?
    ensures TickFrom(kind, id, p) == [TickOf(kind, Handles(p, id).value, p.now)]
  {
  }

  /** The tick that a row gets from a pass that handles it, and the entry it finds. */
  lemma TickAt(kind: Kind, id: nat, cron: Cron, passes: seq<Pass>, n: nat)
    requires ArePasses(kind, passes) && Scheduled(id, cron, passes) && n < |passes| && Handles(passes[n], id).Some?
    ensures var ticks, at := TicksOf(kind, id, passes), |TicksOf(kind, id, passes[..n])|;
            && at < |ticks| && at + 1 == |TicksOf(kind, id, passes[..n + 1])|
            && ticks[at] == TickOf(kind, Handles(passes[n], id).value, passes[n].now)
            && RunEntry(cron, Look(passes[0].before.keys, id), ticks[..at]) == Look(passes[n].before.keys, id)
  {
    hide IsPass, TicksOf, Handles, RunEntry, ArePasses, Scheduled, TickFrom, TickOf, Look;
    var ticks, before := TicksOf(kind, id, passes), TicksOf(kind, id, passes[..n]);
    KeyFollowsRun(kind, id, cron, passes, n);
    TicksGrow(kind, id, passes, n);
    TickOfHandled(kind, id, passes[n]);
    TicksOfFirst(kind, id, passes, n + 1, |passes|);
    assert passes[..|passes|] == passes;
    PrefixAt(ticks, before, TickOf(kind, Handles(passes[n], id).value, passes[n].now));
  }

  lemma NoneFitInPrefix(ticks: seq<Tick>, first: seq<Tick>, a: nat)
    requires first <= ticks && NoneFit(first, a, |first|)
    ensures NoneFit(ticks, a, |first|)
  {
    assert forall k :: 0 <= k < |first| ==> ticks[k] == first[k];
  }

  lemma UnfitTickStaysDue(cron: Cron, entry: Entry, ticks: seq<Tick>, a: nat, b: nat)
    requires Regular(cron) && entry.Recorded? && a < b < |ticks|
    requires NonDecreasing(ticks) && AlwaysLive(cron, entry, ticks)
    requires entry.at <= ticks[0].now
    requires Fires(cron, RunEntry(cron, entry, ticks[..a]), ticks[a].now) && NoneFit(ticks, a, b)
    ensures OutcomeAt(cron, entry, ticks, b) == Dispatched <==> ticks[b].fit && ticks[b].running
  {
    hide Regular, NonDecreasing, AlwaysLive, RunEntry, Fires;
    UnfitStaysDue(cron, entry, ticks, a, b);
  }

  /** A row that pass i finds due on an unfit server is not lost: the first pass that handles it on a fit server
      dispatches it, unless its resource is not running. */
  lemma UnfitPassStaysDue(kind: Kind, id: nat, cron: Cron, passes: seq<Pass>, i: nat, j: nat)
    requires Regular(cron) && ArePasses(kind, passes) && Scheduled(id, cron, passes) && Seeded(passes, id)
    requires i < j < |passes| && Handles(passes[i], id).Some? && Handles(passes[j], id).Some?
    requires Fires(cron, Look(passes[i].before.keys, id), passes[i].now)
    requires UnfitBetween(passes, id, i, j)
    ensures var handled := Handles(passes[j], id).value;
            id in passes[j].after.dispatched <==> handled.fit && (kind == Backup || handled.running)
  {
    hide IsPass, TicksOf, RunEntry, Handles, Fires, Regular, Scheduled, ArePasses, AlwaysLive, NonDecreasing;
    hide Look, Seeded, UnfitBetween, OutcomeAt, NoneFit;
    var entry, ticks := Look(passes[0].before.keys, id), TicksOf(kind, id, passes);
    var a, b := |TicksOf(kind, id, passes[..i])|, |TicksOf(kind, id, passes[..j])|;
    SeededIsLive(kind, id, cron, passes);
    SeededRecorded(passes, id);
    TickAt(kind, id, cron, passes, i);
    TickAt(kind, id, cron, passes, j);
    TicksBetween(kind, id, passes, i, j);
    TicksOfFirst(kind, id, passes, i + 1, j);
    TicksOfFirst(kind, id, passes, j, |passes|);
    assert passes[..|passes|] == passes;
    NoneFitInPrefix(ticks, TicksOf(kind, id, passes[..j]), a);
    DispatchFollowsRun(kind, id, cron, passes, j);
    UnfitTickStaysDue(cron, entry, ticks, a, b);
  }

  lemma SeededRecorded(passes: seq<Pass>, id: nat)
    requires Seeded(passes, id)
    ensures Look(passes[0].before.keys, id).Recorded?
  {
  }

  /* A key that was never written, or expired. */

  /** The precheck of an unfit server's row says yes in the slot's own minute and writes nothing; the next precheck
      without a new slot says no and records the slot as if it had run. */
  lemma UnseededSlotIsLost(cron: Cron, entry: Entry, first: Tick, second: Tick, later: Tick)
    requires Regular(cron) && !Live(entry, first.now) && IsDue(cron, first.now) && !first.fit
    requires first.now <= second.now <= later.now < second.now + TTL
    requires !IsDue(cron, second.now) && cron(later.now) == cron(second.now) == cron(first.now)
    ensures TickOutcome(cron, entry, first) == Unfit && TickEntry(cron, entry, first) == entry
    ensures TickOutcome(cron, entry, second) == NotDue
    ensures TickOutcome(cron, TickEntry(cron, entry, second), later) == NotDue
  {
  }
}
