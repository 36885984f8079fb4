/** Cron de-duplication through one cache key: what the precheck and shouldRunCronNow decide over whole runs. Times are
    seconds. */
module CronDedup {

  /** 30 days, the lifetime of every write. */
  const TTL := 2592000

  /** getPreviousRunDate with the current date allowed: the latest slot no later than a time. */
  type Cron = int -> int

  predicate IsSlot(cron: Cron, time: int) {
    cron(time) == time
  }

  /** Slots are full minutes, and no slot lies between the previous run date and the time it was asked for. */
  ghost predicate Regular(cron: Cron) {
    forall t {:trigger cron(t)} ::
      && cron(t) <= t
      && IsSlot(cron, cron(t))
      && cron(t) % 60 == 0
      && (forall u {:trigger cron(u)} :: cron(t) <= u <= t ==> cron(u) == cron(t))
  }

  /** A cache entry with the time it expires. */
  datatype Entry = Absent | Recorded(at: int, expires: int)

  predicate Live(entry: Entry, now: int) {
    entry.Recorded? && now < entry.expires
  }

  function Put(at: int, now: int): Entry {
    Recorded(at, now + TTL)
  }

  /** CronExpression::isDue, by the minute. */
  predicate IsDue(cron: Cron, now: int) {
    IsSlot(cron, now - now % 60)
  }

  /** isDueCandidateBeforeExpensiveChecks: its answer, and the entry it leaves. */
  function DueCandidate(cron: Cron, entry: Entry, now: int): (bool, Entry) {
    var previousDue := cron(now);
    if !Live(entry, now) then
      var isDue := IsDue(cron, now);
      (isDue, if !isDue then Put(previousDue, now) else entry)
    else
      var shouldFire := previousDue > entry.at;
      (shouldFire, if !shouldFire then Put(previousDue, now) else entry)
  }

  /** shouldRunCronNow: its answer, and the entry it leaves. */
  function ShouldRunCronNow(cron: Cron, entry: Entry, now: int): (bool, Entry) {
    var previousDue := cron(now);
    var shouldFire := if !Live(entry, now) then IsDue(cron, now) else previousDue > entry.at;
    (shouldFire, Put(if shouldFire then now else previousDue, now))
  }

  /** The decision both functions make. */
  predicate Fires(cron: Cron, entry: Entry, now: int) {
    if Live(entry, now) then cron(now) > entry.at else IsDue(cron, now)
  }

  /** isDueCandidateBeforeExpensiveChecks writes only when it answers no. */
  function AfterPrecheck(cron: Cron, entry: Entry, now: int): Entry {
    if Fires(cron, entry, now) then entry else Put(cron(now), now)
  }

  /** shouldRunCronNow always writes. */
  function AfterShouldRun(cron: Cron, entry: Entry, now: int): Entry {
    Put(if Fires(cron, entry, now) then now else cron(now), now)
  }

  datatype Outcome = NotDue | Unfit | Consumed | Dispatched

  /** One tick of one job: the time, whether its server is fit, and whether its resource is running (always so for
      backups). */
  datatype Tick = Tick(now: int, fit: bool, running: bool)

  function TickOutcome(cron: Cron, entry: Entry, tick: Tick): Outcome {
    if !Fires(cron, entry, tick.now) then NotDue
    else if !tick.fit then Unfit
    else if !tick.running then Consumed
    else Dispatched
  }

  /** The entry after the precheck and, for a fit server, shouldRunCronNow. */
  function TickEntry(cron: Cron, entry: Entry, tick: Tick): Entry {
    var checked := AfterPrecheck(cron, entry, tick.now);
    if Fires(cron, entry, tick.now) && tick.fit then AfterShouldRun(cron, checked, tick.now) else checked
  }

  /** Both functions decide alike, and asking the precheck first, and shouldRunCronNow only after a yes, answers and
      leaves what shouldRunCronNow alone would. */
  lemma PrecheckAgrees(cron: Cron, entry: Entry, now: int)
    ensures DueCandidate(cron, entry, now) == (Fires(cron, entry, now), AfterPrecheck(cron, entry, now))
    ensures ShouldRunCronNow(cron, entry, now) == (Fires(cron, entry, now), AfterShouldRun(cron, entry, now))
    ensures var candidate := DueCandidate(cron, entry, now);
            (if candidate.0 then ShouldRunCronNow(cron, candidate.1, now) else candidate)
            == ShouldRunCronNow(cron, entry, now)
  {
  }

  /** On a fit server a tick is decided by shouldRunCronNow alone. */
  lemma FitTickIsShouldRun(cron: Cron, entry: Entry, tick: Tick)
    requires tick.fit
    ensures var (fires, after) := ShouldRunCronNow(cron, entry, tick.now);
            && TickEntry(cron, entry, tick) == after
            && (Fired(TickOutcome(cron, entry, tick)) <==> fires)
  {
  }

  /** A slot after r and no later than now. */
  ghost predicate SlotIn(cron: Cron, r: int, now: int) {
    exists s :: r < s <= now && IsSlot(cron, s)
  }

  lemma PreviousDecides(cron: Cron, r: int, now: int)
    requires Regular(cron)
    ensures cron(now) > r <==> SlotIn(cron, r, now)
  {
    if cron(now) > r {
      assert cron(now) <= now && IsSlot(cron, cron(now));
    }
    if SlotIn(cron, r, now) {
      var s :| r < s <= now && IsSlot(cron, s);
      if s > cron(now) {
        assert cron(s) == cron(now);
      }
    }
  }

  /** With a live key the precheck is true exactly when a slot lies after the recorded time and no later than the
      tick. */
  lemma PrecheckMeaning(cron: Cron, entry: Entry, now: int)
    requires Regular(cron) && Live(entry, now)
    ensures Fires(cron, entry, now) <==> SlotIn(cron, entry.at, now)
  {
    PreviousDecides(cron, entry.at, now);
  }

  /** What a precheck that says no writes changes no later answer that the key would have given. */
  lemma RewritingIsHarmless(cron: Cron, entry: Entry, now: int, later: int)
    requires Regular(cron) && entry.Recorded? && entry.at <= now <= later
    requires Live(entry, later) && !Fires(cron, entry, now)
    ensures Live(AfterPrecheck(cron, entry, now), now)
    ensures later < now + TTL ==> (Fires(cron, AfterPrecheck(cron, entry, now), later) <==> Fires(cron, entry, later))
  {
    assert cron(later) <= now <= later ==> cron(now) == cron(later);
  }

  /** A slot nobody consumed stays due exactly as long as the key lives, and after that only in a minute that is a slot
      itself. */
  lemma PendingSlot(cron: Cron, entry: Entry, now: int)
    requires Regular(cron) && entry.Recorded? && SlotIn(cron, entry.at, now)
    ensures Fires(cron, entry, now) <==> now < entry.expires || IsDue(cron, now)
  {
    PreviousDecides(cron, entry.at, now);
  }

  /* Runs of ticks. */

  function RunEntry(cron: Cron, entry: Entry, ticks: seq<Tick>): Entry {
    if ticks == [] then entry
    else TickEntry(cron, RunEntry(cron, entry, ticks[..|ticks| - 1]), ticks[|ticks| - 1])
  }

  /** What tick i of a run does. */
  function OutcomeAt(cron: Cron, entry: Entry, ticks: seq<Tick>, i: nat): Outcome
    requires i < |ticks|
  {
    TickOutcome(cron, RunEntry(cron, entry, ticks[..i]), ticks[i])
  }

  predicate Fired(o: Outcome) {
    o == Consumed || o == Dispatched
  }

  ghost predicate NonDecreasing(ticks: seq<Tick>) {
    forall i, j :: 0 <= i <= j < |ticks| ==> ticks[i].now <= ticks[j].now
  }

  /** At no tick does the cache answer null. */
  ghost predicate AlwaysLive(cron: Cron, entry: Entry, ticks: seq<Tick>) {
    forall i :: 0 <= i < |ticks| ==> Live(RunEntry(cron, entry, ticks[..i]), ticks[i].now)
  }

  /** All ticks come before the first expiry, and no write of theirs can expire before it. */
  ghost predicate BeforeExpiry(entry: Entry, ticks: seq<Tick>) {
    entry.Recorded? && forall i :: 0 <= i < |ticks| ==> ticks[i].now < entry.expires <= ticks[i].now + TTL
  }

  lemma {:induction false} ExpiryOnlyGrows(cron: Cron, entry: Entry, ticks: seq<Tick>, i: nat)
    requires BeforeExpiry(entry, ticks) && i <= |ticks|
    ensures var e := RunEntry(cron, entry, ticks[..i]); e.Recorded? && e.expires >= entry.expires
  {
    if i > 0 {
      ExpiryOnlyGrows(cron, entry, ticks, i - 1);
      RunStep(cron, entry, ticks, i - 1);
    }
  }

  /** Dates alone keep the key alive. */
  lemma LiveBeforeExpiry(cron: Cron, entry: Entry, ticks: seq<Tick>)
    requires BeforeExpiry(entry, ticks)
    ensures AlwaysLive(cron, entry, ticks)
  {
    forall i | 0 <= i < |ticks| ensures Live(RunEntry(cron, entry, ticks[..i]), ticks[i].now) {
      ExpiryOnlyGrows(cron, entry, ticks, i);
    }
  }

  /** The time of the last tick before i that consumed a slot, or the initially recorded time. */
  function LastFired(cron: Cron, entry: Entry, ticks: seq<Tick>, i: nat): int
    requires i <= |ticks| && entry.Recorded?
  {
    if i == 0 then entry.at
    else if Fired(OutcomeAt(cron, entry, ticks, i - 1)) then ticks[i - 1].now
    else LastFired(cron, entry, ticks, i - 1)
  }

  lemma RunStep(cron: Cron, entry: Entry, ticks: seq<Tick>, i: nat)
    requires i < |ticks|
    ensures RunEntry(cron, entry, ticks[..i + 1]) == TickEntry(cron, RunEntry(cron, entry, ticks[..i]), ticks[i])
  {
    assert ticks[..i + 1][..i] == ticks[..i];
  }

  /** The recorded time and the last consumption may differ, but no slot lies between them up to now. */
  lemma {:induction false} RecordedTracksLastFired(cron: Cron, entry: Entry, ticks: seq<Tick>, i: nat)
    requires Regular(cron) && entry.Recorded? && i <= |ticks|
    requires NonDecreasing(ticks) && AlwaysLive(cron, entry, ticks)
    requires |ticks| > 0 ==> entry.at <= ticks[0].now
    ensures var e, last := RunEntry(cron, entry, ticks[..i]), LastFired(cron, entry, ticks, i);
            && e.Recorded?
            && (forall t :: (i > 0 ==> ticks[i - 1].now <= t) ==> (cron(t) > e.at <==> cron(t) > last))
            && (i > 0 ==> last <= ticks[i - 1].now && e.at <= ticks[i - 1].now)
            && (i == 0 ==> e.at == last)
  {
    if i > 0 {
      var k := i - 1;
      RecordedTracksLastFired(cron, entry, ticks, k);
      RunStep(cron, entry, ticks, k);
      var e, now := RunEntry(cron, entry, ticks[..k]), ticks[k].now;
      assert Live(e, now);
      var e', last := RunEntry(cron, entry, ticks[..i]), LastFired(cron, entry, ticks, k);
      var last' := LastFired(cron, entry, ticks, i);
      assert k > 0 ==> ticks[k - 1].now <= now;
      forall t | now <= t ensures cron(t) > e'.at <==> cron(t) > last' {
        if !Fires(cron, e, now) {
          assert cron(now) <= e.at && cron(now) <= last;
          assert cron(t) <= now ==> cron(now) == cron(t);
        }
      }
    }
  }

  /** With a live key the whole run is decided by the slots: a tick fires (or would, on a fit server) exactly when a
      slot lies after the last consumption. */
  lemma RunMeaning(cron: Cron, entry: Entry, ticks: seq<Tick>, i: nat)
    requires Regular(cron) && entry.Recorded? && i < |ticks|
    requires NonDecreasing(ticks) && AlwaysLive(cron, entry, ticks)
    requires entry.at <= ticks[0].now
    ensures OutcomeAt(cron, entry, ticks, i) ==
              if !SlotIn(cron, LastFired(cron, entry, ticks, i), ticks[i].now) then NotDue
              else if !ticks[i].fit then Unfit
              else if ticks[i].running then Dispatched else Consumed
  {
    RecordedTracksLastFired(cron, entry, ticks, i);
    var e, last := RunEntry(cron, entry, ticks[..i]), LastFired(cron, entry, ticks, i);
    assert Live(e, ticks[i].now);
    PreviousDecides(cron, e.at, ticks[i].now);
    PreviousDecides(cron, last, ticks[i].now);
    assert i > 0 ==> ticks[i - 1].now <= ticks[i].now;
  }

  lemma {:induction false} LastFiredStays(cron: Cron, entry: Entry, ticks: seq<Tick>, i: nat, j: nat)
    requires i <= j <= |ticks| && entry.Recorded?
    requires forall k :: i <= k < j ==> !Fired(OutcomeAt(cron, entry, ticks, k))
    ensures LastFired(cron, entry, ticks, j) == LastFired(cron, entry, ticks, i)
  {
    if i < j {
      LastFiredStays(cron, entry, ticks, i, j - 1);
    }
  }

  /** A job skipped for an unfit server is due at every later tick until a tick finds the server fit, and that tick
      fires. */
  lemma UnfitStaysDue(cron: Cron, entry: Entry, ticks: seq<Tick>, i: nat, j: nat)
    requires Regular(cron) && entry.Recorded? && i < j < |ticks|
    requires NonDecreasing(ticks) && AlwaysLive(cron, entry, ticks)
    requires entry.at <= ticks[0].now
    requires OutcomeAt(cron, entry, ticks, i) == Unfit
    requires forall k :: i < k < j ==> !ticks[k].fit
    ensures OutcomeAt(cron, entry, ticks, j) ==
              if !ticks[j].fit then Unfit else if ticks[j].running then Dispatched else Consumed
  {
    forall k | i <= k < j ensures !Fired(OutcomeAt(cron, entry, ticks, k)) {
      assert k > i ==> !ticks[k].fit;
    }
    LastFiredStays(cron, entry, ticks, i, j);
    RunMeaning(cron, entry, ticks, i);
    RunMeaning(cron, entry, ticks, j);
    var last := LastFired(cron, entry, ticks, i);
    var s :| last < s <= ticks[i].now && IsSlot(cron, s);
    assert s <= ticks[j].now;
  }

  /** Once a tick has fired, later ticks without a new slot do nothing. */
  lemma FiresOncePerSlot(cron: Cron, entry: Entry, ticks: seq<Tick>, i: nat, j: nat)
    requires Regular(cron) && entry.Recorded? && i < j < |ticks|
    requires NonDecreasing(ticks) && AlwaysLive(cron, entry, ticks)
    requires entry.at <= ticks[0].now
    requires Fired(OutcomeAt(cron, entry, ticks, i))
    requires !SlotIn(cron, ticks[i].now, ticks[j].now)
    ensures OutcomeAt(cron, entry, ticks, j) == NotDue
  {
    LastFiredSince(cron, entry, ticks, i, j);
    RunMeaning(cron, entry, ticks, j);
  }

  lemma {:induction false} LastFiredSince(cron: Cron, entry: Entry, ticks: seq<Tick>, i: nat, j: nat)
    requires entry.Recorded? && i < j <= |ticks| && NonDecreasing(ticks)
    requires Fired(OutcomeAt(cron, entry, ticks, i))
    ensures LastFired(cron, entry, ticks, j) >= ticks[i].now
  {
    if i + 1 < j {
      LastFiredSince(cron, entry, ticks, i, j - 1);
    }
  }

  /* Every run, whether or not the key was ever seeded or expires. */

  /** After a consumption at time fired the key, while it lives, guards every slot up to then; and it lives long
      enough. */
  ghost predicate Guards(cron: Cron, entry: Entry, fired: int, now: int) {
    && fired <= now
    && entry.Recorded?
    && entry.at >= cron(fired)
    && entry.expires >= fired + TTL
  }

  lemma TickGuards(cron: Cron, entry: Entry, tick: Tick, fired: int, now: int)
    requires Regular(cron) && now <= tick.now
    requires Guards(cron, entry, fired, now)
    ensures Guards(cron, TickEntry(cron, entry, tick), fired, tick.now)
    ensures Fires(cron, entry, tick.now) ==> cron(tick.now) > cron(fired)
  {
    assert cron(tick.now) <= cron(fired) <= tick.now ==> cron(cron(fired)) == cron(tick.now);
  }

  lemma {:induction false} RunGuards(cron: Cron, entry: Entry, ticks: seq<Tick>, i: nat, j: nat)
    requires Regular(cron) && NonDecreasing(ticks) && i < j <= |ticks|
    requires Fired(OutcomeAt(cron, entry, ticks, i))
    ensures Guards(cron, RunEntry(cron, entry, ticks[..j]), ticks[i].now, ticks[j - 1].now)
  {
    hide Guards, TickEntry, TickOutcome, RunEntry, Regular, Fired;
    RunStep(cron, entry, ticks, j - 1);
    if i + 1 < j {
      RunGuards(cron, entry, ticks, i, j - 1);
      TickGuards(cron, RunEntry(cron, entry, ticks[..j - 1]), ticks[j - 1], ticks[i].now, ticks[j - 2].now);
    } else {
      FiringGuards(cron, RunEntry(cron, entry, ticks[..i]), ticks[i]);
    }
  }

  lemma FiringGuards(cron: Cron, entry: Entry, tick: Tick)
    requires Regular(cron) && Fired(TickOutcome(cron, entry, tick))
    ensures Guards(cron, TickEntry(cron, entry, tick), tick.now, tick.now)
  {
    assert cron(tick.now) <= tick.now;
  }

  /** No slot ever causes two dispatches: two ticks that fire belong to different slots, the later one to a later
      slot. */
  lemma SlotsFireAtMostOnce(cron: Cron, entry: Entry, ticks: seq<Tick>, i: nat, j: nat)
    requires Regular(cron) && NonDecreasing(ticks) && i < j < |ticks|
    requires Fired(OutcomeAt(cron, entry, ticks, i)) && Fired(OutcomeAt(cron, entry, ticks, j))
    ensures cron(ticks[i].now) < cron(ticks[j].now)
  {
    RunGuards(cron, entry, ticks, i, j);
    TickGuards(cron, RunEntry(cron, entry, ticks[..j]), ticks[j], ticks[i].now, ticks[j - 1].now);
  }
}
