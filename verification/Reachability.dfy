/** The reachability of one server over a run of connection checks. */
module Reachability {
  import opened Text
  import Backoff

  /** The columns the check reads and writes. */
  datatype Server = Server(
    isReachable: bool, isUsable: bool, unreachableCount: nat, hetznerStatus: Option<string>, notified: bool)

  /** What the cloud provider says, for servers that have one. */
  datatype Provider = NotHetzner | Hetzner(status: Option<string>)

  /** Everything a check learns from outside: the server may be disabled, the probe may answer, or the job may be killed
      by its timeout. */
  datatype Probe =
    | Disabled
    | Answers(provider: Provider, connects: bool, dockerWorks: bool)
    | TimesOut

  datatype Notice = OutageNotice | RecoveryNotice

  datatype Verdict = Up | Down | Ignored

  /** checkHetznerStatus: the status is stored, and only a change to "off" counts as a failed check. */
  function AfterProvider(s: Server, provider: Provider): Server {
    match provider
    case NotHetzner => s
    case Hetzner(status) => s.(hetznerStatus := status)
  }

  predicate TurnedOff(s: Server, provider: Provider) {
    provider.Hetzner? && s.hetznerStatus != provider.status && provider.status == Some("off")
  }

  function VerdictOf(s: Server, probe: Probe): Verdict {
    match probe
    case Disabled => Ignored
    case TimesOut => Down
    case Answers(provider, connects, _) => if TurnedOff(s, provider) || !connects then Down else Up
  }

  /** The server object with the job's three exits and the event handler it calls. */
  class ServerRecord {
    var isReachable: bool
    var isUsable: bool
    var unreachableCount: nat
    var hetznerStatus: Option<string>
    var notified: bool

    ghost function State(): Server
      reads this
    {
      Server(isReachable, isUsable, unreachableCount, hetznerStatus, notified)
    }

    /** Server::isReachableChanged, run when the event is constructed. */
    method IsReachableChanged() returns (notices: seq<Notice>)
      modifies this
      ensures State() == old(State()).(notified := notified)
      ensures var s := old(State());
              notices == if s.isReachable && s.notified then [RecoveryNotice]
                         else if !s.isReachable && s.unreachableCount >= 2 && !s.notified then [OutageNotice]
                         else []
      ensures notified == (if notices == [] then old(notified) else notices == [OutageNotice])
    {
      notices := [];
      if isReachable {
        if notified {
          notified := false;
          notices := [RecoveryNotice];
        }
        return;
      }
      if unreachableCount >= 2 && !notified {
        notified := true;
        notices := [OutageNotice];
      }
    }

    method DispatchReachabilityChangedIfNeeded(wasReachable: bool, wasNotified: bool, nowReachable: bool)
      returns (notices: seq<Notice>)
      requires nowReachable == isReachable && wasNotified == notified
      modifies this
      ensures State() == old(State()).(notified := notified)
      ensures notices == if nowReachable && wasNotified then [RecoveryNotice]
                         else if !nowReachable && old(unreachableCount) >= 2 && !wasNotified then [OutageNotice]
                         else []
      ensures notified == (if notices == [] then wasNotified else notices == [OutageNotice])
    {
      notices := [];
      if nowReachable {
        if !wasReachable || wasNotified {
          notices := IsReachableChanged();
        }
        return;
      }
      if unreachableCount >= 2 && !wasNotified {
        notices := IsReachableChanged();
      }
    }

    /** The failure exit shared by a failed probe, a caught exception and a timeout. */
    method MarkUnreachable(wasReachable: bool, wasNotified: bool) returns (notices: seq<Notice>)
      requires wasNotified == notified
      modifies this
      ensures State() == AfterDown(old(State()))
      ensures notices == DownNotices(old(State()))
    {
      isReachable, isUsable := false, false;
      unreachableCount := unreachableCount + 1;
      notices := DispatchReachabilityChangedIfNeeded(wasReachable, wasNotified, false);
    }

    /** handle() and, for a timeout, failed(). */
    method Check(probe: Probe) returns (notices: seq<Notice>)
      modifies this
      ensures State() == Next(old(State()), probe)
      ensures notices == Notices(old(State()), probe)
    {
      var wasReachable, wasNotified := isReachable, notified;
      notices := [];
      if probe.Disabled? {
        isReachable, isUsable := false, false;
        return;
      }
      if probe.TimesOut? {
        notices := MarkUnreachable(wasReachable, wasNotified);
        return;
      }
      if probe.provider.Hetzner? && hetznerStatus != probe.provider.status {
        hetznerStatus := probe.provider.status;
        if hetznerStatus == Some("off") {
          notices := MarkUnreachable(wasReachable, wasNotified);
          return;
        }
      }
      if !probe.connects {
        notices := MarkUnreachable(wasReachable, wasNotified);
        return;
      }
      isReachable, isUsable := true, probe.dockerWorks;
      if unreachableCount > 0 {
        unreachableCount := 0;
      }
      notices := DispatchReachabilityChangedIfNeeded(wasReachable, wasNotified, true);
    }
  }

  /* One check, by its verdict. */

  function AfterDown(s: Server): Server {
    s.(isReachable := false, isUsable := false, unreachableCount := s.unreachableCount + 1,
       notified := s.notified || s.unreachableCount + 1 >= 2)
  }

  function DownNotices(s: Server): seq<Notice> {
    if s.unreachableCount + 1 >= 2 && !s.notified then [OutageNotice] else []
  }

  function Next(s: Server, probe: Probe): Server {
    match probe
    case Disabled => s.(isReachable := false, isUsable := false)
    case TimesOut => AfterDown(s)
    case Answers(provider, _, docker) =>
      var seen := AfterProvider(s, provider);
      if VerdictOf(s, probe) == Down then AfterDown(seen)
      else seen.(isReachable := true, isUsable := docker, unreachableCount := 0, notified := false)
  }

  function Notices(s: Server, probe: Probe): seq<Notice> {
    match VerdictOf(s, probe)
    case Ignored => []
    case Down => DownNotices(s)
    case Up => if s.notified then [RecoveryNotice] else []
  }

  /* Runs. */

  function Run(s: Server, probes: seq<Probe>): Server {
    if probes == [] then s else Next(Run(s, probes[..|probes| - 1]), probes[|probes| - 1])
  }

  function Verdicts(s: Server, probes: seq<Probe>): (vs: seq<Verdict>)
    ensures |vs| == |probes|
  {
    if probes == [] then []
    else Verdicts(s, probes[..|probes| - 1]) + [VerdictOf(Run(s, probes[..|probes| - 1]), probes[|probes| - 1])]
  }

  /** All notices of a run, in order. */
  function AllNotices(s: Server, probes: seq<Probe>): seq<Notice> {
    if probes == [] then []
    else AllNotices(s, probes[..|probes| - 1]) + Notices(Run(s, probes[..|probes| - 1]), probes[|probes| - 1])
  }

  function DownCount(vs: seq<Verdict>): nat {
    if vs == [] then 0 else DownCount(vs[..|vs| - 1]) + (if vs[|vs| - 1] == Down then 1 else 0)
  }

  /** up is the position right after the last successful check, or 0 when there was none. */
  ghost predicate SinceLastUp(vs: seq<Verdict>, up: nat) {
    && up <= |vs|
    && (up > 0 ==> vs[up - 1] == Up)
    && forall i :: up <= i < |vs| ==> vs[i] != Up
  }

  /** The counter is the number of failed checks since the last success, on top of the initial count when there was no
      success. */
  lemma {:induction false} CounterLaw(s: Server, probes: seq<Probe>, up: nat)
    requires SinceLastUp(Verdicts(s, probes), up)
    ensures Run(s, probes).unreachableCount
         == DownCount(Verdicts(s, probes)[up..]) + (if up == 0 then s.unreachableCount else 0)
  {
    if probes != [] {
      var vs, n := Verdicts(s, probes), |probes| - 1;
      var before := Verdicts(s, probes[..n]);
      assert vs[..n] == before;
      if up <= n {
        CounterLaw(s, probes[..n], up);
        assert vs[up..][..n - up] == before[up..];
      } else {
        assert vs[up..] == [];
      }
    }
  }

  /** Outage and recovery notices alternate in every run, so no outage is announced twice. */
  ghost predicate Alternating(notices: seq<Notice>, announced: bool) {
    forall i :: 0 <= i < |notices| ==> (notices[i] == OutageNotice <==> (i % 2 == 0) == !announced)
  }

  lemma {:induction false} NoticesAlternate(s: Server, probes: seq<Probe>)
    ensures Alternating(AllNotices(s, probes), s.notified)
    ensures Run(s, probes).notified == if |AllNotices(s, probes)| % 2 == 0 then s.notified else !s.notified
  {
    if probes != [] {
      NoticesAlternate(s, probes[..|probes| - 1]);
    }
  }

  /** A server that starts with no failures counted and nothing announced. */
  predicate Fresh(s: Server) {
    s.unreachableCount == 0 && !s.notified
  }

  lemma {:induction false} AnnouncedFromTheSecond(s: Server, probes: seq<Probe>)
    requires Fresh(s)
    ensures Run(s, probes).notified <==> Run(s, probes).unreachableCount >= 2
  {
    if probes != [] {
      AnnouncedFromTheSecond(s, probes[..|probes| - 1]);
    }
  }

  function ExpectedNotices(verdict: Verdict, failedBefore: nat): seq<Notice> {
    match verdict
    case Ignored => []
    case Down => if failedBefore + 1 == 2 then [OutageNotice] else []
    case Up => if failedBefore >= 2 then [RecoveryNotice] else []
  }

  /** From a fresh start the notices follow from the verdicts alone: an outage at exactly the second failure since the
      last success, a recovery at a success after at least two failures. */
  lemma NoticeLaw(s: Server, probes: seq<Probe>, probe: Probe, up: nat)
    requires Fresh(s) && SinceLastUp(Verdicts(s, probes), up)
    ensures Notices(Run(s, probes), probe)
         == ExpectedNotices(VerdictOf(Run(s, probes), probe), DownCount(Verdicts(s, probes)[up..]))
  {
    CounterLaw(s, probes, up);
    AnnouncedFromTheSecond(s, probes);
  }

  /* A dead server under the backoff of the scheduler. */

  /** n scheduler cycles from first on: a cycle that is not skipped runs one check, with that cycle's probe. The server
      afterwards, and the number of checks. */
  function Cycles(s: Server, first: nat, n: nat, serverHash: nat, probe: nat -> Probe): (r: (Server, nat))
    decreases n
  {
    if n == 0 then (s, 0)
    else if Backoff.SkipsCycle(s.unreachableCount, first, serverHash)
    then Cycles(s, first + 1, n - 1, serverHash, probe)
    else
      var (after, checks) := Cycles(Next(s, probe(first)), first + 1, n - 1, serverHash, probe);
      (after, checks + 1)
  }

  /** Every check in these cycles fails, in whatever way. */
  predicate AllDown(s: Server, first: nat, n: nat, serverHash: nat, probe: nat -> Probe)
    decreases n
  {
    if n == 0 then true
    else if Backoff.SkipsCycle(s.unreachableCount, first, serverHash)
    then AllDown(s, first + 1, n - 1, serverHash, probe)
    else VerdictOf(s, probe(first)) == Down && AllDown(Next(s, probe(first)), first + 1, n - 1, serverHash, probe)
  }

  lemma {:induction false} CyclesCount(s: Server, first: nat, n: nat, serverHash: nat, probe: nat -> Probe)
    requires AllDown(s, first, n, serverHash, probe)
    ensures var (after, checks) := Cycles(s, first, n, serverHash, probe);
            && checks == Backoff.ChecksWhileDown(first, n, s.unreachableCount, serverHash)
            && after.unreachableCount == s.unreachableCount + checks
    decreases n
  {
    if n > 0 {
      if Backoff.SkipsCycle(s.unreachableCount, first, serverHash) {
        CyclesCount(s, first + 1, n - 1, serverHash, probe);
      } else {
        CyclesCount(Next(s, probe(first)), first + 1, n - 1, serverHash, probe);
      }
    }
  }

  /** The counter and the backoff that reads it bound each other: between N / 12 and 12 + N / 12 failures in N cycles,
      whether a check finds the server switched off, gets no connection, or is killed by its timeout. */
  lemma DeadServerLaw(s: Server, first: nat, n: nat, serverHash: nat, probe: nat -> Probe)
    requires s.unreachableCount == 0 && AllDown(s, first, n, serverHash, probe)
    ensures var (after, checks) := Cycles(s, first, n, serverHash, probe);
            n / 12 <= checks <= 12 + n / 12 && after.unreachableCount == checks
  {
    CyclesCount(s, first, n, serverHash, probe);
    Backoff.ChecksOfADeadServer(first, n, serverHash);
  }

  /* What the flags show. */

  lemma RunAppended(s: Server, probes: seq<Probe>, probe: Probe)
    ensures Run(s, probes + [probe]) == Next(Run(s, probes), probe)
  {
    assert (probes + [probe])[..|probes|] == probes;
  }

  /** After any run the flags show the last check: a server that answered is reachable, and usable exactly if its Docker
      works; one that is disabled, timed out, gets no connection or has just been switched off is neither. */
  lemma FlagsShowLastCheck(s: Server, probes: seq<Probe>, probe: Probe)
    ensures var before, now := Run(s, probes), Run(s, probes + [probe]);
            match probe
            case Disabled => !now.isReachable && !now.isUsable && now.unreachableCount == before.unreachableCount
            case TimesOut => !now.isReachable && !now.isUsable
            case Answers(provider, connects, docker) =>
              var off := provider == Hetzner(Some("off")) && before.hetznerStatus != Some("off");
              && (now.isReachable <==> connects && !off)
              && (now.isUsable <==> connects && !off && docker)
              && (provider.Hetzner? ==> now.hetznerStatus == provider.status)
  {
    RunAppended(s, probes, probe);
    hide Run;
  }

  /** In every run a usable server is a reachable one, if it was at the start. */
  lemma {:induction false} UsableIsReachable(s: Server, probes: seq<Probe>)
    requires s.isUsable ==> s.isReachable
    ensures Run(s, probes).isUsable ==> Run(s, probes).isReachable
  {
    if probes != [] {
      UsableIsReachable(s, probes[..|probes| - 1]);
    }
  }
}
