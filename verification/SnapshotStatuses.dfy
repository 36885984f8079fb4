/** A preview or a database is given the status of each of its containers in turn: what it shows in the end, and when a
    second round changes nothing. */
module SnapshotStatuses {
  import opened Snapshot
  import opened StatusText
  import opened Text

  predicate OwnKind(key: Key) {
    key.Preview? || key.Database?
  }

  /** Reading and writing do the same to a preview's or a database's status. */
  lemma ReadIsWrite(server: Server, key: Key, status: string)
    requires OwnKind(key)
    ensures Read(server, key, status) == Write(key, status)
  {
  }

  /* What is shown. */

  /** A status that the accessor leaves alone is shown after it is assigned, whatever the row was. */
  lemma AssignedShows(server: Server, key: Key, raw: string, status: string)
    requires Read(server, key, Write(key, status)) == status
    ensures Read(server, key, Assigned(server, key, raw, status)) == status
  {
  }

  /** A preview or a database shows the status of its last container, if the accessor leaves that status alone. */
  lemma ShowsLast(server: Server, cs: seq<Container>, key: Key, raw: string)
    requires OwnKind(key) && OwnStatuses(server, cs, key) != []
    ensures var own := OwnStatuses(server, cs, key);
            var last := own[|own| - 1];
            Read(server, key, Write(key, last)) == last ==> Read(server, key, Final(server, cs, key, raw)) == last
  {
    var own := OwnStatuses(server, cs, key);
    var n := |own| - 1;
    OwnFound(server, cs, key);
    hide OwnStatuses, Read, Write, Found;
    if Read(server, key, Write(key, own[n])) == own[n] {
      AssignedShows(server, key, AssignedAll(server, key, raw, own[..n]), own[n]);
    }
  }

  lemma {:induction false} OwnFound(server: Server, cs: seq<Container>, key: Key)
    requires OwnKind(key)
    ensures OwnStatuses(server, cs, key) != [] <==> Found(server, cs, key)
  {
    if cs != [] {
      var n := |cs| - 1;
      OwnFound(server, cs[..n], key);
      OwnShare(server, cs[n], key);
      hide ShareOf, KeyOf;
      assert forall c :: c in cs <==> c in cs[..n] || c == cs[n];
    }
  }

  lemma OwnShare(server: Server, c: Container, key: Key)
    requires OwnKind(key)
    ensures var share := ShareOf(server, c);
            KeyOf(share) == Some(key) <==> share == OfPreview(key) || share == OfDatabase(key)
  {
    hide StatusOf, Running, ActiveOrTransient, Joined, Truthy;
  }

  /* A second round. */

  /** The first status given to a database reads as it was written. */
  predicate FirstSettled(key: Key, statuses: seq<string>) {
    key.Database? && statuses != [] ==> Settled(statuses[0])
  }

  predicate AllAre(statuses: seq<string>, status: string) {
    forall i :: 0 <= i < |statuses| ==> statuses[i] == status
  }

  lemma AssignedLast(server: Server, key: Key, raw: string, statuses: seq<string>)
    requires statuses != []
    ensures var n := |statuses| - 1;
            AssignedAll(server, key, raw, statuses)
            == Assigned(server, key, AssignedAll(server, key, raw, statuses[..n]), statuses[n])
  {
  }

  /** The first status is read back as it was written, or what it is read back as is never reported. */
  predicate NeverRead(server: Server, key: Key, statuses: seq<string>)
    requires statuses != []
  {
    var x := Read(server, key, statuses[0]);
    Read(server, key, x) == x || forall i :: 0 <= i < |statuses| ==> statuses[i] != Read(server, key, x)
  }

  /** Rows that read as the status every container reports stay as they are; all other rows end the same. */
  lemma {:induction false} StaysOrEnds(server: Server, key: Key, raw: string, statuses: seq<string>)
    requires OwnKind(key) && statuses != [] && NeverRead(server, key, statuses)
    ensures var x, end := Read(server, key, statuses[0]), AssignedAll(server, key, raw, statuses);
            || (end == raw && AllAre(statuses, Read(server, key, raw)) && AssignedAll(server, key, x, statuses) == x)
            || end == AssignedAll(server, key, x, statuses)
  {
    var n := |statuses| - 1;
    var x := Read(server, key, statuses[0]);
    ReadIsWrite(server, key, statuses[n]);
    AssignedLast(server, key, raw, statuses);
    AssignedLast(server, key, x, statuses);
    hide Read, Write, AssignedAll;
    if n > 0 {
      assert statuses[..n][0] == statuses[0];
      StaysOrEnds(server, key, raw, statuses[..n]);
      assert AllAre(statuses[..n], Read(server, key, raw)) ==> statuses[0] == Read(server, key, raw) by {
        hide Assigned;
      }
      AllAreLast(statuses, Read(server, key, raw));
      hide AllAre;
    } else {
      AssignedNone(server, key, raw);
      AssignedNone(server, key, x);
      assert statuses[..n] == [];
    }
  }

  lemma AssignedNone(server: Server, key: Key, raw: string)
    ensures AssignedAll(server, key, raw, []) == raw
  {
  }

  lemma AllAreLast(statuses: seq<string>, status: string)
    requires statuses != []
    ensures var n := |statuses| - 1;
            AllAre(statuses, status) <==> AllAre(statuses[..n], status) && statuses[n] == status
  {
  }

  /** If the first status is read back as it was written, a second round changes nothing. */
  lemma SettledRepeats(server: Server, key: Key, raw: string, statuses: seq<string>)
    requires OwnKind(key)
    requires FirstSettled(key, statuses)
    ensures AssignedAll(server, key, AssignedAll(server, key, raw, statuses), statuses)
         == AssignedAll(server, key, raw, statuses)
  {
    if statuses != [] {
      if key.Database? {
        NormalTwiceExactly(statuses[0]);
      }
      hide Normal, Settled;
      NeverReadRepeats(server, key, raw, statuses);
    }
  }

  lemma NeverReadRepeats(server: Server, key: Key, raw: string, statuses: seq<string>)
    requires OwnKind(key) && statuses != [] && NeverRead(server, key, statuses)
    ensures AssignedAll(server, key, AssignedAll(server, key, raw, statuses), statuses)
         == AssignedAll(server, key, raw, statuses)
  {
    hide NeverRead, AllAre, AssignedAll;
    StaysOrEnds(server, key, raw, statuses);
    StaysOrEnds(server, key, AssignedAll(server, key, raw, statuses), statuses);
  }

  /** If no row reads as the first status, all rows end the same. */
  lemma {:induction false} UnreadIsForgotten(server: Server, key: Key, a: string, b: string, statuses: seq<string>)
    requires statuses != []
    requires Read(server, key, a) != statuses[0] && Read(server, key, b) != statuses[0]
    ensures AssignedAll(server, key, a, statuses) == AssignedAll(server, key, b, statuses)
  {
    hide Read, Write;
    var n := |statuses| - 1;
    if n > 0 {
      UnreadIsForgotten(server, key, a, b, statuses[..n]);
    } else {
      assert statuses[..n] == [];
    }
  }

  ghost predicate SecondRoundKeeps(server: Server, key: Key, statuses: seq<string>) {
    forall raw :: var end := AssignedAll(server, key, raw, statuses); AssignedAll(server, key, end, statuses) == end
  }

  lemma TwoAssigned(server: Server, key: Key, raw: string, first: string, second: string)
    ensures AssignedAll(server, key, raw, [first] + [second])
         == Assigned(server, key, Assigned(server, key, raw, first), second)
  {
    hide Assigned;
    assert ([first] + [second])[..1] == [first] && [first][..0] == [];
    assert AssignedAll(server, key, raw, [first]) == Assigned(server, key, AssignedAll(server, key, raw, []), first);
  }

  /** An unsettled first status, followed by its second reading, ends differently the second time. */
  lemma UnsettledChanges(server: Server, key: Key, row: string, first: string)
    requires key.Database? && Normal(row) == first && !Settled(first)
    ensures var statuses := [first] + [Normal(Normal(first))];
            AssignedAll(server, key, AssignedAll(server, key, row, statuses), statuses)
            != AssignedAll(server, key, row, statuses)
  {
    var one := Normal(first);
    var two := Normal(one);
    var three := Normal(two);
    NormalTwiceExactly(first);
    NormalHasColon(row);
    NormalHasColon(first);
    NoReturn(first);
    NoReturn(one);
    TwoAssigned(server, key, row, first, two);
    TwoAssigned(server, key, three, first, two);
    hide Normal, Settled, AssignedAll;
    assert AssignedAll(server, key, row, [first] + [two]) == three;
    assert AssignedAll(server, key, three, [first] + [two]) == one;
  }

  /** Whatever is reported after the first status, a second round changes nothing, exactly when the first status is
      settled or no row reads as it. */
  lemma FirstStatusDecides(server: Server, key: Key, first: string)
    requires key.Database?
    ensures (forall more :: SecondRoundKeeps(server, key, [first] + more))
       <==> Settled(first) || forall row :: Normal(row) != first
  {
    if Settled(first) {
      forall more, raw
        ensures var end := AssignedAll(server, key, raw, [first] + more);
                AssignedAll(server, key, end, [first] + more) == end
      {
        SettledRepeats(server, key, raw, [first] + more);
      }
    } else if row :| Normal(row) == first {
      UnsettledChanges(server, key, row, first);
      assert !SecondRoundKeeps(server, key, [first] + [Normal(Normal(first))]);
    } else {
      hide AssignedAll, Normal;
      forall more, raw
        ensures var end := AssignedAll(server, key, raw, [first] + more);
                AssignedAll(server, key, end, [first] + more) == end
      {
        UnreadIsForgotten(server, key, raw, AssignedAll(server, key, raw, [first] + more), [first] + more);
      }
    }
  }

  /** The first parenthesis opens the health part, and a second one is taken for another when the text is read again:
      state(b(c(d reads as state:b(c(d, which is not settled. */
  lemma ParenthesesUnsettle(state: string, b: string, c: string, d: string)
    requires state != [] && '(' !in state && ':' !in state && Trim(state) == state
    requires b != [] && '(' !in b && Trim(b) == b && ')' !in b + c + d
    requires '(' !in c && d != [] && Trim(d) == d
    ensures var inner := b + ['('] + (c + ['('] + d);
            && Normal(state + ['('] + inner) == state + [':'] + inner
            && !Settled(state + [':'] + inner)
  {
    var rest := c + ['('] + d;
    var inner := b + ['('] + rest;
    NormalOfParenthesis(state, inner);
    BeforeFacts(inner, ')');
    BeforeFacts(rest, ')');
    TrimmedEnds(b);
    TrimmedEnds(d);
    assert inner[0] == b[0] && inner[|inner| - 1] == d[|d| - 1];
    TrimOfTight(inner);
    var front := state + [':'] + b;
    assert state + [':'] + inner == front + ['('] + rest;
    AfterFirst(front, '(', rest);
    hide Trim, Normal, Before, ColonTight;
  }

  /* A second round of a snapshot. */

  /** Applying the snapshot a second time does what the first time did not. */
  ghost predicate ChangesAgain(server: Server, cs: seq<Container>, key: Key, raw: string) {
    Final(server, cs, key, Final(server, cs, key, raw)) != Final(server, cs, key, raw)
  }

  /** Some container can report this as a database's status. */
  predicate Reportable(status: string) {
    ActiveOrTransient(status) && exists i :: 0 <= i < |status| && status[i] == ':' && status[..i] != "exited"
  }

  lemma ExitedIsNoActivity()
    ensures !ActiveOrTransient("exited")
  {
    var s := "exited";
    LongerParts(s, "running", 'r');
    LongerParts(s, "restarting", 'r');
    LongerParts(s, "starting", 's');
    LongerParts(s, "created", 'c');
    LongerParts(s, "paused", 'p');
  }

  lemma LongerParts(s: string, part: string, first: char)
    requires |part| >= |s| > 0 && part[0] == first && s[0] != first
    ensures !Contains(s, part)
  {
  }

  lemma ReportedIsReportable(server: Server, c: Container, key: Key)
    requires ShareOf(server, c) == OfDatabase(key)
    ensures Reportable(StatusOf(c))
  {
    var status := StatusOf(c);
    ExitedIsNoActivity();
    hide ActiveOrTransient, Running, Joined, Truthy;
    if status != "exited" {
      var state := OrElse(c.state, "exited");
      assert status[|state|] == ':' && status[..|state|] == state;
    }
  }

  /** A container of the database that reports this state and health. */
  function Reporter(uuid: string, state: string, health: string): Container {
    Container(true, false, Some(state), Some(health), None, None, Some(uuid), None, None, None, false)
  }

  lemma ReporterReports(server: Server, uuid: string, state: string, health: string)
    requires uuid in server.databases && state != "exited" && ActiveOrTransient(state + ":" + health)
    ensures StatusOf(Reporter(uuid, state, health)) == state + ":" + health
    ensures ShareOf(server, Reporter(uuid, state, health)) == OfDatabase(Database(uuid))
  {
    hide ActiveOrTransient, Running;
  }

  lemma SomeReporter(server: Server, uuid: string, status: string) returns (c: Container)
    requires uuid in server.databases && Reportable(status)
    ensures StatusOf(c) == status && ShareOf(server, c) == OfDatabase(Database(uuid))
  {
    hide ActiveOrTransient;
    var i :| 0 <= i < |status| && status[i] == ':' && status[..i] != "exited";
    assert status == status[..i] + ":" + status[i + 1..];
    ReporterReports(server, uuid, status[..i], status[i + 1..]);
    c := Reporter(uuid, status[..i], status[i + 1..]);
  }

  lemma {:induction false} OwnAreReportable(server: Server, cs: seq<Container>, key: Key)
    requires key.Database?
    ensures forall i :: 0 <= i < |OwnStatuses(server, cs, key)| ==> Reportable(OwnStatuses(server, cs, key)[i])
  {
    if cs != [] {
      var n := |cs| - 1;
      OwnAreReportable(server, cs[..n], key);
      OwnShare(server, cs[n], key);
      if ShareOf(server, cs[n]) == OfDatabase(key) {
        ReportedIsReportable(server, cs[n], key);
      }
      PreviewShare(server, cs[n]);
      hide ShareOf, StatusOf, Reportable;
    }
  }

  lemma PreviewShare(server: Server, c: Container)
    ensures ShareOf(server, c).OfPreview? ==> ShareOf(server, c).key.Preview?
  {
    hide StatusOf, Running, ActiveOrTransient, Joined, Truthy;
  }

  lemma OwnOfTwo(server: Server, a: Container, b: Container, key: Key)
    requires ShareOf(server, a) == ShareOf(server, b) == OfDatabase(key)
    ensures OwnStatuses(server, [a] + [b], key) == [StatusOf(a)] + [StatusOf(b)]
  {
    hide ShareOf, StatusOf;
    assert ([a] + [b])[..1] == [a] && [a][..0] == [];
    assert OwnStatuses(server, [a], key) == OwnStatuses(server, [], key) + [StatusOf(a)];
  }

  ghost predicate ReportsFirst(server: Server, cs: seq<Container>, key: Key, first: string) {
    var own := OwnStatuses(server, cs, key);
    own != [] && own[0] == first
  }

  /** Two containers of one database report an unsettled status and its second reading: the snapshot changes the row
      again. */
  lemma TwoReportsChange(server: Server, a: Container, b: Container, key: Key, row: string)
    requires key.Database? && ShareOf(server, a) == ShareOf(server, b) == OfDatabase(key)
    requires Normal(row) == StatusOf(a) && !Settled(StatusOf(a)) && StatusOf(b) == Normal(Normal(StatusOf(a)))
    ensures ReportsFirst(server, [a] + [b], key, StatusOf(a)) && ChangesAgain(server, [a] + [b], key, row)
  {
    hide ShareOf, StatusOf, Normal, Settled, AssignedAll;
    OwnOfTwo(server, a, b, key);
    OwnFound(server, [a] + [b], key);
    UnsettledChanges(server, key, row, StatusOf(a));
    hide Found, OwnStatuses;
  }

  /** Over all snapshots whose first container of the database reports this status, applying one again changes no row,
      exactly when the status is settled, or no row reads as it, or its second reading cannot be reported. */
  lemma FirstReportDecides(server: Server, uuid: string, first: string)
    requires uuid in server.databases && Reportable(first)
    ensures (forall cs, raw :: ReportsFirst(server, cs, Database(uuid), first) ==>
               !ChangesAgain(server, cs, Database(uuid), raw))
       <==> Settled(first) || (forall row :: Normal(row) != first) || !Reportable(Normal(Normal(first)))
  {
    hide Reportable, Normal, ReportsFirst, ChangesAgain, Settled;
    var key := Database(uuid);
    if Settled(first) || (forall row :: Normal(row) != first) || !Reportable(Normal(Normal(first))) {
      forall cs, raw | ReportsFirst(server, cs, key, first) ensures !ChangesAgain(server, cs, key, raw) {
        FirstReportKeeps(server, cs, key, raw, first);
      }
    } else {
      var row :| Normal(row) == first;
      var a := SomeReporter(server, uuid, first);
      var b := SomeReporter(server, uuid, Normal(Normal(first)));
      TwoReportsChange(server, a, b, key, row);
    }
  }

  lemma FirstReportKeeps(server: Server, cs: seq<Container>, key: Key, raw: string, first: string)
    requires key.Database? && ReportsFirst(server, cs, key, first)
    requires Settled(first) || (forall row :: Normal(row) != first) || !Reportable(Normal(Normal(first)))
    ensures !ChangesAgain(server, cs, key, raw)
  {
    hide OwnStatuses, Normal, Settled, Reportable, AssignedAll, Found;
    var own := OwnStatuses(server, cs, key);
    OwnFound(server, cs, key);
    if Settled(first) {
      SettledRepeats(server, key, raw, own);
    } else if !Reportable(Normal(Normal(first))) {
      OwnAreReportable(server, cs, key);
      NeverReadRepeats(server, key, raw, own);
    } else {
      UnreadIsForgotten(server, key, raw, AssignedAll(server, key, raw, own), own);
    }
  }

  /** For instance state(b(c(d, reported as state and b(c(d and then as state and b:c:d. */
  lemma ParenthesesChange(server: Server, uuid: string, state: string, b: string, c: string, d: string)
    requires uuid in server.databases && StartsWith(state, "running")
    requires '(' !in state && ':' !in state && Trim(state) == state
    requires b != [] && '(' !in b && Trim(b) == b && ')' !in b + c + d
    requires c != [] && '(' !in c && Trim(c) == c && d != [] && '(' !in d && Trim(d) == d
    ensures var first := Reporter(uuid, state, b + ['('] + (c + ['('] + d));
            var second := Reporter(uuid, state, b + [':'] + (c + [':'] + d));
            ChangesAgain(server, [first] + [second], Database(uuid), state + ['('] + (b + ['('] + (c + ['('] + d)))
  {
    var one, two := b + ['('] + (c + ['('] + d), b + [':'] + (c + [':'] + d);
    var first, second := Reporter(uuid, state, one), Reporter(uuid, state, two);
    ParenthesesUnsettle(state, b, c, d);
    SecondReading(state, b, c, d);
    RunningIsActive(state, one);
    RunningIsActive(state, two);
    ReporterReports(server, uuid, state, one);
    ReporterReports(server, uuid, state, two);
    hide ShareOf, StatusOf, Normal, Settled, Trim, ChangesAgain;
    TwoReportsChange(server, first, second, Database(uuid), state + ['('] + one);
  }

  lemma RunningIsActive(state: string, health: string)
    requires StartsWith(state, "running")
    ensures ActiveOrTransient(state + ":" + health) && state != "exited"
  {
    assert (state + ":" + health)[0..] == state + ":" + health;
    assert state[0] == "running"[0] && "exited"[0] == 'e';
  }

  /** Each reading turns one more parenthesis into a colon. */
  lemma SecondReading(state: string, b: string, c: string, d: string)
    requires state != [] && '(' !in state && Trim(state) == state
    requires b != [] && '(' !in b && Trim(b) == b && ')' !in b + c + d
    requires c != [] && '(' !in c && Trim(c) == c && d != [] && '(' !in d && Trim(d) == d
    ensures Normal(Normal(state + [':'] + (b + ['('] + (c + ['('] + d))))
         == state + [':'] + (b + [':'] + (c + [':'] + d))
  {
    var f, g := state + [':'] + b, state + [':'] + b + [':'] + c;
    var cd := c + ['('] + d;
    TrimmedEnds(state);
    TrimmedEnds(b);
    TrimmedEnds(c);
    TrimmedEnds(d);
    TrimmedEnds(f);
    TrimmedEnds(g);
    TrimmedEnds(cd);
    BeforeFacts(cd, ')');
    BeforeFacts(d, ')');
    hide Trim, Normal, Before;
    NormalOfParenthesis(f, cd);
    assert state + [':'] + (b + ['('] + cd) == f + ['('] + cd;
    assert f + [':'] + cd == g + ['('] + d;
    NormalOfParenthesis(g, d);
    assert g + [':'] + d == state + [':'] + (b + [':'] + (c + [':'] + d));
  }

  /* Statuses without parentheses. */

  predicate ParenthesisFree(c: Container) {
    '(' !in StatusOf(c)
  }

  lemma ParenthesisFreeSettles(c: Container)
    requires ParenthesisFree(c)
    ensures Settled(StatusOf(c))
  {
    var status := StatusOf(c);
    SplitAt(status, '(');
    SplitAt(status, ':');
    ExitedIsNormal();
    if status != "exited" {
      assert ':' in status;
    }
  }

  lemma {:induction false} OwnAreReported(server: Server, cs: seq<Container>, key: Key)
    ensures forall status :: status in OwnStatuses(server, cs, key) ==> exists c :: c in cs && StatusOf(c) == status
  {
    if cs != [] {
      var n := |cs| - 1;
      OwnAreReported(server, cs[..n], key);
      hide ShareOf, StatusOf;
      assert forall c :: c in cs[..n] ==> c in cs;
      assert cs[n] in cs;
    }
  }

  lemma NoParenthesisSettles(server: Server, cs: seq<Container>, key: Key)
    requires forall c :: c in cs ==> ParenthesisFree(c)
    ensures FirstSettled(key, OwnStatuses(server, cs, key))
  {
    var own := OwnStatuses(server, cs, key);
    OwnAreReported(server, cs, key);
    hide OwnStatuses, StatusOf, Settled;
    if own != [] {
      assert own[0] in own;
      var c :| c in cs && StatusOf(c) == own[0];
      ParenthesisFreeSettles(c);
    }
  }
}
