/** Service parts are collected under a joined label that is split again: when that gives each part the status of its
    own containers. */
module SnapshotLabels {
  import opened Snapshot
  import opened SnapshotStatuses
  import opened StatusText
  import opened Text

  /* One label. */

  predicate ColonFree(l: Labels) {
    ':' !in l.service && ':' !in l.id
  }

  /** The joined label is split into the labels it was made of. */
  predicate SplitsBack(l: Labels) {
    var joined := Joined(l);
    Piece(joined, 0) == l.service && Piece(joined, 1) == PartName(l.part) && Piece(joined, 2) == l.id
  }

  lemma FirstPiece(head: string, tail: string, n: nat)
    requires ':' !in head
    ensures Piece(head + [':'] + tail, 0) == head
    ensures Piece(head + [':'] + tail, n + 1) == Piece(tail, n)
  {
    BeforeFirst(head, ':', tail);
    AfterFirst(head, ':', tail);
  }

  lemma NamesHaveNoColon(part: Part)
    ensures ':' !in PartName(part)
  {
  }

  lemma {:induction false} PiecesHaveNoColon(text: string, n: nat)
    ensures ':' !in Piece(text, n)
    decreases n
  {
    BeforeFacts(text, ':');
    if n > 0 && After(text, ':').Some? {
      PiecesHaveNoColon(After(text, ':').value, n - 1);
    }
  }

  lemma SplitsBackExactly(l: Labels)
    ensures SplitsBack(l) <==> ColonFree(l)
  {
    var joined := Joined(l);
    PiecesHaveNoColon(joined, 0);
    PiecesHaveNoColon(joined, 2);
    if ColonFree(l) {
      var sort := PartName(l.part);
      NamesHaveNoColon(l.part);
      FirstPiece(l.service, sort + [':'] + l.id, 0);
      FirstPiece(l.service, sort + [':'] + l.id, 1);
      FirstPiece(sort, l.id, 0);
      BeforeFacts(l.id, ':');
    }
  }

  lemma SortsDiffer()
    ensures PartName(ApplicationPart) != PartName(DatabasePart)
  {
    assert PartName(ApplicationPart)[0] == 'a';
  }

  /** A colon-free label is taken for the part and the service it names. */
  lemma TakenForItself(l: Labels)
    requires ColonFree(l) && Truthy(l.id)
    ensures Target(PartGroup(Joined(l))) == Some(KeyNamed(l)) && Piece(Joined(l), 0) == l.service
  {
    SplitsBackExactly(l);
    SortsDiffer();
    hide Joined, Piece, PartName, Truthy;
    assert l.part == ApplicationPart || l.part == DatabasePart;
  }

  /** No joined text is taken for a part under its service if one of the labels has a colon. */
  lemma TakenForAnother(l: Labels, joined: string)
    requires !ColonFree(l)
    ensures Target(PartGroup(joined)) != Some(KeyNamed(l)) || Piece(joined, 0) != l.service
  {
    PiecesHaveNoColon(joined, 0);
    PiecesHaveNoColon(joined, 2);
  }

  /** The id on a part's label is never empty. */
  lemma LabelledIdIsTruthy(c: Container)
    requires LabelsOf(c).Some?
    ensures Truthy(LabelsOf(c).value.id)
  {
  }

  /* All labels of a snapshot. */

  ghost predicate AllColonFree(cs: seq<Container>) {
    forall c :: c in cs && LabelsOf(c).Some? ==> ColonFree(LabelsOf(c).value)
  }

  ghost predicate NamesPart(cs: seq<Container>, key: Key) {
    exists c :: c in cs && LabelsOf(c).Some? && KeyNamed(LabelsOf(c).value) == key
  }

  ghost predicate Straight(c: Container, cs: seq<Container>) {
    LabelsOf(c).Some? ==>
      var target := Target(PartGroup(Joined(LabelsOf(c).value)));
      target.Some? ==> NamesPart(cs, target.value)
  }

  /** Every part that some joined label is taken for is named by some container's own labels. */
  ghost predicate AllStraight(cs: seq<Container>) {
    forall c :: c in cs ==> Straight(c, cs)
  }

  lemma PartFound(server: Server, cs: seq<Container>, key: Key)
    requires key.ServicePart?
    ensures Found(server, cs, key) <==> NamesPart(cs, key)
  {
    forall c | c in cs
      ensures KeyOf(ShareOf(server, c)) == Some(key) <==> LabelsOf(c).Some? && KeyNamed(LabelsOf(c).value) == key
    {
      PartShare(server, c);
    }
  }

  /** Which containers are parts does not depend on the server. */
  lemma PartShare(server: Server, c: Container)
    ensures LabelsOf(c).Some? ==>
              ShareOf(server, c) == InGroup(PartGroup(Joined(LabelsOf(c).value)), KeyNamed(LabelsOf(c).value))
    ensures LabelsOf(c).None? ==>
              (KeyOf(ShareOf(server, c)).Some? ==> !KeyOf(ShareOf(server, c)).value.ServicePart?)
              && forall joined :: !Joins(ShareOf(server, c), PartGroup(joined))
  {
    hide StatusOf, Running, ActiveOrTransient, Joined, Truthy;
  }

  lemma PartSeen(server: Server, cs: seq<Container>, joined: string) returns (c: Container)
    requires Seen(server, cs, PartGroup(joined))
    ensures c in cs && LabelsOf(c).Some? && Joined(LabelsOf(c).value) == joined
  {
    c :| c in cs && Joins(ShareOf(server, c), PartGroup(joined));
    PartShare(server, c);
  }

  lemma ColonFreeIsStraight(cs: seq<Container>)
    requires AllColonFree(cs)
    ensures AllStraight(cs)
  {
    forall c | c in cs && LabelsOf(c).Some? ensures Straight(c, cs) {
      LabelledIdIsTruthy(c);
      TakenForItself(LabelsOf(c).value);
      hide LabelsOf, Joined, Target;
    }
  }

  /** No part is swept and aggregated in one snapshot. */
  lemma SweptIsNotAggregated(server: Server, cs: seq<Container>, key: Key, ofParts: bool, g: Group)
    requires AllStraight(cs)
    requires !Found(server, cs, key) && g in Groups(server, cs, ofParts)
    ensures Target(g) != Some(key)
  {
    GroupsSeen(server, cs, ofParts);
    match g
    case AppGroup(id) =>
      var c :| c in cs && Joins(ShareOf(server, c), g);
      AppShare(server, c);
    case PartGroup(joined) =>
      var c := PartSeen(server, cs, joined);
      assert Straight(c, cs);
      if key.ServicePart? {
        PartFound(server, cs, key);
      }
  }

  lemma AppShare(server: Server, c: Container)
    ensures forall id :: Joins(ShareOf(server, c), AppGroup(id)) ==> KeyOf(ShareOf(server, c)) == Some(App(id))
  {
    hide StatusOf, Running, ActiveOrTransient, Joined, Truthy;
  }

  /* The same snapshot again. */

  lemma SweptTwice(key: Key, raw: string)
    ensures Swept(key, Swept(key, raw)) == Swept(key, raw)
  {
    ExitedIsNormal();
    hide Normal;
    assert Exited("exited") && Exited("exited:unhealthy");
  }

  /** An assigned status is not assigned again, or leaves the attribute as it is. */
  lemma AssignedTwice(server: Server, key: Key, raw: string, verdict: Option<string>)
    ensures var again := AssignedIf(server, key, raw, verdict); AssignedIf(server, key, again, verdict) == again
  {
    hide Read, Write;
  }

  lemma FinalTwice(server: Server, cs: seq<Container>, key: Key, raw: string)
    requires AllStraight(cs) && FirstSettled(key, OwnStatuses(server, cs, key))
    ensures Final(server, cs, key, Final(server, cs, key, raw)) == Final(server, cs, key, raw)
  {
    SweptTwice(key, raw);
    if key.ServicePart? {
      var groups := Groups(server, cs, true);
      if Found(server, cs, key) {
        hide Found, Seen, Groups, Over;
        OverTwice(server, cs, groups, key, raw);
      } else {
        forall g | g in groups ensures Target(g) != Some(key) {
          SweptIsNotAggregated(server, cs, key, true, g);
        }
        hide Found, Seen, Groups;
        OverOthers(server, cs, groups, key, Held(raw, Swept(key, raw)));
        OverOthers(server, cs, groups, key, Held("exited", "exited"));
      }
    } else if key.App? {
      var g := AppGroup(key.id);
      AssignedTwice(server, key, raw, Verdict(server, g, Statuses(server, cs, g)));
      hide Found, Seen, Verdict, Statuses, Groups, AssignedIf, Swept;
    } else {
      SettledRepeats(server, key, raw, OwnStatuses(server, cs, key));
      hide Found, OwnStatuses, AssignedAll, Swept;
    }
  }

  /** A server that knows one service and aggregates everything to one status. */
  function OneService(service: string, status: string): Server {
    Server({}, {}, map[], map[service := {}],
           (statuses: map<string, string>) => Some(status), (statuses: map<string, string>) => Some(status),
           (id: string, raw: string) => raw)
  }

  /** A model that already has the one status is never saved. */
  lemma {:induction false} NeverSaved(service: string, status: string, cs: seq<Container>, groups: seq<Group>, key: Key,
                                      row: string)
    requires key.ServicePart?
    ensures Over(OneService(service, status), cs, groups, key, Held(status, row)) == Held(status, row)
  {
    if groups != [] {
      NeverSaved(service, status, cs, groups[..|groups| - 1], key, row);
      var g := groups[|groups| - 1];
      OneVerdict(service, status, g, Statuses(OneService(service, status), cs, g));
      hide Target, Statuses, Verdict;
    }
  }

  lemma OneVerdict(service: string, status: string, g: Group, statuses: map<string, string>)
    ensures Verdict(OneService(service, status), g, statuses)
         == if g.PartGroup? && Piece(g.joined, 0) == service then Some(status) else None
  {
    hide Piece;
  }

  /** A model with another status is saved as soon as a group of the service is taken for it. */
  lemma {:induction false} SavedOnce(service: string, status: string, cs: seq<Container>, groups: seq<Group>, g: Group,
                                     key: Key, earlier: string)
    requires key.ServicePart? && earlier != status
    requires g in groups && g.PartGroup? && Piece(g.joined, 0) == service && Target(g) == Some(key)
    ensures Over(OneService(service, status), cs, groups, key, Held(earlier, earlier)) == Held(status, status)
  {
    var n := |groups| - 1;
    var server := OneService(service, status);
    OneVerdict(service, status, groups[n], Statuses(server, cs, groups[n]));
    hide Target, Statuses, Verdict, Piece, OneService;
    if g in groups[..n] {
      SavedOnce(service, status, cs, groups[..n], g, key, earlier);
    } else {
      assert groups[n] == g;
      SavedOrNot(service, status, cs, groups[..n], key, earlier);
    }
  }

  lemma {:induction false} SavedOrNot(service: string, status: string, cs: seq<Container>, groups: seq<Group>, key: Key,
                                      earlier: string)
    requires key.ServicePart?
    ensures Over(OneService(service, status), cs, groups, key, Held(earlier, earlier))
         in {Held(earlier, earlier), Held(status, status)}
  {
    if groups != [] {
      SavedOrNot(service, status, cs, groups[..|groups| - 1], key, earlier);
      var g := groups[|groups| - 1];
      OneVerdict(service, status, g, Statuses(OneService(service, status), cs, g));
      hide Target, Statuses, Verdict, OneService;
    }
  }

  /** A part that is swept and then taken for another label's alternates between two statuses. */
  lemma CrookedAlternates(cs: seq<Container>, c: Container)
    requires c in cs && !Straight(c, cs)
    ensures exists server, key: Key, raw :: key.ServicePart? && ChangesAgain(server, cs, key, raw)
  {
    var l := LabelsOf(c).value;
    var g := PartGroup(Joined(l));
    var key, service := Target(g).value, Piece(Joined(l), 0);
    var server := OneService(service, "running");
    PartShare(server, c);
    PartFound(server, cs, key);
    GroupsSeen(server, cs, true);
    assert Seen(server, cs, g);
    assert key.ServicePart?;
    hide Found, Groups, Seen, Target, Joined, Piece, NamesPart, ShareOf, LabelsOf, OneService;
    NeverSaved(service, "running", cs, Groups(server, cs, true), key, "exited");
    SavedOnce(service, "running", cs, Groups(server, cs, true), g, key, "exited");
    TwoStatuses();
    assert Final(server, cs, key, "running") == "exited" && Final(server, cs, key, "exited") == "running";
    assert ChangesAgain(server, cs, key, "running");
  }

  lemma TwoStatuses()
    ensures "running" != "exited"
  {
    assert |"running"| != |"exited"|;
  }

  /** Applying the same snapshot again changes nothing, on every server and in every row, exactly when every part that
      some label is taken for is itself named by a container. Of databases this is said if the first of their statuses
      is settled. */
  lemma FinalTwiceExactly(cs: seq<Container>)
    ensures (forall server, key, raw ::
               FirstSettled(key, OwnStatuses(server, cs, key)) ==> !ChangesAgain(server, cs, key, raw))
       <==> AllStraight(cs)
  {
    hide Straight, OwnStatuses;
    if AllStraight(cs) {
      forall server, key, raw | FirstSettled(key, OwnStatuses(server, cs, key))
        ensures !ChangesAgain(server, cs, key, raw)
      {
        FinalTwice(server, cs, key, raw);
      }
    } else {
      hide ChangesAgain;
      var c :| c in cs && !Straight(c, cs);
      CrookedAlternates(cs, c);
    }
  }

  /** Without parentheses in statuses this holds of all resources. */
  lemma FinalTwicePlain(cs: seq<Container>)
    requires forall c :: c in cs ==> ParenthesisFree(c)
    ensures (forall server, key, raw :: !ChangesAgain(server, cs, key, raw)) <==> AllStraight(cs)
  {
    FinalTwiceExactly(cs);
    forall server, key ensures FirstSettled(key, OwnStatuses(server, cs, key)) {
      NoParenthesisSettles(server, cs, key);
    }
    hide OwnStatuses, ChangesAgain, AllStraight, FirstSettled, ParenthesisFree;
  }

  /* The scan by labels. */

  predicate OfPart(c: Container, service: string, key: Key) {
    LabelsOf(c).Some? && LabelsOf(c).value.service == service && KeyNamed(LabelsOf(c).value) == key
  }

  /** The services that containers name for a part, in the order of their first container. */
  function Services(cs: seq<Container>, key: Key): seq<string> {
    if cs == [] then []
    else
      var l, before := LabelsOf(cs[|cs| - 1]), Services(cs[..|cs| - 1], key);
      if l.Some? && KeyNamed(l.value) == key && l.value.service !in before then before + [l.value.service] else before
  }

  /** The last status reported for each named container with these labels. */
  function LabelledStatuses(cs: seq<Container>, service: string, key: Key): map<string, string> {
    if cs == [] then map[]
    else
      var c, before := cs[|cs| - 1], LabelledStatuses(cs[..|cs| - 1], service, key);
      if OfPart(c, service, key) && Named(c) then before[c.compose.value := StatusOf(c)] else before
  }

  function ServiceVerdict(server: Server, cs: seq<Container>, service: string, key: Key): Option<string> {
    if service !in server.serviceExcluded then None
    else
      var statuses := LabelledStatuses(cs, service, key);
      var relevant := Relevant(statuses, server.serviceExcluded[service]);
      if relevant == map[] then server.aggregateExcluded(statuses) else server.aggregate(relevant)
  }

  function LastVerdict(server: Server, cs: seq<Container>, services: seq<string>, key: Key, status: string): string {
    if services == [] then status
    else
      OrElse(ServiceVerdict(server, cs, services[|services| - 1], key),
             LastVerdict(server, cs, services[..|services| - 1], key, status))
  }

  /** The status a service part should end with: exited when no container names it, and otherwise aggregated from the
      containers that name it, service by service. */
  function Scan(server: Server, cs: seq<Container>, part: Part, id: string, status: string): string {
    var key := ServicePart(part, id);
    if Found(server, cs, key) then LastVerdict(server, cs, Services(cs, key), key, status) else "exited"
  }

  lemma JoinedIsOwn(l: Labels, m: Labels)
    requires ColonFree(l) && ColonFree(m) && Joined(l) == Joined(m) && Truthy(l.id) && Truthy(m.id)
    ensures l == m
  {
    TakenForItself(l);
    TakenForItself(m);
    hide Joined, Target, Piece;
  }

  /** The joined label collects exactly the containers with its labels. */
  lemma {:induction false} StatusesByLabels(server: Server, cs: seq<Container>, l: Labels)
    requires AllColonFree(cs) && ColonFree(l) && Truthy(l.id)
    ensures Statuses(server, cs, PartGroup(Joined(l))) == LabelledStatuses(cs, l.service, KeyNamed(l))
  {
    if cs != [] {
      var c := cs[|cs| - 1];
      StatusesByLabels(server, cs[..|cs| - 1], l);
      PartShare(server, c);
      if LabelsOf(c).Some? {
        LabelledIdIsTruthy(c);
        if Joined(LabelsOf(c).value) == Joined(l) {
          JoinedIsOwn(LabelsOf(c).value, l);
        }
      }
      hide ShareOf, LabelsOf, Joined, StatusOf, Named, ColonFree, Truthy;
    }
  }

  lemma VerdictByLabels(server: Server, cs: seq<Container>, l: Labels)
    requires AllColonFree(cs) && ColonFree(l) && Truthy(l.id)
    ensures Verdict(server, PartGroup(Joined(l)), Statuses(server, cs, PartGroup(Joined(l))))
         == ServiceVerdict(server, cs, l.service, KeyNamed(l))
  {
    StatusesByLabels(server, cs, l);
    TakenForItself(l);
    hide Joined, Piece, Statuses, LabelledStatuses, Target, AllColonFree;
  }

  /** The groups before and after one more container. */
  lemma GroupsUnfold(server: Server, cs: seq<Container>)
    requires cs != []
    ensures var c, before := cs[|cs| - 1], Groups(server, cs[..|cs| - 1], true);
            Groups(server, cs, true) ==
              if LabelsOf(c).Some? && PartGroup(Joined(LabelsOf(c).value)) !in before
              then before + [PartGroup(Joined(LabelsOf(c).value))] else before
  {
    var c := cs[|cs| - 1];
    PartShare(server, c);
    assert LabelsOf(c).None? && ShareOf(server, c).InGroup? ==> !ShareOf(server, c).group.PartGroup? by {
      if ShareOf(server, c).InGroup? && ShareOf(server, c).group.PartGroup? {
        assert Joins(ShareOf(server, c), PartGroup(ShareOf(server, c).group.joined));
      }
    }
    hide ShareOf, LabelsOf, Joined;
  }

  lemma {:induction false} MembersMatch(server: Server, cs: seq<Container>, l: Labels)
    requires AllColonFree(cs) && ColonFree(l) && Truthy(l.id)
    ensures l.service in Services(cs, KeyNamed(l)) <==> PartGroup(Joined(l)) in Groups(server, cs, true)
  {
    if cs != [] {
      var c := cs[|cs| - 1];
      MembersMatch(server, cs[..|cs| - 1], l);
      GroupsUnfold(server, cs);
      if LabelsOf(c).Some? {
        LabelledIdIsTruthy(c);
        if Joined(LabelsOf(c).value) == Joined(l) {
          JoinedIsOwn(LabelsOf(c).value, l);
        }
      }
      hide Groups, LabelsOf, Joined, ColonFree, Truthy, AllColonFree;
    }
  }

  lemma OverAppended(server: Server, cs: seq<Container>, groups: seq<Group>, g: Group, key: Key, h: Held)
    ensures Over(server, cs, groups + [g], key, h)
         == var before := Over(server, cs, groups, key, h);
            if Target(g) == Some(key) then Saved(server, key, before, Verdict(server, g, Statuses(server, cs, g)))
            else before
  {
    assert (groups + [g])[..|groups|] == groups;
  }

  lemma LastAppended(server: Server, cs: seq<Container>, services: seq<string>, service: string, key: Key,
                     status: string)
    ensures LastVerdict(server, cs, services + [service], key, status)
         == OrElse(ServiceVerdict(server, cs, service, key), LastVerdict(server, cs, services, key, status))
  {
    assert (services + [service])[..|services|] == services;
  }

  /** The groups taken for a part are those of its services, in the same order. */
  lemma {:induction false} OverByLabels(server: Server, cs: seq<Container>, pre: seq<Container>, key: Key,
                                        status: string)
    requires key.ServicePart? && AllColonFree(cs) && AllColonFree(pre)
    ensures Over(server, cs, Groups(server, pre, true), key, Held(status, status)).row
         == LastVerdict(server, cs, Services(pre, key), key, status)
  {
    if pre != [] {
      var n := |pre| - 1;
      var c, before := pre[n], pre[..n];
      OverByLabels(server, cs, before, key, status);
      GroupsUnfold(server, pre);
      if LabelsOf(c).Some? {
        var l := LabelsOf(c).value;
        LabelledIdIsTruthy(c);
        OneMoreLabel(server, cs, before, l, key, status);
      }
      hide Groups, LabelsOf, Over, LastVerdict, AllColonFree, Joined;
    }
  }

  lemma OneMoreLabel(server: Server, cs: seq<Container>, before: seq<Container>, l: Labels, key: Key, status: string)
    requires key.ServicePart? && AllColonFree(cs) && AllColonFree(before) && ColonFree(l) && Truthy(l.id)
    ensures l.service in Services(before, KeyNamed(l)) <==> PartGroup(Joined(l)) in Groups(server, before, true)
    requires Over(server, cs, Groups(server, before, true), key, Held(status, status)).row
          == LastVerdict(server, cs, Services(before, key), key, status)
    ensures Over(server, cs, Groups(server, before, true) + [PartGroup(Joined(l))], key, Held(status, status)).row
         == if KeyNamed(l) == key then LastVerdict(server, cs, Services(before, key) + [l.service], key, status)
            else LastVerdict(server, cs, Services(before, key), key, status)
  {
    MembersMatch(server, before, l);
    TakenForItself(l);
    OverAppended(server, cs, Groups(server, before, true), PartGroup(Joined(l)), key, Held(status, status));
    OverAgrees(server, cs, Groups(server, before, true), key, status);
    LastAppended(server, cs, Services(before, key), l.service, key, status);
    VerdictByLabels(server, cs, l);
    hide Groups, Over, LastVerdict, Joined, Target, Verdict, ServiceVerdict, Statuses, Services;
    hide AllColonFree, ColonFree;
  }

  /** With colon-free labels every service part ends with the status of the containers that name it. */
  lemma PartEndsAsScanned(server: Server, cs: seq<Container>, part: Part, id: string, status: string)
    requires AllColonFree(cs)
    ensures Final(server, cs, ServicePart(part, id), status) == Scan(server, cs, part, id, status)
  {
    var key := ServicePart(part, id);
    if Found(server, cs, key) {
      OverByLabels(server, cs, cs, key, status);
    } else {
      ColonFreeIsStraight(cs);
      forall g | g in Groups(server, cs, true) ensures Target(g) != Some(key) {
        SweptIsNotAggregated(server, cs, key, true, g);
      }
      hide Groups, Found, AllColonFree, AllStraight;
      OverOthers(server, cs, Groups(server, cs, true), key, Held(status, Swept(key, status)));
    }
  }

  /** A part that all its containers ascribe to one service ends with the status aggregated from its own containers. */
  lemma PartOfOneService(server: Server, cs: seq<Container>, service: string, part: Part, id: string, status: string)
    requires AllColonFree(cs)
    requires Services(cs, ServicePart(part, id)) == [service]
    ensures var key := ServicePart(part, id);
            Final(server, cs, key, status) == OrElse(ServiceVerdict(server, cs, service, key), status)
  {
    var key := ServicePart(part, id);
    PartEndsAsScanned(server, cs, part, id, status);
    ServicesFound(server, cs, key);
    hide Final, ServiceVerdict, Services, AllColonFree;
    assert [service][..0] == [];
    assert LastVerdict(server, cs, [], key, status) == status;
  }

  lemma {:induction false} ServicesFound(server: Server, cs: seq<Container>, key: Key)
    requires key.ServicePart?
    ensures Found(server, cs, key) <==> Services(cs, key) != []
  {
    PartFound(server, cs, key);
    ServicesNamed(cs, key);
  }

  lemma {:induction false} ServicesNamed(cs: seq<Container>, key: Key)
    ensures NamesPart(cs, key) <==> Services(cs, key) != []
    ensures forall c :: c in cs && LabelsOf(c).Some? && KeyNamed(LabelsOf(c).value) == key ==>
              LabelsOf(c).value.service in Services(cs, key)
  {
    if cs != [] {
      var n := |cs| - 1;
      ServicesNamed(cs[..n], key);
      hide LabelsOf;
      assert forall c :: c in cs <==> c in cs[..n] || c == cs[n];
    }
  }

  /* Labels with colons. */

  lemma {:induction false} NotSaved(service: string, status: string, cs: seq<Container>, groups: seq<Group>, key: Key,
                                    h: Held)
    requires forall g :: g in groups && g.PartGroup? && Piece(g.joined, 0) == service ==> Target(g) != Some(key)
    ensures Over(OneService(service, status), cs, groups, key, h) == h
  {
    if groups != [] {
      var g := groups[|groups| - 1];
      NotSaved(service, status, cs, groups[..|groups| - 1], key, h);
      OneVerdict(service, status, g, Statuses(OneService(service, status), cs, g));
      assert g in groups;
      hide Target, Statuses, Verdict, Piece, OneService;
    }
  }

  lemma OneServiceVerdict(cs: seq<Container>, service: string, status: string, other: string, key: Key)
    ensures ServiceVerdict(OneService(service, status), cs, other, key)
         == if other == service then Some(status) else None
  {
    hide LabelledStatuses;
  }

  lemma {:induction false} OneLastVerdict(cs: seq<Container>, service: string, status: string, services: seq<string>,
                                          key: Key, earlier: string)
    requires service in services
    ensures LastVerdict(OneService(service, status), cs, services, key, earlier) == status
  {
    var n := |services| - 1;
    OneServiceVerdict(cs, service, status, services[n], key);
    if service in services[..n] {
      OneLastVerdict(cs, service, status, services[..n], key, earlier);
    } else {
      assert services[n] == service;
    }
  }

  /** The part named by a label with a colon is not given its containers' status. */
  lemma ColonLosesStatus(cs: seq<Container>, c: Container)
    requires c in cs && LabelsOf(c).Some? && !ColonFree(LabelsOf(c).value)
    ensures exists server, part, id, status ::
              Final(server, cs, ServicePart(part, id), status) != Scan(server, cs, part, id, status)
  {
    var l := LabelsOf(c).value;
    var key, server := KeyNamed(l), OneService(l.service, "running");
    PartFound(server, cs, key);
    ServicesNamed(cs, key);
    OneLastVerdict(cs, l.service, "running", Services(cs, key), key, "exited");
    forall g | g in Groups(server, cs, true) && g.PartGroup? && Piece(g.joined, 0) == l.service
      ensures Target(g) != Some(key)
    {
      TakenForAnother(l, g.joined);
    }
    NotSaved(l.service, "running", cs, Groups(server, cs, true), key, Held("exited", "exited"));
    TwoStatuses();
    hide Groups, Found, Over, LastVerdict, Services, OneService, LabelsOf, ColonFree;
    assert Final(server, cs, ServicePart(l.part, l.id), "exited") == "exited";
    assert Scan(server, cs, l.part, l.id, "exited") == "running";
  }

  /** Every service part ends as the scan of all containers for it alone says, on every server and from every status,
      exactly when no service or part label contains a colon. */
  lemma EndsAsScannedExactly(cs: seq<Container>)
    ensures (forall server, part, id, status ::
               Final(server, cs, ServicePart(part, id), status) == Scan(server, cs, part, id, status))
       <==> AllColonFree(cs)
  {
    hide Final, Scan, ColonFree;
    if AllColonFree(cs) {
      forall server, part, id, status
        ensures Final(server, cs, ServicePart(part, id), status) == Scan(server, cs, part, id, status)
      {
        PartEndsAsScanned(server, cs, part, id, status);
      }
    } else {
      var c :| c in cs && LabelsOf(c).Some? && !ColonFree(LabelsOf(c).value);
      ColonLosesStatus(cs, c);
    }
  }

  /** Service 1, part 5:9. */
  function ColonContainer(state: string): Container {
    Container(true, false, Some(state), None, None, None, Some("web"),
              Some("1"), Some(ApplicationPart), Some("5:9"), false)
  }

  lemma ColonIsTakenForFive()
    ensures LabelsOf(ColonContainer("running")) == Some(Labels("1", ApplicationPart, "5:9"))
    ensures var g := PartGroup(Joined(Labels("1", ApplicationPart, "5:9")));
            Target(g) == Some(ServicePart(ApplicationPart, "5")) && Piece(g.joined, 0) == "1"
  {
    var id := "5:9";
    TrimOfTight(id);
    var sort := PartName(ApplicationPart);
    NamesHaveNoColon(ApplicationPart);
    FirstPiece("1", sort + [':'] + id, 0);
    FirstPiece("1", sort + [':'] + id, 1);
    FirstPiece(sort, id, 0);
    assert id == "5" + [':'] + "9";
    FirstPiece("5", "9", 0);
  }

  lemma PartAssigned(server: Server, key: Key, raw: string, verdict: Option<string>)
    requires key.ServicePart?
    ensures AssignedIf(server, key, raw, verdict) == OrElse(verdict, raw)
  {
  }

  /** The row of a part that is swept and is then given the aggregated status of the only group. */
  lemma SweptThenSaved(server: Server, cs: seq<Container>, g: Group, key: Key, raw: string)
    requires key.ServicePart? && !Found(server, cs, key)
    requires Groups(server, cs, true) == [] + [g] && Target(g) == Some(key)
    ensures var verdict := Verdict(server, g, Statuses(server, cs, g));
            Final(server, cs, key, raw)
            == if verdict.Some? && verdict.value != raw then verdict.value else "exited"
  {
    PartAssigned(server, key, raw, Verdict(server, g, Statuses(server, cs, g)));
    hide Target, Verdict, Statuses, Found, Groups, AssignedIf;
    OverAppended(server, cs, [], g, key, Held(raw, Swept(key, raw)));
  }

  /** A snapshot of this one container sweeps part 5 of service 1 and aggregates it: with every aggregated status but
      exited the row of part 5 alternates between that status and exited. */
  lemma ColonLabelAlternates(server: Server)
    ensures var cs, five := [ColonContainer("running")], ServicePart(ApplicationPart, "5");
            var g := PartGroup(Joined(Labels("1", ApplicationPart, "5:9")));
            var verdict := Verdict(server, g, Statuses(server, cs, g));
            verdict.Some? && verdict.value != "exited" ==>
              Final(server, cs, five, verdict.value) == "exited" && Final(server, cs, five, "exited") == verdict.value
  {
    var c := ColonContainer("running");
    var cs, five := [c], ServicePart(ApplicationPart, "5");
    var g := PartGroup(Joined(Labels("1", ApplicationPart, "5:9")));
    ColonIsTakenForFive();
    PartShare(server, c);
    PartFound(server, cs, five);
    hide LabelsOf, Joined, Target, Verdict, Statuses, ShareOf, Found, NamesPart, Piece, Final;
    assert cs[..0] == [];
    assert Groups(server, [], true) == [];
    assert Groups(server, cs, true) == [] + [g];
    var verdict := Verdict(server, g, Statuses(server, cs, g));
    if verdict.Some? {
      SweptThenSaved(server, cs, g, five, verdict.value);
      SweptThenSaved(server, cs, g, five, "exited");
    }
  }
}
