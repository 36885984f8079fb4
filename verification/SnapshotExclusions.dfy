/** What the aggregation reads: the last status of every named container of a group, without the excluded ones. */
module SnapshotExclusions {
  import opened Snapshot
  import opened SnapshotLabels
  import opened Text

  /* What is collected and aggregated. */

  /** Container i is the last named one with this name in the group. */
  ghost predicate LastOf(server: Server, cs: seq<Container>, g: Group, name: string, i: nat) {
    && i < |cs| && Joins(ShareOf(server, cs[i]), g) && name != "" && name != "0" && cs[i].compose == Some(name)
    && forall j :: i < j < |cs| && Joins(ShareOf(server, cs[j]), g) ==> cs[j].compose != Some(name)
  }

  /** A group collects the last status of each name that one of its containers has, and nothing else. */
  lemma {:induction false} StatusesMeaning(server: Server, cs: seq<Container>, g: Group, name: string)
    ensures name in Statuses(server, cs, g) <==> exists i: nat :: LastOf(server, cs, g, name, i)
    ensures forall i: nat :: LastOf(server, cs, g, name, i) ==>
              name in Statuses(server, cs, g) && Statuses(server, cs, g)[name] == StatusOf(cs[i])
  {
    hide ShareOf, StatusOf, Joins;
    if cs != [] {
      var n := |cs| - 1;
      StatusesMeaning(server, cs[..n], g, name);
      if Joins(ShareOf(server, cs[n]), g) && name != "" && name != "0" && cs[n].compose == Some(name) {
        assert LastOf(server, cs, g, name, n);
        forall i: nat | LastOf(server, cs, g, name, i) ensures i == n {
        }
      } else {
        LastOfFirst(server, cs, g, name);
        hide LastOf;
        if i: nat :| LastOf(server, cs[..n], g, name, i) {
          assert LastOf(server, cs, g, name, i);
        }
        forall i: nat | LastOf(server, cs, g, name, i) ensures LastOf(server, cs[..n], g, name, i) && i < n {
        }
      }
    }
  }

  lemma LastOfFirst(server: Server, cs: seq<Container>, g: Group, name: string)
    requires cs != []
    requires var c := cs[|cs| - 1];
             !(Joins(ShareOf(server, c), g) && name != "" && name != "0" && c.compose == Some(name))
    ensures forall i: nat :: LastOf(server, cs, g, name, i)
                        <==> i < |cs| - 1 && LastOf(server, cs[..|cs| - 1], g, name, i)
  {
    hide ShareOf, Joins;
  }

  /** If every collected name is excluded, the variant for excluded containers decides from all of them; otherwise the
      aggregator gets exactly the names that are not excluded. */
  lemma VerdictMeaning(server: Server, g: Group, statuses: map<string, string>, excluded: set<string>)
    requires Exclusions(server, g) == Some(excluded)
    ensures (forall name :: name in statuses ==> name in excluded) ==>
              Verdict(server, g, statuses) == server.aggregateExcluded(statuses)
    ensures (exists name :: name in statuses && name !in excluded) ==>
              Verdict(server, g, statuses)
              == server.aggregate(map name | name in statuses && name !in excluded :: statuses[name])
  {
    var kept := map name | name in statuses && name !in excluded :: statuses[name];
    assert Relevant(statuses, excluded) == kept;
    if name :| name in statuses && name !in excluded {
      assert name in kept;
    }
  }

  /** A group without a known resource or service has no result. */
  lemma UnknownHasNoVerdict(server: Server, g: Group, statuses: map<string, string>)
    ensures g.AppGroup? && g.id !in server.excluded ==> Verdict(server, g, statuses) == None
    ensures g.PartGroup? && Piece(g.joined, 0) !in server.serviceExcluded ==> Verdict(server, g, statuses) == None
  {
    hide Piece;
  }

  /* What an excluded container reports. */

  /** The same container with another state and health. */
  predicate OtherReport(c: Container, d: Container) {
    d == c.(state := d.state, health := d.health)
  }

  lemma SameShare(server: Server, c: Container, d: Container)
    requires OtherReport(c, d) && ShareOf(server, c).InGroup?
    ensures ShareOf(server, d) == ShareOf(server, c)
  {
    hide StatusOf, Running, ActiveOrTransient, Joined, Truthy, Trim;
  }

  ghost predicate SameShares(server: Server, cs: seq<Container>, ds: seq<Container>) {
    |ds| == |cs| && forall i :: 0 <= i < |cs| ==> ShareOf(server, ds[i]) == ShareOf(server, cs[i])
  }

  lemma {:induction false} SameGroups(server: Server, cs: seq<Container>, ds: seq<Container>, ofParts: bool)
    requires SameShares(server, cs, ds)
    ensures Groups(server, ds, ofParts) == Groups(server, cs, ofParts)
  {
    hide ShareOf;
    if cs != [] {
      SameGroups(server, cs[..|cs| - 1], ds[..|ds| - 1], ofParts);
    }
  }

  lemma SameFound(server: Server, cs: seq<Container>, ds: seq<Container>, key: Key, g: Group)
    requires SameShares(server, cs, ds)
    ensures Found(server, ds, key) == Found(server, cs, key) && Seen(server, ds, g) == Seen(server, cs, g)
  {
    hide ShareOf, KeyOf, Joins;
    if c :| c in cs && KeyOf(ShareOf(server, c)) == Some(key) {
      var i :| 0 <= i < |cs| && cs[i] == c;
      assert ds[i] in ds;
    }
    if c :| c in ds && KeyOf(ShareOf(server, c)) == Some(key) {
      var i :| 0 <= i < |ds| && ds[i] == c;
      assert cs[i] in cs;
    }
    if c :| c in cs && Joins(ShareOf(server, c), g) {
      var i :| 0 <= i < |cs| && cs[i] == c;
      assert ds[i] in ds;
    }
    if c :| c in ds && Joins(ShareOf(server, c), g) {
      var i :| 0 <= i < |ds| && ds[i] == c;
      assert cs[i] in cs;
    }
  }

  lemma {:induction false} SameOwn(server: Server, cs: seq<Container>, i: nat, d: Container, key: Key)
    requires i < |cs| && OtherReport(cs[i], d) && ShareOf(server, cs[i]).InGroup?
    ensures OwnStatuses(server, cs[i := d], key) == OwnStatuses(server, cs, key)
  {
    SameShare(server, cs[i], d);
    hide ShareOf, StatusOf;
    var n := |cs| - 1;
    if i < n {
      assert cs[i := d][..n] == cs[..n][i := d];
      SameOwn(server, cs[..n], i, d, key);
    } else {
      assert cs[i := d][..n] == cs[..n];
    }
  }

  /** Only this name's status in this container's group can differ. */
  ghost predicate DiffersAt(a: map<string, string>, b: map<string, string>, name: string) {
    a.Keys == b.Keys && forall n :: n in a && n != name ==> a[n] == b[n]
  }

  lemma DiffersOn(a: map<string, string>, b: map<string, string>, name: string, n: string, v: string, w: string)
    requires DiffersAt(a, b, name) && (n == name || v == w)
    ensures DiffersAt(a[n := v], b[n := w], name)
  {
  }

  lemma {:induction false} OtherStatuses(server: Server, cs: seq<Container>, i: nat, d: Container, g: Group)
    requires i < |cs| && OtherReport(cs[i], d) && ShareOf(server, cs[i]).InGroup? && Named(cs[i])
    ensures DiffersAt(Statuses(server, cs, g), Statuses(server, cs[i := d], g), cs[i].compose.value)
    ensures !Joins(ShareOf(server, cs[i]), g) ==> Statuses(server, cs[i := d], g) == Statuses(server, cs, g)
  {
    SameShare(server, cs[i], d);
    hide ShareOf, StatusOf, Joins, Truthy, DiffersAt;
    var n := |cs| - 1;
    var c, name := cs[n], cs[i].compose.value;
    var before := Statuses(server, cs[..n], g);
    if i < n {
      assert cs[i := d][..n] == cs[..n][i := d] && cs[i := d][n] == c;
      OtherStatuses(server, cs[..n], i, d, g);
      if Named(c) {
        DiffersOn(before, Statuses(server, cs[..n][i := d], g), name, c.compose.value, StatusOf(c), StatusOf(c));
      }
    } else {
      assert cs[i := d][..n] == cs[..n] && cs[i := d][n] == d;
      NeverDiffers(before, name);
      DiffersOn(before, before, name, name, StatusOf(c), StatusOf(d));
    }
  }

  lemma NeverDiffers(a: map<string, string>, name: string)
    ensures DiffersAt(a, a, name)
  {
  }

  /** What an excluded container reports changes no result, as long as its group has a name that is not excluded. */
  lemma SameVerdicts(server: Server, cs: seq<Container>, i: nat, d: Container, excluded: set<string>, other: string)
    requires i < |cs| && OtherReport(cs[i], d) && ShareOf(server, cs[i]).InGroup? && Named(cs[i])
    requires var g := ShareOf(server, cs[i]).group;
             && Exclusions(server, g) == Some(excluded) && cs[i].compose.value in excluded
             && other in Statuses(server, cs, g) && other !in excluded
    ensures var ds := cs[i := d];
            forall h :: Verdict(server, h, Statuses(server, ds, h)) == Verdict(server, h, Statuses(server, cs, h))
  {
    var g := ShareOf(server, cs[i]).group;
    forall h
      ensures Verdict(server, h, Statuses(server, cs[i := d], h)) == Verdict(server, h, Statuses(server, cs, h))
    {
      OtherStatuses(server, cs, i, d, h);
      if h == g {
        var a, b := Statuses(server, cs, g), Statuses(server, cs[i := d], g);
        hide ShareOf, Statuses, Exclusions;
        assert Relevant(a, excluded) == Relevant(b, excluded);
        assert other in Relevant(a, excluded);
      }
    }
  }

  lemma {:induction false} SameOver(server: Server, cs: seq<Container>, ds: seq<Container>, groups: seq<Group>,
                                    key: Key, h: Held)
    requires forall g :: Verdict(server, g, Statuses(server, ds, g)) == Verdict(server, g, Statuses(server, cs, g))
    ensures Over(server, ds, groups, key, h) == Over(server, cs, groups, key, h)
  {
    hide Verdict, Statuses, Target, AssignedIf;
    if groups != [] {
      SameOver(server, cs, ds, groups[..|groups| - 1], key, h);
    }
  }

  /** What an excluded container reports changes no resource's final row, as long as its group has a name that is not
      excluded. */
  lemma ExcludedDoesNotMatter(server: Server, cs: seq<Container>, i: nat, d: Container, excluded: set<string>,
                              other: string, key: Key, raw: string)
    requires i < |cs| && OtherReport(cs[i], d) && ShareOf(server, cs[i]).InGroup? && Named(cs[i])
    requires var g := ShareOf(server, cs[i]).group;
             && Exclusions(server, g) == Some(excluded) && cs[i].compose.value in excluded
             && other in Statuses(server, cs, g) && other !in excluded
    ensures Final(server, cs[i := d], key, raw) == Final(server, cs, key, raw)
  {
    var ds := cs[i := d];
    SameShare(server, cs[i], d);
    assert SameShares(server, cs, ds);
    SameVerdicts(server, cs, i, d, excluded, other);
    SameOwn(server, cs, i, d, key);
    SameGroups(server, cs, ds, true);
    SameFound(server, cs, ds, key, if key.App? then AppGroup(key.id) else PartGroup(""));
    SameOver(server, cs, ds, Groups(server, cs, true), key, PartSwept(server, cs, key, raw));
    hide Verdict, Statuses, Found, Seen, Groups, OwnStatuses, ShareOf, Over, Exclusions, Named, Swept, AssignedAll;
  }

  /** For an application, by the labels of its containers. */
  lemma ExcludedOfApplication(server: Server, cs: seq<Container>, i: nat, j: nat, id: string, d: Container, key: Key,
                              raw: string)
    requires i < |cs| && j < |cs| && OtherReport(cs[i], d) && id in server.excluded
    requires OfApplication(cs[i], id) && Named(cs[i]) && cs[i].compose.value in server.excluded[id]
    requires OfApplication(cs[j], id) && Named(cs[j]) && cs[j].compose.value !in server.excluded[id]
    ensures Final(server, cs[i := d], key, raw) == Final(server, cs, key, raw)
  {
    var g, name := AppGroup(id), cs[j].compose.value;
    hide Statuses, Final, Running, ActiveOrTransient, Joined, Truthy;
    CollectedName(server, cs, g, j);
    ExcludedDoesNotMatter(server, cs, i, d, server.excluded[id], name, key, raw);
  }

  /** A managed container of the application itself, not of a pull request. */
  predicate OfApplication(c: Container, id: string) {
    c.managed && c.application == Some(id) && (c.pullRequest == None || c.pullRequest == Some("0"))
  }

  lemma CollectedName(server: Server, cs: seq<Container>, g: Group, j: nat)
    requires j < |cs| && Joins(ShareOf(server, cs[j]), g) && Named(cs[j])
    ensures cs[j].compose.value in Statuses(server, cs, g)
    decreases |cs|
  {
    hide ShareOf, StatusOf, Joins, Truthy;
    var n := |cs| - 1;
    if j < n {
      assert cs[..n][j] == cs[j];
      CollectedName(server, cs[..n], g, j);
    }
  }

  /** For a service part, by the labels of its containers. */
  lemma ExcludedOfPart(server: Server, cs: seq<Container>, i: nat, j: nat, l: Labels, d: Container, key: Key,
                       raw: string)
    requires i < |cs| && j < |cs| && OtherReport(cs[i], d) && l.service in server.serviceExcluded && ColonFree(l)
    requires LabelsOf(cs[i]) == Some(l) && Named(cs[i]) && cs[i].compose.value in server.serviceExcluded[l.service]
    requires LabelsOf(cs[j]) == Some(l) && Named(cs[j]) && cs[j].compose.value !in server.serviceExcluded[l.service]
    ensures Final(server, cs[i := d], key, raw) == Final(server, cs, key, raw)
  {
    var g, name := PartGroup(Joined(l)), cs[j].compose.value;
    PartShare(server, cs[i]);
    PartShare(server, cs[j]);
    LabelledIdIsTruthy(cs[i]);
    TakenForItself(l);
    hide Statuses, Final, ShareOf, Joined, Truthy, Piece, LabelsOf, Target;
    CollectedName(server, cs, g, j);
    ExcludedDoesNotMatter(server, cs, i, d, server.serviceExcluded[l.service], name, key, raw);
  }
}
