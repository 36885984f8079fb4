/** What single reports mean, in the reported words themselves. */
module SnapshotMeaning {
  import opened Snapshot
  import opened SnapshotExclusions
  import opened SnapshotLabels
  import opened SnapshotStatuses
  import opened StatusText
  import opened Text

  /** A container that reports no state is exited, an exited one has no health, and all others have one. */
  lemma ReportedTexts(c: Container, state: string, health: string)
    ensures c.state == None || c.state == Some("exited") ==> StatusOf(c) == "exited"
    ensures c.state == Some(state) && state != "exited" && c.health == Some(health) ==>
              StatusOf(c) == state + ":" + health
    ensures c.state == Some(state) && state != "exited" && c.health == None ==> StatusOf(c) == state + ":unknown"
  {
    assert state + ":" + "unknown" == state + ":unknown";
  }

  lemma Begins(word: string, rest: string)
    ensures Contains(word + rest, word)
  {
    assert (word + rest)[0..] == word + rest;
  }

  lemma LacksAll(s: string)
    requires 'r' !in s && 's' !in s && 'c' !in s && 'p' !in s
    ensures !ActiveOrTransient(s)
  {
    LacksFirst(s, "running", 'r');
    LacksFirst(s, "restarting", 'r');
    LacksFirst(s, "starting", 's');
    LacksFirst(s, "created", 'c');
    LacksFirst(s, "paused", 'p');
  }

  lemma LacksFirst(s: string, part: string, first: char)
    requires part != [] && part[0] == first && first !in s
    ensures !Contains(s, part)
  {
    forall i | 0 <= i <= |s| ensures !(part <= s[i..]) {
      assert i < |s| ==> s[i..][0] == s[i] && s[i] in s;
    }
  }

  /** A database is tracked while it runs, restarts, starts, is created or paused, and not when it is exited or dead. */
  lemma TrackedStates(health: string)
    ensures ActiveOrTransient("running" + ":" + health) && ActiveOrTransient("restarting" + ":" + health)
    ensures ActiveOrTransient("starting" + ":" + health) && ActiveOrTransient("created" + ":" + health)
    ensures ActiveOrTransient("paused" + ":" + health)
    ensures !ActiveOrTransient("exited") && !ActiveOrTransient("dead:unknown")
  {
    Tracked("running", health);
    Tracked("restarting", health);
    Tracked("starting", health);
    Tracked("created", health);
    Tracked("paused", health);
    ExitedIsNoActivity();
    LacksAll("dead:unknown");
  }

  lemma Tracked(word: string, health: string)
    ensures Contains(word + ":" + health, word)
  {
    Begins(word, ":" + health);
    assert word + ":" + health == word + (":" + health);
  }

  /* What becomes of resources that no container names. */

  /** A resource that no container names ends exited, unless its row reads so already: a database with its health, a
      service part without, and an application with additional servers keeps its row. */
  lemma UnnamedEnds(server: Server, cs: seq<Container>, key: Key, raw: string)
    requires AllStraight(cs) && !Found(server, cs, key)
    ensures match key
            case App(id) =>
              Final(server, cs, key, raw)
              == if id in server.singles && !("exited" <= raw) then "exited" else raw
            case Preview(_, _) => Final(server, cs, key, raw) == if "exited" <= raw then raw else "exited"
            case Database(_) =>
              Final(server, cs, key, raw) == if "exited" <= Normal(raw) then raw else "exited:unhealthy"
            case ServicePart(_, _) => Final(server, cs, key, raw) == "exited"
  {
    ExitedIsNormal();
    match key
    case App(id) =>
      if Seen(server, cs, AppGroup(id)) {
        var c :| c in cs && Joins(ShareOf(server, c), AppGroup(id));
        AppShare(server, c);
      }
    case ServicePart(_, _) =>
      var groups := Groups(server, cs, true);
      forall g | g in groups ensures Target(g) != Some(key) {
        SweptIsNotAggregated(server, cs, key, true, g);
      }
      hide Found, Groups;
      OverOthers(server, cs, groups, key, Held(raw, "exited"));
    case _ =>
  }

  /** The containers that stand for no resource: those not managed; those of a service without a part's sort or with
      its number missing, empty or 0; running ones of the proxy or of a service; and others that are no tracked
      database. */
  predicate Ignored(server: Server, c: Container) {
    || !c.managed
    || (c.application == None && c.service != None
        && (c.part == None || c.partId == None || Trim(c.partId.value) == "" || Trim(c.partId.value) == "0"))
    || (c.application == None && c.service == None
        && ((Contains(StatusOf(c), "running") && (c.isProxy || c.isServiceType))
            || c.compose == None || c.compose.value !in server.databases || !ActiveOrTransient(StatusOf(c))))
  }

  /** They change nothing, wherever a snapshot ends with one. */
  lemma IgnoredDoesNotMatter(server: Server, cs: seq<Container>, c: Container, key: Key, raw: string)
    requires Ignored(server, c)
    ensures Final(server, cs + [c], key, raw) == Final(server, cs, key, raw)
  {
    IgnoredShares(server, c);
    hide Ignored, ShareOf, StatusOf;
    var ds := cs + [c];
    assert ds[..|cs|] == cs;
    assert OwnStatuses(server, ds, key) == OwnStatuses(server, cs, key);
    assert Groups(server, ds, true) == Groups(server, cs, true);
    forall g ensures Statuses(server, ds, g) == Statuses(server, cs, g) {
    }
    SameOver(server, cs, ds, Groups(server, cs, true), key, PartSwept(server, cs, key, raw));
    hide Verdict, Statuses, Groups, OwnStatuses, Over, Swept, AssignedAll, AssignedIf;
    assert forall d :: d in ds <==> d in cs || d == c;
  }

  lemma IgnoredShares(server: Server, c: Container)
    ensures Ignored(server, c) <==> ShareOf(server, c) == Nothing
  {
    hide StatusOf, ActiveOrTransient, Joined, Trim, Contains;
  }

  /* What becomes of previews and databases that a container reports. */

  /** A preview ends with the status that its last container reports. */
  lemma PreviewEnds(server: Server, cs: seq<Container>, c: Container, id: string, pr: string, raw: string)
    requires c.managed && c.application == Some(id) && c.pullRequest == Some(pr) && pr != "0"
    ensures Final(server, cs + [c], Preview(id, pr), raw) == StatusOf(c)
  {
    LastOwn(server, cs, c, Preview(id, pr));
    ShowsLast(server, cs + [c], Preview(id, pr), raw);
  }

  /** A database shows the status that its last tracked container reports, if the accessor leaves that alone. */
  lemma DatabaseShows(server: Server, cs: seq<Container>, c: Container, uuid: string, raw: string)
    requires c.managed && c.application == None && c.service == None && c.compose == Some(uuid)
    requires uuid in server.databases && ActiveOrTransient(StatusOf(c))
    requires !Contains(StatusOf(c), "running") || (!c.isProxy && !c.isServiceType)
    requires Normal(StatusOf(c)) == StatusOf(c)
    ensures Normal(Final(server, cs + [c], Database(uuid), raw)) == StatusOf(c)
  {
    hide ActiveOrTransient, StatusOf, Contains;
    LastOwn(server, cs, c, Database(uuid));
    hide Final, Normal;
    ShowsLast(server, cs + [c], Database(uuid), raw);
  }

  lemma LastOwn(server: Server, cs: seq<Container>, c: Container, key: Key)
    requires ShareOf(server, c) == OfPreview(key) || ShareOf(server, c) == OfDatabase(key)
    ensures var own := OwnStatuses(server, cs + [c], key); own != [] && own[|own| - 1] == StatusOf(c)
  {
    hide ShareOf, StatusOf;
    assert (cs + [c])[..|cs|] == cs;
  }

  /* What becomes of applications that some container names. */

  /** The row of an application with containers: the aggregator's answer for the names that are not excluded, or the
      variant's for all of them if every name is excluded, written unless the model reads so already. */
  lemma ApplicationEnds(server: Server, cs: seq<Container>, id: string, raw: string)
    requires Seen(server, cs, AppGroup(id)) && id in server.excluded
    ensures var statuses, excluded := Statuses(server, cs, AppGroup(id)), server.excluded[id];
            var kept := map name | name in statuses && name !in excluded :: statuses[name];
            Final(server, cs, App(id), raw)
            == AssignedIf(server, App(id), raw,
                          if exists name :: name in statuses && name !in excluded then server.aggregate(kept)
                          else server.aggregateExcluded(statuses))
  {
    VerdictMeaning(server, AppGroup(id), Statuses(server, cs, AppGroup(id)), server.excluded[id]);
    hide Statuses, Verdict, Seen, AssignedIf;
  }
}
