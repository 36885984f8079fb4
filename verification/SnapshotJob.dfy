/** The server update job: one pass over the containers that fills found-lists and status collections, then sweeps and
    aggregation. Rows and loaded models are kept as raw attributes. */
module SnapshotJob {
  import opened Snapshot
  import opened StatusText
  import opened Text

  /** A PHP collection keyed by group: the keys in insertion order, and what they hold. */
  datatype Collection = Collection(keys: seq<Group>, at: map<Group, map<string, string>>)

  ghost predicate Collects(server: Server, cs: seq<Container>, ofParts: bool, o: Collection) {
    && o.keys == Groups(server, cs, ofParts)
    && (forall g :: g in o.at <==> g in o.keys)
    && (forall g :: g in o.at ==> o.at[g] == Statuses(server, cs, g))
  }

  /** put an empty collection if there is none, then put the status under the container's name. */
  function Record(o: Collection, g: Group, c: Container): Collection {
    var o' := if g in o.at then o else Collection(o.keys + [g], o.at[g := map[]]);
    if Named(c) then o'.(at := o'.at[g := o'.at[g][c.compose.value := StatusOf(c)]]) else o'
  }

  function Recorded(server: Server, c: Container, ofParts: bool, o: Collection): Collection {
    var share := ShareOf(server, c);
    if share.InGroup? && share.group.PartGroup? == ofParts then Record(o, share.group, c) else o
  }

  lemma StatusesGrow(server: Server, cs: seq<Container>, c: Container, g: Group)
    ensures Statuses(server, cs + [c], g) ==
              if Joins(ShareOf(server, c), g) && Named(c)
              then Statuses(server, cs, g)[c.compose.value := StatusOf(c)] else Statuses(server, cs, g)
  {
    assert (cs + [c])[..|cs|] == cs;
  }

  lemma GroupsGrow(server: Server, cs: seq<Container>, c: Container, ofParts: bool)
    ensures Groups(server, cs + [c], ofParts) ==
              var share, before := ShareOf(server, c), Groups(server, cs, ofParts);
              if share.InGroup? && share.group.PartGroup? == ofParts && share.group !in before
              then before + [share.group] else before
  {
    assert (cs + [c])[..|cs|] == cs;
  }

  lemma CollectsStep(server: Server, cs: seq<Container>, c: Container, ofParts: bool, o: Collection)
    requires Collects(server, cs, ofParts, o)
    ensures Collects(server, cs + [c], ofParts, Recorded(server, c, ofParts, o))
  {
    hide ShareOf, StatusOf, Named, Statuses, Groups, Seen;
    var o' := Recorded(server, c, ofParts, o);
    var share := ShareOf(server, c);
    GroupsGrow(server, cs, c, ofParts);
    GroupsSeen(server, cs, ofParts);
    if share.InGroup? && share.group.PartGroup? == ofParts && share.group !in o.at {
      UnseenHasNoStatuses(server, cs, share.group);
    }
    forall g | g in o'.at ensures o'.at[g] == Statuses(server, cs + [c], g) {
      StatusesGrow(server, cs, c, g);
    }
  }

  lemma {:induction false} UnseenHasNoStatuses(server: Server, cs: seq<Container>, g: Group)
    requires !Seen(server, cs, g)
    ensures Statuses(server, cs, g) == map[]
  {
    if cs != [] {
      SeenStep(server, cs, g);
      UnseenHasNoStatuses(server, cs[..|cs| - 1], g);
    }
  }

  /** What the pass itself has done to a resource. */
  function Passed(server: Server, cs: seq<Container>, key: Key, raw: string): string {
    if key.Preview? || key.Database? then AssignedAll(server, key, raw, OwnStatuses(server, cs, key)) else raw
  }

  ghost predicate KeepsKeys(before: map<Key, string>, now: map<Key, string>) {
    forall key :: key in now <==> key in before
  }

  ghost predicate AllPassed(server: Server, cs: seq<Container>, before: map<Key, string>, now: map<Key, string>) {
    KeepsKeys(before, now) && forall key :: key in now ==> now[key] == Passed(server, cs, key, before[key])
  }

  /** A status assigned to one resource, if there is such a row. */
  function Written(server: Server, rows: map<Key, string>, key: Key, status: string): map<Key, string> {
    if key in rows then rows[key := Assigned(server, key, rows[key], status)] else rows
  }

  function WrittenBy(server: Server, c: Container, rows: map<Key, string>): map<Key, string> {
    match ShareOf(server, c)
    case OfPreview(key) => Written(server, rows, key, StatusOf(c))
    case OfDatabase(key) => Written(server, rows, key, StatusOf(c))
    case _ => rows
  }

  lemma OwnStatusesGrow(server: Server, cs: seq<Container>, c: Container, key: Key)
    ensures OwnStatuses(server, cs + [c], key) ==
              if ShareOf(server, c) == OfPreview(key) || ShareOf(server, c) == OfDatabase(key)
              then OwnStatuses(server, cs, key) + [StatusOf(c)] else OwnStatuses(server, cs, key)
  {
    hide ShareOf, StatusOf;
    assert (cs + [c])[..|cs|] == cs;
  }

  lemma AssignedGrow(server: Server, key: Key, raw: string, statuses: seq<string>, status: string)
    ensures AssignedAll(server, key, raw, statuses + [status])
         == Assigned(server, key, AssignedAll(server, key, raw, statuses), status)
  {
    hide Assigned;
    assert (statuses + [status])[..|statuses|] == statuses;
  }

  lemma PassedStep(server: Server, cs: seq<Container>, c: Container, before: map<Key, string>, now: map<Key, string>)
    requires AllPassed(server, cs, before, now)
    ensures AllPassed(server, cs + [c], before, WrittenBy(server, c, now))
  {
    SharesOwnKeys(server, c);
    hide ShareOf, StatusOf, Assigned, AssignedAll, OwnStatuses;
    var now' := WrittenBy(server, c, now);
    forall key | key in now' ensures now'[key] == Passed(server, cs + [c], key, before[key]) {
      OwnStatusesGrow(server, cs, c, key);
      AssignedGrow(server, key, before[key], OwnStatuses(server, cs, key), StatusOf(c));
    }
  }

  lemma SharesOwnKeys(server: Server, c: Container)
    ensures var share := ShareOf(server, c);
            && (share.OfPreview? ==> share.key.Preview?)
            && (share.OfDatabase? ==> share.key.Database?)
            && (share.InGroup? && share.group.AppGroup? ==> share.named == App(share.group.id))
            && (share.InGroup? && share.group.PartGroup? ==> share.named.ServicePart?)
  {
    hide StatusOf, Running, ActiveOrTransient, Truthy, Joined;
  }

  lemma FoundStep(server: Server, cs: seq<Container>, c: Container, key: Key)
    ensures Found(server, cs + [c], key) <==> Found(server, cs, key) || KeyOf(ShareOf(server, c)) == Some(key)
  {
    hide ShareOf;
    assert forall d :: d in cs + [c] <==> d in cs || d == c;
  }

  class UpdateJob {
    const server: Server
    /** The rows, and the attributes of the models the job loaded from them. */
    var stored: map<Key, string>
    var memory: map<Key, string>
    var foundApplications: seq<Key>
    var foundPreviews: seq<Key>
    var foundDatabases: seq<Key>
    var foundParts: seq<Key>
    var applicationStatuses: Collection
    var serviceStatuses: Collection

    constructor (server: Server, stored: map<Key, string>)
      requires Matches(server, stored)
      ensures Valid() && this.server == server && this.stored == stored
    {
      this.server, this.stored, memory := server, stored, stored;
      foundApplications, foundPreviews, foundDatabases, foundParts := [], [], [], [];
      applicationStatuses, serviceStatuses := Collection([], map[]), Collection([], map[]);
    }

    /** The rows are those of the server's resources. */
    ghost predicate Valid()
      reads this
    {
      Matches(server, stored) && KeepsKeys(stored, memory)
    }

    function FoundList(key: Key): seq<Key>
      reads this
    {
      match key
      case App(_) => foundApplications
      case Preview(_, _) => foundPreviews
      case Database(_) => foundDatabases
      case ServicePart(_, _) => foundParts
    }

    predicate Sweepable(key: Key)
      reads this
    {
      key in stored && InSweep(server, key)
    }

    /** The found-lists hold exactly the sweepable resources that some of these containers name. */
    ghost predicate Listed(cs: seq<Container>)
      reads this
    {
      forall key :: Sweepable(key) ==> (key in FoundList(key) <==> Found(server, cs, key))
    }

    /** Assigns a status that differs from the one the model reads, and saves the model if its attribute has changed. */
    method UpdateStatus(key: Key, status: string)
      modifies `memory, `stored
      ensures memory == Written(server, old(memory), key, status)
      ensures stored == if key in memory && memory[key] != old(memory)[key] then old(stored)[key := memory[key]]
                        else old(stored)
    {
      if key in memory && Read(server, key, memory[key]) != status {
        var raw := Write(key, status);
        if raw != memory[key] {
          memory := memory[key := raw];
          stored := stored[key := raw];
        }
      }
    }

    /** One iteration of the container loop. */
    method ProcessContainer(c: Container)
      requires Valid() && memory == stored
      modifies this
      ensures Valid() && memory == stored == WrittenBy(server, c, old(stored))
      ensures KeepsKeys(old(stored), stored)
      ensures applicationStatuses == Recorded(server, c, false, old(applicationStatuses))
      ensures serviceStatuses == Recorded(server, c, true, old(serviceStatuses))
      ensures forall key :: Sweepable(key) ==>
                (key in FoundList(key) <==> key in old(FoundList(key)) || KeyOf(ShareOf(server, c)) == Some(key))
    {
      hide Running, ActiveOrTransient, Trim, Contains, Joined, Truthy, Named, StatusOf, Read, Write;
      var status := StatusOf(c);
      if !c.managed { return; }
      if c.application.Some? {
        var pr := OrElse(c.pullRequest, "0");
        if pr == "0" {
          var key := App(c.application.value);
          if c.application.value in server.singles {
            foundApplications := foundApplications + [key];
          }
          applicationStatuses := Record(applicationStatuses, AppGroup(c.application.value), c);
        } else {
          var key := Preview(c.application.value, pr);
          if key in stored {
            foundPreviews := foundPreviews + [key];
          }
          UpdateStatus(key, status);
        }
      } else if c.service.Some? {
        if c.partId.None? || !Truthy(Trim(c.partId.value)) { return; }
        if c.part.Some? {
          var labels := Labels(c.service.value, c.part.value, c.partId.value);
          foundParts := foundParts + [KeyNamed(labels)];
          serviceStatuses := Record(serviceStatuses, PartGroup(Joined(labels)), c);
        }
      } else {
        if c.isProxy && Running(status) {
        } else if c.isServiceType && Running(status) {
        } else if c.compose.Some? && c.compose.value in server.databases && ActiveOrTransient(status) {
          var key := Database(c.compose.value);
          foundDatabases := foundDatabases + [key];
          UpdateStatus(key, status);
        }
      }
    }

    /** The container loop. */
    method ProcessContainers(containers: seq<Container>)
      requires Valid() && memory == stored
      requires foundApplications == [] && foundPreviews == [] && foundDatabases == [] && foundParts == []
      requires applicationStatuses == Collection([], map[]) && serviceStatuses == Collection([], map[])
      modifies this
      ensures Valid() && memory == stored
      ensures AllPassed(server, containers, old(stored), stored) && Listed(containers)
      ensures Collects(server, containers, false, applicationStatuses)
      ensures Collects(server, containers, true, serviceStatuses)
    {
      hide ShareOf, Found, Collects, AllPassed, Recorded, WrittenBy, KeyOf;
      assert containers[..0] == [];
      Beginnings(server, stored);
      for i := 0 to |containers|
        invariant Valid() && memory == stored
        invariant AllPassed(server, containers[..i], old(stored), stored) && Listed(containers[..i])
        invariant Collects(server, containers[..i], false, applicationStatuses)
        invariant Collects(server, containers[..i], true, serviceStatuses)
      {
        assert containers[..i + 1] == containers[..i] + [containers[i]];
        LoopStep(server, containers[..i], containers[i], applicationStatuses, serviceStatuses, old(stored), stored);
        ProcessContainer(containers[i]);
      }
      assert containers[..|containers|] == containers;
    }

    /* The sweeps. */

    /** One statement updates the rows, past the accessor; the loaded models keep their status. */
    method UpdateNotFoundApplicationStatus()
      modifies `stored
      ensures stored == SweptRows(server, Apps, foundApplications, old(stored))
    {
      stored := map key | key in stored ::
        if key.App? && key.id in server.singles && key !in foundApplications && !Exited(stored[key])
        then "exited" else stored[key];
    }

    /** The rows to update are chosen by the loaded status. */
    method UpdateNotFoundApplicationPreviewStatus()
      requires forall key :: key in stored && key.Preview? ==> key in memory && memory[key] == stored[key]
      modifies `stored
      ensures stored == SweptRows(server, Previews, foundPreviews, old(stored))
    {
      var chosen := set key | key in memory && key.Preview? && key !in foundPreviews && !Exited(memory[key]);
      stored := map key | key in stored :: if key in chosen then "exited" else stored[key];
    }

    /** Each database is read and updated on its own through its model. */
    method UpdateNotFoundDatabaseStatus()
      requires KeepsKeys(stored, memory)
      requires forall key :: key in stored && key.Database? ==> memory[key] == stored[key]
      modifies `stored, `memory
      ensures stored == SweptRows(server, Databases, foundDatabases, old(stored))
      ensures memory == SweptRows(server, Databases, foundDatabases, old(memory))
    {
      var rest := set key | key in memory && key.Database? && key !in foundDatabases;
      SweptButAll(server, foundDatabases, rest, memory);
      SweptButAll(server, foundDatabases, rest, stored);
      assert ToCome(foundDatabases, rest, memory, stored);
      hide SweptBut, SweptRows, Normal, Exited, ToCome;
      while rest != {}
        invariant ToCome(foundDatabases, rest, old(memory), old(stored))
        invariant stored == SweptBut(foundDatabases, rest, old(stored))
        invariant memory == SweptBut(foundDatabases, rest, old(memory))
      {
        var key :| key in rest;
        SweptTablesOne(foundDatabases, rest, old(memory), old(stored), key);
        rest := rest - {key};
        if !Exited(Read(server, key, memory[key])) {
          var raw := Write(key, "exited");
          memory := memory[key := raw];
          stored := stored[key := raw];
        }
      }
      SweptButNone(server, foundDatabases, old(memory));
      SweptButNone(server, foundDatabases, old(stored));
    }

    method UpdateNotFoundServiceStatus()
      modifies `stored
      ensures stored == SweptRows(server, Parts, foundParts, old(stored))
    {
      stored := map key | key in stored ::
        if key.ServicePart? && key !in foundParts && stored[key] != "exited" then "exited" else stored[key];
    }

    /** The four sweeps. */
    method Sweep(ghost cs: seq<Container>)
      requires Matches(server, stored) && memory == stored && Listed(cs)
      modifies `stored, `memory
      ensures SweptTables(server, cs, old(stored), Tables(memory, stored))
    {
      hide SweptRows, Swept, Found, Matches;
      AllSwept(server, foundApplications, foundPreviews, foundDatabases, foundParts, stored);
      UpdateNotFoundApplicationStatus();
      UpdateNotFoundApplicationPreviewStatus();
      UpdateNotFoundDatabaseStatus();
      UpdateNotFoundServiceStatus();
    }

    /* The aggregation. */

    /** One group's turn in either aggregation loop: the group's key is split, its resource is looked up, and a result
        that differs from the status the loaded model reads is saved. */
    method AggregateGroup(g: Group, statuses: map<string, string>)
      modifies `stored, `memory
      ensures Tables(memory, stored) == Decided(server, g, statuses, Tables(old(memory), old(stored)))
    {
      var target, excluded := Target(g), Exclusions(server, g);
      if target.None? || excluded.None? || target.value !in memory { return; }
      var relevant := Relevant(statuses, excluded.value);
      var aggregated := if relevant == map[] then server.aggregateExcluded(statuses) else server.aggregate(relevant);
      if aggregated.Some? {
        UpdateStatus(target.value, aggregated.value);
      }
    }

    /** aggregateMultiContainerStatuses and aggregateServiceContainerStatuses. */
    method Aggregate(o: Collection, ghost cs: seq<Container>, ghost ofParts: bool)
      requires Collects(server, cs, ofParts, o)
      modifies `stored, `memory
      ensures Tables(memory, stored) == Aggregated(server, cs, o.keys, Tables(old(memory), old(stored)))
    {
      hide Groups, Statuses, Decided;
      for n := 0 to |o.keys|
        invariant Tables(memory, stored) == Aggregated(server, cs, o.keys[..n], Tables(old(memory), old(stored)))
      {
        assert o.keys[..n + 1][..n] == o.keys[..n];
        AggregateGroup(o.keys[n], o.at[o.keys[n]]);
      }
      assert o.keys[..|o.keys|] == o.keys;
    }

    /** handle, from the snapshot to the statuses: every resource, applications with additional servers excepted, ends
        with its final status, and an empty snapshot changes nothing. */
    method Handle(containers: seq<Container>)
      requires Valid() && memory == stored
      requires foundApplications == [] && foundPreviews == [] && foundDatabases == [] && foundParts == []
      requires applicationStatuses == Collection([], map[]) && serviceStatuses == Collection([], map[])
      modifies this
      ensures KeepsKeys(old(stored), stored)
      ensures containers == [] ==> stored == old(stored)
      ensures containers != [] ==>
                forall key :: key in stored && InSweep(server, key) ==>
                  stored[key] == Final(server, containers, key, old(stored)[key])
    {
      if containers == [] { return; }
      hide Collects, Groups, Final, Aggregated, AllPassed, Matches, SweptTables;
      ProcessContainers(containers);
      ghost var passed := stored;
      Sweep(containers);
      ghost var swept, models := stored, memory;
      Aggregate(applicationStatuses, containers, false);
      Aggregate(serviceStatuses, containers, true);
      ReachesFinal(server, containers, old(stored), passed, Tables(models, swept),
                   applicationStatuses, serviceStatuses);
    }
  }

  datatype Sort = Apps | Previews | Databases | Parts

  function SortOf(key: Key): Sort {
    match key
    case App(_) => Apps
    case Preview(_, _) => Previews
    case Database(_) => Databases
    case ServicePart(_, _) => Parts
  }

  /** What the sweep of one sort of resources makes of the rows. */
  function SweptRows(server: Server, sort: Sort, found: seq<Key>, rows: map<Key, string>): map<Key, string> {
    map key | key in rows :: SweptIf(server, sort, found, key, rows[key])
  }

  function SweptIf(server: Server, sort: Sort, found: seq<Key>, key: Key, status: string): string {
    if SortOf(key) == sort && InSweep(server, key) && key !in found then Swept(key, status) else status
  }

  lemma SweptRow(server: Server, sort: Sort, found: seq<Key>, rows: map<Key, string>, key: Key)
    ensures key in SweptRows(server, sort, found, rows) <==> key in rows
    ensures key in rows ==> SweptRows(server, sort, found, rows)[key] == SweptIf(server, sort, found, key, rows[key])
  {
  }

  /** The database sweep with some databases still to come. */
  function SweptBut(found: seq<Key>, rest: set<Key>, rows: map<Key, string>): map<Key, string> {
    map key | key in rows ::
      if key.Database? && key !in found && key !in rest then Swept(key, rows[key]) else rows[key]
  }

  lemma SweptButOne(found: seq<Key>, rest: set<Key>, rows: map<Key, string>, key: Key)
    requires key in rest && key in rows && key.Database? && key !in found
    ensures key in SweptBut(found, rest, rows) && SweptBut(found, rest, rows)[key] == rows[key]
    ensures SweptBut(found, rest - {key}, rows) ==
              if Exited(Normal(rows[key])) then SweptBut(found, rest, rows)
              else SweptBut(found, rest, rows)[key := Normal("exited")]
  {
    hide Exited, Normal;
  }

  /** These databases are still to be swept, with models that agree with their rows. */
  ghost predicate ToCome(found: seq<Key>, rest: set<Key>, memory: map<Key, string>, stored: map<Key, string>) {
    forall key :: key in rest ==>
      key.Database? && key !in found && key in memory && key in stored && stored[key] == memory[key]
  }

  lemma SweptTablesOne(found: seq<Key>, rest: set<Key>, memory: map<Key, string>, stored: map<Key, string>, key: Key)
    requires key in rest && ToCome(found, rest, memory, stored)
    ensures ToCome(found, rest - {key}, memory, stored)
    ensures var now, rows := SweptBut(found, rest, memory), SweptBut(found, rest, stored);
            && key in now && key in rows && key.Database?
            && (Exited(Normal(now[key])) ==>
                  SweptBut(found, rest - {key}, memory) == now && SweptBut(found, rest - {key}, stored) == rows)
            && (!Exited(Normal(now[key])) ==>
                  && SweptBut(found, rest - {key}, memory) == now[key := Normal("exited")]
                  && SweptBut(found, rest - {key}, stored) == rows[key := Normal("exited")])
  {
    hide SweptBut, Exited, Normal;
    SweptButOne(found, rest, memory, key);
    SweptButOne(found, rest, stored, key);
  }

  lemma SweptButAll(server: Server, found: seq<Key>, rest: set<Key>, rows: map<Key, string>)
    requires forall key :: key in rows && key.Database? && key !in found ==> key in rest
    ensures SweptBut(found, rest, rows) == rows
  {
  }

  lemma SweptButNone(server: Server, found: seq<Key>, rows: map<Key, string>)
    ensures SweptBut(found, {}, rows) == SweptRows(server, Databases, found, rows)
  {
  }

  /** The rows after each of the four sweeps, and the models after the one that changes them. */
  lemma AllSwept(server: Server, apps: seq<Key>, previews: seq<Key>, databases: seq<Key>, parts: seq<Key>,
                 rows: map<Key, string>)
    ensures var a := SweptRows(server, Apps, apps, rows);
            var p := SweptRows(server, Previews, previews, a);
            var d := SweptRows(server, Databases, databases, p);
            var s := SweptRows(server, Parts, parts, d);
            var m := SweptRows(server, Databases, databases, rows);
            && KeepsKeys(rows, a) && KeepsKeys(rows, p) && KeepsKeys(rows, s) && KeepsKeys(s, m)
            && (forall key :: key in rows && key.Preview? ==> a[key] == rows[key])
            && (forall key :: key in rows && key.Database? ==> p[key] == rows[key])
            && (forall key :: key in rows && key.ServicePart? ==> m[key] == rows[key])
            && forall key :: key in rows ==>
                 if InSweep(server, key) && key !in ListOf(key, apps, previews, databases, parts)
                 then s[key] == Swept(key, rows[key]) else s[key] == m[key] == rows[key]
  {
    hide SweptRows, Swept, InSweep;
    var a := SweptRows(server, Apps, apps, rows);
    var p := SweptRows(server, Previews, previews, a);
    var d := SweptRows(server, Databases, databases, p);
    var s := SweptRows(server, Parts, parts, d);
    var m := SweptRows(server, Databases, databases, rows);
    forall key
      ensures key in a <==> key in rows
      ensures key in p <==> key in rows
      ensures key in s <==> key in rows
      ensures key in m <==> key in rows
      ensures key in rows && key.Preview? ==> a[key] == rows[key]
      ensures key in rows && key.Database? ==> p[key] == rows[key]
      ensures key in rows && key.ServicePart? ==> m[key] == rows[key]
      ensures key in rows ==>
                if InSweep(server, key) && key !in ListOf(key, apps, previews, databases, parts)
                then s[key] == Swept(key, rows[key]) else s[key] == m[key] == rows[key]
    {
      SweptRow(server, Apps, apps, rows, key);
      SweptRow(server, Previews, previews, a, key);
      SweptRow(server, Databases, databases, p, key);
      SweptRow(server, Parts, parts, d, key);
      SweptRow(server, Databases, databases, rows, key);
    }
  }

  function ListOf(key: Key, apps: seq<Key>, previews: seq<Key>, databases: seq<Key>, parts: seq<Key>): seq<Key> {
    match key
    case App(_) => apps
    case Preview(_, _) => previews
    case Database(_) => databases
    case ServicePart(_, _) => parts
  }

  datatype Tables = Tables(memory: map<Key, string>, stored: map<Key, string>)

  /** Rows and models after the sweeps: what was not found is swept in the rows, and the models of parts stay as they
      were. */
  ghost predicate SweptTables(server: Server, cs: seq<Container>, passed: map<Key, string>, t: Tables) {
    && KeepsKeys(passed, t.stored) && KeepsKeys(passed, t.memory)
    && (forall key :: key in passed ==>
          if InSweep(server, key) && !Found(server, cs, key) then t.stored[key] == Swept(key, passed[key])
          else t.stored[key] == t.memory[key] == passed[key])
    && forall key :: key in passed && key.ServicePart? ==> t.memory[key] == passed[key]
  }

  /** A group's verdict saved to the resource it is taken for. */
  function Decided(server: Server, g: Group, statuses: map<string, string>, t: Tables): Tables {
    var target, verdict := Target(g), Verdict(server, g, statuses);
    if target.None? || target.value !in t.memory then t
    else
      var key := target.value;
      var raw := AssignedIf(server, key, t.memory[key], verdict);
      if raw == t.memory[key] then t else Tables(t.memory[key := raw], t.stored[key := raw])
  }

  function Aggregated(server: Server, cs: seq<Container>, groups: seq<Group>, t: Tables): Tables {
    if groups == [] then t
    else
      var g := groups[|groups| - 1];
      Decided(server, g, Statuses(server, cs, g), Aggregated(server, cs, groups[..|groups| - 1], t))
  }

  /** For each resource the aggregation of all groups is that of the groups taken for it. */
  lemma {:induction false} AggregatedOver(server: Server, cs: seq<Container>, groups: seq<Group>, t: Tables, key: Key)
    requires key in t.memory <==> key in t.stored
    ensures var t' := Aggregated(server, cs, groups, t);
            && (key in t'.memory <==> key in t.memory) && (key in t'.stored <==> key in t.stored)
            && (key in t.memory ==>
                  Held(t'.memory[key], t'.stored[key])
                  == Over(server, cs, groups, key, Held(t.memory[key], t.stored[key])))
  {
    hide Verdict, Statuses, Target, AssignedIf;
    if groups != [] {
      AggregatedOver(server, cs, groups[..|groups| - 1], t, key);
    }
  }

  /** Pass, sweep and both aggregations together give the final statuses. */
  lemma ReachesFinal(server: Server, cs: seq<Container>, before: map<Key, string>, passed: map<Key, string>,
                     swept: Tables, apps: Collection, parts: Collection)
    requires Collects(server, cs, false, apps) && Collects(server, cs, true, parts)
    requires AllPassed(server, cs, before, passed) && SweptTables(server, cs, passed, swept)
    ensures var now := Aggregated(server, cs, parts.keys, Aggregated(server, cs, apps.keys, swept)).stored;
            KeepsKeys(before, now) && forall key :: key in now ==> now[key] == Final(server, cs, key, before[key])
  {
    var middle := Aggregated(server, cs, apps.keys, swept);
    var now := Aggregated(server, cs, parts.keys, middle).stored;
    forall key
      ensures key in now <==> key in before
      ensures key in now ==> now[key] == Final(server, cs, key, before[key])
    {
      hide Groups, Found, Swept, Final, Aggregated, Statuses, Over, Target, OwnStatuses, Verdict, Passed;
      AggregatedOver(server, cs, apps.keys, swept, key);
      AggregatedOver(server, cs, parts.keys, middle, key);
      if key in before {
        OneResource(server, cs, key, before[key], Held(swept.memory[key], swept.stored[key]));
      }
    }
  }

  lemma OneResource(server: Server, cs: seq<Container>, key: Key, raw: string, h: Held)
    requires var passed := Passed(server, cs, key, raw);
             && (if InSweep(server, key) && !Found(server, cs, key) then h.row == Swept(key, passed)
                 else h == Held(passed, passed))
             && (key.ServicePart? ==> h.model == passed)
    ensures Over(server, cs, Groups(server, cs, true), key, Over(server, cs, Groups(server, cs, false), key, h)).row
         == Final(server, cs, key, raw)
  {
    GroupsSeen(server, cs, false);
    GroupsSeen(server, cs, true);
    hide Statuses, Verdict, Groups, Seen, ShareOf, Swept, Truthy, Piece, Assigned;
    var apps, parts := Groups(server, cs, false), Groups(server, cs, true);
    if key.App? {
      OverOthers(server, cs, parts, key, Over(server, cs, apps, key, h));
      if AppGroup(key.id) in apps {
        AppFoundIsSeen(server, cs, key.id);
        OverOne(server, cs, apps, AppGroup(key.id), key, raw);
      } else {
        OverOthers(server, cs, apps, key, h);
        AppFoundIsSeen(server, cs, key.id);
      }
    } else if key.ServicePart? {
      OverOthers(server, cs, apps, key, h);
    } else {
      OverOthers(server, cs, apps, key, h);
      OverOthers(server, cs, parts, key, h);
      if !Found(server, cs, key) {
        UnfoundHasNoStatus(server, cs, key);
      }
    }
  }

  lemma AppFoundIsSeen(server: Server, cs: seq<Container>, id: string)
    ensures Found(server, cs, App(id)) <==> Seen(server, cs, AppGroup(id))
  {
    forall c | c in cs ensures KeyOf(ShareOf(server, c)) == Some(App(id)) <==> Joins(ShareOf(server, c), AppGroup(id)) {
      SharesOwnKeys(server, c);
    }
  }

  lemma {:induction false} UnfoundHasNoStatus(server: Server, cs: seq<Container>, key: Key)
    requires !Found(server, cs, key)
    ensures OwnStatuses(server, cs, key) == []
  {
    if cs != [] {
      var n := |cs| - 1;
      assert cs == cs[..n] + [cs[n]];
      FoundStep(server, cs[..n], cs[n], key);
      UnfoundHasNoStatus(server, cs[..n], key);
    }
  }

  predicate InSweep(server: Server, key: Key) {
    key.App? ==> key.id in server.singles
  }

  lemma Beginnings(server: Server, rows: map<Key, string>)
    ensures AllPassed(server, [], rows, rows)
    ensures Collects(server, [], false, Collection([], map[])) && Collects(server, [], true, Collection([], map[]))
    ensures forall key :: !Found(server, [], key)
  {
  }

  /** What one more container adds to everything the loop keeps. */
  lemma LoopStep(server: Server, cs: seq<Container>, c: Container, apps: Collection, parts: Collection,
                 before: map<Key, string>, now: map<Key, string>)
    requires Collects(server, cs, false, apps) && Collects(server, cs, true, parts)
    requires AllPassed(server, cs, before, now)
    ensures Collects(server, cs + [c], false, Recorded(server, c, false, apps))
    ensures Collects(server, cs + [c], true, Recorded(server, c, true, parts))
    ensures AllPassed(server, cs + [c], before, WrittenBy(server, c, now))
    ensures forall key :: Found(server, cs + [c], key)
                     <==> Found(server, cs, key) || KeyOf(ShareOf(server, c)) == Some(key)
  {
    CollectsStep(server, cs, c, false, apps);
    CollectsStep(server, cs, c, true, parts);
    PassedStep(server, cs, c, before, now);
    forall key
      ensures Found(server, cs + [c], key) <==> Found(server, cs, key) || KeyOf(ShareOf(server, c)) == Some(key)
    {
      FoundStep(server, cs, c, key);
    }
  }

  /** Applications and databases with a row are exactly those the server knows. */
  ghost predicate Matches(server: Server, rows: map<Key, string>) {
    && (forall id :: App(id) in rows <==> id in server.excluded)
    && (forall uuid :: Database(uuid) in rows <==> uuid in server.databases)
    && server.singles <= server.excluded.Keys
  }
}
