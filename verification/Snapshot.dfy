/** What a snapshot of a server's containers says about each resource, by scanning all containers for that resource
    alone. */
module Snapshot {
  import opened StatusText
  import opened Text

  datatype Part = ApplicationPart | DatabasePart

  /** A container as reported. part is the coolify.service.subType label, None for any other value. */
  datatype Container = Container(
    managed: bool, isProxy: bool, state: Option<string>, health: Option<string>,
    application: Option<string>, pullRequest: Option<string>, compose: Option<string>,
    service: Option<string>, part: Option<Part>, partId: Option<string>, isServiceType: bool)

  datatype Key =
    | App(id: string)
    | Preview(application: string, pullRequest: string)
    | Database(uuid: string)
    | ServicePart(part: Part, id: string)

  /** Containers whose statuses are aggregated together. Service parts are grouped under one joined label. */
  datatype Group = AppGroup(id: string) | PartGroup(joined: string)

  /** The labels that make a container part of a service. */
  datatype Labels = Labels(service: string, part: Part, id: string)

  /** One container's share in the snapshot; named is the resource its labels name. */
  datatype Share = Nothing | InGroup(group: Group, named: Key) | OfPreview(key: Key) | OfDatabase(key: Key)

  /** What the database knows: the applications without additional servers, the containers each application or service
      excludes from its status, the aggregators, and how an application with additional servers reads its status. */
  datatype Server = Server(
    singles: set<string>, databases: set<string>,
    excluded: map<string, set<string>>, serviceExcluded: map<string, set<string>>,
    aggregate: map<string, string> -> Option<string>, aggregateExcluded: map<string, string> -> Option<string>,
    complex: (string, string) -> string)

  /** PHP's truth of a string. */
  predicate Truthy(s: string) {
    s != "" && s != "0"
  }

  function OrElse(o: Option<string>, otherwise: string): string {
    if o.Some? then o.value else otherwise
  }

  function StatusOf(c: Container): string {
    var state := OrElse(c.state, "exited");
    if state == "exited" then state else state + ":" + OrElse(c.health, "unknown")
  }

  predicate Running(status: string) {
    Contains(status, "running")
  }

  predicate ActiveOrTransient(status: string) {
    || Contains(status, "running") || Contains(status, "restarting") || Contains(status, "starting")
    || Contains(status, "created") || Contains(status, "paused")
  }

  predicate Exited(status: string) {
    StartsWith(status, "exited")
  }

  function PartName(part: Part): string {
    match part
    case ApplicationPart => "application"
    case DatabasePart => "database"
  }

  /** The key under which the statuses of a service part are collected. */
  function Joined(l: Labels): string {
    l.service + [':'] + (PartName(l.part) + [':'] + l.id)
  }

  /** Piece n of a text split at every colon. */
  function Piece(text: string, n: nat): string
    decreases n
  {
    if n == 0 then Before(text, ':')
    else match After(text, ':')
      case None => []
      case Some(rest) => Piece(rest, n - 1)
  }

  function LabelsOf(c: Container): Option<Labels> {
    if c.managed && c.application.None? && c.service.Some?
       && c.partId.Some? && Truthy(Trim(c.partId.value)) && c.part.Some?
    then Some(Labels(c.service.value, c.part.value, c.partId.value)) else None
  }

  function KeyNamed(l: Labels): Key {
    ServicePart(l.part, l.id)
  }

  function ShareOf(server: Server, c: Container): Share {
    if !c.managed then Nothing
    else if c.application.Some? then
      var pr := OrElse(c.pullRequest, "0");
      if pr == "0" then InGroup(AppGroup(c.application.value), App(c.application.value))
      else OfPreview(Preview(c.application.value, pr))
    else if c.service.Some? then
      match LabelsOf(c)
      case Some(l) => InGroup(PartGroup(Joined(l)), KeyNamed(l))
      case None => Nothing
    else if Running(StatusOf(c)) && (c.isProxy || c.isServiceType) then Nothing
    else if c.compose.Some? && c.compose.value in server.databases && ActiveOrTransient(StatusOf(c))
    then OfDatabase(Database(c.compose.value)) else Nothing
  }

  predicate Named(c: Container) {
    c.compose.Some? && Truthy(c.compose.value)
  }

  /** The resource a group's key is taken for when it is split again; only the first three pieces are looked at. */
  function Target(g: Group): Option<Key> {
    match g
    case AppGroup(id) => Some(App(id))
    case PartGroup(joined) =>
      var sort, id := Piece(joined, 1), Piece(joined, 2);
      if !Truthy(id) then None
      else if sort == PartName(ApplicationPart) then Some(ServicePart(ApplicationPart, id))
      else if sort == PartName(DatabasePart) then Some(ServicePart(DatabasePart, id))
      else None
  }

  /* Scans for one resource. */

  /** Some container belongs to the group. */
  predicate Seen(server: Server, cs: seq<Container>, g: Group) {
    exists c :: c in cs && Joins(ShareOf(server, c), g)
  }

  /** Some container names the resource, under whatever service. */
  predicate Found(server: Server, cs: seq<Container>, key: Key) {
    exists c :: c in cs && KeyOf(ShareOf(server, c)) == Some(key)
  }

  function KeyOf(share: Share): Option<Key> {
    match share
    case Nothing => None
    case InGroup(_, key) => Some(key)
    case OfPreview(key) => Some(key)
    case OfDatabase(key) => Some(key)
  }

  predicate Joins(share: Share, g: Group) {
    share.InGroup? && share.group == g
  }

  /** The last status reported for each named container of a group. */
  function Statuses(server: Server, cs: seq<Container>, g: Group): map<string, string> {
    if cs == [] then map[]
    else
      var c, before := cs[|cs| - 1], Statuses(server, cs[..|cs| - 1], g);
      if Joins(ShareOf(server, c), g) && Named(c) then before[c.compose.value := StatusOf(c)] else before
  }

  /** The statuses reported for a preview or a database, container by container. */
  function OwnStatuses(server: Server, cs: seq<Container>, key: Key): seq<string> {
    if cs == [] then []
    else
      var share, before := ShareOf(server, cs[|cs| - 1]), OwnStatuses(server, cs[..|cs| - 1], key);
      if share == OfPreview(key) || share == OfDatabase(key) then before + [StatusOf(cs[|cs| - 1])] else before
  }

  /** Whether the group's resource can be looked up, and the containers its status ignores. */
  function Exclusions(server: Server, g: Group): Option<set<string>> {
    match g
    case AppGroup(id) => if id in server.excluded then Some(server.excluded[id]) else None
    case PartGroup(joined) =>
      var service := Piece(joined, 0);
      if service in server.serviceExcluded then Some(server.serviceExcluded[service]) else None
  }

  function Relevant(statuses: map<string, string>, excluded: set<string>): map<string, string> {
    statuses - excluded
  }

  /** The aggregated status of a group, if there is one. */
  function Verdict(server: Server, g: Group, statuses: map<string, string>): Option<string> {
    var excluded := Exclusions(server, g);
    if excluded.None? then None
    else
      var relevant := Relevant(statuses, excluded.value);
      if relevant == map[] then server.aggregateExcluded(statuses) else server.aggregate(relevant)
  }

  /** The groups of one sort in the order of their first container. */
  function Groups(server: Server, cs: seq<Container>, ofParts: bool): seq<Group> {
    if cs == [] then []
    else
      var share, before := ShareOf(server, cs[|cs| - 1]), Groups(server, cs[..|cs| - 1], ofParts);
      if share.InGroup? && share.group.PartGroup? == ofParts && share.group !in before
      then before + [share.group] else before
  }

  /* Statuses are kept raw, as the rows hold them. Applications and databases go through the accessor. */

  /** The status a loaded model reads from its raw attribute. */
  function Read(server: Server, key: Key, raw: string): string {
    match key
    case App(id) => if id in server.singles then Normal(raw) else server.complex(id, raw)
    case Database(_) => Normal(raw)
    case _ => raw
  }

  /** The raw attribute after a status is assigned to the model. */
  function Write(key: Key, status: string): string {
    if key.App? || key.Database? then Normal(status) else status
  }

  /** A status is assigned only if it differs from the one the model reads. */
  function Assigned(server: Server, key: Key, raw: string, status: string): string {
    if Read(server, key, raw) == status then raw else Write(key, status)
  }

  function AssignedAll(server: Server, key: Key, raw: string, statuses: seq<string>): string {
    if statuses == [] then raw
    else
      var n := |statuses| - 1;
      Assigned(server, key, AssignedAll(server, key, raw, statuses[..n]), statuses[n])
  }

  function AssignedIf(server: Server, key: Key, raw: string, verdict: Option<string>): string {
    if verdict.Some? then Assigned(server, key, raw, verdict.value) else raw
  }

  /** A loaded model's raw attribute and its row. */
  datatype Held = Held(model: string, row: string)

  /** Saving a model writes its row only if the attribute has changed. */
  function Saved(server: Server, key: Key, h: Held, verdict: Option<string>): Held {
    var raw := AssignedIf(server, key, h.model, verdict);
    if raw == h.model then h else Held(raw, raw)
  }

  /** The aggregated statuses of the groups taken for a resource, saved in order. */
  function Over(server: Server, cs: seq<Container>, groups: seq<Group>, key: Key, h: Held): Held {
    if groups == [] then h
    else
      var g, before := groups[|groups| - 1], Over(server, cs, groups[..|groups| - 1], key, h);
      if Target(g) == Some(key) then Saved(server, key, before, Verdict(server, g, Statuses(server, cs, g))) else before
  }

  /** The sweep sets what was not found to exited: a database through its model, which the accessor completes, and all
      others in their rows. Service parts lose even a longer exited status. */
  function Swept(key: Key, raw: string): string {
    match key
    case Database(_) => if Exited(Normal(raw)) then raw else Normal("exited")
    case ServicePart(_, _) => "exited"
    case _ => if Exited(raw) then raw else "exited"
  }

  /** The sweep of a service part changes its row and not its loaded model. */
  function PartSwept(server: Server, cs: seq<Container>, key: Key, raw: string): Held {
    Held(raw, if Found(server, cs, key) then raw else Swept(key, raw))
  }

  /** The final row of a resource that had this row before a non-empty snapshot. */
  function Final(server: Server, cs: seq<Container>, key: Key, raw: string): string {
    match key
    case App(id) =>
      if Seen(server, cs, AppGroup(id))
      then AssignedIf(server, key, raw, Verdict(server, AppGroup(id), Statuses(server, cs, AppGroup(id))))
      else if id in server.singles then Swept(key, raw) else raw
    case ServicePart(_, _) =>
      Over(server, cs, Groups(server, cs, true), key, PartSwept(server, cs, key, raw)).row
    case _ =>
      if Found(server, cs, key) then AssignedAll(server, key, raw, OwnStatuses(server, cs, key)) else Swept(key, raw)
  }

  /* Facts about the scans. */

  predicate Distinct(groups: seq<Group>) {
    forall i, j :: 0 <= i < j < |groups| ==> groups[i] != groups[j]
  }

  lemma {:induction false} GroupsSeen(server: Server, cs: seq<Container>, ofParts: bool)
    ensures forall g :: g in Groups(server, cs, ofParts) <==> g.PartGroup? == ofParts && Seen(server, cs, g)
    ensures Distinct(Groups(server, cs, ofParts))
  {
    if cs != [] {
      var n := |cs| - 1;
      GroupsSeen(server, cs[..n], ofParts);
      assert forall c :: c in cs <==> c in cs[..n] || c == cs[n];
      forall g ensures g in Groups(server, cs, ofParts) <==> g.PartGroup? == ofParts && Seen(server, cs, g) {
        SeenStep(server, cs, g);
      }
    }
  }

  lemma SeenStep(server: Server, cs: seq<Container>, g: Group)
    requires cs != []
    ensures Seen(server, cs, g) <==> Seen(server, cs[..|cs| - 1], g) || Joins(ShareOf(server, cs[|cs| - 1]), g)
  {
    hide ShareOf;
    assert forall c :: c in cs <==> c in cs[..|cs| - 1] || c == cs[|cs| - 1];
  }

  lemma {:induction false} OverOthers(server: Server, cs: seq<Container>, groups: seq<Group>, key: Key, h: Held)
    requires forall g :: g in groups ==> Target(g) != Some(key)
    ensures Over(server, cs, groups, key, h) == h
  {
    hide Target;
    if groups != [] {
      OverOthers(server, cs, groups[..|groups| - 1], key, h);
    }
  }

  /** If only one group is taken for the resource, its aggregation decides. */
  lemma {:induction false} OverOne(server: Server, cs: seq<Container>, groups: seq<Group>, g: Group, key: Key,
                                   raw: string)
    requires g in groups && Target(g) == Some(key)
    requires forall h :: h in groups && Target(h) == Some(key) ==> h == g
    requires Distinct(groups)
    ensures var x := AssignedIf(server, key, raw, Verdict(server, g, Statuses(server, cs, g)));
            Over(server, cs, groups, key, Held(raw, raw)) == Held(x, x)
  {
    hide Verdict, Statuses, Target, AssignedIf;
    var n := |groups| - 1;
    if groups[n] == g {
      forall h | h in groups[..n] ensures Target(h) != Some(key) {
        var i :| 0 <= i < n && groups[i] == h;
      }
      OverOthers(server, cs, groups[..n], key, Held(raw, raw));
    } else {
      assert g in groups[..n];
      OverOne(server, cs, groups[..n], g, key, raw);
    }
  }

  /** A model that agrees with its row goes on agreeing. */
  lemma {:induction false} OverAgrees(server: Server, cs: seq<Container>, groups: seq<Group>, key: Key, raw: string)
    ensures var h := Over(server, cs, groups, key, Held(raw, raw)); h.model == h.row
  {
    hide Verdict, Statuses, Target, AssignedIf;
    if groups != [] {
      OverAgrees(server, cs, groups[..|groups| - 1], key, raw);
    }
  }

  /** Either no aggregation of a service part has a result, or the previous status does not matter. */
  lemma {:induction false} OverIgnores(server: Server, cs: seq<Container>, groups: seq<Group>, key: Key,
                                       a: string, b: string)
    requires key.ServicePart?
    ensures var x, y := Over(server, cs, groups, key, Held(a, a)), Over(server, cs, groups, key, Held(b, b));
            (x == Held(a, a) && y == Held(b, b)) || x == y
  {
    hide Verdict, Statuses, Target;
    if groups != [] {
      var before := groups[..|groups| - 1];
      OverIgnores(server, cs, before, key, a, b);
      OverAgrees(server, cs, before, key, a);
      OverAgrees(server, cs, before, key, b);
    }
  }

  lemma OverTwice(server: Server, cs: seq<Container>, groups: seq<Group>, key: Key, raw: string)
    requires key.ServicePart?
    ensures var again := Over(server, cs, groups, key, Held(raw, raw)).row;
            Over(server, cs, groups, key, Held(again, again)).row == again
  {
    hide Over;
    var again := Over(server, cs, groups, key, Held(raw, raw)).row;
    OverAgrees(server, cs, groups, key, raw);
    OverIgnores(server, cs, groups, key, raw, again);
  }
}
