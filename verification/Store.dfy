/** The connection table and its periodic reconciliation with vManage's mapping report: pkg/db/db.go */
module Store {
  import opened Records

  /** One row of a mapping report. */
  datatype Mapping = Mapping(
    cloudType: string,
    srcId: string, srcType: string, sourceTag: string, sourceRegion: string,
    destId: string, destType: string, destTag: string, destRegion: string)

  datatype Report = Report(mapped: seq<Mapping>, unmapped: seq<Mapping>, outstanding: seq<Mapping>)

  type Table = map<string, ConnectionRequest>

  const NO_SPEC := Spec(Selector("", "", map[]), Selector("", "", map[]))

  /** Every writer stores a record under the id it carries. */
  ghost predicate Keyed(t: Table) {
    forall id :: id in t ==> t[id].id == id
  }

  function MappingId(m: Mapping): string {
    PairId(m.srcId, m.destId)
  }

  /** The record of a connection that only the report knows. */
  function TransformConnectionMapping(m: Mapping, state: string): ConnectionRequest {
    var srcName := if m.sourceTag == "" then m.srcId else m.sourceTag;
    var destName := if m.destTag == "" then m.destId else m.destTag;
    var srcProvider := if m.srcType == "vpn" then "vManage" else m.cloudType;
    var destProvider := if m.destType == "vpn" then "vManage" else m.cloudType;
    ConnectionRequest(
      MappingId(m), srcName + " to " + destName, state,
      Source(m.srcId, srcName, "", "", m.srcType, srcProvider, [], m.sourceTag, m.sourceRegion),
      Destination("", destName, "", m.destId, m.destType, destProvider, "", m.destTag, m.destRegion),
      NO_SPEC, "", "")
  }

  function TransformAll(ms: seq<Mapping>, state: string): (r: seq<ConnectionRequest>)
    ensures |r| == |ms|
  {
    seq(|ms|, i requires 0 <= i < |ms| => TransformConnectionMapping(ms[i], state))
  }

  function Entries(r: Report): seq<ConnectionRequest> {
    TransformAll(r.mapped, RUNNING) + TransformAll(r.unmapped, FAILED) + TransformAll(r.outstanding, PENDING)
  }

  function AllEntries(status: seq<Report>): seq<ConnectionRequest> {
    if status == [] then []
    else AllEntries(status[..|status| - 1]) + Entries(status[|status| - 1])
  }

  /** Entries written one after the other into a map keyed by id. */
  function Written(entries: seq<ConnectionRequest>): (m: Table)
  {
    if entries == [] then map[]
    else
      var last := entries[|entries| - 1];
      Written(entries[..|entries| - 1])[last.id := last]
  }

  lemma {:induction false} WrittenConcat(a: seq<ConnectionRequest>, b: seq<ConnectionRequest>)
    ensures Written(a + b) == Written(a) + Written(b)
  {
    if b == [] {
      assert a + b == a;
    } else {
      var front := b[..|b| - 1];
      assert (a + b)[..|a + b| - 1] == a + front;
      WrittenConcat(a, front);
    }
  }

  predicate Lists(ms: seq<Mapping>, id: string) {
    exists i :: 0 <= i < |ms| && MappingId(ms[i]) == id
  }

  /** A table that a single list of one state fills. */
  ghost predicate Holds(w: Table, ms: seq<Mapping>, state: string) {
    && Keyed(w)
    && (forall id :: id in w <==> Lists(ms, id))
    && (forall id :: id in w ==> w[id].status == state && w[id].creationTimestamp == "")
  }

  lemma {:induction false} WrittenList(ms: seq<Mapping>, state: string)
    ensures Holds(Written(TransformAll(ms, state)), ms, state)
  {
    if ms != [] {
      var front := ms[..|ms| - 1];
      var last := ms[|ms| - 1];
      assert TransformAll(ms, state)[..|ms| - 1] == TransformAll(front, state);
      WrittenList(front, state);
      forall id ensures Lists(ms, id) <==> Lists(front, id) || id == MappingId(last) {
        if Lists(front, id) {
          var i :| 0 <= i < |front| && MappingId(front[i]) == id;
          assert MappingId(ms[i]) == id;
        }
        assert ms[|ms| - 1] == last;
      }
    }
  }

  /** The status one report gives an id: what is outstanding wins over what is unmapped, and that over
      what is mapped. */
  function StatusIn(r: Report, id: string): Option<string> {
    if Lists(r.outstanding, id) then Some(PENDING)
    else if Lists(r.unmapped, id) then Some(FAILED)
    else if Lists(r.mapped, id) then Some(RUNNING)
    else None
  }

  /** The status a list of reports gives an id: the last report that names it decides. */
  function StatusAfter(status: seq<Report>, id: string): Option<string> {
    if status == [] then None
    else
      var latest := StatusIn(status[|status| - 1], id);
      if latest.Some? then latest else StatusAfter(status[..|status| - 1], id)
  }

  lemma EntriesWritten(r: Report)
    ensures Written(Entries(r)) == Written(TransformAll(r.mapped, RUNNING))
                                   + Written(TransformAll(r.unmapped, FAILED))
                                   + Written(TransformAll(r.outstanding, PENDING))
  {
    var a, b := TransformAll(r.mapped, RUNNING), TransformAll(r.unmapped, FAILED);
    WrittenConcat(a + b, TransformAll(r.outstanding, PENDING));
    WrittenConcat(a, b);
  }

  /** A table that agrees with a status function. */
  ghost predicate Shows(w: Table, statusOf: string -> Option<string>) {
    && Keyed(w)
    && (forall id :: id in w <==> statusOf(id).Some?)
    && (forall id :: id in w ==> w[id].status == statusOf(id).value && w[id].creationTimestamp == "")
  }

  /** The status one list of a report gives an id. */
  function StatusBy(ms: seq<Mapping>, state: string, id: string): Option<string> {
    if Lists(ms, id) then Some(state) else None
  }

  lemma HoldsShows(w: Table, ms: seq<Mapping>, state: string)
    requires Holds(w, ms, state)
    ensures Shows(w, id => StatusBy(ms, state, id))
  {
  }

  lemma ShowsSame(w: Table, f: string -> Option<string>, g: string -> Option<string>)
    requires Shows(w, f) && forall id :: f(id) == g(id)
    ensures Shows(w, g)
  {
  }

  lemma UnionPrecedence(r: Report, a: Table, b: Table, c: Table)
    requires Holds(a, r.mapped, RUNNING) && Holds(b, r.unmapped, FAILED) && Holds(c, r.outstanding, PENDING)
    ensures Shows(a + b + c, id => StatusIn(r, id))
  {
    var f, g, h := id => StatusBy(r.mapped, RUNNING, id), id => StatusBy(r.unmapped, FAILED, id),
                   id => StatusBy(r.outstanding, PENDING, id);
    HoldsShows(a, r.mapped, RUNNING);
    HoldsShows(b, r.unmapped, FAILED);
    HoldsShows(c, r.outstanding, PENDING);
    LaterWins(a, b, f, g);
    var fg := id => if g(id).Some? then g(id) else f(id);
    LaterWins(a + b, c, fg, h);
    ShowsSame(a + b + c, id => if h(id).Some? then h(id) else fg(id), id => StatusIn(r, id));
  }

  lemma ReportPrecedence(r: Report)
    ensures Shows(Written(Entries(r)), id => StatusIn(r, id))
  {
    EntriesWritten(r);
    WrittenList(r.mapped, RUNNING);
    WrittenList(r.unmapped, FAILED);
    WrittenList(r.outstanding, PENDING);
    UnionPrecedence(r, Written(TransformAll(r.mapped, RUNNING)), Written(TransformAll(r.unmapped, FAILED)),
                    Written(TransformAll(r.outstanding, PENDING)));
  }

  lemma LaterWins(a: Table, b: Table, f: string -> Option<string>, g: string -> Option<string>)
    requires Shows(a, f) && Shows(b, g)
    ensures Shows(a + b, id => if g(id).Some? then g(id) else f(id))
  {
  }

  /** The map the report loops fill holds exactly the reported ids, each with the status the precedence
      gives it. */
  lemma {:induction false} Precedence(status: seq<Report>)
    ensures Shows(Written(AllEntries(status)), id => StatusAfter(status, id))
  {
    if status != [] {
      var front := status[..|status| - 1];
      var latest := status[|status| - 1];
      Precedence(front);
      ReportPrecedence(latest);
      WrittenConcat(AllEntries(front), Entries(latest));
      var f, g := id => StatusAfter(front, id), id => StatusIn(latest, id);
      LaterWins(Written(AllEntries(front)), Written(Entries(latest)), f, g);
      ShowsSame(Written(AllEntries(status)), id => if g(id).Some? then g(id) else f(id), id => StatusAfter(status, id));
    }
  }

  /** A record as it is put back: the first write sets its creation time, every later one only its
      modification time. */
  function Stamp(r: ConnectionRequest, now: string): ConnectionRequest {
    if r.creationTimestamp == "" then r.(creationTimestamp := now) else r.(modificationTimestamp := now)
  }

  /** The record a reported id ends with, given the table at the time of the snapshot. */
  function Reconciled(snapshot: Table, reported: Table, id: string): ConnectionRequest
    requires id in reported
  {
    if id in snapshot then snapshot[id].(status := reported[id].status) else reported[id]
  }

  /** The table a pass leaves: what was known at the snapshot and is not reported goes, what is reported
      is rebuilt from the snapshot, and a row that appeared in between stays unless it is reported. */
  function Merge(snapshot: Table, current: Table, reported: Table, clock: string -> string): Table {
    map id | id in (current.Keys - (snapshot.Keys - reported.Keys)) + reported.Keys ::
      if id in reported then Stamp(Reconciled(snapshot, reported, id), clock(id)) else current[id]
  }

  function Stamped(m: Table, ids: set<string>, clock: string -> string): Table {
    map id | id in ids && id in m :: Stamp(m[id], clock(id))
  }

  lemma StampedOneMore(base: Table, m: Table, ids: set<string>, id: string, clock: string -> string)
    requires id in m
    ensures base + Stamped(m, ids + {id}, clock) == (base + Stamped(m, ids, clock))[id := Stamp(m[id], clock(id))]
  {
  }

  lemma PhasesMerge(snapshot: Table, current: Table, reported: Table, rebuilt: Table, clock: string -> string)
    requires Keyed(snapshot) && Keyed(current) && Keyed(reported) && rebuilt.Keys == reported.Keys
    requires forall id :: id in reported ==> rebuilt[id] == Reconciled(snapshot, reported, id)
    ensures (current - (snapshot.Keys - reported.Keys)) + Stamped(rebuilt, rebuilt.Keys, clock)
            == Merge(snapshot, current, reported, clock)
    ensures Keyed(Merge(snapshot, current, reported, clock))
  {
  }

  /** The loops of UpdateConnectionStatus over the reports, pkg/db/db.go:173-186. */
  method CollectStatus(status: seq<Report>) returns (connectionMap: Table)
    ensures connectionMap == Written(AllEntries(status))
  {
    connectionMap := map[];
    for i := 0 to |status|
      invariant connectionMap == Written(AllEntries(status[..i]))
    {
      assert status[..i + 1][..i] == status[..i];
      WrittenConcat(AllEntries(status[..i]), Entries(status[i]));
      connectionMap := CollectReport(connectionMap, status[i]);
    }
    assert status[..|status|] == status;
  }

  /** One report: its three lists, one after the other. */
  method CollectReport(connectionMap: Table, r: Report) returns (written: Table)
    ensures written == connectionMap + Written(Entries(r))
  {
    written := WriteAll(connectionMap, r.mapped, RUNNING);
    written := WriteAll(written, r.unmapped, FAILED);
    written := WriteAll(written, r.outstanding, PENDING);
    EntriesWritten(r);
    UnionAssociates(connectionMap, Written(TransformAll(r.mapped, RUNNING)),
                    Written(TransformAll(r.unmapped, FAILED)), Written(TransformAll(r.outstanding, PENDING)));
  }

  lemma UnionAssociates(m: Table, a: Table, b: Table, c: Table)
    ensures m + a + b + c == m + (a + b + c)
  {
  }

  lemma WrittenOneMore(base: Table, ms: seq<Mapping>, state: string, i: nat)
    requires i < |ms|
    ensures var connection := TransformConnectionMapping(ms[i], state);
            base + Written(TransformAll(ms[..i + 1], state))
            == (base + Written(TransformAll(ms[..i], state)))[connection.id := connection]
  {
    assert TransformAll(ms[..i + 1], state)[..i] == TransformAll(ms[..i], state);
  }

  method WriteAll(connectionMap: Table, ms: seq<Mapping>, state: string) returns (written: Table)
    ensures written == connectionMap + Written(TransformAll(ms, state))
  {
    written := connectionMap;
    for i := 0 to |ms|
      invariant written == connectionMap + Written(TransformAll(ms[..i], state))
    {
      WrittenOneMore(connectionMap, ms, state, i);
      var connection := TransformConnectionMapping(ms[i], state);
      written := written[connection.id := connection];
    }
    assert ms[..|ms|] == ms;
  }

  /** A report has a row in one of its lists. */
  ghost predicate Has(r: Report, m: Mapping) {
    m in r.mapped || m in r.unmapped || m in r.outstanding
  }

  /** A row that some report has. */
  ghost predicate InReports(status: seq<Report>, m: Mapping) {
    exists i :: 0 <= i < |status| && Has(status[i], m)
  }

  /** A row that some report has, and the id a creation gives its two ends. */
  ghost predicate Reported(status: seq<Report>, id: string, m: Mapping) {
    id == m.srcId + ":" + m.destId && InReports(status, m)
  }

  /** A record with the ends of a row, each with its own id, kind, tag, region, name and provider, and with the id
      the two ids give. */
  ghost predicate Tells(r: ConnectionRequest, m: Mapping) {
    && r.id == m.srcId + ":" + m.destId
    && r.source.id == m.srcId && r.source.kind == m.srcType
    && r.source.tag == m.sourceTag && r.source.region == m.sourceRegion
    && r.destination.id == m.destId && r.destination.kind == m.destType
    && r.destination.tag == m.destTag && r.destination.region == m.destRegion
    && r.source.name == (if m.sourceTag == "" then m.srcId else m.sourceTag)
    && r.destination.name == (if m.destTag == "" then m.destId else m.destTag)
    && r.source.provider == (if m.srcType == "vpn" then "vManage" else m.cloudType)
    && r.destination.provider == (if m.destType == "vpn" then "vManage" else m.cloudType)
    && r.name == r.source.name + " to " + r.destination.name
  }

  ghost predicate TellsOne(entries: seq<ConnectionRequest>, m: Mapping) {
    exists e :: e in entries && Tells(e, m)
  }

  lemma TransformTells(ms: seq<Mapping>, state: string, m: Mapping)
    requires m in ms
    ensures TellsOne(TransformAll(ms, state), m)
  {
    var i :| 0 <= i < |ms| && ms[i] == m;
    assert TransformAll(ms, state)[i] in TransformAll(ms, state) && Tells(TransformAll(ms, state)[i], m);
  }

  lemma EntriesTell(r: Report, m: Mapping)
    requires Has(r, m)
    ensures TellsOne(Entries(r), m)
  {
    var a, b, c := TransformAll(r.mapped, RUNNING), TransformAll(r.unmapped, FAILED), TransformAll(r.outstanding, PENDING);
    TellsOneOfMore(a + b, c, m);
    TellsOneOfMore(a, b, m);
    if m in r.mapped {
      TransformTells(r.mapped, RUNNING, m);
    } else if m in r.unmapped {
      TransformTells(r.unmapped, FAILED, m);
    } else {
      TransformTells(r.outstanding, PENDING, m);
    }
  }

  lemma ToldByList(ms: seq<Mapping>, state: string, e: ConnectionRequest) returns (m: Mapping)
    requires e in TransformAll(ms, state)
    ensures m in ms && Tells(e, m)
  {
    var i :| 0 <= i < |ms| && TransformAll(ms, state)[i] == e;
    m := ms[i];
  }

  lemma ToldByReport(r: Report, e: ConnectionRequest) returns (m: Mapping)
    requires e in Entries(r)
    ensures Has(r, m) && Tells(e, m)
  {
    if e in TransformAll(r.mapped, RUNNING) {
      m := ToldByList(r.mapped, RUNNING, e);
    } else if e in TransformAll(r.unmapped, FAILED) {
      m := ToldByList(r.unmapped, FAILED, e);
    } else {
      m := ToldByList(r.outstanding, PENDING, e);
    }
  }

  lemma InOneMore(status: seq<Report>, m: Mapping)
    requires status != []
    ensures InReports(status, m) <==> InReports(status[..|status| - 1], m) || Has(status[|status| - 1], m)
  {
    var front := status[..|status| - 1];
    if InReports(front, m) {
      var i :| 0 <= i < |front| && Has(front[i], m);
      assert Has(status[i], m);
    }
    if i :| 0 <= i < |front| && Has(status[i], m) {
      assert Has(front[i], m);
    }
  }

  lemma TellsOneOfMore(a: seq<ConnectionRequest>, b: seq<ConnectionRequest>, m: Mapping)
    ensures TellsOne(a + b, m) <==> TellsOne(a, m) || TellsOne(b, m)
  {
    if TellsOne(a, m) {
      var e :| e in a && Tells(e, m);
      assert e in a + b;
    } else if TellsOne(b, m) {
      var e :| e in b && Tells(e, m);
      assert e in a + b;
    }
  }

  lemma {:induction false} RowIsTold(status: seq<Report>, m: Mapping)
    requires InReports(status, m)
    ensures TellsOne(AllEntries(status), m)
  {
    var front, last := status[..|status| - 1], status[|status| - 1];
    InOneMore(status, m);
    TellsOneOfMore(AllEntries(front), Entries(last), m);
    if Has(last, m) {
      EntriesTell(last, m);
    } else {
      RowIsTold(front, m);
    }
  }

  lemma {:induction false} EntryTells(status: seq<Report>, e: ConnectionRequest) returns (m: Mapping)
    requires e in AllEntries(status)
    ensures InReports(status, m) && Tells(e, m)
  {
    var front, last := status[..|status| - 1], status[|status| - 1];
    if e in AllEntries(front) {
      m := EntryTells(front, e);
    } else {
      m := ToldByReport(last, e);
    }
    InOneMore(status, m);
  }

  lemma {:induction false} WrittenMembers(entries: seq<ConnectionRequest>)
    ensures forall id :: id in Written(entries) ==> Written(entries)[id] in entries && Written(entries)[id].id == id
    ensures forall e :: e in entries ==> e.id in Written(entries)
  {
    if entries != [] {
      WrittenMembers(entries[..|entries| - 1]);
    }
  }

  /** The map the report loops fill has exactly the ids a creation gives the reported ends, source before
      destination, and what it holds under an id is what a row of that id says. */
  lemma ReportedIds(status: seq<Report>)
    ensures forall id, m :: Reported(status, id, m) ==> id in Written(AllEntries(status))
    ensures forall id :: id in Written(AllEntries(status)) ==>
              exists m :: Reported(status, id, m) && Tells(Written(AllEntries(status))[id], m)
  {
    var entries := AllEntries(status);
    WrittenMembers(entries);
    forall id, m | Reported(status, id, m) ensures id in Written(entries) {
      RowIsTold(status, m);
      var e :| e in entries && Tells(e, m);
    }
    forall id | id in Written(entries) ensures exists m :: Reported(status, id, m) && Tells(Written(entries)[id], m) {
      var m := EntryTells(status, Written(entries)[id]);
      assert Reported(status, id, m);
    }
  }

  /** What others than the mapper may rely on in a known record. */
  predicate SameConnection(a: ConnectionRequest, b: ConnectionRequest) {
    a.id == b.id && a.source == b.source && a.destination == b.destination && a.name == b.name && a.config == b.config
  }

  /** So a pass keeps a known connection exactly when a report has a row with its two ids, the source's first. */
  lemma MergeKeepsReported(snapshot: Table, current: Table, status: seq<Report>, clock: string -> string)
    ensures var after := Merge(snapshot, current, Written(AllEntries(status)), clock);
            && (forall id, m :: Reported(status, id, m) ==> id in after)
            && (forall id :: id in after && id in snapshot ==>
                  (exists m :: Reported(status, id, m)) && SameConnection(after[id], snapshot[id]))
  {
    ReportedIds(status);
    var reported := Written(AllEntries(status));
    var after := Merge(snapshot, current, reported, clock);
    forall id | id in after && id in snapshot
      ensures (exists m :: Reported(status, id, m)) && SameConnection(after[id], snapshot[id])
    {
      assert id in reported && after[id] == Stamp(Reconciled(snapshot, reported, id), clock(id));
    }
  }

  class Client {
    var requests: Table

    constructor ()
      ensures requests == map[]
    {
      requests := map[];
    }

    method UpdateConnectionRequest(cr: ConnectionRequest, id: string)
      requires cr.id == id && Keyed(requests)
      modifies this
      ensures requests == old(requests)[id := cr] && Keyed(requests)
    {
      requests := requests[id := cr];
    }

    method DeleteConnectionRequest(id: string)
      requires Keyed(requests)
      modifies this
      ensures requests == old(requests) - {id} && Keyed(requests)
    {
      requests := requests - {id};
    }

    /** Every row once; the order is the bucket's. */
    method ListConnectionRequests() returns (connections: seq<ConnectionRequest>)
      requires Keyed(requests)
      ensures forall c :: c in connections <==> c.id in requests && requests[c.id] == c
      ensures forall i, j :: 0 <= i < j < |connections| ==> connections[i].id != connections[j].id
    {
      connections := [];
      var todo := requests.Keys;
      while todo != {}
        invariant todo <= requests.Keys
        invariant forall c :: c in connections <==> c.id in requests.Keys - todo && requests[c.id] == c
        invariant forall i, j :: 0 <= i < j < |connections| ==> connections[i].id != connections[j].id
        decreases |todo|
      {
        var id :| id in todo;
        connections := connections + [requests[id]];
        todo := todo - {id};
      }
    }

    /** UpdateConnectionStatus takes its snapshot outside the transaction that commits it.
        `meanwhile` is the table the other goroutines have left when the transaction starts. */
    method UpdateConnectionStatus(status: seq<Report>, meanwhile: Table, clock: string -> string) returns (err: bool)
      requires Keyed(requests) && Keyed(meanwhile)
      modifies this
      ensures !err ==> requests == Merge(old(requests), meanwhile, Written(AllEntries(status)), clock)
      ensures err ==> requests == old(requests) || requests == meanwhile
      ensures !err ==> forall id, m :: Reported(status, id, m) ==> id in requests
      ensures !err ==> forall id :: id in requests && id in old(requests) ==>
                         (exists m :: Reported(status, id, m)) && SameConnection(requests[id], old(requests)[id])
      ensures Keyed(requests)
    {
      var listed: bool, committed: bool := *, *;
      if !listed { return true; }
      var connections := ListConnectionRequests();
      ghost var snapshot := requests;
      var connectionMap := CollectStatus(status);
      Precedence(status);
      MergeKeepsReported(snapshot, meanwhile, status, clock);
      requests := meanwhile;
      if !committed { return true; }
      ghost var reported := connectionMap;
      connectionMap := DropUnreported(connections, connectionMap, snapshot);
      PutAll(connectionMap, clock);
      PhasesMerge(snapshot, meanwhile, reported, connectionMap, clock);
      err := false;
    }

    /** The first loop of the transaction. */
    method DropUnreported(connections: seq<ConnectionRequest>, reported: Table, ghost snapshot: Table)
      returns (connectionMap: Table)
      requires Keyed(snapshot) && Keyed(reported)
      requires forall c :: c in connections <==> c.id in snapshot && snapshot[c.id] == c
      requires forall i, j :: 0 <= i < j < |connections| ==> connections[i].id != connections[j].id
      modifies this
      ensures requests == old(requests) - (snapshot.Keys - reported.Keys)
      ensures connectionMap.Keys == reported.Keys
      ensures forall id :: id in reported ==> connectionMap[id] == Reconciled(snapshot, reported, id)
    {
      connectionMap := reported;
      ghost var seen: set<string> := {};
      for i := 0 to |connections|
        invariant seen == set j | 0 <= j < i :: connections[j].id
        invariant requests == old(requests) - (seen - reported.Keys)
        invariant connectionMap.Keys == reported.Keys
        invariant forall id :: id in reported ==>
                    connectionMap[id] == if id in seen then Reconciled(snapshot, reported, id) else reported[id]
      {
        var connection := connections[i];
        assert connection in connections;
        assert connection.id !in seen;
        if connection.id !in connectionMap {
          requests := requests - {connection.id};
        } else {
          connectionMap := connectionMap[connection.id := connection.(status := connectionMap[connection.id].status)];
        }
        seen := seen + {connection.id};
      }
      assert seen == snapshot.Keys by {
        forall id | id in snapshot ensures id in seen {
          assert snapshot[id] in connections;
        }
        forall j | 0 <= j < |connections| ensures connections[j].id in snapshot {
          assert connections[j] in connections;
        }
      }
    }

    /** The second loop of the transaction. */
    method PutAll(connectionMap: Table, clock: string -> string)
      modifies this
      ensures requests == old(requests) + Stamped(connectionMap, connectionMap.Keys, clock)
    {
      var todo := connectionMap.Keys;
      ghost var done: set<string> := {};
      while todo != {}
        invariant todo !! done && todo + done == connectionMap.Keys
        invariant requests == old(requests) + Stamped(connectionMap, done, clock)
        decreases |todo|
      {
        var connId :| connId in todo;
        StampedOneMore(old(requests), connectionMap, done, connId, clock);
        requests := requests[connId := Stamp(connectionMap[connId], clock(connId))];
        todo := todo - {connId};
        done := done + {connId};
      }
      assert done == connectionMap.Keys;
    }
  }

  /** The ids a pass leaves, and where each row comes from. */
  lemma MergeKeys(snapshot: Table, current: Table, reported: Table, clock: string -> string)
    ensures var after := Merge(snapshot, current, reported, clock);
            && after.Keys == (current.Keys - (snapshot.Keys - reported.Keys)) + reported.Keys
            && (current == snapshot ==> after.Keys == reported.Keys)
            && (forall id :: id in snapshot && id in reported ==>
                  after[id].(status := "", creationTimestamp := "", modificationTimestamp := "")
                  == snapshot[id].(status := "", creationTimestamp := "", modificationTimestamp := ""))
            && (forall id :: id in reported && id !in snapshot ==> after[id] == Stamp(reported[id], clock(id)))
            && (forall id :: id in snapshot && id in reported && snapshot[id].creationTimestamp == "" ==>
                  && after[id].creationTimestamp == clock(id)
                  && after[id].modificationTimestamp == snapshot[id].modificationTimestamp)
            && (forall id :: id in snapshot && id in reported && snapshot[id].creationTimestamp != "" ==>
                  && after[id].creationTimestamp == snapshot[id].creationTimestamp
                  && after[id].modificationTimestamp == clock(id))
            && (forall id :: id in current && id !in snapshot && id !in reported ==>
                  id in after && after[id] == current[id])
  {
  }

  lemma PassKeyed(t: Table, p: Pass)
    requires Keyed(t)
    ensures Keyed(RunPass(t, p))
  {
    Precedence(p.status);
  }

  predicate SameButTimes(a: ConnectionRequest, b: ConnectionRequest) {
    a.(creationTimestamp := "", modificationTimestamp := "") == b.(creationTimestamp := "", modificationTimestamp := "")
  }

  /** One undisturbed pass: what it reads, what it is told, when. */
  datatype Pass = Pass(status: seq<Report>, clock: string -> string)

  function RunPass(t: Table, p: Pass): Table {
    Merge(t, t, Written(AllEntries(p.status)), p.clock)
  }

  function RunPasses(t: Table, ps: seq<Pass>): Table {
    if ps == [] then t else RunPass(RunPasses(t, ps[..|ps| - 1]), ps[|ps| - 1])
  }

  /** After any pass the status of every row is what the reports say, and the rows are exactly the
      reported connections: a watcher is no reported connection, so a pass removes it. */
  lemma PassStatus(t: Table, p: Pass)
    ensures var after := RunPass(t, p);
            && (forall id :: id in after <==> StatusAfter(p.status, id).Some?)
            && (forall id :: id in after ==> after[id].status == StatusAfter(p.status, id).value)
  {
    Precedence(p.status);
  }

  /** The same in the words of the reports: a pass keeps a known connection exactly when a report has a row with
      its two ids, the source's first, and takes up exactly such connections that were not known, with the ends
      the row gives them. */
  lemma PassKeepsReported(t: Table, p: Pass)
    ensures var after := RunPass(t, p);
            && (forall id, m :: Reported(p.status, id, m) ==> id in after)
            && (forall id :: id in after ==> exists m :: Reported(p.status, id, m) && (id !in t ==> Tells(after[id], m)))
            && (forall id :: id in after && id in t ==> SameConnection(after[id], t[id]))
  {
    ReportedIds(p.status);
    MergeKeepsReported(t, t, p.status, p.clock);
    var reported, after := Written(AllEntries(p.status)), RunPass(t, p);
    forall id | id in after ensures exists m :: Reported(p.status, id, m) && (id !in t ==> Tells(after[id], m)) {
      var m :| Reported(p.status, id, m) && Tells(reported[id], m);
      StampTells(reported[id], p.clock(id), m);
    }
  }

  lemma StampTells(r: ConnectionRequest, now: string, m: Mapping)
    requires Tells(r, m)
    ensures Tells(Stamp(r, now), m)
  {
  }

  /** And its status: the last report decides if it has a row with the two ids, there an outstanding one before
      an unmapped one and that before a mapped one. */
  lemma LastReportDecides(t: Table, p: Pass, id: string, m: Mapping)
    requires p.status != [] && id == m.srcId + ":" + m.destId
    ensures var last, after := p.status[|p.status| - 1], RunPass(t, p);
            && (m in last.outstanding ==> id in after && after[id].status == "Pending")
            && (m in last.unmapped && !Listed(last.outstanding, id) ==> id in after && after[id].status == "Failed")
            && (m in last.mapped && !Listed(last.outstanding, id) && !Listed(last.unmapped, id) ==>
                  id in after && after[id].status == "Running")
  {
    PassStatus(t, p);
    var last := p.status[|p.status| - 1];
    ListedIsLists(last.outstanding, id);
    ListedIsLists(last.unmapped, id);
    ListedIsLists(last.mapped, id);
  }

  /** A list has a row with these ends. */
  ghost predicate Listed(ms: seq<Mapping>, id: string) {
    exists m :: m in ms && id == m.srcId + ":" + m.destId
  }

  lemma ListedIsLists(ms: seq<Mapping>, id: string)
    ensures Listed(ms, id) <==> Lists(ms, id)
  {
    if Listed(ms, id) {
      var m :| m in ms && id == m.srcId + ":" + m.destId;
      var i :| 0 <= i < |ms| && ms[i] == m;
      assert MappingId(ms[i]) == id;
    }
  }

  /** Passes that keep reporting an id keep everything of its record but the status and the times, and
      once the creation time is set they keep that too. */
  lemma {:induction false} ReportedRecordSurvives(t: Table, ps: seq<Pass>, id: string)
    requires id in t
    requires forall i :: 0 <= i < |ps| ==> StatusAfter(ps[i].status, id).Some?
    ensures var after := RunPasses(t, ps);
            && id in after
            && SameButTimes(after[id].(status := t[id].status), t[id])
            && after[id].status == (if ps == [] then t[id].status else StatusAfter(ps[|ps| - 1].status, id).value)
            && (t[id].creationTimestamp != "" ==> after[id].creationTimestamp == t[id].creationTimestamp)
  {
    if ps != [] {
      var front := ps[..|ps| - 1];
      forall i | 0 <= i < |front| ensures StatusAfter(front[i].status, id).Some? {
        assert front[i] == ps[i];
      }
      ReportedRecordSurvives(t, front, id);
      Precedence(ps[|ps| - 1].status);
    }
  }

  /** Hearing the same reports again changes nothing but times, and no creation time that was set. */
  lemma RepeatedPass(t: Table, status: seq<Report>, clock: string -> string, clock': string -> string)
    requires Keyed(t)
    requires forall id :: clock(id) != ""
    ensures var once := RunPass(t, Pass(status, clock));
            var twice := RunPass(once, Pass(status, clock'));
            && once.Keys == twice.Keys
            && (forall id :: id in once ==> SameButTimes(once[id], twice[id])
                                            && once[id].creationTimestamp == twice[id].creationTimestamp)
  {
    var reported := Written(AllEntries(status));
    var once := RunPass(t, Pass(status, clock));
    var twice := RunPass(once, Pass(status, clock'));
    assert once.Keys == reported.Keys == twice.Keys;
    forall id | id in once
      ensures SameButTimes(once[id], twice[id]) && once[id].creationTimestamp == twice[id].creationTimestamp
    {
      assert once[id] == Stamp(Reconciled(t, reported, id), clock(id));
      assert once[id].status == reported[id].status && once[id].creationTimestamp != "";
      assert twice[id] == Stamp(once[id].(status := reported[id].status), clock'(id));
    }
  }

  /** The two phases lose what another goroutine writes in between: a row removed after the snapshot
      comes back whole when it is reported, and an update of a reported row is undone. */
  lemma WriteBetweenPhasesIsLost(
      snapshot: Table, reported: Table, clock: string -> string, id: string, other: ConnectionRequest)
    requires id in snapshot && id in reported
    ensures var removed := Merge(snapshot, snapshot - {id}, reported, clock);
            var updated := Merge(snapshot, snapshot[id := other], reported, clock);
            && id in removed && id in updated
            && removed[id] == updated[id] == Stamp(snapshot[id].(status := reported[id].status), clock(id))
  {
  }

  /** A value another goroutine has written to an id between the two phases is there after them. */
  ghost predicate Survives(snapshot: Table, current: Table, reported: Table, clock: string -> string, id: string,
                           other: ConnectionRequest) {
    var after := Merge(snapshot, current[id := other], reported, clock); id in after && after[id] == other
  }

  /** Whatever is written to an id in between survives exactly when the id is neither in the snapshot nor
      reported; a removal in between survives exactly when the id is not reported. */
  lemma WriteSurvivesIff(snapshot: Table, current: Table, reported: Table, clock: string -> string, id: string)
    ensures (forall other: ConnectionRequest | other.id == id :: Survives(snapshot, current, reported, clock, id, other))
            <==> id !in snapshot && id !in reported
    ensures id !in Merge(snapshot, current - {id}, reported, clock) <==> id !in reported
  {
    if id in reported {
      var m := Stamp(Reconciled(snapshot, reported, id), clock(id));
      var other := m.(id := id, name := m.name + "'");
      assert Merge(snapshot, current[id := other], reported, clock)[id] == m;
      assert other.name != m.name;
      assert !Survives(snapshot, current, reported, clock, id, other);
    } else if id in snapshot {
      var other := snapshot[id].(id := id);
      assert !Survives(snapshot, current, reported, clock, id, other);
    }
  }
}
