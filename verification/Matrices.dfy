/** What vManage is told about a connection: the mapping matrix sent when it is made and when it is taken
    down.  pkg/connection-controller/awi_connection_controller.go, disconnect.go */
module Matrices {
  import opened Records
  import Store

  const CISCO_PROVIDER := "Cisco SDWAN"

  datatype Matrix = Matrix(
    sourceType: string,
    sourceId: string,
    destinationType: string,
    destinationId: string,
    enabled: bool)
  {
    function Reverse(): Matrix {
      Matrix(destinationType, destinationId, sourceType, sourceId, enabled)
    }

    function Flip(): Matrix {
      this.(enabled := !enabled)
    }
  }

  function NormalKind(kind: string): string {
    if ToLower(kind) == "vrf" then VPN else ToLower(kind)
  }

  /** normalizeNames */
  function Normalized(r: ConnectionRequest): ConnectionRequest {
    r.(source := r.source.(kind := NormalKind(r.source.kind), provider := ToLower(r.source.provider)),
       destination := r.destination.(kind := NormalKind(r.destination.kind), provider := ToLower(r.destination.provider)),
       name := if r.name == "" then r.source.name + " to " + r.destination.name else r.name)
  }

  /** A VPC's tag and region, as vManage knows or has just made them. */
  datatype Tag = Tag(name: string, region: string)

  function TaggedSource(s: Source, t: Tag): Source {
    if s.kind != VPC then s
    else s.(tag := t.name, region := t.region, name := if s.name == "" then t.name else s.name, kind := TAG)
  }

  function TaggedDestination(d: Destination, t: Tag): Destination {
    if d.kind != VPC then d
    else d.(tag := t.name, region := t.region, name := if d.name == "" then t.name else d.name, kind := TAG)
  }

  /** tagConnection */
  function Tagged(r: ConnectionRequest, s: Tag, d: Tag): ConnectionRequest {
    r.(source := TaggedSource(r.source, s), destination := TaggedDestination(r.destination, d))
  }

  /** createConnectionMatrices, for a request with no older version. */
  function MatrixEntries(r: ConnectionRequest, enable: bool): seq<Matrix> {
    var srcId := if r.source.tag != "" then r.source.tag else r.source.id;
    var destId := if r.destination.tag != "" then r.destination.tag else r.destination.id;
    [Matrix(r.source.kind, srcId, r.destination.kind, destId, enable),
     Matrix(r.destination.kind, destId, r.source.kind, srcId, enable)]
  }

  function CloudType(r: ConnectionRequest): string {
    ToUpper(if r.source.provider == CISCO_PROVIDER then r.destination.provider else r.source.provider)
  }

  /** createConnectionMatricesAndRemoveNotUsedConnections with a nil old request: updateIDs draws a name
      for a destination without one. */
  method ConnectionMatrices(request: RequestCell, enable: bool, randomName: string) returns (connections: seq<Matrix>)
    modifies request
    ensures connections == MatrixEntries(old(request.value), enable)
    ensures var r := old(request.value);
            var srcId := if r.source.tag == "" then r.source.id else r.source.tag;
            var destId := if r.destination.tag == "" then r.destination.id else r.destination.tag;
            connections == [Matrix(r.source.kind, srcId, r.destination.kind, destId, enable),
                            Matrix(r.destination.kind, destId, r.source.kind, srcId, enable)]
    ensures request.value == old(request.value).(destination := request.value.destination)
    ensures request.value.destination == old(request.value.destination).(dbId := request.value.destination.dbId)
    ensures request.value.destination.dbId ==
              (if old(request.value.destination.dbId) == "" then randomName else old(request.value.destination.dbId))
  {
    var r := request.value;
    var srcId := r.source.id;
    if r.source.tag != "" {
      srcId := r.source.tag;
    }
    var destId := r.destination.id;
    if r.destination.tag != "" {
      destId := r.destination.tag;
    }
    var matrix := Matrix(r.source.kind, srcId, r.destination.kind, destId, enable);
    connections := [matrix];
    matrix := Matrix(r.destination.kind, destId, r.source.kind, srcId, enable);
    connections := connections + [matrix];
    if r.destination.dbId == "" {
      request.value := r.(destination := r.destination.(dbId := randomName));
    }
  }

  method NormalizeNames(connection: RequestCell)
    modifies connection
    ensures connection.value == Normalized(old(connection.value))
    ensures Plain(old(connection.value), connection.value)
  {
    var c := connection.value;
    if ToLower(c.source.kind) == "vrf" {
      c := c.(source := c.source.(kind := VPN));
    }
    if ToLower(c.destination.kind) == "vrf" {
      c := c.(destination := c.destination.(kind := VPN));
    }
    LowerVpn();
    c := c.(destination := c.destination.(kind := ToLower(c.destination.kind)));
    c := c.(source := c.source.(kind := ToLower(c.source.kind)));
    c := c.(source := c.source.(provider := ToLower(c.source.provider)));
    c := c.(destination := c.destination.(provider := ToLower(c.destination.provider)));
    if c.name == "" {
      c := c.(name := c.source.name + " to " + c.destination.name);
    }
    connection.value := c;
    NormalizedIsPlain(old(connection.value));
  }

  /** A request in plain names: kinds and providers in lower case, a VRF as a VPN, never without a name, and
      nothing else changed. */
  ghost predicate Plain(asked: ConnectionRequest, r: ConnectionRequest) {
    && r.id == asked.id && r.status == asked.status && r.config == asked.config
    && r.source == asked.source.(kind := r.source.kind, provider := r.source.provider)
    && r.destination == asked.destination.(kind := r.destination.kind, provider := r.destination.provider)
    && r.source.kind == (if ToLower(asked.source.kind) == "vrf" then "vpn" else ToLower(asked.source.kind))
    && r.destination.kind == (if ToLower(asked.destination.kind) == "vrf" then "vpn" else ToLower(asked.destination.kind))
    && r.source.provider == ToLower(asked.source.provider) && r.destination.provider == ToLower(asked.destination.provider)
    && (asked.name != "" ==> r.name == asked.name)
    && (asked.name == "" ==> r.name == asked.source.name + " to " + asked.destination.name)
  }

  lemma NormalizedIsPlain(r: ConnectionRequest)
    ensures Plain(r, Normalized(r))
  {
  }

  lemma LowerVpn()
    ensures ToLower("vpn") == "vpn" && ToLower("tag") == "tag" && ToLower("vpc") == "vpc" && ToLower("vrf") == "vrf"
  {
    assert ToLower("vpn") == "vpn";
    assert ToLower("tag") == "tag";
    assert ToLower("vpc") == "vpc";
    assert ToLower("vrf") == "vrf";
  }

  lemma LowerIdempotent(s: string)
    ensures ToLower(ToLower(s)) == ToLower(s)
  {
  }

  lemma KindIsNormal(kind: string)
    ensures NormalKind(NormalKind(kind)) == NormalKind(kind)
  {
    LowerVpn();
    LowerIdempotent(kind);
  }

  /** The record a creation stores, up to its id, status and destination key. */
  function Prepared(request: ConnectionRequest, s: Tag, d: Tag): ConnectionRequest {
    Tagged(Normalized(request), s, d)
  }

  /** What a disconnect makes of a stored record before it builds its entries. */
  function Reprepared(stored: ConnectionRequest, s: Tag, d: Tag): ConnectionRequest {
    Normalized(Tagged(stored, s, d))
  }

  /** The ends of a stored record do not move, whatever vManage answers the second time. */
  lemma RepreparingKeepsEnds(request: ConnectionRequest, s: Tag, d: Tag, stored: ConnectionRequest, s': Tag, d': Tag)
    requires stored.source == Prepared(request, s, d).source
    requires stored.destination == Prepared(request, s, d).destination.(dbId := stored.destination.dbId)
    ensures MatrixEntries(Reprepared(stored, s', d'), false) == MatrixEntries(stored, false)
  {
    KindIsNormal(request.source.kind);
    KindIsNormal(request.destination.kind);
    LowerVpn();
  }

  /** How one end of a request goes into an entry: a VPC under the tag vManage answered with, a VPN under its own
      id, unless the request carries a tag for it, and an end that is a tag already under that tag. */
  ghost predicate GoesAs(kind: string, id: string, tag: string, answered: Tag, sentKind: string, sentId: string) {
    && (kind == "vpc" ==> sentKind == "tag" && sentId == answered.name && sentId != "")
    && (kind == "vpn" ==> sentKind == "vpn" && sentId == (if tag == "" then id else tag))
    && (kind == "tag" ==> sentKind == "tag" && sentId == (if tag == "" then id else tag))
  }

  /** What vManage is told of a connection: an entry from its source to its destination, and the same back. */
  ghost predicate Announces(entries: seq<Matrix>, r: ConnectionRequest, s: Tag, d: Tag, enabled: bool) {
    && |entries| == 2
    && GoesAs(r.source.kind, r.source.id, r.source.tag, s, entries[0].sourceType, entries[0].sourceId)
    && GoesAs(r.destination.kind, r.destination.id, r.destination.tag, d, entries[0].destinationType, entries[0].destinationId)
    && entries[1].sourceType == entries[0].destinationType && entries[1].sourceId == entries[0].destinationId
    && entries[1].destinationType == entries[0].sourceType && entries[1].destinationId == entries[0].sourceId
    && entries[0].enabled == entries[1].enabled == enabled
  }

  /** An answered tag has a name. */
  predicate Answered(r: ConnectionRequest, s: Tag, d: Tag) {
    (r.source.kind == VPC ==> s.name != "") && (r.destination.kind == VPC ==> d.name != "")
  }

  lemma PreparedAnnounces(r: ConnectionRequest, s: Tag, d: Tag)
    requires r.source.kind in {VPC, VPN} && r.destination.kind in {VPC, VPN} && Answered(r, s, d)
    ensures Announces(MatrixEntries(Prepared(r, s, d), true), r, s, d, true)
  {
    LowerVpn();
  }

  lemma RepreparedAnnounces(r: ConnectionRequest, s: Tag, d: Tag)
    requires Answered(r, s, d)
    ensures Announces(MatrixEntries(Reprepared(r, s, d), false), r, s, d, false)
  {
    LowerVpn();
  }

  /** A VPN end is told by its own id exactly when the request carries no tag for it, or the id for a tag. */
  lemma ToldByOwnIdIff(r: ConnectionRequest, s: Tag, d: Tag, enable: bool)
    requires r.source.kind == "vpn"
    ensures MatrixEntries(Prepared(r, s, d), enable)[0].sourceId == r.source.id
            <==> r.source.tag == "" || r.source.tag == r.source.id
  {
    LowerVpn();
  }

  function FlipAll(ms: seq<Matrix>): seq<Matrix> {
    seq(|ms|, i requires 0 <= i < |ms| => ms[i].Flip())
  }

  /** Taking a connection down disables exactly what making it enabled, in the same order, after any
      number of mapping passes that keep reporting it, whatever tags vManage answers with then. */
  lemma DisconnectUndoesConnect(
      request: ConnectionRequest, s: Tag, d: Tag, saved: ConnectionRequest,
      table: Store.Table, passes: seq<Store.Pass>, s': Tag, d': Tag)
    requires saved.source == Prepared(request, s, d).source
    requires saved.destination == Prepared(request, s, d).destination.(dbId := saved.destination.dbId)
    requires saved.id in table && table[saved.id] == saved
    requires forall i :: 0 <= i < |passes| ==> Store.StatusAfter(passes[i].status, saved.id).Some?
    ensures var now := Store.RunPasses(table, passes);
            && saved.id in now
            && MatrixEntries(Reprepared(now[saved.id], s', d'), false) == FlipAll(MatrixEntries(Prepared(request, s, d), true))
  {
    Store.ReportedRecordSurvives(table, passes, saved.id);
    var now := Store.RunPasses(table, passes)[saved.id];
    assert now.source == saved.source && now.destination == saved.destination;
    RepreparingKeepsEnds(request, s, d, now, s', d');
  }

  /** Both directions are always sent. */
  lemma EntriesComeInPairs(r: ConnectionRequest, enable: bool)
    ensures forall m :: m in MatrixEntries(r, enable) ==> m.Reverse() in MatrixEntries(r, enable) && m.enabled == enable
  {
    var e := MatrixEntries(r, enable);
    assert e[0].Reverse() == e[1] && e[1].Reverse() == e[0];
  }

  /** A request that comes with the status of a watcher keeps it until a mapping pass: what a pass reports
      is Running, Failed or Pending.  So a stored record is taken for a watcher, and removed without being
      disconnected, exactly when it was saved as one and no pass has run since. */
  lemma TakenForWatcherIff(table: Store.Table, passes: seq<Store.Pass>, id: string)
    requires id in table
    requires forall i :: 0 <= i < |passes| ==> Store.StatusAfter(passes[i].status, id).Some?
    ensures var now := Store.RunPasses(table, passes);
            id in now && (now[id].status == WATCHING <==> table[id].status == WATCHING && passes == [])
  {
    Store.ReportedRecordSurvives(table, passes, id);
    if passes != [] {
      ReportedStatus(passes[|passes| - 1].status, id);
    }
  }

  lemma {:induction false} ReportedStatus(status: seq<Store.Report>, id: string)
    requires Store.StatusAfter(status, id).Some?
    ensures Store.StatusAfter(status, id).value in {RUNNING, FAILED, PENDING}
  {
    if Store.StatusIn(status[|status| - 1], id).None? {
      ReportedStatus(status[..|status| - 1], id);
    }
  }

  /** The provider names are lowered before the cloud is chosen, so the test for the Cisco provider never
      succeeds: a connection that starts in a VPN is sent with the VPN's own provider as its cloud. */
  lemma CloudIsAlwaysTheSources(r: ConnectionRequest)
    ensures CloudType(Normalized(r)) == ToUpper(ToLower(r.source.provider))
  {
    var p := ToLower(r.source.provider);
    if p != "" {
      assert p[0] == LowerChar(r.source.provider[0]) != CISCO_PROVIDER[0];
    }
  }
}
