/** The life of a network domain connection: creation by the user or by the periodic refresh, and deletion.
    Every call may fail.  pkg/connection-controller/awi_connection_controller.go, disconnect.go */
module Controller {
  import opened Records
  import opened Selectors
  import opened Matrices
  import opened Store

  datatype Connector = VManage | Awi

  /** An inbound default-allow rule: the VPC it is in, the security group, and the tag it carries.  The
      region is no part of it: it is not known yet when the rule is added. */
  datatype AllowRule = AllowRule(vpc: string, group: string, tag: string)

  function Dashed(s: string): (r: string)
    ensures |r| == |s| && forall i :: 0 <= i < |s| ==> r[i] == (if s[i] == ' ' then '-' else s[i])
  {
    seq(|s|, i requires 0 <= i < |s| => if s[i] == ' ' then '-' else s[i])
  }

  function RuleOf(r: ConnectionRequest): AllowRule {
    AllowRule(r.destination.id, "awi-" + Dashed(r.name) + "-sg", "default-" + r.source.id)
  }

  /** The rule of the connection between its VPC and the source it is tagged with. */
  predicate Belongs(rule: AllowRule, key: string) {
    |rule.tag| >= 8 && PairId(rule.tag[8..], rule.vpc) == key
  }

  lemma RuleBelongs(r: ConnectionRequest)
    ensures Belongs(RuleOf(r), Key(r))
  {
    assert RuleOf(r).tag[8..] == r.source.id;
  }

  /** A rule with the default tag of a source belongs to the connection of that source with the rule's VPC. */
  lemma BelongsIff(rule: AllowRule, source: string, key: string)
    requires rule.tag == "default-" + source
    ensures Belongs(rule, key) <==> key == source + ":" + rule.vpc
  {
    assert rule.tag[8..] == source;
  }

  predicate InCloud(kind: string) {
    kind == VPC || kind == TAG
  }

  predicate NeedsRule(r: ConnectionRequest) {
    InCloud(r.source.kind) && InCloud(r.destination.kind) && r.destination.defaultAccess == "allow"
  }

  function Ends(r: ConnectionRequest): set<(string, string)> {
    {(r.id, r.source.id), (r.id, r.destination.id)}
  }

  /** What the AWI connector promises of a stored connection. */
  predicate InPlace(r: ConnectionRequest, links: set<(string, string)>, rules: set<AllowRule>) {
    r.status == RUNNING && Ends(r) <= links && (NeedsRule(r) ==> RuleOf(r) in rules)
  }

  /** The same spelled out: a connection is Running, both its VPCs are linked under its id, and where both ends are in
      a cloud and access is allowed there is a rule for the source in the destination. */
  ghost predicate Kept(r: ConnectionRequest, links: set<(string, string)>, rules: set<AllowRule>) {
    && r.status == "Running" && r.id == r.source.id + ":" + r.destination.id
    && (r.id, r.source.id) in links && (r.id, r.destination.id) in links
    && (r.source.kind in {"vpc", "tag"} && r.destination.kind in {"vpc", "tag"} && r.destination.defaultAccess == "allow" ==>
          AllowRule(r.destination.id, "awi-" + Dashed(r.name) + "-sg", "default-" + r.source.id) in rules)
  }

  lemma ConsistentMeans(requests: Table, links: set<(string, string)>, rules: set<AllowRule>, broken: set<string>)
    requires Consistent(requests, links, rules, broken)
    ensures forall id :: id in requests && requests[id].status != "Watching" && id !in broken ==> Kept(requests[id], links, rules)
    ensures forall id :: id in requests && requests[id].status != "Watching" && id in broken ==>
              (id, requests[id].source.id) !in links || (id, requests[id].destination.id) !in links
  {
    forall id | id in requests && requests[id].status != "Watching" && id !in broken ensures Kept(requests[id], links, rules) {
      var r := requests[id];
      assert (r.id, r.source.id) in Ends(r) && (r.id, r.destination.id) in Ends(r);
    }
  }

  /** Every connection that is not a watcher is in place, unless it is broken: then it has lost a link. */
  ghost predicate Consistent(requests: Table, links: set<(string, string)>, rules: set<AllowRule>, broken: set<string>) {
    forall id :: id in requests && requests[id].status != WATCHING ==>
      && requests[id].id == id == PairId(requests[id].source.id, requests[id].destination.id)
      && if id in broken then !(Ends(requests[id]) <= links) else InPlace(requests[id], links, rules)
  }

  /** A rule belongs to one connection. */
  lemma RuleDeterminesId(r: ConnectionRequest, r': ConnectionRequest)
    requires RuleOf(r).vpc == RuleOf(r').vpc && RuleOf(r).tag == RuleOf(r').tag
    ensures PairId(r.source.id, r.destination.id) == PairId(r'.source.id, r'.destination.id)
  {
    assert RuleOf(r).tag[8..] == r.source.id && RuleOf(r').tag[8..] == r'.source.id;
  }

  lemma DropRuleConsistent(requests: Table, links: set<(string, string)>, rules: set<AllowRule>, broken: set<string>,
                           r: ConnectionRequest)
    requires Consistent(requests, links, rules, broken)
    requires PairId(r.source.id, r.destination.id) in broken
    ensures Consistent(requests, links, rules - {RuleOf(r)}, broken)
  {
    forall id | id in requests && requests[id].status != WATCHING && id !in broken
      ensures InPlace(requests[id], links, rules - {RuleOf(r)})
    {
      if RuleOf(requests[id]) == RuleOf(r) {
        RuleDeterminesId(requests[id], r);
      }
    }
  }

  /** Taking links away from a connection breaks that one and no other. */
  lemma DropLinksConsistent(requests: Table, links: set<(string, string)>, rules: set<AllowRule>, broken: set<string>,
                            id: string, gone: set<(string, string)>)
    requires Consistent(requests, links, rules, broken)
    requires id in requests && requests[id].id == id && gone != {} && gone <= Ends(requests[id])
    ensures Consistent(requests, links - gone, rules, broken + {id})
  {
    var l :| l in gone;
    assert l in Ends(requests[id]) && l !in links - gone;
  }

  /** New rules, and new links under an id without a record, disturb nobody. */
  lemma MoreKeepsConsistent(requests: Table, links: set<(string, string)>, links': set<(string, string)>,
                            rules: set<AllowRule>, rules': set<AllowRule>, broken: set<string>, key: string)
    requires Consistent(requests, links, rules, broken) && links <= links' && rules <= rules'
    requires key !in requests && forall l :: l in links' - links ==> l.0 == key
    ensures Consistent(requests, links', rules', broken)
  {
  }

  lemma NewRecordConsistent(requests: Table, links: set<(string, string)>, rules: set<AllowRule>, broken: set<string>,
                            r: ConnectionRequest)
    requires Consistent(requests, links, rules, broken)
    requires r.id == Key(r) && r.id !in broken && InPlace(r, links, rules)
    ensures Consistent(requests[r.id := r], links, rules, broken)
  {
  }

  /** What the user asks for; `access` is the access type of the first policy the request matches, if any. */
  datatype Intent = Intent(name: string, spec: Spec, sourceName: string, destinationName: string,
                           sourceSite: string, destinationSite: string, access: Option<string>, watch: bool)

  function DefaultAccess(access: Option<string>): string {
    if access.Some? then ToLower(access.value) else ""
  }

  function BaseRequest(c: Intent): ConnectionRequest {
    ConnectionRequest("", c.name, PENDING,
      Source(c.spec.source.id, c.sourceName, c.sourceSite, "", "", "", [], "", ""),
      Destination("", c.destinationName, c.destinationSite, c.spec.destination.id, "", "", DefaultAccess(c.access), "", ""),
      c.spec, "", "")
  }

  function WatchOf(base: ConnectionRequest): ConnectionRequest {
    base.(status := WATCHING, id := "watch-of-" + Dashed(base.name))
  }

  function Key(r: ConnectionRequest): string {
    PairId(r.source.id, r.destination.id)
  }

  /** Discovery writes domains of two kinds only. */
  predicate Discovered(domains: seq<NetworkDomain>) {
    forall nd :: nd in domains ==> nd.kind == VPC || nd.kind == VPN
  }

  predicate Fits(r: ConnectionRequest) {
    (r.source.kind == VPC || r.source.kind == VPN) && (r.destination.kind == VPC || r.destination.kind == VPN)
  }

  /** A request whose VPCs have been linked: Running, tagged with its own names, in the regions `at` the
      providers answered with. */
  function Linked(r: ConnectionRequest, at: ConnectionRequest): ConnectionRequest {
    r.(source := r.source.(tag := r.source.name, region := at.source.region),
       destination := r.destination.(tag := r.destination.name, region := at.destination.region),
       status := RUNNING)
  }

  /** A request that createVPCPolicy refuses with no call failing: its rule would have no addresses. */
  predicate Barren(r: ConnectionRequest, subnetless: set<string>) {
    NeedsRule(Normalized(r)) && r.source.id in subnetless
  }

  /** A request between VPCs and VPNs needs a rule exactly if both are VPCs and access is allowed; then it is one
      in the destination, tagged with the source. */
  lemma FittingRule(r: ConnectionRequest)
    requires Fits(r)
    ensures NeedsRule(Normalized(r)) <==>
              r.source.kind == "vpc" && r.destination.kind == "vpc" && r.destination.defaultAccess == "allow"
    ensures RuleOf(Normalized(r)) ==
              AllowRule(r.destination.id, "awi-" + Dashed(Normalized(r).name) + "-sg", "default-" + r.source.id)
  {
    LowerVpn();
  }

  /** What is recorded of a request: its ends, its specification, its access and its name, under the id its ends
      give; Running and tagged with the ends' names with the AWI connector, and with vManage the status it came with and a
      tag for a VPC. */
  ghost predicate Recorded(connector: Connector, asked: ConnectionRequest, r: ConnectionRequest) {
    && r.id == asked.source.id + ":" + asked.destination.id
    && r.source.id == asked.source.id && r.destination.id == asked.destination.id
    && r.config == asked.config && r.destination.defaultAccess == asked.destination.defaultAccess
    && r.name == (if asked.name == "" then asked.source.name + " to " + asked.destination.name else asked.name)
    && r.status == (if connector.Awi? then "Running" else asked.status)
    && (connector.Awi? ==> r.source.tag == asked.source.name && r.destination.tag == asked.destination.name)
    && r.source.kind == (if connector.VManage? && asked.source.kind == "vpc" then "tag" else asked.source.kind)
    && r.destination.kind == (if connector.VManage? && asked.destination.kind == "vpc" then "tag" else asked.destination.kind)
  }

  /** Every new record is that of a request among some. */
  ghost predicate Sprung(connector: Connector, before: Table, now: Table, wanted: seq<ConnectionRequest>) {
    forall id :: id in now && id !in before ==> RecordedOne(connector, wanted, now[id])
  }

  ghost predicate RecordedOne(connector: Connector, wanted: seq<ConnectionRequest>, r: ConnectionRequest) {
    exists q :: q in wanted && Recorded(connector, q, r)
  }

  lemma SprungOneMore(connector: Connector, start: Table, before: Table, now: Table, done: seq<ConnectionRequest>,
                      r: ConnectionRequest)
    requires Sprung(connector, start, before, done) && Sprung(connector, before, now, [r])
    requires forall id :: id in before ==> id in now && now[id] == before[id]
    ensures Sprung(connector, start, now, done + [r])
  {
    forall id | id in now && id !in start ensures RecordedOne(connector, done + [r], now[id]) {
      if id in before {
        var q :| q in done && Recorded(connector, q, before[id]);
        assert q in done + [r];
      } else {
        assert r in done + [r];
      }
    }
  }

  lemma OneSprung(connector: Connector, before: Table, now: Table, r: ConnectionRequest)
    requires now == before || (Key(r) in now && now - {Key(r)} == before)
    requires Key(r) in now && Key(r) !in before ==> Recorded(connector, r, now[Key(r)])
    ensures Sprung(connector, before, now, [r])
  {
    forall id | id in now && id !in before ensures RecordedOne(connector, [r], now[id]) {
      assert id in now - {Key(r)} || id == Key(r);
      assert r in [r];
    }
  }

  /** A round of attempts: the i-th makes the calls from marks[i] up to marks[i + 1], and if none of these
      fails its request has its record, or a tombstone it respects. */
  ghost predicate Attempts(replies: nat -> Reply, subnetless: set<string>, wanted: seq<ConnectionRequest>, force: bool,
                           marks: seq<nat>, calls: nat, table: Table, tombstones: set<string>) {
    && |marks| == |wanted| + 1 && marks[|wanted|] == calls
    && (forall i :: 0 <= i < |wanted| ==>
          && marks[i] <= marks[i + 1]
          && (SmoothBetween(replies, marks[i], marks[i + 1]) && !Barren(wanted[i], subnetless) ==>
                Key(wanted[i]) in table || (!force && Key(wanted[i]) in tombstones)))
  }

  lemma AttemptsOneMore(replies: nat -> Reply, subnetless: set<string>, wanted: seq<ConnectionRequest>, force: bool,
                        marks: seq<nat>, before: Table, tombstonesBefore: set<string>, now: Table, tombstones: set<string>,
                        r: ConnectionRequest, calls: nat)
    requires marks != [] && marks[|marks| - 1] <= calls && before.Keys <= now.Keys
    requires Attempts(replies, subnetless, wanted, force, marks, marks[|marks| - 1], before, tombstonesBefore)
    requires force || tombstonesBefore == tombstones
    requires SmoothBetween(replies, marks[|marks| - 1], calls) && !Barren(r, subnetless) ==>
               Key(r) in now || (!force && Key(r) in tombstones)
    ensures Attempts(replies, subnetless, wanted + [r], force, marks + [calls], calls, now, tombstones)
  {
  }

  /** What a round of attempts has done to the table and the tombstones: only ids that can get a record are
      new; if none failed each has its record or a tombstone it respects, if no call failed each that can
      get one, and then one that failed could not. */
  ghost predicate Round(start: Table, now: Table, done: seq<ConnectionRequest>, subnetless: set<string>, force: bool,
                        tombstonesBefore: set<string>, tombstones: set<string>, failed: bool, smooth: bool) {
    && Grows(start, now, Open(Bearing(done, subnetless), force, tombstonesBefore))
    && tombstones == (if force then tombstonesBefore - Keys(done) else tombstonesBefore)
    && (!failed ==> Open(Keys(done), force, tombstones) <= now.Keys)
    && (smooth ==> Open(Bearing(done, subnetless), force, tombstones) <= now.Keys)
    && (smooth && failed ==> MissesOne(done, subnetless, start))
  }

  lemma RoundOneMore(start: Table, before: Table, now: Table, done: seq<ConnectionRequest>, r: ConnectionRequest,
                     subnetless: set<string>, force: bool, t0: set<string>, t1: set<string>, t2: set<string>,
                     failed: bool, smooth: bool, failedToo: bool, smoothToo: bool)
    requires Round(start, before, done, subnetless, force, t0, t1, failed, smooth)
    requires Round(before, now, [r], subnetless, force, t1, t2, failedToo, smoothToo)
    ensures Round(start, now, done + [r], subnetless, force, t0, t2, failed || failedToo, smooth && smoothToo)
  {
    BearingConcat(done, [r], subnetless);
    BearingConcat(done, [r], {});
    OpenUnion(Bearing(done, subnetless), Bearing([r], subnetless), force, t1, t2);
    OpenUnion(Keys(done), Keys([r]), force, t1, t2);
    GrowsFurther(start, before, now, Bearing(done, subnetless), Bearing([r], subnetless), force, t0, t1);
    MissesOneMore(done, r, subnetless, start, before);
  }

  lemma OpenUnion(ids: set<string>, more: set<string>, force: bool, t1: set<string>, t2: set<string>)
    requires force || t1 == t2
    ensures Open(ids + more, force, t2) == Open(ids, force, t1) + Open(more, force, t2)
  {
  }

  lemma MissesOneMore(done: seq<ConnectionRequest>, r: ConnectionRequest, subnetless: set<string>, start: Table, before: Table)
    requires start.Keys <= before.Keys
    ensures MissesOne(done, subnetless, start) || MissesOne([r], subnetless, before) ==>
              MissesOne(done + [r], subnetless, start)
  {
    if MissesOne(done, subnetless, start) {
      var q :| q in done && Barren(q, subnetless) && Key(q) !in start;
      assert q in done + [r];
    } else if MissesOne([r], subnetless, before) {
      assert r in done + [r];
    }
  }

  /** A request without addresses to allow, for an id without a record. */
  ghost predicate MissesOne(wanted: seq<ConnectionRequest>, subnetless: set<string>, table: Table) {
    exists r :: r in wanted && Barren(r, subnetless) && Key(r) !in table
  }

  /** Links and rules have come, and all of them belong to one connection. */
  ghost predicate MoreOf(links: set<(string, string)>, links': set<(string, string)>, rules: set<AllowRule>,
                         rules': set<AllowRule>, key: string) {
    && links <= links' && (forall l :: l in links' - links ==> l.0 == key)
    && rules <= rules' && (forall r :: r in rules' - rules ==> Belongs(r, key))
  }

  lemma MoreOneMore(a: set<(string, string)>, b: set<(string, string)>, c: set<(string, string)>,
                    x: set<AllowRule>, y: set<AllowRule>, z: set<AllowRule>, key: string)
    requires MoreOf(a, b, x, y, key) && MoreOf(b, c, y, z, key)
    ensures MoreOf(a, c, x, z, key)
  {
  }

  /** Links and rules have gone, and with the AWI connector all of them belonged to some connections. */
  ghost predicate LessOf(connector: Connector, links: set<(string, string)>, links': set<(string, string)>,
                         rules: set<AllowRule>, rules': set<AllowRule>, ids: set<string>) {
    && links' <= links && rules' <= rules
    && (connector.Awi? ==> forall l :: l in links - links' ==> l.0 in ids)
    && (connector.Awi? ==> forall r :: r in rules - rules' ==> exists id :: id in ids && Belongs(r, id))
  }

  lemma LessOneMore(connector: Connector, a: set<(string, string)>, b: set<(string, string)>, c: set<(string, string)>,
                    x: set<AllowRule>, y: set<AllowRule>, z: set<AllowRule>, ids: set<string>, id: string)
    requires LessOf(connector, a, b, x, y, ids) && LessOf(connector, b, c, y, z, {id})
    ensures LessOf(connector, a, c, x, z, ids + {id})
  {
    if connector.Awi? {
      forall r | r in x - z ensures exists i :: i in ids + {id} && Belongs(r, i) {
        if r in y {
          assert r in y - z && id in ids + {id};
        } else {
          assert r in x - y;
          var i :| i in ids && Belongs(r, i);
          assert i in ids + {id};
        }
      }
    }
  }

  ghost predicate AllGone(table: Table, ids: set<string>, links: set<(string, string)>, rules: set<AllowRule>) {
    forall id :: id in ids && id in table ==> Gone(table[id], links, rules)
  }

  /** What a removal works on. */
  datatype World = World(requests: Table, links: set<(string, string)>, rules: set<AllowRule>, sent: seq<Matrix>,
                         broken: set<string>)

  /** What a creation means for a request r between VPCs and VPNs.  A rule comes only for two VPCs with access
      allowed.  A new record says what was asked, and then everything of the connection is there: with vManage
      its two entries have been sent, with AWI both VPCs are linked, and the rule is in the destination. */
  ghost predicate Made(connector: Connector, r: ConnectionRequest, w: World, w': World, s: Tag, d: Tag) {
    var key := r.source.id + ":" + r.destination.id;
    && (r.source.kind != "vpc" || r.destination.kind != "vpc" || r.destination.defaultAccess != "allow" ==>
          w'.rules == w.rules)
    && (key in w'.requests && key !in w.requests ==>
          && Recorded(connector, r, w'.requests[key])
          && (connector.VManage? ==> w.sent <= w'.sent && Announces(w'.sent[|w.sent|..], r, s, d, true))
          && (connector.Awi? ==> (key, r.source.id) in w'.links && (key, r.destination.id) in w'.links)
          && (r.source.kind == "vpc" && r.destination.kind == "vpc" && r.destination.defaultAccess == "allow" ==>
                AllowRule(r.destination.id, "awi-" + Dashed(w'.requests[key].name) + "-sg", "default-" + r.source.id)
                in w'.rules))
  }

  /** A pair of domains the user's specification selects, each side by id, by name or by labels. */
  ghost predicate Wants(fold: char -> char, spec: Spec, sd: NetworkDomain, dd: NetworkDomain) {
    && (|| (spec.source.id != "" && sd.id == spec.source.id)
        || (spec.source.name != "" && sd.name == spec.source.name)
        || CountMatches(fold, spec.source.labels, sd.labels))
    && (|| (spec.destination.id != "" && dd.id == spec.destination.id)
        || (spec.destination.name != "" && dd.name == spec.destination.name)
        || CountMatches(fold, spec.destination.labels, dd.labels))
  }

  /** A record made for the user's request: between a selected pair, as asked for, and not yet connected unless AWI
      has connected it. */
  ghost predicate MadeFor(connector: Connector, fold: char -> char, csr: Intent, domains: seq<NetworkDomain>,
                          r: ConnectionRequest) {
    && r.status == (if connector.Awi? then "Running" else "Pending")
    && r.config == csr.spec && (csr.name != "" ==> r.name == csr.name)
    && r.destination.defaultAccess == (if csr.access.Some? then ToLower(csr.access.value) else "")
    && exists sd, dd :: sd in domains && dd in domains && Wants(fold, csr.spec, sd, dd)
                        && r.source.id == sd.id && r.destination.id == dd.id && r.id == sd.id + ":" + dd.id
  }

  /** A watcher goes on looking for what the request selects. */
  ghost predicate WatchesFor(csr: Intent, r: ConnectionRequest) {
    && r.status == "Watching" && r.config == csr.spec && r.name == csr.name
    && r.source.id == csr.spec.source.id && r.destination.id == csr.spec.destination.id
    && r.destination.defaultAccess == (if csr.access.Some? then ToLower(csr.access.value) else "")
  }

  /** What became of the user's request. */
  ghost predicate Answers(connector: Connector, fold: char -> char, csr: Intent, domains: seq<NetworkDomain>,
                          w: World, w': World, err: bool) {
    var watch := "watch-of-" + Dashed(csr.name);
    && (csr.access.None? || ToLower(csr.access.value) != "allow" ==> w'.rules == w.rules)
    && (!err ==> forall sd, dd :: sd in domains && dd in domains && Wants(fold, csr.spec, sd, dd) ==>
          sd.id + ":" + dd.id in w'.requests)
    && (!err && csr.watch ==> watch in w'.requests && WatchesFor(csr, w'.requests[watch]))
    && (forall id :: id in w'.requests && id !in w.requests ==>
          (csr.watch && id == watch) || MadeFor(connector, fold, csr, domains, w'.requests[id]))
  }

  /** The requests the user's one expands to. */
  lemma WantedRequests(fold: char -> char, csr: Intent, domains: seq<NetworkDomain>)
    requires Expansion(fold, BaseRequest(csr), domains).Some?
    ensures forall r :: r in Expansion(fold, BaseRequest(csr), domains).value ==>
              && r.status == "Pending" && r.config == csr.spec && r.name == csr.name
              && r.source.tag == "" && r.destination.tag == ""
              && r.destination.defaultAccess == (if csr.access.Some? then ToLower(csr.access.value) else "")
              && exists sd, dd :: sd in domains && dd in domains && Wants(fold, csr.spec, sd, dd)
                                  && r.source.id == sd.id && r.destination.id == dd.id
    ensures forall sd, dd :: sd in domains && dd in domains && Wants(fold, csr.spec, sd, dd) ==>
              sd.id + ":" + dd.id in Keys(Expansion(fold, BaseRequest(csr), domains).value)
  {
    var base := BaseRequest(csr);
    PairsExpand(fold, base, domains);
    forall sd, dd ensures Pairs(fold, base, sd, dd) <==> Wants(fold, csr.spec, sd, dd) {}
    var expansion := Expansion(fold, base, domains).value;
    forall sd, dd | sd in domains && dd in domains && Wants(fold, csr.spec, sd, dd)
      ensures sd.id + ":" + dd.id in Keys(expansion)
    {
      var r := WithDestination(WithSource(base, sd), dd);
      assert Between(base, sd, dd, r) && r in expansion;
    }
  }

  lemma AnswersHold(connector: Connector, fold: char -> char, csr: Intent, domains: seq<NetworkDomain>,
                    w: World, start: Table, w': World, wanted: seq<ConnectionRequest>, err: bool)
    requires var base := BaseRequest(csr);
      && (start == w.requests || (csr.watch && start == w.requests[WatchOf(base).id := WatchOf(base)]))
      && (!err && csr.watch ==> start == w.requests[WatchOf(base).id := WatchOf(base)])
    requires Expansion(fold, BaseRequest(csr), domains) == Some(wanted) || (wanted == [] && err)
    requires Sprung(connector, start, w'.requests, wanted)
    requires forall id :: id in start ==> id in w'.requests && w'.requests[id] == start[id]
    requires !err ==> Keys(wanted) <= w'.requests.Keys
    requires NoneAllows(wanted) ==> w'.rules == w.rules
    ensures Answers(connector, fold, csr, domains, w, w', err)
  {
    if wanted != [] || !err {
      WantedRequests(fold, csr, domains);
    }
    forall id | id in w'.requests && id !in start ensures MadeFor(connector, fold, csr, domains, w'.requests[id]) {
      var r :| r in wanted && Recorded(connector, r, w'.requests[id]);
      var sd, dd :| sd in domains && dd in domains && Wants(fold, csr.spec, sd, dd)
                    && r.source.id == sd.id && r.destination.id == dd.id;
      assert w'.requests[id].id == sd.id + ":" + dd.id;
    }
  }

  ghost predicate NoneAllows(rs: seq<ConnectionRequest>) {
    forall r :: r in rs ==> r.destination.defaultAccess != "allow"
  }

  lemma AllowsOneMore(done: seq<ConnectionRequest>, r: ConnectionRequest)
    ensures NoneAllows(done + [r]) <==> NoneAllows(done) && r.destination.defaultAccess != "allow"
  {
    assert r in done + [r];
    forall q | q in done ensures q in done + [r] {}
  }

  /** The removal of one id, as far as it came: its record goes last, nothing of another connection is
      touched, and a watcher is removed as a record only. */
  ghost predicate RemovedOne(connector: Connector, w: World, w': World, id: string, s: Tag, d: Tag, err: bool) {
    && (w'.requests == w.requests || w'.requests == w.requests - {id})
    && (!err ==> id !in w'.requests)
    && w'.broken - {id} == w.broken - {id}
    && LessOf(connector, w.links, w'.links, w.rules, w'.rules, {id})
    && (id !in w.requests || w.requests[id].status == WATCHING ==>
          w'.links == w.links && w'.rules == w.rules && w'.sent == w.sent)
    && (!err && connector.Awi? && id in w.requests ==> Gone(w.requests[id], w'.links, w'.rules))
    && (!err && connector.VManage? ==> w'.sent == w.sent + Order(w.requests, id, s, d))
  }

  /** The complete removal of a list of ids. */
  ghost predicate Removed(connector: Connector, w: World, w': World, ids: seq<string>, told: seq<(Tag, Tag)>) {
    && w'.requests == w.requests - Elements(ids)
    && w'.broken - Elements(ids) == w.broken - Elements(ids)
    && LessOf(connector, w.links, w'.links, w.rules, w'.rules, Elements(ids))
    && (connector.Awi? ==> AllGone(w.requests, Elements(ids), w'.links, w'.rules))
    && |told| == |ids|
    && (connector.VManage? ==> w'.sent == w.sent + Orders(w.requests, ids, told))
  }

  lemma SameOutside(a: set<string>, b: set<string>, c: set<string>, ids: set<string>, id: string)
    requires b - ids == a - ids && c - {id} == b - {id}
    ensures c - (ids + {id}) == a - (ids + {id})
  {
    forall x | x !in ids + {id} ensures x in c <==> x in a {
      assert x in c - {id} <==> x in b - {id};
      assert x in b - ids <==> x in a - ids;
    }
  }

  lemma TakeOneMore<T>(xs: seq<T>, i: nat)
    requires i < |xs|
    ensures xs[..i + 1] == xs[..i] + [xs[i]]
  {
  }

  lemma PrefixOneMore(ids: seq<string>, i: nat)
    requires i < |ids|
    ensures ids[..i + 1] == ids[..i] + [ids[i]] && ids[i] in Elements(ids)
    ensures Elements(ids[..i + 1]) == Elements(ids[..i]) + {ids[i]}
  {
    ElementsAppend(ids[..i], ids[i]);
    assert ids[..i + 1] == ids[..i] + [ids[i]];
  }

  lemma GoneOneMore(table: Table, links: set<(string, string)>, links': set<(string, string)>,
                    rules: set<AllowRule>, rules': set<AllowRule>, ids: set<string>, id: string)
    requires AllGone(table, ids, links, rules) && links' <= links && rules' <= rules
    requires id in table && id !in ids ==> Gone(table[id], links', rules')
    ensures AllGone(table, ids + {id}, links', rules')
  {
  }

  lemma TableOneLess(a: Table, b: Table, c: Table, ids: set<string>, id: string)
    requires b == a - ids && (c == b || c == b - {id}) && id !in c
    ensures c == a - (ids + {id})
  {
  }

  lemma RemovedOneMore(connector: Connector, w: World, now: World, then_: World, ids: seq<string>, told: seq<(Tag, Tag)>,
                       id: string, s: Tag, d: Tag)
    requires Removed(connector, w, now, ids, told) && RemovedOne(connector, now, then_, id, s, d, false)
    ensures Removed(connector, w, then_, ids + [id], told + [(s, d)])
  {
    ElementsAppend(ids, id);
    var done := Elements(ids);
    SameOutside(w.broken, now.broken, then_.broken, done, id);
    TableOneLess(w.requests, now.requests, then_.requests, done, id);
    LessOneMore(connector, w.links, now.links, then_.links, w.rules, now.rules, then_.rules, done, id);
    if connector.Awi? {
      GoneOneMore(w.requests, now.links, then_.links, now.rules, then_.rules, done, id);
    } else {
      OrdersOneMore(w.requests, ids, now.requests, id, told, s, d);
    }
  }

  /** What is certain of a removal that stopped at an id. */
  lemma RemovedInPart(connector: Connector, w: World, now: World, then_: World, ids: seq<string>, told: seq<(Tag, Tag)>,
                      id: string, s: Tag, d: Tag, all: seq<string>)
    requires Removed(connector, w, now, ids, told) && RemovedOne(connector, now, then_, id, s, d, true)
    requires ids + [id] <= all
    ensures Spared(connector, w, then_, all)
  {
    ElementsAppend(ids, id);
    var done := Elements(ids);
    forall x | x in done + {id} ensures x in all {
      assert x in ids + [id];
    }
    SameOutside(w.broken, now.broken, then_.broken, done, id);
    forall x | x !in all ensures x in then_.broken <==> x in w.broken {
      assert x in then_.broken - (done + {id}) <==> x in w.broken - (done + {id});
    }
    LessOneMore(connector, w.links, now.links, then_.links, w.rules, now.rules, then_.rules, done, id);
    LessOfMore(connector, w.links, then_.links, w.rules, then_.rules, done + {id}, Elements(all));
  }

  /** A removal of some ids, however it ended, has touched nothing else. */
  ghost predicate Spared(connector: Connector, w: World, w': World, ids: seq<string>) {
    && w'.requests.Keys <= w.requests.Keys
    && (forall id :: id in w'.requests ==> w'.requests[id] == w.requests[id])
    && (forall id :: id in w.requests && id !in ids ==> id in w'.requests)
    && (forall id :: id !in ids ==> (id in w'.broken <==> id in w.broken))
    && LessOf(connector, w.links, w'.links, w.rules, w'.rules, Elements(ids))
  }

  lemma LessOfMore(connector: Connector, a: set<(string, string)>, b: set<(string, string)>, x: set<AllowRule>,
                   y: set<AllowRule>, ids: set<string>, more: set<string>)
    requires LessOf(connector, a, b, x, y, ids) && ids <= more
    ensures LessOf(connector, a, b, x, y, more)
  {
    if connector.Awi? {
      forall r | r in x - y ensures exists i :: i in more && Belongs(r, i) {
        var i :| i in ids && Belongs(r, i);
        assert i in more;
      }
    }
  }

  lemma RemovedIsSpared(connector: Connector, w: World, w': World, ids: seq<string>, told: seq<(Tag, Tag)>)
    requires Removed(connector, w, w', ids, told)
    ensures Spared(connector, w, w', ids)
  {
    forall id | id !in ids ensures id in w'.broken <==> id in w.broken {
      assert id in w'.broken - Elements(ids) <==> id in w.broken - Elements(ids);
    }
  }

  /** Nothing of a removed connection is left at the clouds. */
  predicate Gone(r: ConnectionRequest, links: set<(string, string)>, rules: set<AllowRule>) {
    r.status != WATCHING ==>
      Ends(r) !! links && (NeedsRule(Normalized(r)) ==> RuleOf(Normalized(r)) !in rules)
  }

  /** What the removal of a record that is no watcher means: vManage has been told its two entries disabled, or
      neither VPC is linked any more; and its rule is not in the destination. */
  ghost predicate TakenDown(connector: Connector, r: ConnectionRequest, sentBefore: seq<Matrix>, sent: seq<Matrix>,
                            links: set<(string, string)>, rules: set<AllowRule>, s: Tag, d: Tag) {
    && (connector.VManage? ==> sentBefore <= sent && Announces(sent[|sentBefore|..], r, s, d, false))
    && (connector.Awi? ==> CutOff(r, links, rules))
  }

  /** Nothing of a connection is left at the clouds: no link under its id, and where its VPCs had access allowed no
      rule in the destination. */
  ghost predicate CutOff(r: ConnectionRequest, links: set<(string, string)>, rules: set<AllowRule>) {
    && (r.id, r.source.id) !in links && (r.id, r.destination.id) !in links
    && (r.source.kind in {"vpc", "tag"} && r.destination.kind in {"vpc", "tag"} && r.destination.defaultAccess == "allow"
        && r.name != "" ==>
          AllowRule(r.destination.id, "awi-" + Dashed(r.name) + "-sg", "default-" + r.source.id) !in rules)
  }

  lemma GoneIsCutOff(r: ConnectionRequest, links: set<(string, string)>, rules: set<AllowRule>)
    requires Gone(r, links, rules) && r.status != WATCHING
    ensures CutOff(r, links, rules)
  {
    LowerVpn();
    assert (r.id, r.source.id) in Ends(r) && (r.id, r.destination.id) in Ends(r);
  }

  lemma GoneIsTakenDown(connector: Connector, r: ConnectionRequest, sentBefore: seq<Matrix>, sent: seq<Matrix>,
                        links: set<(string, string)>, rules: set<AllowRule>, s: Tag, d: Tag)
    requires connector.VManage? ==> Answered(r, s, d) && sent == sentBefore + MatrixEntries(Reprepared(r, s, d), false)
    requires connector.Awi? ==> Gone(r, links, rules) && r.status != WATCHING
    ensures TakenDown(connector, r, sentBefore, sent, links, rules, s, d)
  {
    if connector.VManage? {
      RepreparedAnnounces(r, s, d);
      assert sent[|sentBefore|..] == MatrixEntries(Reprepared(r, s, d), false);
    } else {
      GoneIsCutOff(r, links, rules);
    }
  }

  /** After a complete removal with the AWI connector nothing of any of the connections is left. */
  lemma RemovedMeans(connector: Connector, w: World, w': World, ids: seq<string>, told: seq<(Tag, Tag)>)
    requires Removed(connector, w, w', ids, told)
    ensures forall id :: id in ids ==> id !in w'.requests
    ensures connector.Awi? ==>
              forall id :: id in ids && id in w.requests && w.requests[id].status != "Watching" ==>
                CutOff(w.requests[id], w'.links, w'.rules)
  {
    forall id | id in ids ensures id in Elements(ids) {}
    if connector.Awi? {
      forall id | id in ids && id in w.requests && w.requests[id].status != "Watching"
        ensures CutOff(w.requests[id], w'.links, w'.rules)
      {
        assert id in Elements(ids) && Gone(w.requests[id], w'.links, w'.rules);
        GoneIsCutOff(w.requests[id], w'.links, w'.rules);
      }
    }
  }

  /** What vManage is told when an id is removed: the entries of its record, if it has one and that is no
      watcher. */
  function Order(table: Table, id: string, s: Tag, d: Tag): seq<Matrix> {
    if id in table && table[id].status != WATCHING then MatrixEntries(Reprepared(table[id], s, d), false) else []
  }

  /** The same for a list of ids, each removed where it occurs first. */
  function Orders(table: Table, ids: seq<string>, told: seq<(Tag, Tag)>): seq<Matrix>
    requires |ids| == |told|
  {
    if ids == [] then []
    else
      var front, last := ids[..|ids| - 1], ids[|ids| - 1];
      Orders(table, front, told[..|told| - 1])
      + if last in front then [] else Order(table, last, told[|told| - 1].0, told[|told| - 1].1)
  }

  lemma OrdersOneMore(table: Table, done: seq<string>, now: Table, id: string, told: seq<(Tag, Tag)>, s: Tag, d: Tag)
    requires |done| == |told|
    requires id in now <==> id in table && id !in done
    requires id in now ==> now[id] == table[id]
    ensures Orders(table, done + [id], told + [(s, d)]) == Orders(table, done, told) + Order(now, id, s, d)
  {
    assert (done + [id])[..|done|] == done && (told + [(s, d)])[..|told|] == told;
  }

  /** The keys of a table, in some order. */
  method Listing(table: Table) returns (order: seq<string>)
    ensures Elements(order) == table.Keys
  {
    order := [];
    var todo := table.Keys;
    while todo != {}
      invariant todo <= table.Keys && Elements(order) == table.Keys - todo
      decreases |todo|
    {
      var id :| id in todo;
      ElementsAppend(order, id);
      order := order + [id];
      todo := todo - {id};
    }
  }

  class AWIConnectionController {
    const connector: Connector
    const fold: char -> char
    /** How each call ends, in the order the calls are made: any sequence of replies. */
    const replies: nat -> Reply
    var calls: nat
    /** The VPCs without a subnet. */
    var subnetless: set<string>
    var requests: Table
    var deletedConnection: set<string>
    var domains: seq<NetworkDomain>
    /** The VPCs linked under a connection id, at the clouds. */
    var links: set<(string, string)>
    var rules: set<AllowRule>
    /** Every mapping entry sent to vManage, in order. */
    var sent: seq<Matrix>
    /** The connections whose removal took effect in part. */
    ghost var broken: set<string>

    ghost predicate Valid()
      reads this
    {
      && Keyed(requests) && Discovered(domains)
      && broken <= requests.Keys
      && (connector.Awi? ==> Consistent(requests, links, rules, broken))
    }

    /** No call since the n-th has failed. */
    ghost predicate Smooth(n: nat)
      reads this
    {
      SmoothBetween(replies, n, calls)
    }

    ghost function Now(): World
      reads this
    {
      World(requests, links, rules, sent, broken)
    }

    constructor (connector: Connector, fold: char -> char, replies: nat -> Reply)
      ensures Valid() && this.connector == connector && this.fold == fold && this.replies == replies
      ensures requests == map[] && deletedConnection == {} && links == {} && rules == {} && sent == []
    {
      this.connector, this.fold, this.replies := connector, fold, replies;
      calls, subnetless := 0, {};
      requests, deletedConnection, domains := map[], {}, [];
      links, rules, sent, broken := {}, {}, [], {};
    }

    method NextReply() returns (reply: Reply)
      modifies this`calls
      ensures calls == old(calls) + 1 && reply == replies(old(calls))
    {
      reply := replies(calls);
      calls := calls + 1;
    }

    /** A call without an effect that this model follows: a read, a lookup, a status poll, the site policy. */
    method Other() returns (ok: bool)
      modifies this`calls
      ensures calls == old(calls) + 1 && ok == replies(old(calls)).Done?
    {
      var reply := NextReply();
      ok := reply.Done?;
    }

    /** One provider call that links VPCs under a connection id. */
    method Connect(ends: set<(string, string)>) returns (ok: bool)
      modifies this`links, this`calls
      ensures calls == old(calls) + 1 && ok == replies(old(calls)).Done?
      ensures links == if replies(old(calls)).TookEffect() then old(links) + ends else old(links)
    {
      var reply := NextReply();
      if reply.TookEffect() {
        links := links + ends;
      }
      ok := reply.Done?;
    }

    /** One provider call that unlinks VPCs of a stored connection: if it takes effect the id is broken. */
    method Disconnect(id: string, ends: set<(string, string)>) returns (ok: bool)
      requires Valid() && connector.Awi? && id in requests && ends != {} && ends <= Ends(requests[id])
      modifies this`links, this`broken, this`calls
      ensures Valid() && calls == old(calls) + 1 && ok == replies(old(calls)).Done?
      ensures links == if replies(old(calls)).TookEffect() then old(links) - ends else old(links)
      ensures broken == if replies(old(calls)).TookEffect() then old(broken) + {id} else old(broken)
    {
      var reply := NextReply();
      if reply.TookEffect() {
        DropLinksConsistent(requests, links, rules, broken, id, ends);
        links := links - ends;
        broken := broken + {id};
      }
      ok := reply.Done?;
    }

    /** A write of the connection table is a transaction: it fails without an effect. */
    method UpdateConnectionRequest(r: ConnectionRequest) returns (ok: bool)
      modifies this`requests, this`calls
      ensures calls == old(calls) + 1 && ok == replies(old(calls)).Done?
      ensures requests == if ok then old(requests)[r.id := r] else old(requests)
    {
      ok := Other();
      if ok {
        requests := requests[r.id := r];
      }
    }

    method DeleteConnectionRequest(id: string) returns (ok: bool)
      requires Valid()
      modifies this`requests, this`broken, this`calls
      ensures Valid() && calls == old(calls) + 1 && ok == replies(old(calls)).Done?
      ensures requests == if ok then old(requests) - {id} else old(requests)
      ensures broken == if ok then old(broken) - {id} else old(broken)
    {
      ok := Other();
      if ok {
        requests := requests - {id};
        broken := broken - {id};
      }
    }

    /** A source given as a subnet needs its network spelled out; nothing in the program spells it out. */
    method ProcessSubnets(request: RequestCell) returns (ok: bool)
      modifies request, this`calls
      ensures calls >= old(calls)
      ensures old(request.value).source.kind != SUBNET && old(request.value).destination.kind != SUBNET ==>
                ok && request.value == old(request.value)
    {
      ok := true;
      var vpc: string := *;
      if request.value.source.kind == SUBNET {
        if request.value.source.networks == [] { return false; }
        ok := Other();
        if !ok { return; }
        request.value := request.value.(source := request.value.source.(id := vpc, kind := VPC));
      }
      if request.value.destination.kind == SUBNET {
        vpc := *;
        ok := Other();
        if !ok { return; }
        request.value := request.value.(destination := request.value.destination.(id := vpc, kind := VPC));
      }
    }

    /** getOrCreateVPCTag: the tag vManage knows the VPC by, or a new one, named after the host VPC or at random. */
    method GetOrCreateVPCTag() returns (ok: bool, t: Tag)
      modifies this`calls
      ensures calls >= old(calls) && (Smooth(old(calls)) ==> ok)
      ensures ok ==> t.name != ""
    {
      var vpc: Tag, hostName: string, adjective: char, noun: string := *, *, *, *;
      t := vpc;
      ok := Other();
      if !ok || vpc.name != "" { return; }
      t := Tag(if hostName != "" then hostName else [adjective] + noun, vpc.region);
      ok := Other();
      if !ok { return; }
      ok := Other();
    }

    /** tagConnection: first the source, then the destination. */
    method TagConnection(connection: RequestCell) returns (ok: bool, ghost s: Tag, ghost d: Tag)
      modifies connection, this`calls
      ensures calls >= old(calls) && (Smooth(old(calls)) ==> ok)
      ensures ok ==> connection.value == Tagged(old(connection.value), s, d) && Answered(old(connection.value), s, d)
      ensures ok ==> var r, r' := old(connection.value), connection.value;
                && (r.source.kind == "vpc" ==> r'.source.kind == "tag" && r'.source.tag == s.name != "")
                && (r.destination.kind == "vpc" ==> r'.destination.kind == "tag" && r'.destination.tag == d.name != "")
                && (r.source.kind != "vpc" ==> r'.source == r.source)
                && (r.destination.kind != "vpc" ==> r'.destination == r.destination)
                && r'.source.id == r.source.id && r'.destination.id == r.destination.id
      ensures old(connection.value.source.kind) != VPC && old(connection.value.destination.kind) != VPC ==>
                ok && connection.value == old(connection.value)
    {
      var t;
      ok, s, d := true, Tag("", ""), Tag("", "");
      if connection.value.source.kind == VPC {
        ok, t := GetOrCreateVPCTag();
        if !ok { return; }
        s := t;
        connection.value := connection.value.(source := TaggedSource(connection.value.source, t));
      }
      if connection.value.destination.kind == VPC {
        ok, t := GetOrCreateVPCTag();
        if !ok { return; }
        d := t;
        connection.value := connection.value.(destination := TaggedDestination(connection.value.destination, t));
      }
    }

    /** createVPCPolicy.  A source VPC without subnets is an error with no call failing. */
    method CreateVPCPolicy(r: ConnectionRequest) returns (ok: bool)
      modifies this`rules, this`calls
      ensures calls >= old(calls)
      ensures old(rules) <= rules <= old(rules) + {RuleOf(r)}
      ensures ok && NeedsRule(r) ==> RuleOf(r) in rules
      ensures !NeedsRule(r) ==> ok && rules == old(rules)
      ensures NeedsRule(r) && r.source.id in subnetless ==> !ok && rules == old(rules)
      ensures Smooth(old(calls)) && !ok ==> NeedsRule(r) && r.source.id in subnetless
      ensures (r.destination.defaultAccess != "allow" || r.source.kind !in {"vpc", "tag"}
               || r.destination.kind !in {"vpc", "tag"}) ==> ok && rules == old(rules)
      ensures ok && r.destination.defaultAccess == "allow" && r.source.kind in {"vpc", "tag"}
              && r.destination.kind in {"vpc", "tag"} ==>
                AllowRule(r.destination.id, "awi-" + Dashed(r.name) + "-sg", "default-" + r.source.id) in rules
      ensures forall rule :: rule in rules && rule !in old(rules) ==>
                rule.vpc == r.destination.id && rule.tag == "default-" + r.source.id
    {
      if !NeedsRule(r) { return true; }
      ok := Other();
      if !ok { return; }
      if r.source.id in subnetless { return false; }
      ok := Other();
      if !ok { return; }
      var reply := NextReply();
      if reply.TookEffect() {
        rules := rules + {RuleOf(r)};
      }
      ok := reply.Done?;
    }

    /** removeRulesFromSecurityGroup: the provider is looked up even when there is no rule to remove. */
    method RemoveRulesFromSecurityGroup(r: ConnectionRequest) returns (ok: bool)
      requires Valid() && (connector.Awi? ==> Key(r) in broken)
      modifies this`rules, this`calls
      ensures Valid() && old(rules) - {RuleOf(r)} <= rules <= old(rules)
      ensures ok && NeedsRule(r) ==> RuleOf(r) !in rules
      ensures (r.destination.defaultAccess != "allow" || r.source.kind !in {"vpc", "tag"}
               || r.destination.kind !in {"vpc", "tag"}) ==> rules == old(rules)
      ensures ok && r.destination.defaultAccess == "allow" && r.source.kind in {"vpc", "tag"}
              && r.destination.kind in {"vpc", "tag"} ==>
                AllowRule(r.destination.id, "awi-" + Dashed(r.name) + "-sg", "default-" + r.source.id) !in rules
      ensures forall rule :: rule in old(rules) && rule !in rules ==>
                rule.vpc == r.destination.id && rule.tag == "default-" + r.source.id
      ensures calls >= old(calls) && (Smooth(old(calls)) ==> ok)
    {
      if !InCloud(r.source.kind) || !InCloud(r.destination.kind) { return true; }
      ok := Other();
      if !ok { return; }
      if r.destination.defaultAccess == "allow" {
        var reply := NextReply();
        if reply.TookEffect() {
          if connector.Awi? {
            DropRuleConsistent(requests, links, rules, broken, r);
          }
          rules := rules - {RuleOf(r)};
        }
        ok := reply.Done?;
      }
    }

    /** connectVPCsWithAWI: two calls when the ends are in different clouds, one otherwise. */
    method ConnectVPCsWithAWI(request: RequestCell) returns (ok: bool)
      modifies this`links, this`calls, request
      ensures calls >= old(calls) && (Smooth(old(calls)) ==> ok)
      ensures old(links) <= links <= old(links) + Ends(old(request.value))
      ensures ok ==> Ends(request.value) <= links && request.value == Linked(old(request.value), request.value)
      ensures var r := old(request.value);
        && (ok ==> calls == old(calls) + if r.source.provider == r.destination.provider then 2 else 4)
        && (r.source.provider != r.destination.provider ==>
              links == old(links) || links == old(links) + {(r.id, r.source.id)}
              || links == old(links) + {(r.id, r.source.id), (r.id, r.destination.id)})
        && (r.source.provider == r.destination.provider ==>
              links == old(links) || links == old(links) + {(r.id, r.source.id), (r.id, r.destination.id)})
    {
      var r := request.value;
      ok := Other();
      if !ok { return; }
      if r.source.provider != r.destination.provider {
        ok := Other();
        if !ok { return; }
        ok := Connect({(r.id, r.source.id)});
        if !ok { return; }
        ok := Connect({(r.id, r.destination.id)});
        if !ok { return; }
      } else {
        ok := Connect(Ends(r));
        if !ok { return; }
      }
      var region1: string, region2: string := *, *;
      request.value := r.(source := r.source.(tag := r.source.name, region := region1),
                          destination := r.destination.(tag := r.destination.name, region := region2),
                          status := RUNNING);
    }

    /** disconnectVPCsWithAWI */
    method DisconnectVPCsWithAWI(r: ConnectionRequest) returns (ok: bool)
      requires Valid() && connector.Awi? && r.id in requests && Ends(r) == Ends(requests[r.id])
      modifies this`links, this`broken, this`calls
      ensures Valid() && old(links) - Ends(r) <= links <= old(links)
      ensures var first := old(calls) + if r.source.provider == r.destination.provider then 1 else 2;
        && broken == old(broken) + (if exists i: nat :: first <= i < calls && replies(i).TookEffect() then {r.id} else {})
        && (ok ==> calls == first + if r.source.provider == r.destination.provider then 1 else 2)
      ensures ok ==> Ends(r) !! links && r.id in broken
      ensures calls >= old(calls) && (Smooth(old(calls)) ==> ok)
    {
      ghost var n := calls;
      ok := Other();
      if !ok { return; }
      if r.source.provider != r.destination.provider {
        ok := Other();
        if !ok { return; }
        ok := Disconnect(r.id, {(r.id, r.source.id)});
        assert replies(n + 2).TookEffect() ==> r.id in broken;
        if !ok { return; }
        ok := Disconnect(r.id, {(r.id, r.destination.id)});
        assert replies(n + 2).TookEffect();
      } else {
        ok := Disconnect(r.id, Ends(r));
        assert replies(n + 1).TookEffect() ==> r.id in broken;
      }
    }

    /** The mapping sent to vManage. */
    method SendMatrices(connections: seq<Matrix>) returns (ok: bool)
      modifies this`sent, this`calls
      ensures calls == old(calls) + 1 && ok == replies(old(calls)).Done?
      ensures sent == if replies(old(calls)).TookEffect() then old(sent) + connections else old(sent)
    {
      var reply := NextReply();
      if reply.TookEffect() {
        sent := sent + connections;
      }
      ok := reply.Done?;
    }

    /** createNetworkDomainConnection.  A refresh does not force: it leaves a tombstoned id alone.  The
        user's own request clears the tombstone.  A record that is there already is left as it is. */
    method CreateNetworkDomainConnection(request: RequestCell, force: bool)
      returns (err: bool, ghost s: Tag, ghost d: Tag)
      requires Valid() && Fits(request.value)
      modifies this`requests, this`deletedConnection, this`links, this`rules, this`sent, this`calls, request
      ensures Valid() && calls >= old(calls)
      ensures var key := Key(old(request.value));
              var skip := key in old(requests) || (!force && key in old(deletedConnection));
              Smooth(old(calls)) ==> (err <==> !skip && Barren(old(request.value), subnetless))
      ensures Smooth(old(calls)) && err ==> links == old(links) && rules == old(rules) && sent == old(sent)
      ensures Barren(old(request.value), subnetless) ==> requests == old(requests)
      ensures var key := Key(old(request.value));
        && deletedConnection == (if force then old(deletedConnection) - {key} else old(deletedConnection))
        && ((!force && key in old(deletedConnection)) || key in old(requests) ==>
              requests == old(requests) && links == old(links) && rules == old(rules) && sent == old(sent))
        && (requests == old(requests) || (key !in old(requests) && key in requests && requests - {key} == old(requests)))
        && (!err ==> key in requests || (!force && key in deletedConnection))
        && MoreOf(old(links), links, old(rules), rules, key)
        && (key in requests && key !in old(requests) ==> Stored(old(request.value), old(sent), s, d))
      ensures Made(connector, old(request.value), old(Now()), Now(), s, d)
    {
      var ok := true;
      s, d := Tag("", ""), Tag("", "");
      ghost var asked := request.value;
      NormalizeNames(request);
      FittingStaysFitting(asked);
      var id := Key(request.value);
      if !force {
        if id in deletedConnection { return false, s, d; }
      } else {
        deletedConnection := deletedConnection - {id};
      }
      request.value := request.value.(id := id);
      ok := Other();
      if !ok { return true, s, d; }
      if id in requests { return false, s, d; }
      err, s, d := Establish(request, asked);
    }

    /** The record of a request that has just been made: what its ends are, and what vManage was told. */
    ghost predicate Stored(asked: ConnectionRequest, sentBefore: seq<Matrix>, s: Tag, d: Tag)
      reads this
      requires Key(asked) in requests
    {
      var r := requests[Key(asked)];
      && r.status == (if connector.Awi? then RUNNING else asked.status)
      && r.name == Normalized(asked).name && r.config == asked.config
      && (connector.Awi? ==> r == Linked(Normalized(asked).(id := Key(asked)), r))
      && r.id == Key(asked)
      && (connector.VManage? ==>
            && Answered(Normalized(asked), s, d)
            && r.source == Prepared(asked, s, d).source
            && r.destination == Prepared(asked, s, d).destination.(dbId := r.destination.dbId)
            && sent == sentBefore + MatrixEntries(Prepared(asked, s, d), true))
    }

    lemma StoredIsMade(asked: ConnectionRequest, w: World, s: Tag, d: Tag)
      requires Valid() && Fits(asked) && Key(asked) !in broken
      requires !NeedsRule(Normalized(asked)) ==> rules == w.rules
      requires Key(asked) in requests && Key(asked) !in w.requests ==>
                 && Stored(asked, w.sent, s, d)
                 && (NeedsRule(Normalized(asked)) ==> RuleOf(Normalized(asked)) in rules)
      ensures Made(connector, asked, w, Now(), s, d)
    {
      LowerVpn();
      FittingRule(asked);
      if Key(asked) in requests && Key(asked) !in w.requests && connector.VManage? {
        PreparedAnnounces(asked, s, d);
        assert sent[|w.sent|..] == MatrixEntries(Prepared(asked, s, d), true);
      }
    }

    /** The part of createNetworkDomainConnection behind its checks, for an id without a record. */
    method Establish(request: RequestCell, ghost asked: ConnectionRequest)
      returns (err: bool, ghost s: Tag, ghost d: Tag)
      requires Valid() && Fits(asked) && Fits(Normalized(asked)) && Key(asked) !in requests
      requires request.value == Normalized(asked).(id := Key(asked))
      modifies this`requests, this`links, this`rules, this`sent, this`calls, request
      ensures Valid() && calls >= old(calls)
      ensures Barren(asked, subnetless) ==> err && requests == old(requests)
      ensures Smooth(old(calls)) && err ==>
                Barren(asked, subnetless) && links == old(links) && rules == old(rules) && sent == old(sent)
      ensures var key := Key(asked);
        && (requests == old(requests) || (key in requests && requests - {key} == old(requests)))
        && (!err ==> key in requests)
        && (key in requests ==> Stored(asked, old(sent), s, d))
        && MoreOf(old(links), links, old(rules), rules, key)
      ensures Made(connector, asked, old(Now()), Now(), s, d)
    {
      err, s, d := PrepareAndAnnounce(request, asked);
      StoredIsMade(asked, old(Now()), s, d);
    }

    /** Its two halves. */
    method PrepareAndAnnounce(request: RequestCell, ghost asked: ConnectionRequest)
      returns (err: bool, ghost s: Tag, ghost d: Tag)
      requires Valid() && Fits(Normalized(asked)) && Key(asked) !in requests
      requires request.value == Normalized(asked).(id := Key(asked))
      modifies this`requests, this`links, this`rules, this`sent, this`calls, request
      ensures Valid() && calls >= old(calls)
      ensures Barren(asked, subnetless) ==> err && requests == old(requests)
      ensures Smooth(old(calls)) && err ==>
                Barren(asked, subnetless) && links == old(links) && rules == old(rules) && sent == old(sent)
      ensures var key := Key(asked);
        && (requests == old(requests) || (key in requests && requests - {key} == old(requests)))
        && (!err ==> key in requests)
        && (key in requests ==> Stored(asked, old(sent), s, d))
        && MoreOf(old(links), links, old(rules), rules, key)
      ensures !NeedsRule(Normalized(asked)) ==> rules == old(rules)
      ensures Key(asked) in requests && NeedsRule(Normalized(asked)) ==> RuleOf(Normalized(asked)) in rules
    {
      var ok;
      ok, s, d := Prepare(request);
      if !ok { return true, s, d; }
      ghost var links', rules' := links, rules;
      err := Announce(request);
      MoreOneMore(old(links), links', links, old(rules), rules', rules, Key(asked));
      assert !err ==> requests == old(requests)[Key(asked) := request.value];
    }

    /** Its first half: subnets, tags and the default-allow rule. */
    method Prepare(request: RequestCell) returns (ok: bool, ghost s: Tag, ghost d: Tag)
      requires Valid() && Fits(request.value)
      modifies this`rules, this`calls, request
      ensures Valid() && calls >= old(calls)
      ensures var r := old(request.value);
        && (NeedsRule(r) && r.source.id in subnetless ==> !ok)
        && (Smooth(old(calls)) && !ok ==> NeedsRule(r) && r.source.id in subnetless && rules == old(rules))
        && (ok ==> request.value == if connector.VManage? then Tagged(r, s, d) else r)
        && (ok && connector.VManage? ==> Answered(r, s, d))
        && (!NeedsRule(r) ==> rules == old(rules))
        && (ok ==> request.value.id == r.id && Key(request.value) == Key(r))
        && (ok && NeedsRule(request.value) ==> RuleOf(request.value) in rules)
        && MoreOf(links, links, old(rules), rules, Key(r))
    {
      s, d := Tag("", ""), Tag("", "");
      ok := ProcessSubnets(request);
      if !ok { return; }
      if connector.VManage? {
        ok, s, d := TagConnection(request);
        if !ok { return; }
      }
      RuleBelongs(request.value);
      ok := CreateVPCPolicy(request.value);
    }

    /** Its second half: the announcement, and then the record. */
    method Announce(request: RequestCell) returns (err: bool)
      requires Valid() && request.value.id == Key(request.value) && request.value.id !in requests
      requires NeedsRule(request.value) ==> RuleOf(request.value) in rules
      modifies this`requests, this`links, this`sent, this`calls, request
      ensures Valid() && calls >= old(calls) && (Smooth(old(calls)) ==> !err)
      ensures var r, r' := old(request.value), request.value;
        && requests == (if err then old(requests) else old(requests)[r.id := r'])
        && (connector.VManage? ==>
              && (!err ==> r' == r.(destination := r.destination.(dbId := r'.destination.dbId)))
              && (!err ==> sent == old(sent) + MatrixEntries(r, true)))
        && (connector.Awi? ==>
              && sent == old(sent)
              && (!err ==> r' == Linked(r, r')))
        && MoreOf(old(links), links, rules, rules, r.id)
    {
      var ok := Attach(request);
      if !ok { return true; }
      if connector.Awi? {
        MoreKeepsConsistent(requests, old(links), links, rules, rules, broken, request.value.id);
        NewRecordConsistent(requests, links, rules, broken, request.value);
      }
      ok := UpdateConnectionRequest(request.value);
      err := !ok;
    }

    /** Its announcement: the mapping sent to vManage, or the VPCs linked by the AWI connector. */
    method Attach(request: RequestCell) returns (ok: bool)
      modifies this`links, this`sent, this`calls, request
      ensures calls >= old(calls) && (Smooth(old(calls)) ==> ok)
      ensures var r, r' := old(request.value), request.value;
        && (connector.VManage? ==>
              && links == old(links)
              && (ok ==> r' == r.(destination := r.destination.(dbId := r'.destination.dbId)))
              && (ok ==> sent == old(sent) + MatrixEntries(r, true)))
        && (connector.Awi? ==>
              && sent == old(sent) && old(links) <= links <= old(links) + Ends(r)
              && (ok ==> r' == Linked(r, r') && Ends(r') <= links))
    {
      if connector.VManage? {
        ok := Other();
        if !ok { return; }
        var randomName: string := *;
        var connections := ConnectionMatrices(request, true, randomName);
        ok := SendMatrices(connections);
      } else {
        ok := ConnectVPCsWithAWI(request);
      }
    }

    /** disconnectSource.  Until the record is gone, a removal that took effect at all leaves the id broken;
        once it is gone, nothing of the connection is left. */
    method DisconnectSource(conn: string) returns (err: bool, ghost s: Tag, ghost d: Tag)
      requires Valid()
      requires conn in requests ==> requests[conn].status != WATCHING
      modifies this`requests, this`links, this`rules, this`sent, this`broken, this`calls
      ensures Valid() && calls >= old(calls) && (Smooth(old(calls)) ==> !err)
      ensures requests == old(requests) || requests == old(requests) - {conn}
      ensures !err ==> conn !in requests
      ensures broken - {conn} == old(broken) - {conn}
      ensures LessOf(connector, old(links), links, old(rules), rules, {conn})
      ensures !err && conn in old(requests) && connector.Awi? ==> Gone(old(requests)[conn], links, rules)
      ensures conn !in old(requests) ==> links == old(links) && rules == old(rules) && sent == old(sent)
      ensures !err && connector.VManage? ==> sent == old(sent) + Order(old(requests), conn, s, d)
      ensures !err && conn in old(requests) ==> TakenDown(connector, old(requests)[conn], old(sent), sent, links, rules, s, d)
    {
      s, d := Tag("", ""), Tag("", "");
      var ok := Other();
      if !ok { return true, s, d; }
      if conn !in requests { return false, s, d; }
      var oldRequest := new RequestCell(requests[conn]);
      ok, s, d := TakeDown(oldRequest);
      if !ok { return true, s, d; }
      RuleBelongs(oldRequest.value);
      ghost var r := requests[conn];
      err := Forget(conn, oldRequest.value);
      if !err {
        GoneIsTakenDown(connector, r, old(sent), sent, links, rules, s, d);
      }
    }

    /** Its first half: tags and names as on creation, then vManage or the clouds are told. */
    method TakeDown(oldRequest: RequestCell) returns (ok: bool, ghost s: Tag, ghost d: Tag)
      requires Valid() && oldRequest.value.id in requests && requests[oldRequest.value.id] == oldRequest.value
      requires oldRequest.value.status != WATCHING
      modifies this`links, this`sent, this`broken, this`calls, oldRequest
      ensures Valid() && calls >= old(calls) && (Smooth(old(calls)) ==> ok)
      ensures var r := old(oldRequest.value);
        && old(broken) <= broken <= old(broken) + {r.id}
        && links <= old(links)
        && (connector.VManage? ==> links == old(links))
        && (connector.VManage? && ok ==>
              && oldRequest.value == Reprepared(r, s, d).(destination := oldRequest.value.destination)
              && sent == old(sent) + MatrixEntries(Reprepared(r, s, d), false) && Answered(r, s, d))
        && (connector.Awi? ==>
              && sent == old(sent) && old(links) - Ends(r) <= links
              && (ok ==> oldRequest.value == Normalized(r) && r.id in broken && Ends(r) !! links))
    {
      s, d := Tag("", ""), Tag("", "");
      ok := true;
      if connector.VManage? {
        ok, s, d := TagConnection(oldRequest);
        if !ok { return; }
      }
      NormalizeNames(oldRequest);
      if connector.VManage? {
        var randomName: string := *;
        var connections := ConnectionMatrices(oldRequest, false, randomName);
        ok := SendMatrices(connections);
        if !ok { return; }
        ok := Other();
      }
      if connector.Awi? {
        ok := DisconnectVPCsWithAWI(oldRequest.value);
      }
    }

    /** Its second half: the rule, and then the record. */
    method Forget(conn: string, r: ConnectionRequest) returns (err: bool)
      requires Valid() && conn in requests && (connector.Awi? ==> conn == Key(r) && conn in broken)
      modifies this`requests, this`rules, this`broken, this`calls
      ensures Valid() && calls >= old(calls) && (Smooth(old(calls)) ==> !err)
      ensures requests == if err then old(requests) else old(requests) - {conn}
      ensures broken == if err then old(broken) else old(broken) - {conn}
      ensures old(rules) - {RuleOf(r)} <= rules <= old(rules)
      ensures !err && NeedsRule(r) ==> RuleOf(r) !in rules
    {
      var ok := RemoveRulesFromSecurityGroup(r);
      if !ok { return true; }
      ok := DeleteConnectionRequest(conn);
      err := !ok;
    }

    /** disconnectConnections: a watcher is only a record. */
    method DisconnectConnections(connection: string) returns (err: bool, ghost s: Tag, ghost d: Tag)
      requires Valid()
      modifies this`requests, this`links, this`rules, this`sent, this`broken, this`calls
      ensures Valid() && calls >= old(calls) && (Smooth(old(calls)) ==> !err)
      ensures RemovedOne(connector, old(Now()), Now(), connection, s, d, err)
    {
      s, d := Tag("", ""), Tag("", "");
      var ok := Other();
      if !ok { return true, s, d; }
      if connection !in requests { return false, s, d; }
      if requests[connection].status == WATCHING {
        ok := DeleteConnectionRequest(connection);
        return !ok, s, d;
      }
      err, s, d := DisconnectSource(connection);
    }

    /** DeleteConnection: the tombstone is set before anything else is tried, and stays when that fails.
        `told` is what vManage answered with when the i-th connection was tagged again. */
    method DeleteConnection(connections: seq<string>) returns (err: bool, ghost told: seq<(Tag, Tag)>)
      requires Valid()
      modifies this`requests, this`deletedConnection, this`links, this`rules, this`sent, this`broken, this`calls
      ensures Valid() && calls >= old(calls) && (Smooth(old(calls)) ==> !err)
      ensures exists n :: 0 <= n <= |connections| && deletedConnection == old(deletedConnection) + Elements(connections[..n])
                          && (!err ==> n == |connections|)
      ensures Spared(connector, old(Now()), Now(), connections)
      ensures !err ==> Removed(connector, old(Now()), Now(), connections, told)
      ensures !err ==> forall id :: id in connections ==> id !in requests && id in deletedConnection
      ensures !err && connector.Awi? ==>
                forall id :: id in connections && id in old(requests) && old(requests)[id].status != "Watching" ==>
                  CutOff(old(requests)[id], links, rules)
    {
      err, told := false, [];
      ghost var start := Now();
      for i := 0 to |connections|
        invariant Valid() && !err && calls >= old(calls)
        invariant deletedConnection == old(deletedConnection) + Elements(connections[..i])
        invariant Removed(connector, start, Now(), connections[..i], told)
      {
        PrefixOneMore(connections, i);
        ghost var s, d;
        err, s, d := DeleteNext(connections[i], start, connections[..i], told, connections);
        if err { return; }
        told := told + [(s, d)];
      }
      assert connections[..|connections|] == connections;
      RemovedIsSpared(connector, start, Now(), connections, told);
      RemovedMeans(connector, start, Now(), connections, told);
    }

    /** Its body: the tombstone, and then the removal. */
    method DeleteNext(c: string, ghost start: World, ghost done: seq<string>, ghost told: seq<(Tag, Tag)>, ghost all: seq<string>)
      returns (err: bool, ghost s: Tag, ghost d: Tag)
      requires Valid() && Removed(connector, start, Now(), done, told) && done + [c] <= all
      modifies this`requests, this`deletedConnection, this`links, this`rules, this`sent, this`broken, this`calls
      ensures Valid() && calls >= old(calls) && (Smooth(old(calls)) ==> !err)
      ensures deletedConnection == old(deletedConnection) + {c}
      ensures if err then Spared(connector, start, Now(), all)
              else Removed(connector, start, Now(), done + [c], told + [(s, d)])
    {
      deletedConnection := deletedConnection + {c};
      ghost var before := Now();
      err, s, d := DisconnectConnections(c);
      if err {
        RemovedInPart(connector, start, before, Now(), done, told, c, s, d, all);
      } else {
        RemovedOneMore(connector, start, before, Now(), done, told, c, s, d);
      }
    }

    /** createNetworkDomainConnectionWatch: whatever had the watcher's id is overwritten. */
    method CreateWatch(base: ConnectionRequest) returns (ok: bool)
      requires Valid()
      modifies this`requests, this`calls
      ensures Valid() && calls == old(calls) + 1 && ok == replies(old(calls)).Done?
      ensures requests == if ok then old(requests)[WatchOf(base).id := WatchOf(base)] else old(requests)
    {
      ok := UpdateConnectionRequest(WatchOf(base));
    }

    /** One creation, seen from a round of them. */
    method CreateOne(request: RequestCell, force: bool, ghost asked: ConnectionRequest) returns (err: bool)
      requires Valid() && Fits(asked) && request.value == asked
      modifies this`requests, this`deletedConnection, this`links, this`rules, this`sent, this`calls, request
      ensures Valid() && calls >= old(calls)
      ensures Round(old(requests), requests, [asked], subnetless, force, old(deletedConnection), deletedConnection,
                    err, Smooth(old(calls)))
      ensures Sprung(connector, old(requests), requests, [asked])
      ensures asked.destination.defaultAccess != "allow" ==> rules == old(rules)
    {
      ghost var s, d;
      ghost var before := requests;
      err, s, d := CreateNetworkDomainConnection(request, force);
      BearingOne(asked, subnetless);
      BearingOne(asked, {});
      GrowsOneMore(before, before, requests, {}, Key(asked));
      assert asked in [asked];
      OneSprung(connector, before, requests, asked);
    }

    /** One round of creations.  Nothing that was there changes, and without a failure every request ends
        as a record or, in a refresh, meets a tombstone.  Attempt i makes the calls from marks[i] up to
        marks[i + 1]: whatever became of the others, if none of its own fails it brings its record. */
    method CreateAll(cells: seq<RequestCell>, force: bool, ghost wanted: seq<ConnectionRequest>)
      returns (failed: bool, ghost marks: seq<nat>)
      requires Valid() && Distinct(cells) && Values(cells) == wanted
      requires forall r :: r in wanted ==> Fits(r)
      modifies this`requests, this`deletedConnection, this`links, this`rules, this`sent, this`calls, cells
      ensures Valid() && calls >= old(calls)
      ensures Rounded(old(Now()), old(deletedConnection), old(calls), wanted, force, failed, marks)
    {
      failed := false;
      marks := [calls];
      ghost var start, tombstones, n := Now(), deletedConnection, calls;
      ghost var done := [];
      BeginRounded(force);
      for i := 0 to |cells|
        invariant Valid() && calls >= old(calls)
        invariant forall j :: i <= j < |cells| ==> cells[j].value == wanted[j]
        invariant done == wanted[..i]
        invariant Rounded(start, tombstones, n, done, force, failed, marks)
      {
        assert wanted[i] in wanted;
        TakeOneMore(wanted, i);
        failed := CreateNext(cells[i], force, failed, wanted[i], done, start, tombstones, n, marks);
        marks := marks + [calls];
        done := done + [wanted[i]];
      }
      assert done == wanted;
    }

    lemma BeginRounded(force: bool)
      requires Valid()
      ensures Rounded(Now(), deletedConnection, calls, [], force, false, [calls])
    {
      GrowsNotAtAll(requests, {});
    }

    /** What a round that began in some state, with some tombstones and at the n-th call, has come to. */
    ghost predicate Rounded(start: World, tombstones: set<string>, n: nat, done: seq<ConnectionRequest>, force: bool,
                            failed: bool, marks: seq<nat>)
      reads this
    {
      && n <= calls && marks != [] && marks[0] == n
      && Round(start.requests, requests, done, subnetless, force, tombstones, deletedConnection, failed, Smooth(n))
      && Attempts(replies, subnetless, done, force, marks, calls, requests, deletedConnection)
      && Sprung(connector, start.requests, requests, done)
      && (NoneAllows(done) ==> rules == start.rules)
    }

    /** Its body. */
    method CreateNext(request: RequestCell, force: bool, failedBefore: bool, ghost asked: ConnectionRequest,
                      ghost done: seq<ConnectionRequest>, ghost start: World, ghost tombstones: set<string>,
                      ghost n: nat, ghost marks: seq<nat>)
      returns (failed: bool)
      requires Valid() && Fits(asked) && request.value == asked
      requires Rounded(start, tombstones, n, done, force, failedBefore, marks)
      modifies this`requests, this`deletedConnection, this`links, this`rules, this`sent, this`calls, request
      ensures Valid() && calls >= old(calls)
      ensures Rounded(start, tombstones, n, done + [asked], force, failed, marks + [calls])
    {
      ghost var before, m, smooth := requests, calls, Smooth(n);
      ghost var tombstonesBefore := deletedConnection;
      var err := CreateOne(request, force, asked);
      SprungOneMore(connector, start.requests, before, requests, done, asked);
      RoundOneMore(start.requests, before, requests, done, asked, subnetless, force, tombstones, tombstonesBefore,
                   deletedConnection, failedBefore, smooth, err, Smooth(m));
      assert Smooth(n) == (smooth && Smooth(m));
      BearingOne(asked, subnetless);
      AttemptsOneMore(replies, subnetless, done, force, marks, before, tombstonesBefore, requests, deletedConnection,
                      asked, calls);
      AllowsOneMore(done, asked);
      failed := failedBefore || err;
    }

    /** processConnectionConfig: the watcher, if one is asked for, and the requests for the selected pairs. */
    method ProcessConnectionConfig(csr: Intent) returns (ok: bool, cells: seq<RequestCell>)
      requires Valid()
      modifies this`requests, this`calls
      ensures Valid() && calls >= old(calls)
      ensures var base := BaseRequest(csr);
        && (requests == old(requests) || (csr.watch && requests == old(requests)[WatchOf(base).id := WatchOf(base)]))
        && (ok || Smooth(old(calls)) ==> (ok <==> Expansion(fold, base, domains).Some?))
        && (ok || Smooth(old(calls)) ==> csr.watch ==> requests == old(requests)[WatchOf(base).id := WatchOf(base)])
        && (ok ==> Values(cells) == Expansion(fold, base, domains).value && Distinct(cells))
      ensures fresh(cells)
    {
      cells := [];
      var base := BaseRequest(csr);
      ok := Other();
      if !ok { return; }
      if csr.watch {
        ok := CreateWatch(base);
        if !ok { return; }
      }
      ok := Other();
      if !ok { return; }
      ok, cells := FindNetworkDomains(fold, base, domains);
    }

    /** CreateConnection.  Success means a record for every pair the request selects, and no tombstone on
        any of them.  When no call fails, exactly the pairs with addresses to allow get one, and an error
        means that there is a pair without, or that one side selects nothing. */
    method CreateConnection(csr: Intent) returns (err: bool)
      requires Valid()
      modifies this`requests, this`deletedConnection, this`links, this`rules, this`sent, this`calls
      ensures Valid() && calls >= old(calls)
      ensures var expansion := Expansion(fold, BaseRequest(csr), domains);
        && (expansion.None? ==> err)
        && (!err ==> Keys(expansion.value) <= requests.Keys && deletedConnection == old(deletedConnection) - Keys(expansion.value))
        && (deletedConnection == old(deletedConnection)
            || (expansion.Some? && deletedConnection == old(deletedConnection) - Keys(expansion.value)))
      ensures var expansion := Expansion(fold, BaseRequest(csr), domains);
              var most := old(requests).Keys + (if csr.watch then {WatchOf(BaseRequest(csr)).id} else {})
                          + (if expansion.Some? then Bearing(expansion.value, subnetless) else {});
        && requests.Keys <= most
        && (Smooth(old(calls)) ==> requests.Keys == most)
        && (Smooth(old(calls)) && err && expansion.Some? ==>
              MissesOne(expansion.value, subnetless, old(requests)))
      ensures !csr.watch ==> forall id :: id in old(requests) ==> id in requests && requests[id] == old(requests)[id]
      ensures Answers(connector, fold, csr, domains, old(Now()), Now(), err)
    {
      var base := BaseRequest(csr);
      var ok, cells := ProcessConnectionConfig(csr);
      ghost var start, wanted := requests, Values(cells);
      if ok {
        ExpansionFits(fold, base, domains);
        ghost var marks;
        err, marks := CreateAll(cells, true, wanted);
      } else {
        err, wanted := true, [];
      }
      AnswersHold(connector, fold, csr, domains, old(Now()), start, Now(), wanted, err);
    }

    /** One record of a refresh: a watcher's pairs are created, any other record is passed over. */
    method RefreshRecord(r: ConnectionRequest) returns (err: bool, failed: bool)
      requires Valid()
      modifies this`requests, this`deletedConnection, this`links, this`rules, this`sent, this`calls
      ensures Valid() && deletedConnection == old(deletedConnection) && calls >= old(calls)
      ensures Refreshes(fold, r, old(requests), requests, domains, subnetless, deletedConnection,
                        err, failed, Smooth(old(calls)))
      ensures Sprung(connector, old(requests), requests, Asked(fold, r, domains))
    {
      err, failed := false, false;
      if r.status != WATCHING { return; }
      var ok := Other();
      var found, cells := FindNetworkDomains(fold, r, domains);
      if !ok || !found { return true, false; }
      ExpansionFits(fold, r, domains);
      ghost var marks;
      failed, marks := CreateAll(cells, false, Values(cells));
    }

    /** RefreshNetworkDomainConnections.  Whatever happens, no record changes, no tombstoned id gets one and
        only selected pairs do.  A pass in which no call fails ends with an error exactly when a watcher
        selects nothing on a side; without one, exactly the selected pairs that are not tombstoned, and have
        addresses to allow if they need any, are new.  `failed` reports a creation that failed. */
    method RefreshNetworkDomainConnections() returns (err: bool, failed: bool)
      requires Valid()
      modifies this`requests, this`deletedConnection, this`links, this`rules, this`sent, this`calls
      ensures Valid() && deletedConnection == old(deletedConnection) && calls >= old(calls)
      ensures Grows(old(requests), requests,
                    Watched(fold, old(requests), old(requests).Keys, domains, subnetless) - deletedConnection)
      ensures Smooth(old(calls)) ==> (err <==> !NoneIdle(fold, old(requests), old(requests).Keys, domains))
      ensures Smooth(old(calls)) && NoneIdle(fold, old(requests), old(requests).Keys, domains) ==>
                requests.Keys == old(requests).Keys
                                 + (Watched(fold, old(requests), old(requests).Keys, domains, subnetless) - deletedConnection)
      ensures Smooth(old(calls)) && failed ==>
                exists id :: id in old(requests) && !AllBear(fold, old(requests)[id], domains, subnetless)
      ensures !err && !failed ==>
                Watched(fold, old(requests), old(requests).Keys, domains, {}) - deletedConnection <= requests.Keys
      ensures !err ==> NoneIdle(fold, old(requests), old(requests).Keys, domains)
      ensures forall id :: id in requests && id !in old(requests) ==>
                id !in deletedConnection && OfWatcher(connector, fold, old(requests), domains, requests[id])
    {
      var ok := Other();
      if !ok {
        GrowsNotAtAll(requests, Watched(fold, requests, requests.Keys, domains, subnetless) - deletedConnection);
        return true, false;
      }
      ghost var connRequests, seen := requests, {};
      var order := Listing(requests);
      err, failed, seen := RefreshRecords(order, requests);
      WatchedIsMonotonic(fold, connRequests, seen, connRequests.Keys, domains, subnetless);
      OfWatchersSpelledOut(connector, fold, connRequests, requests, domains);
    }

    /** Its loop over the records there were, in the order the table lists them. */
    method RefreshRecords(order: seq<string>, connRequests: Table) returns (err: bool, failed: bool, ghost seen: set<string>)
      requires Valid() && requests == connRequests && Elements(order) == connRequests.Keys
      modifies this`requests, this`deletedConnection, this`links, this`rules, this`sent, this`calls
      ensures Valid() && deletedConnection == old(deletedConnection) && calls >= old(calls)
      ensures !err ==> seen == connRequests.Keys
      ensures Refreshed(fold, connRequests, requests, seen, domains, subnetless, deletedConnection,
                        err, failed, Smooth(old(calls)))
      ensures OfWatchers(connector, fold, connRequests, requests, domains)
    {
      err, failed, seen := false, false, {};
      for i := 0 to |order|
        invariant Valid() && deletedConnection == old(deletedConnection) && calls >= old(calls)
        invariant seen == Elements(order[..i]) && !err
        invariant Refreshed(fold, connRequests, requests, seen, domains, subnetless, deletedConnection,
                            false, failed, Smooth(old(calls)))
        invariant OfWatchers(connector, fold, connRequests, requests, domains)
      {
        PrefixOneMore(order, i);
        err, failed := RefreshNext(order[i], connRequests[order[i]], failed, connRequests, seen, old(calls));
        seen := seen + {order[i]};
        if err { return; }
      }
      assert order[..|order|] == order;
    }

    /** Its body. */
    method RefreshNext(id: string, r: ConnectionRequest, failedBefore: bool, ghost start: Table, ghost seen: set<string>,
                       ghost n: nat)
      returns (err: bool, failed: bool)
      requires Valid() && id in start && r == start[id] && n <= calls
      requires Refreshed(fold, start, requests, seen, domains, subnetless, deletedConnection, false, failedBefore, Smooth(n))
      requires OfWatchers(connector, fold, start, requests, domains)
      modifies this`requests, this`deletedConnection, this`links, this`rules, this`sent, this`calls
      ensures Valid() && deletedConnection == old(deletedConnection) && calls >= old(calls)
      ensures Refreshed(fold, start, requests, seen + {id}, domains, subnetless, deletedConnection, err, failed, Smooth(n))
      ensures OfWatchers(connector, fold, start, requests, domains)
    {
      ghost var before, m, smooth := requests, calls, Smooth(n);
      err, failed := RefreshRecord(r);
      OfOneMore(connector, fold, start, before, requests, domains, id);
      RefreshedOneMore(fold, start, before, requests, seen, id, domains, subnetless, deletedConnection,
                       failedBefore, smooth, err, failed, Smooth(m));
      assert Smooth(n) == (smooth && Smooth(m));
      failed := failedBefore || failed;
    }

    /** RunMapping, undisturbed: see Store for what a disturbed one does.  Without vManage there is none. */
    method RunMapping(status: seq<Report>, clock: string -> string)
      requires Valid()
      modifies this`requests, this`broken, this`calls
      ensures Valid() && calls >= old(calls)
      ensures broken <= old(broken) && (connector.Awi? ==> requests == old(requests) && broken == old(broken))
      ensures requests == old(requests) || requests == RunPass(old(requests), Pass(status, clock))
    {
      if connector.Awi? { return; }
      var ok := Other();
      if ok {
        PassKeyed(requests, Pass(status, clock));
        requests := RunPass(requests, Pass(status, clock));
        broken := broken * requests.Keys;
      }
    }

    /** DiscoverNetworkDomains: the domain table as the clouds and vManage list it. */
    method DiscoverNetworkDomains(listing: seq<NetworkDomain>)
      requires Valid() && Discovered(listing)
      modifies this`domains
      ensures Valid() && domains == listing
    {
      domains := listing;
    }

    /** Any run: the promise of the AWI connector holds after whatever requests, refreshes, mapping passes,
        discoveries and changes of the clouds' subnets there were, however many of their calls failed.  Only
        a connection that has lost a link is excused from it, and only when its removal was asked for. */
    method Serve(work: seq<Work>)
      requires Valid()
      requires forall w :: w in work && w.Discover? ==> Discovered(w.listing)
      modifies this
      ensures Valid()
      ensures forall id :: id in broken ==> id in old(broken) || RemovalAsked(work, id)
      ensures connector.Awi? ==>
                forall id :: id in requests && requests[id].status != "Watching" ==>
                  || Kept(requests[id], links, rules)
                  || (((id, requests[id].source.id) !in links || (id, requests[id].destination.id) !in links)
                      && (id in old(broken) || RemovalAsked(work, id)))
    {
      for i := 0 to |work|
        invariant Valid()
        invariant forall id :: id in broken ==> id in old(broken) || RemovalAsked(work, id)
      {
        assert work[i] in work;
        match work[i]
        case Make(csr) => var err := CreateConnection(csr);
        case Remove(ids) =>
          ghost var told;
          var err;
          err, told := DeleteConnection(ids);
          assert forall id :: id in ids ==> RemovalAsked(work, id);
        case Refresh => var err, failed := RefreshNetworkDomainConnections();
        case Map(status, clock) => RunMapping(status, clock);
        case Discover(listing) => DiscoverNetworkDomains(listing);
        case Resubnet(vpcs) => subnetless := vpcs;
      }
      if connector.Awi? {
        ConsistentMeans(requests, links, rules, broken);
      }
    }
  }

  datatype Work =
    | Make(csr: Intent)
    | Remove(ids: seq<string>)
    | Refresh
    | Map(status: seq<Report>, clock: string -> string)
    | Discover(listing: seq<NetworkDomain>)
    | Resubnet(subnetless: set<string>)

  predicate RemovalAsked(work: seq<Work>, id: string) {
    exists i :: 0 <= i < |work| && work[i].Remove? && id in work[i].ids
  }

  /** A watcher that finds no domain for one of its sides. */
  predicate Idle(fold: char -> char, r: ConnectionRequest, domains: seq<NetworkDomain>) {
    r.status == WATCHING && Expansion(fold, r, domains).None?
  }

  ghost predicate NoneIdle(fold: char -> char, table: Table, ids: set<string>, domains: seq<NetworkDomain>)
    requires ids <= table.Keys
  {
    forall id :: id in ids ==> !Idle(fold, table[id], domains)
  }

  /** How far a refresh has come: only ids that can get a record are new; all asked for are there if no
      creation failed, and all that can get one if no call failed. */
  ghost predicate Progress(start: Table, now: Table, asked: set<string>, bearing: set<string>, tombstones: set<string>,
                           complete: bool, smooth: bool) {
    && Grows(start, now, bearing - tombstones)
    && (complete ==> asked - tombstones <= now.Keys)
    && (smooth ==> bearing - tombstones <= now.Keys)
  }

  /** The ids the watchers among some records ask for, those without addresses to allow left out. */
  ghost function Watched(fold: char -> char, table: Table, ids: set<string>, domains: seq<NetworkDomain>,
                         subnetless: set<string>): set<string>
    requires ids <= table.Keys
  {
    set id, r | id in ids && r in Asked(fold, table[id], domains) && !Barren(r, subnetless) :: Key(r)
  }

  predicate AllBear(fold: char -> char, r: ConnectionRequest, domains: seq<NetworkDomain>, subnetless: set<string>) {
    forall a :: a in Asked(fold, r, domains) ==> !Barren(a, subnetless)
  }

  function Asked(fold: char -> char, r: ConnectionRequest, domains: seq<NetworkDomain>): seq<ConnectionRequest> {
    if r.status == WATCHING && Expansion(fold, r, domains).Some? then Expansion(fold, r, domains).value else []
  }

  /** Every new record is that of a request some watcher asks for. */
  ghost predicate OfWatchers(connector: Connector, fold: char -> char, start: Table, now: Table, domains: seq<NetworkDomain>) {
    && (forall id :: id in start ==> id in now && now[id] == start[id])
    && (forall id :: id in now && id !in start ==>
          exists w :: w in start && RecordedOne(connector, Asked(fold, start[w], domains), now[id]))
  }

  lemma OfOneMore(connector: Connector, fold: char -> char, start: Table, before: Table, now: Table,
                  domains: seq<NetworkDomain>, w: string)
    requires OfWatchers(connector, fold, start, before, domains) && w in start
    requires forall id :: id in before ==> id in now && now[id] == before[id]
    requires Sprung(connector, before, now, Asked(fold, start[w], domains))
    ensures OfWatchers(connector, fold, start, now, domains)
  {
    forall id | id in now && id !in start
      ensures exists v :: v in start && RecordedOne(connector, Asked(fold, start[v], domains), now[id])
    {
      if id !in before {
        assert RecordedOne(connector, Asked(fold, start[w], domains), now[id]);
      }
    }
  }

  /** A record a refresh has made: for a watcher and a pair of domains it selects, with the watcher's specification,
      access and name, and unless AWI has connected it with the watcher's status. */
  ghost predicate OfWatcher(connector: Connector, fold: char -> char, start: Table, domains: seq<NetworkDomain>,
                            r: ConnectionRequest) {
    exists w, sd, dd :: w in start && sd in domains && dd in domains && MadeOf(connector, fold, start[w], sd, dd, r)
  }

  ghost predicate MadeOf(connector: Connector, fold: char -> char, w: ConnectionRequest, sd: NetworkDomain, dd: NetworkDomain,
                         r: ConnectionRequest) {
    && w.status == "Watching" && Pairs(fold, w, sd, dd)
    && r.id == sd.id + ":" + dd.id && r.source.id == sd.id && r.destination.id == dd.id
    && r.config == w.config && r.destination.defaultAccess == w.destination.defaultAccess
    && (w.name != "" ==> r.name == w.name)
    && r.status == (if connector.Awi? then "Running" else "Watching")
  }

  lemma OfWatchersSpelledOut(connector: Connector, fold: char -> char, start: Table, now: Table, domains: seq<NetworkDomain>)
    requires OfWatchers(connector, fold, start, now, domains)
    ensures forall id :: id in now && id !in start ==> OfWatcher(connector, fold, start, domains, now[id])
  {
    forall id | id in now && id !in start ensures OfWatcher(connector, fold, start, domains, now[id]) {
      var w :| w in start && RecordedOne(connector, Asked(fold, start[w], domains), now[id]);
      var r :| r in Asked(fold, start[w], domains) && Recorded(connector, r, now[id]);
      var sd, dd := PairOf(fold, start[w], domains, r);
      assert MadeOf(connector, fold, start[w], sd, dd, now[id]);
    }
  }

  lemma PairOf(fold: char -> char, w: ConnectionRequest, domains: seq<NetworkDomain>, r: ConnectionRequest)
    returns (sd: NetworkDomain, dd: NetworkDomain)
    requires r in Asked(fold, w, domains)
    ensures w.status == "Watching" && sd in domains && dd in domains && Pairs(fold, w, sd, dd) && Between(w, sd, dd, r)
  {
    PairsExpand(fold, w, domains);
    sd, dd :| sd in domains && dd in domains && Pairs(fold, w, sd, dd) && Between(w, sd, dd, r);
  }

  lemma RequestOf(fold: char -> char, w: ConnectionRequest, domains: seq<NetworkDomain>, sd: NetworkDomain, dd: NetworkDomain)
    returns (r: ConnectionRequest)
    requires w.status == "Watching" && sd in domains && dd in domains && Pairs(fold, w, sd, dd)
    ensures r in Asked(fold, w, domains) && Between(w, sd, dd, r)
  {
    PairsExpand(fold, w, domains);
    r := WithDestination(WithSource(w, sd), dd);
    assert Between(w, sd, dd, r);
  }

  /** A watcher is idle when no pair of domains is what it selects. */
  lemma IdleIff(fold: char -> char, r: ConnectionRequest, domains: seq<NetworkDomain>)
    ensures Idle(fold, r, domains) <==>
              r.status == "Watching" && forall sd, dd :: sd in domains && dd in domains ==> !Pairs(fold, r, sd, dd)
  {
    PairsExpand(fold, r, domains);
  }

  /** The ids the watchers among some records ask for: source id, colon, destination id of every pair one of them
      selects, but for a pair of VPCs with access allowed whose source has no subnets. */
  lemma WatchedIff(fold: char -> char, table: Table, ids: set<string>, domains: seq<NetworkDomain>, subnetless: set<string>,
                   key: string)
    requires ids <= table.Keys && Discovered(domains)
    ensures key in Watched(fold, table, ids, domains, subnetless) <==>
              exists w, sd, dd :: w in ids && sd in domains && dd in domains && AsksFor(fold, table[w], sd, dd, subnetless, key)
  {
    if key in Watched(fold, table, ids, domains, subnetless) {
      var w, r :| w in ids && r in Asked(fold, table[w], domains) && !Barren(r, subnetless) && Key(r) == key;
      var sd, dd := PairOf(fold, table[w], domains, r);
      PairAsks(fold, table[w], sd, dd, subnetless, r);
    }
    if w, sd, dd :| w in ids && sd in domains && dd in domains && AsksFor(fold, table[w], sd, dd, subnetless, key) {
      var r := RequestOf(fold, table[w], domains, sd, dd);
      PairAsks(fold, table[w], sd, dd, subnetless, r);
    }
  }

  lemma PairAsks(fold: char -> char, w: ConnectionRequest, sd: NetworkDomain, dd: NetworkDomain, subnetless: set<string>,
                 r: ConnectionRequest)
    requires (sd.kind == VPC || sd.kind == VPN) && (dd.kind == VPC || dd.kind == VPN)
    requires w.status == "Watching" && Pairs(fold, w, sd, dd) && Between(w, sd, dd, r)
    ensures AsksFor(fold, w, sd, dd, subnetless, Key(r)) <==> !Barren(r, subnetless)
    ensures Key(r) == sd.id + ":" + dd.id
  {
    FittingRule(r);
  }

  ghost predicate AsksFor(fold: char -> char, w: ConnectionRequest, sd: NetworkDomain, dd: NetworkDomain,
                          subnetless: set<string>, key: string) {
    && w.status == "Watching" && Pairs(fold, w, sd, dd) && key == sd.id + ":" + dd.id
    && !(sd.kind == "vpc" && dd.kind == "vpc" && w.destination.defaultAccess == "allow" && sd.id in subnetless)
  }

  /** A record that a refresh has made keeps its tag, and with vManage it is a watcher in turn.  So a VPN that it
      selects beside its own VPC is asked for with the tag of that VPC, and is told to vManage by that tag and
      not by its own id, exactly unless the two are the same. */
  lemma TagTravels(fold: char -> char, w: ConnectionRequest, domains: seq<NetworkDomain>, sd: NetworkDomain, dd: NetworkDomain,
                   s: Tag, d: Tag)
    returns (r: ConnectionRequest)
    requires w.status == "Watching" && sd in domains && dd in domains && Pairs(fold, w, sd, dd) && sd.kind == "vpn"
    ensures r in Asked(fold, w, domains) && r.source.id == sd.id && r.source.tag == w.source.tag
    ensures MatrixEntries(Prepared(r, s, d), true)[0].sourceType == "vpn"
    ensures MatrixEntries(Prepared(r, s, d), true)[0].sourceId == sd.id <==> w.source.tag == "" || w.source.tag == sd.id
  {
    r := RequestOf(fold, w, domains, sd, dd);
    LowerVpn();
    ToldByOwnIdIff(r, s, d, true);
  }

  lemma WatchedOneMore(fold: char -> char, table: Table, ids: set<string>, id: string, domains: seq<NetworkDomain>,
                       subnetless: set<string>)
    requires ids <= table.Keys && id in table
    ensures Watched(fold, table, ids + {id}, domains, subnetless)
            == Watched(fold, table, ids, domains, subnetless) + Bearing(Asked(fold, table[id], domains), subnetless)
  {
  }

  /** What a refresh makes of one record: of a watcher that selects something on both sides its pairs. */
  ghost predicate Refreshes(fold: char -> char, r: ConnectionRequest, before: Table, now: Table,
                            domains: seq<NetworkDomain>, subnetless: set<string>, tombstones: set<string>,
                            err: bool, failed: bool, smooth: bool) {
    && Grows(before, now, Bearing(Asked(fold, r, domains), subnetless) - tombstones)
    && (!err && !failed ==> Keys(Asked(fold, r, domains)) - tombstones <= now.Keys)
    && (smooth && !err ==> Bearing(Asked(fold, r, domains), subnetless) - tombstones <= now.Keys)
    && (!err ==> !Idle(fold, r, domains))
    && (smooth && err ==> Idle(fold, r, domains))
    && (smooth && failed ==> !AllBear(fold, r, domains, subnetless))
  }

  /** What a refresh that started from some records has achieved with those seen. */
  ghost predicate Refreshed(fold: char -> char, start: Table, now: Table, seen: set<string>,
                            domains: seq<NetworkDomain>, subnetless: set<string>, tombstones: set<string>,
                            err: bool, failed: bool, smooth: bool) {
    && seen <= start.Keys
    && Progress(start, now, Watched(fold, start, seen, domains, {}), Watched(fold, start, seen, domains, subnetless),
                tombstones, !err && !failed, smooth && !err)
    && Excused(fold, start, seen, domains, subnetless, err, failed, smooth)
  }

  /** When no call fails, only an idle watcher ends a refresh and only a pair without addresses fails. */
  ghost predicate Excused(fold: char -> char, start: Table, seen: set<string>, domains: seq<NetworkDomain>,
                          subnetless: set<string>, err: bool, failed: bool, smooth: bool)
    requires seen <= start.Keys
  {
    && (!err ==> NoneIdle(fold, start, seen, domains))
    && (smooth && err ==> !NoneIdle(fold, start, start.Keys, domains))
    && (smooth && failed ==> exists id :: id in start && !AllBear(fold, start[id], domains, subnetless))
  }

  lemma ExcusedOneMore(fold: char -> char, start: Table, seen: set<string>, id: string, domains: seq<NetworkDomain>,
                       subnetless: set<string>, failed: bool, smooth: bool, err: bool, failedToo: bool, smoothToo: bool)
    requires seen <= start.Keys && id in start
    requires Excused(fold, start, seen, domains, subnetless, false, failed, smooth)
    requires !err ==> !Idle(fold, start[id], domains)
    requires smoothToo && err ==> Idle(fold, start[id], domains)
    requires smoothToo && failedToo ==> !AllBear(fold, start[id], domains, subnetless)
    ensures Excused(fold, start, seen + {id}, domains, subnetless, err, failed || failedToo, smooth && smoothToo)
  {
  }

  lemma RefreshedOneMore(fold: char -> char, start: Table, before: Table, now: Table, seen: set<string>, id: string,
                         domains: seq<NetworkDomain>, subnetless: set<string>, tombstones: set<string>,
                         failed: bool, smooth: bool, err: bool, failedToo: bool, smoothToo: bool)
    requires Refreshed(fold, start, before, seen, domains, subnetless, tombstones, false, failed, smooth)
    requires id in start
    requires Refreshes(fold, start[id], before, now, domains, subnetless, tombstones, err, failedToo, smoothToo)
    ensures Refreshed(fold, start, now, seen + {id}, domains, subnetless, tombstones,
                      err, failed || failedToo, smooth && smoothToo)
  {
    WatchedOneMore(fold, start, seen, id, domains, {});
    WatchedOneMore(fold, start, seen, id, domains, subnetless);
    ProgressOneMore(start, before, now, Watched(fold, start, seen, domains, {}),
                    Watched(fold, start, seen, domains, subnetless), Keys(Asked(fold, start[id], domains)),
                    Bearing(Asked(fold, start[id], domains), subnetless), tombstones,
                    !failed, smooth, !err && !failedToo, smoothToo && !err);
    ExcusedOneMore(fold, start, seen, id, domains, subnetless, failed, smooth, err, failedToo, smoothToo);
  }

  lemma ProgressOneMore(start: Table, before: Table, now: Table, asked: set<string>, bearing: set<string>,
                        askedToo: set<string>, bearingToo: set<string>, tombstones: set<string>,
                        complete: bool, smooth: bool, completeToo: bool, smoothToo: bool)
    requires Progress(start, before, asked, bearing, tombstones, complete, smooth)
    requires Grows(before, now, bearingToo - tombstones)
    requires completeToo ==> askedToo - tombstones <= now.Keys
    requires smoothToo ==> bearingToo - tombstones <= now.Keys
    ensures Progress(start, now, asked + askedToo, bearing + bearingToo, tombstones,
                     complete && completeToo, smooth && smoothToo)
  {
    GrowsFurther(start, before, now, bearing, bearingToo, false, tombstones, tombstones);
  }

  lemma WatchedIsMonotonic(fold: char -> char, table: Table, ids: set<string>, more: set<string>,
                           domains: seq<NetworkDomain>, subnetless: set<string>)
    requires ids <= more <= table.Keys
    ensures Watched(fold, table, ids, domains, subnetless) <= Watched(fold, table, more, domains, subnetless)
  {
  }

  lemma ExpansionFits(fold: char -> char, base: ConnectionRequest, domains: seq<NetworkDomain>)
    requires Discovered(domains) && Expansion(fold, base, domains).Some?
    ensures forall r :: r in Expansion(fold, base, domains).value ==> Fits(r)
  {
    var sources := Matched(fold, SourceSelector(base), domains);
    var destinations := Matched(fold, DestinationSelector(base), domains);
    MatchedMembers(fold, SourceSelector(base), domains);
    MatchedMembers(fold, DestinationSelector(base), domains);
    var p := Product(base, destinations, sources);
    forall m | 0 <= m < |p| ensures Fits(p[m]) {
      var i, j := Coordinates(m, |sources|, |destinations|);
      ProductAt(base, destinations, sources, i, j);
      assert sources[j] in domains && destinations[i] in domains;
    }
  }

  /** The ids a round may write: a refresh leaves tombstoned ones alone. */
  function Open(ids: set<string>, force: bool, tombstones: set<string>): set<string> {
    if force then ids else ids - tombstones
  }

  /** A table with more records, and only of some ids. */
  ghost predicate Grows(before: Table, after: Table, ids: set<string>) {
    before.Keys <= after.Keys <= before.Keys + ids && forall id :: id in before ==> after[id] == before[id]
  }

  lemma GrowsOneMore(a: Table, b: Table, c: Table, ids: set<string>, key: string)
    requires Grows(a, b, ids)
    requires c == b || (key !in b && key in c && c - {key} == b)
    ensures Grows(a, c, ids + {key}) && (c == b ==> Grows(a, c, ids))
  {
    forall id | id in b ensures id in c && c[id] == b[id] {
      assert id in c - {key} || c == b;
    }
    forall id | id in c && id != key ensures id in b {
      assert id in c - {key};
    }
  }

  lemma GrowsNotAtAll(t: Table, ids: set<string>)
    ensures Grows(t, t, ids)
  {
  }

  lemma GrowsFurther(a: Table, b: Table, c: Table, done: set<string>, next: set<string>, force: bool,
                     t0: set<string>, t1: set<string>)
    requires force || t0 == t1
    requires Grows(a, b, Open(done, force, t0)) && Grows(b, c, Open(next, force, t1))
    ensures Grows(a, c, Open(done + next, force, t0))
  {
    OpenUnion(done, next, force, t0, t0);
  }

  /** The ids of the requests that have addresses to allow, if they need any. */
  function Bearing(rs: seq<ConnectionRequest>, subnetless: set<string>): set<string> {
    set r | r in rs && !Barren(r, subnetless) :: Key(r)
  }

  function Keys(rs: seq<ConnectionRequest>): set<string> {
    Bearing(rs, {})
  }

  lemma BearingOne(r: ConnectionRequest, subnetless: set<string>)
    ensures Bearing([r], subnetless) == if Barren(r, subnetless) then {} else {Key(r)}
  {
    assert r in [r];
  }

  lemma BearingConcat(rs: seq<ConnectionRequest>, more: seq<ConnectionRequest>, subnetless: set<string>)
    ensures Bearing(rs + more, subnetless) == Bearing(rs, subnetless) + Bearing(more, subnetless)
  {
  }

  lemma FittingStaysFitting(r: ConnectionRequest)
    requires Fits(r)
    ensures Fits(Normalized(r))
  {
    LowerVpn();
  }
}
