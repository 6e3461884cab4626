/** What the interleaving model keeps of the controller's state: how its records, its mapping pass and its promise
    are those of Controller and Store. */
module Abstraction {
  import opened Records
  import Controller
  import Interleaving
  import Matrices
  import Store

  type Table = map<string, ConnectionRequest>

  function Rec(r: ConnectionRequest): Interleaving.Rec {
    Interleaving.Rec(r.source.id, r.destination.id, "awi-" + Controller.Dashed(r.name) + "-sg",
                     r.source.provider != r.destination.provider, Controller.NeedsRule(r), r.status == WATCHING)
  }

  function Recs(t: Table): map<string, Interleaving.Rec> {
    map id | id in t :: Rec(t[id])
  }

  function Asset(rule: Controller.AllowRule): Interleaving.Asset {
    Interleaving.RuleIn(PairId(if |rule.tag| >= 8 then rule.tag[8..] else "", rule.vpc), rule.group)
  }

  function Assets(links: set<(string, string)>, rules: set<Controller.AllowRule>): set<Interleaving.Asset> {
    (set l | l in links :: Interleaving.LinkAt(l.0, l.1)) + (set r | r in rules :: Asset(r))
  }

  /** A key of a record is the id the model gives it. */
  lemma RecId(r: ConnectionRequest)
    ensures Interleaving.Id(Rec(r)) == r.source.id + ":" + r.destination.id
  {
  }

  /** The transaction of a mapping pass, whatever it finds, is the model's commit of what is reported. */
  lemma PassIsCommit(snapshot: Table, current: Table, status: seq<Store.Report>, clock: string -> string)
    ensures var reported := Store.Written(Store.AllEntries(status));
            Recs(Store.Merge(snapshot, current, reported, clock))
            == Interleaving.Merged(Recs(snapshot), Recs(current), Recs(reported))
  {
    var reported := Store.Written(Store.AllEntries(status));
    Store.Precedence(status);
    forall id | id in reported ensures reported[id].status != WATCHING {
      Matrices.ReportedStatus(status, id);
    }
    MergeIsMerged(snapshot, current, reported, clock);
  }

  lemma MergeIsMerged(snapshot: Table, current: Table, reported: Table, clock: string -> string)
    requires forall id :: id in reported ==> reported[id].status != WATCHING
    ensures Recs(Store.Merge(snapshot, current, reported, clock))
            == Interleaving.Merged(Recs(snapshot), Recs(current), Recs(reported))
  {
    var after := Recs(Store.Merge(snapshot, current, reported, clock));
    var merged := Interleaving.Merged(Recs(snapshot), Recs(current), Recs(reported));
    MergedKeys(snapshot, current, reported, clock);
    forall id | id in after ensures after[id] == merged[id] {
      MergedRow(snapshot, current, reported, clock, id);
    }
  }

  lemma MergedKeys(snapshot: Table, current: Table, reported: Table, clock: string -> string)
    ensures Recs(Store.Merge(snapshot, current, reported, clock)).Keys
            == Interleaving.Merged(Recs(snapshot), Recs(current), Recs(reported)).Keys
  {
    assert Recs(snapshot).Keys == snapshot.Keys && Recs(current).Keys == current.Keys && Recs(reported).Keys == reported.Keys;
  }

  lemma MergedRow(snapshot: Table, current: Table, reported: Table, clock: string -> string, id: string)
    requires forall i :: i in reported ==> reported[i].status != WATCHING
    requires id in Store.Merge(snapshot, current, reported, clock)
    ensures id in Interleaving.Merged(Recs(snapshot), Recs(current), Recs(reported))
    ensures Rec(Store.Merge(snapshot, current, reported, clock)[id])
            == Interleaving.Merged(Recs(snapshot), Recs(current), Recs(reported))[id]
  {
    if id in reported {
      ReportedRow(snapshot, reported, id, clock(id));
    }
  }

  lemma ReportedRow(snapshot: Table, reported: Table, id: string, now: string)
    requires id in reported && reported[id].status != WATCHING
    ensures Rec(Store.Stamp(Store.Reconciled(snapshot, reported, id), now))
            == if id in snapshot then Rec(snapshot[id]).(watching := false) else Rec(reported[id])
  {
  }

  /** What the AWI connector promises of its records is what the model promises of theirs. */
  lemma PromiseIsInPlace(s: Interleaving.State, requests: Table, links: set<(string, string)>,
                         rules: set<Controller.AllowRule>, broken: set<string>)
    requires Controller.Consistent(requests, links, rules, broken)
    requires s.table == Recs(requests) && s.assets == Assets(links, rules) && s.broken == broken
    ensures Interleaving.InPlace(s)
  {
    forall id | id in s.table && !s.table[id].watching && id !in s.broken
      ensures Interleaving.Assets(id, s.table[id]) <= s.assets
    {
      var r := requests[id];
      assert Controller.InPlace(r, links, rules);
      assert (r.id, r.source.id) in Controller.Ends(r) && (r.id, r.destination.id) in Controller.Ends(r);
      assert Interleaving.LinkAt(id, r.source.id) in s.assets && Interleaving.LinkAt(id, r.destination.id) in s.assets;
      if Controller.NeedsRule(r) {
        RuleIsAsset(r);
        assert Asset(Controller.RuleOf(r)) in s.assets;
      }
    }
  }

  lemma RuleIsAsset(r: ConnectionRequest)
    ensures Asset(Controller.RuleOf(r)) == Interleaving.RuleIn(PairId(r.source.id, r.destination.id), Rec(r).group)
  {
    assert Controller.RuleOf(r).tag[8..] == r.source.id;
  }

  /** A creation the controller completes for a new id is one the model can complete: the record and the assets
      that come are those of the model's run. */
  lemma CreationIsRun(s: Interleaving.State, asked: ConnectionRequest, made: ConnectionRequest)
    returns (events: seq<Interleaving.Event>)
    requires s.consumer.Idle? && asked.status != WATCHING
    requires Controller.Fits(asked) && Controller.Recorded(Controller.Awi, asked, made)
    requires asked.source.id + ":" + asked.destination.id !in s.table
    ensures Interleaving.Run(s, events).Some?
    ensures var s', id := Interleaving.Run(s, events).value, made.id;
            && s'.table == s.table[id := Rec(made)] && s'.tombs == s.tombs - {id}
            && s'.assets == s.assets + Assets({(id, asked.source.id), (id, asked.destination.id)},
                                              if Controller.NeedsRule(made) then {Controller.RuleOf(made)} else {})
            && s'.refresher == s.refresher && s'.broken == s.broken
  {
    events := Interleaving.CreationCompletes(s, Interleaving.Consumer, Rec(made));
    RecordAssets(made);
  }

  /** And so is a removal it completes: what goes is the record, both links, and the rule if there is one. */
  lemma RemovalIsRun(s: Interleaving.State, r: ConnectionRequest) returns (events: seq<Interleaving.Event>)
    requires s.consumer.Idle? && r.id == r.source.id + ":" + r.destination.id && r.status != WATCHING
    requires r.id in s.table && s.table[r.id] == Rec(r)
    ensures Interleaving.Run(s, events).Some?
    ensures var s' := Interleaving.Run(s, events).value;
            && s'.table == s.table - {r.id} && s'.tombs == s.tombs + {r.id}
            && s'.assets == s.assets - Assets({(r.id, r.source.id), (r.id, r.destination.id)},
                                              if Controller.NeedsRule(r) then {Controller.RuleOf(r)} else {})
            && s'.refresher == s.refresher && s'.broken == s.broken - {r.id}
  {
    events := Interleaving.RemovalGoesOn(s, r.id);
    RecordAssets(r);
  }

  lemma RecordAssets(r: ConnectionRequest)
    requires r.id == r.source.id + ":" + r.destination.id
    ensures Assets({(r.id, r.source.id), (r.id, r.destination.id)}, if Controller.NeedsRule(r) then {Controller.RuleOf(r)} else {})
            == Interleaving.Assets(r.id, Rec(r))
  {
    RuleIsAsset(r);
    assert (r.id, r.source.id) in {(r.id, r.source.id), (r.id, r.destination.id)};
    if Controller.NeedsRule(r) {
      assert Controller.RuleOf(r) in {Controller.RuleOf(r)};
    }
  }
}
