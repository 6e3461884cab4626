/** The same operations cut at every access to what the goroutines share.  The queue's consumer creates and
    deletes for the user, the refresher creates for the watchers, the mapper reconciles.  Single accesses
    to the tombstone map and to the table are atomic; between them anything may run, and any call may fail.
    pkg/connection-controller/awi_connection_controller.go, disconnect.go, pkg/db/db.go */
module Interleaving {
  import opened Records

  datatype Thread = Consumer | Refresher

  /** What a connection consists of at the clouds: a link at each end and, if it asks for one, its default-allow
      rule.  `group` is the security group the rule is in, which goes by the connection's name. */
  datatype Asset = LinkAt(id: string, vpc: string) | RuleIn(id: string, group: string)

  /** `multi` says that the ends are in different clouds: a link call for each end instead of one for both;
      `allow` that the connection has a default-allow rule. */
  datatype Rec = Rec(src: string, dst: string, group: string, multi: bool, allow: bool, watching: bool)

  function Id(r: Rec): string {
    PairId(r.src, r.dst)
  }

  function Rules(id: string, r: Rec): set<Asset> {
    if r.allow then {RuleIn(id, r.group)} else {}
  }

  function Assets(id: string, r: Rec): set<Asset> {
    {LinkAt(id, r.src), LinkAt(id, r.dst)} + Rules(id, r)
  }

  /** The next access of a creation. */
  datatype CreatePhase = Ask | Lookup | Allow | Link | LinkOther | Save

  /** The next access of a deletion. */
  datatype DeletePhase = Find | FindAgain | Unlink(rec: Rec) | UnlinkOther(rec: Rec) | Disallow(rec: Rec) | Erase

  datatype Task =
    | Idle
    | Create(made: Rec, phase: CreatePhase)
    | Delete(id: string, next: DeletePhase)

  datatype State = State(
    vmanage: bool,
    table: map<string, Rec>,
    tombs: set<string>,
    assets: set<Asset>,
    broken: set<string>,
    consumer: Task,
    refresher: Task,
    snapshot: Option<map<string, Rec>>)

  datatype Event =
    | BeginCreate(t: Thread, made: Rec)
    | BeginDelete(id: string)
    | PutWatcher(id: string, rec: Rec)
    | Advance(t: Thread, reply: Reply)
    | TakeSnapshot
    | Commit(reported: map<string, Rec>)

  function TaskOf(s: State, t: Thread): Task {
    if t.Consumer? then s.consumer else s.refresher
  }

  function WithTask(s: State, t: Thread, task: Task): State {
    if t.Consumer? then s.(consumer := task) else s.(refresher := task)
  }

  /** A thread begins nothing before it is done; the refresher deletes nothing; only the vManage connector
      has a mapper, which takes a new snapshot when its transaction has failed. */
  predicate Enabled(s: State, e: Event) {
    match e
    case BeginCreate(t, _) => TaskOf(s, t).Idle?
    case BeginDelete(_) => s.consumer.Idle?
    case PutWatcher(_, rec) => s.consumer.Idle? && rec.watching
    case Advance(t, _) => if t.Consumer? then !s.consumer.Idle? else s.refresher.Create?
    case TakeSnapshot => s.vmanage
    case Commit(_) => s.vmanage && s.snapshot.Some?
  }

  /** Where a thread goes after a call. */
  function Then(s: State, t: Thread, reply: Reply, task: Task): State {
    WithTask(s, t, if reply.Done? then task else Idle)
  }

  /** The refresher gives up on a tombstone, the user removes it. */
  function AskTombstone(s: State, t: Thread): State
    requires TaskOf(s, t).Create?
  {
    var task := TaskOf(s, t);
    var id := Id(task.made);
    if t.Consumer? then WithTask(s.(tombs := s.tombs - {id}), t, task.(phase := Lookup))
    else if id in s.tombs then WithTask(s, t, Idle)
    else WithTask(s, t, task.(phase := Lookup))
  }

  /** What the call a creation is about to make adds when it takes effect. */
  function Gain(task: Task): set<Asset>
    requires task.Create?
  {
    var r, id := task.made, Id(task.made);
    match task.phase
    case Allow => Rules(id, r)
    case Link => if r.multi then {LinkAt(id, r.src)} else {LinkAt(id, r.src), LinkAt(id, r.dst)}
    case LinkOther => {LinkAt(id, r.dst)}
    case _ => {}
  }

  function NextPhase(task: Task): CreatePhase
    requires task.Create?
  {
    match task.phase
    case Ask => Lookup
    case Lookup => Allow
    case Allow => Link
    case Link => if task.made.multi then LinkOther else Save
    case LinkOther => Save
    case Save => Save
  }

  function AdvanceCreate(s: State, t: Thread, reply: Reply): State
    requires TaskOf(s, t).Create?
  {
    var task := TaskOf(s, t);
    var id := Id(task.made);
    match task.phase
    case Ask => AskTombstone(s, t)
    case Lookup => if id in s.table then WithTask(s, t, Idle) else Then(s, t, reply, task.(phase := Allow))
    case Save =>
      var r := task.made.(watching := s.vmanage && t.Refresher?);
      WithTask(if reply.Done? then s.(table := s.table[id := r]) else s, t, Idle)
    case _ =>
      Then(if reply.TookEffect() then s.(assets := s.assets + Gain(task)) else s, t, reply,
           task.(phase := NextPhase(task)))
  }

  /** What the call a deletion is about to make takes away when it takes effect. */
  function Loss(id: string, next: DeletePhase): set<Asset> {
    match next
    case Unlink(rec) => if rec.multi then {LinkAt(id, rec.src)} else {LinkAt(id, rec.src), LinkAt(id, rec.dst)}
    case UnlinkOther(rec) => {LinkAt(id, rec.dst)}
    case Disallow(rec) => Rules(id, rec)
    case _ => {}
  }

  function NextAfter(next: DeletePhase): DeletePhase {
    match next
    case Unlink(rec) => if rec.multi then UnlinkOther(rec) else Disallow(rec)
    case UnlinkOther(rec) => Disallow(rec)
    case _ => Erase
  }

  function AdvanceDelete(s: State, reply: Reply): State
    requires s.consumer.Delete?
  {
    var id := s.consumer.id;
    match s.consumer.next
    case Find =>
      if id !in s.table then s.(consumer := Idle)
      else Then(s, Consumer, reply, Delete(id, if s.table[id].watching then Erase else FindAgain))
    case FindAgain =>
      if id !in s.table then s.(consumer := Idle) else Then(s, Consumer, reply, Delete(id, Unlink(s.table[id])))
    case Erase =>
      if reply.Done? then s.(table := s.table - {id}, broken := s.broken - {id}, consumer := Idle)
      else s.(consumer := Idle)
    case next =>
      var lost := if reply.TookEffect() then Loss(id, next) else {};
      Then(s.(assets := s.assets - lost, broken := s.broken + if lost == {} then {} else {id}), Consumer, reply,
           Delete(id, NextAfter(next)))
  }

  /** A mapping pass that read `snapshot` and finds `current` when it writes. */
  function Merged(snapshot: map<string, Rec>, current: map<string, Rec>, reported: map<string, Rec>): map<string, Rec> {
    map id | id in (current.Keys - (snapshot.Keys - reported.Keys)) + reported.Keys ::
      if id !in reported then current[id]
      else if id in snapshot then snapshot[id].(watching := false) else reported[id]
  }

  function Apply(s: State, e: Event): State
    requires Enabled(s, e)
  {
    match e
    case BeginCreate(t, made) => WithTask(s, t, Create(made, Ask))
    case BeginDelete(id) => s.(tombs := s.tombs + {id}, consumer := Delete(id, Find))
    case PutWatcher(id, rec) => s.(table := s.table[id := rec])
    case Advance(t, reply) => if TaskOf(s, t).Create? then AdvanceCreate(s, t, reply) else AdvanceDelete(s, reply)
    case TakeSnapshot => s.(snapshot := Some(s.table))
    case Commit(reported) => s.(table := Merged(s.snapshot.value, s.table, reported), snapshot := None)
  }

  /** Where a run ends; None when it takes a step that is not enabled. */
  function Run(s: State, events: seq<Event>): Option<State>
    decreases events
  {
    if events == [] then Some(s)
    else if Enabled(s, events[0]) then Run(Apply(s, events[0]), events[1..])
    else None
  }

  lemma RunFirst(s: State, e: Event, rest: seq<Event>)
    requires Enabled(s, e)
    ensures Run(s, [e] + rest) == Run(Apply(s, e), rest)
  {
    assert ([e] + rest)[1..] == rest;
  }

  lemma {:induction false} RunAppend(s: State, a: seq<Event>, b: seq<Event>)
    requires Run(s, a).Some?
    ensures Run(s, a + b) == Run(Run(s, a).value, b)
    decreases a
  {
    if a == [] {
      assert a + b == b;
    } else {
      assert (a + b)[1..] == a[1..] + b;
      RunAppend(Apply(s, a[0]), a[1..], b);
    }
  }

  // ---------------------------------------------------------------- tombstones

  /** A creation of id that has got past its look at the tombstones. */
  predicate PastCheck(task: Task, id: string) {
    task.Create? && Id(task.made) == id && !task.phase.Ask?
  }

  /** The user is not making id. */
  predicate NotMaking(task: Task, id: string) {
    task.Create? ==> Id(task.made) != id
  }

  /** Marked as deleted, and nothing on its way to write it. */
  predicate Marked(s: State, id: string) {
    id in s.tombs && !PastCheck(s.refresher, id) && NotMaking(s.consumer, id)
  }

  /** The record of id is what it was, or gone. */
  predicate NotWritten(before: State, after: State, id: string) {
    id in after.table ==> id in before.table && after.table[id] == before.table[id]
  }

  /** A step by which the user or a mapping report names the id. */
  predicate Names(e: Event, id: string) {
    match e
    case BeginCreate(t, made) => t.Consumer? && Id(made) == id
    case PutWatcher(w, _) => w == id
    case Commit(reported) => id in reported
    case _ => false
  }

  lemma CreateKeepsMark(s: State, t: Thread, reply: Reply, id: string)
    requires Marked(s, id) && TaskOf(s, t).Create?
    ensures Marked(AdvanceCreate(s, t, reply), id) && NotWritten(s, AdvanceCreate(s, t, reply), id)
  {
    var task := TaskOf(s, t);
    if Id(task.made) == id {
      assert t.Refresher? && task.phase.Ask?;
    }
  }

  lemma StepKeepsMark(s: State, e: Event, id: string)
    requires Marked(s, id) && Enabled(s, e) && !Names(e, id)
    ensures Marked(Apply(s, e), id) && NotWritten(s, Apply(s, e), id)
  {
    match e
    case Advance(t, reply) =>
      if TaskOf(s, t).Create? {
        CreateKeepsMark(s, t, reply, id);
      }
    case _ =>
  }

  /** No resurrection: whatever the threads do in whatever order, a record marked as deleted is not written
      again, and once it is gone it stays away, until the user asks for it or a mapping report lists it. */
  lemma {:induction false} NoResurrection(s: State, events: seq<Event>, id: string)
    requires Marked(s, id) && Run(s, events).Some?
    requires forall i :: 0 <= i < |events| ==> !Names(events[i], id)
    ensures Marked(Run(s, events).value, id) && NotWritten(s, Run(s, events).value, id)
    decreases events
  {
    if events != [] {
      StepKeepsMark(s, events[0], id);
      NoResurrection(Apply(s, events[0]), events[1..], id);
    }
  }

  /** A run that brings the id back without being asked to. */
  ghost predicate BringsBack(s: State, events: seq<Event>, id: string) {
    && Run(s, events).Some? && id in Run(s, events).value.table
    && forall i :: 0 <= i < |events| ==> !Names(events[i], id)
  }

  const GO := Advance(Refresher, Done)
  const USER := Advance(Consumer, Done)

  function StepsLeft(task: Task): nat
    requires task.Create?
  {
    match task.phase
    case Ask => 6
    case Lookup => if task.made.multi then 5 else 4
    case Allow => if task.made.multi then 4 else 3
    case Link => if task.made.multi then 3 else 2
    case LinkOther => 2
    case Save => 1
  }

  lemma {:induction false} FinishBringsBack(s: State, id: string)
    requires id !in s.table && PastCheck(s.refresher, id)
    ensures BringsBack(s, seq(StepsLeft(s.refresher), _ => GO), id)
    decreases StepsLeft(s.refresher)
  {
    var steps := seq(StepsLeft(s.refresher), _ => GO);
    var s' := Apply(s, GO);
    assert Run(s, steps) == Run(s', steps[1..]);
    if s.refresher.phase.Save? {
      assert s'.table == s.table[id := s'.table[id]];
    } else {
      FinishBringsBack(s', id);
      assert steps[1..] == seq(StepsLeft(s'.refresher), _ => GO);
    }
  }

  /** Exactly one thing can undo a deletion unasked: a refresh that looked at the tombstones before the
      mark was set and has not written yet. */
  lemma ResurrectionIff(s: State, id: string)
    requires id in s.tombs && id !in s.table && NotMaking(s.consumer, id)
    ensures (exists events :: BringsBack(s, events, id)) <==> PastCheck(s.refresher, id)
  {
    if PastCheck(s.refresher, id) {
      FinishBringsBack(s, id);
    } else {
      forall events | BringsBack(s, events, id) ensures false {
        NoResurrection(s, events, id);
      }
    }
  }

  // ---------------------------------------------------------------- links and rules

  /** The promise of the AWI connector: every connection that is no watcher has its links and its rule,
      unless its removal took effect in part. */
  predicate InPlace(s: State) {
    forall id :: id in s.table && !s.table[id].watching && id !in s.broken ==> Assets(id, s.table[id]) <= s.assets
  }

  /** A stored connection with a link at each end and, if it asks for one, its rule. */
  predicate Served(s: State, id: string) {
    && id in s.table
    && LinkAt(id, s.table[id].src) in s.assets && LinkAt(id, s.table[id].dst) in s.assets
    && (s.table[id].allow ==> RuleIn(id, s.table[id].group) in s.assets)
  }

  lemma ServedIffInPlace(s: State)
    ensures InPlace(s) <==> forall id :: id in s.table && !s.table[id].watching && id !in s.broken ==> Served(s, id)
  {
    forall id | id in s.table ensures Served(s, id) <==> Assets(id, s.table[id]) <= s.assets {
      var r := s.table[id];
      assert LinkAt(id, r.src) in Assets(id, r) && LinkAt(id, r.dst) in Assets(id, r);
      assert r.allow ==> RuleIn(id, r.group) in Assets(id, r);
    }
  }

  /** What a creation counts on having. */
  function Needed(task: Task): set<Asset> {
    if !task.Create? then {}
    else
      var r, id := task.made, Id(task.made);
      match task.phase
      case Link => Rules(id, r)
      case LinkOther => {LinkAt(id, r.src)} + Rules(id, r)
      case Save => Assets(id, r)
      case _ => {}
  }

  /** The promise, kept as far as it has got by every creation too. */
  predicate AllInPlace(s: State) {
    InPlace(s) && Needed(s.consumer) <= s.assets && Needed(s.refresher) <= s.assets
  }

  /** What a step takes away. */
  function Lost(s: State, e: Event): set<Asset> {
    if e.Advance? && e.t.Consumer? && s.consumer.Delete? && e.reply.TookEffect() then Loss(s.consumer.id, s.consumer.next)
    else {}
  }

  /** The user's deletion takes away something the refresher has just made for a record not yet saved. */
  predicate Undercuts(s: State, e: Event) {
    Lost(s, e) * Needed(s.refresher) != {}
  }

  lemma CreateKeepsInPlace(s: State, t: Thread, reply: Reply)
    requires AllInPlace(s) && !s.vmanage && TaskOf(s, t).Create?
    ensures AllInPlace(AdvanceCreate(s, t, reply))
  {
    var task := TaskOf(s, t);
    var s' := AdvanceCreate(s, t, reply);
    assert s.assets <= s'.assets;
    if task.phase.Save? {
      assert Assets(Id(task.made), task.made) <= s.assets;
    }
  }

  /** What a deletion takes away belongs to its own connection, and that one is broken then. */
  lemma DeletionKeepsInPlace(s: State, reply: Reply)
    requires InPlace(s) && s.consumer.Delete?
    ensures InPlace(AdvanceDelete(s, reply))
  {
    var s' := AdvanceDelete(s, reply);
    forall id | id in s'.table && !s'.table[id].watching && id !in s'.broken ensures Assets(id, s'.table[id]) <= s'.assets {
      if id == s.consumer.id {
        assert s'.assets == s.assets;
      }
    }
  }

  lemma DeletionLoses(s: State, e: Event)
    requires s.consumer.Delete? && e.Advance? && e.t.Consumer?
    ensures AdvanceDelete(s, e.reply).assets == s.assets - Lost(s, e)
    ensures Needed(AdvanceDelete(s, e.reply).consumer) == {} && AdvanceDelete(s, e.reply).refresher == s.refresher
  {
  }

  lemma StepKeepsAllInPlace(s: State, e: Event)
    requires AllInPlace(s) && !s.vmanage && Enabled(s, e) && !Undercuts(s, e)
    ensures AllInPlace(Apply(s, e)) && !Apply(s, e).vmanage
  {
    match e
    case Advance(t, reply) =>
      if TaskOf(s, t).Create? {
        CreateKeepsInPlace(s, t, reply);
      } else {
        DeletionKeepsInPlace(s, reply);
        DeletionLoses(s, e);
      }
    case _ =>
  }

  predicate InPlaceThroughout(s: State, events: seq<Event>)
    decreases events
  {
    InPlace(s) && (events != [] && Enabled(s, events[0]) ==> InPlaceThroughout(Apply(s, events[0]), events[1..]))
  }

  predicate NeverUndercut(s: State, events: seq<Event>)
    decreases events
  {
    events != [] && Enabled(s, events[0]) ==>
      !Undercuts(s, events[0]) && NeverUndercut(Apply(s, events[0]), events[1..])
  }

  /** With the AWI connector, whatever fails, a run in which no step undercuts the refresh keeps the promise
      at every state. */
  lemma {:induction false} NeverUndercutStaysInPlace(s: State, events: seq<Event>)
    requires AllInPlace(s) && !s.vmanage && Run(s, events).Some? && NeverUndercut(s, events)
    ensures InPlaceThroughout(s, events)
    ensures var end := Run(s, events).value;
            forall id :: id in end.table && !end.table[id].watching && id !in end.broken ==> Served(end, id)
    decreases events
  {
    ServedIffInPlace(s);
    if events != [] {
      StepKeepsAllInPlace(s, events[0]);
      NeverUndercutStaysInPlace(Apply(s, events[0]), events[1..]);
    }
  }

  /** A stored connection the promise does not excuse, without one of its assets. */
  predicate Unkept(s: State, id: string) {
    id in s.table && !s.table[id].watching && id !in s.broken && !Served(s, id)
  }

  /** The refresher, left alone, saves its record without an asset that was taken away. */
  lemma {:induction false} FinishUnkept(s: State, missing: Asset) returns (events: seq<Event>)
    requires !s.vmanage && s.refresher.Create? && s.refresher.made.src != s.refresher.made.dst
    requires missing in Needed(s.refresher) && missing !in s.assets && Id(s.refresher.made) !in s.broken
    ensures Run(s, events).Some? && Unkept(Run(s, events).value, Id(s.refresher.made))
    decreases StepsLeft(s.refresher)
  {
    var s' := Apply(s, GO);
    if s.refresher.phase.Save? {
      events := [];
    } else {
      assert missing in Needed(s'.refresher) && missing !in s'.assets;
      events := FinishUnkept(s', missing);
    }
    RunFirst(s, GO, events);
    events := [GO] + events;
  }

  /** The deletions still to make before the record of id is gone. */
  function DeletionLeft(task: Task): nat {
    if !task.Delete? then 7
    else
      match task.next
      case Find => 6
      case FindAgain => 5
      case Unlink(_) => 4
      case UnlinkOther(_) => 3
      case Disallow(_) => 2
      case Erase => 1
  }

  /** What a deletion still has to take away. */
  function Doomed(s: State, id: string): set<Asset> {
    if !s.consumer.Delete? then if id in s.table && !s.table[id].watching then Assets(id, s.table[id]) else {}
    else
      match s.consumer.next
      case Find => if id in s.table && !s.table[id].watching then Assets(id, s.table[id]) else {}
      case FindAgain => if id in s.table then Assets(id, s.table[id]) else {}
      case Unlink(rec) => Assets(id, rec)
      case UnlinkOther(rec) => {LinkAt(id, rec.dst)} + Rules(id, rec)
      case Disallow(rec) => Rules(id, rec)
      case Erase => {}
  }

  /** The user can always remove a stored connection, or go on with its removal, whatever the refresher is in the
      middle of: exactly its record and what it still had at the clouds go, its mark stays. */
  lemma {:induction false} RemovalGoesOn(s: State, id: string) returns (events: seq<Event>)
    requires s.consumer.Idle? || (s.consumer.Delete? && s.consumer.id == id)
    requires s.consumer.Idle? || s.consumer.next.Find? || s.consumer.next.FindAgain? ==> id in s.table
    ensures Run(s, events).Some?
    ensures var s' := Run(s, events).value;
            && s' == s.(table := s.table - {id}, assets := s.assets - Doomed(s, id), broken := s.broken - {id},
                        consumer := Idle, tombs := if s.consumer.Idle? then s.tombs + {id} else s.tombs)
    decreases DeletionLeft(s.consumer)
  {
    var e := if s.consumer.Idle? then BeginDelete(id) else USER;
    var s' := Apply(s, e);
    if s.consumer.Delete? && s.consumer.next.Erase? {
      events := [];
    } else {
      events := RemovalGoesOn(s', id);
      assert s'.broken - {id} == s.broken - {id};
      assert s'.assets - Doomed(s', id) == s.assets - Doomed(s, id);
    }
    RunFirst(s, e, events);
    events := [e] + events;
  }

  /** From the table's point of view: a removal that has not yet read the record takes away its links and its
      rule, unless it is a watcher's, and nothing of any other connection. */
  lemma RemovalCompletes(s: State, id: string) returns (events: seq<Event>)
    requires s.consumer.Idle? || (s.consumer.Delete? && s.consumer.id == id)
    requires s.consumer.Idle? || s.consumer.next.Find? || s.consumer.next.FindAgain? ==> id in s.table
    ensures Run(s, events).Some?
    ensures var s' := Run(s, events).value;
            && id !in s'.table && id !in s'.broken && s'.consumer.Idle?
            && s'.refresher == s.refresher && s'.vmanage == s.vmanage && s'.assets <= s.assets
            && (s.consumer.Idle? ==> id in s'.tombs)
            && (forall a :: a in s.assets && a.id != id ==> a in s'.assets)
            && ((s.consumer.Idle? || s.consumer.next.Find?) && !s.table[id].watching ==>
                  && LinkAt(id, s.table[id].src) !in s'.assets && LinkAt(id, s.table[id].dst) !in s'.assets
                  && (s.table[id].allow ==> RuleIn(id, s.table[id].group) !in s'.assets))
            && ((s.consumer.Idle? || s.consumer.next.Find?) && s.table[id].watching ==> s'.assets == s.assets)
  {
    events := RemovalGoesOn(s, id);
  }

  /** A thread that is free can always make a connection, whatever the other is in the middle of.  The user's request
      removes the mark, a refresh respects it; and unless there is a record already exactly the links, the rule if
      one is asked for, and the record come: a watcher's when a refresh makes it with vManage. */
  lemma CreationCompletes(s: State, t: Thread, r: Rec) returns (events: seq<Event>)
    requires TaskOf(s, t).Idle?
    ensures Run(s, events).Some?
    ensures var id := r.src + ":" + r.dst;
            var new_ := {LinkAt(id, r.src), LinkAt(id, r.dst)} + if r.allow then {RuleIn(id, r.group)} else {};
            var unmarked := if t.Consumer? then s.(tombs := s.tombs - {id}) else s;
            Run(s, events).value ==
              if id in s.table || id in unmarked.tombs then unmarked
              else unmarked.(assets := s.assets + new_,
                             table := s.table[id := r.(watching := s.vmanage && t.Refresher?)])
  {
    var go := Advance(t, Done);
    var s1 := Apply(s, BeginCreate(t, r));
    var s2 := Apply(s1, go);
    if TaskOf(s2, t).Idle? {
      events := [];
    } else {
      var s3 := Apply(s2, go);
      events := [];
      if !TaskOf(s3, t).Idle? {
        events := LinkingGoesOn(s3, t);
      }
      RunFirst(s2, go, events);
      events := [go] + events;
    }
    RunFirst(s1, go, events);
    events := [go] + events;
    RunFirst(s, BeginCreate(t, r), events);
    events := [BeginCreate(t, r)] + events;
  }

  /** What a creation that has seen no record still has to add. */
  function Coming(task: Task): set<Asset>
    requires task.Create?
  {
    var r, id := task.made, Id(task.made);
    match task.phase
    case Link => {LinkAt(id, r.src), LinkAt(id, r.dst)}
    case LinkOther => {LinkAt(id, r.dst)}
    case Save => {}
    case _ => Assets(id, r)
  }

  lemma {:induction false} LinkingGoesOn(s: State, t: Thread) returns (events: seq<Event>)
    requires TaskOf(s, t).Create? && !TaskOf(s, t).phase.Ask? && !TaskOf(s, t).phase.Lookup?
    ensures Run(s, events).Some?
    ensures var task := TaskOf(s, t);
            Run(s, events).value == WithTask(s.(assets := s.assets + Coming(task),
                                                table := s.table[Id(task.made) := task.made.(watching := s.vmanage && t.Refresher?)]),
                                             t, Idle)
    decreases StepsLeft(TaskOf(s, t))
  {
    var go := Advance(t, Done);
    var s' := Apply(s, go);
    if TaskOf(s', t).Idle? {
      events := [];
    } else {
      events := LinkingGoesOn(s', t);
      assert s'.assets + Coming(TaskOf(s', t)) == s.assets + Coming(TaskOf(s, t));
    }
    RunFirst(s, go, events);
    events := [go] + events;
  }

  /** And a step that undercuts does harm: from any state, if the connection is stored and its ends differ,
      the run can go on to a saved record that is not in place and that nothing excuses. */
  lemma UndercuttingDoesHarm(s: State, e: Event) returns (events: seq<Event>)
    requires !s.vmanage && Enabled(s, e) && Undercuts(s, e)
    requires s.consumer.id in s.table && s.refresher.made.src != s.refresher.made.dst
    ensures Run(s, [e] + events).Some? && Unkept(Run(s, [e] + events).value, s.consumer.id)
  {
    var missing :| missing in Lost(s, e) * Needed(s.refresher);
    var id := s.consumer.id;
    assert missing.id == id == Id(s.refresher.made);
    var s1 := Apply(s, e);
    DeletionLoses(s, e);
    assert s1.refresher == s.refresher && missing !in s1.assets && id in s1.table && !s1.vmanage;
    var first := RemovalCompletes(s1, id);
    var s2 := Run(s1, first).value;
    var second := FinishUnkept(s2, missing);
    events := first + second;
    RunAppend(s1, first, second);
    RunFirst(s, e, events);
  }

  const START := State(false, map[], {}, {}, {}, Idle, Idle, None)

  function Times(n: nat, e: Event): seq<Event> {
    if n == 0 then [] else [e] + Times(n - 1, e)
  }

  /** A thread makes a connection in one cloud as far as it gets in n accesses. */
  function Making(t: Thread, r: Rec, n: nat): seq<Event> {
    [BeginCreate(t, r)] + Times(n, Advance(t, Done))
  }

  function Removing(id: string): seq<Event> {
    [BeginDelete(id)] + Times(5, USER)
  }

  lemma RefresherPauses(r: Rec)
    requires !r.multi && !r.watching
    ensures Run(START, Making(Refresher, r, 4)) == Some(START.(assets := Assets(Id(r), r), refresher := Create(r, Save)))
  {
    var s1 := Apply(START, BeginCreate(Refresher, r));
    var s2 := Apply(s1, GO);
    var s3 := Apply(s2, GO);
    var s4 := Apply(s3, GO);
    RunFirst(START, BeginCreate(Refresher, r), Times(4, GO));
    RunFirst(s1, GO, Times(3, GO));
    RunFirst(s2, GO, Times(2, GO));
    RunFirst(s3, GO, Times(1, GO));
    RunFirst(s4, GO, []);
    assert Apply(s4, GO).assets == Assets(Id(r), r);
  }

  lemma UserMakes(s: State, r: Rec)
    requires s.consumer.Idle? && Id(r) !in s.table && Assets(Id(r), r) <= s.assets && !r.multi && !r.watching
    ensures Run(s, Making(Consumer, r, 5)) == Some(s.(tombs := s.tombs - {Id(r)}, table := s.table[Id(r) := r]))
  {
    var s1 := Apply(s, BeginCreate(Consumer, r));
    var s2 := Apply(s1, USER);
    var s3 := Apply(s2, USER);
    var s4 := Apply(s3, USER);
    var s5 := Apply(s4, USER);
    RunFirst(s, BeginCreate(Consumer, r), Times(5, USER));
    RunFirst(s1, USER, Times(4, USER));
    RunFirst(s2, USER, Times(3, USER));
    RunFirst(s3, USER, Times(2, USER));
    RunFirst(s4, USER, Times(1, USER));
    RunFirst(s5, USER, []);
    assert s5.assets == s.assets;
  }

  lemma UserRemoves(s: State, id: string)
    requires s.consumer.Idle? && id in s.table && !s.table[id].watching && !s.table[id].multi
    ensures Run(s, Removing(id)) ==
            Some(s.(tombs := s.tombs + {id}, table := s.table - {id}, broken := s.broken - {id},
                    assets := s.assets - Assets(id, s.table[id])))
  {
    var s1 := Apply(s, BeginDelete(id));
    var s2 := Apply(s1, USER);
    var s3 := Apply(s2, USER);
    var s4 := Apply(s3, USER);
    var s5 := Apply(s4, USER);
    RunFirst(s, BeginDelete(id), Times(5, USER));
    RunFirst(s1, USER, Times(4, USER));
    RunFirst(s2, USER, Times(3, USER));
    RunFirst(s3, USER, Times(2, USER));
    RunFirst(s4, USER, Times(1, USER));
    RunFirst(s5, USER, []);
    assert s5.assets == s.assets - Assets(id, s.table[id]);
    assert s5.broken - {id} == s.broken - {id};
  }

  /** From an empty table, with no call failing: the refresher has linked, the user makes the connection and
      removes it, the refresher saves.  The record says connected, and nothing is. */
  lemma CollisionLeavesUnlinkedRecord(r: Rec)
    requires !r.multi && !r.watching
    ensures var end := Run(START, Making(Refresher, r, 4) + Making(Consumer, r, 5) + Removing(Id(r)) + [GO]);
            && end.Some? && end.value.assets == {} && end.value.broken == {} && end.value.table == map[Id(r) := r]
  {
    var id := Id(r);
    var s1 := START.(assets := Assets(id, r), refresher := Create(r, Save));
    var s2 := s1.(table := map[id := r]);
    var s3 := START.(tombs := {id}, refresher := Create(r, Save));
    RefresherPauses(r);
    UserMakes(s1, r);
    UserRemoves(s2, id);
    assert s1.(tombs := s1.tombs - {id}, table := s1.table[id := r]) == s2;
    assert s2.(tombs := s2.tombs + {id}, table := s2.table - {id}, broken := s2.broken - {id},
               assets := s2.assets - Assets(id, r)) == s3;
    RunAppend(START, Making(Refresher, r, 4), Making(Consumer, r, 5));
    RunAppend(START, Making(Refresher, r, 4) + Making(Consumer, r, 5), Removing(id));
    RunAppend(START, Making(Refresher, r, 4) + Making(Consumer, r, 5) + Removing(id), [GO]);
    RunFirst(s3, GO, []);
    assert [GO] + [] == [GO];
  }
}
