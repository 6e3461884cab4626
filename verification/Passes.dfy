/** Numbered app connections again, cut at every access to the table.  A new network domain connection gets
    its children from the goroutine that makes it, the queue's consumer or the refresher, and each pass lists
    all references before it writes any.  pkg/connection-controller/awi_connection_controller.go */
module Passes {
  import opened Records
  import opened FanOut

  datatype Thread = Consumer | Refresher

  /** A reference as a pass has listed it. */
  datatype Entry = Entry(at: string, ref: Row)

  /** A pass has its references still to visit, the one in turn first; `made` says that the child of that one
      is made and `stored` that a row was stored for it, so that its reference is to be written next.
      `overtaken` holds the references the other thread has written since this pass made its listing.  Only
      the consumer makes "all" requests and removes rows. */
  datatype Task =
    | Idle
    | Pass(todo: seq<Entry>, made: bool, stored: bool, overtaken: set<string>)
    | Making(owner: string, base: string, left: nat, counter: nat)

  /** `owners` are the requests there have been. */
  datatype State = State(rows: Rows, owners: set<string>, consumer: Task, refresher: Task)

  /** How createAppConnection can end. */
  datatype Outcome = Fails | Skips | Stores(key: string)

  datatype Event =
    | BeginPass(t: Thread, listing: seq<Entry>)
    | MakeChild(t: Thread, outcome: Outcome)
    | WriteReference(t: Thread, ok: bool)
    | BeginMaking(owner: string, base: string, connections: nat)
    | MakeOne(outcome: Outcome)
    | MakeReference(key: string, ok: bool)
    | Remove(key: string)

  function Other(t: Thread): Thread {
    if t.Consumer? then Refresher else Consumer
  }

  function TaskOf(s: State, t: Thread): Task {
    if t.Consumer? then s.consumer else s.refresher
  }

  function WithTask(s: State, t: Thread, task: Task): State {
    if t.Consumer? then s.(consumer := task) else s.(refresher := task)
  }

  /** A listing shows every reference once, as it is. */
  ghost predicate Lists(rows: Rows, listing: seq<Entry>) {
    && (forall i :: 0 <= i < |listing| ==> References(rows, listing[i].at) && listing[i].ref == rows[listing[i].at])
    && (forall i, j :: 0 <= i < j < |listing| ==> listing[i].at != listing[j].at)
    && (forall r :: References(rows, r) ==> Entry(r, rows[r]) in listing)
  }

  /** A pass with a reference in turn. */
  predicate Visiting(task: Task) {
    task.Pass? && task.todo != [] && task.todo[0].ref.Reference?
  }

  ghost predicate Enabled(s: State, e: Event) {
    match e
    case BeginPass(t, listing) => TaskOf(s, t).Idle? && Lists(s.rows, listing)
    case MakeChild(t, _) => Visiting(TaskOf(s, t)) && !TaskOf(s, t).made
    case WriteReference(t, _) => Visiting(TaskOf(s, t)) && TaskOf(s, t).made
    case BeginMaking(owner, _, _) => s.consumer.Idle? && owner !in s.owners
    case MakeOne(_) => s.consumer.Making? && s.consumer.left > 0
    case MakeReference(_, _) => s.consumer.Making? && s.consumer.left == 0
    case Remove(_) => s.consumer.Idle?
  }

  function Going(todo: seq<Entry>, made: bool, stored: bool, overtaken: set<string>): Task {
    if todo == [] then Idle else Pass(todo, made, stored, overtaken)
  }

  function Overtake(task: Task, at: string): Task {
    if task.Pass? then task.(overtaken := task.overtaken + {at}) else task
  }

  function StoreFor(rows: Rows, outcome: Outcome, child: Row): Rows {
    if outcome.Stores? then rows[outcome.key := child] else rows
  }

  ghost function Apply(s: State, e: Event): State
    requires Enabled(s, e)
  {
    match e
    case BeginPass(t, listing) => WithTask(s, t, Going(listing, false, false, {}))
    case MakeChild(t, outcome) =>
      var task := TaskOf(s, t);
      if outcome.Fails? then WithTask(s, t, Idle)
      else WithTask(s.(rows := StoreFor(s.rows, outcome, NextChild(task.todo[0].ref))), t,
                    task.(made := true, stored := outcome.Stores?))
    case WriteReference(t, ok) =>
      var task := TaskOf(s, t);
      var entry := task.todo[0];
      if !ok then WithTask(s, t, Idle)
      else
        var s' := WithTask(s.(rows := s.rows[entry.at := Raised(entry.ref)]), Other(t),
                           Overtake(TaskOf(s, Other(t)), entry.at));
        WithTask(s', t, Going(task.todo[1..], false, false, task.overtaken))
    case BeginMaking(owner, base, connections) =>
      s.(owners := s.owners + {owner}, consumer := Making(owner, base, connections, 0))
    case MakeOne(outcome) =>
      var m := s.consumer;
      s.(rows := StoreFor(s.rows, outcome, Child(m.owner, ChildName(m.base, m.counter + 1))),
         consumer := m.(left := m.left - 1, counter := m.counter + 1))
    case MakeReference(key, ok) =>
      var m := s.consumer;
      s.(rows := if ok then s.rows[key := Reference(m.owner, m.base, m.counter)] else s.rows, consumer := Idle)
    case Remove(key) => s.(rows := s.rows - {key})
  }

  ghost function Run(s: State, events: seq<Event>): Option<State>
    decreases events
  {
    if events == [] then Some(s)
    else if Enabled(s, events[0]) then Run(Apply(s, events[0]), events[1..])
    else None
  }

  // ---------------------------------------------------------------- passes that do not overlap

  /** A thread has stored a child of a request, and nobody else has written its reference since it listed it. */
  predicate Between(task: Task, owner: string) {
    && Visiting(task) && task.made && task.stored
    && task.todo[0].at !in task.overtaken && task.todo[0].ref.owner == owner
  }

  predicate Pending(s: State, owner: string) {
    Between(s.consumer, owner) || Between(s.refresher, owner)
  }

  /** How far beyond its counter a reference's children may go. */
  function Ahead(s: State, owner: string): nat {
    if Pending(s, owner) then 1 else 0
  }

  /** The numbering: the children of every reference are base-1 to base-counter, or one more while the pass
      that has stored it is about to write the reference, and no two have one name. */
  ghost predicate AllNumbered(s: State) {
    forall r :: References(s.rows, r) ==>
      Numbered(s.rows, s.rows[r].owner, s.rows[r].base, s.rows[r].counter + Ahead(s, s.rows[r].owner))
  }

  /** A step on a reference that the other thread has written since this one listed it, or of which it has
      stored a child and not written the counter: two passes overlap on it. */
  predicate Overlaps(s: State, e: Event) {
    match e
    case MakeChild(t, outcome) =>
      var task := TaskOf(s, t);
      outcome.Stores? && Visiting(task)
      && (task.todo[0].at in task.overtaken || Between(TaskOf(s, Other(t)), task.todo[0].ref.owner))
    case WriteReference(t, ok) =>
      var task := TaskOf(s, t);
      ok && Visiting(task) && task.todo[0].at in task.overtaken
    case _ => false
  }

  /** A reference write that fails when its child is stored. */
  predicate Loses(s: State, e: Event) {
    e.WriteReference? && !e.ok && TaskOf(s, e.t).Pass? && TaskOf(s, e.t).stored
  }

  /** An entry that shows its reference as it still is, or would be. */
  ghost predicate Fresh(rows: Rows, entry: Entry, ahead: nat) {
    && entry.ref.Reference?
    && Numbered(rows, entry.ref.owner, entry.ref.base, entry.ref.counter + ahead)
    && (forall q :: References(rows, q) && rows[q].owner == entry.ref.owner ==> q == entry.at && rows[q] == entry.ref)
  }

  ghost predicate EntryFresh(s: State, entry: Entry) {
    entry.ref.Reference? && Fresh(s.rows, entry, Ahead(s, entry.ref.owner))
  }

  ghost predicate RowsFresh(s: State) {
    forall r :: References(s.rows, r) ==> EntryFresh(s, Entry(r, s.rows[r]))
  }

  predicate Current(task: Task, i: nat) {
    task.Pass? && i < |task.todo| && task.todo[i].at !in task.overtaken
  }

  ghost predicate TaskFresh(s: State, task: Task) {
    forall i: nat :: Current(task, i) ==> EntryFresh(s, task.todo[i])
  }

  predicate WellFormed(s: State, task: Task) {
    match task
    case Idle => true
    case Pass(todo, made, stored, _) =>
      && todo != [] && (stored ==> made)
      && (forall i :: 0 <= i < |todo| ==> todo[i].ref.Reference? && todo[i].ref.owner in s.owners)
      && (forall i, j :: 0 <= i < j < |todo| ==> todo[i].at != todo[j].at && todo[i].ref.owner != todo[j].ref.owner)
    case Making(owner, _, _, _) => owner in s.owners
  }

  /** What both threads have listed and neither has written since they have listed alike. */
  ghost predicate Agree(a: Task, b: Task) {
    forall i: nat, j: nat :: Current(a, i) && Current(b, j) && SameOwner(a.todo[i].ref, b.todo[j].ref) ==> a.todo[i] == b.todo[j]
  }

  predicate SameOwner(a: Row, b: Row) {
    a.Reference? && b.Reference? && a.owner == b.owner
  }

  predicate Awaits(task: Task, owner: string) {
    task.Pass? && exists i :: 0 <= i < |task.todo| && task.todo[i].ref.Reference? && task.todo[i].ref.owner == owner
  }

  /** A request being made has its children numbered, and no reference anywhere yet. */
  ghost predicate MakingFresh(s: State) {
    s.consumer.Making? ==>
      && Numbered(s.rows, s.consumer.owner, s.consumer.base, s.consumer.counter)
      && (forall r :: References(s.rows, r) ==> s.rows[r].owner != s.consumer.owner)
      && !Awaits(s.refresher, s.consumer.owner)
  }

  ghost predicate Good(s: State) {
    && Owners(s.rows) <= s.owners
    && WellFormed(s, s.consumer) && WellFormed(s, s.refresher) && !s.refresher.Making?
    && RowsFresh(s) && TaskFresh(s, s.consumer) && TaskFresh(s, s.refresher)
    && Agree(s.consumer, s.refresher) && MakingFresh(s)
  }

  lemma GoodIsNumbered(s: State)
    requires Good(s)
    ensures AllNumbered(s)
  {
    forall r | References(s.rows, r)
      ensures Numbered(s.rows, s.rows[r].owner, s.rows[r].base, s.rows[r].counter + Ahead(s, s.rows[r].owner))
    {
      assert EntryFresh(s, Entry(r, s.rows[r]));
    }
  }

  // ---------------------------------------------------------------- what one write does to one entry

  lemma FreshAfterChild(rows: Rows, key: string, child: Row, entry: Entry, ahead: nat)
    requires Fresh(rows, entry, ahead) && child.Child? && child.owner != entry.ref.owner
    ensures Fresh(rows[key := child], entry, ahead)
  {
    ChildKeepsNumbers(rows, key, child, entry.ref.owner, entry.ref.base, entry.ref.counter + ahead);
    forall q | References(rows[key := child], q) ensures References(rows, q) {}
  }

  lemma FreshAfterOwnChild(rows: Rows, key: string, entry: Entry)
    requires Fresh(rows, entry, 0)
    ensures Fresh(rows[key := NextChild(entry.ref)], entry, 1)
  {
    NumberOneMore(rows, entry.ref.owner, entry.ref.base, entry.ref.counter, key);
    forall q | References(rows[key := NextChild(entry.ref)], q) ensures References(rows, q) {}
  }

  lemma FreshAfterReference(rows: Rows, at: string, ref: Row, entry: Entry, ahead: nat)
    requires Fresh(rows, entry, ahead) && ref.Reference? && ref.owner != entry.ref.owner
    ensures Fresh(rows[at := ref], entry, ahead)
  {
    ReferenceKeepsNumbers(rows, at, ref, entry.ref.owner, entry.ref.base, entry.ref.counter + ahead);
    forall q | References(rows[at := ref], q) && q != at ensures References(rows, q) {}
  }

  lemma FreshAfterOwnWrite(rows: Rows, entry: Entry, ahead: nat)
    requires Fresh(rows, entry, ahead) && ahead <= 1
    ensures Fresh(rows[entry.at := Raised(entry.ref)], Entry(entry.at, Raised(entry.ref)), 0)
  {
    var ref := entry.ref;
    NumberedSurvives(rows, rows, ref.owner, ref.base, ref.counter + ahead, ref.counter + 1);
    ReferenceKeepsNumbers(rows, entry.at, Raised(ref), ref.owner, ref.base, ref.counter + 1);
    forall q | References(rows[entry.at := Raised(ref)], q) && q != entry.at ensures References(rows, q) {}
  }

  lemma FreshAfterRemoval(rows: Rows, key: string, entry: Entry, ahead: nat)
    requires Fresh(rows, entry, ahead)
    ensures Fresh(rows - {key}, entry, ahead)
  {
    NumberedSurvives(rows, rows - {key}, entry.ref.owner, entry.ref.base, entry.ref.counter + ahead,
                     entry.ref.counter + ahead);
    forall q | References(rows - {key}, q) ensures References(rows, q) {}
  }

  // ---------------------------------------------------------------- the steps

  lemma BeginPassKeepsGood(s: State, t: Thread, listing: seq<Entry>)
    requires Good(s) && Enabled(s, BeginPass(t, listing))
    ensures Good(Apply(s, BeginPass(t, listing)))
  {
    var s' := Apply(s, BeginPass(t, listing));
    forall owner ensures Pending(s', owner) == Pending(s, owner) {}
    forall e: Entry | EntryFresh(s, e) ensures EntryFresh(s', e) {}
    forall i | 0 <= i < |listing| ensures EntryFresh(s, listing[i]) && listing[i].ref.owner in Owners(s.rows) {
      assert References(s.rows, listing[i].at) && listing[i] == Entry(listing[i].at, s.rows[listing[i].at]);
    }
    forall i, j | 0 <= i < j < |listing| ensures listing[i].ref.owner != listing[j].ref.owner {
      assert EntryFresh(s, listing[i]) && References(s.rows, listing[j].at);
    }
  }

  lemma StoreKeepsGood(s: State, t: Thread, key: string)
    requires Good(s) && Enabled(s, MakeChild(t, Stores(key))) && !Overlaps(s, MakeChild(t, Stores(key)))
    ensures Good(Apply(s, MakeChild(t, Stores(key))))
  {
    var s' := Apply(s, MakeChild(t, Stores(key)));
    var entry := TaskOf(s, t).todo[0];
    var owner := entry.ref.owner;
    assert Current(TaskOf(s, t), 0);
    assert !Pending(s, owner) && Between(TaskOf(s', t), owner);
    assert EntryFresh(s, entry) && Fresh(s.rows, entry, 0);
    forall o | o != owner ensures Pending(s', o) == Pending(s, o) {}
    forall e: Entry | EntryFresh(s, e) && (e.ref.owner == owner ==> e == entry) ensures EntryFresh(s', e) {
      if e.ref.owner == owner {
        FreshAfterOwnChild(s.rows, key, entry);
      } else {
        FreshAfterChild(s.rows, key, NextChild(entry.ref), e, Ahead(s, e.ref.owner));
      }
    }
    forall r | References(s'.rows, r) ensures EntryFresh(s', Entry(r, s'.rows[r])) {
      assert References(s.rows, r) && s.rows[r] == s'.rows[r];
      assert EntryFresh(s, Entry(r, s.rows[r]));
    }
    if s.consumer.Making? {
      ChildKeepsNumbers(s.rows, key, NextChild(entry.ref), s.consumer.owner, s.consumer.base, s.consumer.counter);
    }
  }

  /** A child that is not stored, and a pass that ends early without leaving a child behind. */
  lemma RestingKeepsGood(s: State, e: Event)
    requires Good(s) && Enabled(s, e) && !Loses(s, e)
    requires (e.MakeChild? && !e.outcome.Stores?) || (e.WriteReference? && !e.ok)
    ensures Good(Apply(s, e))
  {
    var s' := Apply(s, e);
    forall owner ensures Pending(s', owner) == Pending(s, owner) {}
    forall x: Entry | EntryFresh(s, x) ensures EntryFresh(s', x) {}
    forall r | References(s'.rows, r) ensures EntryFresh(s', Entry(r, s'.rows[r])) {
      assert EntryFresh(s, Entry(r, s.rows[r]));
    }
  }

  /** An entry that a row or a listing shows. */
  ghost predicate Shown(s: State, e: Entry) {
    || (References(s.rows, e.at) && s.rows[e.at] == e.ref)
    || Held(s.consumer, e) || Held(s.refresher, e)
  }

  ghost predicate Held(task: Task, e: Entry) {
    exists i: nat :: Current(task, i) && task.todo[i] == e
  }

  lemma ShownIsFresh(s: State, e: Entry)
    requires Good(s) && Shown(s, e)
    ensures EntryFresh(s, e)
  {
    if References(s.rows, e.at) && s.rows[e.at] == e.ref {
      assert EntryFresh(s, Entry(e.at, s.rows[e.at]));
    }
  }

  /** Writing a reference leaves nobody between a child and its counter for that request, and for every other
      request that is shown elsewhere whoever was. */
  lemma WritePending(s: State, t: Thread, e: Entry)
    requires Good(s) && Enabled(s, WriteReference(t, true)) && !Overlaps(s, WriteReference(t, true))
    ensures !Pending(Apply(s, WriteReference(t, true)), TaskOf(s, t).todo[0].ref.owner)
    ensures Shown(s, e) && e.ref.owner != TaskOf(s, t).todo[0].ref.owner && e.at != TaskOf(s, t).todo[0].at ==>
              Pending(Apply(s, WriteReference(t, true)), e.ref.owner) == Pending(s, e.ref.owner)
  {
    var s' := Apply(s, WriteReference(t, true));
    var task, other := TaskOf(s, t), TaskOf(s, Other(t));
    var entry := task.todo[0];
    assert Current(task, 0);
    if Between(TaskOf(s', Other(t)), entry.ref.owner) {
      assert Current(other, 0) && SameOwner(other.todo[0].ref, entry.ref);
      assert false;
    }
    if Shown(s, e) && e.ref.owner != entry.ref.owner && e.at != entry.at && Between(other, e.ref.owner) {
      ShownIsFresh(s, e);
      var head := other.todo[0];
      assert Current(other, 0) && EntryFresh(s, head);
      assert head.at != entry.at;
    }
  }

  lemma WriteKeepsShown(s: State, t: Thread, e: Entry)
    requires Good(s) && Enabled(s, WriteReference(t, true)) && !Overlaps(s, WriteReference(t, true))
    requires Shown(s, e) && e.ref.owner != TaskOf(s, t).todo[0].ref.owner && e.at != TaskOf(s, t).todo[0].at
    ensures EntryFresh(Apply(s, WriteReference(t, true)), e)
  {
    var entry := TaskOf(s, t).todo[0];
    ShownIsFresh(s, e);
    WritePending(s, t, e);
    FreshAfterReference(s.rows, entry.at, Raised(entry.ref), e, Ahead(s, e.ref.owner));
  }

  lemma WriteKeepsRows(s: State, t: Thread)
    requires Good(s) && Enabled(s, WriteReference(t, true)) && !Overlaps(s, WriteReference(t, true))
    ensures RowsFresh(Apply(s, WriteReference(t, true)))
  {
    var s' := Apply(s, WriteReference(t, true));
    var entry := TaskOf(s, t).todo[0];
    var owner := entry.ref.owner;
    assert Current(TaskOf(s, t), 0) && EntryFresh(s, entry);
    WritePending(s, t, entry);
    FreshAfterOwnWrite(s.rows, entry, Ahead(s, owner));
    forall r | References(s'.rows, r) ensures EntryFresh(s', Entry(r, s'.rows[r])) {
      if r != entry.at {
        assert References(s.rows, r) && s.rows[r] == s'.rows[r] && Shown(s, Entry(r, s.rows[r]));
        WriteKeepsShown(s, t, Entry(r, s.rows[r]));
      }
    }
  }

  lemma WriteKeepsTask(s: State, t: Thread, u: Thread)
    requires Good(s) && Enabled(s, WriteReference(t, true)) && !Overlaps(s, WriteReference(t, true))
    ensures TaskFresh(Apply(s, WriteReference(t, true)), TaskOf(Apply(s, WriteReference(t, true)), u))
  {
    var s' := Apply(s, WriteReference(t, true));
    var task, other := TaskOf(s, t), TaskOf(s, Other(t));
    var entry := task.todo[0];
    var task' := TaskOf(s', u);
    assert Current(task, 0);
    forall i: nat | Current(task', i) ensures EntryFresh(s', task'.todo[i]) {
      var e := task'.todo[i];
      if u == t {
        assert Current(task, i + 1) && task.todo[i + 1] == e;
        assert Held(task, e);
      } else {
        assert Current(other, i) && other.todo[i] == e;
        assert Held(other, e);
        assert SameOwner(e.ref, entry.ref) ==> e == entry;
      }
      WriteKeepsShown(s, t, e);
    }
  }

  lemma WriteKeepsGood(s: State, t: Thread)
    requires Good(s) && Enabled(s, WriteReference(t, true)) && !Overlaps(s, WriteReference(t, true))
    ensures Good(Apply(s, WriteReference(t, true)))
  {
    var s' := Apply(s, WriteReference(t, true));
    var task, other := TaskOf(s, t), TaskOf(s, Other(t));
    var entry := task.todo[0];
    WriteKeepsRows(s, t);
    WriteKeepsTask(s, t, Consumer);
    WriteKeepsTask(s, t, Refresher);
    forall i: nat | Current(TaskOf(s', t), i) ensures Current(task, i + 1) && TaskOf(s', t).todo[i] == task.todo[i + 1] {}
    forall i: nat | Current(TaskOf(s', Other(t)), i) ensures Current(other, i) && TaskOf(s', Other(t)).todo[i] == other.todo[i] {}
    if s.consumer.Making? {
      ReferenceKeepsNumbers(s.rows, entry.at, Raised(entry.ref), s.consumer.owner, s.consumer.base, s.consumer.counter);
    }
  }

  lemma MakingKeepsGood(s: State, e: Event)
    requires Good(s) && Enabled(s, e) && (e.BeginMaking? || e.MakeOne?)
    ensures Good(Apply(s, e))
  {
    var s' := Apply(s, e);
    forall owner ensures Pending(s', owner) == Pending(s, owner) {}
    if e.BeginMaking? {
      forall k | k in s.rows && !s.rows[k].Plain? ensures s.rows[k].owner in Owners(s.rows) {}
      forall r | References(s.rows, r) ensures s.rows[r].owner != e.owner {
        assert s.rows[r].owner in Owners(s.rows);
      }
      forall x: Entry | EntryFresh(s, x) ensures EntryFresh(s', x) {}
    } else {
      var m := s.consumer;
      var child := Child(m.owner, ChildName(m.base, m.counter + 1));
      NumberedSurvives(s.rows, s.rows, m.owner, m.base, m.counter, m.counter + 1);
      if e.outcome.Stores? {
        NumberOneMore(s.rows, m.owner, m.base, m.counter, e.outcome.key);
        forall x: Entry | EntryFresh(s, x) && x.ref.owner != m.owner ensures EntryFresh(s', x) {
          FreshAfterChild(s.rows, e.outcome.key, child, x, Ahead(s, x.ref.owner));
        }
      } else {
        forall x: Entry | EntryFresh(s, x) ensures EntryFresh(s', x) {}
      }
    }
    forall r | References(s'.rows, r) ensures EntryFresh(s', Entry(r, s'.rows[r])) {
      assert References(s.rows, r) && s.rows[r] == s'.rows[r] && EntryFresh(s, Entry(r, s.rows[r]));
    }
  }

  lemma MakeReferenceKeepsGood(s: State, key: string, ok: bool)
    requires Good(s) && Enabled(s, MakeReference(key, ok))
    ensures Good(Apply(s, MakeReference(key, ok)))
  {
    var s' := Apply(s, MakeReference(key, ok));
    var m := s.consumer;
    var ref := Reference(m.owner, m.base, m.counter);
    forall owner ensures Pending(s', owner) == Pending(s, owner) {}
    forall x: Entry | EntryFresh(s, x) && x.ref.owner != m.owner ensures EntryFresh(s', x) {
      if ok {
        FreshAfterReference(s.rows, key, ref, x, Ahead(s, x.ref.owner));
      }
    }
    if ok {
      ReferenceKeepsNumbers(s.rows, key, ref, m.owner, m.base, m.counter);
      assert !Pending(s, m.owner);
    }
    forall r | References(s'.rows, r) ensures EntryFresh(s', Entry(r, s'.rows[r])) {
      if !ok || r != key {
        assert References(s.rows, r) && s.rows[r] == s'.rows[r] && EntryFresh(s, Entry(r, s.rows[r]));
      }
    }
  }

  lemma RemovalKeepsGood(s: State, key: string)
    requires Good(s) && Enabled(s, Remove(key))
    ensures Good(Apply(s, Remove(key)))
  {
    var s' := Apply(s, Remove(key));
    forall owner ensures Pending(s', owner) == Pending(s, owner) {}
    forall x: Entry | EntryFresh(s, x) ensures EntryFresh(s', x) {
      FreshAfterRemoval(s.rows, key, x, Ahead(s, x.ref.owner));
    }
    forall r | References(s'.rows, r) ensures EntryFresh(s', Entry(r, s'.rows[r])) {
      assert References(s.rows, r) && s.rows[r] == s'.rows[r] && EntryFresh(s, Entry(r, s.rows[r]));
    }
  }

  lemma StepKeepsGood(s: State, e: Event)
    requires Good(s) && Enabled(s, e) && !Overlaps(s, e) && !Loses(s, e)
    ensures Good(Apply(s, e))
  {
    match e
    case BeginPass(t, listing) => BeginPassKeepsGood(s, t, listing);
    case MakeChild(t, outcome) =>
      if outcome.Stores? {
        StoreKeepsGood(s, t, outcome.key);
      } else {
        RestingKeepsGood(s, e);
      }
    case WriteReference(t, ok) =>
      if ok {
        WriteKeepsGood(s, t);
      } else {
        RestingKeepsGood(s, e);
      }
    case MakeReference(key, ok) => MakeReferenceKeepsGood(s, key, ok);
    case Remove(key) => RemovalKeepsGood(s, key);
    case _ => MakingKeepsGood(s, e);
  }

  ghost predicate NumberedThroughout(s: State, events: seq<Event>)
    decreases events
  {
    AllNumbered(s) && (events != [] && Enabled(s, events[0]) ==> NumberedThroughout(Apply(s, events[0]), events[1..]))
  }

  ghost predicate Undisturbed(s: State, events: seq<Event>)
    decreases events
  {
    events != [] && Enabled(s, events[0]) ==>
      !Overlaps(s, events[0]) && !Loses(s, events[0]) && Undisturbed(Apply(s, events[0]), events[1..])
  }

  /** With two threads at work, whatever fails, whatever the random keys hit and whatever is removed, the
      numbering holds at every state of a run in which no passes overlap on a reference and no reference write
      is lost. */
  lemma {:induction false} UndisturbedStaysNumbered(s: State, events: seq<Event>)
    requires Good(s) && Run(s, events).Some? && Undisturbed(s, events)
    ensures NumberedThroughout(s, events)
    decreases events
  {
    GoodIsNumbered(s);
    if events != [] {
      StepKeepsGood(s, events[0]);
      UndisturbedStaysNumbered(Apply(s, events[0]), events[1..]);
    }
  }

  /** Any table that is numbered, at rest, is a place to start from. */
  lemma RestIsGood(rows: Rows)
    requires Inv(rows)
    ensures Good(State(rows, Owners(rows), Idle, Idle))
  {
    var s := State(rows, Owners(rows), Idle, Idle);
    forall r | References(rows, r) ensures EntryFresh(s, Entry(r, rows[r])) {
      assert rows[r].owner in Owners(rows);
    }
  }

  // ---------------------------------------------------------------- passes that do

  /** Two children of a request have one name. */
  ghost predicate Repeats(rows: Rows, owner: string) {
    exists k, k' :: k != k' && ChildOf(rows, k, owner) && ChildOf(rows, k', owner) && rows[k].name == rows[k'].name
  }

  lemma RepeatsIsNotNumbered(rows: Rows, owner: string)
    ensures Repeats(rows, owner) ==> forall base, counter :: !Numbered(rows, owner, base, counter)
  {
  }

  /** The number a child gets is the one its pass has read, so two children of a request share a name exactly
      when their passes have read the same counter: because the write in between was lost, or because one
      listed the reference before the other wrote it. */
  lemma SameNameIffSameReading(a: Row, b: Row)
    requires SameOwner(a, b) && a.base == b.base
    ensures NextChild(a).name == NextChild(b).name <==> a.counter == b.counter
  {
    if NextChild(a).name == NextChild(b).name {
      ChildNameInjective(a.base, a.counter + 1, b.counter + 1);
    }
  }

  /** In any state, a pass that stores its child repeats a name exactly when a child of that reading is stored
      under another key already, or a name was repeated before among the rows it leaves. */
  lemma StoreRepeatsIff(s: State, t: Thread, key: string)
    requires Enabled(s, MakeChild(t, Stores(key)))
    ensures var child := NextChild(TaskOf(s, t).todo[0].ref);
            Repeats(Apply(s, MakeChild(t, Stores(key))).rows, child.owner)
            <==> Repeats(s.rows - {key}, child.owner) || (exists k :: k != key && k in s.rows && s.rows[k] == child)
  {
    var child := NextChild(TaskOf(s, t).todo[0].ref);
    var rows, rows' := s.rows - {key}, s.rows[key := child];
    forall k | k != key ensures ChildOf(rows, k, child.owner) <==> ChildOf(rows', k, child.owner) {}
    assert ChildOf(rows', key, child.owner);
    if Repeats(rows', child.owner) {
      var k, k' :| k != k' && ChildOf(rows', k, child.owner) && ChildOf(rows', k', child.owner) && rows'[k].name == rows'[k'].name;
      if k == key {
        assert s.rows[k'] == child;
      } else if k' == key {
        assert s.rows[k] == child;
      } else {
        assert ChildOf(rows, k, child.owner) && ChildOf(rows, k', child.owner) && rows[k].name == rows[k'].name;
      }
    }
    if k :| k != key && k in s.rows && s.rows[k] == child {
      assert ChildOf(rows', k, child.owner) && rows'[k].name == rows'[key].name;
    }
    if Repeats(rows, child.owner) {
      var k, k' :| k != k' && ChildOf(rows, k, child.owner) && ChildOf(rows, k', child.owner) && rows[k].name == rows[k'].name;
      assert ChildOf(rows', k, child.owner) && ChildOf(rows', k', child.owner) && rows'[k].name == rows'[k'].name;
    }
  }

  lemma RunFirst(s: State, e: Event, rest: seq<Event>)
    requires Enabled(s, e)
    ensures Run(s, [e] + rest) == Run(Apply(s, e), rest)
  {
    assert ([e] + rest)[1..] == rest;
  }

  /** So an overlap does harm with no call failing: from any table at rest with a reference, both threads list
      it, both store their child, both write it.  Every write has gone through, the reference counts one, and
      two children have its name. */
  lemma OverlapRepeatsName(rows: Rows, listing: seq<Entry>, k1: string, k2: string)
    requires Lists(rows, listing) && listing != [] && k1 != k2 && k1 != listing[0].at && k2 != listing[0].at
    ensures var entry := listing[0];
            var end := Run(State(rows, Owners(rows), Idle, Idle),
                           [BeginPass(Consumer, listing), BeginPass(Refresher, listing),
                            MakeChild(Consumer, Stores(k1)), MakeChild(Refresher, Stores(k2)),
                            WriteReference(Consumer, true), WriteReference(Refresher, true)]);
      && end.Some? && entry.at in end.value.rows && end.value.rows[entry.at] == Raised(rows[entry.at])
      && Repeats(end.value.rows, rows[entry.at].owner) && !AllNumbered(end.value)
  {
    var e1, e2 := BeginPass(Consumer, listing), BeginPass(Refresher, listing);
    var e3, e4 := MakeChild(Consumer, Stores(k1)), MakeChild(Refresher, Stores(k2));
    var e5, e6 := WriteReference(Consumer, true), WriteReference(Refresher, true);
    var entry := listing[0];
    var s0 := State(rows, Owners(rows), Idle, Idle);
    var s1 := Apply(s0, e1);
    var s2 := Apply(s1, e2);
    var s3 := Apply(s2, e3);
    var s4 := Apply(s3, e4);
    var s5 := Apply(s4, e5);
    var s6 := Apply(s5, e6);
    RunSix(s0, e1, s1, e2, s2, e3, s3, e4, s4, e5, s5, e6);
    assert s6.rows == rows[k1 := NextChild(entry.ref)][k2 := NextChild(entry.ref)][entry.at := Raised(entry.ref)];
    var owner := entry.ref.owner;
    assert ChildOf(s6.rows, k1, owner) && ChildOf(s6.rows, k2, owner) && s6.rows[k1].name == s6.rows[k2].name;
    assert References(s6.rows, entry.at);
    RepeatsIsNotNumbered(s6.rows, owner);
  }

  lemma RunSix(s0: State, e1: Event, s1: State, e2: Event, s2: State, e3: Event, s3: State, e4: Event, s4: State,
               e5: Event, s5: State, e6: Event)
    requires Enabled(s0, e1) && s1 == Apply(s0, e1) && Enabled(s1, e2) && s2 == Apply(s1, e2)
    requires Enabled(s2, e3) && s3 == Apply(s2, e3) && Enabled(s3, e4) && s4 == Apply(s3, e4)
    requires Enabled(s4, e5) && s5 == Apply(s4, e5) && Enabled(s5, e6)
    ensures Run(s0, [e1, e2, e3, e4, e5, e6]) == Some(Apply(s5, e6))
  {
    RunFirst(s0, e1, [e2, e3, e4, e5, e6]);
    RunFirst(s1, e2, [e3, e4, e5, e6]);
    RunFirst(s2, e3, [e4, e5, e6]);
    RunFirst(s3, e4, [e5, e6]);
    RunFirst(s4, e5, [e6]);
    RunFirst(s5, e6, []);
    assert [e1, e2, e3, e4, e5, e6] == [e1] + [e2, e3, e4, e5, e6] && [e2, e3, e4, e5, e6] == [e2] + [e3, e4, e5, e6];
    assert [e3, e4, e5, e6] == [e3] + [e4, e5, e6] && [e4, e5, e6] == [e4] + [e5, e6];
    assert [e5, e6] == [e5] + [e6] && [e6] == [e6] + [];
  }
}
