/** App connections made "for all network domain connections": a reference record with a counter, and one
    numbered child for each connection.  pkg/connection-controller/awi_connection_controller.go */
module FanOut {
  import opened Records

  function Digit(d: nat): char
    requires d < 10
  {
    ('0' as int + d) as char
  }

  /** strconv.Itoa for the counter's values. */
  function Itoa(n: nat): (s: string)
    ensures |s| >= 1 && (|s| == 1 <==> n < 10)
  {
    if n < 10 then [Digit(n)] else Itoa(n / 10) + [Digit(n % 10)]
  }

  lemma {:induction false} ItoaInjective(m: nat, n: nat)
    requires Itoa(m) == Itoa(n)
    ensures m == n
  {
    assert Itoa(m)[|Itoa(m)| - 1] == Digit(m % 10) && Itoa(n)[|Itoa(n)| - 1] == Digit(n % 10);
    if m >= 10 {
      assert Itoa(m / 10) == Itoa(m)[..|Itoa(m)| - 1] == Itoa(n)[..|Itoa(n)| - 1] == Itoa(n / 10);
      ItoaInjective(m / 10, n / 10);
    }
  }

  /** The number a string of decimal digits stands for. */
  function ValueOf(s: string): int {
    if s == "" then 0 else 10 * ValueOf(s[..|s| - 1]) + (s[|s| - 1] as int - '0' as int)
  }

  /** A counter is printed as its decimal digits, without a leading zero. */
  lemma {:induction false} ItoaIsDecimal(n: nat)
    ensures ValueOf(Itoa(n)) == n
    ensures forall c :: c in Itoa(n) ==> '0' <= c <= '9'
    ensures Itoa(n)[0] == '0' <==> n == 0
  {
    if n >= 10 {
      ItoaIsDecimal(n / 10);
      assert Itoa(n)[..|Itoa(n)| - 1] == Itoa(n / 10);
    }
  }

  function ChildName(base: string, suffix: nat): string {
    base + "-" + Itoa(suffix)
  }

  /** Two children of one base share a name only if they share a number. */
  lemma ChildNameInjective(base: string, m: nat, n: nat)
    requires ChildName(base, m) == ChildName(base, n)
    ensures m == n
  {
    assert ChildName(base, m)[|base| + 1..] == Itoa(m) && ChildName(base, n)[|base| + 1..] == Itoa(n);
    ItoaInjective(m, n);
  }

  /** A stored app connection: a numbered child, a reference, or anything else.  `owner` is the user's
      "all" request a row goes back to; the program does not keep it. */
  datatype Row =
    | Child(owner: string, name: string)
    | Reference(owner: string, base: string, counter: nat)
    | Plain

  type Rows = map<string, Row>

  predicate ChildOf(rows: Rows, k: string, owner: string) {
    k in rows && rows[k].Child? && rows[k].owner == owner
  }

  predicate References(rows: Rows, k: string) {
    k in rows && rows[k].Reference?
  }

  ghost predicate NumberedFrom(name: string, base: string, counter: nat) {
    exists i :: 1 <= i <= counter && name == ChildName(base, i)
  }

  /** The children of one request: base-i with i between 1 and the counter, no two the same. */
  ghost predicate Numbered(rows: Rows, owner: string, base: string, counter: nat) {
    && (forall k :: ChildOf(rows, k, owner) ==> NumberedFrom(rows[k].name, base, counter))
    && (forall k, k' :: ChildOf(rows, k, owner) && ChildOf(rows, k', owner) && rows[k].name == rows[k'].name ==> k == k')
  }

  ghost predicate Inv(rows: Rows) {
    && (forall r :: References(rows, r) ==> Numbered(rows, rows[r].owner, rows[r].base, rows[r].counter))
    && (forall r, r' :: References(rows, r) && References(rows, r') && rows[r].owner == rows[r'].owner ==> r == r')
  }

  /** A base, a dash, and a number from 1 to the counter in decimal. */
  ghost predicate Printed(name: string, base: string, counter: nat) {
    exists i: nat :: 1 <= i <= counter && name == base + "-" + Itoa(i)
  }

  lemma InvNames(rows: Rows)
    requires Inv(rows)
    ensures forall r, k :: r in rows && rows[r].Reference? && k in rows && rows[k].Child? && rows[k].owner == rows[r].owner ==>
              Printed(rows[k].name, rows[r].base, rows[r].counter)
  {
    forall r, k | r in rows && rows[r].Reference? && k in rows && rows[k].Child? && rows[k].owner == rows[r].owner
      ensures Printed(rows[k].name, rows[r].base, rows[r].counter)
    {
      assert References(rows, r) && ChildOf(rows, k, rows[r].owner);
      var i :| 1 <= i <= rows[r].counter && rows[k].name == ChildName(rows[r].base, i);
      assert rows[k].name == rows[r].base + "-" + Itoa(i);
    }
  }

  lemma NumberOneMore(rows: Rows, owner: string, base: string, counter: nat, key: string)
    requires Numbered(rows, owner, base, counter)
    ensures Numbered(rows[key := Child(owner, ChildName(base, counter + 1))], owner, base, counter + 1)
  {
    var name := ChildName(base, counter + 1);
    var rows' := rows[key := Child(owner, name)];
    forall k | ChildOf(rows, k, owner) ensures rows[k].name != name && NumberedFrom(rows[k].name, base, counter + 1) {
      var i :| 1 <= i <= counter && rows[k].name == ChildName(base, i);
      if rows[k].name == name {
        ChildNameInjective(base, i, counter + 1);
      }
    }
    forall k | ChildOf(rows', k, owner) ensures NumberedFrom(rows'[k].name, base, counter + 1) {
      if k != key {
        assert ChildOf(rows, k, owner);
      }
    }
    forall k, k' | ChildOf(rows', k, owner) && ChildOf(rows', k', owner) && rows'[k].name == rows'[k'].name
      ensures k == k'
    {
      assert k != key ==> ChildOf(rows, k, owner);
      assert k' != key ==> ChildOf(rows, k', owner);
    }
  }

  /** Rows of other requests, and a larger counter, disturb nothing. */
  lemma NumberedSurvives(rows: Rows, rows': Rows, owner: string, base: string, counter: nat, counter': nat)
    requires Numbered(rows, owner, base, counter) && counter <= counter'
    requires forall k :: ChildOf(rows', k, owner) ==> ChildOf(rows, k, owner) && rows[k] == rows'[k]
    ensures Numbered(rows', owner, base, counter')
  {
    forall k | ChildOf(rows', k, owner) ensures NumberedFrom(rows'[k].name, base, counter') {
      assert ChildOf(rows, k, owner);
    }
  }

  /** A child of one request, at whatever key, takes nothing from the numbering of another. */
  lemma ChildKeepsNumbers(rows: Rows, key: string, child: Row, owner: string, base: string, counter: nat)
    requires Numbered(rows, owner, base, counter) && child.Child? && child.owner != owner
    ensures Numbered(rows[key := child], owner, base, counter)
  {
    NumberedSurvives(rows, rows[key := child], owner, base, counter, counter);
  }

  /** Nor does writing a reference. */
  lemma ReferenceKeepsNumbers(rows: Rows, r: string, ref: Row, owner: string, base: string, counter: nat)
    requires Numbered(rows, owner, base, counter) && ref.Reference?
    ensures Numbered(rows[r := ref], owner, base, counter)
  {
    NumberedSurvives(rows, rows[r := ref], owner, base, counter, counter);
  }

  /** A reference that belongs at r, whether it is stored there or not: its owner's children are numbered by
      it, and the owner has no reference anywhere else. */
  ghost predicate Tracks(rows: Rows, r: string, ref: Row) {
    && ref.Reference? && Numbered(rows, ref.owner, ref.base, ref.counter)
    && forall q :: References(rows, q) && rows[q].owner == ref.owner ==> q == r
  }

  lemma InvTracks(rows: Rows, r: string)
    requires Inv(rows) && References(rows, r)
    ensures Tracks(rows, r, rows[r])
  {
  }

  /** Storing a reference where it belongs. */
  lemma PutReference(rows: Rows, r: string, ref: Row)
    requires Inv(rows) && Tracks(rows, r, ref)
    ensures Inv(rows[r := ref])
  {
    var rows' := rows[r := ref];
    forall q | References(rows', q) ensures Numbered(rows', rows'[q].owner, rows'[q].base, rows'[q].counter) {
      assert q != r ==> References(rows, q);
      ReferenceKeepsNumbers(rows, r, ref, rows'[q].owner, rows'[q].base, rows'[q].counter);
    }
    forall q, q' | References(rows', q) && References(rows', q') && rows'[q].owner == rows'[q'].owner ensures q == q' {
      assert q != r ==> References(rows, q);
      assert q' != r ==> References(rows, q');
    }
  }

  /** One later connection, as one reference sees it: what became of the child, and whether the reference
      was written after it. */
  datatype Event = Failed | Skipped(reference: bool) | Stored(reference: bool)

  predicate Counts(e: Event) {
    !e.Failed? && e.reference
  }

  function Raised(ref: Row): Row
    requires ref.Reference?
  {
    ref.(counter := ref.counter + 1)
  }

  function NextChild(ref: Row): Row
    requires ref.Reference?
  {
    Child(ref.owner, ChildName(ref.base, ref.counter + 1))
  }

  /** What an event leaves, for a reference that belongs at r and a child stored under a key. */
  function AfterEvent(rows: Rows, r: string, ref: Row, key: string, e: Event): Rows
    requires ref.Reference?
  {
    match e
    case Failed => rows
    case Skipped(written) => if written then rows[r := Raised(ref)] else rows
    case Stored(written) =>
      if written then rows[key := NextChild(ref)][r := Raised(ref)] else rows[key := NextChild(ref)]
  }

  /** Adding child and counter together, as one pass over a reference does. */
  lemma PassKeepsInv(rows: Rows, r: string, ref: Row, key: string)
    requires Inv(rows) && Tracks(rows, r, ref)
    ensures Inv(rows[key := NextChild(ref)][r := Raised(ref)])
  {
    var rows1 := rows[key := NextChild(ref)];
    var rows2 := rows1[r := Raised(ref)];
    NumberOneMore(rows, ref.owner, ref.base, ref.counter, key);
    forall q | References(rows2, q) ensures Numbered(rows2, rows2[q].owner, rows2[q].base, rows2[q].counter) {
      if q != r {
        assert References(rows, q) && rows[q] == rows2[q] && rows[q].owner != ref.owner;
        ChildKeepsNumbers(rows, key, NextChild(ref), rows[q].owner, rows[q].base, rows[q].counter);
      }
      ReferenceKeepsNumbers(rows1, r, Raised(ref), rows2[q].owner, rows2[q].base, rows2[q].counter);
    }
    forall q, q' | References(rows2, q) && References(rows2, q') && rows2[q].owner == rows2[q'].owner ensures q == q' {
      assert q != r ==> References(rows, q) && rows[q] == rows2[q];
      assert q' != r ==> References(rows, q') && rows[q'] == rows2[q'];
    }
  }

  /** A number may go unused. */
  lemma CountedKeepsInv(rows: Rows, r: string, ref: Row)
    requires Inv(rows) && Tracks(rows, r, ref)
    ensures Inv(rows[r := Raised(ref)])
  {
    NumberedSurvives(rows, rows, ref.owner, ref.base, ref.counter, ref.counter + 1);
    PutReference(rows, r, Raised(ref));
  }

  lemma EventKeepsInv(rows: Rows, r: string, ref: Row, key: string, e: Event)
    requires Inv(rows) && Tracks(rows, r, ref) && e != Stored(false)
    ensures Inv(AfterEvent(rows, r, ref, key, e))
  {
    if e == Stored(true) {
      PassKeepsInv(rows, r, ref, key);
    } else if e == Skipped(true) {
      CountedKeepsInv(rows, r, ref);
    }
  }

  /** What happens to one reference does not concern another. */
  lemma EventKeepsTracks(rows: Rows, r: string, ref: Row, key: string, e: Event, q: string, other: Row)
    requires ref.Reference? && Tracks(rows, q, other) && other.owner != ref.owner
    ensures Tracks(AfterEvent(rows, r, ref, key, e), q, other)
  {
    var rows' := AfterEvent(rows, r, ref, key, e);
    ChildKeepsNumbers(rows, key, NextChild(ref), other.owner, other.base, other.counter);
    ReferenceKeepsNumbers(rows, r, Raised(ref), other.owner, other.base, other.counter);
    ReferenceKeepsNumbers(rows[key := NextChild(ref)], r, Raised(ref), other.owner, other.base, other.counter);
    forall p | References(rows', p) && rows'[p].owner == other.owner ensures p == q {
      assert References(rows, p) && rows[p] == rows'[p];
    }
  }

  /** The requests the rows go back to. */
  function Owners(rows: Rows): set<string> {
    set k | k in rows && !rows[k].Plain? :: rows[k].owner
  }

  /** No key drawn after its turn hits the i-th reference. */
  predicate Unhit(references: seq<string>, drawn: seq<string>, i: nat)
    requires i < |references|
  {
    forall k :: i < k < |drawn| ==> drawn[k] != references[i]
  }

  /** Every reference a pass has visited is one further, unless it was hit. */
  ghost predicate AllRaised(before: Rows, now: Rows, references: seq<string>, drawn: seq<string>) {
    forall i :: 0 <= i < |references| && Unhit(references, drawn, i) ==>
      && References(before, references[i]) && references[i] in now
      && now[references[i]] == Raised(before[references[i]])
  }

  lemma RaisedOneMore(start: Rows, before: Rows, now: Rows, references: seq<string>, i: nat, drawn: seq<string>,
                      key: string, e: Event)
    requires i < |references| && |drawn| == i && AllRaised(start, before, references[..i], drawn)
    requires References(start, references[i]) && Counts(e)
    requires now == AfterEvent(before, references[i], start[references[i]], key, e)
    requires forall j :: 0 <= j < i ==> references[j] != references[i]
    ensures AllRaised(start, now, references[..i + 1], drawn + [key])
  {
    forall j | 0 <= j < i && Unhit(references[..i + 1], drawn + [key], j)
      ensures References(start, references[j]) && references[j] in now && now[references[j]] == Raised(start[references[j]])
    {
      assert (drawn + [key])[i] == key != references[j];
      forall k | j < k < |drawn| ensures drawn[k] != references[j] {
        assert (drawn + [key])[k] == drawn[k];
      }
      assert Unhit(references[..i], drawn, j) && references[..i][j] == references[j];
    }
  }

  /** A pass over the references that `start` held, the first i of them visited. */
  ghost predicate InPass(start: Rows, now: Rows, references: seq<string>, i: nat, drawn: seq<string>) {
    && i == |drawn| <= |references| && Inv(start)
    && (forall j, k :: 0 <= j < k < |references| ==> references[j] != references[k])
    && (forall j :: 0 <= j < |references| ==> References(start, references[j]))
    && (forall j :: i <= j < |references| ==> Tracks(now, references[j], start[references[j]]))
    && Owners(now) <= Owners(start)
    && AllRaised(start, now, references[..i], drawn)
  }

  lemma PassBegins(rows: Rows, references: seq<string>)
    requires Inv(rows)
    requires forall j, k :: 0 <= j < k < |references| ==> references[j] != references[k]
    requires forall j :: 0 <= j < |references| ==> References(rows, references[j])
    ensures InPass(rows, rows, references, 0, [])
  {
    forall j | 0 <= j < |references| ensures Tracks(rows, references[j], rows[references[j]]) {
      InvTracks(rows, references[j]);
    }
  }

  lemma PassGoesOn(start: Rows, before: Rows, now: Rows, references: seq<string>, i: nat, drawn: seq<string>,
                   key: string, e: Event)
    requires InPass(start, before, references, i, drawn) && i < |references|
    requires now == AfterEvent(before, references[i], start[references[i]], key, e)
    ensures Owners(now) <= Owners(start)
    ensures Counts(e) ==> InPass(start, now, references, i + 1, drawn + [key])
  {
    var ref := start[references[i]];
    OwnersStay(before, references[i], ref, key, e);
    assert ref.owner in Owners(start);
    forall j | i < j < |references| ensures Tracks(now, references[j], start[references[j]]) {
      assert start[references[j]].owner != ref.owner;
      EventKeepsTracks(before, references[i], ref, key, e, references[j], start[references[j]]);
    }
    if Counts(e) {
      RaisedOneMore(start, before, now, references, i, drawn, key, e);
    }
  }

  lemma OwnersStay(rows: Rows, r: string, ref: Row, key: string, e: Event)
    requires ref.Reference?
    ensures Owners(AfterEvent(rows, r, ref, key, e)) <= Owners(rows) + {ref.owner}
  {
  }

  /** A child of a request without a reference. */
  lemma UnreferencedChild(rows: Rows, key: string, owner: string, name: string)
    requires Inv(rows) && forall r :: References(rows, r) ==> rows[r].owner != owner
    ensures Inv(rows[key := Child(owner, name)])
    ensures Owners(rows[key := Child(owner, name)]) <= Owners(rows) + {owner}
  {
    var rows' := rows[key := Child(owner, name)];
    forall r | References(rows', r)
      ensures References(rows, r) && rows[r] == rows'[r] && Numbered(rows', rows'[r].owner, rows'[r].base, rows'[r].counter)
    {
      assert References(rows, r);
      ChildKeepsNumbers(rows, key, Child(owner, name), rows[r].owner, rows[r].base, rows[r].counter);
    }
  }

  /** What a request comes to for one connection when no call fails. */
  datatype Fit = Met | PassedOver | Refused

  /** The children made for the first connections of a request: each that can be met has its child, under the key
      drawn for it, with the next number, unless a later one was drawn over it. */
  ghost predicate Made(rows: Rows, owner: string, base: string, fits: seq<Fit>, drawn: seq<string>) {
    |drawn| <= |fits| && forall i :: 0 <= i < |drawn| && fits[i].Met? && Undrawn(drawn, i) ==>
      drawn[i] in rows && rows[drawn[i]] == Child(owner, base + "-" + Itoa(i + 1))
  }

  /** A key that is not drawn again. */
  predicate Undrawn(drawn: seq<string>, i: nat)
    requires i < |drawn|
  {
    forall j :: i < j < |drawn| ==> drawn[j] != drawn[i]
  }

  lemma MadeOneMore(before: Rows, now: Rows, owner: string, base: string, fits: seq<Fit>, drawn: seq<string>, key: string)
    requires Made(before, owner, base, fits, drawn) && |drawn| < |fits|
    requires now == if fits[|drawn|].Met? then before[key := Child(owner, ChildName(base, |drawn| + 1))] else before
    ensures Made(now, owner, base, fits, drawn + [key])
  {
    var more := drawn + [key];
    forall i | 0 <= i < |more| && fits[i].Met? && Undrawn(more, i)
      ensures more[i] in now && now[more[i]] == Child(owner, base + "-" + Itoa(i + 1))
    {
      if i < |drawn| {
        assert more[|drawn|] == key;
        assert Undrawn(drawn, i) by {
          forall j | i < j < |drawn| ensures drawn[j] != drawn[i] {
            assert more[j] == drawn[j];
          }
        }
      }
    }
  }

  /** The same for all connections, the reference's key drawn last. */
  ghost predicate MadeAll(rows: Rows, owner: string, base: string, fits: seq<Fit>, drawn: seq<string>) {
    |drawn| > |fits| && forall i :: 0 <= i < |fits| && fits[i].Met? && Undrawn(drawn, i) ==>
      drawn[i] in rows && rows[drawn[i]] == Child(owner, base + "-" + Itoa(i + 1))
  }

  lemma MadeInAll(before: Rows, now: Rows, owner: string, base: string, fits: seq<Fit>, drawn: seq<string>, key: string)
    requires Made(before, owner, base, fits, drawn) && |drawn| == |fits|
    requires key in now && now - {key} == before - {key}
    ensures MadeAll(now, owner, base, fits, drawn + [key])
  {
    var more := drawn + [key];
    forall i | 0 <= i < |fits| && fits[i].Met? && Undrawn(more, i)
      ensures more[i] in now && now[more[i]] == Child(owner, base + "-" + Itoa(i + 1))
    {
      assert more[|drawn|] == key != more[i];
      assert Undrawn(drawn, i) by {
        forall j | i < j < |drawn| ensures drawn[j] != drawn[i] {
          assert more[j] == drawn[j];
        }
      }
      assert drawn[i] in before - {key} && (now - {key})[drawn[i]] == (before - {key})[drawn[i]];
    }
  }

  /** The children a pass has stored: each reference visited has a new one, under the key drawn for it, with the
      number after its counter, unless it was drawn over or a reference written there. */
  ghost predicate AllExtended(before: Rows, now: Rows, references: seq<string>, drawn: seq<string>) {
    |drawn| == |references| && forall i :: 0 <= i < |references| && Undrawn(drawn, i) && Unwritten(references, drawn[i], i) ==>
      && References(before, references[i]) && drawn[i] in now
      && now[drawn[i]] == Child(before[references[i]].owner,
                                before[references[i]].base + "-" + Itoa(before[references[i]].counter + 1))
  }

  /** No reference from the i-th on is at a key. */
  predicate Unwritten(references: seq<string>, key: string, i: nat) {
    forall j :: i <= j < |references| ==> references[j] != key
  }

  lemma ExtendedOneMore(start: Rows, before: Rows, now: Rows, references: seq<string>, i: nat, drawn: seq<string>, key: string)
    requires i < |references| && |drawn| == i && AllExtended(start, before, references[..i], drawn)
    requires References(start, references[i])
    requires now == AfterEvent(before, references[i], start[references[i]], key, Stored(true))
    ensures AllExtended(start, now, references[..i + 1], drawn + [key])
  {
    var refs, more := references[..i + 1], drawn + [key];
    forall j | 0 <= j < |refs| && Undrawn(more, j) && Unwritten(refs, more[j], j)
      ensures References(start, refs[j]) && more[j] in now
              && now[more[j]] == Child(start[refs[j]].owner, start[refs[j]].base + "-" + Itoa(start[refs[j]].counter + 1))
    {
      assert refs[i] == references[i] && more[i] == key;
      if j < i {
        assert Undrawn(drawn, j) by {
          forall k | j < k < |drawn| ensures drawn[k] != drawn[j] {
            assert more[k] == drawn[k];
          }
        }
        assert Unwritten(references[..i], drawn[j], j) by {
          forall k | j <= k < i ensures references[..i][k] != drawn[j] {
            assert refs[k] == references[..i][k];
          }
        }
        assert references[..i][j] == refs[j];
      }
    }
  }

  class AppConnections {
    var rows: Rows
    /** How each call ends, in the order the calls are made: any sequence of replies. */
    const replies: nat -> Reply
    var calls: nat

    constructor (replies: nat -> Reply)
      ensures Valid() && this.replies == replies && calls == 0 && rows == map[]
    {
      this.replies, calls := replies, 0;
      rows := map[];
    }

    /** No call since the n-th has failed. */
    ghost predicate Smooth(n: nat)
      reads this
    {
      SmoothBetween(replies, n, calls)
    }

    method Other() returns (ok: bool)
      modifies this`calls
      ensures calls == old(calls) + 1 && ok == replies(old(calls)).Done?
    {
      ok := replies(calls).Done?;
      calls := calls + 1;
    }

    ghost predicate Valid()
      reads this
    {
      Inv(rows)
    }

    /** createAppConnection for one network domain connection: it fails, or stores last.  A request that cannot be
        met for the connection, because it names neither labels nor prefixes or no policy there is, is refused;
        a connection without a site that starts in no cloud is passed over, and nothing is stored for it. */
    method CreateAppConnection(key: string, owner: string, name: string, fit: Fit) returns (ok: bool, stored: bool)
      modifies this
      ensures ok ==> !fit.Refused? && stored == fit.Met?
      ensures !ok ==> !stored
      ensures rows == if stored then old(rows)[key := Child(owner, name)] else old(rows)
      ensures calls >= old(calls) && (Smooth(old(calls)) ==> (ok <==> !fit.Refused?))
    {
      stored := false;
      ok := Other();
      if !ok || fit.Refused? { return false, false; }
      if fit.PassedOver? { return true, false; }
      ok := Other();
      if ok {
        rows := rows[key := Child(owner, name)];
        stored := true;
      }
    }

    method UpdateReference(key: string, owner: string, base: string, counter: nat) returns (ok: bool)
      modifies this
      ensures rows == if ok then old(rows)[key := Reference(owner, base, counter)] else old(rows)
      ensures calls == old(calls) + 1 && ok == replies(old(calls)).Done?
    {
      ok := Other();
      if ok {
        rows := rows[key := Reference(owner, base, counter)];
      }
    }

    /** createAppConnectionForAllNDConnections: a numbered child for each of the connections there are,
        those that fail leaving a gap, and then the reference with the counter.  The keys are drawn at random
        and not checked: a row that is there already, a reference too, is overwritten. */
    method CreateForAll(owner: string, base: string, fits: seq<Fit>)
      returns (err: bool, ghost referenceKey: string, ghost drawn: seq<string>)
      requires Valid() && owner !in Owners(rows)
      modifies this
      ensures Valid() && Owners(rows) <= Owners(old(rows)) + {owner}
      ensures !err ==> referenceKey in rows && rows[referenceKey] == Reference(owner, base, |fits|)
      ensures err ==> forall r :: References(rows, r) ==> References(old(rows), r) && rows[r] == old(rows)[r]
      ensures calls >= old(calls) && (Smooth(old(calls)) ==> !err)
      ensures Smooth(old(calls)) ==> |drawn| == |fits| + 1 && MadeAll(rows, owner, base, fits, drawn)
    {
      var counter := 0;
      referenceKey, drawn := "", [];
      var listed := Other();
      if !listed { return true, referenceKey, drawn; }
      for i := 0 to |fits|
        invariant calls >= old(calls)
        invariant counter == i && Valid() && Numbered(rows, owner, base, counter)
        invariant forall r :: References(rows, r) ==> References(old(rows), r) && rows[r] == old(rows)[r]
        invariant Owners(rows) <= Owners(old(rows)) + {owner}
        invariant |drawn| == i && (Smooth(old(calls)) ==> Made(rows, owner, base, fits, drawn))
      {
        counter := counter + 1;
        var key: string := *;
        ghost var before := rows;
        UnreferencedChild(rows, key, owner, ChildName(base, counter));
        NumberOneMore(rows, owner, base, counter - 1, key);
        NumberedSurvives(rows, rows, owner, base, counter - 1, counter);
        var ok, stored := CreateAppConnection(key, owner, ChildName(base, counter), fits[i]);
        if Smooth(old(calls)) {
          MadeOneMore(before, rows, owner, base, fits, drawn, key);
        }
        drawn := drawn + [key];
      }
      var key: string := *;
      referenceKey := key;
      ghost var before := rows;
      PutReference(rows, key, Reference(owner, base, counter));
      var ok := UpdateReference(key, owner, base, counter);
      err := !ok;
      if Smooth(old(calls)) {
        MadeInAll(before, rows, owner, base, fits, drawn, key);
      }
      drawn := drawn + [key];
    }

    /** The keys of the references, as the listing of all rows shows them. */
    method ListReferences() returns (references: seq<string>)
      ensures forall i :: 0 <= i < |references| ==> References(rows, references[i])
      ensures forall i, j :: 0 <= i < j < |references| ==> references[i] != references[j]
      ensures forall r :: References(rows, r) ==> r in references
    {
      references := [];
      var todo := rows.Keys;
      while todo != {}
        invariant todo <= rows.Keys
        invariant forall i :: 0 <= i < |references| ==> References(rows, references[i]) && references[i] !in todo
        invariant forall i, j :: 0 <= i < j < |references| ==> references[i] != references[j]
        invariant forall r :: References(rows, r) && r !in todo ==> r in references
        decreases |todo|
      {
        var k :| k in todo;
        todo := todo - {k};
        if rows[k].Reference? {
          references := references + [k];
        }
      }
    }

    /** applyAppConnectionsForAllNDConnections for one reference, as the listing showed it: the child, then
        the counter. */
    method ApplyOne(r: string, appConn: Row, key: string, fit: Fit) returns (err: bool, e: Event)
      requires Valid() && Tracks(rows, r, appConn)
      modifies this
      ensures rows == AfterEvent(old(rows), r, appConn, key, e)
      ensures err <==> !Counts(e)
      ensures calls >= old(calls) && (fit.Refused? ==> err) && (Smooth(old(calls)) ==> (err <==> fit.Refused?))
      ensures !err ==> e == if fit.Met? then Stored(true) else Skipped(true)
      ensures e != Stored(false) ==> Valid()
      ensures e.Stored? && (key != r || !e.reference) ==>
                key in rows && rows[key] == Child(appConn.owner, appConn.base + "-" + Itoa(appConn.counter + 1))
      ensures !err ==> r in rows && rows[r] == Reference(appConn.owner, appConn.base, appConn.counter + 1)
    {
      EventKeepsInv(rows, r, appConn, key, Stored(true));
      EventKeepsInv(rows, r, appConn, key, Skipped(true));
      var counter := appConn.counter + 1;
      var ok, stored := CreateAppConnection(key, appConn.owner, ChildName(appConn.base, counter), fit);
      if !ok {
        return true, Failed;
      }
      ok := UpdateReference(r, appConn.owner, appConn.base, counter);
      return !ok, if stored then Stored(ok) else Skipped(ok);
    }

    /** applyAppConnectionsForAllNDConnections: a new connection gets one more child of every reference.  The
        first failure ends the pass; `passedOver` says that the connection has no site and starts in no cloud,
        `refused` whose requests it cannot meet, and `lost` reports a child whose reference could not be written.  A
        reference survives with one more counted unless a key drawn after its turn hits it.  When no call
        fails, the one cause of an error is a request that cannot be met for the new connection. */
    method ApplyForAll(refused: set<string>, passedOver: bool)
      returns (err: bool, lost: bool, ghost references: seq<string>, ghost drawn: seq<string>)
      requires Valid()
      modifies this
      ensures !lost ==> Valid()
      ensures lost ==> err
      ensures Owners(rows) <= Owners(old(rows))
      ensures !err ==> |drawn| == |references| && forall r :: References(old(rows), r) ==> r in references
      ensures calls >= old(calls)
      ensures !err || Smooth(old(calls)) ==>
                (err <==> exists r :: References(old(rows), r) && old(rows)[r].owner in refused)
      ensures !err ==> AllRaised(old(rows), rows, references, drawn)
      ensures !err && !passedOver ==> AllExtended(old(rows), rows, references, drawn)
    {
      references, drawn := [], [];
      var listed := Other();
      if !listed { return true, false, references, drawn; }
      var appConns := rows;
      var keys := ListReferences();
      references, drawn := keys, [];
      PassBegins(rows, keys);
      for i := 0 to |keys|
        invariant Valid() && references == keys && calls >= old(calls)
        invariant InPass(appConns, rows, keys, i, drawn)
        invariant forall j :: 0 <= j < i ==> appConns[keys[j]].owner !in refused
        invariant !passedOver ==> AllExtended(appConns, rows, keys[..i], drawn)
      {
        var key: string := *;
        ghost var before := rows;
        var e;
        err, e := ApplyOne(keys[i], appConns[keys[i]], key,
                           if appConns[keys[i]].owner in refused then Fit.Refused else if passedOver then PassedOver else Met);
        PassGoesOn(appConns, before, rows, keys, i, drawn, key, e);
        if err {
          return true, e == Stored(false), references, drawn;
        }
        if !passedOver {
          ExtendedOneMore(appConns, before, rows, keys, i, drawn, key);
        }
        drawn := drawn + [key];
      }
      assert keys[..|keys|] == keys;
      return false, false, references, drawn;
    }

    /** Any run of "all" requests and new connections, one after the other (see Passes for passes that
        overlap), whatever fails and whatever the random keys hit: until a reference write is lost, the children of every
        stored reference are base-1 to base-counter at most, no two the same. */
    method Serve(work: seq<Work>) returns (lost: bool)
      requires Valid()
      requires forall i :: 0 <= i < |work| && work[i].Make? ==> work[i].owner !in Owners(rows)
      requires forall i, j :: 0 <= i < j < |work| && work[i].Make? && work[j].Make? ==> work[i].owner != work[j].owner
      modifies this
      ensures !lost ==> Valid()
      ensures !lost ==> forall r, k :: r in rows && rows[r].Reference? && k in rows && rows[k].Child?
                                       && rows[k].owner == rows[r].owner ==>
                          Printed(rows[k].name, rows[r].base, rows[r].counter)
    {
      lost := false;
      for i := 0 to |work|
        invariant !lost && Valid()
        invariant forall j :: i <= j < |work| && work[j].Make? ==> work[j].owner !in Owners(rows)
      {
        match work[i]
        case Make(owner, base, fits) =>
          ghost var key, drawn;
          var err;
          err, key, drawn := CreateForAll(owner, base, fits);
        case NewConnection(refused, passedOver) =>
          ghost var references, drawn;
          var err;
          err, lost, references, drawn := ApplyForAll(refused, passedOver);
          if lost { return; }
      }
      InvNames(rows);
    }
  }

  datatype Work = Make(owner: string, base: string, fits: seq<Fit>) | NewConnection(refused: set<string>, passedOver: bool)

  function Counter(start: nat, events: seq<Event>): nat {
    if events == [] then start
    else Counter(start, events[..|events| - 1]) + if Counts(events[|events| - 1]) then 1 else 0
  }

  /** The name the child of an event gets. */
  function NameAt(base: string, start: nat, events: seq<Event>, i: nat): string
    requires i <= |events|
  {
    ChildName(base, Counter(start, events[..i]) + 1)
  }

  /** No event from i up to j is counted. */
  predicate Stalled(events: seq<Event>, i: nat, j: nat)
    requires i <= j <= |events|
  {
    forall k :: i <= k < j ==> !Counts(events[k])
  }

  lemma {:induction false} CounterStalls(start: nat, events: seq<Event>, i: nat, j: nat)
    requires i <= j <= |events|
    ensures Counter(start, events[..i]) <= Counter(start, events[..j])
    ensures Counter(start, events[..i]) == Counter(start, events[..j]) <==> Stalled(events, i, j)
  {
    if i < j {
      CounterStalls(start, events, i, j - 1);
      assert events[..j][..j - 1] == events[..j - 1];
    }
  }

  /** Two children of one reference have the same name exactly when no reference write went through from
      the first child's on to the second child.  In a run whose reference writes all succeed no two do. */
  lemma SameNameIff(base: string, start: nat, events: seq<Event>, i: nat, j: nat)
    requires i < j < |events| && events[i].Stored? && events[j].Stored?
    ensures NameAt(base, start, events, i) == NameAt(base, start, events, j) <==> Stalled(events, i, j)
    ensures events[i].reference ==> NameAt(base, start, events, i) != NameAt(base, start, events, j)
  {
    CounterStalls(start, events, i, j);
    if NameAt(base, start, events, i) == NameAt(base, start, events, j) {
      ChildNameInjective(base, Counter(start, events[..i]) + 1, Counter(start, events[..j]) + 1);
    }
  }

  /** One event of a reference's life: the rows it found, the key its child was to be stored under. */
  datatype Visit = Visit(before: Rows, key: string, event: Event)

  function Events(visits: seq<Visit>): (events: seq<Event>)
    ensures |events| == |visits|
  {
    seq(|visits|, i requires 0 <= i < |visits| => visits[i].event)
  }

  /** The life of the reference at r, as ApplyOne leads it when no two passes overlap on it: each visit finds
      it as the last one left it.  Between two visits other rows may change in any way, and no key drawn hits
      it. */
  ghost predicate Life(visits: seq<Visit>, r: string) {
    && (forall i :: 0 <= i < |visits| ==> References(visits[i].before, r) && visits[i].key != r)
    && (forall i :: 0 <= i < |visits| - 1 ==>
          AfterEvent(visits[i].before, r, visits[i].before[r], visits[i].key, visits[i].event)[r] == visits[i + 1].before[r])
  }

  /** The counter a reference shows, and the name of the child it stores, are those of its events. */
  lemma {:induction false} LifeFollowsEvents(visits: seq<Visit>, r: string, i: nat)
    requires Life(visits, r) && i < |visits|
    ensures var first := visits[0].before[r];
            var ref := visits[i].before[r];
            && ref == first.(counter := Counter(first.counter, Events(visits)[..i]))
            && NextChild(ref) == Child(first.owner, NameAt(first.base, first.counter, Events(visits), i))
  {
    if i > 0 {
      LifeFollowsEvents(visits, r, i - 1);
      assert Events(visits)[..i][..i - 1] == Events(visits)[..i - 1];
    } else {
      assert Events(visits)[..0] == [];
    }
  }

  /** So two children a reference has stored share a name exactly when it was not written from the first to
      the second. */
  lemma SameChildIff(visits: seq<Visit>, r: string, i: nat, j: nat)
    requires Life(visits, r) && i < j < |visits| && visits[i].event.Stored? && visits[j].event.Stored?
    ensures NextChild(visits[i].before[r]) == NextChild(visits[j].before[r]) <==> Stalled(Events(visits), i, j)
  {
    var first := visits[0].before[r];
    LifeFollowsEvents(visits, r, i);
    LifeFollowsEvents(visits, r, j);
    SameNameIff(first.base, first.counter, Events(visits), i, j);
  }
}
