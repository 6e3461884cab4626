/** Keeping a cloud security group in step with a label selection: refreshSecurityGroups
    (pkg/connection-controller/security_groups.go) and RefreshAppConnections
    (pkg/connection-controller/awi_connection_controller.go). */
module SecurityGroups {
  import opened Records

  datatype Service = Service(cluster: string, namespace: string, name: string)

  datatype AppConnection = AppConnection(
    id: string,
    connectionId: string,
    provider: string,
    labels: map<string, string>,
    cidrs: seq<string>,
    service: Option<Service>)

  /** The elements of xs that ys lacks, in order, repeated as xs repeats them. */
  function Lacking(xs: seq<string>, ys: seq<string>): seq<string> {
    if xs == [] then []
    else
      var front := Lacking(xs[..|xs| - 1], ys);
      if xs[|xs| - 1] in ys then front else front + [xs[|xs| - 1]]
  }

  lemma {:induction false} LackingElements(xs: seq<string>, ys: seq<string>)
    ensures Elements(Lacking(xs, ys)) == Elements(xs) - Elements(ys)
  {
    if xs != [] {
      var front := xs[..|xs| - 1];
      LackingElements(front, ys);
      assert xs == front + [xs[|xs| - 1]];
      ElementsAppend(front, xs[|xs| - 1]);
      ElementsAppend(Lacking(front, ys), xs[|xs| - 1]);
    }
  }

  /** The two nested search loops of the refresh. */
  method Diff(xs: seq<string>, ys: seq<string>) returns (missing: seq<string>)
    ensures missing == Lacking(xs, ys)
  {
    missing := [];
    for i := 0 to |xs|
      invariant missing == Lacking(xs[..i], ys)
    {
      assert xs[..i + 1][..i] == xs[..i];
      var found := false;
      for j := 0 to |ys|
        invariant !found && xs[i] !in ys[..j]
      {
        if ys[j] == xs[i] {
          found := true;
          break;
        }
      }
      if found {
        continue;
      }
      missing := missing + [xs[i]];
    }
    assert xs[..|xs|] == xs;
  }

  /** What a provider with set semantics holds after an update. */
  function Updated(held: set<string>, add: seq<string>, remove: seq<string>): set<string> {
    (held - Elements(remove)) + Elements(add)
  }

  /** What it holds after being driven from a stored list towards a desired one. */
  function Driven(held: set<string>, stored: seq<string>, desired: seq<string>): set<string> {
    Updated(held, Lacking(desired, stored), Lacking(stored, desired))
  }

  /** The diff is exact: driven from what is stored, the provider ends with what is desired, and no
      address is both added and removed, added again or removed while desired. */
  lemma DiffIsExact(stored: seq<string>, desired: seq<string>)
    ensures Driven(Elements(stored), stored, desired) == Elements(desired)
    ensures Elements(Lacking(desired, stored)) !! Elements(stored)
    ensures Elements(Lacking(stored, desired)) !! Elements(desired)
    ensures Elements(Lacking(stored, desired)) !! Elements(Lacking(desired, stored))
  {
    LackingElements(desired, stored);
    LackingElements(stored, desired);
  }

  /** Where the provider and the record disagree: addresses let in that the record does not list, and
      addresses the record lists that are not let in. */
  datatype Drift = Drift(extra: set<string>, missing: set<string>)

  function DriftOf(held: set<string>, stored: seq<string>): Drift {
    Drift(held - Elements(stored), Elements(stored) - held)
  }

  /** How one refresh can end: refused by the provider, carried out but not recorded, or recorded. */
  datatype Ending = Refused | Unrecorded | Recorded

  datatype Attempt = Attempt(desired: seq<string>, ending: Ending)

  /** One app connection: what its rule lets in, and what its record says. */
  datatype Rule = Rule(held: set<string>, stored: seq<string>)

  function After(r: Rule, a: Attempt): Rule {
    match a.ending
    case Refused => r
    case Unrecorded => r.(held := Driven(r.held, r.stored, a.desired))
    case Recorded => Rule(Driven(r.held, r.stored, a.desired), a.desired)
  }

  function AfterAll(r: Rule, attempts: seq<Attempt>): Rule {
    if attempts == [] then r
    else After(AfterAll(r, attempts[..|attempts| - 1]), attempts[|attempts| - 1])
  }

  /** The law of drift: a recorded refresh forgives an extra address it wants and a missing one it does
      not want, and no other; an unrecorded one makes everything it changed a disagreement. */
  lemma DriftLaw(r: Rule, a: Attempt)
    ensures var before := DriftOf(r.held, r.stored);
            var after := DriftOf(After(r, a).held, After(r, a).stored);
            match a.ending
            case Refused => after == before
            case Unrecorded =>
              && after.extra == before.extra + (Elements(a.desired) - Elements(r.stored))
              && after.missing == before.missing + (Elements(r.stored) - Elements(a.desired))
            case Recorded =>
              && after.extra == before.extra - Elements(a.desired)
              && after.missing == before.missing * Elements(a.desired)
  {
    LackingElements(a.desired, r.stored);
    LackingElements(r.stored, a.desired);
  }

  /** A refresh whose record was lost, then one that is recorded: what the rule then lets in, and exactly
      when that is what was asked for. */
  lemma AfterLostRecord(old_: seq<string>, first: seq<string>, second: seq<string>)
    ensures var start := Rule(Elements(old_), old_);
            var end := After(After(start, Attempt(first, Unrecorded)), Attempt(second, Recorded));
            && end.held == (Elements(second) - (Elements(old_) - Elements(first)))
                           + (Elements(first) - (Elements(old_) + Elements(second)))
            && (end.held == Elements(second) <==>
                  && Elements(second) * Elements(old_) <= Elements(first)
                  && Elements(first) <= Elements(old_) + Elements(second))
  {
    LackingElements(first, old_);
    LackingElements(old_, first);
    LackingElements(second, old_);
    LackingElements(old_, second);
  }

  /** The address that was dropped without a record and is wanted again is never put back. */
  lemma LostRecordLosesAddress(a: string)
    ensures var start := Rule({a}, [a]);
            var end := After(After(start, Attempt([], Unrecorded)), Attempt([a], Recorded));
            end.held == {} && end.stored == [a]
  {
    AfterLostRecord([a], [], [a]);
    assert Elements([a]) == {a};
  }

  /** And no later refresh that wants it repairs it, however it ends. */
  lemma {:induction false} MissingStaysMissing(r: Rule, attempts: seq<Attempt>, a: string)
    requires a in r.stored && a !in r.held
    requires forall i :: 0 <= i < |attempts| ==> a in attempts[i].desired
    ensures var end := AfterAll(r, attempts); a in end.stored && a !in end.held
  {
    if attempts != [] {
      var front := attempts[..|attempts| - 1];
      MissingStaysMissing(r, front, a);
      var now := AfterAll(r, front);
      LackingElements(attempts[|attempts| - 1].desired, now.stored);
      LackingElements(now.stored, attempts[|attempts| - 1].desired);
    }
  }

  /** While the desired list stays the same, failed attempts do no harm: the first recorded one makes the
      rule, the record and the wish agree, and every later attempt keeps them so. */
  lemma {:induction false} StableWishConverges(r: Rule, attempts: seq<Attempt>, desired: seq<string>)
    requires r.held == Elements(r.stored)
    requires forall i :: 0 <= i < |attempts| ==> attempts[i].desired == desired
    ensures var end := AfterAll(r, attempts);
            && (end.held == Elements(r.stored) || end.held == Elements(desired))
            && (end.stored == r.stored || end.stored == desired)
            && (end.stored == desired ==> end.held == Elements(desired))
            && ((exists i :: 0 <= i < |attempts| && attempts[i].ending.Recorded?) ==> end.stored == desired)
  {
    if attempts != [] {
      var front := attempts[..|attempts| - 1];
      var last := attempts[|attempts| - 1];
      StableWishConverges(r, front, desired);
      var now := AfterAll(r, front);
      LackingElements(desired, now.stored);
      LackingElements(now.stored, desired);
      if i :| 0 <= i < |attempts| && attempts[i].ending.Recorded? {
        assert last.ending.Recorded? || front[i].ending.Recorded?;
      }
    }
  }

  lemma PrefixGrows(order: seq<string>, i: nat)
    requires i < |order|
    ensures Elements(order[..i + 1]) == Elements(order[..i]) + {order[i]}
  {
    assert order[..i + 1] == order[..i] + [order[i]];
    ElementsAppend(order[..i], order[i]);
  }

  predicate NoRepeats(order: seq<string>) {
    forall i, j :: 0 <= i < j < |order| ==> order[i] != order[j]
  }

  /** A record a refresh stops at: it belongs to no connection, or to all of them. */
  predicate Stops(row: AppConnection) {
    row.connectionId == "all" || row.connectionId == ""
  }

  /** The source list a refresh finds for a record: only a label selection is looked up again. */
  function Wanted(row: AppConnection, found: string -> seq<string>): seq<string> {
    if row.labels != map[] then found(row.id) else row.cidrs
  }

  /** Where a pass ends: behind records none of which stops it, at the first one that does, without an error,
      or at one whose refresh failed. */
  ghost predicate EndsAt(rows: map<string, AppConnection>, order: seq<string>, err: bool, n: nat, driven: bool, stored: bool) {
    && n <= |order| && (stored ==> driven) && (driven ==> n < |order|)
    && (forall i :: 0 <= i < n ==> order[i] in rows && !Stops(rows[order[i]]))
    && (n == |order| ==> !err)
    && (n < |order| ==> order[n] in rows && (Stops(rows[order[n]]) <==> !err))
    && (!err ==> !driven)
  }

  /** A pass that started from some rows and rules and has completed the first n records; with `err` it has
      failed at the next. */
  ghost predicate PassAt(order: seq<string>, rows0: map<string, AppConnection>, held0: map<string, set<string>>,
                         rows: map<string, AppConnection>, held: map<string, set<string>>, found: string -> seq<string>,
                         err: bool, n: nat, driven: bool, stored: bool) {
    && NoRepeats(order) && rows0.Keys == held0.Keys == Elements(order) && (forall k :: k in rows0 ==> rows0[k].id == k)
    && n <= |order| && (stored ==> driven) && (driven ==> err) && (err ==> n < |order| && !Stops(rows0[order[n]]))
    && (forall j :: 0 <= j < n ==> !Stops(rows0[order[j]]))
    && rows == RefreshedRows(rows0, Reached(order, n, stored), found)
    && held == DrivenRules(held0, rows0, Reached(order, n, driven), found)
  }

  /** The next record is still as it was. */
  lemma PassFinds(order: seq<string>, rows0: map<string, AppConnection>, held0: map<string, set<string>>,
                  rows: map<string, AppConnection>, held: map<string, set<string>>, found: string -> seq<string>, n: nat)
    requires PassAt(order, rows0, held0, rows, held, found, false, n, false, false) && n < |order|
    ensures order[n] in rows && rows[order[n]] == rows0[order[n]] && order[n] !in Elements(order[..n])
  {
    assert order[n] in Elements(order);
  }

  lemma PassEnds(order: seq<string>, rows0: map<string, AppConnection>, held0: map<string, set<string>>,
                 rows: map<string, AppConnection>, held: map<string, set<string>>, found: string -> seq<string>,
                 err: bool, n: nat, driven: bool, stored: bool)
    requires PassAt(order, rows0, held0, rows, held, found, err, n, driven, stored)
    requires !err && n < |order| ==> order[n] in rows0 && Stops(rows0[order[n]])
    ensures EndsAt(rows0, order, err, n, driven, stored)
    ensures rows.Keys == held.Keys == rows0.Keys && forall k :: k in rows ==> rows[k].id == k
  {
    forall i | 0 <= i < |order| ensures order[i] in rows0 {
      assert order[i] in Elements(order);
    }
    RefreshedKeepsKeys(rows0, Reached(order, n, stored), found);
  }

  /** What one refresh means for a rule that agrees with its record: without labels it stays as it is, with
      labels it ends with what they select. */
  lemma DrivenLands(row: AppConnection, found: string -> seq<string>, held: set<string>)
    ensures row.labels == map[] ==> Wanted(row, found) == row.cidrs
    ensures row.labels == map[] ==> Driven(held, row.cidrs, Wanted(row, found)) == held
    ensures row.labels != map[] ==> Wanted(row, found) == found(row.id)
    ensures held == (set x | x in row.cidrs) ==> Driven(held, row.cidrs, Wanted(row, found)) == set x | x in Wanted(row, found)
  {
    LackingElements(row.cidrs, Wanted(row, found));
    LackingElements(Wanted(row, found), row.cidrs);
    DiffIsExact(row.cidrs, Wanted(row, found));
  }

  lemma PassLands(order: seq<string>, rows0: map<string, AppConnection>, held0: map<string, set<string>>,
                  rows: map<string, AppConnection>, held: map<string, set<string>>, found: string -> seq<string>,
                  err: bool, n: nat, driven: bool, stored: bool)
    requires PassAt(order, rows0, held0, rows, held, found, err, n, driven, stored)
    ensures rows.Keys == held.Keys == rows0.Keys
    ensures forall k :: k in rows0 ==> rows[k] == rows0[k].(cidrs := rows[k].cidrs)
    ensures forall k :: k in rows0 && rows0[k].labels == map[] ==> rows[k] == rows0[k] && held[k] == held0[k]
    ensures forall i :: 0 <= i < n ==> order[i] in rows0
    ensures forall i :: 0 <= i < n && rows0[order[i]].labels != map[] ==>
              && rows[order[i]].cidrs == found(order[i])
              && (held0[order[i]] == (set x | x in rows0[order[i]].cidrs) ==>
                    held[order[i]] == set x | x in found(order[i]))
  {
    forall k | k in rows0 && rows0[k].labels == map[] ensures rows[k] == rows0[k] && held[k] == held0[k] {
      DrivenLands(rows0[k], found, held0[k]);
    }
    forall i | 0 <= i < n
      ensures order[i] in rows0
      ensures rows0[order[i]].labels != map[] ==>
                && rows[order[i]].cidrs == found(order[i])
                && (held0[order[i]] == (set x | x in rows0[order[i]].cidrs) ==>
                      held[order[i]] == set x | x in found(order[i]))
    {
      assert order[i] in Elements(order) && order[i] == order[..n][i];
      assert order[i] in Elements(order[..n]);
      DrivenLands(rows0[order[i]], found, held0[order[i]]);
    }
  }

  class AppConnections {
    /** The keys of the bucket, in the order the bucket lists them: BoltDB's is key order, and nothing
        below depends on which order it is. */
    var order: seq<string>
    var rows: map<string, AppConnection>
    /** The source addresses each app connection's rule lets in, at the provider. */
    var held: map<string, set<string>>
    /** How each call ends, in the order the calls are made: any sequence of replies. */
    const replies: nat -> Reply
    var calls: nat

    constructor (replies: nat -> Reply)
      ensures Valid() && this.replies == replies && calls == 0 && order == [] && rows == map[] && held == map[]
    {
      this.replies, calls := replies, 0;
      order, rows, held := [], map[], map[];
    }

    /** No call since the n-th has failed. */
    ghost predicate Smooth(n: nat)
      reads this
    {
      SmoothBetween(replies, n, calls)
    }

    ghost predicate Valid()
      reads this
    {
      && NoRepeats(order)
      && rows.Keys == held.Keys == Elements(order)
      && (forall k :: k in rows ==> rows[k].id == k)
    }

    /** Any call that only reads. */
    method Read() returns (ok: bool)
      modifies this`calls
      ensures calls == old(calls) + 1 && ok == replies(old(calls)).Done?
    {
      ok := replies(calls).Done?;
      calls := calls + 1;
    }

    method DriveProvider(k: string, add: seq<string>, remove: seq<string>) returns (ok: bool, ghost took: bool)
      requires k in held
      modifies this`held, this`calls
      ensures calls == old(calls) + 1 && ok == replies(old(calls)).Done? && took == replies(old(calls)).TookEffect()
      ensures held == old(held)[k := if took then Updated(old(held)[k], add, remove) else old(held)[k]]
    {
      var reply := replies(calls);
      calls := calls + 1;
      took := reply.TookEffect();
      if reply.TookEffect() {
        held := held[k := Updated(held[k], add, remove)];
      }
      ok := reply.Done?;
    }

    method UpdateAppConnection(row: AppConnection) returns (ok: bool)
      requires row.id in rows
      modifies this`rows, this`calls
      ensures calls == old(calls) + 1 && ok == replies(old(calls)).Done?
      ensures rows == if ok then old(rows)[row.id := row] else old(rows)
    {
      ok := Read();
      if ok {
        rows := rows[row.id := row];
      }
    }

    /** One record.  `driven` and `stored` say how far it came: a record is stored only after its rule was
        driven.  The caller stores the refreshed row once more. */
    method RefreshSecurityGroups(acl: AppConnection, found: string -> seq<string>)
      returns (ok: bool, refreshed: AppConnection, ghost driven: bool, ghost stored: bool)
      requires acl.id in rows && rows[acl.id] == acl && acl.id in held
      modifies this`rows, this`held, this`calls
      ensures calls >= old(calls) && (Smooth(old(calls)) ==> ok)
      ensures refreshed == acl.(cidrs := Wanted(acl, found))
      ensures rows == old(rows)[acl.id := if stored then refreshed else acl]
      ensures held == old(held)[acl.id := if driven then Driven(old(held)[acl.id], acl.cidrs, refreshed.cidrs)
                                                    else old(held)[acl.id]]
      ensures stored || ok ==> driven
      ensures acl.labels == map[] ==> refreshed == acl && rows == old(rows) && held == old(held)
      ensures ok && acl.labels != map[] && old(held)[acl.id] == (set x | x in acl.cidrs) ==>
                refreshed.cidrs == found(acl.id) && held[acl.id] == set x | x in found(acl.id)
    {
      refreshed := acl.(cidrs := Wanted(acl, found));
      driven, stored := false, false;
      DrivenLands(acl, found, held[acl.id]);
      if acl.labels != map[] {
        ok := Read();
        if !ok { return; }
      }
      var ipsToAdd := Diff(refreshed.cidrs, acl.cidrs);
      var ipsToRemove := Diff(acl.cidrs, refreshed.cidrs);
      var onService := acl.service.Some? && ToLower(acl.provider) == "gcp";
      if onService && |ipsToAdd| == 0 && |ipsToRemove| == 0 {
        assert Driven(held[acl.id], acl.cidrs, refreshed.cidrs) == held[acl.id];
        return true, refreshed, true, false;
      }
      ok, driven := DriveProvider(acl.id, ipsToAdd, ipsToRemove);
      if !ok || onService { return; }
      ok := UpdateAppConnection(refreshed);
      stored := ok;
    }

    /** A pass completes a prefix of the records in key order and leaves every record behind the first
        unfinished one alone.  It ends early at a record that belongs to no connection or to all of them,
        without an error, or at the first failed call; there the rule may be driven and not recorded.  So when
        no call fails the prefix reaches to the first such record, or to the end. */
    method RefreshAppConnections(found: string -> seq<string>)
      returns (err: bool, ghost n: nat, ghost driven: bool, ghost stored: bool)
      requires Valid()
      modifies this`rows, this`held, this`calls
      ensures Valid() && calls > old(calls)
      ensures !replies(old(calls)).Done? ==> err && rows == old(rows) && held == old(held)
      ensures replies(old(calls)).Done? ==> EndsAt(old(rows), order, err, n, driven, stored)
      ensures n <= |order|
      ensures Smooth(old(calls)) ==>
                !err && (n == |order| || old(rows)[order[n]].connectionId == "all" || old(rows)[order[n]].connectionId == "")
      ensures forall i :: 0 <= i < n ==>
                old(rows)[order[i]].connectionId != "all" && old(rows)[order[i]].connectionId != ""
      ensures rows.Keys == old(rows).Keys && held.Keys == old(held).Keys
      ensures forall k :: k in old(rows) ==> rows[k] == old(rows)[k].(cidrs := rows[k].cidrs)
      ensures forall k :: k in old(rows) && old(rows)[k].labels == map[] ==> rows[k] == old(rows)[k] && held[k] == old(held)[k]
      ensures forall i :: 0 <= i < n && old(rows)[order[i]].labels != map[] ==>
                && rows[order[i]].cidrs == found(order[i])
                && (old(held)[order[i]] == (set x | x in old(rows)[order[i]].cidrs) ==>
                      held[order[i]] == set x | x in found(order[i]))
      ensures driven || stored ==> n < |order|
      ensures rows == RefreshedRows(old(rows), Reached(order, n, stored), found)
      ensures held == DrivenRules(old(held), old(rows), Reached(order, n, driven), found)
    {
      RefreshOfNone(rows, held, found);
      var ok := Read();
      if !ok {
        return true, 0, false, false;
      }
      err, n, driven, stored := RefreshListed(found);
      PassEnds(order, old(rows), old(held), rows, held, found, err, n, driven, stored);
      PassLands(order, old(rows), old(held), rows, held, found, err, n, driven, stored);
    }

    /** Its loop over the records. */
    method RefreshListed(found: string -> seq<string>) returns (err: bool, ghost n: nat, ghost driven: bool, ghost stored: bool)
      requires Valid()
      modifies this`rows, this`held, this`calls
      ensures calls >= old(calls) && (Smooth(old(calls)) ==> !err)
      ensures PassAt(order, old(rows), old(held), rows, held, found, err, n, driven, stored)
      ensures !err && n < |order| ==> order[n] in old(rows) && Stops(old(rows)[order[n]])
    {
      err, driven, stored := false, false, false;
      ghost var rows0, held0 := rows, held;
      RefreshOfNone(rows0, held0, found);
      for i := 0 to |order|
        invariant calls >= old(calls)
        invariant PassAt(order, rows0, held0, rows, held, found, false, i, false, false)
      {
        PassFinds(order, rows0, held0, rows, held, found, i);
        if Stops(rows[order[i]]) {
          return false, i, false, false;
        }
        err, driven, stored := RefreshNext(i, found, rows0, held0);
        if err {
          return true, i, driven, stored;
        }
      }
      return false, |order|, false, false;
    }

    /** Its body. */
    method RefreshNext(i: nat, found: string -> seq<string>, ghost rows0: map<string, AppConnection>,
                       ghost held0: map<string, set<string>>)
      returns (err: bool, ghost driven: bool, ghost stored: bool)
      requires PassAt(order, rows0, held0, rows, held, found, false, i, false, false)
      requires i < |order| && !Stops(rows0[order[i]])
      modifies this`rows, this`held, this`calls
      ensures calls >= old(calls) && (Smooth(old(calls)) ==> !err)
      ensures if err then PassAt(order, rows0, held0, rows, held, found, true, i, driven, stored)
              else PassAt(order, rows0, held0, rows, held, found, false, i + 1, false, false)
    {
      err, driven, stored := RefreshOne(order[i], found, rows0, held0, Elements(order[..i]));
      PrefixGrows(order, i);
    }

    /** One record: its provider is looked up, its rule driven, its row written twice. */
    method RefreshOne(k: string, found: string -> seq<string>, ghost rows0: map<string, AppConnection>,
                      ghost held0: map<string, set<string>>, ghost done: set<string>)
      returns (err: bool, ghost driven: bool, ghost stored: bool)
      requires held0.Keys == rows0.Keys && k in rows0 && k !in done && rows0[k].id == k
      requires rows == RefreshedRows(rows0, done, found) && held == DrivenRules(held0, rows0, done, found)
      modifies this`rows, this`held, this`calls
      ensures calls >= old(calls) && (Smooth(old(calls)) ==> !err)
      ensures (stored ==> driven) && (!err ==> stored)
      ensures rows == RefreshedRows(rows0, Plus(done, k, stored), found)
      ensures held == DrivenRules(held0, rows0, Plus(done, k, driven), found)
    {
      RefreshOneMore(rows0, held0, done, found, k);
      ghost var rows1, held1 := rows, held;
      var dbACL := rows[k];
      driven, stored := false, false;
      var ok := Read();
      if !ok {
        return true, false, false;
      }
      assert rows1[k := dbACL] == rows1 && held1[k := held1[k]] == held1;
      var refreshed;
      ok, refreshed, driven, stored := RefreshSecurityGroups(dbACL, found);
      if ok {
        ok := UpdateAppConnection(refreshed);
        stored := stored || ok;
      }
      err := !ok;
    }
  }

  /** The rows and the rules once the records of a set of keys have been refreshed. */
  function RefreshedRows(rows: map<string, AppConnection>, done: set<string>, found: string -> seq<string>)
    : map<string, AppConnection>
  {
    map k | k in rows :: if k in done then rows[k].(cidrs := Wanted(rows[k], found)) else rows[k]
  }

  function DrivenRules(held: map<string, set<string>>, rows: map<string, AppConnection>, done: set<string>,
                       found: string -> seq<string>): map<string, set<string>>
    requires held.Keys == rows.Keys
  {
    map k | k in held :: if k in done then Driven(held[k], rows[k].cidrs, Wanted(rows[k], found)) else held[k]
  }

  function Plus(done: set<string>, k: string, also: bool): set<string> {
    if also then done + {k} else done
  }

  /** The first n keys, and the next one if a flag says so. */
  function Reached(order: seq<string>, n: nat, also: bool): set<string>
    requires n <= |order| && (also ==> n < |order|)
  {
    if also then Elements(order[..n]) + {order[n]} else Elements(order[..n])
  }

  lemma RefreshOfNone(rows: map<string, AppConnection>, held: map<string, set<string>>, found: string -> seq<string>)
    requires held.Keys == rows.Keys
    ensures RefreshedRows(rows, {}, found) == rows && DrivenRules(held, rows, {}, found) == held
  {
  }

  /** The rows a pass leaves when others have changed the table since it listed them: it writes back what it
      listed, refreshed, for every record it completes. */
  function WrittenBack(listed: map<string, AppConnection>, current: map<string, AppConnection>, done: set<string>,
                       found: string -> seq<string>): map<string, AppConnection>
  {
    current + map k | k in done && k in listed :: listed[k].(cidrs := Wanted(listed[k], found))
  }

  lemma UndisturbedWritesBack(rows: map<string, AppConnection>, done: set<string>, found: string -> seq<string>)
    ensures WrittenBack(rows, rows, done, found) == RefreshedRows(rows, done, found)
  {
  }

  /** Another goroutine's value for a record is there after the pass. */
  ghost predicate Survives(listed: map<string, AppConnection>, current: map<string, AppConnection>, done: set<string>,
                           found: string -> seq<string>, k: string, other: AppConnection) {
    var after := WrittenBack(listed, current[k := other], done, found); k in after && after[k] == other
  }

  /** Whatever is written for a record between a pass's listing and its own write survives, and so does a
      deletion, exactly when the pass had not listed the record or does not complete it.  There is no tombstone for these
      records: one that is deleted meanwhile comes back. */
  lemma WriteSurvivesIff(listed: map<string, AppConnection>, current: map<string, AppConnection>, done: set<string>,
                         found: string -> seq<string>, k: string)
    ensures (forall other: AppConnection | other.id == k :: Survives(listed, current, done, found, k, other))
            <==> k !in done || k !in listed
    ensures k !in WrittenBack(listed, current - {k}, done, found) <==> k !in done || k !in listed
  {
    if k in done && k in listed {
      var back := listed[k].(cidrs := Wanted(listed[k], found));
      var other := back.(id := k, cidrs := back.cidrs + ["'"]);
      assert WrittenBack(listed, current[k := other], done, found)[k] == back;
      assert |other.cidrs| == |back.cidrs| + 1;
      assert !Survives(listed, current, done, found, k, other);
    }
  }

  /** A pass moves no record to another key and adds or removes none. */
  lemma RefreshedKeepsKeys(rows: map<string, AppConnection>, done: set<string>, found: string -> seq<string>)
    requires forall k :: k in rows ==> rows[k].id == k
    ensures var after := RefreshedRows(rows, done, found);
            after.Keys == rows.Keys && forall k :: k in after ==> after[k].id == k
  {
  }

  lemma RefreshOneMore(rows: map<string, AppConnection>, held: map<string, set<string>>, done: set<string>,
                       found: string -> seq<string>, k: string)
    requires held.Keys == rows.Keys && k in rows && k !in done
    ensures RefreshedRows(rows, done, found)[k] == rows[k] && DrivenRules(held, rows, done, found)[k] == held[k]
    ensures RefreshedRows(rows, done + {k}, found)
            == RefreshedRows(rows, done, found)[k := rows[k].(cidrs := Wanted(rows[k], found))]
    ensures DrivenRules(held, rows, done + {k}, found)
            == DrivenRules(held, rows, done, found)[k := Driven(held[k], rows[k].cidrs, Wanted(rows[k], found))]
  {
  }

  /** A pass is one attempt on each record it reaches: recorded on the completed prefix, possibly
      unrecorded on the one it stops at, none behind that. */
  lemma PassIsOneAttemptEach(
      order: seq<string>, rows: map<string, AppConnection>, held: map<string, set<string>>,
      found: string -> seq<string>, n: nat, driven: bool, stored: bool, i: nat)
    requires held.Keys == rows.Keys == Elements(order) && n <= |order| && i < |order|
    requires NoRepeats(order)
    requires (driven ==> n < |order|) && (stored ==> driven)
    ensures var k := order[i];
            var want := Wanted(rows[k], found);
            var after := Rule(
              DrivenRules(held, rows, Reached(order, n, driven), found)[k],
              RefreshedRows(rows, Reached(order, n, stored), found)[k].cidrs);
            var before := Rule(held[k], rows[k].cidrs);
            && (i < n ==> after == After(before, Attempt(want, Recorded)))
            && (i == n ==> after == After(before, Attempt(want, if stored then Recorded
                                                                else if driven then Unrecorded else Ending.Refused)))
            && (i > n ==> after == before)
  {
  }
}
