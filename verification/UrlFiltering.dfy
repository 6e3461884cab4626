/** URL filtering: a filtering that refers to an allow list or a deny list, made and removed list by list.
    createURLFiltering (pkg/connection-controller/awi_connection_controller.go), deleteURLFiltering and
    DeleteAppConnection (pkg/connection-controller/disconnect.go). */
module UrlFiltering {
  import opened Records

  /** The empty string is no reference. */
  datatype Filtering = Filtering(allow: string, deny: string)

  datatype Graph = Graph(
    allowlists: map<string, seq<string>>,
    denylists: map<string, seq<string>>,
    filterings: map<string, Filtering>)

  datatype Step =
    | PutAllow(id: string, entries: seq<string>)
    | PutDeny(id: string, entries: seq<string>)
    | PutFiltering(id: string, filtering: Filtering)
    | DropFiltering(id: string)
    | DropAllow(id: string)
    | DropDeny(id: string)

  function Apply(g: Graph, step: Step): Graph {
    match step
    case PutAllow(id, entries) => g.(allowlists := g.allowlists[id := entries])
    case PutDeny(id, entries) => g.(denylists := g.denylists[id := entries])
    case PutFiltering(id, filtering) => g.(filterings := g.filterings[id := filtering])
    case DropFiltering(id) => g.(filterings := g.filterings - {id})
    case DropAllow(id) => g.(allowlists := g.allowlists - {id})
    case DropDeny(id) => g.(denylists := g.denylists - {id})
  }

  function Run(g: Graph, steps: seq<Step>): Graph {
    if steps == [] then g else Apply(Run(g, steps[..|steps| - 1]), steps[|steps| - 1])
  }

  /** No reference dangles, and no list has two filterings. */
  predicate Sound(g: Graph) {
    && "" !in g.allowlists && "" !in g.denylists
    && (forall f :: f in g.filterings && g.filterings[f].allow != "" ==> g.filterings[f].allow in g.allowlists)
    && (forall f :: f in g.filterings && g.filterings[f].deny != "" ==> g.filterings[f].deny in g.denylists)
    && (forall f, f' :: f in g.filterings && f' in g.filterings && f != f' ==> Apart(g.filterings[f], g.filterings[f']))
  }

  predicate Apart(a: Filtering, b: Filtering) {
    (a.allow != "" ==> a.allow != b.allow) && (a.deny != "" ==> a.deny != b.deny)
  }

  /** A list no filtering refers to. */
  predicate Orphan(g: Graph, allow: bool, l: string) {
    if allow then l in g.allowlists && forall f :: f in g.filterings ==> g.filterings[f].allow != l
    else l in g.denylists && forall f :: f in g.filterings ==> g.filterings[f].deny != l
  }

  /** Two graphs with the same orphans but for some. */
  ghost predicate OrphansGrow(g: Graph, g': Graph, more: set<(bool, string)>) {
    forall allow, l :: Orphan(g', allow, l) <==> Orphan(g, allow, l) || (allow, l) in more
  }

  /** The calls of a creation; None for an access type that is neither "deny" nor "allow". */
  function CreatePlan(access: string, entries: seq<string>, listId: string, id: string): Option<seq<Step>> {
    if access == "deny" then Some([PutDeny(listId, entries), PutFiltering(id, Filtering("", listId))])
    else if access == "allow" then Some([PutAllow(listId, entries), PutFiltering(id, Filtering(listId, ""))])
    else None
  }

  /** The calls of a deletion; None when there is no such filtering. */
  function DeletePlan(g: Graph, id: string): Option<seq<Step>> {
    if id !in g.filterings then None
    else
      var f := g.filterings[id];
      Some([DropFiltering(id)] + (if f.allow != "" then [DropAllow(f.allow)] else [])
                               + (if f.deny != "" then [DropDeny(f.deny)] else []))
  }

  /** Ids vManage has not given out yet. */
  predicate Unused(g: Graph, listId: string, id: string) {
    && listId != "" && id != "" && id !in g.filterings && listId !in g.allowlists && listId !in g.denylists
  }

  lemma RunOne(g: Graph, a: Step)
    ensures Run(g, [a]) == Apply(g, a)
  {
  }

  lemma RunTwo(g: Graph, a: Step, b: Step)
    ensures Run(g, [a, b]) == Apply(Apply(g, a), b)
  {
    assert [a, b][..1] == [a];
    RunOne(g, a);
  }

  function Ref(f: Filtering, allow: bool): string {
    if allow then f.allow else f.deny
  }

  lemma FilteringAdopts(g: Graph, id: string, filtering: Filtering)
    requires id !in g.filterings
    ensures var g' := Apply(g, PutFiltering(id, filtering));
            forall allow, l :: Orphan(g', allow, l) <==> Orphan(g, allow, l) && l != Ref(filtering, allow)
  {
    var g' := Apply(g, PutFiltering(id, filtering));
    assert g'.filterings[id] == filtering;
    forall allow, l ensures Orphan(g', allow, l) <==> Orphan(g, allow, l) && l != Ref(filtering, allow) {
      forall f | f in g.filterings ensures f in g'.filterings && g'.filterings[f] == g.filterings[f] {}
    }
  }

  /** Dropping a filtering leaves its lists to nobody: no other one refers to them. */
  lemma FilteringAbandons(g: Graph, id: string)
    requires Sound(g) && id in g.filterings
    ensures var g' := Apply(g, DropFiltering(id));
            && Sound(g')
            && forall allow, l :: Orphan(g', allow, l) <==> Orphan(g, allow, l) || (l != "" && l == Ref(g.filterings[id], allow))
  {
    var g' := Apply(g, DropFiltering(id));
    forall allow, l ensures Orphan(g', allow, l) <==> Orphan(g, allow, l) || (l != "" && l == Ref(g.filterings[id], allow)) {
      forall f | f in g'.filterings ensures f in g.filterings && Apart(g.filterings[f], g.filterings[id]) {}
      if Orphan(g', allow, l) && !Orphan(g, allow, l) {
        var f :| f in g.filterings && Ref(g.filterings[f], allow) == l;
        assert f != id ==> f in g'.filterings && Ref(g'.filterings[f], allow) == l;
      }
    }
  }

  /** The first call of a creation adds a list without a filtering. */
  lemma ListComesAlone(g: Graph, access: string, entries: seq<string>, listId: string, id: string)
    requires Sound(g) && Unused(g, listId, id) && CreatePlan(access, entries, listId, id).Some?
    ensures var g1 := Apply(g, CreatePlan(access, entries, listId, id).value[0]);
            Sound(g1) && OrphansGrow(g, g1, {(access == "allow", listId)})
  {
  }

  /** The second gives it one. */
  lemma ListIsAdopted(g: Graph, access: string, entries: seq<string>, listId: string, id: string)
    requires Sound(g) && Unused(g, listId, id) && CreatePlan(access, entries, listId, id).Some?
    ensures var plan := CreatePlan(access, entries, listId, id).value;
            var g2 := Apply(Apply(g, plan[0]), plan[1]);
            Sound(g2) && OrphansGrow(g, g2, {})
  {
    var plan := CreatePlan(access, entries, listId, id).value;
    ListComesAlone(g, access, entries, listId, id);
    FilteringAdopts(Apply(g, plan[0]), id, plan[1].filtering);
  }

  /** After any number of its calls a creation has left the graph sound, and one more list without a
      filtering exactly when it stopped between its two calls. */
  lemma CreationInPart(g: Graph, access: string, entries: seq<string>, listId: string, id: string, n: nat)
    requires Sound(g) && Unused(g, listId, id)
    requires CreatePlan(access, entries, listId, id).Some? && n <= 2
    ensures var g' := Run(g, CreatePlan(access, entries, listId, id).value[..n]);
            Sound(g') && OrphansGrow(g, g', if n == 1 then {(access == "allow", listId)} else {})
  {
    var plan := CreatePlan(access, entries, listId, id).value;
    if n == 1 {
      assert plan[..1] == [plan[0]];
      RunOne(g, plan[0]);
      ListComesAlone(g, access, entries, listId, id);
    } else if n == 2 {
      assert plan[..2] == [plan[0], plan[1]];
      RunTwo(g, plan[0], plan[1]);
      ListIsAdopted(g, access, entries, listId, id);
    }
  }

  /** A filtering as createURLFiltering makes them: one list, of one kind. */
  predicate OneList(f: Filtering) {
    (f.allow == "") != (f.deny == "")
  }

  /** The one list of a filtering, and the call that drops it. */
  function ListOf(f: Filtering): string {
    if f.allow != "" then f.allow else f.deny
  }

  function DropList(f: Filtering): Step {
    if f.allow != "" then DropAllow(f.allow) else DropDeny(f.deny)
  }

  lemma DeletePlanIs(g: Graph, id: string)
    requires id in g.filterings && OneList(g.filterings[id])
    ensures DeletePlan(g, id) == Some([DropFiltering(id), DropList(g.filterings[id])])
  {
    var steps := [DropFiltering(id), DropList(g.filterings[id])];
    assert DeletePlan(g, id).value == steps;
  }

  lemma ListGoesLast(g: Graph, id: string)
    requires Sound(g) && id in g.filterings && OneList(g.filterings[id])
    ensures var g2 := Apply(Apply(g, DropFiltering(id)), DropList(g.filterings[id]));
            Sound(g2) && OrphansGrow(g, g2, {})
  {
    FilteringAbandons(g, id);
    var f := g.filterings[id];
    forall f' | f' in g.filterings && f' != id ensures Apart(g.filterings[f'], f) {}
    var g2 := Apply(Apply(g, DropFiltering(id)), DropList(f));
    forall allow, l ensures Orphan(g2, allow, l) <==> Orphan(g, allow, l) {
      if allow == (f.allow != "") && l == ListOf(f) {
        assert Ref(g.filterings[id], allow) == l;
      } else {
        assert Orphan(g2, allow, l) <==> Orphan(Apply(g, DropFiltering(id)), allow, l);
      }
    }
  }

  /** A deletion stays sound too, and abandons the filtering's list exactly when it stops between the two. */
  lemma DeletionInPart(g: Graph, id: string, n: nat)
    requires Sound(g) && id in g.filterings && OneList(g.filterings[id]) && n <= 2
    ensures DeletePlan(g, id).Some? && |DeletePlan(g, id).value| == 2
    ensures var f := g.filterings[id];
            var g' := Run(g, DeletePlan(g, id).value[..n]);
            Sound(g') && OrphansGrow(g, g', if n == 1 then {(f.allow != "", ListOf(f))} else {})
  {
    DeletePlanIs(g, id);
    var plan := DeletePlan(g, id).value;
    if n == 1 {
      assert plan[..1] == [plan[0]];
      RunOne(g, plan[0]);
      FilteringAbandons(g, id);
    } else if n == 2 {
      assert plan[..2] == [plan[0], plan[1]];
      RunTwo(g, plan[0], plan[1]);
      ListGoesLast(g, id);
    }
  }

  /** Creating and then deleting leaves no trace. */
  lemma RoundTrip(g: Graph, access: string, entries: seq<string>, listId: string, id: string)
    requires Unused(g, listId, id) && CreatePlan(access, entries, listId, id).Some?
    ensures var made := Run(g, CreatePlan(access, entries, listId, id).value);
            DeletePlan(made, id).Some? && Run(made, DeletePlan(made, id).value) == g
  {
    var plan := CreatePlan(access, entries, listId, id).value;
    assert plan == [plan[0], plan[1]];
    RunTwo(g, plan[0], plan[1]);
    var made := Apply(Apply(g, plan[0]), plan[1]);
    DeletePlanIs(made, id);
    RunTwo(made, DropFiltering(id), DropList(made.filterings[id]));
    assert g.filterings[id := plan[1].filtering] - {id} == g.filterings;
    if access == "deny" {
      assert g.denylists[listId := entries] - {listId} == g.denylists;
    } else {
      assert g.allowlists[listId := entries] - {listId} == g.allowlists;
    }
  }

  /** What a creation goes by: the kind of the source, whether vManage knows its VRF, and the access types of the
      policies the request matches, none when it names no policy; None when a policy it names is missing. */
  datatype Request = Request(kind: string, vrfKnown: bool, policies: Option<seq<string>>)

  function Access(r: Request): string {
    if r.policies.None? then "" else if r.policies.value == [] then "deny" else ToLower(r.policies.value[0])
  }

  predicate Acceptable(r: Request) {
    ToLower(r.kind) == "vrf" && r.vrfKnown && (Access(r) == "deny" || Access(r) == "allow")
  }

  /** The access types a request may have, from the policies it matches. */
  lemma AcceptableIff(r: Request)
    ensures Acceptable(r) <==>
              && ToLower(r.kind) == "vrf" && r.vrfKnown && r.policies.Some?
              && (r.policies.value == [] || ToLower(r.policies.value[0]) == "deny" || ToLower(r.policies.value[0]) == "allow")
  {
  }

  /** A filtering that has been made for a request: with a deny list of its own for access denied, which is so
      without a policy, and with an allow list of its own for access allowed. */
  predicate Filters(g: Graph, g': Graph, r: Request, entries: seq<string>, listId: string, id: string) {
    var allowed := r.policies.Some? && r.policies.value != [] && ToLower(r.policies.value[0]) == "allow";
    && g'.filterings == g.filterings[id := if allowed then Filtering(listId, "") else Filtering("", listId)]
    && g'.allowlists == (if allowed then g.allowlists[listId := entries] else g.allowlists)
    && g'.denylists == (if allowed then g.denylists else g.denylists[listId := entries])
  }

  lemma CreatedFilters(g: Graph, r: Request, entries: seq<string>, listId: string, id: string)
    requires Acceptable(r)
    ensures var plan := CreatePlan(Access(r), entries, listId, id); plan.Some? && |plan.value| == 2
    ensures Filters(g, Run(g, CreatePlan(Access(r), entries, listId, id).value[..2]), r, entries, listId, id)
  {
    var plan := CreatePlan(Access(r), entries, listId, id).value;
    assert plan[..2] == [plan[0], plan[1]];
    RunTwo(g, plan[0], plan[1]);
  }

  /** A filtering that has been removed, with its list. */
  predicate Cleared(g: Graph, g': Graph, id: string) {
    && id in g.filterings
    && g'.filterings == g.filterings - {id}
    && g'.allowlists == g.allowlists - {g.filterings[id].allow}
    && g'.denylists == g.denylists - {g.filterings[id].deny}
  }

  lemma DeletedIsCleared(g: Graph, id: string)
    requires Sound(g) && id in g.filterings && OneList(g.filterings[id])
    ensures DeletePlan(g, id).Some? && |DeletePlan(g, id).value| == 2
    ensures Cleared(g, Run(g, DeletePlan(g, id).value), id)
  {
    DeletePlanIs(g, id);
    RunTwo(g, DropFiltering(id), DropList(g.filterings[id]));
    assert g.allowlists - {""} == g.allowlists && g.denylists - {""} == g.denylists;
  }

  class Filterings {
    var graph: Graph
    /** The filtering each app connection record of this kind names. */
    var appConnections: map<string, string>
    /** How each call ends, in the order the calls are made: any sequence of replies. */
    const replies: nat -> Reply
    var calls: nat

    ghost predicate Valid()
      reads this
    {
      Sound(graph) && forall f :: f in graph.filterings ==> OneList(graph.filterings[f])
    }

    /** No call since the n-th has failed. */
    ghost predicate Smooth(n: nat)
      reads this
    {
      SmoothBetween(replies, n, calls)
    }

    constructor (replies: nat -> Reply)
      ensures Valid() && this.replies == replies && calls == 0
      ensures graph == Graph(map[], map[], map[]) && appConnections == map[]
    {
      this.replies, calls := replies, 0;
      graph, appConnections := Graph(map[], map[], map[]), map[];
    }

    method Other() returns (ok: bool)
      modifies this`calls
      ensures calls == old(calls) + 1 && ok == replies(old(calls)).Done?
    {
      ok := replies(calls).Done?;
      calls := calls + 1;
    }

    /** The next call of a plan.  It may fail, with or without its effect. */
    method Call(step: Step, ghost start: Graph, ghost plan: seq<Step>, ghost k: nat) returns (ok: bool, ghost done: nat)
      requires k < |plan| && plan[k] == step && graph == Run(start, plan[..k])
      modifies this`graph, this`calls
      ensures calls == old(calls) + 1 && ok == replies(old(calls)).Done?
      ensures done == (if replies(old(calls)).TookEffect() then k + 1 else k) && graph == Run(start, plan[..done])
    {
      assert plan[..k + 1][..k] == plan[..k];
      var reply := replies(calls);
      calls := calls + 1;
      done := k;
      if reply.TookEffect() {
        graph := Apply(graph, step);
        done := k + 1;
      }
      ok := reply.Done?;
    }

    /** Whatever fails, the calls made are a prefix of the plan; success means all of them and a record.  When
        no call fails, the request itself is the one cause of an error. */
    method CreateURLFiltering(record: string, request: Request, entries: seq<string>, listId: string, id: string)
      returns (err: bool, ghost done: nat)
      requires Valid() && Unused(graph, listId, id)
      modifies this
      ensures Valid() && calls >= old(calls)
      ensures done <= 2 && (!err ==> done == 2)
      ensures if !Acceptable(request) then err && graph == old(graph)
              else graph == Run(old(graph), CreatePlan(Access(request), entries, listId, id).value[..done])
      ensures appConnections == if err then old(appConnections) else old(appConnections)[record := id]
      ensures Smooth(old(calls)) ==> (err <==> !Acceptable(request))
      ensures !err ==> Filters(old(graph), graph, request, entries, listId, id)
    {
      if Acceptable(request) {
        CreatedFilters(graph, request, entries, listId, id);
      }
      done := 0;
      if ToLower(request.kind) != "vrf" { return true, 0; }
      var ok := Other();
      if !ok || !request.vrfKnown { return true, 0; }
      ok := Other();
      if !ok || request.policies.None? { return true, 0; }
      var access := "deny";
      if |request.policies.value| > 0 {
        access := ToLower(request.policies.value[0]);
      }
      if access != "deny" && access != "allow" { return true, 0; }
      err, done := MakeFiltering(record, access, entries, listId, id);
    }

    /** Its calls: the list, the filtering, and then the record. */
    method MakeFiltering(record: string, access: string, entries: seq<string>, listId: string, id: string)
      returns (err: bool, ghost done: nat)
      requires Valid() && Unused(graph, listId, id) && (access == "deny" || access == "allow")
      modifies this
      ensures Valid() && calls >= old(calls)
      ensures done <= 2 && (!err ==> done == 2)
      ensures graph == Run(old(graph), CreatePlan(access, entries, listId, id).value[..done])
      ensures appConnections == if err then old(appConnections) else old(appConnections)[record := id]
      ensures Smooth(old(calls)) ==> !err
    {
      ghost var g := graph;
      ghost var plan := CreatePlan(access, entries, listId, id).value;
      CreationStaysValid(access, entries, listId, id);
      var filtering := if access == "deny" then Filtering("", listId) else Filtering(listId, "");
      var ok;
      ok, done := Call(if access == "deny" then PutDeny(listId, entries) else PutAllow(listId, entries), g, plan, 0);
      if !ok { return true, done; }
      ok, done := Call(PutFiltering(id, filtering), g, plan, 1);
      if !ok { return true, done; }
      ok := Other();
      if ok {
        appConnections := appConnections[record := id];
      }
      err := !ok;
    }

    lemma CreationStaysValid(access: string, entries: seq<string>, listId: string, id: string)
      requires Valid() && Unused(graph, listId, id) && CreatePlan(access, entries, listId, id).Some?
      ensures forall n :: 0 <= n <= 2 ==>
                var g' := Run(graph, CreatePlan(access, entries, listId, id).value[..n]);
                Sound(g') && forall f :: f in g'.filterings ==> OneList(g'.filterings[f])
    {
      var plan := CreatePlan(access, entries, listId, id).value;
      forall n | 0 <= n <= 2
        ensures var g' := Run(graph, plan[..n]); Sound(g') && forall f :: f in g'.filterings ==> OneList(g'.filterings[f])
      {
        CreationInPart(graph, access, entries, listId, id, n);
        RunOne(graph, plan[0]);
        RunTwo(graph, plan[0], plan[1]);
        assert plan[..0] == [] && plan[..1] == [plan[0]] && plan[..2] == [plan[0], plan[1]];
      }
    }

    /** deleteURLFiltering.  It cannot succeed on a filtering that is not there, and fails on no other unless a
        call does. */
    method DeleteURLFiltering(id: string) returns (err: bool, ghost done: nat)
      requires Valid()
      modifies this`graph, this`calls
      ensures Valid() && calls >= old(calls)
      ensures Smooth(old(calls)) ==> (err <==> id !in old(graph).filterings)
      ensures id !in old(graph).filterings ==> err && graph == old(graph)
      ensures id in old(graph).filterings ==>
                done <= 2 && graph == Run(old(graph), DeletePlan(old(graph), id).value[..done]) && (!err ==> done == 2)
      ensures !err ==> Cleared(old(graph), graph, id)
    {
      ghost var g := graph;
      done := 0;
      var ok := Other();
      if !ok || id !in graph.filterings { return true, 0; }
      var filtering := graph.filterings[id];
      ghost var plan := DeletePlan(graph, id).value;
      DeletionStaysValid(id);
      ok, done := Call(DropFiltering(id), g, plan, 0);
      if !ok { return true, done; }
      if filtering.allow != "" {
        ok, done := Call(DropAllow(filtering.allow), g, plan, 1);
        if !ok { return true, done; }
      }
      if filtering.deny != "" {
        ok, done := Call(DropDeny(filtering.deny), g, plan, 1);
        if !ok { return true, done; }
      }
      err := false;
      DeletedIsCleared(g, id);
      assert plan[..2] == plan;
    }

    lemma DeletionStaysValid(id: string)
      requires Valid() && id in graph.filterings
      ensures DeletePlan(graph, id) == Some([DropFiltering(id), DropList(graph.filterings[id])])
      ensures forall n :: 0 <= n <= 2 ==> Sound(Run(graph, DeletePlan(graph, id).value[..n]))
      ensures forall n :: 0 <= n <= 2 ==> Run(graph, DeletePlan(graph, id).value[..n]).filterings.Keys <= graph.filterings.Keys
      ensures forall n, f :: 0 <= n <= 2 && f in Run(graph, DeletePlan(graph, id).value[..n]).filterings ==>
                OneList(Run(graph, DeletePlan(graph, id).value[..n]).filterings[f])
    {
      DeletePlanIs(graph, id);
      var plan := DeletePlan(graph, id).value;
      forall n | 0 <= n <= 2
        ensures Sound(Run(graph, plan[..n])) && Run(graph, plan[..n]).filterings.Keys <= graph.filterings.Keys
        ensures forall f :: f in Run(graph, plan[..n]).filterings ==> OneList(Run(graph, plan[..n]).filterings[f])
      {
        DeletionInPart(graph, id, n);
        RunOne(graph, plan[0]);
        RunTwo(graph, plan[0], plan[1]);
        assert plan[..0] == [] && plan[..1] == [plan[0]] && plan[..2] == [plan[0], plan[1]];
      }
    }

    /** DeleteAppConnection for such a record: the record goes last.  A deletion that has lost the filtering
        but not finished leaves a record that no later attempt can remove; and when no call fails that is the
        one cause of an error. */
    method DeleteAppConnection(record: string) returns (err: bool)
      requires Valid()
      modifies this
      ensures Valid() && calls >= old(calls)
      ensures Smooth(old(calls)) ==>
                (err <==> record in old(appConnections) && old(appConnections)[record] !in old(graph).filterings)
      ensures err ==> appConnections == old(appConnections)
      ensures !err ==> appConnections == old(appConnections) - {record}
      ensures record in old(appConnections) && old(appConnections)[record] !in old(graph).filterings ==>
                err && graph == old(graph)
      ensures !err && record in old(appConnections) ==>
                graph == Run(old(graph), DeletePlan(old(graph), old(appConnections)[record]).value)
      ensures !err && record in old(appConnections) ==> Cleared(old(graph), graph, old(appConnections)[record])
    {
      var ok := Other();
      if !ok { return true; }
      if record !in appConnections { return false; }
      ghost var g := graph;
      ghost var done;
      err, done := DeleteURLFiltering(appConnections[record]);
      if err { return; }
      ghost var plan := DeletePlan(g, appConnections[record]).value;
      assert plan[..2] == plan;
      ok := Other();
      if !ok { return true; }
      appConnections := appConnections - {record};
    }
  }
}
