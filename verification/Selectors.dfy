/** Which network domains a request means: label matching by counting, and the source by destination
    expansion.  pkg/connection-controller/awi_connection_controller.go */
module Selectors {
  import opened Records

  datatype NetworkDomain = NetworkDomain(
    id: string,
    name: string,
    kind: string,
    provider: string,
    labels: map<string, string>)

  /** strings.EqualFold.  `fold` maps a character to the representative of its case-folding class. */
  predicate EqualFold(fold: char -> char, s: string, t: string) {
    |s| == |t| && forall i :: 0 <= i < |s| ==> fold(s[i]) == fold(t[i])
  }

  /** With plain lower-casing for the fold it is equality in lower case, and without folding it is equality. */
  lemma EqualFoldIsEquality(s: string, t: string)
    ensures EqualFold(c => LowerChar(c), s, t) <==> ToLower(s) == ToLower(t)
    ensures EqualFold(c => c, s, t) <==> s == t
  {
    if ToLower(s) == ToLower(t) {
      forall i | 0 <= i < |s| ensures LowerChar(s[i]) == LowerChar(t[i]) {
        assert ToLower(s)[i] == ToLower(t)[i];
      }
    }
  }

  predicate SameLabel(fold: char -> char, k: string, v: string, ka: string, va: string) {
    EqualFold(fold, k, ka) && EqualFold(fold, v, va)
  }

  /** Every (selector label, domain label) pair that agrees up to case. */
  function Agreements(fold: char -> char, wanted: map<string, string>, all: map<string, string>)
    : set<(string, string)>
  {
    set k, ka | k in wanted && ka in all && SameLabel(fold, k, wanted[k], ka, all[ka]) :: (k, ka)
  }

  /** What the counting loop decides. */
  predicate CountMatches(fold: char -> char, wanted: map<string, string>, all: map<string, string>) {
    wanted != map[] && |Agreements(fold, wanted, all)| == |wanted|
  }

  /** What a reader of the selector expects. */
  predicate EveryLabelPresent(fold: char -> char, wanted: map<string, string>, all: map<string, string>) {
    forall k :: k in wanted ==> exists ka :: ka in all && SameLabel(fold, k, wanted[k], ka, all[ka])
  }

  /** No two labels of the domain are equal up to case in both key and value. */
  predicate NoTwinLabels(fold: char -> char, all: map<string, string>) {
    forall ka, kb :: ka in all && kb in all && SameLabel(fold, ka, all[ka], kb, all[kb]) ==> ka == kb
  }

  /** The agreements met when the selector keys `keys` are still to visit. */
  ghost function Met(fold: char -> char, wanted: map<string, string>, all: map<string, string>, keys: set<string>)
    : set<(string, string)>
  {
    set p | p in Agreements(fold, wanted, all) && p.0 !in keys
  }

  /** Those of one selector key when the domain keys `domainKeys` are still to visit. */
  ghost function MetAt(fold: char -> char, wanted: map<string, string>, all: map<string, string>,
                       k: string, domainKeys: set<string>): set<(string, string)>
  {
    set p | p in Agreements(fold, wanted, all) && p.0 == k && p.1 !in domainKeys
  }

  lemma MeetsOneMore(fold: char -> char, wanted: map<string, string>, all: map<string, string>,
                     k: string, domainKeys: set<string>, ka: string)
    requires k in wanted && ka in domainKeys && ka in all
    ensures (k, ka) !in MetAt(fold, wanted, all, k, domainKeys)
    ensures MetAt(fold, wanted, all, k, domainKeys - {ka})
            == MetAt(fold, wanted, all, k, domainKeys)
               + if SameLabel(fold, k, wanted[k], ka, all[ka]) then {(k, ka)} else {}
  {
  }

  lemma MetByKeys(fold: char -> char, wanted: map<string, string>, all: map<string, string>, keys: set<string>, k: string)
    requires k in keys
    ensures |Met(fold, wanted, all, keys - {k})| == |Met(fold, wanted, all, keys)| + |MetAt(fold, wanted, all, k, {})|
  {
    assert Met(fold, wanted, all, keys - {k}) == Met(fold, wanted, all, keys) + MetAt(fold, wanted, all, k, {});
    assert Met(fold, wanted, all, keys) !! MetAt(fold, wanted, all, k, {});
  }

  lemma NoneMetYet(fold: char -> char, wanted: map<string, string>, all: map<string, string>, k: string)
    ensures Met(fold, wanted, all, wanted.Keys) == {} && MetAt(fold, wanted, all, k, all.Keys) == {}
    ensures Met(fold, wanted, all, {}) == Agreements(fold, wanted, all)
  {
  }

  method CheckLabelsMatch(fold: char -> char, wanted: map<string, string>, all: map<string, string>)
    returns (matched: bool)
    ensures matched == CountMatches(fold, wanted, all)
  {
    if wanted == map[] {
      return false;
    }
    var counter: int := |wanted|;
    var keys := wanted.Keys;
    NoneMetYet(fold, wanted, all, "");
    while keys != {}
      invariant keys <= wanted.Keys
      invariant counter == |wanted| - |Met(fold, wanted, all, keys)|
      decreases |keys|
    {
      var k :| k in keys;
      NoneMetYet(fold, wanted, all, k);
      MetByKeys(fold, wanted, all, keys, k);
      ghost var before := counter;
      var domainKeys := all.Keys;
      while domainKeys != {}
        invariant domainKeys <= all.Keys
        invariant counter == before - |MetAt(fold, wanted, all, k, domainKeys)|
        decreases |domainKeys|
      {
        var ka :| ka in domainKeys;
        MeetsOneMore(fold, wanted, all, k, domainKeys, ka);
        if EqualFold(fold, k, ka) && EqualFold(fold, wanted[k], all[ka]) {
          counter := counter - 1;
        }
        domainKeys := domainKeys - {ka};
      }
      keys := keys - {k};
    }
    matched := counter == 0;
  }

  lemma InjectionKeepsSize<T, U>(pairs: set<(T, U)>)
    requires forall p, q :: p in pairs && q in pairs && p.0 == q.0 ==> p == q
    ensures |set p | p in pairs :: p.0| == |pairs|
  {
    var firsts := set p | p in pairs :: p.0;
    if pairs == {} {
      assert firsts == {};
    } else {
      var p :| p in pairs;
      var rest := pairs - {p};
      InjectionKeepsSize(rest);
      assert firsts == (set q | q in rest :: q.0) + {p.0};
    }
  }

  lemma SubsetSize<T>(a: set<T>, b: set<T>)
    requires a <= b
    ensures |a| <= |b| && (|a| == |b| ==> a == b)
  {
    assert b == a + (b - a);
  }

  /** In a domain without twin labels a selector label agrees with at most one domain label, so
      counting decides presence, whatever the selector's own spelling. */
  lemma CountingIsPresence(fold: char -> char, wanted: map<string, string>, all: map<string, string>)
    requires NoTwinLabels(fold, all) && wanted != map[]
    ensures CountMatches(fold, wanted, all) <==> EveryLabelPresent(fold, wanted, all)
  {
    var pairs := Agreements(fold, wanted, all);
    forall p, q | p in pairs && q in pairs && p.0 == q.0 ensures p == q {
      assert SameLabel(fold, p.1, all[p.1], q.1, all[q.1]);
    }
    InjectionKeepsSize(pairs);
    var present := set p | p in pairs :: p.0;
    SubsetSize(present, wanted.Keys);
    assert |wanted.Keys| == |wanted|;
    if EveryLabelPresent(fold, wanted, all) {
      forall k | k in wanted ensures k in present {
        var ka :| ka in all && SameLabel(fold, k, wanted[k], ka, all[ka]);
        assert (k, ka) in pairs;
      }
      assert present == wanted.Keys;
    } else {
      var k :| k in wanted && !exists ka :: ka in all && SameLabel(fold, k, wanted[k], ka, all[ka]);
      assert k !in present;
    }
  }

  /** With a twin, the selector that quotes one of them counts two agreements and is refused. */
  lemma TwinBreaksCounting(fold: char -> char, all: map<string, string>, ka: string, kb: string)
    requires ka in all && kb in all && ka != kb && SameLabel(fold, ka, all[ka], kb, all[kb])
    ensures var wanted := map[ka := all[ka]];
            EveryLabelPresent(fold, wanted, all) && !CountMatches(fold, wanted, all)
  {
    var wanted := map[ka := all[ka]];
    assert SameLabel(fold, ka, wanted[ka], ka, all[ka]);
    SubsetSize({(ka, ka), (ka, kb)}, Agreements(fold, wanted, all));
  }

  /** Counting answers the presence question for every selector exactly when the domain has no twins. */
  lemma CountingIsPresenceIffNoTwins(fold: char -> char, all: map<string, string>)
    ensures NoTwinLabels(fold, all) <==>
            forall wanted: map<string, string> | wanted != map[] ::
              CountMatches(fold, wanted, all) == EveryLabelPresent(fold, wanted, all)
  {
    if NoTwinLabels(fold, all) {
      forall wanted: map<string, string> | wanted != map[]
        ensures CountMatches(fold, wanted, all) == EveryLabelPresent(fold, wanted, all)
      {
        CountingIsPresence(fold, wanted, all);
      }
    } else {
      var ka, kb :| ka in all && kb in all && SameLabel(fold, ka, all[ka], kb, all[kb]) && ka != kb;
      TwinBreaksCounting(fold, all, ka, kb);
      assert map[ka := all[ka]] != map[] by {
        assert ka in map[ka := all[ka]];
      }
    }
  }

  /** One side of a request picks a domain by id, by name or by labels. */
  predicate Selects(fold: char -> char, s: Selector, nd: NetworkDomain) {
    || (s.id != "" && nd.id == s.id)
    || (s.name != "" && nd.name == s.name)
    || CountMatches(fold, s.labels, nd.labels)
  }

  function Matched(fold: char -> char, s: Selector, domains: seq<NetworkDomain>): seq<NetworkDomain> {
    if domains == [] then []
    else
      var last := domains[|domains| - 1];
      Matched(fold, s, domains[..|domains| - 1]) + if Selects(fold, s, last) then [last] else []
  }

  lemma {:induction false} MatchedMembers(fold: char -> char, s: Selector, domains: seq<NetworkDomain>)
    ensures forall nd :: nd in Matched(fold, s, domains) <==> nd in domains && Selects(fold, s, nd)
  {
    if domains != [] {
      MatchedMembers(fold, s, domains[..|domains| - 1]);
    }
  }

  function WithSource(base: ConnectionRequest, nd: NetworkDomain): ConnectionRequest {
    base.(source := base.source.(id := nd.id, kind := nd.kind, provider := nd.provider))
  }

  function WithDestination(base: ConnectionRequest, nd: NetworkDomain): ConnectionRequest {
    base.(destination := base.destination.(id := nd.id, kind := nd.kind, provider := nd.provider))
  }

  function Row(base: ConnectionRequest, d: NetworkDomain, sources: seq<NetworkDomain>): seq<ConnectionRequest> {
    seq(|sources|, j requires 0 <= j < |sources| => WithDestination(WithSource(base, sources[j]), d))
  }

  /** One request for each pair, destination by destination. */
  function Product(base: ConnectionRequest, destinations: seq<NetworkDomain>, sources: seq<NetworkDomain>)
    : (r: seq<ConnectionRequest>)
    ensures |r| == |destinations| * |sources|
  {
    if destinations == [] then []
    else
      Product(base, destinations[..|destinations| - 1], sources)
      + Row(base, destinations[|destinations| - 1], sources)
  }

  /** The place of every pair in the expansion. */
  lemma {:induction false} ProductAt(
      base: ConnectionRequest, destinations: seq<NetworkDomain>, sources: seq<NetworkDomain>, i: nat, j: nat)
    requires i < |destinations| && j < |sources|
    ensures 0 <= i * |sources| + j < |destinations| * |sources|
    ensures Product(base, destinations, sources)[i * |sources| + j]
            == WithDestination(WithSource(base, sources[j]), destinations[i])
  {
    var before := destinations[..|destinations| - 1];
    var front, row := Product(base, before, sources), Row(base, destinations[|destinations| - 1], sources);
    assert Product(base, destinations, sources) == front + row;
    if i < |before| {
      ProductAt(base, before, sources, i, j);
      assert (front + row)[i * |sources| + j] == front[i * |sources| + j];
    } else {
      assert i * |sources| == |front|;
      assert (front + row)[i * |sources| + j] == row[j];
    }
  }

  lemma Coordinates(m: nat, width: nat, height: nat) returns (i: nat, j: nat)
    requires m < height * width
    ensures i < height && j < width && m == i * width + j
  {
    assert width > 0;
    i, j := m / width, m % width;
    assert i * width < height * width;
  }

  /** A record for each selected pair and for no other. */
  lemma ProductMembers(base: ConnectionRequest, destinations: seq<NetworkDomain>, sources: seq<NetworkDomain>,
                       s: NetworkDomain, d: NetworkDomain)
    requires s in sources && d in destinations
    ensures WithDestination(WithSource(base, s), d) in Product(base, destinations, sources)
  {
    var i :| 0 <= i < |destinations| && destinations[i] == d;
    var j :| 0 <= j < |sources| && sources[j] == s;
    ProductAt(base, destinations, sources, i, j);
  }

  predicate DistinctIds(domains: seq<NetworkDomain>) {
    forall i, j :: 0 <= i < |domains| && 0 <= j < |domains| && domains[i].id == domains[j].id ==> i == j
  }

  /** The keys of one expansion do not collide. */
  lemma ProductKeysDistinct(
      base: ConnectionRequest, destinations: seq<NetworkDomain>, sources: seq<NetworkDomain>, m: nat, n: nat)
    requires DistinctIds(destinations) && DistinctIds(sources)
    requires forall nd :: nd in sources ==> ':' !in nd.id
    requires m < n < |destinations| * |sources|
    ensures var r := Product(base, destinations, sources);
            PairId(r[m].source.id, r[m].destination.id) != PairId(r[n].source.id, r[n].destination.id)
  {
    var r := Product(base, destinations, sources);
    var i, j := Coordinates(m, |sources|, |destinations|);
    var i', j' := Coordinates(n, |sources|, |destinations|);
    ProductAt(base, destinations, sources, i, j);
    ProductAt(base, destinations, sources, i', j');
    if PairId(r[m].source.id, r[m].destination.id) == PairId(r[n].source.id, r[n].destination.id) {
      PairIdInjective(r[m].source.id, r[m].destination.id, r[n].source.id, r[n].destination.id);
      assert false;
    }
  }

  /** The two selectors a stored record searches with: the ids its ends already carry, and the names and
      labels of its specification. */
  function SourceSelector(base: ConnectionRequest): Selector {
    base.config.source.(id := base.source.id)
  }

  function DestinationSelector(base: ConnectionRequest): Selector {
    base.config.destination.(id := base.destination.id)
  }

  /** None when one side matches no domain: the source reports an error. */
  function Expansion(fold: char -> char, base: ConnectionRequest, domains: seq<NetworkDomain>)
    : Option<seq<ConnectionRequest>>
  {
    var sources := Matched(fold, SourceSelector(base), domains);
    var destinations := Matched(fold, DestinationSelector(base), domains);
    if sources == [] || destinations == [] then None else Some(Product(base, destinations, sources))
  }

  /** A record searches for a pair of domains: each of its ends either has the domain's id already, or names the
      domain in its specification, or gives labels there that the domain's agree with. */
  ghost predicate Pairs(fold: char -> char, base: ConnectionRequest, sd: NetworkDomain, dd: NetworkDomain) {
    && (|| (base.source.id != "" && sd.id == base.source.id)
        || (base.config.source.name != "" && sd.name == base.config.source.name)
        || CountMatches(fold, base.config.source.labels, sd.labels))
    && (|| (base.destination.id != "" && dd.id == base.destination.id)
        || (base.config.destination.name != "" && dd.name == base.config.destination.name)
        || CountMatches(fold, base.config.destination.labels, dd.labels))
  }

  /** A request that is the record but for its ends, which are a pair of domains. */
  ghost predicate Between(base: ConnectionRequest, sd: NetworkDomain, dd: NetworkDomain, r: ConnectionRequest) {
    && r.source == base.source.(id := sd.id, kind := sd.kind, provider := sd.provider)
    && r.destination == base.destination.(id := dd.id, kind := dd.kind, provider := dd.provider)
    && r == base.(source := r.source, destination := r.destination)
  }

  /** The requests of an expansion are those between the pairs of domains the record searches for. */
  lemma PairsExpand(fold: char -> char, base: ConnectionRequest, domains: seq<NetworkDomain>)
    ensures Expansion(fold, base, domains).Some? <==>
              exists sd, dd :: sd in domains && dd in domains && Pairs(fold, base, sd, dd)
    ensures Expansion(fold, base, domains).Some? ==>
              forall r :: r in Expansion(fold, base, domains).value <==>
                exists sd, dd :: sd in domains && dd in domains && Pairs(fold, base, sd, dd) && Between(base, sd, dd, r)
  {
    var sources := Matched(fold, SourceSelector(base), domains);
    var destinations := Matched(fold, DestinationSelector(base), domains);
    MatchedMembers(fold, SourceSelector(base), domains);
    MatchedMembers(fold, DestinationSelector(base), domains);
    if sources != [] && destinations != [] {
      assert sources[0] in sources && destinations[0] in destinations;
      assert Pairs(fold, base, sources[0], destinations[0]);
      ExpansionMembers(fold, base, domains, sources, destinations);
    }
  }

  lemma ExpansionMembers(fold: char -> char, base: ConnectionRequest, domains: seq<NetworkDomain>,
                         sources: seq<NetworkDomain>, destinations: seq<NetworkDomain>)
    requires forall sd, dd :: sd in sources && dd in destinations <==>
               sd in domains && dd in domains && Pairs(fold, base, sd, dd)
    ensures forall r :: r in Product(base, destinations, sources) <==>
              exists sd, dd :: sd in domains && dd in domains && Pairs(fold, base, sd, dd) && Between(base, sd, dd, r)
  {
    var p := Product(base, destinations, sources);
    forall r | r in p
      ensures exists sd, dd :: sd in domains && dd in domains && Pairs(fold, base, sd, dd) && Between(base, sd, dd, r)
    {
      var m :| 0 <= m < |p| && p[m] == r;
      var i, j := Coordinates(m, |sources|, |destinations|);
      ProductAt(base, destinations, sources, i, j);
      assert sources[j] in sources && destinations[i] in destinations;
      assert Between(base, sources[j], destinations[i], r);
    }
    forall sd, dd, r | sd in domains && dd in domains && Pairs(fold, base, sd, dd) && Between(base, sd, dd, r) ensures r in p {
      ProductMembers(base, destinations, sources, sd, dd);
      assert r == WithDestination(WithSource(base, sd), dd);
    }
  }

  function Values(cells: seq<RequestCell>): (r: seq<ConnectionRequest>)
    reads cells
    ensures |r| == |cells|
  {
    seq(|cells|, i requires 0 <= i < |cells| reads cells => cells[i].value)
  }

  predicate Distinct<T(==)>(xs: seq<T>) {
    forall i, j :: 0 <= i < j < |xs| ==> xs[i] != xs[j]
  }

  lemma ValuesAppend(cells: seq<RequestCell>, cell: RequestCell)
    ensures Values(cells + [cell]) == Values(cells) + [cell.value]
  {
  }

  function Sourced(base: ConnectionRequest, sources: seq<NetworkDomain>): (r: seq<ConnectionRequest>)
    ensures |r| == |sources|
  {
    seq(|sources|, j requires 0 <= j < |sources| => WithSource(base, sources[j]))
  }

  /** One side's test, as both loops of findNetworkDomains write it. */
  method SelectsDomain(fold: char -> char, s: Selector, nd: NetworkDomain) returns (r: bool)
    ensures r == Selects(fold, s, nd)
  {
    var byLabels := CheckLabelsMatch(fold, s.labels, nd.labels);
    r := (s.id != "" && nd.id == s.id) || (s.name != "" && nd.name == s.name) || byLabels;
  }

  /** The inner loop: one fresh request for each source, all with the same destination. */
  method AppendRow(cells: seq<RequestCell>, withSource: seq<ConnectionRequest>, nd: NetworkDomain)
    returns (more: seq<RequestCell>)
    requires Distinct(cells)
    ensures Distinct(more) && |more| == |cells| + |withSource| && more[..|cells|] == cells
    ensures fresh(more[|cells|..])
    ensures Values(more) ==
            Values(cells) + seq(|withSource|, j requires 0 <= j < |withSource| => WithDestination(withSource[j], nd))
  {
    more := cells;
    ghost var row := seq(|withSource|, j requires 0 <= j < |withSource| => WithDestination(withSource[j], nd));
    for j := 0 to |withSource|
      invariant |more| == |cells| + j && more[..|cells|] == cells && Distinct(more)
      invariant fresh(more[|cells|..])
      invariant Values(more) == Values(cells) + row[..j]
    {
      var cell := new RequestCell(WithDestination(withSource[j], nd));
      ValuesAppend(more, cell);
      assert (more + [cell])[|cells|..] == more[|cells|..] + [cell];
      more := more + [cell];
    }
    assert row[..|withSource|] == row;
  }

  /** The loop over the source side. */
  method FindSources(fold: char -> char, base: ConnectionRequest, domains: seq<NetworkDomain>)
    returns (withSource: seq<ConnectionRequest>)
    ensures withSource == Sourced(base, Matched(fold, SourceSelector(base), domains))
  {
    withSource := [];
    for i := 0 to |domains|
      invariant withSource == Sourced(base, Matched(fold, SourceSelector(base), domains[..i]))
    {
      var selected := SelectsDomain(fold, SourceSelector(base), domains[i]);
      assert domains[..i + 1][..i] == domains[..i];
      if selected {
        withSource := withSource + [WithSource(base, domains[i])];
      }
    }
    assert domains[..|domains|] == domains;
  }

  lemma ProductOneMore(base: ConnectionRequest, destinations: seq<NetworkDomain>, d: NetworkDomain, sources: seq<NetworkDomain>)
    ensures Product(base, destinations + [d], sources) == Product(base, destinations, sources) + Row(base, d, sources)
    ensures Row(base, d, sources) ==
            seq(|Sourced(base, sources)|, j requires 0 <= j < |sources| => WithDestination(Sourced(base, sources)[j], d))
  {
    assert (destinations + [d])[..|destinations|] == destinations;
  }

  /** The loop over the destination side. */
  method ExpandDestinations(fold: char -> char, base: ConnectionRequest, domains: seq<NetworkDomain>,
                            withSource: seq<ConnectionRequest>, ghost sources: seq<NetworkDomain>)
    returns (cells: seq<RequestCell>)
    requires withSource == Sourced(base, sources)
    ensures Values(cells) == Product(base, Matched(fold, DestinationSelector(base), domains), sources)
    ensures Distinct(cells) && fresh(cells)
  {
    cells := [];
    ghost var destinations: seq<NetworkDomain> := [];
    for i := 0 to |domains|
      invariant destinations == Matched(fold, DestinationSelector(base), domains[..i])
      invariant Values(cells) == Product(base, destinations, sources)
      invariant Distinct(cells) && fresh(cells)
    {
      var selected := SelectsDomain(fold, DestinationSelector(base), domains[i]);
      assert domains[..i + 1][..i] == domains[..i];
      if selected {
        ProductOneMore(base, destinations, domains[i], sources);
        var more := AppendRow(cells, withSource, domains[i]);
        assert more == cells + more[|cells|..];
        cells := more;
        destinations := destinations + [domains[i]];
      }
    }
    assert domains[..|domains|] == domains;
  }

  method FindNetworkDomains(fold: char -> char, base: ConnectionRequest, domains: seq<NetworkDomain>)
    returns (found: bool, cells: seq<RequestCell>)
    ensures found == Expansion(fold, base, domains).Some?
    ensures found ==> Values(cells) == Expansion(fold, base, domains).value
    ensures Distinct(cells) && fresh(cells)
    ensures !found ==> cells == []
    ensures found <==> (exists sd, dd :: sd in domains && dd in domains && Pairs(fold, base, sd, dd))
    ensures forall r :: r in Values(cells) <==>
              exists sd, dd :: sd in domains && dd in domains && Pairs(fold, base, sd, dd) && Between(base, sd, dd, r)
  {
    PairsExpand(fold, base, domains);
    var withSource := FindSources(fold, base, domains);
    if |withSource| == 0 {
      return false, [];
    }
    ghost var sources := Matched(fold, SourceSelector(base), domains);
    cells := ExpandDestinations(fold, base, domains, withSource, sources);
    found := |cells| != 0;
    assert |cells| == |Matched(fold, DestinationSelector(base), domains)| * |sources|;
  }
}
