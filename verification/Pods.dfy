/** Selecting pods by labels, as an OR or as an AND: getSourceDataForKubernetesLabels
    (pkg/connection-controller/kubernetes.go). */
module Pods {
  import opened Records

  const CONDITION := "condition"
  const OR := "OR"

  datatype Pod = Pod(name: string, ip: string, labels: map<string, string>)

  type Labels = map<string, string>

  predicate Carries(pod: Pod, labels: Labels) {
    forall k :: k in labels ==> k in pod.labels && pod.labels[k] == labels[k]
  }

  /** A pod with at least one of the labels, the condition itself not counted. */
  predicate CarriesOne(pod: Pod, labels: Labels) {
    exists k :: k in labels && k != CONDITION && Carries(pod, map[k := labels[k]])
  }

  function Filter(pods: seq<Pod>, labels: Labels): seq<Pod> {
    if pods == [] then []
    else
      var front := Filter(pods[..|pods| - 1], labels);
      if Carries(pods[|pods| - 1], labels) then front + [pods[|pods| - 1]] else front
  }

  lemma {:induction false} FilterMembers(pods: seq<Pod>, labels: Labels)
    ensures forall p :: p in Filter(pods, labels) <==> p in pods && Carries(p, labels)
  {
    if pods != [] {
      FilterMembers(pods[..|pods| - 1], labels);
    }
  }

  /** The cluster's listing, filtered by labels. */
  method ListPods(pods: seq<Pod>, labels: Labels) returns (listed: seq<Pod>)
    ensures listed == Filter(pods, labels)
  {
    listed := [];
    for i := 0 to |pods|
      invariant listed == Filter(pods[..i], labels)
    {
      assert pods[..i + 1][..i] == pods[..i];
      if Carries(pods[i], labels) {
        listed := listed + [pods[i]];
      }
    }
    assert pods[..|pods|] == pods;
  }

  function Cidr(ip: string): string { ip + "/32" }

  lemma CidrInjective(a: string, b: string)
    requires Cidr(a) == Cidr(b)
    ensures a == b
  {
    assert Cidr(a)[..|a|] == a && Cidr(b)[..|b|] == b;
  }

  function Ips(pods: seq<Pod>): set<string> {
    set p | p in pods :: p.ip
  }

  /** The /32s of the addresses that are set. */
  function Cidrs(ips: set<string>): set<string> {
    set ip | ip in ips && ip != "" :: Cidr(ip)
  }

  /** The addresses an OR selection should let in. */
  ghost function AnyOf(pods: seq<Pod>, labels: Labels): set<string> {
    Cidrs(set p | p in pods && CarriesOne(p, labels) :: p.ip)
  }

  /** The addresses an AND selection should let in. */
  ghost function AllOf(pods: seq<Pod>, labels: Labels): set<string> {
    Cidrs(set p | p in pods && Carries(p, labels) :: p.ip)
  }

  predicate NoRepeats(xs: seq<string>) {
    forall i, j :: 0 <= i < j < |xs| ==> xs[i] != xs[j]
  }

  /** The addresses of the pods that carry one of some labels. */
  ghost function IpsFor(pods: seq<Pod>, labels: Labels, keys: set<string>): set<string>
    requires keys <= labels.Keys
  {
    set p, k | k in keys && k != CONDITION && p in pods && Carries(p, map[k := labels[k]]) :: p.ip
  }

  lemma IpsForOneMore(pods: seq<Pod>, labels: Labels, keys: set<string>, k: string)
    requires keys <= labels.Keys && k in labels && k != CONDITION
    ensures IpsFor(pods, labels, keys + {k}) == IpsFor(pods, labels, keys) + Ips(Filter(pods, map[k := labels[k]]))
  {
    FilterMembers(pods, map[k := labels[k]]);
  }

  method AddIps(podIpMap: set<string>, pods: seq<Pod>) returns (more: set<string>)
    ensures more == podIpMap + Ips(pods)
  {
    more := podIpMap;
    for i := 0 to |pods|
      invariant more == podIpMap + Ips(pods[..i])
    {
      assert pods[..i + 1] == pods[..i] + [pods[i]];
      more := more + {pods[i].ip};
    }
    assert pods[..|pods|] == pods;
  }

  /** The pods' addresses for one label each, gathered in a set; map and set are visited in any order.
      `matched` is what the program reports as matched: the listing of the label it visited last. */
  method SelectAny(pods: seq<Pod>, labels: Labels) returns (cidrs: seq<string>, matched: seq<Pod>)
    ensures Elements(cidrs) == AnyOf(pods, labels)
    ensures NoRepeats(cidrs)
    ensures matched == [] || exists k :: k in labels && k != CONDITION && matched == Filter(pods, map[k := labels[k]])
  {
    var podIpMap: set<string> := {};
    matched := [];
    var todo := labels.Keys;
    ghost var seen: set<string> := {};
    while todo != {}
      invariant todo <= labels.Keys && seen == labels.Keys - todo
      invariant podIpMap == IpsFor(pods, labels, seen)
      invariant matched == [] || exists k :: k in labels && k != CONDITION && matched == Filter(pods, map[k := labels[k]])
      decreases |todo|
    {
      var k :| k in todo;
      todo := todo - {k};
      if k != CONDITION {
        matched := ListPods(pods, map[k := labels[k]]);
        podIpMap := AddIps(podIpMap, matched);
        IpsForOneMore(pods, labels, seen, k);
      }
      seen := seen + {k};
    }
    assert podIpMap == set p | p in pods && CarriesOne(p, labels) :: p.ip;
    cidrs := ToCidrs(podIpMap);
  }

  lemma CidrsOneMore(ips: set<string>, ip: string)
    ensures Cidrs(ips + {ip}) == Cidrs(ips) + if ip != "" then {Cidr(ip)} else {}
    ensures ip !in ips ==> Cidr(ip) !in Cidrs(ips)
  {
    if Cidr(ip) in Cidrs(ips) {
      var other :| other in ips && other != "" && Cidr(other) == Cidr(ip);
      CidrInjective(other, ip);
    }
  }

  lemma CidrsAppend(cidrs: seq<string>, seen: set<string>, ip: string)
    requires Elements(cidrs) == Cidrs(seen) && NoRepeats(cidrs) && ip !in seen
    ensures var more := if ip != "" then cidrs + [Cidr(ip)] else cidrs;
            Elements(more) == Cidrs(seen + {ip}) && NoRepeats(more)
  {
    CidrsOneMore(seen, ip);
    if ip != "" {
      assert Cidr(ip) !in Elements(cidrs);
      ElementsAppend(cidrs, Cidr(ip));
    }
  }

  method ToCidrs(podIpMap: set<string>) returns (cidrs: seq<string>)
    ensures Elements(cidrs) == Cidrs(podIpMap)
    ensures NoRepeats(cidrs)
  {
    cidrs := [];
    var ips := podIpMap;
    ghost var seen: set<string> := {};
    while ips != {}
      invariant ips !! seen && ips + seen == podIpMap
      invariant Elements(cidrs) == Cidrs(seen)
      invariant NoRepeats(cidrs)
      decreases |ips|
    {
      var ip :| ip in ips;
      CidrsAppend(cidrs, seen, ip);
      if ip != "" {
        cidrs := cidrs + [Cidr(ip)];
      }
      ips := ips - {ip};
      seen := seen + {ip};
    }
    assert seen == podIpMap;
  }

  /** One listing with all the labels at once.  A "condition" label that is not the OR one is passed on
      to the cluster like any other. */
  method SelectAll(pods: seq<Pod>, labels: Labels) returns (cidrs: seq<string>, matched: seq<Pod>)
    ensures Elements(cidrs) == AllOf(pods, labels)
    ensures matched == Filter(pods, labels)
  {
    matched := ListPods(pods, labels);
    cidrs := [];
    for i := 0 to |matched|
      invariant Elements(cidrs) == Cidrs(Ips(matched[..i]))
    {
      assert matched[..i + 1] == matched[..i] + [matched[i]];
      assert Ips(matched[..i + 1]) == Ips(matched[..i]) + {matched[i].ip};
      CidrsOneMore(Ips(matched[..i]), matched[i].ip);
      if matched[i].ip != "" {
        ElementsAppend(cidrs, Cidr(matched[i].ip));
        cidrs := cidrs + [Cidr(matched[i].ip)];
      }
    }
    assert matched[..|matched|] == matched;
    FilterMembers(pods, labels);
    assert Ips(matched) == set p | p in pods && Carries(p, labels) :: p.ip;
  }

  /** A pod that some labels pick: with the condition OR, if it has one of the others, and otherwise if it has all
      of them. */
  ghost predicate Picked(labels: Labels, p: Pod) {
    if "condition" in labels && labels["condition"] == "OR" then
      exists k :: k in labels && k != "condition" && k in p.labels && p.labels[k] == labels[k]
    else
      forall k :: k in labels ==> k in p.labels && p.labels[k] == labels[k]
  }

  lemma PickedAddresses(pods: seq<Pod>, labels: Labels)
    ensures var chosen := if CONDITION in labels && labels[CONDITION] == OR then AnyOf(pods, labels) else AllOf(pods, labels);
            forall c :: c in chosen <==> exists p :: p in pods && p.ip != "" && c == p.ip + "/32" && Picked(labels, p)
  {
    var any := CONDITION in labels && labels[CONDITION] == OR;
    forall p ensures Picked(labels, p) <==> if any then CarriesOne(p, labels) else Carries(p, labels) {
      if any && CarriesOne(p, labels) {
        var k :| k in labels && k != CONDITION && Carries(p, map[k := labels[k]]);
        assert k in map[k := labels[k]];
      }
      if any && Picked(labels, p) {
        var k :| k in labels && k != CONDITION && k in p.labels && p.labels[k] == labels[k];
        assert Carries(p, map[k := labels[k]]);
      }
    }
    var ips := if any then set p | p in pods && CarriesOne(p, labels) :: p.ip else set p | p in pods && Carries(p, labels) :: p.ip;
    forall c ensures c in Cidrs(ips) <==> exists p :: p in pods && p.ip != "" && c == p.ip + "/32" && Picked(labels, p) {
      if p :| p in pods && p.ip != "" && c == p.ip + "/32" && Picked(labels, p) {
        assert p.ip in ips && c == Cidr(p.ip);
      }
    }
  }

  method GetSourceDataForKubernetesLabels(pods: seq<Pod>, labels: Labels)
    returns (cidrs: seq<string>, matched: seq<Pod>)
    ensures var any := CONDITION in labels && labels[CONDITION] == OR;
            && Elements(cidrs) == (if any then AnyOf(pods, labels) else AllOf(pods, labels))
            && (any ==> NoRepeats(cidrs))
    ensures forall c :: c in cidrs <==> exists p :: p in pods && p.ip != "" && c == p.ip + "/32" && Picked(labels, p)
  {
    PickedAddresses(pods, labels);
    if CONDITION in labels && labels[CONDITION] == OR {
      cidrs, matched := SelectAny(pods, labels);
    } else {
      cidrs, matched := SelectAll(pods, labels);
    }
    assert forall c :: c in cidrs <==> c in Elements(cidrs);
  }

  /** Requiring every label never lets in more than requiring one, whatever the pods are, exactly when
      there is a label to require: with none, AND takes every pod and OR takes none. */
  lemma AllWithinAnyIffLabelled(labels: Labels)
    requires CONDITION !in labels
    ensures (forall pods :: AllOf(pods, labels) <= AnyOf(pods, labels[CONDITION := OR])) <==> labels != map[]
  {
    var any := labels[CONDITION := OR];
    if labels != map[] {
      forall pods ensures AllOf(pods, labels) <= AnyOf(pods, any) {
        forall p | p in pods && Carries(p, labels) ensures CarriesOne(p, any) {
          var k :| k in labels;
          assert Carries(p, map[k := any[k]]);
        }
      }
    } else {
      var p := Pod("", "10.0.0.1", map[]);
      assert p in [p] && Carries(p, labels) && Cidr(p.ip) in AllOf([p], labels);
      assert AnyOf([p], any) == {};
    }
  }

  /** A selection that spells the condition out as AND asks the cluster for pods that carry it. */
  lemma SpelledOutAndNeedsItsLabel(labels: Labels, pod: Pod, condition: string)
    requires condition != OR && CONDITION !in pod.labels && pod.ip != ""
    ensures AllOf([pod], labels[CONDITION := condition]) == {}
  {
    var l := labels[CONDITION := condition];
    assert CONDITION in l;
    assert !Carries(pod, l);
  }
}
