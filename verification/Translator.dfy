/** Access rules to per-protocol port lists: pkg/translator/translator.go. */
module Translator {

  datatype AccessRule = AccessRule(protocol: string, port: string)

  type PortMap = map<string, seq<string>>

  predicate Opens(rule: AccessRule, protocol: string) {
    rule.protocol == protocol && rule.port == ""
  }

  predicate Mentions(rules: seq<AccessRule>, protocol: string) {
    protocol != "" && exists i :: 0 <= i < |rules| && rules[i].protocol == protocol
  }

  /** How many rules there are up to and including the last one that opens every port. */
  function Reset(rules: seq<AccessRule>, protocol: string): (n: nat)
    ensures n <= |rules|
  {
    if rules == [] then 0
    else if Opens(rules[|rules| - 1], protocol) then |rules|
    else Reset(rules[..|rules| - 1], protocol)
  }

  /** The ports listed for a protocol, in order. */
  function Ports(rules: seq<AccessRule>, protocol: string): seq<string> {
    if rules == [] then []
    else
      var last := rules[|rules| - 1];
      Ports(rules[..|rules| - 1], protocol) + if last.protocol == protocol then [last.port] else []
  }

  /** What the rules leave a protocol with: the ports named after its last reset.
      No port at all means every port. */
  function Allowed(rules: seq<AccessRule>, protocol: string): seq<string> {
    Ports(rules[Reset(rules, protocol)..], protocol)
  }

  ghost predicate Means(m: PortMap, rules: seq<AccessRule>) {
    && (forall p :: p in m <==> Mentions(rules, p))
    && (forall p :: p in m ==> m[p] == Allowed(rules, p))
  }

  /** `Reset` cuts exactly behind the last opening rule. */
  lemma {:induction false} ResetIsLastOpening(rules: seq<AccessRule>, protocol: string)
    ensures var n := Reset(rules, protocol);
            && (n == 0 || Opens(rules[n - 1], protocol))
            && (forall i :: n <= i < |rules| ==> !Opens(rules[i], protocol))
  {
    if rules != [] && !Opens(rules[|rules| - 1], protocol) {
      ResetIsLastOpening(rules[..|rules| - 1], protocol);
    }
  }

  lemma AllowedAppend(rules: seq<AccessRule>, rule: AccessRule, protocol: string)
    ensures Allowed(rules + [rule], protocol) ==
            if Opens(rule, protocol) then []
            else Allowed(rules, protocol) + if rule.protocol == protocol then [rule.port] else []
  {
    var more := rules + [rule];
    assert more[..|rules|] == rules;
    if !Opens(rule, protocol) {
      var n := Reset(rules, protocol);
      assert more[n..] == rules[n..] + [rule];
      assert more[n..][..|more[n..]| - 1] == rules[n..];
    }
  }

  lemma MeansNothingUnmentioned(rules: seq<AccessRule>, protocol: string)
    requires forall i :: 0 <= i < |rules| ==> rules[i].protocol != protocol
    ensures Allowed(rules, protocol) == []
  {
    PortsOfUnmentioned(rules[Reset(rules, protocol)..], protocol);
  }

  lemma {:induction false} PortsOfUnmentioned(rules: seq<AccessRule>, protocol: string)
    requires forall i :: 0 <= i < |rules| ==> rules[i].protocol != protocol
    ensures Ports(rules, protocol) == []
  {
    if rules != [] {
      PortsOfUnmentioned(rules[..|rules| - 1], protocol);
    }
  }

  lemma MentionsAppend(rules: seq<AccessRule>, rule: AccessRule, protocol: string)
    ensures Mentions(rules + [rule], protocol) <==> Mentions(rules, protocol) || (protocol != "" && rule.protocol == protocol)
  {
    var more := rules + [rule];
    assert more[|rules|] == rule;
    if Mentions(rules, protocol) {
      var i :| 0 <= i < |rules| && rules[i].protocol == protocol;
      assert more[i].protocol == protocol;
    }
  }

  lemma MeansAppend(m: PortMap, rules: seq<AccessRule>, rule: AccessRule, m': PortMap)
    requires Means(m, rules)
    requires rule.protocol == "" ==> m' == m
    requires rule.protocol != "" ==>
      m' == m[rule.protocol := if rule.port == "" then []
                               else (if rule.protocol in m then m[rule.protocol] else []) + [rule.port]]
    ensures Means(m', rules + [rule])
  {
    var more := rules + [rule];
    forall p ensures (p in m' <==> Mentions(more, p)) && (p in m' ==> m'[p] == Allowed(more, p)) {
      MentionsAppend(rules, rule, p);
      AllowedAppend(rules, rule, p);
      if p == rule.protocol && p !in m && p != "" {
        MeansNothingUnmentioned(rules, p);
      }
    }
  }

  /** What a rule list means, rule by rule: a port is allowed for a protocol exactly if a rule names both and no
      later rule names the protocol without a port; and none is listed, which is every port, exactly if the
      protocol's last rule is one without a port. */
  lemma MeansExactly(m: PortMap, rules: seq<AccessRule>, protocol: string)
    requires Means(m, rules)
    ensures protocol in m <==> protocol != "" && exists i :: 0 <= i < |rules| && rules[i].protocol == protocol
    ensures protocol in m ==> forall port :: port in m[protocol] <==> Stands(rules, protocol, port)
    ensures protocol in m ==> (m[protocol] == [] <==> exists i :: Closes(rules, protocol, i))
  {
    if protocol in m {
      forall port ensures port in m[protocol] <==> Stands(rules, protocol, port) {
        AllowedStands(rules, protocol, port);
      }
      if m[protocol] == [] {
        var i := LastOf(rules, protocol);
        if rules[i].port != "" {
          assert Stands(rules, protocol, rules[i].port) by {
            assert StandsAt(rules, protocol, rules[i].port, i);
          }
          assert false;
        }
        assert Closes(rules, protocol, i);
      }
      if i :| Closes(rules, protocol, i) {
        ClosedStandsNone(rules, protocol, i);
        EmptyIff(m[protocol]);
      }
    }
  }

  lemma ClosedStandsNone(rules: seq<AccessRule>, protocol: string, i: int)
    requires Closes(rules, protocol, i)
    ensures forall port :: !Stands(rules, protocol, port)
  {
    forall port ensures !Stands(rules, protocol, port) {}
  }

  lemma EmptyIff(ports: seq<string>)
    ensures ports == [] <==> forall port :: port !in ports
  {
    if ports != [] {
      assert ports[0] in ports;
    }
  }

  lemma TakeOneMore(rules: seq<AccessRule>, i: nat)
    requires i < |rules|
    ensures rules[..i + 1] == rules[..i] + [rules[i]]
  {
  }

  lemma AllowedStands(rules: seq<AccessRule>, protocol: string, port: string)
    ensures port in Allowed(rules, protocol) <==> Stands(rules, protocol, port)
  {
    var n := Reset(rules, protocol);
    ResetIsLastOpening(rules, protocol);
    PortsMembers(rules[n..], protocol, port);
    if i :| 0 <= i < |rules[n..]| && rules[n..][i] == AccessRule(protocol, port) {
      forall j | n + i <= j < |rules| ensures rules[j].protocol != protocol || rules[j].port != "" {
        assert !Opens(rules[j], protocol);
      }
      assert StandsAt(rules, protocol, port, n + i);
    }
    if Stands(rules, protocol, port) {
      var i :| StandsAt(rules, protocol, port, i);
      assert n > 0 ==> Opens(rules[n - 1], protocol);
      assert rules[n..][i - n] == AccessRule(protocol, port);
    }
  }

  /** The rule that names a protocol and a port, with none behind it that names the protocol without one. */
  ghost predicate StandsAt(rules: seq<AccessRule>, protocol: string, port: string, i: int) {
    && 0 <= i < |rules| && rules[i].protocol == protocol && rules[i].port == port && port != ""
    && forall j :: i < j < |rules| ==> rules[j].protocol != protocol || rules[j].port != ""
  }

  ghost predicate Stands(rules: seq<AccessRule>, protocol: string, port: string) {
    exists i :: StandsAt(rules, protocol, port, i)
  }

  /** The last rule for a protocol, which names no port. */
  ghost predicate Closes(rules: seq<AccessRule>, protocol: string, i: int) {
    && 0 <= i < |rules| && rules[i].protocol == protocol && rules[i].port == ""
    && forall j :: i < j < |rules| ==> rules[j].protocol != protocol
  }

  lemma {:induction false} LastOf(rules: seq<AccessRule>, protocol: string) returns (i: nat)
    requires exists i :: 0 <= i < |rules| && rules[i].protocol == protocol
    ensures i < |rules| && rules[i].protocol == protocol && forall j :: i < j < |rules| ==> rules[j].protocol != protocol
  {
    if rules[|rules| - 1].protocol == protocol {
      i := |rules| - 1;
    } else {
      i := LastOf(rules[..|rules| - 1], protocol);
    }
  }

  lemma {:induction false} PortsMembers(rules: seq<AccessRule>, protocol: string, port: string)
    ensures port in Ports(rules, protocol) <==> exists i :: 0 <= i < |rules| && rules[i] == AccessRule(protocol, port)
  {
    if rules != [] {
      PortsMembers(rules[..|rules| - 1], protocol, port);
    }
  }

  /** Used on create: the same loop also stands for AwiGrpcProtocolsAndPortsToVmanage. */
  method AwiGrpcProtocolsAndPortsToCompute(nac: seq<AccessRule>) returns (compute: PortMap)
    ensures Means(compute, nac)
  {
    compute := map[];
    ghost var done := [];
    for i := 0 to |nac|
      invariant done == nac[..i]
      invariant Means(compute, done)
    {
      var v := nac[i];
      ghost var before := compute;
      if v.protocol != "" {
        if v.port == "" {
          compute := compute[v.protocol := []];
        } else if v.protocol in compute {
          compute := compute[v.protocol := compute[v.protocol] + [v.port]];
        } else {
          compute := compute[v.protocol := [v.port]];
        }
      }
      TakeOneMore(nac, i);
      assert [] + [v.port] == [v.port];
      MeansAppend(before, done, v, compute);
      done := done + [v];
    }
    assert nac[..|nac|] == nac;
  }

  /** Used on store. */
  method AwiGrpcProtocolsAndPortsToMap(nac: seq<AccessRule>) returns (m: PortMap)
    ensures Means(m, nac)
  {
    m := map[];
    ghost var done := [];
    var i := 0;
    while i < |nac|
      invariant 0 <= i <= |nac|
      invariant done == nac[..i]
      invariant Means(m, done)
    {
      var v := nac[i];
      ghost var before := m;
      if v.protocol != "" {
        if v.port == "" {
          m := m[v.protocol := []];
        } else if v.protocol in m {
          m := m[v.protocol := m[v.protocol] + [v.port]];
        } else {
          m := m[v.protocol := [v.port]];
        }
      }
      TakeOneMore(nac, i);
      assert [] + [v.port] == [v.port];
      MeansAppend(before, done, v, m);
      done := done + [v];
      i := i + 1;
    }
    assert nac[..|nac|] == nac;
  }

  method ProtocolsAndPortsMapToCompute(stored: PortMap) returns (m: PortMap)
    ensures m == stored
  {
    m := map[];
    var todo := stored.Keys;
    while todo != {}
      invariant todo <= stored.Keys
      invariant m.Keys == stored.Keys - todo
      invariant forall k :: k in m ==> m[k] == stored[k]
      decreases |todo|
    {
      var k :| k in todo;
      m := m[k := stored[k]];
      todo := todo - {k};
    }
  }

  /** One rule list has one meaning, so any two translators that meet the contract agree. */
  lemma MeaningIsUnique(m: PortMap, m': PortMap, rules: seq<AccessRule>)
    requires Means(m, rules) && Means(m', rules)
    ensures m == m'
  {
    assert m.Keys == m'.Keys by {
      forall p ensures p in m <==> p in m' {}
    }
  }

  /** What the periodic refresh hands the provider is what creation handed it. */
  method RefreshSeesWhatCreateSent(nac: seq<AccessRule>) returns (onCreate: PortMap, onRefresh: PortMap)
    ensures Means(onCreate, nac)
    ensures onRefresh == onCreate
  {
    onCreate := AwiGrpcProtocolsAndPortsToCompute(nac);
    var stored := AwiGrpcProtocolsAndPortsToMap(nac);
    onRefresh := ProtocolsAndPortsMapToCompute(stored);
    MeaningIsUnique(onCreate, stored, nac);
  }

  /** A port after a reset narrows the protocol again: the reset does not win over later rules. */
  lemma ResetThenPortNarrows(rules: seq<AccessRule>, protocol: string, port: string)
    requires protocol != "" && port != ""
    ensures Allowed(rules + [AccessRule(protocol, "")] + [AccessRule(protocol, port)], protocol) == [port]
  {
    var cleared := rules + [AccessRule(protocol, "")];
    AllowedAppend(rules, AccessRule(protocol, ""), protocol);
    AllowedAppend(cleared, AccessRule(protocol, port), protocol);
  }
}
