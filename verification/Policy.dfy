/** The vManage objects behind a site's policy, and the protocols that build them and take them down:
    createACLPolicy (pkg/connection-controller/awi_connection_controller.go) and deleteACLPolicy
    (pkg/connection-controller/disconnect.go). */
module Policy {
  import opened Records

  datatype Acl = Acl(name: string, defaultAction: string, sequences: seq<string>)

  datatype PolicyDefinition = PolicyDefinition(name: string, assemblies: seq<string>)

  /** A site's device template names a policy id, a policy assembles ACL ids, a feature template's access
      list names an ACL.  The empty string is no reference. */
  datatype Graph = Graph(
    acls: map<string, Acl>,
    policies: map<string, PolicyDefinition>,
    devices: map<string, string>,
    features: map<string, string>)

  function AclName(site: string): string { site + "-acl" }

  function PolicyName(site: string): string { site + "-policy" }

  function DefaultAction(access: string): string {
    if access == "allow" then "accept" else if access == "" || access == "deny" then "drop" else access
  }

  function AclData(site: string, access: string, sequences: seq<string>): Acl {
    Acl(AclName(site), DefaultAction(access), sequences)
  }

  /** The single calls that change the graph. */
  datatype Step =
    | PutAcl(aclId: string, acl: Acl)
    | PutPolicy(policyId: string, policy: PolicyDefinition)
    | SetDevice(site: string, ref: string)
    | SetFeature(template: string, name: string)
    | DropPolicy(policyId: string)
    | DropAcl(aclId: string)

  function Apply(g: Graph, step: Step): Graph {
    match step
    case PutAcl(id, acl) => g.(acls := g.acls[id := acl])
    case PutPolicy(id, policy) => g.(policies := g.policies[id := policy])
    case SetDevice(site, ref) => g.(devices := g.devices[site := ref])
    case SetFeature(template, name) => g.(features := g.features[template := name])
    case DropPolicy(id) => g.(policies := g.policies - {id})
    case DropAcl(id) => g.(acls := g.acls - {id})
  }

  function Run(g: Graph, steps: seq<Step>): Graph {
    if steps == [] then g else Apply(Run(g, steps[..|steps| - 1]), steps[|steps| - 1])
  }

  /** No reference dangles. */
  ghost predicate Intact(g: Graph) {
    && (forall s :: s in g.devices && g.devices[s] != "" ==> g.devices[s] in g.policies)
    && (forall p, i :: p in g.policies && 0 <= i < |g.policies[p].assemblies| ==> g.policies[p].assemblies[i] in g.acls)
    && (forall f :: f in g.features && g.features[f] != "" ==> Named(g, g.features[f]))
  }

  ghost predicate Named(g: Graph, name: string) {
    exists a :: a in g.acls && g.acls[a].name == name
  }

  /** Site s's policy owns exactly the ACL named after s, no two policies share it, and only the feature
      template of s names it. */
  ghost predicate Owned(g: Graph, templates: map<string, string>) {
    && AclNamesUnique(g)
    && PoliciesOwned(g)
    && AssembliesUnshared(g)
    && (forall s :: s in g.devices && g.devices[s] != "" && g.devices[s] in g.policies ==>
          g.policies[g.devices[s]].name == PolicyName(s))
    && (forall f :: f in g.features && g.features[f] != "" ==> NamesOwnSite(templates, f, g.features[f]))
  }

  ghost predicate AclNamesUnique(g: Graph) {
    forall a, b :: a in g.acls && b in g.acls && g.acls[a].name == g.acls[b].name ==> a == b
  }

  ghost predicate PoliciesOwned(g: Graph) {
    && "" !in g.policies
    && forall p :: p in g.policies ==> |g.policies[p].assemblies| == 1 && exists s :: OwnedBy(g, p, s)
  }

  ghost predicate AssembliesUnshared(g: Graph) {
    forall p, q :: p in g.policies && q in g.policies && g.policies[p].assemblies == g.policies[q].assemblies ==> p == q
  }

  ghost predicate NamesOwnSite(templates: map<string, string>, f: string, name: string) {
    exists s :: s in templates && templates[s] == f && name == AclName(s)
  }

  ghost predicate OwnedBy(g: Graph, p: string, s: string)
    requires p in g.policies
  {
    && g.policies[p].name == PolicyName(s)
    && (forall i :: 0 <= i < |g.policies[p].assemblies| && g.policies[p].assemblies[i] in g.acls ==>
          g.acls[g.policies[p].assemblies[i]].name == AclName(s))
  }

  ghost predicate Sound(g: Graph, templates: map<string, string>) {
    Intact(g) && Owned(g, templates)
  }

  lemma NamesInjective(s: string, t: string)
    ensures AclName(s) == AclName(t) ==> s == t
    ensures PolicyName(s) == PolicyName(t) ==> s == t
  {
    if AclName(s) == AclName(t) {
      assert AclName(s)[..|s|] == s && AclName(t)[..|t|] == t;
    }
    if PolicyName(s) == PolicyName(t) {
      assert PolicyName(s)[..|s|] == s && PolicyName(t)[..|t|] == t;
    }
  }

  /** When a step may be taken without leaving a dangling reference or a second owner. */
  ghost predicate Allowed(g: Graph, templates: map<string, string>, step: Step) {
    match step
    case PutAcl(id, acl) =>
      if id in g.acls then acl.name == g.acls[id].name
      else forall a :: a in g.acls ==> g.acls[a].name != acl.name
    case PutPolicy(id, policy) =>
      && id !in g.policies && id != ""
      && |policy.assemblies| == 1 && policy.assemblies[0] in g.acls
      && (exists s :: policy.name == PolicyName(s) && g.acls[policy.assemblies[0]].name == AclName(s))
      && (forall p :: p in g.policies ==> g.policies[p].assemblies != policy.assemblies)
    case SetDevice(site, ref) => ref == "" || (ref in g.policies && g.policies[ref].name == PolicyName(site))
    case SetFeature(template, name) =>
      name == "" || (Named(g, name) && NamesOwnSite(templates, template, name))
    case DropPolicy(id) => forall s :: s in g.devices && g.devices[s] != "" ==> g.devices[s] != id
    case DropAcl(id) =>
      && (forall p, i :: p in g.policies && 0 <= i < |g.policies[p].assemblies| ==> g.policies[p].assemblies[i] != id)
      && (id in g.acls ==> forall f :: f in g.features && g.features[f] != "" ==> g.features[f] != g.acls[id].name)
  }

  lemma NamedSurvives(g: Graph, g': Graph, name: string)
    requires Named(g, name)
    requires forall a :: a in g.acls && g.acls[a].name == name ==> a in g'.acls && g'.acls[a].name == name
    ensures Named(g', name)
  {
    var a :| a in g.acls && g.acls[a].name == name;
    assert a in g'.acls;
  }

  lemma AllowedKeepsIntact(g: Graph, templates: map<string, string>, step: Step)
    requires Sound(g, templates) && Allowed(g, templates, step)
    ensures Intact(Apply(g, step))
  {
    var g' := Apply(g, step);
    forall f | f in g'.features && g'.features[f] != "" ensures Named(g', g'.features[f]) {
      NamedSurvives(g, g', g'.features[f]);
    }
  }

  lemma AllowedKeepsPoliciesOwned(g: Graph, templates: map<string, string>, step: Step)
    requires Sound(g, templates) && Allowed(g, templates, step)
    ensures PoliciesOwned(Apply(g, step))
  {
    var g' := Apply(g, step);
    forall p | p in g'.policies
      ensures |g'.policies[p].assemblies| == 1 && exists s :: OwnedBy(g', p, s)
    {
      if step.PutPolicy? && p == step.policyId {
        var s :| step.policy.name == PolicyName(s) && g.acls[step.policy.assemblies[0]].name == AclName(s);
        assert OwnedBy(g', p, s);
      } else {
        var s :| OwnedBy(g, p, s);
        assert OwnedBy(g', p, s);
      }
    }
  }

  lemma AllowedKeepsNamesApart(g: Graph, templates: map<string, string>, step: Step)
    requires Sound(g, templates) && Allowed(g, templates, step)
    ensures AclNamesUnique(Apply(g, step)) && AssembliesUnshared(Apply(g, step))
  {
  }

  lemma AllowedKeepsReferencesOwn(g: Graph, templates: map<string, string>, step: Step)
    requires Sound(g, templates) && Allowed(g, templates, step)
    ensures var g' := Apply(g, step);
      && (forall s :: s in g'.devices && g'.devices[s] != "" && g'.devices[s] in g'.policies ==>
            g'.policies[g'.devices[s]].name == PolicyName(s))
      && (forall f :: f in g'.features && g'.features[f] != "" ==> NamesOwnSite(templates, f, g'.features[f]))
  {
  }

  lemma AllowedKeepsOwned(g: Graph, templates: map<string, string>, step: Step)
    requires Sound(g, templates) && Allowed(g, templates, step)
    ensures Owned(Apply(g, step), templates)
  {
    AllowedKeepsPoliciesOwned(g, templates, step);
    AllowedKeepsNamesApart(g, templates, step);
    AllowedKeepsReferencesOwn(g, templates, step);
  }

  ghost function AclByName(g: Graph, name: string): (id: string)
    requires Named(g, name)
    ensures id in g.acls && g.acls[id].name == name
  {
    var id :| id in g.acls && g.acls[id].name == name; id
  }

  /** The calls that build a site's policy from nothing. */
  function BuildSteps(site: string, template: string, acl: Acl, aclId: string, policyId: string): seq<Step> {
    [PutAcl(aclId, acl),
     PutPolicy(policyId, PolicyDefinition(PolicyName(site), [aclId])),
     SetDevice(site, policyId),
     SetFeature(template, AclName(site))]
  }

  /** The calls a creation makes: none without a site, one update when the site already has its ACL. */
  ghost function CreatePlan(
      g: Graph, site: string, template: string, acl: Acl, aclId: string, policyId: string): seq<Step>
  {
    if site == "" then []
    else if Named(g, AclName(site)) then [PutAcl(AclByName(g, AclName(site)), acl)]
    else BuildSteps(site, template, acl, aclId, policyId)
  }

  function DropAcls(ids: seq<string>): (r: seq<Step>)
    ensures |r| == |ids|
  {
    seq(|ids|, i requires 0 <= i < |ids| => DropAcl(ids[i]))
  }

  /** The calls that take a policy down again. */
  function RemoveSteps(site: string, template: string, policyId: string, assemblies: seq<string>): seq<Step> {
    [SetFeature(template, ""), SetDevice(site, ""), DropPolicy(policyId)] + DropAcls(assemblies)
  }

  /** The calls a deletion makes: it learns the policy from the site's device template. */
  function DeletePlan(g: Graph, site: string, template: string): seq<Step> {
    if site !in g.devices then [SetFeature(template, "")]
    else
      var policyId := g.devices[site];
      if policyId !in g.policies then [SetFeature(template, ""), SetDevice(site, "")]
      else RemoveSteps(site, template, policyId, g.policies[policyId].assemblies)
  }

  lemma RunMore(g: Graph, steps: seq<Step>, n: nat)
    requires n < |steps|
    ensures Run(g, steps[..n + 1]) == Apply(Run(g, steps[..n]), steps[n])
  {
    assert steps[..n + 1][..n] == steps[..n];
  }

  lemma BuiltSoFar(g: Graph, site: string, template: string, acl: Acl, aclId: string, policyId: string)
    ensures var plan := BuildSteps(site, template, acl, aclId, policyId);
            var acls, policies := g.acls[aclId := acl], g.policies[policyId := PolicyDefinition(PolicyName(site), [aclId])];
      && Run(g, plan[..1]) == g.(acls := acls)
      && Run(g, plan[..2]) == g.(acls := acls, policies := policies)
      && Run(g, plan[..3]) == g.(acls := acls, policies := policies, devices := g.devices[site := policyId])
  {
    var plan := BuildSteps(site, template, acl, aclId, policyId);
    RunMore(g, plan, 0);
    RunMore(g, plan, 1);
    RunMore(g, plan, 2);
  }

  /** Every call of a build may be made in the state the calls before it have left. */
  lemma BuildAllowed(g: Graph, templates: map<string, string>, site: string, template: string, acl: Acl,
                     aclId: string, policyId: string, k: nat)
    requires Sound(g, templates) && site in templates && templates[site] == template
    requires acl.name == AclName(site) && !Named(g, AclName(site))
    requires aclId !in g.acls && policyId !in g.policies && policyId != ""
    requires k < |BuildSteps(site, template, acl, aclId, policyId)|
    ensures var plan := BuildSteps(site, template, acl, aclId, policyId); Allowed(Run(g, plan[..k]), templates, plan[k])
  {
    BuiltSoFar(g, site, template, acl, aclId, policyId);
    if k == 1 {
      NewPolicyAllowed(g.(acls := g.acls[aclId := acl]), g, templates, site, aclId, policyId);
    } else if k == 3 {
      var g3 := Run(g, BuildSteps(site, template, acl, aclId, policyId)[..3]);
      assert g3.acls[aclId].name == AclName(site);
      assert NamesOwnSite(templates, template, AclName(site));
    }
  }

  lemma NewPolicyAllowed(g1: Graph, g: Graph, templates: map<string, string>, site: string, aclId: string, policyId: string)
    requires Sound(g, templates) && aclId !in g.acls && g1 == g.(acls := g1.acls)
    requires aclId in g1.acls && g1.acls[aclId].name == AclName(site)
    requires policyId !in g.policies && policyId != ""
    ensures Allowed(g1, templates, PutPolicy(policyId, PolicyDefinition(PolicyName(site), [aclId])))
  {
    forall p | p in g.policies ensures g.policies[p].assemblies != [aclId] {
      assert |g.policies[p].assemblies| == 1 && g.policies[p].assemblies[0] in g.acls;
    }
  }

  /** A site's device template names the policy that owns the site's only ACL. */
  lemma DeviceOwnsPolicy(g: Graph, templates: map<string, string>, site: string)
    requires Sound(g, templates) && site in g.devices && g.devices[site] != ""
    ensures var p := g.policies[g.devices[site]].assemblies;
            |p| == 1 && p[0] in g.acls && g.acls[p[0]].name == AclName(site)
  {
    var p := g.devices[site];
    var s :| OwnedBy(g, p, s);
    NamesInjective(s, site);
  }

  lemma DeleteAllowed(g: Graph, templates: map<string, string>, site: string, template: string, k: nat)
    requires Sound(g, templates)
    requires site in g.devices ==> site in templates && templates[site] == template
    requires k < |DeletePlan(g, site, template)|
    ensures var plan := DeletePlan(g, site, template); Allowed(Run(g, plan[..k]), templates, plan[k])
  {
    var plan := DeletePlan(g, site, template);
    if k == 1 {
      RunMore(g, plan, 0);
    } else if k == 2 {
      DeletedSoFar(g, site, template);
      forall s | s in g.devices && g.devices[s] == g.devices[site] ensures s == site {
        NamesInjective(s, site);
      }
    } else if k >= 3 {
      DeletedSoFar(g, site, template);
      DeviceOwnsPolicy(g, templates, site);
      OrphanedAclMayGo(g, templates, site, template);
      assert plan[k] == DropAcl(g.policies[g.devices[site]].assemblies[0]);
    }
  }

  /** The graph before the policy and before the ACLs are dropped. */
  lemma DeletedSoFar(g: Graph, site: string, template: string)
    requires site in g.devices && g.devices[site] in g.policies
    ensures var plan := DeletePlan(g, site, template);
      && Run(g, plan[..2]) == g.(features := g.features[template := ""], devices := g.devices[site := ""])
      && Run(g, plan[..3]) == Graph(g.acls, g.policies - {g.devices[site]}, g.devices[site := ""], g.features[template := ""])
  {
    var plan := DeletePlan(g, site, template);
    RunMore(g, plan, 0);
    RunMore(g, plan, 1);
    RunMore(g, plan, 2);
  }

  /** Once the template is cleared and the policy is gone, nothing names the site's ACL. */
  lemma OrphanedAclMayGo(g: Graph, templates: map<string, string>, site: string, template: string)
    requires Sound(g, templates) && site in templates && templates[site] == template
    requires site in g.devices && g.devices[site] in g.policies && |g.policies[g.devices[site]].assemblies| == 1
    requires g.policies[g.devices[site]].assemblies[0] in g.acls
    requires g.acls[g.policies[g.devices[site]].assemblies[0]].name == AclName(site)
    ensures var p := g.devices[site];
            var g' := Graph(g.acls, g.policies - {p}, g.devices[site := ""], g.features[template := ""]);
            Allowed(g', templates, DropAcl(g.policies[p].assemblies[0]))
  {
    var p := g.devices[site];
    var id := g.policies[p].assemblies[0];
    forall q, i | q in g.policies && q != p && 0 <= i < |g.policies[q].assemblies|
      ensures g.policies[q].assemblies[i] != id
    {
      assert g.policies[q].assemblies != g.policies[p].assemblies;
      assert |g.policies[q].assemblies| == 1 && g.policies[p].assemblies == [id];
    }
    forall f | f in g.features && f != template && g.features[f] != "" ensures g.features[f] != AclName(site) {
      var s :| s in templates && templates[s] == f && g.features[f] == AclName(s);
      NamesInjective(s, site);
    }
  }

  /** No state on the way through a plan holds a dangling reference. */
  ghost predicate PlanSound(g: Graph, templates: map<string, string>, plan: seq<Step>) {
    forall k :: 0 <= k <= |plan| ==> Sound(Run(g, plan[..k]), templates)
  }

  lemma AllowedKeepsSound(g: Graph, templates: map<string, string>, step: Step)
    requires Sound(g, templates) && Allowed(g, templates, step)
    ensures Sound(Apply(g, step), templates)
  {
    AllowedKeepsIntact(g, templates, step);
    AllowedKeepsOwned(g, templates, step);
  }

  lemma {:induction false} AllowedPlanIsSound(g: Graph, templates: map<string, string>, plan: seq<Step>, n: nat)
    requires Sound(g, templates) && n <= |plan|
    requires forall k :: 0 <= k < |plan| ==> Allowed(Run(g, plan[..k]), templates, plan[k])
    ensures Sound(Run(g, plan[..n]), templates)
  {
    if n > 0 {
      AllowedPlanIsSound(g, templates, plan, n - 1);
      RunMore(g, plan, n - 1);
      AllowedKeepsSound(Run(g, plan[..n - 1]), templates, plan[n - 1]);
    }
  }

  lemma AllowedPlan(g: Graph, templates: map<string, string>, plan: seq<Step>)
    requires Sound(g, templates)
    requires forall k :: 0 <= k < |plan| ==> Allowed(Run(g, plan[..k]), templates, plan[k])
    ensures PlanSound(g, templates, plan)
  {
    forall k | 0 <= k <= |plan| ensures Sound(Run(g, plan[..k]), templates) {
      AllowedPlanIsSound(g, templates, plan, k);
    }
  }

  /** Creating a policy keeps every reference alive, whichever call it stops at. */
  lemma CreatePlanSound(g: Graph, templates: map<string, string>, site: string, template: string, acl: Acl,
                        aclId: string, policyId: string)
    requires Sound(g, templates)
    requires site != "" ==> site in templates && templates[site] == template
    requires acl.name == AclName(site) && aclId !in g.acls && policyId !in g.policies && policyId != ""
    ensures PlanSound(g, templates, CreatePlan(g, site, template, acl, aclId, policyId))
  {
    var plan := CreatePlan(g, site, template, acl, aclId, policyId);
    if site != "" && !Named(g, AclName(site)) {
      forall k | 0 <= k < |plan| ensures Allowed(Run(g, plan[..k]), templates, plan[k]) {
        BuildAllowed(g, templates, site, template, acl, aclId, policyId, k);
      }
    }
    AllowedPlan(g, templates, plan);
  }

  /** So does deleting one. */
  lemma DeletePlanSound(g: Graph, templates: map<string, string>, site: string, template: string)
    requires Sound(g, templates)
    requires site in g.devices ==> site in templates && templates[site] == template
    ensures PlanSound(g, templates, DeletePlan(g, site, template))
  {
    var plan := DeletePlan(g, site, template);
    forall k | 0 <= k < |plan| ensures Allowed(Run(g, plan[..k]), templates, plan[k]) {
      DeleteAllowed(g, templates, site, template, k);
    }
    AllowedPlan(g, templates, plan);
  }

  /** An operation and how many of its calls took effect. */
  datatype Operation =
    | Create(site: string, template: string, acl: Acl, aclId: string, policyId: string, done: nat)
    | Delete(site: string, template: string, done: nat)

  ghost function Plan(g: Graph, op: Operation): seq<Step> {
    match op
    case Create(site, template, acl, aclId, policyId, _) => CreatePlan(g, site, template, acl, aclId, policyId)
    case Delete(site, template, _) => DeletePlan(g, site, template)
  }

  /** One feature template a site, and ids vManage has not given out yet. */
  ghost predicate Admissible(g: Graph, templates: map<string, string>, op: Operation) {
    && op.done <= |Plan(g, op)|
    && match op
       case Create(site, template, acl, aclId, policyId, _) =>
         && (site != "" ==> site in templates && templates[site] == template)
         && acl.name == AclName(site) && aclId !in g.acls && policyId !in g.policies && policyId != ""
       case Delete(site, template, _) => site in g.devices ==> site in templates && templates[site] == template
  }

  ghost function After(g: Graph, op: Operation): Graph {
    Run(g, Plan(g, op)[..if op.done <= |Plan(g, op)| then op.done else 0])
  }

  ghost function AfterAll(g: Graph, ops: seq<Operation>): Graph {
    if ops == [] then g else After(AfterAll(g, ops[..|ops| - 1]), ops[|ops| - 1])
  }

  lemma OperationSound(g: Graph, templates: map<string, string>, op: Operation)
    requires Sound(g, templates) && Admissible(g, templates, op)
    ensures PlanSound(g, templates, Plan(g, op)) && Sound(After(g, op), templates)
  {
    match op
    case Create(site, template, acl, aclId, policyId, _) =>
      CreatePlanSound(g, templates, site, template, acl, aclId, policyId);
    case Delete(site, template, _) =>
      DeletePlanSound(g, templates, site, template);
  }

  /** A vManage without policies and ACLs, and references that name nothing. */
  ghost predicate Blank(g: Graph) {
    && g.acls == map[] && g.policies == map[]
    && (forall s :: s in g.devices ==> g.devices[s] == "") && (forall f :: f in g.features ==> g.features[f] == "")
  }

  ghost predicate AllAdmissible(g: Graph, templates: map<string, string>, ops: seq<Operation>) {
    forall n :: 0 <= n < |ops| ==> Admissible(AfterAll(g, ops[..n]), templates, ops[n])
  }

  lemma BlankIsSound(g: Graph, templates: map<string, string>)
    requires Blank(g)
    ensures Sound(g, templates)
  {
  }

  lemma AfterOneMore(g: Graph, ops: seq<Operation>, n: nat)
    requires 0 < n <= |ops|
    ensures AfterAll(g, ops[..n]) == After(AfterAll(g, ops[..n - 1]), ops[n - 1])
  {
    assert ops[..n][..n - 1] == ops[..n - 1];
  }

  lemma {:induction false} SoundBetween(g: Graph, templates: map<string, string>, ops: seq<Operation>, n: nat)
    requires Sound(g, templates) && AllAdmissible(g, templates, ops) && n <= |ops|
    ensures Sound(AfterAll(g, ops[..n]), templates)
  {
    if n > 0 {
      SoundBetween(g, templates, ops, n - 1);
      AfterOneMore(g, ops, n);
      OperationSound(AfterAll(g, ops[..n - 1]), templates, ops[n - 1]);
    } else {
      assert ops[..0] == [];
    }
  }

  /** In every run of creations and deletions from a sound graph, a blank one for instance, each cut short
      anywhere, nothing ever dangles: not between two operations, and not between two calls of one. */
  lemma EveryRunIsSound(g: Graph, templates: map<string, string>, ops: seq<Operation>)
    requires (Blank(g) || Sound(g, templates)) && AllAdmissible(g, templates, ops)
    ensures forall n :: 0 <= n <= |ops| ==> Sound(AfterAll(g, ops[..n]), templates)
    ensures forall n :: 0 <= n < |ops| ==>
              PlanSound(AfterAll(g, ops[..n]), templates, Plan(AfterAll(g, ops[..n]), ops[n]))
  {
    if Blank(g) {
      BlankIsSound(g, templates);
    }
    forall n | 0 <= n <= |ops| ensures Sound(AfterAll(g, ops[..n]), templates) {
      SoundBetween(g, templates, ops, n);
    }
    forall n | 0 <= n < |ops|
      ensures PlanSound(AfterAll(g, ops[..n]), templates, Plan(AfterAll(g, ops[..n]), ops[n]))
    {
      OperationSound(AfterAll(g, ops[..n]), templates, ops[n]);
    }
  }

  // ---------------------------------------------------------------- retries

  /** A site whose policy is at work: the device template names a policy that assembles the site's ACL, and
      the feature template names the ACL. */
  predicate InForce(g: Graph, site: string, template: string) {
    && site in g.devices && g.devices[site] in g.policies
    && (exists i :: 0 <= i < |g.policies[g.devices[site]].assemblies|
                    && g.policies[g.devices[site]].assemblies[i] in g.acls
                    && g.acls[g.policies[g.devices[site]].assemblies[i]].name == AclName(site))
    && template in g.features && g.features[template] == AclName(site)
  }

  /** A complete creation puts the site's policy in force exactly when the site had no ACL yet, or its policy
      was in force already. */
  lemma CreationWorksIff(g: Graph, templates: map<string, string>, site: string, template: string, acl: Acl,
                         aclId: string, policyId: string)
    requires Sound(g, templates) && site != ""
    requires acl.name == AclName(site) && aclId !in g.acls && policyId !in g.policies && policyId != ""
    ensures InForce(Run(g, CreatePlan(g, site, template, acl, aclId, policyId)), site, template)
            <==> !Named(g, AclName(site)) || InForce(g, site, template)
  {
    if Named(g, AclName(site)) {
      var id := AclByName(g, AclName(site));
      var plan := [PutAcl(id, acl)];
      RunMore(g, plan, 0);
      assert plan[..1] == plan;
      var g' := Run(g, plan);
      assert g' == g.(acls := g.acls[id := acl]);
      SameInForce(g, g', site, template);
    } else {
      Built(g, site, template, acl, aclId, policyId);
      var g' := Run(g, BuildSteps(site, template, acl, aclId, policyId));
      assert g'.policies[g'.devices[site]].assemblies[0] == aclId && g'.acls[aclId].name == AclName(site);
    }
  }

  /** Rewriting an ACL under its own name changes nothing about what is in force. */
  lemma SameInForce(g: Graph, g': Graph, site: string, template: string)
    requires g' == g.(acls := g'.acls)
    requires forall a :: a in g.acls <==> a in g'.acls
    requires forall a :: a in g.acls ==> g.acls[a].name == g'.acls[a].name
    ensures InForce(g, site, template) <==> InForce(g', site, template)
  {
  }

  /** A site with its ACL, under an id, and a device template without a policy. */
  predicate HalfBuilt(g: Graph, site: string, id: string) {
    && id in g.acls && g.acls[id].name == AclName(site)
    && site in g.devices && g.devices[site] == ""
  }

  /** That is what a creation leaves when it stops after its first or second call, and only then. */
  lemma StoppedCreationIsHalfBuilt(g: Graph, site: string, template: string, acl: Acl, aclId: string, policyId: string, k: nat)
    requires acl.name == AclName(site) && aclId !in g.acls && policyId != ""
    requires site in g.devices && g.devices[site] == "" && k <= 4
    ensures HalfBuilt(Run(g, BuildSteps(site, template, acl, aclId, policyId)[..k]), site, aclId) <==> 1 <= k <= 2
  {
    var plan := BuildSteps(site, template, acl, aclId, policyId);
    BuiltSoFar(g, site, template, acl, aclId, policyId);
    Built(g, site, template, acl, aclId, policyId);
    assert plan[..4] == plan && plan[..0] == [];
  }

  /** And what a deletion leaves when it stops after clearing the device template and before dropping the ACL. */
  lemma StoppedDeletionIsHalfBuilt(g: Graph, templates: map<string, string>, site: string, template: string, k: nat)
    requires Sound(g, templates) && site in g.devices && g.devices[site] != "" && k <= 4
    ensures |DeletePlan(g, site, template)| == 4
    ensures HalfBuilt(Run(g, DeletePlan(g, site, template)[..k]), site, g.policies[g.devices[site]].assemblies[0])
            <==> 2 <= k <= 3
  {
    var p := g.devices[site];
    DeviceOwnsPolicy(g, templates, site);
    var id := g.policies[p].assemblies[0];
    var plan := RemoveSteps(site, template, p, [id]);
    assert g.policies[p].assemblies == [id];
    assert DeletePlan(g, site, template) == plan;
    if k <= 1 {
      RunMore(g, plan, 0);
      assert plan[..0] == [];
    } else if k <= 3 {
      DeletedSoFar(g, site, template);
    } else {
      Removed(g, site, template, id, p);
      assert plan[..4] == plan;
    }
  }

  /** A call that leaves such a site as it is. */
  predicate Spares(step: Step, site: string, id: string) {
    match step
    case PutAcl(a, acl) => a == id ==> acl.name == AclName(site)
    case DropAcl(a) => a != id
    case SetDevice(s, ref) => s == site ==> ref == ""
    case _ => true
  }

  lemma StepSpares(g: Graph, step: Step, site: string, id: string)
    requires HalfBuilt(g, site, id) && Spares(step, site, id)
    ensures HalfBuilt(Apply(g, step), site, id)
  {
  }

  lemma {:induction false} RunSpares(g: Graph, plan: seq<Step>, n: nat, site: string, id: string)
    requires HalfBuilt(g, site, id) && n <= |plan|
    requires forall k :: 0 <= k < |plan| ==> Spares(plan[k], site, id)
    ensures HalfBuilt(Run(g, plan[..n]), site, id)
  {
    if n > 0 {
      RunSpares(g, plan, n - 1, site, id);
      RunMore(g, plan, n - 1);
      StepSpares(Run(g, plan[..n - 1]), plan[n - 1], site, id);
    } else {
      assert plan[..0] == [];
    }
  }

  lemma CreationSpares(g: Graph, op: Operation, site: string, id: string)
    requires HalfBuilt(g, site, id) && AclNamesUnique(g)
    requires op.Create? && op.acl.name == AclName(op.site) && op.aclId !in g.acls
    ensures forall k :: 0 <= k < |Plan(g, op)| ==> Spares(Plan(g, op)[k], site, id)
  {
    NamesInjective(op.site, site);
    assert Named(g, AclName(site));
  }

  lemma DeletionSpares(g: Graph, templates: map<string, string>, op: Operation, site: string, id: string)
    requires HalfBuilt(g, site, id) && Sound(g, templates) && op.Delete?
    ensures forall k :: 0 <= k < |Plan(g, op)| ==> Spares(Plan(g, op)[k], site, id)
  {
    var plan := Plan(g, op);
    if op.site in g.devices && g.devices[op.site] in g.policies {
      assert g.devices[op.site] != "";
      DeviceOwnsPolicy(g, templates, op.site);
      NamesInjective(op.site, site);
      var assemblies := g.policies[g.devices[op.site]].assemblies;
      assert plan[3..] == DropAcls(assemblies);
      forall k | 3 <= k < |plan| ensures Spares(plan[k], site, id) {
        assert plan[k] == DropAcl(assemblies[k - 3]);
      }
    }
  }

  lemma OperationSpares(g: Graph, templates: map<string, string>, op: Operation, site: string, id: string)
    requires HalfBuilt(g, site, id) && Sound(g, templates) && Admissible(g, templates, op)
    ensures HalfBuilt(After(g, op), site, id)
  {
    if op.Create? {
      CreationSpares(g, op, site, id);
    } else {
      DeletionSpares(g, templates, op, site, id);
    }
    RunSpares(g, Plan(g, op), op.done, site, id);
  }

  lemma HalfBuiltNotInForce(g: Graph, templates: map<string, string>, site: string, id: string)
    requires HalfBuilt(g, site, id) && Sound(g, templates)
    ensures forall template :: !InForce(g, site, template)
  {
  }

  /** Half built for good: no creation or deletion of any site, cut short anywhere, changes it, so no retry
      of the creation ever puts the site's policy in force, and no deletion takes its ACL away. */
  lemma {:induction false} HalfBuiltForGood(g: Graph, templates: map<string, string>, ops: seq<Operation>, n: nat,
                                            site: string, id: string)
    requires HalfBuilt(g, site, id) && Sound(g, templates) && AllAdmissible(g, templates, ops) && n <= |ops|
    ensures HalfBuilt(AfterAll(g, ops[..n]), site, id)
    ensures forall template :: !InForce(AfterAll(g, ops[..n]), site, template)
  {
    if n > 0 {
      HalfBuiltForGood(g, templates, ops, n - 1, site, id);
      SoundBetween(g, templates, ops, n - 1);
      AfterOneMore(g, ops, n);
      OperationSpares(AfterAll(g, ops[..n - 1]), templates, ops[n - 1], site, id);
    } else {
      assert ops[..0] == [];
    }
    SoundBetween(g, templates, ops, n);
    HalfBuiltNotInForce(AfterAll(g, ops[..n]), templates, site, id);
  }

  /** What a step writes: each call touches one object. */
  datatype Key = AclKey(id: string) | PolicyKey(id: string) | DeviceKey(site: string) | FeatureKey(template: string)

  function KeyOf(step: Step): Key {
    match step
    case PutAcl(id, _) => AclKey(id)
    case DropAcl(id) => AclKey(id)
    case PutPolicy(id, _) => PolicyKey(id)
    case DropPolicy(id) => PolicyKey(id)
    case SetDevice(site, _) => DeviceKey(site)
    case SetFeature(template, _) => FeatureKey(template)
  }

  datatype Entry = Absent | AnAcl(acl: Acl) | APolicy(policy: PolicyDefinition) | ARef(ref: string)

  function Look(g: Graph, key: Key): Entry {
    match key
    case AclKey(id) => if id in g.acls then AnAcl(g.acls[id]) else Absent
    case PolicyKey(id) => if id in g.policies then APolicy(g.policies[id]) else Absent
    case DeviceKey(site) => if site in g.devices then ARef(g.devices[site]) else Absent
    case FeatureKey(template) => if template in g.features then ARef(g.features[template]) else Absent
  }

  /** What a step leaves where it writes. */
  function Effect(step: Step): Entry {
    match step
    case PutAcl(_, acl) => AnAcl(acl)
    case PutPolicy(_, policy) => APolicy(policy)
    case SetDevice(_, ref) => ARef(ref)
    case SetFeature(_, name) => ARef(name)
    case DropPolicy(_) => Absent
    case DropAcl(_) => Absent
  }

  lemma LookApply(g: Graph, step: Step, key: Key)
    ensures Look(Apply(g, step), key) == if key == KeyOf(step) then Effect(step) else Look(g, key)
  {
  }

  lemma SameEverywhere(g: Graph, h: Graph)
    requires forall key :: Look(g, key) == Look(h, key)
    ensures g == h
  {
    assert g.acls == h.acls by {
      forall k ensures (k in g.acls <==> k in h.acls) && (k in g.acls ==> g.acls[k] == h.acls[k]) {
        assert Look(g, AclKey(k)) == Look(h, AclKey(k));
      }
    }
    assert g.policies == h.policies by {
      forall k ensures (k in g.policies <==> k in h.policies) && (k in g.policies ==> g.policies[k] == h.policies[k]) {
        assert Look(g, PolicyKey(k)) == Look(h, PolicyKey(k));
      }
    }
    assert g.devices == h.devices by {
      forall k ensures (k in g.devices <==> k in h.devices) && (k in g.devices ==> g.devices[k] == h.devices[k]) {
        assert Look(g, DeviceKey(k)) == Look(h, DeviceKey(k));
      }
    }
    assert g.features == h.features by {
      forall k ensures (k in g.features <==> k in h.features) && (k in g.features ==> g.features[k] == h.features[k]) {
        assert Look(g, FeatureKey(k)) == Look(h, FeatureKey(k));
      }
    }
  }

  /** A call of a run, and whether it belongs to the site in question. */
  datatype Tagged = Tagged(own: bool, step: Step)

  function All(w: seq<Tagged>): seq<Step> {
    if w == [] then [] else All(w[..|w| - 1]) + [w[|w| - 1].step]
  }

  function Only(own: bool, w: seq<Tagged>): seq<Step> {
    if w == [] then []
    else if w[|w| - 1].own == own then Only(own, w[..|w| - 1]) + [w[|w| - 1].step]
    else Only(own, w[..|w| - 1])
  }

  lemma RunAppend(g: Graph, steps: seq<Step>, step: Step)
    ensures Run(g, steps + [step]) == Apply(Run(g, steps), step)
  {
    assert (steps + [step])[..|steps|] == steps;
  }

  /** However two sets of calls on different objects are interleaved, each object ends as if only its own
      calls had been made. */
  lemma {:induction false} InterleavingSeparates(g: Graph, w: seq<Tagged>, mine: set<Key>, key: Key)
    requires forall i :: 0 <= i < |w| ==> (w[i].own <==> KeyOf(w[i].step) in mine)
    ensures Look(Run(g, All(w)), key) == Look(Run(g, Only(key in mine, w)), key)
  {
    if w != [] {
      var front := w[..|w| - 1];
      var last := w[|w| - 1];
      InterleavingSeparates(g, front, mine, key);
      RunAppend(g, All(front), last.step);
      RunAppend(g, Only(key in mine, front), last.step);
      LookApply(Run(g, All(front)), last.step, key);
      LookApply(Run(g, Only(key in mine, front)), last.step, key);
    }
  }

  lemma {:induction false} UntouchedStays(g: Graph, w: seq<Tagged>, mine: set<Key>, key: Key)
    requires forall i :: 0 <= i < |w| ==> (w[i].own <==> KeyOf(w[i].step) in mine)
    requires key in mine
    ensures Look(Run(g, Only(false, w)), key) == Look(g, key)
  {
    if w != [] {
      var front := w[..|w| - 1];
      UntouchedStays(g, front, mine, key);
      RunAppend(g, Only(false, front), w[|w| - 1].step);
      LookApply(Run(g, Only(false, front)), w[|w| - 1].step, key);
    }
  }

  /** A site with a device template that has no policy and a feature template with a cleared access list,
      and two ids not in use. */
  predicate Clean(g: Graph, site: string, template: string, aclId: string, policyId: string) {
    && aclId !in g.acls && policyId !in g.policies
    && site in g.devices && g.devices[site] == ""
    && template in g.features && g.features[template] == ""
  }

  lemma {:induction false} RunConcat(g: Graph, a: seq<Step>, b: seq<Step>)
    ensures Run(g, a + b) == Run(Run(g, a), b)
  {
    if b == [] {
      assert a + b == a;
    } else {
      var front := b[..|b| - 1];
      assert (a + b)[..|a + b| - 1] == a + front;
      RunConcat(g, a, front);
    }
  }

  lemma Built(g: Graph, site: string, template: string, acl: Acl, aclId: string, policyId: string)
    ensures Run(g, BuildSteps(site, template, acl, aclId, policyId))
            == Graph(g.acls[aclId := acl], g.policies[policyId := PolicyDefinition(PolicyName(site), [aclId])],
                     g.devices[site := policyId], g.features[template := AclName(site)])
  {
    var steps := BuildSteps(site, template, acl, aclId, policyId);
    RunMore(g, steps, 0);
    RunMore(g, steps, 1);
    RunMore(g, steps, 2);
    RunMore(g, steps, 3);
    assert steps[..4] == steps;
  }

  lemma Removed(g: Graph, site: string, template: string, aclId: string, policyId: string)
    ensures Run(g, RemoveSteps(site, template, policyId, [aclId]))
            == Graph(g.acls - {aclId}, g.policies - {policyId}, g.devices[site := ""], g.features[template := ""])
  {
    var steps := RemoveSteps(site, template, policyId, [aclId]);
    assert steps[3] == DropAcl(aclId);
    RunMore(g, steps, 0);
    RunMore(g, steps, 1);
    RunMore(g, steps, 2);
    RunMore(g, steps, 3);
    assert steps[..4] == steps;
  }

  lemma BuildThenRemove(g: Graph, site: string, template: string, acl: Acl, aclId: string, policyId: string)
    requires Clean(g, site, template, aclId, policyId)
    ensures Run(g, BuildSteps(site, template, acl, aclId, policyId) + RemoveSteps(site, template, policyId, [aclId])) == g
  {
    RunConcat(g, BuildSteps(site, template, acl, aclId, policyId), RemoveSteps(site, template, policyId, [aclId]));
    Built(g, site, template, acl, aclId, policyId);
    Removed(Run(g, BuildSteps(site, template, acl, aclId, policyId)), site, template, aclId, policyId);
    assert g.acls[aclId := acl] - {aclId} == g.acls;
    assert g.policies[policyId := PolicyDefinition(PolicyName(site), [aclId])] - {policyId} == g.policies;
    assert g.devices[site := policyId][site := ""] == g.devices;
    assert g.features[template := AclName(site)][template := ""] == g.features;
  }

  /** Creating and then deleting a site's policy leaves no trace, whatever the other sites' calls between
      and among these, complete or not: the run ends where the others alone would have ended. */
  lemma {:induction false} PolicyRoundTrip(g: Graph, w: seq<Tagged>, site: string, template: string, acl: Acl,
                        aclId: string, policyId: string)
    requires Clean(g, site, template, aclId, policyId)
    requires Only(true, w) == BuildSteps(site, template, acl, aclId, policyId) + RemoveSteps(site, template, policyId, [aclId])
    requires forall i :: 0 <= i < |w| ==>
               (w[i].own <==> KeyOf(w[i].step) in {AclKey(aclId), PolicyKey(policyId), DeviceKey(site), FeatureKey(template)})
    ensures Run(g, All(w)) == Run(g, Only(false, w))
  {
    var mine := {AclKey(aclId), PolicyKey(policyId), DeviceKey(site), FeatureKey(template)};
    BuildThenRemove(g, site, template, acl, aclId, policyId);
    forall key ensures Look(Run(g, All(w)), key) == Look(Run(g, Only(false, w)), key) {
      InterleavingSeparates(g, w, mine, key);
      if key in mine {
        UntouchedStays(g, w, mine, key);
      }
    }
    SameEverywhere(Run(g, All(w)), Run(g, Only(false, w)));
  }

  /** The deletion finds, among the others' changes, exactly what the creation built. */
  lemma {:induction false} DeletionFindsTheBuild(g: Graph, w: seq<Tagged>, site: string, template: string, acl: Acl,
                              aclId: string, policyId: string)
    requires Clean(g, site, template, aclId, policyId)
    requires Only(true, w) == BuildSteps(site, template, acl, aclId, policyId)
    requires forall i :: 0 <= i < |w| ==>
               (w[i].own <==> KeyOf(w[i].step) in {AclKey(aclId), PolicyKey(policyId), DeviceKey(site), FeatureKey(template)})
    ensures DeletePlan(Run(g, All(w)), site, template) == RemoveSteps(site, template, policyId, [aclId])
  {
    var mine := {AclKey(aclId), PolicyKey(policyId), DeviceKey(site), FeatureKey(template)};
    Built(g, site, template, acl, aclId, policyId);
    InterleavingSeparates(g, w, mine, PolicyKey(policyId));
    InterleavingSeparates(g, w, mine, DeviceKey(site));
    var now := Run(g, All(w));
    var built := Run(g, Only(true, w));
    assert Look(built, DeviceKey(site)) == ARef(policyId) == Look(now, DeviceKey(site));
    assert Look(now, PolicyKey(policyId)) == APolicy(PolicyDefinition(PolicyName(site), [aclId]));
  }

  /** The graph holds the site's ACL as a creation asks for it: under the site's name, with the given sequences and
      with what the access type means. */
  ghost predicate HoldsAcl(g: Graph, site: string, access: string, sequences: seq<string>) {
    exists a :: HoldsAclAt(g, a, site, access, sequences)
  }

  predicate HoldsAclAt(g: Graph, a: string, site: string, access: string, sequences: seq<string>) {
    && a in g.acls && g.acls[a].name == site + "-acl" && g.acls[a].sequences == sequences
    && (access == "allow" ==> g.acls[a].defaultAction == "accept")
    && (access == "deny" || access == "" ==> g.acls[a].defaultAction == "drop")
    && (access != "allow" && access != "deny" && access != "" ==> g.acls[a].defaultAction == access)
  }

  /** A policy with that ACL has been put to work: named by the site's device template, the ACL by the feature
      template. */
  predicate PutToWork(g: Graph, after: Graph, site: string, template: string, aclId: string, policyId: string) {
    && after.policies == g.policies[policyId := PolicyDefinition(site + "-policy", [aclId])]
    && after.devices == g.devices[site := policyId]
    && after.features == g.features[template := site + "-acl"]
    && aclId in after.acls && after.acls[aclId].name == site + "-acl"
  }

  /** The site's policy and ACL are gone, and nothing names them. */
  ghost predicate TakenDown(g: Graph, after: Graph, site: string, template: string) {
    && site in g.devices
    && after.features == g.features[template := ""] && after.devices == g.devices[site := ""]
    && after.policies == g.policies - {g.devices[site]}
    && (forall a :: a in after.acls ==> after.acls[a].name != site + "-acl")
    && (forall a :: a in g.acls && g.acls[a].name != site + "-acl" ==> a in after.acls && after.acls[a] == g.acls[a])
  }

  /** Every ACL of another name is as it was. */
  predicate OtherAclsKept(g: Graph, after: Graph, site: string) {
    forall a :: a in g.acls && g.acls[a].name != site + "-acl" ==> a in after.acls && after.acls[a] == g.acls[a]
  }

  /** What a complete creation leaves. */
  lemma CreationLeaves(g: Graph, site: string, template: string, access: string, sequences: seq<string>,
                       aclId: string, policyId: string)
    requires site != "" && aclId !in g.acls
    ensures var plan := CreatePlan(g, site, template, AclData(site, access, sequences), aclId, policyId);
            var after := Run(g, plan[..|plan|]);
            && HoldsAcl(after, site, access, sequences) && OtherAclsKept(g, after, site)
            && if Named(g, AclName(site)) then after == g.(acls := after.acls)
               else PutToWork(g, after, site, template, aclId, policyId)
  {
    var acl := AclData(site, access, sequences);
    var plan := CreatePlan(g, site, template, acl, aclId, policyId);
    assert plan[..|plan|] == plan;
    if Named(g, AclName(site)) {
      var id := AclByName(g, AclName(site));
      RunMore(g, [PutAcl(id, acl)], 0);
      assert [PutAcl(id, acl)][..1] == [PutAcl(id, acl)];
      assert HoldsAclAt(Run(g, plan), id, site, access, sequences);
    } else {
      Built(g, site, template, acl, aclId, policyId);
      assert HoldsAclAt(Run(g, plan), aclId, site, access, sequences);
    }
  }

  /** What a complete deletion leaves. */
  lemma DeletionLeaves(g: Graph, templates: map<string, string>, site: string, template: string)
    requires Sound(g, templates) && site in g.devices && g.devices[site] != ""
    ensures var plan := DeletePlan(g, site, template); TakenDown(g, Run(g, plan[..|plan|]), site, template)
  {
    var p := g.devices[site];
    DeviceOwnsPolicy(g, templates, site);
    var id := g.policies[p].assemblies[0];
    assert g.policies[p].assemblies == [id];
    Removed(g, site, template, id, p);
    var plan := DeletePlan(g, site, template);
    assert plan[..|plan|] == plan;
  }

  /** A site for which vManage has no device template, or whose feature template is missing. */
  predicate Lacks(g: Graph, site: string, template: string) {
    site !in g.devices || template !in g.features
  }

  /** A state a plan passes through. */
  ghost predicate OnPlan(g: Graph, start: Graph, plan: seq<Step>) {
    exists k :: 0 <= k <= |plan| && g == Run(start, plan[..k])
  }

  /** A trace that goes on, from one state to the next along a plan. */
  ghost predicate Walks(before: seq<Graph>, after: seq<Graph>, start: Graph, plan: seq<Step>) {
    before <= after && forall i :: |before| <= i < |after| ==> OnPlan(after[i], start, plan)
  }

  class VManage {
    var graph: Graph
    /** Every state the graph went through, call by call. */
    ghost var trace: seq<Graph>
    /** The feature template each site uses. */
    ghost const templates: map<string, string>
    /** How each call ends, in the order the calls are made: any sequence of replies. */
    const replies: nat -> Reply
    var calls: nat

    constructor (replies: nat -> Reply, graph: Graph, ghost templates: map<string, string>)
      ensures this.replies == replies && this.graph == graph && this.templates == templates
      ensures calls == 0 && trace == []
    {
      this.replies, this.graph, this.templates := replies, graph, templates;
      calls, trace := 0, [];
    }

    /** No call since the n-th has failed. */
    ghost predicate Smooth(n: nat)
      reads this
    {
      SmoothBetween(replies, n, calls)
    }

    /** The states since a point of the trace are all sound. */
    ghost predicate SoundSince(n: nat)
      reads this
    {
      && n <= |trace|
      && Sound(graph, templates)
      && forall i :: n <= i < |trace| ==> Sound(trace[i], templates)
    }

    /** The next call of a plan.  It may fail, with or without its effect. */
    method Call(step: Step, ghost start: Graph, ghost plan: seq<Step>, ghost k: nat) returns (ok: bool, ghost done: nat)
      requires k < |plan| && plan[k] == step && graph == Run(start, plan[..k])
      modifies this
      ensures calls == old(calls) + 1 && ok == replies(old(calls)).Done?
      ensures done == (if replies(old(calls)).TookEffect() then k + 1 else k)
      ensures graph == Run(start, plan[..done])
      ensures Walks(old(trace), trace, start, plan)
      ensures ok ==> graph == Apply(old(graph), step)
    {
      RunMore(start, plan, k);
      var reply := replies(calls);
      calls := calls + 1;
      done := k;
      if reply.TookEffect() {
        graph := Apply(graph, step);
        done := k + 1;
      }
      trace := trace + [graph];
      ok := reply.Done?;
    }

    /** Any call that reads, pushes a configuration, waits for a status or writes the local record. */
    method Other() returns (ok: bool)
      modifies this`calls
      ensures calls == old(calls) + 1 && ok == replies(old(calls)).Done?
    {
      ok := replies(calls).Done?;
      calls := calls + 1;
    }

    method FindAcl(name: string) returns (id: Option<string>)
      ensures id.None? <==> !Named(graph, name)
      ensures id.Some? ==> id.value in graph.acls && graph.acls[id.value].name == name
    {
      var todo := graph.acls.Keys;
      id := None;
      while todo != {}
        invariant todo <= graph.acls.Keys
        invariant forall a :: a in graph.acls && a !in todo ==> graph.acls[a].name != name
        decreases |todo|
      {
        var a :| a in todo;
        if graph.acls[a].name == name {
          return Some(a);
        }
        todo := todo - {a};
      }
    }

    /** Whichever call fails, and whether or not it took effect, the calls made are a prefix of the plan
        and no state on the way holds a dangling reference.  When none fails, the one cause of an error is a
        site without an ACL that lacks a template. */
    method CreateACLPolicy(site: string, template: string, access: string, sequences: seq<string>,
                           aclId: string, policyId: string)
      returns (err: bool, ghost done: nat)
      requires Sound(graph, templates)
      requires site != "" ==> site in templates && templates[site] == template
      requires aclId !in graph.acls && policyId !in graph.policies && policyId != ""
      modifies this
      ensures old(trace) <= trace && SoundSince(|old(trace)|)
      ensures var plan := CreatePlan(old(graph), site, template, AclData(site, access, sequences), aclId, policyId);
              done <= |plan| && graph == Run(old(graph), plan[..done]) && (!err ==> done == |plan|)
      ensures calls >= old(calls)
      ensures Smooth(old(calls)) ==>
                (err <==> site != "" && !Named(old(graph), AclName(site)) && Lacks(old(graph), site, template))
      ensures site == "" ==> graph == old(graph)
      ensures !err && site != "" ==> HoldsAcl(graph, site, access, sequences) && OtherAclsKept(old(graph), graph, site)
      ensures !err && site != "" && !Named(old(graph), site + "-acl") ==>
                PutToWork(old(graph), graph, site, template, aclId, policyId)
    {
      if site != "" {
        CreationLeaves(graph, site, template, access, sequences, aclId, policyId);
      }
      err, done := MakePolicy(site, template, AclData(site, access, sequences), aclId, policyId);
    }

    /** The body of createACLPolicy. */
    method MakePolicy(site: string, template: string, acl: Acl, aclId: string, policyId: string)
      returns (err: bool, ghost done: nat)
      requires Sound(graph, templates) && acl.name == AclName(site)
      requires site != "" ==> site in templates && templates[site] == template
      requires aclId !in graph.acls && policyId !in graph.policies && policyId != ""
      modifies this
      ensures old(trace) <= trace && SoundSince(|old(trace)|)
      ensures var plan := CreatePlan(old(graph), site, template, acl, aclId, policyId);
              done <= |plan| && graph == Run(old(graph), plan[..done]) && (!err ==> done == |plan|)
      ensures calls >= old(calls)
      ensures Smooth(old(calls)) ==>
                (err <==> site != "" && !Named(old(graph), AclName(site)) && Lacks(old(graph), site, template))
    {
      CreatePlanSound(graph, templates, site, template, acl, aclId, policyId);
      if site == "" {
        return false, 0;
      }
      var ok := Other();
      if !ok { return true, 0; }
      var found := FindAcl(AclName(site));
      if found.Some? {
        err, done := UpdatePolicy(found.value, acl);
      } else {
        err, done := BuildPolicy(site, template, acl, aclId, policyId);
      }
    }

    /** The part of createACLPolicy for a site with its ACL. */
    method UpdatePolicy(id: string, acl: Acl) returns (err: bool, ghost done: nat)
      modifies this
      ensures done <= 1 && graph == Run(old(graph), [PutAcl(id, acl)][..done]) && (!err ==> done == 1)
      ensures Walks(old(trace), trace, old(graph), [PutAcl(id, acl)])
      ensures calls >= old(calls) && (Smooth(old(calls)) ==> !err)
    {
      var ok;
      ok, done := Call(PutAcl(id, acl), graph, [PutAcl(id, acl)], 0);
      if !ok { return true, done; }
      ok := Other();
      if !ok { return true, done; }
      ok := Other();
      err := !ok;
    }

    /** The part of createACLPolicy for a site without an ACL: the two objects, and then what refers to them. */
    method BuildPolicy(site: string, template: string, acl: Acl, aclId: string, policyId: string)
      returns (err: bool, ghost done: nat)
      modifies this
      ensures var plan := BuildSteps(site, template, acl, aclId, policyId);
              && done <= |plan| && graph == Run(old(graph), plan[..done]) && (!err ==> done == |plan|)
              && Walks(old(trace), trace, old(graph), plan)
      ensures calls >= old(calls) && (Smooth(old(calls)) ==> (err <==> Lacks(old(graph), site, template)))
    {
      ghost var g := graph;
      ghost var plan := BuildSteps(site, template, acl, aclId, policyId);
      var ok;
      ok, done := Call(PutAcl(aclId, acl), g, plan, 0);
      if !ok { return true, done; }
      ok, done := Call(PutPolicy(policyId, PolicyDefinition(PolicyName(site), [aclId])), g, plan, 1);
      if !ok { return true, done; }
      err, done := PutInForce(site, template, policyId, g, plan);
    }

    /** Its second half: the device template, and then the feature template. */
    method PutInForce(site: string, template: string, policyId: string, ghost g: Graph, ghost plan: seq<Step>)
      returns (err: bool, ghost done: nat)
      requires |plan| == 4 && plan[2] == SetDevice(site, policyId) && plan[3] == SetFeature(template, AclName(site))
      requires graph == Run(g, plan[..2])
      modifies this
      ensures done <= 4 && graph == Run(g, plan[..done]) && (!err ==> done == 4)
      ensures Walks(old(trace), trace, g, plan)
      ensures calls >= old(calls) && (Smooth(old(calls)) ==> (err <==> Lacks(old(graph), site, template)))
    {
      done := 2;
      var ok := Other();
      if !ok || site !in graph.devices { return true, done; }
      ok, done := Call(SetDevice(site, policyId), g, plan, 2);
      if !ok { return true, done; }
      ok := Other();
      if !ok { return true, done; }

      ok := Other();
      if !ok || template !in graph.features { return true, done; }
      ok, done := Call(SetFeature(template, AclName(site)), g, plan, 3);
      if !ok { return true, done; }
      ok := Other();
      if !ok { return true, done; }

      ok := Other();
      err := !ok;
    }

    /** The same for a deletion.  Without a feature template, or without a device template that names a policy,
        it always ends in an error; otherwise only a failed call can be the cause of one. */
    method DeleteACLPolicy(site: string, template: string) returns (err: bool, ghost done: nat)
      requires Sound(graph, templates)
      requires site in graph.devices ==> site in templates && templates[site] == template
      modifies this
      ensures old(trace) <= trace && SoundSince(|old(trace)|)
      ensures var plan := DeletePlan(old(graph), site, template);
              done <= |plan| && graph == Run(old(graph), plan[..done]) && (!err ==> done == |plan|)
      ensures calls >= old(calls)
      ensures !err || Smooth(old(calls)) ==>
                (err <==> Lacks(old(graph), site, template) || old(graph).devices[site] == "")
      ensures !err ==> TakenDown(old(graph), graph, site, template)
    {
      DeletePlanSound(graph, templates, site, template);
      if site in graph.devices && graph.devices[site] != "" {
        DeletionLeaves(graph, templates, site, template);
      }
      err, done := RemovePolicy(site, template);
    }

    /** The body of deleteACLPolicy. */
    method RemovePolicy(site: string, template: string) returns (err: bool, ghost done: nat)
      requires site in graph.devices && graph.devices[site] == "" ==> "" !in graph.policies
      modifies this
      ensures var plan := DeletePlan(old(graph), site, template);
              && done <= |plan| && graph == Run(old(graph), plan[..done]) && (!err ==> done == |plan|)
              && Walks(old(trace), trace, old(graph), plan)
      ensures calls >= old(calls)
      ensures !err || Smooth(old(calls)) ==>
                (err <==> Lacks(old(graph), site, template) || old(graph).devices[site] !in old(graph).policies)
    {
      ghost var g := graph;
      ghost var plan := DeletePlan(graph, site, template);
      var ok := Other();
      if !ok || template !in graph.features { return true, 0; }
      ok, done := Call(SetFeature(template, ""), g, plan, 0);
      if !ok { return true, done; }
      err, done := DetachPolicy(site, g, plan);
    }

    /** Its next part: the device template forgets the policy. */
    method DetachPolicy(site: string, ghost g: Graph, ghost plan: seq<Step>) returns (err: bool, ghost done: nat)
      requires |plan| >= 1 && graph == Run(g, plan[..1])
      requires site in graph.devices ==> |plan| > 1 && plan[1] == SetDevice(site, "")
      requires site in graph.devices && graph.devices[site] in graph.policies ==>
                 && |plan| > 2 && plan[2] == DropPolicy(graph.devices[site])
                 && plan[3..] == DropAcls(graph.policies[graph.devices[site]].assemblies)
      modifies this
      ensures 1 <= done <= |plan| && graph == Run(g, plan[..done]) && (!err ==> done == |plan|)
      ensures Walks(old(trace), trace, g, plan)
      ensures calls >= old(calls)
      ensures !err || Smooth(old(calls)) ==>
                (err <==> site !in old(graph).devices || old(graph).devices[site] !in old(graph).policies)
    {
      done := 1;
      var ok := Other();
      if !ok || site !in graph.devices { return true, done; }
      var policyId := graph.devices[site];
      ok, done := Call(SetDevice(site, ""), g, plan, 1);
      if !ok { return true, done; }
      err, done := DropPolicyAndAcls(policyId, g, plan);
    }

    /** Its last part: the policy, and then the ACLs the policy assembled. */
    method DropPolicyAndAcls(policyId: string, ghost g: Graph, ghost plan: seq<Step>)
      returns (err: bool, ghost done: nat)
      requires |plan| >= 2 && graph == Run(g, plan[..2])
      requires policyId in graph.policies ==>
                 |plan| > 2 && plan[2] == DropPolicy(policyId) && plan[3..] == DropAcls(graph.policies[policyId].assemblies)
      modifies this
      ensures 2 <= done <= |plan| && graph == Run(g, plan[..done])
      ensures !err ==> done == |plan|
      ensures calls >= old(calls)
      ensures !err || Smooth(old(calls)) ==> (err <==> policyId !in old(graph).policies)
      ensures Walks(old(trace), trace, g, plan)
    {
      var ok := Other();
      if !ok || policyId !in graph.policies { return true, 2; }
      var assemblies := graph.policies[policyId].assemblies;
      ok, done := Call(DropPolicy(policyId), g, plan, 2);
      if !ok { return true, done; }
      err, done := DropAssemblies(assemblies, g, plan);
    }

    /** Its last loop. */
    method DropAssemblies(assemblies: seq<string>, ghost g: Graph, ghost plan: seq<Step>)
      returns (err: bool, ghost done: nat)
      requires |plan| == 3 + |assemblies| && plan[3..] == DropAcls(assemblies)
      requires graph == Run(g, plan[..3])
      modifies this
      ensures 2 <= done <= |plan| && graph == Run(g, plan[..done]) && (!err ==> done == |plan|)
      ensures calls >= old(calls) && (Smooth(old(calls)) ==> !err)
      ensures Walks(old(trace), trace, g, plan)
    {
      done := 3;
      for i := 0 to |assemblies|
        invariant calls >= old(calls) && done == 3 + i && graph == Run(g, plan[..done])
        invariant Walks(old(trace), trace, g, plan)
      {
        assert plan[3 + i] == plan[3..][i];
        var ok;
        ok, done := Call(DropAcl(assemblies[i]), g, plan, 3 + i);
        if !ok { return true, done; }
      }
      err := false;
    }
  }
}
