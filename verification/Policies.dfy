/** internal/central/policy.go: evaluating, validating and hot-swapping the RBAC
    policy.  Case-insensitive verb equality is the parameter `same`; reading and
    parsing the policy file is the parameter `Document` of a reload. */
module Policies {
  import opened Glob
  import opened AccessRequests

  datatype Rule = Rule(clusters: seq<string>, namespaces: seq<string>, resources: seq<string>, verbs: seq<string>)
  datatype Role = Role(name: string, rules: seq<Rule>)
  datatype Binding = Binding(subject: string, roles: seq<string>)
  datatype Policy = Policy(defaultRole: string, roles: seq<Role>, bindings: seq<Binding>)

  type SameVerb = (string, string) -> bool

  // ----- what a policy grants ----------------------------------------------

  predicate SomeMatches(patterns: seq<string>, value: string) {
    exists p | p in patterns :: Matcher(p, value)
  }

  predicate SomeVerb(verbs: seq<string>, verb: string, same: SameVerb) {
    exists v | v in verbs :: v == "*" || same(v, verb)
  }

  predicate RuleGrants(rule: Rule, req: AccessRequest, same: SameVerb) {
    && SomeMatches(rule.clusters, req.cluster)
    && SomeMatches(rule.namespaces, req.namespace)
    && SomeMatches(rule.resources, req.resource)
    && SomeVerb(rule.verbs, req.verb, same)
  }

  /** The subject holds the role called `name`, by a binding or by default. */
  predicate Holds(p: Policy, subject: string, name: string) {
    || (exists b | b in p.bindings :: Matcher(b.subject, subject) && name in b.roles)
    || (p.defaultRole != "" && name == p.defaultRole)
  }

  /** Some held role has a rule that covers the request. */
  predicate Grants(p: Policy, subject: string, req: AccessRequest, same: SameVerb) {
    exists role | role in p.roles :: Holds(p, subject, role.name) && RoleGrants(role, req, same)
  }

  predicate RoleGrants(role: Role, req: AccessRequest, same: SameVerb) {
    exists rule | rule in role.rules :: RuleGrants(rule, req, same)
  }

  // ----- the evaluator -----------------------------------------------------

  method AnyMatch(patterns: seq<string>, value: string) returns (r: bool)
    ensures r <==> SomeMatches(patterns, value)
    ensures r <==> exists p | p in patterns :: Matcher(p, value)
  {
    for i := 0 to |patterns|
      invariant forall j | 0 <= j < i :: !Matcher(patterns[j], value)
    {
      var hit, _ := MatchPattern(patterns[i], value);
      if hit {
        return true;
      }
    }
    return false;
  }

  method AnyVerb(verbs: seq<string>, verb: string, same: SameVerb) returns (r: bool)
    ensures r <==> SomeVerb(verbs, verb, same)
    ensures r <==> exists v | v in verbs :: v == "*" || same(v, verb)
  {
    for i := 0 to |verbs|
      invariant forall j | 0 <= j < i :: verbs[j] != "*" && !same(verbs[j], verb)
    {
      if verbs[i] == "*" || same(verbs[i], verb) {
        assert verbs[i] in verbs;
        return true;
      }
    }
    return false;
  }

  method RuleAllows(rule: Rule, req: AccessRequest, same: SameVerb) returns (r: bool)
    ensures r <==> RuleGrants(rule, req, same)
  {
    r := AnyMatch(rule.clusters, req.cluster);
    if r {
      r := AnyMatch(rule.namespaces, req.namespace);
    }
    if r {
      r := AnyMatch(rule.resources, req.resource);
    }
    if r {
      r := AnyVerb(rule.verbs, req.verb, same);
    }
  }

  method RolesFor(p: Policy, subject: string) returns (roles: seq<string>)
    ensures forall name :: name in roles <==> Holds(p, subject, name)
    ensures forall name :: name in roles <==>
              || (exists b | b in p.bindings :: Matcher(b.subject, subject) && name in b.roles)
              || (name != "" && name == p.defaultRole)
  {
    roles := [];
    for i := 0 to |p.bindings|
      invariant forall name :: name in roles <==>
                  exists j | 0 <= j < i :: Matcher(p.bindings[j].subject, subject) && name in p.bindings[j].roles
    {
      var hit, _ := MatchPattern(p.bindings[i].subject, subject);
      if hit {
        roles := roles + p.bindings[i].roles;
      }
    }
    if p.defaultRole != "" {
      roles := roles + [p.defaultRole];
    }
  }

  method Allows(p: Policy, subject: string, req: AccessRequest, same: SameVerb) returns (r: bool)
    ensures r <==> Grants(p, subject, req, same)
    // some role that a matching binding or the default gives has a rule with a
    // matching pattern of each kind and the verb
    ensures r <==> exists role, rule | role in p.roles && rule in role.rules ::
              && ((exists b | b in p.bindings :: Matcher(b.subject, subject) && role.name in b.roles)
                  || (role.name != "" && role.name == p.defaultRole))
              && (exists c | c in rule.clusters :: Matcher(c, req.cluster))
              && (exists n | n in rule.namespaces :: Matcher(n, req.namespace))
              && (exists k | k in rule.resources :: Matcher(k, req.resource))
              && (exists v | v in rule.verbs :: v == "*" || same(v, req.verb))
  {
    var names := RolesFor(p, subject);
    var active := set name | name in names;
    for i := 0 to |p.roles|
      invariant forall j | 0 <= j < i :: !(Holds(p, subject, p.roles[j].name) && RoleGrants(p.roles[j], req, same))
    {
      var role := p.roles[i];
      if role.name in active {
        for k := 0 to |role.rules|
          invariant forall m | 0 <= m < k :: !RuleGrants(role.rules[m], req, same)
        {
          var granted := RuleAllows(role.rules[k], req, same);
          if granted {
            assert role in p.roles && RoleGrants(role, req, same);
            return true;
          }
        }
        assert !RoleGrants(role, req, same);
      }
    }
    return false;
  }

  // ----- against the documented meaning ------------------------------------

  predicate DocumentedMatch(patterns: seq<string>, value: string) {
    exists p | p in patterns :: Matches(p, value)
  }

  predicate DocumentedHolds(p: Policy, subject: string, name: string) {
    || (exists b | b in p.bindings :: Matches(b.subject, subject) && name in b.roles)
    || (p.defaultRole != "" && name == p.defaultRole)
  }

  predicate DocumentedRuleGrants(rule: Rule, req: AccessRequest, same: SameVerb) {
    && DocumentedMatch(rule.clusters, req.cluster)
    && DocumentedMatch(rule.namespaces, req.namespace)
    && DocumentedMatch(rule.resources, req.resource)
    && exists v | v in rule.verbs :: v == "*" || same(v, req.verb)
  }

  /** The same decision with patterns read as documented, '*' standing for any
      run of characters, rather than as the matcher reads them. */
  predicate DocumentedGrants(p: Policy, subject: string, req: AccessRequest, same: SameVerb) {
    exists role, rule | role in p.roles && rule in role.rules ::
      DocumentedHolds(p, subject, role.name) && DocumentedRuleGrants(rule, req, same)
  }

  /** The values for which ExactForValue makes the matcher right under every pattern. */
  predicate OrdinaryValues(subject: string, req: AccessRequest) {
    StarOnlyLast(subject) && StarOnlyLast(req.cluster) && StarOnlyLast(req.namespace) && StarOnlyLast(req.resource)
  }

  lemma SomeMatchesAsDocumented(patterns: seq<string>, value: string)
    ensures SomeMatches(patterns, value) ==> DocumentedMatch(patterns, value)
    ensures StarOnlyLast(value) && DocumentedMatch(patterns, value) ==> SomeMatches(patterns, value)
  {
    forall p | p in patterns
      ensures Matcher(p, value) ==> Matches(p, value)
      ensures StarOnlyLast(value) && Matches(p, value) ==> Matcher(p, value)
    {
      MatcherIsSound(p, value);
      MatcherIsComplete(p, value);
    }
  }

  lemma HoldsAsDocumented(p: Policy, subject: string, name: string)
    ensures Holds(p, subject, name) ==> DocumentedHolds(p, subject, name)
    ensures StarOnlyLast(subject) && DocumentedHolds(p, subject, name) ==> Holds(p, subject, name)
  {
    forall b | b in p.bindings
      ensures Matcher(b.subject, subject) ==> Matches(b.subject, subject)
      ensures StarOnlyLast(subject) && Matches(b.subject, subject) ==> Matcher(b.subject, subject)
    {
      MatcherIsSound(b.subject, subject);
      MatcherIsComplete(b.subject, subject);
    }
  }

  lemma RuleAsDocumented(rule: Rule, req: AccessRequest, same: SameVerb)
    ensures RuleGrants(rule, req, same) ==> DocumentedRuleGrants(rule, req, same)
    ensures StarOnlyLast(req.cluster) && StarOnlyLast(req.namespace) && StarOnlyLast(req.resource) ==>
              (RuleGrants(rule, req, same) <==> DocumentedRuleGrants(rule, req, same))
  {
    SomeMatchesAsDocumented(rule.clusters, req.cluster);
    SomeMatchesAsDocumented(rule.namespaces, req.namespace);
    SomeMatchesAsDocumented(rule.resources, req.resource);
  }

  /** The evaluator never grants more than the documentation says, and on
      ordinary values, the "*" of --all-namespaces included, nothing less. */
  lemma GrantsAsDocumented(p: Policy, subject: string, req: AccessRequest, same: SameVerb)
    ensures Grants(p, subject, req, same) ==> DocumentedGrants(p, subject, req, same)
    ensures OrdinaryValues(subject, req) && DocumentedGrants(p, subject, req, same) ==> Grants(p, subject, req, same)
  {
    if Grants(p, subject, req, same) {
      var role :| role in p.roles && Holds(p, subject, role.name) && RoleGrants(role, req, same);
      var rule :| rule in role.rules && RuleGrants(rule, req, same);
      HoldsAsDocumented(p, subject, role.name);
      RuleAsDocumented(rule, req, same);
    } else if OrdinaryValues(subject, req) && DocumentedGrants(p, subject, req, same) {
      var role, rule :| role in p.roles && rule in role.rules
                        && DocumentedHolds(p, subject, role.name) && DocumentedRuleGrants(rule, req, same);
      HoldsAsDocumented(p, subject, role.name);
      RuleAsDocumented(rule, req, same);
      assert RoleGrants(role, req, same);
    }
  }

  /** A pattern that the documentation, but not the matcher, reads as matching an
      unordinary value; for an ordinary one a pattern that both do. */
  lemma TellingPattern(value: string) returns (pattern: string)
    ensures Matches(pattern, value)
    ensures Matcher(pattern, value) <==> StarOnlyLast(value)
  {
    if StarOnlyLast(value) {
      pattern := value;
      RunOnItself(value, "", "");
      assert value + "" == value;
      MatcherIsComplete(value, value);
    } else {
      ExactForValue(value);
      pattern :| Matcher(pattern, value) != Matches(pattern, value);
      MatcherIsSound(pattern, value);
    }
  }

  /** For every other request there is a policy under which the documentation
      grants it to the subject and the evaluator does not. */
  lemma GrantsLess(subject: string, req: AccessRequest, same: SameVerb) returns (p: Policy)
    requires !OrdinaryValues(subject, req)
    ensures DocumentedGrants(p, subject, req, same) && !Grants(p, subject, req, same)
  {
    var s := TellingPattern(subject);
    var c := TellingPattern(req.cluster);
    var n := TellingPattern(req.namespace);
    var r := TellingPattern(req.resource);
    p := OneRule(s, c, n, r);
    OneRuleGrants(s, c, n, r, subject, req, same);
  }

  /** The policy with one binding to one role that has one rule. */
  function OneRule(s: string, c: string, n: string, r: string): Policy {
    Policy("", [Role("reader", [Rule([c], [n], [r], ["*"])])], [Binding(s, ["reader"])])
  }

  lemma OneRuleGrants(s: string, c: string, n: string, r: string, subject: string, req: AccessRequest, same: SameVerb)
    ensures var p := OneRule(s, c, n, r);
            && (Grants(p, subject, req, same) ==>
                  Matcher(s, subject) && Matcher(c, req.cluster) && Matcher(n, req.namespace) && Matcher(r, req.resource))
            && (Matches(s, subject) && Matches(c, req.cluster) && Matches(n, req.namespace) && Matches(r, req.resource) ==>
                  DocumentedGrants(p, subject, req, same))
  {
    var p := OneRule(s, c, n, r);
    var role, b := p.roles[0], p.bindings[0];
    var rule := role.rules[0];
    assert c in rule.clusters && n in rule.namespaces && r in rule.resources && "*" in rule.verbs;
    assert b in p.bindings && role in p.roles && rule in role.rules;
    if Matches(s, subject) {
      assert DocumentedHolds(p, subject, role.name);
    }
    if Matches(c, req.cluster) && Matches(n, req.namespace) && Matches(r, req.resource) {
      assert DocumentedRuleGrants(rule, req, same);
    }
  }

  /** The evaluator decides as documented under every policy exactly for the
      ordinary values. */
  lemma AsDocumentedExactly(subject: string, req: AccessRequest, same: SameVerb)
    ensures (forall p: Policy :: Grants(p, subject, req, same) <==> DocumentedGrants(p, subject, req, same))
       <==> OrdinaryValues(subject, req)
  {
    if OrdinaryValues(subject, req) {
      forall p: Policy
        ensures Grants(p, subject, req, same) <==> DocumentedGrants(p, subject, req, same)
      {
        GrantsAsDocumented(p, subject, req, same);
      }
    } else {
      var p := GrantsLess(subject, req, same);
      assert Grants(p, subject, req, same) != DocumentedGrants(p, subject, req, same);
    }
  }

  // ----- order and monotonicity --------------------------------------------

  predicate Subset<T(==)>(s: seq<T>, t: seq<T>) {
    forall x | x in s :: x in t
  }

  predicate RuleWithin(a: Rule, b: Rule) {
    && Subset(a.clusters, b.clusters) && Subset(a.namespaces, b.namespaces)
    && Subset(a.resources, b.resources) && Subset(a.verbs, b.verbs)
  }

  predicate RoleWithin(a: Role, b: Role) {
    a.name == b.name && forall rule | rule in a.rules :: exists rule' | rule' in b.rules :: RuleWithin(rule, rule')
  }

  predicate BindingWithin(a: Binding, b: Binding) {
    a.subject == b.subject && Subset(a.roles, b.roles)
  }

  /** `q` has everything `p` has, in any order: every binding, role and rule of
      `p` occurs in `q`, possibly with more entries. */
  predicate Within(p: Policy, q: Policy) {
    && (p.defaultRole == "" || p.defaultRole == q.defaultRole)
    && (forall a | a in p.roles :: exists b | b in q.roles :: RoleWithin(a, b))
    && (forall a | a in p.bindings :: exists b | b in q.bindings :: BindingWithin(a, b))
  }

  lemma WithinKeepsRole(p: Policy, q: Policy, subject: string, name: string)
    requires Within(p, q) && Holds(p, subject, name)
    ensures Holds(q, subject, name)
  {
    if p.defaultRole == "" || name != p.defaultRole {
      var a :| a in p.bindings && Matcher(a.subject, subject) && name in a.roles;
      var b :| b in q.bindings && BindingWithin(a, b);
      assert Matcher(b.subject, subject) && name in b.roles;
    }
  }

  lemma WithinKeepsRule(a: Rule, b: Rule, req: AccessRequest, same: SameVerb)
    requires RuleWithin(a, b) && RuleGrants(a, req, same)
    ensures RuleGrants(b, req, same)
  {
  }

  /** Adding bindings, roles, rules or entries never takes a permission away. */
  lemma AddingNeverRevokes(p: Policy, q: Policy, subject: string, req: AccessRequest, same: SameVerb)
    requires Within(p, q)
    ensures Grants(p, subject, req, same) ==> Grants(q, subject, req, same)
  {
    if Grants(p, subject, req, same) {
      var a :| a in p.roles && Holds(p, subject, a.name) && RoleGrants(a, req, same);
      var rule :| rule in a.rules && RuleGrants(rule, req, same);
      var b :| b in q.roles && RoleWithin(a, b);
      var rule' :| rule' in b.rules && RuleWithin(rule, rule');
      WithinKeepsRole(p, q, subject, a.name);
      WithinKeepsRule(rule, rule', req, same);
      assert RoleGrants(b, req, same);
    }
  }

  predicate RoleReordered(a: Role, b: Role) {
    a.name == b.name && multiset(a.rules) == multiset(b.rules)
  }

  /** `order` lists the positions of `s`, each once. */
  predicate Permutes(order: seq<nat>, n: nat) {
    && |order| == n
    && (forall i | 0 <= i < n :: order[i] < n)
    && (forall i | 0 <= i < n :: i in order)
  }

  /** `q` is `p` with its bindings, its roles and every role's rules reordered. */
  predicate Reordered(p: Policy, q: Policy, order: seq<nat>) {
    && p.defaultRole == q.defaultRole
    && multiset(p.bindings) == multiset(q.bindings)
    && |p.roles| == |q.roles| && Permutes(order, |p.roles|)
    && forall i | 0 <= i < |order| :: RoleReordered(p.roles[order[i]], q.roles[i])
  }

  lemma RoleReorderedIsWithin(a: Role, b: Role)
    requires RoleReordered(a, b)
    ensures RoleWithin(a, b) && RoleWithin(b, a)
  {
    forall rule | rule in a.rules
      ensures exists rule' | rule' in b.rules :: RuleWithin(rule, rule')
    {
      assert rule in multiset(a.rules);
      assert RuleWithin(rule, rule);
    }
    forall rule | rule in b.rules
      ensures exists rule' | rule' in a.rules :: RuleWithin(rule, rule')
    {
      assert rule in multiset(b.rules);
      assert RuleWithin(rule, rule);
    }
  }

  lemma ReorderedIsWithin(p: Policy, q: Policy, order: seq<nat>)
    requires Reordered(p, q, order)
    ensures Within(p, q) && Within(q, p)
  {
    forall i | 0 <= i < |p.roles|
      ensures exists b | b in q.roles :: RoleWithin(p.roles[i], b)
      ensures exists a | a in p.roles :: RoleWithin(q.roles[i], a)
    {
      assert i in order;
      var j :| 0 <= j < |order| && order[j] == i;
      RoleReorderedIsWithin(p.roles[order[j]], q.roles[j]);
      RoleReorderedIsWithin(p.roles[order[i]], q.roles[i]);
    }
    forall a | a in p.bindings + q.bindings
      ensures a in p.bindings && a in q.bindings && BindingWithin(a, a)
    {
      assert a in multiset(p.bindings) || a in multiset(q.bindings);
    }
    assert forall a | a in p.bindings :: a in p.bindings + q.bindings;
    assert forall a | a in q.bindings :: a in p.bindings + q.bindings;
  }

  /** The decision does not depend on the order of bindings, roles or rules. */
  lemma OrderIsIrrelevant(p: Policy, q: Policy, order: seq<nat>, subject: string, req: AccessRequest, same: SameVerb)
    requires Reordered(p, q, order)
    ensures Grants(p, subject, req, same) <==> Grants(q, subject, req, same)
  {
    ReorderedIsWithin(p, q, order);
    AddingNeverRevokes(p, q, subject, req, same);
    AddingNeverRevokes(q, p, subject, req, same);
  }

  // ----- validation --------------------------------------------------------

  predicate Defined(p: Policy, name: string) {
    exists role | role in p.roles :: role.name == name
  }

  predicate WellFormed(p: Policy) {
    && (forall i | 0 <= i < |p.roles| :: p.roles[i].name != "")
    && (forall i, j | 0 <= i < j < |p.roles| :: p.roles[i].name != p.roles[j].name)
    && (forall b, name | b in p.bindings && name in b.roles :: Defined(p, name))
    && (p.defaultRole != "" ==> Defined(p, p.defaultRole))
  }

  datatype PolicyError =
    | RoleWithoutName
    | DuplicateRole(name: string)
    | UnknownRole(subject: string, name: string)
    | UnknownDefault(name: string)

  datatype Verdict = Valid | Invalid(error: PolicyError)

  /** What an error says about the policy. */
  predicate Justified(p: Policy, e: PolicyError) {
    match e
    case RoleWithoutName => exists role | role in p.roles :: role.name == ""
    case DuplicateRole(name) =>
      exists i, j | 0 <= i < j < |p.roles| :: p.roles[i].name == p.roles[j].name == name
    case UnknownRole(subject, name) =>
      (exists b | b in p.bindings :: b.subject == subject && name in b.roles) && !Defined(p, name)
    case UnknownDefault(name) => name == p.defaultRole != "" && !Defined(p, name)
  }

  /** Accepts exactly the well-formed policies, with a true reason otherwise. */
  method Validate(p: Policy) returns (v: Verdict)
    ensures v.Valid? <==> WellFormed(p)
    ensures v.Valid? <==>
              && (forall i | 0 <= i < |p.roles| :: p.roles[i].name != "")
              && (forall i, j | 0 <= i < j < |p.roles| :: p.roles[i].name != p.roles[j].name)
              && (forall b, name | b in p.bindings && name in b.roles ::
                    exists role | role in p.roles :: role.name == name)
              && (p.defaultRole != "" ==> exists role | role in p.roles :: role.name == p.defaultRole)
    ensures v.Invalid? ==> Justified(p, v.error)
  {
    var defined: set<string> := {};
    for i := 0 to |p.roles|
      invariant forall name :: name in defined <==> exists j | 0 <= j < i :: p.roles[j].name == name
      invariant forall j | 0 <= j < i :: p.roles[j].name != ""
      invariant forall j, k | 0 <= j < k < i :: p.roles[j].name != p.roles[k].name
    {
      if p.roles[i].name == "" {
        return Invalid(RoleWithoutName);
      }
      if p.roles[i].name in defined {
        return Invalid(DuplicateRole(p.roles[i].name));
      }
      defined := defined + {p.roles[i].name};
    }
    assert forall name :: name in defined <==> Defined(p, name);
    for i := 0 to |p.bindings|
      invariant forall j, name | 0 <= j < i && name in p.bindings[j].roles :: Defined(p, name)
    {
      var b := p.bindings[i];
      for k := 0 to |b.roles|
        invariant forall m | 0 <= m < k :: Defined(p, b.roles[m])
      {
        if b.roles[k] !in defined {
          assert b in p.bindings && b.roles[k] in b.roles;
          return Invalid(UnknownRole(b.subject, b.roles[k]));
        }
      }
    }
    if p.defaultRole != "" && p.defaultRole !in defined {
      return Invalid(UnknownDefault(p.defaultRole));
    }
    forall b, name | b in p.bindings && name in b.roles
      ensures exists role | role in p.roles :: role.name == name
    {
      assert Defined(p, name);
    }
    return Valid;
  }

  /** Under a validated policy every held role is one that is defined, once. */
  lemma HeldRolesAreDefined(p: Policy, subject: string, name: string) returns (i: nat)
    requires WellFormed(p) && Holds(p, subject, name)
    ensures i < |p.roles| && p.roles[i].name == name
    ensures forall j | 0 <= j < |p.roles| && p.roles[j].name == name :: j == i
  {
    assert Defined(p, name);
    i :| 0 <= i < |p.roles| && p.roles[i].name == name;
  }

  // ----- hot reload --------------------------------------------------------

  /** What reading and parsing the policy file yields at one reload. */
  datatype Document = Unreadable | Malformed | Parsed(policy: Policy)

  predicate Loads(d: Document) {
    d.Parsed? && WellFormed(d.policy)
  }

  /** The policy in force after a run of reloads. */
  function InForce(initial: Policy, reloads: seq<Document>): Policy {
    if reloads == [] then initial
    else
      var last := reloads[|reloads| - 1];
      if Loads(last) then last.policy else InForce(initial, reloads[..|reloads| - 1])
  }

  class PolicyEngine {
    var current: Policy

    constructor (p: Policy)
      requires WellFormed(p)
      ensures current == p
    {
      current := p;
    }

    method Reload(d: Document) returns (ok: bool)
      modifies this
      ensures ok <==> Loads(d)
      ensures ok <==> d.Parsed? && WellFormed(d.policy)
      ensures current == if ok then d.policy else old(current)
    {
      if !d.Parsed? {
        return false;
      }
      var v := Validate(d.policy);
      if v.Invalid? {
        return false;
      }
      current := d.policy;
      return true;
    }

    /** The watch loop: one reload per change of the file. */
    method Watch(events: seq<Document>)
      modifies this
      ensures current == InForce(old(current), events)
    {
      for i := 0 to |events|
        invariant current == InForce(old(current), events[..i])
      {
        var _ := Reload(events[i]);
        assert events[..i + 1][..i] == events[..i];
      }
      assert events[..|events|] == events;
    }

    method Permits(subject: string, req: AccessRequest, same: SameVerb) returns (r: bool)
      ensures r <==> Grants(current, subject, req, same)
    {
      r := Allows(current, subject, req, same);
    }
  }

  /** Over any run of reloads a policy that has not been validated is never in
      force: it is the last document that loaded, or the initial policy. */
  lemma {:induction false} InForceIsLastValid(initial: Policy, reloads: seq<Document>)
    requires WellFormed(initial)
    ensures WellFormed(InForce(initial, reloads))
    ensures (exists i: nat :: LastLoaded(reloads, i) && InForce(initial, reloads) == reloads[i].policy)
         || ((forall i | 0 <= i < |reloads| :: reloads[i].Parsed? ==> !WellFormed(reloads[i].policy))
             && InForce(initial, reloads) == initial)
  {
    if reloads != [] {
      var n := |reloads| - 1;
      if Loads(reloads[n]) {
        assert LastLoaded(reloads, n);
      } else {
        InForceIsLastValid(initial, reloads[..n]);
        if i: nat :| LastLoaded(reloads[..n], i) && InForce(initial, reloads[..n]) == reloads[..n][i].policy {
          assert LastLoaded(reloads, i);
        } else {
          assert forall i | 0 <= i < n :: reloads[..n][i] == reloads[i];
        }
      }
    }
  }

  predicate LastLoaded(reloads: seq<Document>, i: nat) {
    && i < |reloads| && reloads[i].Parsed? && WellFormed(reloads[i].policy)
    && forall j | i < j < |reloads| :: reloads[j].Parsed? ==> !WellFormed(reloads[j].policy)
  }
}
