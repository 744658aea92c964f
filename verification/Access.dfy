/** Who may do what on the management API. */
module Access {
  import opened Storage

  datatype Role = Viewer | Operator | Maintainer | Breakglass {
    function Level(): nat {
      match this
      case Viewer => 1
      case Operator => 2
      case Maintainer => 3
      case Breakglass => 4
    }

    predicate Satisfies(required: Role) {
      Level() >= required.Level()
    }
  }

  datatype RoleBinding = RoleBinding(role: Role, subjects: seq<string>)

  datatype HttpMethod = GET | PUT | OtherMethod(name: string)

  datatype Reason = NoRoleRequired | Authorized | InsufficientRole | NoRoleAssigned

  /** `role_for`: of the bindings that list the name, the last with the highest level. */
  function RoleFor(roles: seq<RoleBinding>, commonName: string): Option<Role> {
    if roles == [] then None
    else
      var best, last := RoleFor(roles[..|roles| - 1], commonName), roles[|roles| - 1];
      if commonName !in last.subjects then best
      else if best.Some? && best.value.Level() > last.role.Level() then best
      else Some(last.role)
  }

  function RequiredRole(m: HttpMethod, path: string): Option<Role> {
    if m.GET? && path == "/v1/healthz" then None
    else if m.GET? && path == "/v1/status" then Some(Viewer)
    else if m.PUT? && path == "/v1/config" then Some(Operator)
    else Some(Breakglass)
  }

  /** The decision in `authorize`; no Common Name, no role. */
  function Decide(roles: seq<RoleBinding>, subject: Option<string>, m: HttpMethod, path: string): (bool, Reason) {
    var granted := if subject.None? then None else RoleFor(roles, subject.value);
    var required := RequiredRole(m, path);
    if required.None? then (true, NoRoleRequired)
    else if granted.None? then (false, NoRoleAssigned)
    else if granted.value.Satisfies(required.value) then (true, Authorized)
    else (false, InsufficientRole)
  }

  predicate Allowed(roles: seq<RoleBinding>, subject: Option<string>, m: HttpMethod, path: string) {
    Decide(roles, subject, m, path).0
  }

  /** Some binding gives the name at least this level. */
  ghost predicate Grants(roles: seq<RoleBinding>, commonName: string, level: nat) {
    exists b | b in roles :: commonName in b.subjects && b.role.Level() >= level
  }

  lemma {:induction false} RoleForIsHighest(roles: seq<RoleBinding>, commonName: string, level: nat)
    requires level > 0
    ensures Grants(roles, commonName, level) <==>
            RoleFor(roles, commonName).Some? && RoleFor(roles, commonName).value.Level() >= level
  {
    if roles != [] {
      var before, last := roles[..|roles| - 1], roles[|roles| - 1];
      RoleForIsHighest(before, commonName, level);
      assert forall b | b in roles :: b in before || b == last;
      if Grants(before, commonName, level) {
        var b :| b in before && commonName in b.subjects && b.role.Level() >= level;
        assert b in roles;
      }
      assert last in roles;
    }
  }

  /** A request is allowed exactly when its route needs no role, or some binding lists the
      caller's Common Name with a role at least as high as the route's; and the reason given
      for a refusal tells whether any binding lists the name at all. */
  lemma DecisionIsDeclarative(roles: seq<RoleBinding>, subject: Option<string>, m: HttpMethod, path: string)
    ensures Allowed(roles, subject, m, path) <==>
            RequiredRole(m, path).None?
            || (subject.Some? && Grants(roles, subject.value, RequiredRole(m, path).value.Level()))
    ensures Decide(roles, subject, m, path).1 == NoRoleAssigned <==>
            RequiredRole(m, path).Some? && !(subject.Some? && exists b | b in roles :: subject.value in b.subjects)
    ensures Decide(roles, subject, m, path).1 == NoRoleRequired <==> RequiredRole(m, path).None?
    ensures Decide(roles, subject, m, path).1 == Authorized ==> Allowed(roles, subject, m, path)
    ensures Decide(roles, subject, m, path).1 == InsufficientRole ==> !Allowed(roles, subject, m, path)
  {
    if subject.Some? && RequiredRole(m, path).Some? {
      RoleForIsHighest(roles, subject.value, RequiredRole(m, path).value.Level());
      RoleForIsHighest(roles, subject.value, 1);
      ListedHasLevelOne(roles, subject.value);
    }
  }

  lemma ListedHasLevelOne(roles: seq<RoleBinding>, commonName: string)
    ensures Grants(roles, commonName, 1) <==> exists b | b in roles :: commonName in b.subjects
  {
    if b :| b in roles && commonName in b.subjects {
      assert b.role.Level() >= 1;
    }
  }

  /** Adding bindings never takes a permission away. So neither their order nor repetition
      matters: see `SameBindingsSameDecision`. */
  lemma MoreBindingsAllowMore(roles: seq<RoleBinding>, more: seq<RoleBinding>, subject: Option<string>, m: HttpMethod, path: string)
    requires forall b | b in roles :: b in more
    requires Allowed(roles, subject, m, path)
    ensures Allowed(more, subject, m, path)
  {
    DecisionIsDeclarative(roles, subject, m, path);
    DecisionIsDeclarative(more, subject, m, path);
  }

  lemma SameBindingsSameDecision(roles: seq<RoleBinding>, others: seq<RoleBinding>, subject: Option<string>, m: HttpMethod, path: string)
    requires forall b :: b in roles <==> b in others
    ensures Decide(roles, subject, m, path) == Decide(others, subject, m, path)
  {
    DecisionIsDeclarative(roles, subject, m, path);
    DecisionIsDeclarative(others, subject, m, path);
    if subject.Some? {
      RoleForIsHighest(roles, subject.value, 1);
      RoleForIsHighest(others, subject.value, 1);
    }
  }

  ghost predicate Listed(roles: seq<RoleBinding>, subject: Option<string>, among: set<Role>) {
    subject.Some? && exists b | b in roles :: subject.value in b.subjects && b.role in among
  }

  lemma ListedIsGranted(roles: seq<RoleBinding>, subject: Option<string>, level: nat, among: set<Role>)
    requires forall r: Role :: r in among <==> r.Level() >= level
    ensures Listed(roles, subject, among) <==> subject.Some? && Grants(roles, subject.value, level)
  {
  }

  /** The policy, route by route and role by role: anyone may ask for health, any role for the
      status, all but viewers may configure, and everything else is for the break-glass role. */
  lemma RouteTable(roles: seq<RoleBinding>, subject: Option<string>, m: HttpMethod, path: string)
    ensures Allowed(roles, subject, m, path) <==>
            match (m, path)
            case (GET, "/v1/healthz") => true
            case (GET, "/v1/status") => Listed(roles, subject, {Viewer, Operator, Maintainer, Breakglass})
            case (PUT, "/v1/config") => Listed(roles, subject, {Operator, Maintainer, Breakglass})
            case _ => Listed(roles, subject, {Breakglass})
  {
    DecisionIsDeclarative(roles, subject, m, path);
    ListedIsGranted(roles, subject, 1, {Viewer, Operator, Maintainer, Breakglass});
    ListedIsGranted(roles, subject, 2, {Operator, Maintainer, Breakglass});
    ListedIsGranted(roles, subject, 4, {Breakglass});
  }
}
