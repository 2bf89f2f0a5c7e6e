/** Users, roles, permission codes, and the grants that only ever grow
    (app/auth/rbac.py, app/permissions/service.py). */
module Rbac {
  import opened Common
  import Session

  datatype User = User(tenant: string, platformAdmin: bool, tenantOwner: bool, roles: set<string>)
  datatype Role = Role(tenant: string, permissions: set<string>)
  datatype Directory = Directory(users: map<string, User>, roles: map<string, Role>)

  predicate HoldsCode(d: Directory, user: User, code: string) {
    exists r :: r in user.roles && r in d.roles && code in d.roles[r].permissions
  }

  /** `require_permission` returns normally. A department without a code admits owners and admins only. */
  predicate Permitted(d: Directory, userId: string, code: Option<string>) {
    && userId in d.users
    && var user := d.users[userId];
       user.platformAdmin || user.tenantOwner || (code.Some? && HoldsCode(d, user, code.value))
  }

  predicate MayDecide(user: User) {
    user.tenantOwner || user.platformAdmin
  }

  ghost predicate UserGrows(u: User, v: User) {
    && v.tenant == u.tenant && v.platformAdmin == u.platformAdmin && v.tenantOwner == u.tenantOwner
    && u.roles <= v.roles
  }

  ghost predicate RoleGrows(r: Role, s: Role) {
    s.tenant == r.tenant && r.permissions <= s.permissions
  }

  /** No account, role or grant is ever taken away. */
  ghost predicate Grows(d: Directory, e: Directory) {
    && (forall u :: u in d.users ==> u in e.users && UserGrows(d.users[u], e.users[u]))
    && (forall r :: r in d.roles ==> r in e.roles && RoleGrows(d.roles[r], e.roles[r]))
  }

  lemma GrowsTransitive(a: Directory, b: Directory, c: Directory)
    requires Grows(a, b) && Grows(b, c)
    ensures Grows(a, c)
  {
    forall u | u in a.users ensures u in c.users && UserGrows(a.users[u], c.users[u]) {
      assert UserGrows(a.users[u], b.users[u]) && UserGrows(b.users[u], c.users[u]);
    }
    forall r | r in a.roles ensures r in c.roles && RoleGrows(a.roles[r], c.roles[r]) {
      assert RoleGrows(a.roles[r], b.roles[r]) && RoleGrows(b.roles[r], c.roles[r]);
    }
  }

  /** Once a check has passed it keeps passing. */
  lemma PermittedStays(d: Directory, e: Directory, userId: string, code: Option<string>)
    requires Grows(d, e) && Permitted(d, userId, code)
    ensures Permitted(e, userId, code)
  {
    var u, v := d.users[userId], e.users[userId];
    assert UserGrows(u, v);
    if !(u.platformAdmin || u.tenantOwner) {
      var r :| r in u.roles && r in d.roles && code.value in d.roles[r].permissions;
      assert RoleGrows(d.roles[r], e.roles[r]);
      assert r in v.roles && r in e.roles && code.value in e.roles[r].permissions;
    }
  }

  /** A role that lists a code admits exactly the old holders and the role's own members. */
  lemma GrantReaches(d: Directory, roleId: string, code: string, userId: string, asked: string)
    requires roleId in d.roles && userId in d.users
    requires !d.users[userId].platformAdmin && !d.users[userId].tenantOwner
    ensures Permitted(WithPermission(d, roleId, code), userId, Some(asked))
        <==> Permitted(d, userId, Some(asked)) || (asked == code && roleId in d.users[userId].roles)
  {
    var e := WithPermission(d, roleId, code);
    var user := d.users[userId];
    if Permitted(e, userId, Some(asked)) {
      var r :| r in user.roles && r in e.roles && asked in e.roles[r].permissions;
      if !(asked == code && roleId in user.roles) {
        assert r in d.roles && asked in d.roles[r].permissions;
      }
    }
    if asked == code && roleId in user.roles {
      assert roleId in e.roles && asked in e.roles[roleId].permissions;
    }
    if Permitted(d, userId, Some(asked)) {
      var r :| r in user.roles && r in d.roles && asked in d.roles[r].permissions;
      assert r in e.roles && asked in e.roles[r].permissions;
    }
  }

  function WithPermission(d: Directory, roleId: string, code: string): Directory
    requires roleId in d.roles
  {
    d.(roles := d.roles[roleId := d.roles[roleId].(permissions := d.roles[roleId].permissions + {code})])
  }

  function WithRole(d: Directory, userId: string, roleId: string): Directory
    requires userId in d.users
  {
    d.(users := d.users[userId := d.users[userId].(roles := d.users[userId].roles + {roleId})])
  }

  /** A role's row as the row-level policy sees it. */
  function RoleRow(id: string, tenant: string): Session.Row {
    Session.Row("roles", id, tenant, "")
  }

  datatype Outcome = Granted | RoleNotFound | UnknownPermission | UserNotFound

  /** The users, roles and permission catalog tables, and the two grant operations on them. */
  class PermissionService {
    const required: set<string>   // the codes the department registry enforces
    var users: map<string, User>
    var roles: map<string, Role>
    var catalog: set<string>

    constructor (required: set<string>, users: map<string, User>, roles: map<string, Role>, catalog: set<string>)
      ensures this.required == required && Tables() == Directory(users, roles) && this.catalog == catalog
    {
      this.required, this.users, this.roles, this.catalog := required, users, roles, catalog;
    }

    function Tables(): Directory
      reads this
    {
      Directory(users, roles)
    }

    /** require_permission. A department without a code admits owners and administrators only. */
    method RequirePermission(userId: string, code: Option<string>) returns (denied: bool)
      requires userId in users
      ensures !denied <==>
        users[userId].platformAdmin || users[userId].tenantOwner ||
        (code.Some? && exists r :: r in users[userId].roles && r in roles && code.value in roles[r].permissions)
      ensures denied <==> !Permitted(Tables(), userId, code)
    {
      var user := users[userId];
      if user.platformAdmin || user.tenantOwner {
        return false;
      }
      var held := set r, c | r in user.roles && r in roles && c in roles[r].permissions :: c;
      denied := code.None? || code.value !in held;
    }

    method EnsureCatalogSeeded() returns (committed: bool)
      modifies this`catalog
      ensures catalog == old(catalog) + required
      ensures committed <==> !(required <= old(catalog))
    {
      var missing := required - catalog;
      ghost var before := catalog;
      committed := missing != {};
      while missing != {}
        invariant missing <= required
        invariant before <= catalog <= before + required
        invariant required - catalog == missing
        decreases missing
      {
        var code :| code in missing;
        catalog := catalog + {code};
        missing := missing - {code};
      }
      forall c | c in required ensures c in catalog {
        assert c !in required - catalog;
      }
    }

    /** `inherited` are the settings the session falls back to if the seeding commits. */
    method AssignPermissionToRole(tenant: string, roleId: string, code: string, inherited: Session.Settings)
      returns (outcome: Outcome)
      modifies this`catalog, this`roles
      ensures catalog == old(catalog) + required
      ensures outcome == if !(roleId in old(roles) && old(roles)[roleId].tenant == tenant) then RoleNotFound
                         else if !(required <= old(catalog) || Session.Admits(inherited, RoleRow(roleId, tenant)))
                         then RoleNotFound
                         else if code !in catalog then UnknownPermission else Granted
      ensures Tables() == if outcome.Granted? then WithPermission(old(Tables()), roleId, code) else old(Tables())
      ensures outcome.Granted? ==> roleId in roles && roles[roleId].tenant == tenant
      ensures outcome.Granted? ==> roles[roleId].permissions == old(roles)[roleId].permissions + {code}
      ensures roles.Keys == old(roles).Keys && users == old(users)
      ensures forall r :: r in roles && (r != roleId || !outcome.Granted?) ==> roles[r] == old(roles)[r]
      ensures Grows(old(Tables()), Tables())
      ensures forall r :: r in roles && roles[r].tenant != tenant ==> r in old(roles) && roles[r] == old(roles)[r]
    {
      var committed := EnsureCatalogSeeded();
      var settings := if committed then inherited else Session.Settings(Some(tenant), Some("false"));
      if roleId !in roles || roles[roleId].tenant != tenant {
        return RoleNotFound;
      }
      if !Session.Admits(settings, RoleRow(roleId, roles[roleId].tenant)) {
        return RoleNotFound;
      }
      if code !in catalog {
        return UnknownPermission;
      }
      var role := roles[roleId];
      if code !in role.permissions {
        roles := roles[roleId := role.(permissions := role.permissions + {code})];
      } else {
        assert role.permissions + {code} == role.permissions;
        assert roles[roleId := role] == roles;
      }
      return Granted;
    }

    method AssignRoleToUser(tenant: string, targetId: string, roleId: string) returns (outcome: Outcome)
      modifies this`users
      ensures outcome == if !(targetId in old(users) && old(users)[targetId].tenant == tenant) then UserNotFound
                         else if !(roleId in roles && roles[roleId].tenant == tenant) then RoleNotFound
                         else Granted
      ensures Tables() == if outcome.Granted? then WithRole(old(Tables()), targetId, roleId) else old(Tables())
      ensures outcome.Granted? ==> targetId in users && var was, target := old(users)[targetId], users[targetId];
        && target.roles == was.roles + {roleId} && target.tenant == was.tenant
        && target.platformAdmin == was.platformAdmin && target.tenantOwner == was.tenantOwner
      ensures users.Keys == old(users).Keys && roles == old(roles)
      ensures forall u :: u in users && (u != targetId || !outcome.Granted?) ==> users[u] == old(users)[u]
      ensures Grows(old(Tables()), Tables())
      ensures forall u :: u in users && users[u].tenant != tenant ==> u in old(users) && users[u] == old(users)[u]
    {
      if targetId !in users || users[targetId].tenant != tenant {
        return UserNotFound;
      }
      if roleId !in roles || roles[roleId].tenant != tenant {
        return RoleNotFound;
      }
      var target := users[targetId];
      if roleId !in target.roles {
        users := users[targetId := target.(roles := target.roles + {roleId})];
      } else {
        assert target.roles + {roleId} == target.roles;
        assert users[targetId := target] == users;
      }
      return Granted;
    }
  }
}
