/**
 * The users service's entities: a `Role` names a list of permissions, a
 * `User` holds a list of roles, and a `Token` is what a login hands out.
 * A user's permissions are the union of its roles' permissions; the source
 * returns them as a duplicate-free list in no particular order, modelled
 * here as a set.
 */
module UsersEntities {
  import opened Values

  /** The id an entity has before a repository assigns one. */
  const UnsavedId := -1

  datatype Role = Role(name: string, permissions: seq<string>, id: int)

  datatype User = User(
    username: string,
    fullname: string,
    email: string,
    password: string,
    roles: seq<Role>,
    id: int)

  datatype Token = Token(token: string, owner: string, version: int, ns: string, permissions: set<string>)

  /** A new role, not yet stored: its id is the default. */
  function NewRole(name: string, permissions: seq<string>): (r: Role)
    ensures r.id == UnsavedId && r.name == name && r.permissions == permissions
  {
    Role(name, permissions, UnsavedId)
  }

  /** A new user, not yet stored: its id is the default. */
  function NewUser(username: string, fullname: string, email: string, password: string, roles: seq<Role>): (u: User)
    ensures u.id == UnsavedId
    ensures u.username == username && u.fullname == fullname && u.email == email
    ensures u.password == password && u.roles == roles
  {
    User(username, fullname, email, password, roles, UnsavedId)
  }

  /** The permissions collected from a list of roles, one role after the other. */
  function RolesPermissions(roles: seq<Role>): set<string>
  {
    if roles == [] then {}
    else RolesPermissions(roles[..|roles| - 1]) + Elements(roles[|roles| - 1].permissions)
  }

  /** The distinct strings of a list, as `set(list)` gives them. */
  function Elements(s: seq<string>): (r: set<string>)
    ensures forall x :: x in r <==> x in s
  {
    set i | 0 <= i < |s| :: s[i]
  }

  /** `User.permissions`. */
  function Permissions(u: User): (ps: set<string>)
    ensures u.roles == [] ==> ps == {}
  {
    RolesPermissions(u.roles)
  }

  /** A permission is collected exactly when some role in the list lists it. */
  lemma {:induction false} RolesPermissionsIff(roles: seq<Role>, p: string)
    ensures p in RolesPermissions(roles) <==> exists i | 0 <= i < |roles| :: p in roles[i].permissions
  {
    if roles != [] {
      var init := roles[..|roles| - 1];
      RolesPermissionsIff(init, p);
      if p in RolesPermissions(roles) && p !in roles[|roles| - 1].permissions {
        var i :| 0 <= i < |init| && p in init[i].permissions;
        assert roles[i] == init[i];
      }
      if exists i | 0 <= i < |roles| :: p in roles[i].permissions {
        var i :| 0 <= i < |roles| && p in roles[i].permissions;
        if i < |init| {
          assert init[i] == roles[i];
        }
      }
    }
  }

  /** A user holds a permission exactly when one of its roles lists it. */
  lemma PermissionsIff(u: User, p: string)
    ensures p in Permissions(u) <==> exists r | r in u.roles :: p in r.permissions
  {
    RolesPermissionsIff(u.roles, p);
    if exists r | r in u.roles :: p in r.permissions {
      var r :| r in u.roles && p in r.permissions;
      var i :| 0 <= i < |u.roles| && u.roles[i] == r;
    }
  }

  /** Roles that list nothing grant nothing. */
  lemma EmptyRolesNoPermissions(u: User)
    requires forall r | r in u.roles :: r.permissions == []
    ensures Permissions(u) == {}
  {
    forall p | p in Permissions(u)
      ensures false
    {
      PermissionsIff(u, p);
    }
  }

  /** The order of the roles does not matter to the permissions, nor does listing a role twice. */
  lemma PermissionsSameRoles(u: User, v: User)
    requires forall r :: r in u.roles <==> r in v.roles
    ensures Permissions(u) == Permissions(v)
  {
    forall p
      ensures p in Permissions(u) <==> p in Permissions(v)
    {
      PermissionsIff(u, p);
      PermissionsIff(v, p);
    }
  }

  /** `[role.id for role in roles]`, as the adapters render a user's roles. */
  function RoleIds(roles: seq<Role>): (ids: seq<Value>)
    ensures |ids| == |roles|
    ensures forall i | 0 <= i < |roles| :: ids[i] == Int(roles[i].id)
  {
    seq(|roles|, i requires 0 <= i < |roles| => Int(roles[i].id))
  }
}
