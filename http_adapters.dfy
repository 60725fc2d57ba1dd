/**
 * The JSON shapes the users HTTP API answers with. A user is rendered
 * without its password; its roles are rendered as role ids, while the
 * same API takes roles by name on input.
 */
module HttpAdapters {
  import opened Wrappers
  import opened Values
  import opened UsersEntities
  import opened UserUseCases

  /** `user_asjson` as written: the roles appear as their ids. */
  function UserAsJson(u: User): (d: map<string, Value>)
    ensures d.Keys == {"id", "username", "email", "fullname", "roles"}
    ensures "password" !in d
    ensures d["id"] == Int(u.id) && d["username"] == Str(u.username)
    ensures d["email"] == Str(u.email) && d["fullname"] == Str(u.fullname)
    ensures d["roles"] == List(RoleIds(u.roles))
  {
    map["id" := Int(u.id), "username" := Str(u.username), "email" := Str(u.email),
        "fullname" := Str(u.fullname), "roles" := List(RoleIds(u.roles))]
  }

  /** The names of a list of roles, in order. */
  function RoleNames(roles: seq<Role>): (names: seq<string>)
    ensures |names| == |roles|
    ensures forall i | 0 <= i < |roles| :: names[i] == roles[i].name
  {
    seq(|roles|, i requires 0 <= i < |roles| => roles[i].name)
  }

  /** `user_asjson` rendering the roles by name, the form the API accepts them in. */
  function UserAsJsonNamed(u: User): (d: map<string, Value>)
    ensures d.Keys == {"id", "username", "email", "fullname", "roles"}
    ensures "password" !in d
    ensures d["id"] == Int(u.id) && d["username"] == Str(u.username)
    ensures d["email"] == Str(u.email) && d["fullname"] == Str(u.fullname)
    ensures StrsOf(d["roles"]) == Some(RoleNames(u.roles))
  {
    StrsRoundTrip(RoleNames(u.roles));
    UserAsJson(u)["roles" := Strs(RoleNames(u.roles))]
  }

  /** `role_asjson`. */
  function RoleAsJson(r: Role): (d: map<string, Value>)
    ensures d.Keys == {"id", "name", "permissions"}
    ensures d["id"] == Int(r.id) && d["name"] == Str(r.name)
    ensures StrsOf(d["permissions"]) == Some(r.permissions)
  {
    StrsRoundTrip(r.permissions);
    map["id" := Int(r.id), "name" := Str(r.name), "permissions" := Strs(r.permissions)]
  }

  /** The administrator the HTTP tests list, holding the roles users.admin (id 0) and shopping.admin (id 1). */
  function ListedAdmin(): User
  {
    User("admin01", "Admin", "admin01@company.com", "admin123",
         [Role("users.admin", ["users:edit", "users:view"], 0), Role("shopping.admin", ["shopping.list:edit"], 1)], 0)
  }

  /**
   * The written rendering gives the listed administrator the roles [0, 1],
   * where the tests expect ["users.admin", "shopping.admin"]; the rendering
   * by name gives exactly that.
   */
  lemma ListedAdminRoles()
    ensures UserAsJson(ListedAdmin())["roles"] == List([Int(0), Int(1)])
    ensures UserAsJson(ListedAdmin())["roles"] != Strs(["users.admin", "shopping.admin"])
    ensures UserAsJsonNamed(ListedAdmin())["roles"] == Strs(["users.admin", "shopping.admin"])
  {
    var u := ListedAdmin();
    assert RoleIds(u.roles) == [Int(0), Int(1)];
    assert RoleNames(u.roles) == ["users.admin", "shopping.admin"];
    assert Strs(["users.admin", "shopping.admin"]).items[0] == Str("users.admin");
  }

  /**
   * Role names rendered by name can be sent back: resolved by name against
   * a table holding each of the user's roles under its name, they give the
   * user's roles again.
   */
  lemma NamedRolesResolve(u: User, table: map<string, Role>)
    requires forall i | 0 <= i < |u.roles| :: u.roles[i].name in table && table[u.roles[i].name] == u.roles[i]
    ensures Resolve(table, RoleNames(u.roles), NamesVariant.invalid) == Ok(u.roles)
  {
    var names := RoleNames(u.roles);
    ResolveOk(table, names, NamesVariant.invalid);
    assert Resolve(table, names, NamesVariant.invalid).value == u.roles;
  }
}
