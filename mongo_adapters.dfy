/**
 * The MongoDB document adapters of the users service: a user is stored
 * with its roles as a list of role ids and with no password key when the
 * password is empty; reading it back keeps those of the supplied roles
 * whose id the document lists, in the supplied order.
 */
module MongoAdapters {
  import opened Wrappers
  import opened Values
  import opened UsersEntities

  /** `user_asbson`. */
  function UserAsBson(u: User): (d: map<string, Value>)
    ensures d.Keys == {"username", "email", "fullname", "roles"} + (if u.password != "" then {"password"} else {})
    ensures d["username"] == Str(u.username) && d["email"] == Str(u.email) && d["fullname"] == Str(u.fullname)
    ensures d["roles"] == List(RoleIds(u.roles))
    ensures "password" in d ==> d["password"] == Str(u.password)
  {
    var data := map["username" := Str(u.username), "email" := Str(u.email), "fullname" := Str(u.fullname),
                    "roles" := List(RoleIds(u.roles))];
    if u.password != "" then data["password" := Str(u.password)] else data
  }

  /** Python's `x in container` for a role id against the document's `roles` value. */
  function Holds(container: Value, id: int): (r: Result<bool, PyError>)
    ensures container.List? ==> r == Ok(Int(id) in container.items)
    ensures container.Dict? ==> r == Ok(false)
  {
    match container
    case List(items) => Ok(Int(id) in items)
    case Dict(_) => Ok(false)
    case _ => Err(TypeError("roles"))
  }

  /** The supplied roles whose id the document's role list holds, in the supplied order. */
  function KeptRoles(roles: seq<Role>, ids: seq<Value>): (kept: seq<Role>)
    ensures forall r :: r in kept <==> r in roles && Int(r.id) in ids
    ensures |kept| <= |roles|
  {
    if roles == [] then []
    else
      var rest := KeptRoles(roles[..|roles| - 1], ids);
      var last := roles[|roles| - 1];
      assert roles == roles[..|roles| - 1] + [last];
      if Int(last.id) in ids then rest + [last] else rest
  }

  /** A string field read with `data.get`; a missing or non-string value is one the model's `User` cannot hold. */
  function StrField(data: map<string, Value>, key: string): (r: Result<string, PyError>)
    ensures r.Ok? <==> key in data && data[key].Str?
    ensures r.Ok? ==> data[key] == Str(r.value)
  {
    if key in data && data[key].Str? then Ok(data[key].s) else Err(KeyError(key))
  }

  /** An integer field read with `data.get`, under the same reading. */
  function IntField(data: map<string, Value>, key: string): (r: Result<int, PyError>)
    ensures r.Ok? <==> key in data && data[key].Int?
    ensures r.Ok? ==> data[key] == Int(r.value)
  {
    if key in data && data[key].Int? then Ok(data[key].i) else Err(KeyError(key))
  }

  /** The user a document's scalar fields describe, with the given roles; fields are read in order. */
  function UserFields(data: map<string, Value>, kept: seq<Role>): (r: Result<User, PyError>)
    ensures r.Ok? ==> r.value.roles == kept
                      && "_id" in data && "username" in data && "email" in data && "fullname" in data && "password" in data
                      && data["_id"] == Int(r.value.id)
                      && data["username"] == Str(r.value.username) && data["email"] == Str(r.value.email)
                      && data["fullname"] == Str(r.value.fullname) && data["password"] == Str(r.value.password)
  {
    var id := IntField(data, "_id");
    var username := StrField(data, "username");
    var email := StrField(data, "email");
    var fullname := StrField(data, "fullname");
    var password := StrField(data, "password");
    if id.Err? then Err(id.error)
    else if username.Err? then Err(username.error)
    else if email.Err? then Err(email.error)
    else if fullname.Err? then Err(fullname.error)
    else if password.Err? then Err(password.error)
    else Ok(User(username.value, fullname.value, email.value, password.value, kept, id.value))
  }

  /**
   * The user a document describes, given the candidate roles: with any
   * candidate role to test, `roles` must be present (a subscript) and a
   * container; the role list keeps the candidates it holds.
   */
  function UserOfBson(data: map<string, Value>, roles: seq<Role>): (r: Result<User, PyError>)
  {
    if roles != [] && "roles" !in data then Err(KeyError("roles"))
    else if roles != [] && Holds(data["roles"], roles[0].id).Err? then Err(TypeError("roles"))
    else UserFields(data, if roles != [] && data["roles"].List? then KeptRoles(roles, data["roles"].items) else [])
  }

  /** `user_frombson`: walks the candidate roles, keeping those whose id the document lists. */
  method UserFromBson(data: map<string, Value>, roles: seq<Role>) returns (r: Result<User, PyError>)
    ensures r == UserOfBson(data, roles)
  {
    if roles == [] {
      return UserFields(data, []);
    }
    if "roles" !in data {
      return Err(KeyError("roles"));
    }
    var userRoles: seq<Role> := [];
    var i := 0;
    while i < |roles|
      invariant 0 <= i <= |roles|
      invariant i > 0 ==> Holds(data["roles"], roles[0].id).Ok?
      invariant userRoles == if data["roles"].List? then KeptRoles(roles[..i], data["roles"].items) else []
    {
      var holds := Holds(data["roles"], roles[i].id);
      if holds.Err? {
        return Err(holds.error);
      }
      assert roles[..i + 1][..i] == roles[..i];
      if holds.value {
        userRoles := userRoles + [roles[i]];
      }
      i := i + 1;
    }
    assert roles[..i] == roles;
    return UserFields(data, userRoles);
  }

  /** Filtering a list by the ids of a sub-list that keeps the list's order gives the sub-list back. */
  lemma {:induction false} KeptRolesOwnIds(roles: seq<Role>, ids: seq<Value>)
    requires forall i, j | 0 <= i < j < |roles| :: roles[i].id != roles[j].id
    requires forall i | 0 <= i < |roles| :: Int(roles[i].id) in ids
    ensures KeptRoles(roles, ids) == roles
  {
    if roles != [] {
      KeptRolesOwnIds(roles[..|roles| - 1], ids);
    }
  }

  /**
   * A stored user with a password reads back as itself once the database
   * adds its `_id`, provided the candidate roles are exactly the user's
   * roles (each with its own id).
   */
  lemma UserBsonRoundTrip(u: User)
    requires u.password != ""
    requires forall i, j | 0 <= i < j < |u.roles| :: u.roles[i].id != u.roles[j].id
    ensures UserOfBson(UserAsBson(u)["_id" := Int(u.id)], u.roles) == Ok(u)
  {
    var ids := RoleIds(u.roles);
    forall i | 0 <= i < |u.roles|
      ensures Int(u.roles[i].id) in ids
    {
      assert ids[i] == Int(u.roles[i].id);
    }
    KeptRolesOwnIds(u.roles, ids);
    StoredFields(u);
    var d := UserAsBson(u)["_id" := Int(u.id)];
    assert "roles" in d && d["roles"] == List(ids);
    if u.roles != [] {
      assert Holds(d["roles"], u.roles[0].id).Ok?;
      assert UserOfBson(d, u.roles) == UserFields(d, u.roles);
    }
  }

  /** The scalar fields of a stored user with a password read back as they were written. */
  lemma StoredFields(u: User)
    requires u.password != ""
    ensures UserFields(UserAsBson(u)["_id" := Int(u.id)], u.roles) == Ok(u)
  {
    var d := UserAsBson(u)["_id" := Int(u.id)];
    assert IntField(d, "_id") == Ok(u.id);
    assert StrField(d, "username") == Ok(u.username);
    assert StrField(d, "email") == Ok(u.email);
    assert StrField(d, "fullname") == Ok(u.fullname);
    assert StrField(d, "password") == Ok(u.password);
  }

  /** A user with an empty password does not read back: its document has no password to read. */
  lemma EmptyPasswordLost(u: User, roles: seq<Role>)
    requires u.password == ""
    ensures UserOfBson(UserAsBson(u)["_id" := Int(u.id)], roles) == Err(KeyError("password"))
  {
  }

  /** `role_asbson`. */
  function RoleAsBson(r: Role): (d: map<string, Value>)
    ensures d.Keys == {"name", "permissions"}
    ensures d["name"] == Str(r.name) && StrsOf(d["permissions"]) == Some(r.permissions)
  {
    StrsRoundTrip(r.permissions);
    map["name" := Str(r.name), "permissions" := Strs(r.permissions)]
  }

  /** `role_frombson`, under the same reading of missing or ill-typed fields. */
  function RoleFromBson(data: map<string, Value>): (r: Result<Role, PyError>)
    ensures r.Ok? ==> "_id" in data && "name" in data && "permissions" in data
                      && data["_id"] == Int(r.value.id) && data["name"] == Str(r.value.name)
                      && StrsOf(data["permissions"]) == Some(r.value.permissions)
  {
    var id := IntField(data, "_id");
    var name := StrField(data, "name");
    if id.Err? then Err(id.error)
    else if name.Err? then Err(name.error)
    else if "permissions" !in data || StrsOf(data["permissions"]).None? then Err(KeyError("permissions"))
    else Ok(Role(name.value, StrsOf(data["permissions"]).value, id.value))
  }

  /** A stored role reads back as itself once the database adds its `_id`. */
  lemma RoleBsonRoundTrip(r: Role)
    ensures RoleFromBson(RoleAsBson(r)["_id" := Int(r.id)]) == Ok(r)
  {
    assert "_id" !in RoleAsBson(r);
  }
}
