/**
 * The user use cases, in their two variants: one resolves a request's
 * roles by role name, the other by role id (and returns the edited user
 * from an update instead of reading it back). Both run against the
 * in-memory repositories.
 *
 * The repositories hand out their stored records themselves, so the field
 * writes `update_user` makes on a fetched user reach the repository at
 * once; `RepoStub.Mutate` models each such write.
 */
module UserUseCases {
  import opened Wrappers
  import opened Strings
  import opened UsersEntities
  import opened RepoStubs

  /** What tells the two variants apart: the role key, its error message, and whether an update reads back. */
  datatype Variant<!K> = Variant(roleKey: Role -> K, invalid: K -> string, rereads: bool)

  /** Roles named by `name`; an unknown name gives `invalid role: <name>`; updates read the user back. */
  const NamesVariant: Variant<string> :=
    Variant((r: Role) => r.name, (n: string) => "invalid role: " + n, true)

  /** Roles named by `id`; an unknown id gives `invalid role id: <id>`; updates return the edited user. */
  const IdsVariant: Variant<int> :=
    Variant((r: Role) => r.id, (i: int) => "invalid role id: " + IntToString(i), false)

  datatype CreateUserRequest<K> = CreateUserRequest(
    username: string, fullname: string, email: string, password: string, roles: seq<K>)

  datatype UpdateUserRequest<K> = UpdateUserRequest(
    id: int, fullname: string, email: string, password: string, roles: seq<K>)

  /** What `update_user` returns: `None`, an error message, or a user. */
  datatype UpdateReply = NoUser | Rejected(message: string) | Updated(user: User)

  /** `{role.<key>: role for role in roles}`: a later role replaces an earlier one with the same key. */
  function IndexRoles<K(==)>(roles: seq<Role>, key: Role -> K): (t: map<K, Role>)
  {
    if roles == [] then map[]
    else IndexRoles(roles[..|roles| - 1], key)[key(roles[|roles| - 1]) := roles[|roles| - 1]]
  }

  /** A key is in the table exactly when some role has it, and it maps to the last such role. */
  lemma {:induction false} IndexRolesLast<K>(roles: seq<Role>, key: Role -> K, k: K)
    ensures k in IndexRoles(roles, key) <==> exists i | 0 <= i < |roles| :: key(roles[i]) == k
    ensures k in IndexRoles(roles, key) ==>
              exists i | 0 <= i < |roles| :: key(roles[i]) == k && IndexRoles(roles, key)[k] == roles[i]
                                             && forall j | i < j < |roles| :: key(roles[j]) != k
  {
    if roles != [] {
      var n := |roles| - 1;
      var init := roles[..n];
      IndexRolesLast(init, key, k);
      if key(roles[n]) != k {
        if exists i | 0 <= i < |roles| :: key(roles[i]) == k {
          var i :| 0 <= i < |roles| && key(roles[i]) == k;
          assert key(init[i]) == k;
        }
        if k in IndexRoles(roles, key) {
          var i :| 0 <= i < |init| && key(init[i]) == k && IndexRoles(init, key)[k] == init[i]
                   && forall j | i < j < |init| :: key(init[j]) != k;
          assert roles[i] == init[i];
          assert forall j | i < j < |roles| :: key(roles[j]) != k by {
            forall j | i < j < |roles|
              ensures key(roles[j]) != k
            {
              if j < n {
                assert roles[j] == init[j];
              }
            }
          }
        }
      } else {
        assert key(roles[n]) == k && IndexRoles(roles, key)[k] == roles[n];
      }
    }
  }

  /**
   * The id-keyed table over the roles stub is the stub's own dictionary:
   * every stored role sits under the id it was stored with.
   */
  lemma IdTableIsRepository(roles: RepoStub<Role>)
    requires roles.Valid() && roles.keying == RoleKeying
    ensures IndexRoles(roles.Values(), IdsVariant.roleKey) == roles.data
  {
    var vs := roles.Values();
    var t := IndexRoles(vs, IdsVariant.roleKey);
    forall k
      ensures k in t <==> k in roles.data
    {
      IndexRolesLast(vs, IdsVariant.roleKey, k);
      if k in roles.data {
        var i :| 0 <= i < |roles.order| && roles.order[i] == k;
        assert IdsVariant.roleKey(vs[i]) == k;
      }
    }
    forall k | k in t
      ensures t[k] == roles.data[k]
    {
      IndexRolesLast(vs, IdsVariant.roleKey, k);
      var i :| 0 <= i < |vs| && IdsVariant.roleKey(vs[i]) == k && t[k] == vs[i];
    }
    assert t.Keys == roles.data.Keys;
  }

  /**
   * The roles a request names, looked up one after the other; the first
   * key the table lacks ends the lookup with its error message.
   */
  function Resolve<K(==)>(table: map<K, Role>, keys: seq<K>, invalid: K -> string): Result<seq<Role>, string>
  {
    if keys == [] then Ok([])
    else if keys[0] !in table then Err(invalid(keys[0]))
    else
      match Resolve(table, keys[1..], invalid)
      case Ok(rs) => Ok([table[keys[0]]] + rs)
      case Err(m) => Err(m)
  }

  /** Resolution succeeds exactly when every key is known, and then gives the keys' roles in order. */
  lemma {:induction false} ResolveOk<K>(table: map<K, Role>, keys: seq<K>, invalid: K -> string)
    ensures Resolve(table, keys, invalid).Ok? <==> forall i | 0 <= i < |keys| :: keys[i] in table
    ensures Resolve(table, keys, invalid).Ok? ==>
              |Resolve(table, keys, invalid).value| == |keys|
              && forall i | 0 <= i < |keys| :: Resolve(table, keys, invalid).value[i] == table[keys[i]]
  {
    if keys != [] {
      ResolveOk(table, keys[1..], invalid);
      if keys[0] in table && Resolve(table, keys[1..], invalid).Ok? {
        var rs := Resolve(table, keys[1..], invalid).value;
        forall i | 0 <= i < |keys|
          ensures ([table[keys[0]]] + rs)[i] == table[keys[i]]
        {
          if i > 0 {
            assert keys[i] == keys[1..][i - 1];
          }
        }
      }
      if forall i | 0 <= i < |keys| :: keys[i] in table {
        assert forall i | 0 <= i < |keys[1..]| :: keys[1..][i] in table by {
          forall i | 0 <= i < |keys[1..]|
            ensures keys[1..][i] in table
          {
            assert keys[1..][i] == keys[i + 1];
          }
        }
      }
      if keys[0] in table && !Resolve(table, keys[1..], invalid).Ok? {
        var i :| 0 <= i < |keys[1..]| && keys[1..][i] !in table;
        assert keys[i + 1] !in table;
      }
    }
  }

  /** A failed resolution names the first key the table lacks. */
  lemma {:induction false} ResolveErr<K>(table: map<K, Role>, keys: seq<K>, invalid: K -> string, i: nat)
    requires i < |keys| && keys[i] !in table
    requires forall j | 0 <= j < i :: keys[j] in table
    ensures Resolve(table, keys, invalid) == Err(invalid(keys[i]))
  {
    if i > 0 {
      assert keys[0] in table;
      forall j | 0 <= j < i - 1
        ensures keys[1..][j] in table
      {
        assert keys[1..][j] == keys[j + 1];
      }
      ResolveErr(table, keys[1..], invalid, i - 1);
    }
  }

  /** `_roles_names_to_roles` / `_roles_ids_to_roles`'s loop: appends each key's role, or stops at an unknown key. */
  method ResolveRoles<K(==)>(table: map<K, Role>, keys: seq<K>, invalid: K -> string) returns (r: Result<seq<Role>, string>)
    ensures r == Resolve(table, keys, invalid)
  {
    var userRoles: seq<Role> := [];
    var i := 0;
    while i < |keys|
      invariant 0 <= i <= |keys|
      invariant forall j | 0 <= j < i :: keys[j] in table
      invariant |userRoles| == i && forall j | 0 <= j < i :: userRoles[j] == table[keys[j]]
    {
      if keys[i] !in table {
        ResolveErr(table, keys, invalid, i);
        return Err(invalid(keys[i]));
      }
      userRoles := userRoles + [table[keys[i]]];
      i := i + 1;
    }
    ResolveOk(table, keys, invalid);
    assert Resolve(table, keys, invalid).value == userRoles;
    return Ok(userRoles);
  }

  /**
   * The stored user after `update_user`'s unconditional field writes: new
   * full name and e-mail, the new password only when the request has one;
   * username, roles and id are untouched.
   */
  function Edited<K>(u: User, req: UpdateUserRequest<K>): (e: User)
    ensures e.username == u.username && e.roles == u.roles && e.id == u.id
    ensures e.fullname == req.fullname && e.email == req.email
    ensures req.password == "" ==> e.password == u.password
    ensures req.password != "" ==> e.password == req.password
  {
    u.(fullname := req.fullname, email := req.email,
       password := if req.password != "" then req.password else u.password)
  }

  class UserUseCases<K(==)> {
    const variant: Variant<K>
    const repo: RepoStub<User>
    const rolesRepo: RepoStub<Role>

    ghost predicate Valid()
      reads this, repo, rolesRepo
    {
      repo.Valid() && rolesRepo.Valid() && repo.keying == UserKeying && rolesRepo.keying == RoleKeying
    }

    constructor (variant: Variant<K>, repo: RepoStub<User>, rolesRepo: RepoStub<Role>)
      ensures this.variant == variant && this.repo == repo && this.rolesRepo == rolesRepo
    {
      this.variant := variant;
      this.repo := repo;
      this.rolesRepo := rolesRepo;
    }

    /** The table the role keys are looked up in, built from all stored roles. */
    function RoleTable(): map<K, Role>
      requires Valid()
      reads this, repo, rolesRepo
    {
      IndexRoles(rolesRepo.Values(), variant.roleKey)
    }

    /** What the request's role keys resolve to against the stored roles. */
    function Resolution(keys: seq<K>): Result<seq<Role>, string>
      requires Valid()
      reads this, repo, rolesRepo
    {
      Resolve(RoleTable(), keys, variant.invalid)
    }

    /** `get_all_users`: the stored users in creation order. */
    method GetAllUsers() returns (users: seq<User>)
      requires Valid()
      ensures users == repo.Values()
    {
      users := repo.GetAll();
    }

    /** `get_user_by_id`. */
    method GetUserById(id: int) returns (r: Option<User>)
      requires Valid()
      ensures r == repo.GetById(id)
    {
      r := repo.GetById(id);
    }

    /** `_roles_names_to_roles` / `_roles_ids_to_roles`. */
    method RolesFor(keys: seq<K>) returns (r: Result<seq<Role>, string>)
      requires Valid()
      ensures r == Resolution(keys)
    {
      var all := rolesRepo.GetAll();
      r := ResolveRoles(IndexRoles(all, variant.roleKey), keys, variant.invalid);
    }

    /**
     * `create_user`: an unresolvable role returns its message and stores
     * nothing; otherwise the new user is stored under the next id and read
     * back.
     */
    method CreateUser(req: CreateUserRequest<K>) returns (r: Result<User, string>)
      requires Valid()
      modifies repo
      ensures Valid()
      ensures Resolution(req.roles).Err? ==>
                r == Err(Resolution(req.roles).error) && repo.data == old(repo.data)
                && repo.order == old(repo.order) && repo.idCount == old(repo.idCount)
      ensures Resolution(req.roles).Ok? ==>
                var u := User(req.username, req.fullname, req.email, req.password,
                              Resolution(req.roles).value, old(repo.idCount));
                r == Ok(u) && repo.data == old(repo.data)[u.id := u] && repo.order == old(repo.order) + [u.id]
                && repo.idCount == old(repo.idCount) + 1
    {
      var roles := RolesFor(req.roles);
      if roles.Err? {
        return Err(roles.error);
      }
      var user := NewUser(req.username, req.fullname, req.email, req.password, roles.value);
      var id := repo.Create(user);
      var stored := repo.GetById(id);
      return Ok(stored.value);
    }

    /**
     * `update_user`: a missing id returns `None`. Otherwise the full name,
     * e-mail and (when given) password are written onto the stored user
     * first; an unresolvable role then returns its message with those writes
     * already in the repository; otherwise the roles are written too.
     */
    method UpdateUser(req: UpdateUserRequest<K>) returns (r: UpdateReply)
      requires Valid()
      modifies repo
      ensures Valid()
      ensures repo.order == old(repo.order) && repo.idCount == old(repo.idCount)
      ensures req.id !in old(repo.data) ==> r == NoUser && repo.data == old(repo.data)
      ensures req.id in old(repo.data) && Resolution(req.roles).Err? ==>
                r == Rejected(Resolution(req.roles).error)
                && repo.data == old(repo.data)[req.id := Edited(old(repo.data)[req.id], req)]
      ensures req.id in old(repo.data) && Resolution(req.roles).Ok? ==>
                var u := Edited(old(repo.data)[req.id], req).(roles := Resolution(req.roles).value);
                r == Updated(u) && repo.data == old(repo.data)[req.id := u]
    {
      var found := repo.GetById(req.id);
      if found.None? {
        return NoUser;
      }
      var user := Edited(found.value, req);
      repo.Mutate(user);
      var roles := RolesFor(req.roles);
      if roles.Err? {
        return Rejected(roles.error);
      }
      user := user.(roles := roles.value);
      repo.Mutate(user);
      var _ := repo.Update(user);
      if variant.rereads {
        var again := repo.GetById(req.id);
        return Updated(again.value);
      }
      return Updated(user);
    }

    /** `delete_user`: a missing id returns `None`; otherwise the user is removed and returned. */
    method DeleteUser(id: int) returns (r: Option<User>)
      requires Valid()
      modifies repo
      ensures Valid()
      ensures r == old(repo.GetById(id))
      ensures repo.data == old(repo.data) - {id} && repo.idCount == old(repo.idCount)
      ensures repo.order == RepoStubs.Without(old(repo.order), id)
    {
      var found := repo.GetById(id);
      if found.None? {
        RepoStubs.WithoutAbsent(repo.order, id);
        return None;
      }
      var _ := repo.Delete(found.value);
      return found;
    }
  }

  /** The name table over the seeded roles: each of the three names maps to its role. */
  lemma SeededNameTable()
    ensures IndexRoles(SeededRoles(), NamesVariant.roleKey)
            == map["users.admin" := SeededRoles()[0], "shopping.admin" := SeededRoles()[1],
                   "shopping.user" := SeededRoles()[2]]
  {
    var rs := SeededRoles();
    var key := NamesVariant.roleKey;
    assert key(rs[0]) == "users.admin" && key(rs[1]) == "shopping.admin" && key(rs[2]) == "shopping.user";
    assert rs[..1][..0] == [] && rs[..2][..1] == rs[..1] && rs[..2][1] == rs[1];
    assert IndexRoles(rs[..1], key) == map["users.admin" := rs[0]];
    assert IndexRoles(rs[..2], key) == IndexRoles(rs[..1], key)["shopping.admin" := rs[1]];
    assert rs[..|rs| - 1] == rs[..2];
    assert IndexRoles(rs, key) == IndexRoles(rs[..2], key)["shopping.user" := rs[2]];
  }

  lemma InvalidRoleMessage()
    ensures NamesVariant.invalid("invalid.role") == "invalid role: invalid.role"
  {
  }

  /**
   * Against the seeded repositories, an update naming an unknown role is
   * rejected, yet the stored user already carries the new full name, e-mail
   * and password; only its roles are left as they were.
   */
  method UpdateRejectedKeepsEdits() returns (r: UpdateReply, stored: User)
    ensures r == Rejected("invalid role: invalid.role")
    ensures stored == SeededUsers()[0].(fullname := "Updated User", email := "updated@company.com",
                                        password := "updateduser123")
  {
    var cases := SeededCases(NamesVariant);
    var req := UpdateUserRequest(0, "Updated User", "updated@company.com", "updateduser123",
                                 ["users.admin", "invalid.role"]);
    SeededNameTable();
    InvalidRoleMessage();
    ghost var table := cases.RoleTable();
    ghost var keys := req.roles;
    assert keys[0] == "users.admin" && keys[1] == "invalid.role";
    assert keys[0] in table && keys[1] !in table;
    ResolveErr(table, keys, NamesVariant.invalid, 1);
    r := cases.UpdateUser(req);
    stored := cases.repo.data[0];
  }

  /** Use cases over the two seeded repositories. */
  method SeededCases<K(==)>(variant: Variant<K>) returns (cases: UserUseCases<K>)
    ensures fresh(cases) && fresh(cases.repo) && fresh(cases.rolesRepo) && cases.Valid()
    ensures cases.variant == variant
    ensures cases.rolesRepo.Values() == SeededRoles() && cases.repo.Values() == SeededUsers()
    ensures 0 in cases.repo.data && cases.repo.data[0] == SeededUsers()[0] && cases.repo.idCount == 2
  {
    var roles := SeedRoles();
    var users := SeedUsers(roles);
    assert users.data[users.order[0]] == SeededUsers()[0];
    assert users.keying.idOf(users.data[users.order[0]]) == users.order[0];
    assert users.order[0] == 0;
    cases := new UserUseCases(variant, users, roles);
  }

  /**
   * Against the seeded repositories, creating a user with the roles
   * `users.admin` and `shopping.user` stores it under id 2 with exactly
   * those roles, in that order.
   */
  method CreateWithRoleNames() returns (r: Result<User, string>)
    ensures r.Ok? && r.value.id == 2 && r.value.username == "newuser01"
    ensures r.value.roles == [SeededRoles()[0], SeededRoles()[2]]
  {
    var cases := SeededCases(NamesVariant);
    var req := CreateUserRequest("newuser01", "New User", "newuser@company.com", "newuser123",
                                 ["users.admin", "shopping.user"]);
    SeededNameTable();
    ghost var table := cases.RoleTable();
    assert "users.admin" in table && "shopping.user" in table;
    ResolveOk(table, req.roles, NamesVariant.invalid);
    assert cases.Resolution(req.roles).value == [SeededRoles()[0], SeededRoles()[2]];
    r := cases.CreateUser(req);
  }
}
