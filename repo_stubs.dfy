/**
 * The in-memory repositories the use-case tests run against
 * (`UsersRepoStub` and `RolesRepoStub`). Both are the same dictionary from
 * id to record plus a counter that hands out ids 0, 1, 2, …; they differ
 * only in which field a lookup by name compares, so they are one generic
 * class here, instantiated with the keying of users and of roles.
 *
 * Python dictionaries iterate in insertion order, which is what
 * `get_all_*` and `get_*_by_name` see; `order` keeps that order.
 */
module RepoStubs {
  import opened Wrappers
  import opened UsersEntities

  /** How a stub reads a record's id and its name, and stamps a new id onto it. */
  datatype Keying<!T> = Keying(idOf: T -> int, nameOf: T -> string, withId: (T, int) -> T)

  /** Stamping an id sets the id and leaves the name alone. */
  ghost predicate Stamps<T(!new)>(k: Keying<T>) {
    forall x: T, i: int :: k.idOf(k.withId(x, i)) == i && k.nameOf(k.withId(x, i)) == k.nameOf(x)
  }

  /** `UsersRepoStub` looks users up by `username`. */
  const UserKeying: Keying<User> := Keying((u: User) => u.id, (u: User) => u.username, (u: User, i: int) => u.(id := i))

  /** `RolesRepoStub` looks roles up by `name`. */
  const RoleKeying: Keying<Role> := Keying((r: Role) => r.id, (r: Role) => r.name, (r: Role, i: int) => r.(id := i))

  lemma KeyingsStamp()
    ensures Stamps(UserKeying) && Stamps(RoleKeying)
  {
  }

  /** The first record of the list whose name is `name`. */
  function FirstNamed<T>(vs: seq<T>, nameOf: T -> string, name: string): (r: Option<T>)
    ensures r.Some? ==> r.value in vs && nameOf(r.value) == name
    ensures r.None? <==> forall i | 0 <= i < |vs| :: nameOf(vs[i]) != name
  {
    if vs == [] then None
    else if nameOf(vs[0]) == name then Some(vs[0])
    else FirstNamed(vs[1..], nameOf, name)
  }

  /** Records before the first one named `name` have other names. */
  lemma {:induction false} FirstNamedIsFirst<T>(vs: seq<T>, nameOf: T -> string, name: string, i: nat)
    requires i < |vs| && nameOf(vs[i]) == name
    ensures FirstNamed(vs, nameOf, name).Some?
    ensures exists j | 0 <= j <= i :: FirstNamed(vs, nameOf, name) == Some(vs[j])
                                       && forall l | 0 <= l < j :: nameOf(vs[l]) != name
  {
    if nameOf(vs[0]) != name {
      FirstNamedIsFirst(vs[1..], nameOf, name, i - 1);
      var j :| 0 <= j <= i - 1 && FirstNamed(vs[1..], nameOf, name) == Some(vs[1..][j])
               && forall l | 0 <= l < j :: nameOf(vs[1..][l]) != name;
      assert FirstNamed(vs, nameOf, name) == Some(vs[j + 1]);
      forall l | 0 <= l < j + 1
        ensures nameOf(vs[l]) != name
      {
        if l > 0 {
          assert vs[l] == vs[1..][l - 1];
        }
      }
    }
  }

  /** The list without `k`. */
  function Without(s: seq<int>, k: int): (r: seq<int>)
    ensures k !in r
    ensures forall x :: x in r <==> x in s && x != k
  {
    if s == [] then []
    else if s[0] == k then Without(s[1..], k)
    else [s[0]] + Without(s[1..], k)
  }

  /** Removing a key from a list without repeats keeps it without repeats. */
  lemma {:induction false} WithoutDistinct(s: seq<int>, k: int)
    requires forall i, j | 0 <= i < j < |s| :: s[i] != s[j]
    ensures forall i, j | 0 <= i < j < |Without(s, k)| :: Without(s, k)[i] != Without(s, k)[j]
  {
    if s != [] {
      WithoutDistinct(s[1..], k);
      var rest := Without(s[1..], k);
      if s[0] != k {
        assert s[0] !in s[1..];
        assert s[0] !in rest;
        var r := [s[0]] + rest;
        forall i, j | 0 <= i < j < |r|
          ensures r[i] != r[j]
        {
          if i == 0 {
            assert r[j] == rest[j - 1];
          } else {
            assert r[i] == rest[i - 1] && r[j] == rest[j - 1];
          }
        }
      }
    }
  }

  class RepoStub<T(!new)> {
    const keying: Keying<T>
    /** The next id to hand out. */
    var idCount: int
    var data: map<int, T>
    /** The keys of `data`, in the order they were inserted. */
    var order: seq<int>

    ghost predicate Valid()
      reads this
    {
      && Stamps(keying)
      && idCount >= 0
      && (forall k | k in data :: 0 <= k < idCount && keying.idOf(data[k]) == k)
      && (forall i | 0 <= i < |order| :: order[i] in data)
      && (forall k | k in data :: k in order)
      && (forall i, j | 0 <= i < j < |order| :: order[i] != order[j])
    }

    /** An empty repository whose counter starts at 0. */
    constructor (keying: Keying<T>)
      requires Stamps(keying)
      ensures Valid()
      ensures this.keying == keying && idCount == 0 && data == map[] && order == []
    {
      this.keying := keying;
      idCount := 0;
      data := map[];
      order := [];
    }

    /** The stored records in insertion order (`get_all_*`). */
    function Values(): (vs: seq<T>)
      requires Valid()
      reads this
      ensures |vs| == |order|
      ensures forall i | 0 <= i < |order| :: vs[i] == data[order[i]]
    {
      seq(|order|, i requires 0 <= i < |order| && Valid() reads this => data[order[i]])
    }

    /** Every stored record is listed by `Values`, and only those are. */
    lemma ValuesAreStored(x: T)
      requires Valid()
      ensures x in Values() <==> exists k | k in data :: data[k] == x
    {
      var vs := Values();
      if x in vs {
        var i :| 0 <= i < |vs| && vs[i] == x;
        assert data[order[i]] == x;
      }
      if exists k | k in data :: data[k] == x {
        var k :| k in data && data[k] == x;
        var i :| 0 <= i < |order| && order[i] == k;
        assert vs[i] == x;
      }
    }

    /** `get_*_by_id`: the stored record, or `None` when the id is absent. */
    function GetById(uid: int): (r: Option<T>)
      requires Valid()
      reads this
      ensures r.Some? <==> uid in data
      ensures r.Some? ==> keying.idOf(r.value) == uid && r.value == data[uid]
    {
      if uid in data then Some(data[uid]) else None
    }

    /** `get_*_by_name`: the first stored record, in insertion order, with that name. */
    function ByName(name: string): (r: Option<T>)
      requires Valid()
      reads this
    {
      FirstNamed(Values(), keying.nameOf, name)
    }

    /** A lookup by name finds a record exactly when one with that name is stored. */
    lemma ByNameIff(name: string)
      requires Valid()
      ensures ByName(name).Some? <==> exists k | k in data :: keying.nameOf(data[k]) == name
      ensures ByName(name).Some? ==> ByName(name).value in data.Values && keying.nameOf(ByName(name).value) == name
    {
      var vs := Values();
      if ByName(name).Some? {
        ValuesAreStored(ByName(name).value);
      }
      if exists k | k in data :: keying.nameOf(data[k]) == name {
        var k :| k in data && keying.nameOf(data[k]) == name;
        var i :| 0 <= i < |order| && order[i] == k;
        assert keying.nameOf(vs[i]) == name;
      }
    }

    /** `get_*_by_name`: walks the records in insertion order and stops at the first match. */
    method GetByName(name: string) returns (r: Option<T>)
      requires Valid()
      ensures r == ByName(name)
    {
      var vs := Values();
      var i := 0;
      while i < |order|
        invariant 0 <= i <= |order|
        invariant FirstNamed(vs, keying.nameOf, name) == FirstNamed(vs[i..], keying.nameOf, name)
      {
        if keying.nameOf(data[order[i]]) == name {
          return Some(data[order[i]]);
        }
        assert vs[i..][1..] == vs[i + 1..];
        i := i + 1;
      }
      return None;
    }

    /** `get_all_*`. */
    method GetAll() returns (vs: seq<T>)
      requires Valid()
      ensures vs == Values()
    {
      vs := [];
      var i := 0;
      while i < |order|
        invariant 0 <= i <= |order|
        invariant vs == Values()[..i]
      {
        vs := vs + [data[order[i]]];
        i := i + 1;
      }
    }

    /**
     * `create_*`: stamps the counter onto the record as its id, bumps the
     * counter and stores the record last; returns the id.
     */
    method Create(x: T) returns (id: int)
      requires Valid()
      modifies this
      ensures Valid()
      ensures id == old(idCount) && idCount == id + 1 && id !in old(data)
      ensures data == old(data)[id := keying.withId(x, id)]
      ensures order == old(order) + [id]
      ensures Values() == old(Values()) + [keying.withId(x, id)]
    {
      id := idCount;
      idCount := idCount + 1;
      data := data[id := keying.withId(x, id)];
      order := order + [id];
    }

    /** `update_*`: replaces the record stored under its id, or answers false when that id is absent. */
    method Update(x: T) returns (ok: bool)
      requires Valid()
      modifies this
      ensures Valid()
      ensures ok <==> keying.idOf(x) in old(data)
      ensures data == if ok then old(data)[keying.idOf(x) := x] else old(data)
      ensures order == old(order) && idCount == old(idCount)
    {
      var k := keying.idOf(x);
      if k !in data {
        return false;
      }
      data := data[k := x];
      return true;
    }

    /**
     * A field written on a record fetched from this stub. The stub hands out
     * the stored object itself, so the write lands in the repository at once,
     * without any `update_*` call.
     */
    method Mutate(x: T)
      requires Valid() && keying.idOf(x) in data
      modifies this
      ensures Valid()
      ensures data == old(data)[keying.idOf(x) := x]
      ensures order == old(order) && idCount == old(idCount)
    {
      data := data[keying.idOf(x) := x];
    }

    /** `delete_*`: removes only the record's id, or answers false when that id is absent. */
    method Delete(x: T) returns (ok: bool)
      requires Valid()
      modifies this
      ensures Valid()
      ensures ok <==> keying.idOf(x) in old(data)
      ensures data == old(data) - {keying.idOf(x)}
      ensures order == Without(old(order), keying.idOf(x)) && idCount == old(idCount)
    {
      var k := keying.idOf(x);
      if k !in data {
        assert Without(order, k) == order by {
          WithoutAbsent(order, k);
        }
        return false;
      }
      WithoutDistinct(order, k);
      ghost var before := order;
      data := data - {k};
      order := Without(order, k);
      forall i | 0 <= i < |order|
        ensures order[i] in data
      {
        assert order[i] in before;
      }
      return true;
    }
  }

  /** Removing a key that is not there changes nothing. */
  lemma {:induction false} WithoutAbsent(s: seq<int>, k: int)
    requires k !in s
    ensures Without(s, k) == s
  {
    if s != [] {
      WithoutAbsent(s[1..], k);
    }
  }

  /** The roles the role fixture creates, in creation order, with the ids they receive. */
  function SeededRoles(): seq<Role>
  {
    [Role("users.admin", ["users:view", "users:edit"], 0),
     Role("shopping.admin", ["shopping.list:edit"], 1),
     Role("shopping.user", ["shopping.list:view"], 2)]
  }

  /** The users the user fixture creates, in creation order, with the ids they receive. */
  function SeededUsers(): seq<User>
  {
    [User("admin01", "Admin 01", "admin@company.com", "admin123", [SeededRoles()[0], SeededRoles()[1]], 0),
     User("user01", "Common User", "user01@company.com", "user123", [SeededRoles()[2]], 1)]
  }

  /** The `roles_repo` fixture: three roles, created in order, so they get ids 0, 1 and 2. */
  method SeedRoles() returns (repo: RepoStub<Role>)
    ensures fresh(repo) && repo.Valid() && repo.keying == RoleKeying
    ensures repo.Values() == SeededRoles() && repo.idCount == 3
  {
    KeyingsStamp();
    repo := new RepoStub(RoleKeying);
    var id0 := repo.Create(NewRole("users.admin", ["users:view", "users:edit"]));
    var id1 := repo.Create(NewRole("shopping.admin", ["shopping.list:edit"]));
    var id2 := repo.Create(NewRole("shopping.user", ["shopping.list:view"]));
  }

  /**
   * The `users_repo` fixture: admin01 with the two admin roles and user01
   * with the shopping user role, found by name in the seeded roles and
   * created in that order, so they get ids 0 and 1.
   */
  method SeedUsers(roles: RepoStub<Role>) returns (repo: RepoStub<User>)
    requires roles.Valid() && roles.keying == RoleKeying && roles.Values() == SeededRoles()
    ensures fresh(repo) && repo.Valid() && repo.keying == UserKeying
    ensures repo.Values() == SeededUsers() && repo.idCount == 2
  {
    KeyingsStamp();
    SeededRoleLookups();
    var usersAdmin := roles.GetByName("users.admin");
    var shoppingAdmin := roles.GetByName("shopping.admin");
    var shoppingUser := roles.GetByName("shopping.user");
    assert usersAdmin == Some(SeededRoles()[0]) && shoppingAdmin == Some(SeededRoles()[1]);
    assert shoppingUser == Some(SeededRoles()[2]);
    repo := new RepoStub(UserKeying);
    assert repo.Values() == [];
    var admin := NewUser("admin01", "Admin 01", "admin@company.com", "admin123",
                         [usersAdmin.value, shoppingAdmin.value]);
    var common := NewUser("user01", "Common User", "user01@company.com", "user123", [shoppingUser.value]);
    var id0 := repo.Create(admin);
    var id1 := repo.Create(common);
    SeededUsersCreated();
    assert repo.Values() == [] + [UserKeying.withId(admin, 0)] + [UserKeying.withId(common, 1)];
  }

  /** Each seeded role is found by its own name. */
  lemma SeededRoleLookups()
    ensures FirstNamed(SeededRoles(), RoleKeying.nameOf, "users.admin") == Some(SeededRoles()[0])
    ensures FirstNamed(SeededRoles(), RoleKeying.nameOf, "shopping.admin") == Some(SeededRoles()[1])
    ensures FirstNamed(SeededRoles(), RoleKeying.nameOf, "shopping.user") == Some(SeededRoles()[2])
  {
    var rs := SeededRoles();
    assert rs[1..][0] == rs[1] && rs[1..][1..][0] == rs[2];
  }

  /** The seeded users are the two new users stamped with ids 0 and 1. */
  lemma SeededUsersCreated()
    ensures SeededUsers()
            == [] + [UserKeying.withId(NewUser("admin01", "Admin 01", "admin@company.com", "admin123",
                                              [SeededRoles()[0], SeededRoles()[1]]), 0)]
               + [UserKeying.withId(NewUser("user01", "Common User", "user01@company.com", "user123",
                                           [SeededRoles()[2]]), 1)]
  {
  }
}
