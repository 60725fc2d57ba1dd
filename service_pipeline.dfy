/**
 * The user-creation pipeline of the gevent service experiment: each step
 * takes the value the previous one produced and answers a (value, error)
 * pair; `compose` runs the steps in order and stops at the first error.
 * Creating a user validates the password strength, encrypts the password,
 * inserts the document, reads it back and publishes a `created` event.
 *
 * The document collection and the event publisher are parameters; what
 * they are asked to do is recorded as a list of effects, in order.
 */
module ServicePipeline {
  import opened Wrappers

  datatype SvcUser = SvcUser(username: string, password: string, email: string, fullname: string, id: Option<string>)

  datatype Error = Error(code: int, message: string)

  /** A stored document: the four fields the service writes, plus the id the database gave it. */
  datatype Doc = Doc(id: string, username: string, password: string, email: string, fullname: string)

  /** The value handed from step to step: `None`, a user, or a document id. */
  datatype Carried = Nothing | AUser(user: SvcUser) | AnId(id: string)

  /** What a step asks of the outside world. */
  datatype Effect =
    | Inserted(username: string, password: string, email: string, fullname: string)
    | Queried(id: string)
    | Pushed(event: string, user: SvcUser)

  /**
   * What a step, or a whole pipeline, ends in: a (value, error) pair, or an
   * exception that escapes; either way with the effects it caused.
   */
  datatype Outcome =
    | Done(value: Carried, err: Option<Error>, effects: seq<Effect>)
    | Raised(exception: string, effects: seq<Effect>)

  /** The collection: `insert` answers the new document's id (empty when none), `find_one` the document or `None`. */
  datatype Collection = Collection(insertedId: Effect -> string, findOne: string -> Option<Doc>)

  type Step = Carried -> Outcome

  /** `password_strength`: 0 below 3 characters, 1 below 5, 2 below 10, 3 from 10 on. */
  function PasswordStrength(password: string): (n: nat)
    ensures n <= 3
    ensures n == 0 <==> |password| < 3
    ensures n == 3 <==> |password| >= 10
    ensures n > 1 <==> |password| >= 5
  {
    if |password| < 3 then 0
    else if |password| < 5 then 1
    else if |password| < 10 then 2
    else 3
  }

  /** A longer password is never weaker. */
  lemma StrengthMonotone(a: string, b: string)
    requires |a| <= |b|
    ensures PasswordStrength(a) <= PasswordStrength(b)
  {
  }

  /** The effects of an earlier part of the pipeline, put in front of a later outcome's. */
  function Prepend(fx: seq<Effect>, o: Outcome): (r: Outcome)
    ensures r.effects == fx + o.effects
    ensures r.Done? <==> o.Done?
    ensures r.Done? ==> r.value == o.value && r.err == o.err
    ensures r.Raised? ==> r.exception == o.exception
  {
    match o
    case Done(v, e, later) => Done(v, e, fx + later)
    case Raised(x, later) => Raised(x, fx + later)
  }

  lemma PrependTwice(a: seq<Effect>, b: seq<Effect>, o: Outcome)
    ensures Prepend(a, Prepend(b, o)) == Prepend(a + b, o)
  {
    assert a + (b + o.effects) == a + b + o.effects;
  }

  /**
   * `compose(*funcs)(value)`: each step gets the previous step's value; a
   * step with an error ends the run with its (value, error) pair; after the
   * last step its pair is the answer. With no step at all, `err` is never
   * bound and reading it raises.
   */
  function Pipe(funcs: seq<Step>, value: Carried): Outcome
  {
    if funcs == [] then Raised("UnboundLocalError", [])
    else
      match funcs[0](value)
      case Raised(x, fx) => Raised(x, fx)
      case Done(v, err, fx) =>
        if err.Some? || |funcs| == 1 then Done(v, err, fx)
        else Prepend(fx, Pipe(funcs[1..], v))
  }

  /** A pipeline stops at its first error: the steps after it never run. */
  lemma {:induction false} PipeStops(first: seq<Step>, rest: seq<Step>, value: Carried)
    requires first != []
    requires Pipe(first, value).Done? && Pipe(first, value).err.Some?
    ensures Pipe(first + rest, value) == Pipe(first, value)
  {
    var o := first[0](value);
    assert (first + rest)[0] == first[0];
    if o.Done? && o.err.None? {
      assert |first| > 1;
      assert (first + rest)[1..] == first[1..] + rest;
      PipeStops(first[1..], rest, o.value);
    }
  }

  /** A pipeline whose first part succeeds continues with the rest on the value it produced. */
  lemma {:induction false} PipeContinues(first: seq<Step>, rest: seq<Step>, value: Carried)
    requires first != [] && rest != []
    requires Pipe(first, value).Done? && Pipe(first, value).err.None?
    ensures Pipe(first + rest, value) == Prepend(Pipe(first, value).effects, Pipe(rest, Pipe(first, value).value))
  {
    var o := first[0](value);
    assert (first + rest)[0] == first[0];
    assert (first + rest)[1..] == first[1..] + rest;
    if |first| == 1 {
      assert first[1..] + rest == rest;
    } else {
      PipeContinues(first[1..], rest, o.value);
      PrependTwice(o.effects, Pipe(first[1..], o.value).effects, Pipe(rest, Pipe(first[1..], o.value).value));
    }
  }

  /** `compose`'s loop: runs the steps in order, stopping at the first error or exception. */
  method Compose(funcs: seq<Step>, value: Carried) returns (r: Outcome)
    ensures r == Pipe(funcs, value)
  {
    if funcs == [] {
      return Raised("UnboundLocalError", []);
    }
    var v := value;
    var fx: seq<Effect> := [];
    var i := 0;
    while i < |funcs|
      invariant 0 <= i <= |funcs|
      invariant i < |funcs| ==> Pipe(funcs, value) == Prepend(fx, Pipe(funcs[i..], v))
      invariant i == |funcs| ==> Pipe(funcs, value) == Done(v, None, fx)
    {
      var o := funcs[i](v);
      ghost var later := funcs[i..];
      assert later[0] == funcs[i] && later[1..] == funcs[i + 1..];
      if o.Raised? {
        return Prepend(fx, o);
      }
      if o.err.Some? {
        return Prepend(fx, o);
      }
      if i + 1 < |funcs| {
        PrependTwice(fx, o.effects, Pipe(funcs[i + 1..], o.value));
      }
      fx := fx + o.effects;
      v := o.value;
      i := i + 1;
    }
    return Done(v, None, fx);
  }

  /** `validate_user_password_strength`: passes the user on when its password is stronger than 1. */
  function ValidatePasswordStrength(value: Carried): (o: Outcome)
    ensures value.AUser? ==> o.Done? && o.effects == []
    ensures value.AUser? && PasswordStrength(value.user.password) > 1 ==> o == Done(value, None, [])
    ensures value.AUser? && PasswordStrength(value.user.password) <= 1 ==>
              o == Done(Nothing, Some(Error(400, "invalid user password")), [])
  {
    match value
    case AUser(u) =>
      if PasswordStrength(u.password) > 1 then Done(value, None, [])
      else Done(Nothing, Some(Error(400, "invalid user password")), [])
    case _ => Raised("AttributeError", [])
  }

  /** `encrypt_user_password`: the same user with the encrypted password. */
  function EncryptPassword(encrypt: string -> string, value: Carried): (o: Outcome)
    ensures value.AUser? ==> o.Done? && o.err.None? && o.effects == [] && o.value.AUser?
                             && o.value.user == value.user.(password := encrypt(value.user.password))
  {
    match value
    case AUser(u) => Done(AUser(u.(password := encrypt(u.password))), None, [])
    case _ => Raised("AttributeError", [])
  }

  /** The document the service inserts for a user: its four fields. */
  function InsertOf(u: SvcUser): Effect
  {
    Inserted(u.username, u.password, u.email, u.fullname)
  }

  /** `create_user`: inserts the user's document; no id back means a duplicate. */
  function CreateUser(coll: Collection, value: Carried): (o: Outcome)
    ensures value.AUser? ==> o.Done? && o.effects == [InsertOf(value.user)]
    ensures value.AUser? && coll.insertedId(InsertOf(value.user)) == "" ==>
              o.value == Nothing && o.err == Some(Error(402, "duplicated user"))
    ensures value.AUser? && coll.insertedId(InsertOf(value.user)) != "" ==>
              o.value == AnId(coll.insertedId(InsertOf(value.user))) && o.err == None
  {
    match value
    case AUser(u) =>
      var id := coll.insertedId(InsertOf(u));
      if id == "" then Done(Nothing, Some(Error(402, "duplicated user")), [InsertOf(u)])
      else Done(AnId(id), None, [InsertOf(u)])
    case _ => Raised("AttributeError", [])
  }

  /** The user a stored document describes. */
  function UserOfDoc(d: Doc): SvcUser
  {
    SvcUser(d.username, d.password, d.email, d.fullname, Some(d.id))
  }

  /** `get_user`: reads the document by id; no document means `user not found`. */
  function GetUser(coll: Collection, value: Carried): (o: Outcome)
    ensures value.AnId? ==> o.Done? && o.effects == [Queried(value.id)]
    ensures value.AnId? && coll.findOne(value.id).None? ==>
              o.value == Nothing && o.err == Some(Error(404, "user not found"))
    ensures value.AnId? && coll.findOne(value.id).Some? ==>
              o.value == AUser(UserOfDoc(coll.findOne(value.id).value)) && o.err == None
  {
    match value
    case AnId(id) =>
      (match coll.findOne(id)
       case None => Done(Nothing, Some(Error(404, "user not found")), [Queried(id)])
       case Some(d) => Done(AUser(UserOfDoc(d)), None, [Queried(id)]))
    case _ => Raised("TypeError", [])
  }

  /** `publish_created_user`: pushes a `created` event carrying the user and passes the user on. */
  function PublishCreated(value: Carried): (o: Outcome)
    ensures value.AUser? ==> o == Done(value, None, [Pushed("created", value.user)])
  {
    match value
    case AUser(u) => Done(value, None, [Pushed("created", u)])
    case _ => Raised("AttributeError", [])
  }

  /** The five steps of `create`, in order. */
  function CreateSteps(coll: Collection, encrypt: string -> string): (steps: seq<Step>)
    ensures |steps| == 5
  {
    [ValidatePasswordStrength,
     (v: Carried) => EncryptPassword(encrypt, v),
     (v: Carried) => CreateUser(coll, v),
     (v: Carried) => GetUser(coll, v),
     PublishCreated]
  }

  /** `create(...)(user, ctx)`: runs the pipeline; an error gives (`None`, error), success (value, `None`). */
  method Create(coll: Collection, encrypt: string -> string, user: SvcUser) returns (r: Outcome)
    ensures r == Created(coll, encrypt, user)
  {
    var o := Compose(CreateSteps(coll, encrypt), AUser(user));
    if o.Done? && o.err.Some? {
      return Done(Nothing, o.err, o.effects);
    }
    return o;
  }

  /** What `create` answers for a user. */
  function Created(coll: Collection, encrypt: string -> string, user: SvcUser): Outcome
  {
    var o := Pipe(CreateSteps(coll, encrypt), AUser(user));
    if o.Done? && o.err.Some? then Done(Nothing, o.err, o.effects) else o
  }

  /**
   * What creating a user comes to, case by case: a weak password is refused
   * before anything is written; a refused insert is a duplicate; a document
   * that cannot be read back is not found; otherwise the stored user is
   * answered and a `created` event carries it. No step ever raises.
   */
  lemma CreateOutcomes(coll: Collection, encrypt: string -> string, user: SvcUser)
    ensures var r := Created(coll, encrypt, user);
            var enc := user.(password := encrypt(user.password));
            var id := coll.insertedId(InsertOf(enc));
            && r.Done?
            && (PasswordStrength(user.password) <= 1 ==>
                  r == Done(Nothing, Some(Error(400, "invalid user password")), []))
            && (PasswordStrength(user.password) > 1 && id == "" ==>
                  r == Done(Nothing, Some(Error(402, "duplicated user")), [InsertOf(enc)]))
            && (PasswordStrength(user.password) > 1 && id != "" && coll.findOne(id).None? ==>
                  r == Done(Nothing, Some(Error(404, "user not found")), [InsertOf(enc), Queried(id)]))
            && (PasswordStrength(user.password) > 1 && id != "" && coll.findOne(id).Some? ==>
                  var found := UserOfDoc(coll.findOne(id).value);
                  r == Done(AUser(found), None, [InsertOf(enc), Queried(id), Pushed("created", found)]))
  {
    var steps := CreateSteps(coll, encrypt);
    var enc := user.(password := encrypt(user.password));
    var id := coll.insertedId(InsertOf(enc));
    var s1, s2, s3, s4 := steps[1..], steps[2..], steps[3..], steps[4..];
    assert s1[0] == steps[1] && s1[1..] == s2;
    assert s2[0] == steps[2] && s2[1..] == s3;
    assert s3[0] == steps[3] && s3[1..] == s4;
    assert s4[0] == steps[4] && |s4| == 1;
    if PasswordStrength(user.password) > 1 {
      assert Pipe(steps, AUser(user)) == Pipe(s1, AUser(user));
      assert Pipe(s1, AUser(user)) == Pipe(s2, AUser(enc));
      if id != "" {
        assert Pipe(s2, AUser(enc)) == Prepend([InsertOf(enc)], Pipe(s3, AnId(id)));
        if coll.findOne(id).Some? {
          var found := UserOfDoc(coll.findOne(id).value);
          assert Pipe(s3, AnId(id)) == Prepend([Queried(id)], Pipe(s4, AUser(found)));
        }
      }
    }
  }

  /** The service's placeholder encryption. */
  function Whoosh(password: string): string
  {
    "whoosh, encrypted"
  }

  /** The stub collection of the scenario: every insert gets `doc_id`, every lookup finds the same document. */
  function StubCollection(): Collection
  {
    Collection((d: Effect) => "doc_id",
               (id: string) => Some(Doc("doc_id", "teste", Whoosh("pass"), "email@email.com", "teste123")))
  }

  /**
   * The scenario the file runs: creating `teste` with a strong password
   * answers the stored user with id `doc_id` and the encrypted password,
   * after one insert with the encrypted password, one lookup by `doc_id`
   * and one `created` event.
   */
  method StubScenario() returns (r: Outcome)
    ensures r.Done? && r.err == None
    ensures r.value == AUser(SvcUser("teste", "whoosh, encrypted", "email@email.com", "teste123", Some("doc_id")))
    ensures r.effects == [Inserted("teste", "whoosh, encrypted", "email@email.com", "teste123"), Queried("doc_id"),
                          Pushed("created", r.value.user)]
  {
    var user := SvcUser("teste", "teste123", "email@email.com", "teste123", None);
    CreateOutcomes(StubCollection(), Whoosh, user);
    r := Create(StubCollection(), Whoosh, user);
  }
}
