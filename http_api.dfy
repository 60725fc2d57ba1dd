/**
 * The HTTP API registry: a resource class decorates its handlers with a
 * verb, the registry records verb → handler name, and `get_methods`
 * resolves those names on an instance to the handlers themselves.
 */
module HttpApi {
  import opened Wrappers

  /** The six verbs the registry has a decorator for. */
  datatype Verb = Get | Post | Put | Delete | Head | Options

  function VerbName(v: Verb): (name: string)
  {
    match v
    case Get => "GET"
    case Post => "POST"
    case Put => "PUT"
    case Delete => "DELETE"
    case Head => "HEAD"
    case Options => "OPTIONS"
  }

  /** Distinct verbs are recorded under distinct names. */
  lemma VerbNamesDistinct(a: Verb, b: Verb)
    ensures VerbName(a) == VerbName(b) <==> a == b
  {
  }

  predicate IsVerbName(name: string)
  {
    name in {"GET", "POST", "PUT", "DELETE", "HEAD", "OPTIONS"}
  }

  /** A decorated function; only its `__name__` is recorded. */
  datatype Handler = Handler(name: string)

  class Api {
    const url: string
    /** Verb name → handler name. */
    var methods: map<string, string>
    /** The verb names in the order they were first recorded, as the dictionary iterates them. */
    var order: seq<string>

    ghost predicate Valid()
      reads this
    {
      && (forall i | 0 <= i < |order| :: order[i] in methods)
      && (forall v | v in methods :: v in order)
      && (forall i, j | 0 <= i < j < |order| :: order[i] != order[j])
      && (forall v | v in methods :: IsVerbName(v))
    }

    constructor (url: string)
      ensures Valid()
      ensures this.url == url && methods == map[] && order == []
    {
      this.url := url;
      methods := map[];
      order := [];
    }

    /**
     * The verb decorators (`get`, `post`, `put`, `delete`, `head`,
     * `options`): record the verb under the handler's name, replacing an
     * earlier handler for the same verb in its place, and give the handler
     * back unchanged.
     */
    method Route(verb: Verb, f: Handler) returns (r: Handler)
      requires Valid()
      modifies this
      ensures Valid()
      ensures r == f
      ensures methods == old(methods)[VerbName(verb) := f.name]
      ensures order == if VerbName(verb) in old(methods) then old(order) else old(order) + [VerbName(verb)]
    {
      var name := VerbName(verb);
      if name !in methods {
        order := order + [name];
      }
      methods := methods[name := f.name];
      return f;
    }

    /**
     * `get_methods(obj)`: every recorded verb mapped to the attribute of
     * `obj` named by its handler; the first name (in recording order) that
     * `obj` lacks raises `AttributeError`.
     */
    method GetMethods<A>(obj: map<string, A>) returns (r: Result<map<string, A>, PyError>)
      requires Valid()
      ensures r.Err? <==> exists v | v in methods :: methods[v] !in obj
      ensures r.Err? ==> exists i | 0 <= i < |order| ::
                           && r.error == AttributeError(methods[order[i]])
                           && methods[order[i]] !in obj
                           && forall j | 0 <= j < i :: methods[order[j]] in obj
      ensures r.Ok? ==> r.value.Keys == methods.Keys
                        && forall v | v in methods :: r.value[v] == obj[methods[v]]
    {
      var bound: map<string, A> := map[];
      var i := 0;
      while i < |order|
        invariant 0 <= i <= |order|
        invariant forall j | 0 <= j < i :: methods[order[j]] in obj
        invariant bound.Keys == set j | 0 <= j < i :: order[j]
        invariant forall j | 0 <= j < i :: bound[order[j]] == obj[methods[order[j]]]
      {
        var name := methods[order[i]];
        if name !in obj {
          return Err(AttributeError(name));
        }
        bound := bound[order[i] := obj[name]];
        i := i + 1;
      }
      forall v | v in methods
        ensures v in bound && bound[v] == obj[methods[v]]
      {
        var j :| 0 <= j < |order| && order[j] == v;
      }
      return Ok(bound);
    }
  }

  /**
   * Decorating two handlers for the same verb leaves only the second one
   * recorded for it, in the place the first one took.
   */
  method RouteTwice(api: Api, verb: Verb, f: Handler, g: Handler)
    requires api.Valid()
    modifies api
    ensures api.Valid()
    ensures api.methods.Keys == old(api.methods.Keys) + {VerbName(verb)}
    ensures VerbName(verb) in api.methods && api.methods[VerbName(verb)] == g.name
    ensures |api.order| <= |old(api.order)| + 1
  {
    var _ := api.Route(verb, f);
    var _ := api.Route(verb, g);
  }
}
