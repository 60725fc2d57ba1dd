/**
 * The random-id oracle behind `uuid4()` and `ulid.new()`: each draw is a
 * non-empty string that was never handed out before.
 */
module Ids {

  class IdSource {
    /** Every id drawn so far. */
    var issued: set<string>
    var count: nat

    ghost predicate Valid()
      reads this
    {
      forall s | s in issued :: |s| <= count
    }

    constructor ()
      ensures Valid() && issued == {}
    {
      issued := {};
      count := 0;
    }

    method Next() returns (id: string)
      requires Valid()
      modifies this
      ensures Valid()
      ensures id != "" && id !in old(issued)
      ensures issued == old(issued) + {id}
    {
      id := seq(count + 1, _ => 'x');
      count := count + 1;
      issued := issued + {id};
    }
  }
}
