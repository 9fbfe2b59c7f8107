/**
 * An abstract supply of fresh tokens, standing for the uuid v4 generator
 * that gives each animated element its id and its replay key. The only
 * property the model relies on is that a token is never handed out twice.
 */
module Tokens {

  class TokenSupply {
    /** Every token handed out so far. */
    ghost var issued: set<string>
    var count: nat

    ghost predicate Valid()
      reads this
    {
      forall t :: t in issued ==> |t| <= count
    }

    constructor ()
      ensures Valid() && issued == {}
    {
      issued := {};
      count := 0;
    }

    /** A token that was never handed out before. */
    method Fresh() returns (t: string)
      requires Valid()
      modifies this
      ensures Valid()
      ensures t !in old(issued) && issued == old(issued) + {t}
    {
      t := seq(count + 1, _ => 'u');
      count := count + 1;
      issued := issued + {t};
    }
  }
}
