/** Only the latest bootstrap request may change the dashboard. */
module RequestGate {

  class RequestGate {
    var generation: nat
    /** The generations whose abort signal has fired. */
    var aborted: set<nat>

    ghost predicate Valid()
      reads this
    {
      forall g :: g in aborted ==> g <= generation
    }

    constructor ()
      ensures Valid() && generation == 0 && aborted == {}
    {
      generation, aborted := 0, {};
    }

    /** Starting a request aborts the previous one and makes every earlier token stale. */
    method Begin() returns (token: nat)
      requires Valid()
      modifies this
      ensures Valid()
      ensures token == generation == old(generation) + 1
      ensures aborted == old(aborted) + {old(generation)}
      ensures IsCurrent(token) && token !in aborted
      ensures forall g: nat :: g <= old(generation) ==> !IsCurrent(g)
    {
      aborted := aborted + {generation};
      generation := generation + 1;
      token := generation;
    }

    predicate IsCurrent(token: nat)
      reads this
    {
      token == generation
    }
  }
}
