/**
 * asyncio.Semaphore(concur_req): the admission gate bounding how many
 * network requests are in flight at once.
 */
module Gate {

  class Semaphore {
    /** The number of permits it was created with. */
    const capacity: nat
    /** The number of permits currently taken. */
    var held: nat

    ghost predicate Valid()
      reads this
    {
      held <= capacity
    }

    constructor (value: nat)
      ensures Valid()
      ensures capacity == value && held == 0
    {
      capacity := value;
      held := 0;
    }

    /** Entering `with (yield from semaphore)`: a task only gets past it
        while a permit is free; otherwise it stays suspended. */
    method Acquire()
      requires Valid() && held < capacity
      modifies this
      ensures Valid()
      ensures held == old(held) + 1
    {
      held := held + 1;
    }

    /** Leaving the `with` block, on a normal or an exceptional exit. */
    method Release()
      requires Valid() && held > 0
      modifies this
      ensures Valid()
      ensures held == old(held) - 1
    {
      held := held - 1;
    }
  }
}
