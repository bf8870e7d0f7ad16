/** `TFPooledExternalAsyncCall>>executeOn:` as one process runs it, with the object's own fields. The
    worker's part, which happens while the process waits, is given by what it will write and by
    whether its signal comes before or after the process looks. */
module PooledCall {
  import opened Prelude
  import opened Pool
  import AsyncCall
  import PoolLending

  /** The external semaphores of the image, by index. */
  class ExternalSemaphores {
    var signals: multiset<Item>

    constructor ()
      ensures signals == multiset{}
    {
      signals := multiset{};
    }

    method Signal(x: Item)
      modifies this
      ensures signals == old(signals)[x := old(signals)[x] + 1]
    {
      signals := signals[x := signals[x] + 1];
    }

    method Wait(x: Item)
      requires signals[x] > 0
      modifies this
      ensures signals == old(signals)[x := old(signals)[x] - 1]
    {
      signals := signals[x := signals[x] - 1];
    }

    /** `consumeAllSignals` */
    method Reset(x: Item)
      modifies this
      ensures signals == old(signals)[x := 0]
    {
      signals := signals[x := 0];
    }
  }

  /** What the worker will do for a call: the value its function returns, and whether it
      is done before the process tests the semaphore. */
  datatype Worker = Worker(value: AsyncCall.Value, early: bool)

  class TFPooledExternalAsyncCall {
    var semaphore: Option<Item>
    var returnHolder: Option<AsyncCall.Value>

    constructor ()
      ensures semaphore == None && returnHolder == None
    {
      semaphore, returnHolder := None, None;
    }

    /** The worker finishes the function, then signals. */
    method WorkerFinishes(vm: ExternalSemaphores, w: Worker)
      requires semaphore.Some?
      modifies `returnHolder, vm
      ensures returnHolder == Some(w.value)
      ensures vm.signals == old(vm.signals)[semaphore.value := old(vm.signals)[semaphore.value] + 1]
    {
      returnHolder := Some(w.value);
      vm.Signal(semaphore.value);
    }

    /** `doExecuteOn:`: dispatch, then wait unless already signalled. */
    method DoExecuteOn(vm: ExternalSemaphores, w: Worker) returns (answer: AsyncCall.Value)
      requires semaphore.Some? && vm.signals[semaphore.value] == 0
      modifies `returnHolder, vm
      ensures answer == w.value
      ensures vm.signals == old(vm.signals)[semaphore.value := if w.early then 1 else 0]
    {
      var x := semaphore.value;
      if w.early { WorkerFinishes(vm, w); }
      if vm.signals[x] == 0 {
        // the process sleeps here until the worker has signalled
        if !w.early { WorkerFinishes(vm, w); }
        vm.Wait(x);
      }
      answer := returnHolder.value;
    }

    /** `executeOn:`: whatever happens in between, the semaphore goes back to the pool with no signal
        in it. `prepared` tells whether the function can be prepared; otherwise an error leaves. */
    method ExecuteOn(pool: TFPool, vm: ExternalSemaphores, prepared: bool, w: Worker)
      returns (answer: Option<AsyncCall.Value>)
      requires PoolLending.CursorSplits(pool.State()) && pool.initialSize >= 2
      requires forall k :: 0 <= k < pool.elements.Length && pool.elements[k].Some? ==> vm.signals[pool.elements[k].value] == 0
      requires forall x: Item :: x >= pool.provider.made ==> vm.signals[x] == 0
      modifies this, pool, pool.elements, pool.provider, vm
      ensures answer == if prepared then Some(w.value) else None
      ensures semaphore.Some? && vm.signals == old(vm.signals)
      ensures pool.State() == GivenBack(Taken(old(pool.State())).0, semaphore.value)
      ensures Taken(old(pool.State())).1 == Lent(semaphore)
    {
      var taken := pool.TakeOne();
      assert |pool.State().elements| == pool.elements.Length >= pool.pointer - 1;
      semaphore := taken.slot;
      var x := semaphore.value;
      assert vm.signals[x] == 0;
      answer := None;
      if prepared {
        var v := DoExecuteOn(vm, w);
        answer := Some(v);
      }
      vm.Reset(x);
      assert vm.signals == old(vm.signals);
      var released := pool.ReturnOne(x);
    }
  }
}
