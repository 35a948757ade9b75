/** MsvThreading: fresh threading primitives, and one cached thread pool. */
module ThreadingLib {
  import opened Wrappers
  import opened ErrorCodes
  import opened Handles

  class Threading {
    /** m_spSharedThreadPool */
    var sharedThreadPool: Option<ThreadPool>

    constructor ()
      ensures sharedThreadPool == None
    {
      sharedThreadPool := None;
    }

    /** A new event on every successful call. */
    method GetEvent(out: Option<Event>) returns (r: ErrorCode, out': Option<Event>)
      ensures r == Success || r == AllocationError
      ensures r == Success ==> out'.Some? && fresh(out'.value)
      ensures r == AllocationError ==> out' == out
    {
      var ok := TryAllocate();
      if !ok {
        return AllocationError, out;
      }
      var e := new Event();
      r, out' := Success, Some(e);
    }

    /** The same pool on every success; a failed creation leaves the slot empty. */
    method GetSharedThreadPool(out: Option<ThreadPool>) returns (r: ErrorCode, out': Option<ThreadPool>)
      modifies this`sharedThreadPool
      ensures old(sharedThreadPool).Some? ==> r == Success && sharedThreadPool == old(sharedThreadPool) && out' == sharedThreadPool
      ensures old(sharedThreadPool).None? ==> r == Success || r == AllocationError
      ensures old(sharedThreadPool).None? && r == Success ==>
        sharedThreadPool.Some? && fresh(sharedThreadPool.value) && out' == sharedThreadPool
      ensures r == AllocationError ==> sharedThreadPool == None && out' == out
    {
      if sharedThreadPool.None? {
        var code, created := GetThreadPool(sharedThreadPool);
        sharedThreadPool := created;
        if code != Success {
          return code, out;
        }
      }
      r, out' := Success, sharedThreadPool;
    }

    /** A new pool on every successful call; the shared slot is not touched. */
    method GetThreadPool(out: Option<ThreadPool>) returns (r: ErrorCode, out': Option<ThreadPool>)
      ensures r == Success || r == AllocationError
      ensures r == Success ==> out'.Some? && fresh(out'.value)
      ensures r == AllocationError ==> out' == out
    {
      var ok := TryAllocate();
      if !ok {
        return AllocationError, out;
      }
      var p := new ThreadPool();
      r, out' := Success, Some(p);
    }

    /** A new unique worker on every successful call. */
    method GetUniqueWorker(out: Option<UniqueWorker>) returns (r: ErrorCode, out': Option<UniqueWorker>)
      ensures r == Success || r == AllocationError
      ensures r == Success ==> out'.Some? && fresh(out'.value)
      ensures r == AllocationError ==> out' == out
    {
      var ok := TryAllocate();
      if !ok {
        return AllocationError, out;
      }
      var w := new UniqueWorker();
      r, out' := Success, Some(w);
    }

    /** A new worker on every successful call. */
    method GetWorker(out: Option<Worker>) returns (r: ErrorCode, out': Option<Worker>)
      ensures r == Success || r == AllocationError
      ensures r == Success ==> out'.Some? && fresh(out'.value)
      ensures r == AllocationError ==> out' == out
    {
      var ok := TryAllocate();
      if !ok {
        return AllocationError, out;
      }
      var w := new Worker();
      r, out' := Success, Some(w);
    }
  }
}
