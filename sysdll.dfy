/** The msys DLL entry point: GetDllObject hands out the system object for its id and
    keeps only a weak reference to it, so the same object is returned while some holder
    keeps it alive, and a new one is made once every holder has let go. */
module SysDllLib {
  import opened Wrappers
  import opened ErrorCodes
  import opened Handles
  import opened Identifiers
  import opened SysLib

  class SysDll {
    /** g_spSys, while it has not expired */
    var weak: Option<Sys>
    /** how many holders keep the object alive */
    var holders: nat

    /** The weak reference is live exactly while someone holds the object. */
    ghost predicate Valid()
      reads this
    {
      weak.None? <==> holders == 0
    }

    constructor ()
      ensures Valid() && weak == None
    {
      weak, holders := None, 0;
    }

    method GetDllObject(id: string, out: Option<Sys>) returns (r: ErrorCode, out': Option<Sys>)
      requires Valid()
      modifies this
      ensures Valid()
      ensures id != SYS_OBJECT_ID ==> r == NotFoundError && out' == out && weak == old(weak) && holders == old(holders)
      ensures id == SYS_OBJECT_ID && old(weak).Some? ==> r == Success && out' == weak == old(weak) && holders == old(holders) + 1
      ensures id == SYS_OBJECT_ID && old(weak).None? ==> r == Success || r == AllocationError
      ensures id == SYS_OBJECT_ID && old(weak).None? && r == Success ==>
        out' == weak && weak.Some? && fresh(weak.value) && holders == 1
      ensures r == AllocationError ==> out' == out && weak == None && holders == 0
    {
      if id != SYS_OBJECT_ID {
        return NotFoundError, out;
      }
      if weak.Some? {
        holders := holders + 1;
        return Success, weak;
      }
      var ok := TryAllocate();
      if !ok {
        return AllocationError, out;
      }
      var sys := new Sys();
      weak, holders := Some(sys), 1;
      r, out' := Success, weak;
    }

    /** A holder lets go of the object; the last one to do so destroys it. */
    method Release()
      requires Valid() && holders > 0
      modifies this
      ensures Valid() && holders == old(holders) - 1
      ensures holders > 0 ==> weak == old(weak)
    {
      holders := holders - 1;
      if holders == 0 {
        weak := None;
      }
    }
  }

  /** While the first object is held, a second request yields the identical object. */
  method SharedWhileHeld(dll: SysDll) returns (a: Option<Sys>, b: Option<Sys>)
    requires dll.Valid()
    modifies dll
    ensures a.Some? && b.Some? ==> a == b
  {
    var r1, r2;
    r1, a := dll.GetDllObject(SYS_OBJECT_ID, None);
    r2, b := dll.GetDllObject(SYS_OBJECT_ID, None);
  }

  /** After the only holder lets go, the next request makes a new object. */
  method NewAfterRelease(dll: SysDll) returns (a: Option<Sys>, b: Option<Sys>)
    requires dll.Valid() && dll.holders == 0
    modifies dll
    ensures a.Some? && b.Some? ==> a != b
  {
    var r1, r2;
    r1, a := dll.GetDllObject(SYS_OBJECT_ID, None);
    if r1 == Success {
      dll.Release();
    }
    r2, b := dll.GetDllObject(SYS_OBJECT_ID, None);
  }
}
