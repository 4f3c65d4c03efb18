/**
  The COM+ Services holder object: a reference-counted object whose
  QueryInterface, AddRef and Release follow the COM lifetime rules, whose
  resource methods are stubs that report success, and the factory that
  creates it with one reference owned by the caller.
 */
module Comsvcs {
  import opened Com
  import Lifecycle

  class Holder {
    /** The reference count (a LONG in the holder struct). */
    var ref: int
    /** Set once the count has reached zero and the object was released. */
    var freed: bool

    /** The fields the lifecycle protocol talks about. */
    function State(): Lifecycle.RefState
      reads this
    {
      Lifecycle.RefState(ref, freed)
    }

    /** A holder that may be called. */
    predicate Live()
      reads this
    {
      Lifecycle.Live(State())
    }

    /** The freshly allocated holder with its count set to one. */
    constructor Allocated()
      ensures State() == Lifecycle.Created
    {
      ref := 1;
      freed := false;
    }

    /** Clears the output, then hands out this object with one more reference
        for IID_IUnknown and IID_IHolder; any other identifier is refused. */
    method QueryInterface(iid: Iid) returns (hr: HResult, obj: Holder?)
      requires Live()
      modifies this
      ensures State() == Lifecycle.Step(old(State()), Lifecycle.Call.QueryInterface(iid))
      ensures Lifecycle.Supported(iid) ==> hr == S_OK && obj == this && ref == old(ref) + 1
      ensures !Lifecycle.Supported(iid) ==> hr == E_NOINTERFACE && obj == null && ref == old(ref)
      ensures Live()
    {
      obj := null;
      if iid == IUnknown || iid == IHolder {
        obj := this;
        var _ := obj.AddRef();
        return S_OK, obj;
      }
      hr := E_NOINTERFACE;
    }

    /** Takes one more reference and returns the new count. */
    method AddRef() returns (count: nat)
      requires Live()
      modifies this
      ensures State() == Lifecycle.Step(old(State()), Lifecycle.Call.AddRef)
      ensures ref == old(ref) + 1 && count == ref
      ensures Live()
    {
      ref := ref + 1;
      count := ref;
    }

    /** Gives back one reference and returns the new count; the object is
        released when, and only when, that count is zero. */
    method Release() returns (count: nat)
      requires Live()
      modifies this
      ensures State() == Lifecycle.Step(old(State()), Lifecycle.Call.Release)
      ensures ref == old(ref) - 1 && count == ref
      ensures freed <==> count == 0
    {
      ref := ref - 1;
      count := ref;
      if count == 0 {
        freed := true;
      }
    }

    /** Succeeds without passing a resource identifier back: the caller's
        identifier is returned as it was. */
    method AllocResource(typeid: ResTypeId, resid: ResId) returns (hr: HResult, residAfter: ResId)
      requires Live()
      ensures hr == S_OK && residAfter == resid
    {
      hr := S_OK;
      residAfter := resid;
    }

    method FreeResource(resid: ResId) returns (hr: HResult)
      requires Live()
      ensures hr == S_OK
    {
      hr := S_OK;
    }

    method TrackResource(resid: ResId) returns (hr: HResult)
      requires Live()
      ensures hr == S_OK
    {
      hr := S_OK;
    }

    method TrackResourceS(resid: SResId) returns (hr: HResult)
      requires Live()
      ensures hr == S_OK
    {
      hr := S_OK;
    }

    method UntrackResource(resid: ResId, value: bool) returns (hr: HResult)
      requires Live()
      ensures hr == S_OK
    {
      hr := S_OK;
    }

    method UntrackResourceS(resid: SResId, value: bool) returns (hr: HResult)
      requires Live()
      ensures hr == S_OK
    {
      hr := S_OK;
    }

    method Close() returns (hr: HResult)
      requires Live()
      ensures hr == S_OK
    {
      hr := S_OK;
    }

    method RequestDestroyResource(resid: ResId) returns (hr: HResult)
      requires Live()
      ensures hr == S_OK
    {
      hr := S_OK;
    }
  }

  /** The factory: on a failed allocation the output is cleared and
      E_OUTOFMEMORY returned; otherwise the new holder starts at one
      reference, QueryInterface for IID_IHolder adds the caller's, and the
      factory drops its own, so the caller receives a live holder whose count
      is exactly one. Whether the heap allocation succeeds is a parameter. */
  method CreateInstance(allocSucceeds: bool) returns (hr: HResult, obj: Holder?)
    ensures allocSucceeds ==> hr == S_OK && obj != null && fresh(obj)
    ensures allocSucceeds ==> obj != null && obj.Live() && obj.ref == 1 && obj.State() == Lifecycle.Created
    ensures !allocSucceeds ==> hr == E_OUTOFMEMORY && obj == null
  {
    if !allocSucceeds {
      return E_OUTOFMEMORY, null;
    }
    var holder := new Holder.Allocated();
    hr, obj := holder.QueryInterface(IHolder);
    var _ := holder.Release();
  }

  /** A client following the lifetime rules: create, take a second reference,
      drop both; the holder is released by the last Release only. */
  method CreateAddRefReleaseRelease() {
    var hr, h := CreateInstance(true);
    var n := h.AddRef();
    assert n == 2;
    n := h.Release();
    assert n == 1 && h.Live();
    var st := h.Close();
    assert st == S_OK && h.ref == 1;
    n := h.Release();
    assert n == 0 && h.freed;
  }
}
