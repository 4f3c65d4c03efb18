# COM+ Services holder object

A model of the `IHolder` object of Wine's COM+ Services library
(`dlls/comsvcs`). The holder is a COM object with a reference count: it
answers `QueryInterface` for `IID_IUnknown` and `IID_IHolder`, counts
references with `AddRef` and `Release`, and releases its memory when the
count drops to zero. Its resource methods (`AllocResource` …
`RequestDestroyResource`) are stubs that return `S_OK` and touch no state.
The factory `holder_CreateInstance` allocates a holder with count one, asks
it for `IID_IHolder` (count two) and drops its own reference (count one), so
the caller receives a holder with exactly one reference.

The project has three modules:

- `Com` (`com.dfy`): interface identifiers (`IUnknown | IHolder | Other(guid)`),
  the `HRESULT` values used (`S_OK | E_NOINTERFACE | E_OUTOFMEMORY`) and the
  resource identifier types.
- `Lifecycle` (`lifecycle.dfy`): the protocol as values. `RefState` holds the
  count and the released flag, `Step` is the effect of one call on a live
  holder, `Outstanding` counts the references clients hold after a sequence
  of calls that starts at the factory, and `Run` replays such a sequence,
  stopping at the first call made on a released holder. The lemmas prove that
  a sequence of calls in which each call is made by a reference holder never
  reaches a released holder, keeps the count equal to the references held,
  and releases the holder once, by the call that drops the last reference;
  and, conversely, that a sequence that never reaches a released holder is
  one in which every call was made by a reference holder.
- `Comsvcs` (`holder.dfy`): the class `Holder` with the two fields of the C
  struct that have behaviour (`ref`, and `freed` standing for the
  `heap_free` of the object), its methods, and the factory `CreateInstance`.
  Each counting method's postcondition ties its new state to
  `Lifecycle.Step`, so the lemmas about runs apply to the class. Every method
  requires a live holder (`!freed && ref > 0`): calling a released holder is
  undefined in the C code.

Allocation is not modelled as memory: whether `heap_alloc` succeeds is the
`allocSucceeds` parameter of `CreateInstance`, and `heap_free` of the holder
is `freed := true`.

## Model

| member | source | states |
|---|---|---|
| `Lifecycle.Step` | dlls/comsvcs/holder.c:44-85 | one call on a live holder changes the count by exactly the references it hands out or takes back, keeps the count non-negative, and releases the holder if and only if it is a Release at count one |
| `Lifecycle.Run` | dlls/comsvcs/holder.c:44-85 | replaying calls after the factory either stops at a call made on a released holder, at a position inside the sequence, or ends in a state whose count is non-negative and which is released exactly when the count is zero |
| `Lifecycle.RunTracksReferences` | dlls/comsvcs/holder.c:65-85 | when every call is made by a client holding a reference, no call reaches a released holder, the count equals the references the clients hold, and the holder is released exactly when that number is zero |
| `Lifecycle.CompletedRunFollowsProtocol` | dlls/comsvcs/holder.c:73-85 | a run that never reaches a released holder is one in which every call was made while a reference was outstanding |
| `Lifecycle.RunCompletesIffProtocol` | dlls/comsvcs/holder.c:73-85 | both directions: a run never reaches a released holder if and only if every call is made while a reference is outstanding |
| `Lifecycle.FreedOnlyByLastCall` | dlls/comsvcs/holder.c:79-82 | in a run that follows the protocol every state before the last call is live, so the holder is released at most once and nothing is called on it afterwards |
| `Comsvcs.Holder.Allocated` | dlls/comsvcs/holder.c:190-191 | a newly allocated holder starts live with count one |
| `Comsvcs.Holder.QueryInterface` | dlls/comsvcs/holder.c:44-63 | for IID_IUnknown and IID_IHolder returns S_OK, hands out the holder itself and adds exactly one reference; for any other identifier returns E_NOINTERFACE, leaves the output null and the count unchanged; the holder stays live |
| `Comsvcs.Holder.AddRef` | dlls/comsvcs/holder.c:65-71 | the count grows by exactly one, the new count is returned and the holder stays live |
| `Comsvcs.Holder.Release` | dlls/comsvcs/holder.c:73-85 | the count drops by exactly one, the new count is returned, and the holder is released if and only if that count is zero |
| `Comsvcs.Holder.AllocResource` | dlls/comsvcs/holder.c:87-96 | returns S_OK and leaves the caller's resource identifier as it was; the holder's state is unchanged |
| `Comsvcs.Holder.FreeResource` | dlls/comsvcs/holder.c:98-107 | returns S_OK; the holder's state is unchanged |
| `Comsvcs.Holder.TrackResource` | dlls/comsvcs/holder.c:109-116 | returns S_OK; the holder's state is unchanged |
| `Comsvcs.Holder.TrackResourceS` | dlls/comsvcs/holder.c:118-125 | returns S_OK; the holder's state is unchanged |
| `Comsvcs.Holder.UntrackResource` | dlls/comsvcs/holder.c:127-134 | returns S_OK; the holder's state is unchanged |
| `Comsvcs.Holder.UntrackResourceS` | dlls/comsvcs/holder.c:136-143 | returns S_OK; the holder's state is unchanged |
| `Comsvcs.Holder.Close` | dlls/comsvcs/holder.c:145-152 | returns S_OK; the holder's state is unchanged |
| `Comsvcs.Holder.RequestDestroyResource` | dlls/comsvcs/holder.c:154-161 | returns S_OK; the holder's state is unchanged |
| `Comsvcs.CreateInstance` | dlls/comsvcs/holder.c:178-197 | when allocation succeeds returns S_OK and a new live holder whose count is exactly one; when it fails returns E_OUTOFMEMORY and a null output |

The stub methods have no `modifies` clause, so Dafny checks that they change
no field of the holder.

## Left out

- Diagnostics (`TRACE`, `FIXME`, `WARN`): logging only.
- Atomicity of `InterlockedIncrement` and `InterlockedDecrement`: the count is modelled sequentially, one call at a time.
- `heap_alloc` and `heap_free` as memory operations: allocation success is a parameter and releasing the holder sets `freed`; "further use is undefined" becomes the `Live()` precondition.
- Comsvcs.Holder.AddRef: does not model the wrap-around of the 32-bit signed `LONG` count past 2147483647; the count is an unbounded integer.
- Comsvcs.Holder.Release: requires a count above zero, so the wrap of the signed count below zero and its conversion to the unsigned `ULONG` return value are not modelled.
- Comsvcs.Holder.AllocResource: the `heap_alloc` it performs is assigned to its local parameter, never returned and never freed; the leak is not modelled.
- Comsvcs.Holder.FreeResource: the `heap_free` of the resource identifier cast to a pointer is undefined behaviour and is not modelled; only the `S_OK` result is.
- The vtable, the `CONTAINING_RECORD` conversion from interface pointer to object and byte-wise GUID comparison: C object layout; the interface pointer is the `Holder` object itself and identifiers are the `Iid` datatype.
- `dlls/comsvcs/comsvcs_private.h` declares the struct (`IHolder_iface`, `ref`) and the factory; it has no behaviour of its own and supplies the class's fields.
