/**
  The COM vocabulary the holder speaks: interface identifiers, status codes
  and the opaque resource identifiers its stub methods accept.
 */
module Com {

  /** An interface identifier. The holder recognises only IID_IUnknown and
      IID_IHolder; every other GUID is carried as an opaque number. */
  datatype Iid = IUnknown | IHolder | Other(guid: nat)

  /** The HRESULT values the holder and its factory return. */
  datatype HResult = S_OK | E_NOINTERFACE | E_OUTOFMEMORY

  /** RESTYPID and RESID are pointer-sized unsigned integers. */
  type ResTypeId = nat
  type ResId = nat

  /** SRESID is a wide-character string. */
  type SResId = string
}
