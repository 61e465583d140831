/** The source-address filter at the head of the INVITE handler. */
module Admission {
  import opened JsValues

  /** What the filter lets the handler do next. */
  datatype Verdict =
    | Reject(code: int)   // answer the INVITE with `code` and stop
    | Proceed             // go on to register the call with Retell

  /**
   * Compares the INVITE's source address with `SIP_REALM`. An unset realm is
   * `undefined`, which no address equals, so then every INVITE is refused.
   */
  function Screen(sourceAddress: string, realm: Option<string>): (v: Verdict)
    ensures v.Proceed? <==> realm.Some? && realm.value == sourceAddress
    ensures v.Reject? ==> v.code == 403
  {
    if realm == Some(sourceAddress) then Proceed else Reject(403)
  }
}
