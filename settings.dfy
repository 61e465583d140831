/**
 * The configuration the handlers read: the process environment, where any
 * variable may be unset, and the one constant the script fixes itself.
 */
module Settings {
  import opened JsValues

  /** Expiry requested for every REGISTER, in seconds. */
  const DefaultExpires: nat := 3600

  /** The environment variables of the script; `None` is an unset variable. */
  datatype Env = Env(
    sipUsername: Option<string>,
    sipPassword: Option<string>,
    sipRealm: Option<string>,
    sipIpv4: Option<string>,
    sipPort: Option<string>,
    retellAgentId: Option<string>,
    retellNumber: Option<string>,
    fbApiVersion: Option<string>,
    fbPageId: Option<string>,
    fbAccessToken: Option<string>,
    managerId: Option<string>,
    receptionId: Option<string>)

  /** The address-of-record this process registers under: `sip:<user>@<realm>`. */
  function Aor(env: Env): string
  {
    "sip:" + Render(env.sipUsername) + "@" + Render(env.sipRealm)
  }
}
