/**
 * Keeping this process registered with the SIP trunk provider
 * (`doRegister` in script.js): one REGISTER per cycle, and the outcome of
 * each request decides whether, and after how long, the next cycle runs.
 */
module Registration {
  import opened JsValues
  import opened Settings

  /** Delay before renewing after a 200 response: half the requested expiry, in ms. */
  const RenewalDelayMs: nat := (DefaultExpires / 2) * 1000

  /** Delay before trying again after the request itself failed, in ms. */
  const RetryDelayMs: nat := 30000

  /** What one REGISTER request came to. */
  datatype RegisterOutcome =
    | Responded(status: int)   // the request went out and a final response arrived
    | Threw                    // the request could not be sent (transport, connection)

  /** An outcome after which no further registration is ever scheduled. */
  predicate Stops(o: RegisterOutcome)
  {
    o.Responded? && o.status != 200
  }

  /** The delay of the timer one cycle arms, or `None` when it arms none. */
  function NextDelay(o: RegisterOutcome): (d: Option<nat>)
    ensures d == Some(1800000) <==> o == Responded(200)
    ensures d == Some(30000) <==> o == Threw
    ensures d == None <==> Stops(o)
  {
    match o
    case Responded(status) => if status == 200 then Some(RenewalDelayMs) else None
    case Threw => Some(RetryDelayMs)
  }

  /** The REGISTER request a cycle sends. */
  datatype RegisterRequest = RegisterRequest(
    uri: string,
    sipMethod: string,
    proxy: string,
    from: string,
    contact: string,
    expires: nat,
    username: Option<string>,
    password: Option<string>)

  /** No `>` in the configured user and realm, so the AOR fits between angle brackets. */
  predicate AorIsBracketable(env: Env)
  {
    '>' !in Render(env.sipUsername) && '>' !in Render(env.sipRealm)
  }

  /** The prefix of `s` before the first `c`, if `s` holds a `c`. */
  function Before(s: string, c: char): (r: Option<string>)
    ensures r.Some? ==> c !in r.value && |r.value| < |s| && s[..|r.value|] == r.value && s[|r.value|] == c
    ensures r.None? ==> c !in s
  {
    if s == [] then None
    else if s[0] == c then Some([])
    else match Before(s[1..], c)
      case None => None
      case Some(t) => Some([s[0]] + t)
  }

  lemma {:induction false} BeforeFirst(x: string, c: char, y: string)
    requires c !in x
    ensures Before(x + [c] + y, c) == Some(x)
  {
    if x == [] {
      assert (x + [c] + y)[0] == c;
    } else {
      assert (x + [c] + y)[1..] == x[1..] + [c] + y;
      BeforeFirst(x[1..], c, y);
      assert [x[0]] + x[1..] == x;
    }
  }

  /** The URI a Contact header binds: the text between its leading `<` and the first `>`. */
  function BracketedUri(header: string): Option<string>
  {
    if |header| > 0 && header[0] == '<' then Before(header[1..], '>') else None
  }

  /** The Contact header as script.js:49 writes it: a `sip:` scheme put in front of the AOR. */
  function ContactAsWritten(env: Env): string
  {
    "<sip:" + Aor(env) + ">;expires=" + Decimal(DefaultExpires)
  }

  /** The Contact header binding the AOR itself. */
  function Contact(env: Env): string
  {
    "<" + Aor(env) + ">;expires=" + Decimal(DefaultExpires)
  }

  /** As written, the Contact binds `sip:sip:<user>@<realm>`, which is not the AOR. */
  lemma ContactAsWrittenDoublesScheme(env: Env)
    requires AorIsBracketable(env)
    ensures BracketedUri(ContactAsWritten(env)) == Some("sip:" + Aor(env))
    ensures Aor(env)[..4] == "sip:" && BracketedUri(ContactAsWritten(env)) != Some(Aor(env))
  {
    var rest := ";expires=" + Decimal(DefaultExpires);
    assert ContactAsWritten(env)[1..] == "sip:" + Aor(env) + ">" + rest;
    BeforeFirst("sip:" + Aor(env), '>', rest);
  }

  /** The corrected Contact binds exactly the AOR that the REGISTER is for. */
  lemma ContactNamesAor(env: Env)
    ensures AorIsBracketable(env) ==> BracketedUri(Contact(env)) == Some(Aor(env))
  {
    if AorIsBracketable(env) {
      var rest := ";expires=" + Decimal(DefaultExpires);
      assert Contact(env)[1..] == Aor(env) + ">" + rest;
      BeforeFirst(Aor(env), '>', rest);
    }
  }

  /** A REGISTER for the AOR through the configured proxy, carrying `contact`. */
  function RegisterWith(env: Env, contact: string): RegisterRequest
  {
    RegisterRequest(
      Aor(env), "REGISTER",
      "sip:" + Render(env.sipIpv4) + ":" + Render(env.sipPort),
      Aor(env), contact, DefaultExpires,
      env.sipUsername, env.sipPassword)
  }

  /** The REGISTER request of one cycle, as script.js:44-53 sends it. */
  function Register(env: Env): (r: RegisterRequest)
    ensures r.sipMethod == "REGISTER" && r.uri == Aor(env) && r.from == r.uri
    ensures r.proxy == "sip:" + Render(env.sipIpv4) + ":" + Render(env.sipPort)
    ensures r.expires == DefaultExpires
    ensures r.contact == "<sip:" + r.uri + ">;expires=" + Decimal(r.expires)
    ensures AorIsBracketable(env) ==> BracketedUri(r.contact) == Some("sip:" + r.uri)
    ensures r.username == env.sipUsername && r.password == env.sipPassword
  {
    var r := RegisterWith(env, ContactAsWritten(env));
    if AorIsBracketable(env) then ContactAsWrittenDoublesScheme(env); r else r
  }

  /** The same request with a Contact that binds the AOR it registers. */
  function RegisterCorrected(env: Env): (r: RegisterRequest)
    ensures r == Register(env).(contact := r.contact)
    ensures r.contact == "<" + r.uri + ">;expires=" + Decimal(r.expires)
    ensures AorIsBracketable(env) ==> BracketedUri(r.contact) == Some(r.uri)
  {
    ContactNamesAor(env);
    RegisterWith(env, Contact(env))
  }

  /**
   * The self-rescheduling loop over a finite horizon: `outcomes[i]` is what
   * the i-th REGISTER came to. The first request goes out when the signalling
   * connection comes up, every later one when the timer armed by the cycle
   * before it fires. Returns how many requests went out and the delays of the
   * timers armed, in order.
   */
  method RunRegistration(outcomes: seq<RegisterOutcome>) returns (sent: nat, delays: seq<nat>)
    ensures |delays| <= sent <= |outcomes|
    ensures sent == if |delays| < |outcomes| then |delays| + 1 else |outcomes|
    ensures forall i :: 0 <= i < |delays| ==> !Stops(outcomes[i]) && NextDelay(outcomes[i]) == Some(delays[i])
    ensures forall i :: 0 <= i < |delays| ==> (delays[i] == RetryDelayMs <==> outcomes[i] == Threw)
    ensures |delays| < |outcomes| ==> Stops(outcomes[|delays|])
  {
    sent, delays := 0, [];
    var armed := true;
    while armed && sent < |outcomes|
      invariant sent <= |outcomes|
      invariant armed ==> |delays| == sent
      invariant !armed ==> |delays| + 1 == sent && Stops(outcomes[|delays|])
      invariant forall i :: 0 <= i < |delays| ==> !Stops(outcomes[i]) && NextDelay(outcomes[i]) == Some(delays[i])
      invariant forall i :: 0 <= i < |delays| ==> (delays[i] == RetryDelayMs <==> outcomes[i] == Threw)
    {
      var next := NextDelay(outcomes[sent]);
      sent := sent + 1;
      match next
      case Some(d) =>
        delays := delays + [d];
      case None =>
        armed := false;
    }
  }
}
