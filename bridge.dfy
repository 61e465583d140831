/**
 * The INVITE handler after the source filter: registering the call with
 * Retell, bridging the inbound leg to Retell's SIP endpoint, and tying the
 * two legs' lifetimes together.
 */
module Bridge {
  import opened JsValues
  import opened Settings
  import Admission

  const UriPrefix: string := "sip:"
  const UriSuffix: string := "@sip.retellai.com"

  /** The target of the outbound leg for the call Retell registered as `callId`. */
  function LegBUri(callId: string): string
  {
    UriPrefix + callId + UriSuffix
  }

  /** The call identifier a leg-B target was built from, if it is one. */
  function ParseLegBUri(uri: string): (callId: Option<string>)
    ensures callId.Some? ==> LegBUri(callId.value) == uri
  {
    if |uri| >= |UriPrefix| + |UriSuffix|
       && uri[..|UriPrefix|] == UriPrefix
       && uri[|uri| - |UriSuffix|..] == UriSuffix
    then
      var id := uri[|UriPrefix|..|uri| - |UriSuffix|];
      assert uri == uri[..|UriPrefix|] + id + uri[|uri| - |UriSuffix|..];
      Some(id)
    else None
  }

  /** Every call identifier is recovered from its leg-B target, so distinct calls get distinct targets. */
  lemma LegBUriRoundTrip(callId: string)
    ensures ParseLegBUri(LegBUri(callId)) == Some(callId)
  {
  }

  /** The part of an INVITE the handler reads. */
  datatype InviteRequest = InviteRequest(
    sourceAddress: string,
    callingNumber: Option<string>,
    body: string)

  /** What `registerPhoneCall` came to. */
  datatype RegistrationOutcome =
    | Registered(callId: string)
    | RegistrationFailed

  /** What `createB2BUA` came to; on failure, whether a final response had already gone out on leg A. */
  datatype BridgeOutcome =
    | Bridged
    | BridgeFailed(finalResponseSent: bool)

  /** The handler's observable actions, in the order it takes them. */
  datatype InviteEffect =
    | Respond(code: int)
    | RegisterPhoneCall(agentId: Option<string>, fromNumber: Option<string>, toNumber: Option<string>, direction: string)
    | CreateB2BUA(uri: string, localSdpB: string)

  predicate Admitted(env: Env, req: InviteRequest)
  {
    Admission.Screen(req.sourceAddress, env.sipRealm).Proceed?
  }

  /** Everything the handler does for one INVITE, given what its remote calls came to. */
  function InviteEffects(env: Env, req: InviteRequest, reg: RegistrationOutcome, bridge: BridgeOutcome): (r: seq<InviteEffect>)
    ensures !Admitted(env, req) ==> r == [Respond(403)]
    ensures Respond(403) in r <==> !Admitted(env, req)
    ensures forall e :: e in r && e.Respond? ==> e.code == 403 || e.code == 500
    ensures forall i :: 0 <= i < |r| && r[i].RegisterPhoneCall? ==> i == 0
    ensures forall i :: 0 <= i < |r| && r[i].CreateB2BUA? ==> i == 1
    ensures (exists e :: e in r && e.RegisterPhoneCall?) <==> Admitted(env, req)
    ensures Admitted(env, req) ==> r[0] == RegisterPhoneCall(env.retellAgentId, req.callingNumber, env.retellNumber, "inbound")
    ensures (exists e :: e in r && e.CreateB2BUA?) <==> Admitted(env, req) && reg.Registered?
    ensures forall e :: e in r && e.CreateB2BUA? ==> reg.Registered? && e.uri == LegBUri(reg.callId) && e.localSdpB == req.body
    ensures Respond(500) in r <==> Admitted(env, req) && (reg.RegistrationFailed? || bridge == BridgeFailed(false))
    ensures forall i :: 0 <= i < |r| && r[i].Respond? ==> i == |r| - 1
  {
    if !Admitted(env, req) then
      [Respond(403)]
    else
      var register := RegisterPhoneCall(env.retellAgentId, req.callingNumber, env.retellNumber, "inbound");
      var r := match reg
        case RegistrationFailed => [register, Respond(500)]
        case Registered(callId) =>
          var create := CreateB2BUA(LegBUri(callId), req.body);
          var answer := if bridge == BridgeFailed(false) then [Respond(500)] else [];
          assert ([register, create] + answer)[1] == create;
          [register, create] + answer;
      assert register in r;
      r
  }

  /** One leg of a bridged call: `Uas` faces the trunk provider, `Uac` faces Retell. */
  datatype Leg = Uas | Uac

  function Other(leg: Leg): (o: Leg)
    ensures o != leg
  {
    match leg
    case Uas => Uac
    case Uac => Uas
  }

  datatype LegState = Active | Terminated

  /** The two dialogs of one bridged call and the orchestrator's teardown record. */
  class Session {
    var uas: LegState
    var uac: LegState
    var destroyCallsUas: nat   // destroy() calls the handlers issued on the uas dialog
    var destroyCallsUac: nat   // destroy() calls the handlers issued on the uac dialog

    /** Both legs live and untouched, or both ended with exactly one teardown issued. */
    ghost predicate Valid()
      reads this
    {
      (uas == Active && uac == Active && destroyCallsUas == 0 && destroyCallsUac == 0) ||
      (uas == Terminated && uac == Terminated && destroyCallsUas + destroyCallsUac == 1)
    }

    function State(leg: Leg): LegState
      reads this
    {
      match leg
      case Uas => uas
      case Uac => uac
    }

    function DestroyCalls(leg: Leg): nat
      reads this
    {
      match leg
      case Uas => destroyCallsUas
      case Uac => destroyCallsUac
    }

    /** A freshly bridged call: both dialogs established. */
    constructor ()
      ensures Valid()
      ensures uas == Active && uac == Active && destroyCallsUas == 0 && destroyCallsUac == 0
    {
      uas, uac := Active, Active;
      destroyCallsUas, destroyCallsUac := 0, 0;
    }

    /** `destroy()` on the dialog of `leg`: a BYE goes out on that leg and it ends. */
    method Destroy(leg: Leg)
      modifies this
      ensures State(leg) == Terminated && DestroyCalls(leg) == old(DestroyCalls(leg)) + 1
      ensures State(Other(leg)) == old(State(Other(leg)))
      ensures DestroyCalls(Other(leg)) == old(DestroyCalls(Other(leg)))
    {
      match leg
      case Uas =>
        uas := Terminated;
        destroyCallsUas := destroyCallsUas + 1;
      case Uac =>
        uac := Terminated;
        destroyCallsUac := destroyCallsUac + 1;
    }

    /**
     * The far end of `leg` hung up: the dialog ends and emits its 'destroy'
     * event, whose handler destroys the other dialog. A dialog that has
     * already ended emits nothing.
     */
    method OnDestroy(leg: Leg)
      requires Valid()
      modifies this
      ensures Valid()
      ensures old(State(leg)) == Active ==>
        uas == Terminated && uac == Terminated && DestroyCalls(Other(leg)) == 1 && DestroyCalls(leg) == 0
      ensures old(State(leg)) == Terminated ==> unchanged(this)
    {
      if State(leg) == Active {
        match leg {
          case Uas => uas := Terminated;
          case Uac => uac := Terminated;
        }
        Destroy(Other(leg));
      }
    }
  }

  /**
   * The INVITE handler from the source filter on: what it does, and the
   * session it leaves behind when the bridge comes up.
   */
  method HandleInvite(env: Env, req: InviteRequest, reg: RegistrationOutcome, bridge: BridgeOutcome)
    returns (effects: seq<InviteEffect>, session: Session?)
    ensures effects == InviteEffects(env, req, reg, bridge)
    ensures session != null <==> Admitted(env, req) && reg.Registered? && bridge.Bridged?
    ensures session != null ==> fresh(session) && session.Valid() && session.uas == Active && session.uac == Active
  {
    session := null;
    var verdict := Admission.Screen(req.sourceAddress, env.sipRealm);
    if verdict.Reject? {
      effects := [Respond(verdict.code)];
      return;
    }
    effects := [RegisterPhoneCall(env.retellAgentId, req.callingNumber, env.retellNumber, "inbound")];
    match reg
    case RegistrationFailed =>
      effects := effects + [Respond(500)];
    case Registered(callId) =>
      effects := effects + [CreateB2BUA(LegBUri(callId), req.body)];
      match bridge
      case Bridged =>
        session := new Session();
      case BridgeFailed(finalResponseSent) =>
        if !finalResponseSent {
          effects := effects + [Respond(500)];
        }
  }
}
