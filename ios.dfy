/**
 * The iOS side of the plugin: the method dispatcher, the Apple sign-in version
 * gate and authorization delegate, the WeChat precondition chain, and the
 * WeChat callback correlator.
 *
 * Everything the operating system answers is an input here: the version string,
 * whether Sign in with Apple is available, whether the class WXApi can be looked
 * up, whether the URL weixin:// can be opened, and what UTF-8 decoding of a byte
 * buffer yields.
 */
module IosPlugin {
  import opened Channel

  /** What the device reports to the plugin. */
  datatype Device = Device(
    systemVersion: string,
    supportsAppleSignIn: bool,   // iOS 13.0 or later
    hasWXApiClass: bool,         // the class named "WXApi" resolves at run time
    canOpenWeixinUrl: bool)      // an application answers to weixin://

  /** A byte buffer, known only through what decoding it as UTF-8 gives (None when it is not UTF-8). */
  datatype Data = Data(utf8: Option<string>)

  datatype PersonNameComponents = PersonNameComponents(givenName: Option<string>, familyName: Option<string>)

  /** The credential an authorization carries; only Apple ID credentials are accepted. */
  datatype Credential =
    | AppleIdCredential(
        user: string,
        authorizationCode: Option<Data>,
        identityToken: Option<Data>,
        fullName: Option<PersonNameComponents>,
        email: Option<string>)
    | OtherCredential

  /** An error reported by the operating system: its numeric code and description. */
  datatype NSError = NSError(code: int, localizedDescription: string)

  /** The scopes of an Apple ID authorization request. */
  datatype Scope = FullName | EmailScope

  /** ASAuthorizationError.canceled: the user dismissed the sign-in sheet. */
  const CanceledErrorCode: int := 1001

  // ---------------------------------------------------------------------------
  // Dispatch
  // ---------------------------------------------------------------------------

  /**
   * The answer `handle` gives at once to a call named `call`, or None when the
   * answer is left to the Apple authorization delegate.
   */
  function HandleResponse(call: string, device: Device): (r: Option<Response>)
    ensures r.None? <==> call == AppleLogin && device.supportsAppleSignIn
    ensures r == Some(NotImplemented) <==> call !in KnownMethods
    ensures (r.Some? && r.value.Success?) <==> call == GetPlatformVersion
    ensures call == GetPlatformVersion ==>
      r.value.value.Str? && "iOS " <= r.value.value.s && r.value.value.s[4..] == device.systemVersion
    ensures call == AppleLogin ==> r == AppleLoginGate(device)
    ensures call == WechatLogin ==> r == Some(WechatLoginResponse(device))
  {
    if call == GetPlatformVersion then Some(Success(Str("iOS " + device.systemVersion)))
    else if call == AppleLogin then AppleLoginGate(device)
    else if call == WechatLogin then Some(WechatLoginResponse(device))
    else Some(NotImplemented)
  }

  /** The version gate of `handleAppleLogin`: below iOS 13 it answers UNAVAILABLE at once. */
  function AppleLoginGate(device: Device): (r: Option<Response>)
    ensures r.None? <==> device.supportsAppleSignIn
    ensures r.Some? ==> r.value.Error? && r.value.code == Unavailable && r.value.details.None?
  {
    if device.supportsAppleSignIn then None
    else Some(Error(Unavailable, "Apple Sign In is only available on iOS 13.0 or later", None))
  }

  /**
   * `handleWechatLogin`: the SDK check, then the installation check, then the
   * stub answer. It always answers with exactly one error and never succeeds.
   */
  function WechatLoginResponse(device: Device): (r: Response)
    ensures r.Error? && r.details.None?
    ensures r.code == SdkNotFound <==> !device.hasWXApiClass
    ensures r.code == AppNotInstalled <==> device.hasWXApiClass && !device.canOpenWeixinUrl
    ensures r.code == NotImplementedCode <==> device.hasWXApiClass && device.canOpenWeixinUrl
  {
    if !device.hasWXApiClass then
      Error(SdkNotFound, "Wechat SDK not found. Please integrate WeChat SDK first.", None)
    else if !device.canOpenWeixinUrl then
      Error(AppNotInstalled, "WeChat app is not installed", None)
    else
      Error(NotImplementedCode, "WeChat login requires manual SDK integration. Please see documentation.", None)
  }

  // ---------------------------------------------------------------------------
  // Apple ID credential
  // ---------------------------------------------------------------------------

  /** The authorization code as a string, when it is present and is UTF-8. */
  function DecodedAuthCode(c: Credential): Option<string>
    requires c.AppleIdCredential?
  {
    if c.authorizationCode.Some? then c.authorizationCode.value.utf8 else None
  }

  /** The identity token as a string, when it is present and is UTF-8. */
  function DecodedIdentityToken(c: Credential): Option<string>
    requires c.AppleIdCredential?
  {
    if c.identityToken.Some? then c.identityToken.value.utf8 else None
  }

  const PayloadKeys: set<string> := {"authCode", "user", "idToken", "fullName", "email"}

  /** `d` is the "fullName" dictionary of `n`: exactly the parts of the name that are present. */
  predicate IsNamePayload(n: PersonNameComponents, d: map<string, Value>) {
    && d.Keys <= {"givenName", "familyName"}
    && ("givenName" in d <==> n.givenName.Some?)
    && ("givenName" in d ==> d["givenName"] == Str(n.givenName.value))
    && ("familyName" in d <==> n.familyName.Some?)
    && ("familyName" in d ==> d["familyName"] == Str(n.familyName.value))
  }

  /**
   * `d` is the success payload for the Apple ID credential `c`, whose code decodes
   * to `code`: "authCode" and "user" always, and each optional key exactly when
   * its field is present (and, for "idToken", decodes; for "fullName", has a part).
   */
  predicate IsPayload(c: Credential, code: string, d: map<string, Value>)
    requires c.AppleIdCredential?
  {
    && d.Keys <= PayloadKeys
    && "authCode" in d && d["authCode"] == Str(code)
    && "user" in d && d["user"] == Str(c.user)
    && ("idToken" in d <==> DecodedIdentityToken(c).Some?)
    && ("idToken" in d ==> d["idToken"] == Str(DecodedIdentityToken(c).value))
    && ("email" in d <==> c.email.Some?)
    && ("email" in d ==> d["email"] == Str(c.email.value))
    && ("fullName" in d <==>
          c.fullName.Some? && (c.fullName.value.givenName.Some? || c.fullName.value.familyName.Some?))
    && ("fullName" in d ==> d["fullName"].Dict? && IsNamePayload(c.fullName.value, d["fullName"].entries))
  }

  /** `r` is what a completed authorization with credential `c` must be answered with. */
  predicate AnswersAuthorization(c: Credential, r: Response) {
    if !c.AppleIdCredential? then
      r == Error(InvalidCredential, "Invalid Apple ID credential", None)
    else if DecodedAuthCode(c).None? then
      r == Error(AuthCodeError, "Failed to get authorization code", None)
    else
      r.Success? && r.value.Dict? && IsPayload(c, DecodedAuthCode(c).value, r.value.entries)
  }

  /**
   * The body of `authorizationController(didCompleteWithAuthorization:)`: rejects a
   * credential that is not an Apple ID credential or has no usable code, and
   * otherwise builds the result dictionary one optional key at a time.
   */
  method BuildAuthorizationResponse(credential: Credential) returns (r: Response)
    ensures AnswersAuthorization(credential, r)
  {
    if !credential.AppleIdCredential? {
      return Error(InvalidCredential, "Invalid Apple ID credential", None);
    }
    if credential.authorizationCode.None? || credential.authorizationCode.value.utf8.None? {
      return Error(AuthCodeError, "Failed to get authorization code", None);
    }
    var authCodeString := credential.authorizationCode.value.utf8.value;

    var idTokenString: Option<string> := None;
    if credential.identityToken.Some? {
      idTokenString := credential.identityToken.value.utf8;
    }

    var resultDict: map<string, Value> := map["authCode" := Str(authCodeString), "user" := Str(credential.user)];

    if idTokenString.Some? {
      resultDict := resultDict["idToken" := Str(idTokenString.value)];
    }

    if credential.fullName.Some? {
      var fullName := credential.fullName.value;
      var nameDict: map<string, Value> := map[];
      if fullName.givenName.Some? {
        nameDict := nameDict["givenName" := Str(fullName.givenName.value)];
      }
      if fullName.familyName.Some? {
        nameDict := nameDict["familyName" := Str(fullName.familyName.value)];
      }
      assert IsNamePayload(fullName, nameDict);
      assert nameDict == map[] <==> fullName.givenName.None? && fullName.familyName.None? by {
        if fullName.givenName.Some? { assert "givenName" in nameDict; }
        if fullName.familyName.Some? { assert "familyName" in nameDict; }
      }
      if nameDict != map[] {
        resultDict := resultDict["fullName" := Dict(nameDict)];
      }
    }

    if credential.email.Some? {
      resultDict := resultDict["email" := Str(credential.email.value)];
    }

    r := Success(Dict(resultDict));
  }

  /** The answer to a credential is fully determined: no two different answers meet the description. */
  lemma AuthorizationAnswerUnique(c: Credential, r1: Response, r2: Response)
    requires AnswersAuthorization(c, r1) && AnswersAuthorization(c, r2)
    ensures r1 == r2
  {
    if c.AppleIdCredential? && DecodedAuthCode(c).Some? {
      var d1, d2 := r1.value.entries, r2.value.entries;
      if "fullName" in d1 {
        NamePayloadUnique(c.fullName.value, d1["fullName"].entries, d2["fullName"].entries);
      }
      assert d1.Keys == d2.Keys;
      assert forall k | k in d1 :: d1[k] == d2[k];
    }
  }

  lemma NamePayloadUnique(n: PersonNameComponents, d1: map<string, Value>, d2: map<string, Value>)
    requires IsNamePayload(n, d1) && IsNamePayload(n, d2)
    ensures d1 == d2
  {
  }

  /**
   * A repeat sign-in (no identity token, no name or a name without parts, no
   * e-mail) is answered with
   * a payload of just "authCode" and "user": absent fields are omitted, not sent empty.
   */
  lemma RepeatSignInPayload(c: Credential, r: Response)
    requires c.AppleIdCredential? && DecodedAuthCode(c).Some?
    requires c.identityToken.None? && c.email.None?
    requires c.fullName.None? || (c.fullName.value.givenName.None? && c.fullName.value.familyName.None?)
    requires AnswersAuthorization(c, r)
    ensures r == Success(Dict(map["authCode" := Str(DecodedAuthCode(c).value), "user" := Str(c.user)]))
  {
  }

  /**
   * The body of `authorizationController(didCompleteWithError:)`: cancellation
   * by the user is USER_CANCELLED, every other failure AUTH_ERROR carrying the
   * description.
   */
  function AuthorizationErrorResponse(error: NSError): (r: Response)
    ensures r.Error?
    ensures r.code == UserCancelled <==> error.code == CanceledErrorCode
    ensures r.code == AuthError <==> error.code != CanceledErrorCode
    ensures r.code == UserCancelled ==> r.details.None?
    ensures r.code == AuthError ==>
      r.details == Some(Str(error.localizedDescription))
      && r.message == "Apple Sign In failed: " + error.localizedDescription
  {
    if error.code == CanceledErrorCode then
      Error(UserCancelled, "User cancelled Apple Sign In", None)
    else
      Error(AuthError, "Apple Sign In failed: " + error.localizedDescription, Some(Str(error.localizedDescription)))
  }

  // ---------------------------------------------------------------------------
  // WeChat callback
  // ---------------------------------------------------------------------------

  /**
   * How `handleWechatCallback` answers a pending call: an error wins over a
   * code, a code is the success value, and neither is UNKNOWN_ERROR.
   */
  function WechatCallbackResponse(code: Option<string>, error: Option<NSError>): (r: Response)
    ensures r.Success? <==> error.None? && code.Some?
    ensures r.Success? ==> r.value == Str(code.value)
    ensures !r.NotImplemented?
    ensures r.Error? ==> r.details.None?
    ensures r.Error? && r.code == WechatAuthError <==> error.Some?
    ensures r.Error? && r.code == UnknownError <==> error.None? && code.None?
  {
    if error.Some? then
      Error(WechatAuthError, "WeChat auth failed: " + error.value.localizedDescription, None)
    else if code.Some? then
      Success(Str(code.value))
    else
      Error(UnknownError, "Unknown error in WeChat callback", None)
  }

  // ---------------------------------------------------------------------------
  // Objects
  // ---------------------------------------------------------------------------

  /** The plugin instance registered on the channel. */
  class EasyAuthPlugin {
    var appleLoginDelegate: AppleLoginDelegate?
    /** The authorization requests handed to the operating system, by their scopes. */
    ghost var performedRequests: seq<seq<Scope>>

    constructor ()
      ensures appleLoginDelegate == null && performedRequests == []
    {
      appleLoginDelegate := null;
      performedRequests := [];
    }

    /**
     * `handle`: answers the call at once, except for appleLogin on a device that
     * supports it, where a fresh delegate holds the unanswered handle.
     */
    method Handle(call: string, result: ResultHandle, device: Device)
      requires result.log == []
      modifies this, result
      ensures HandleResponse(call, device).Some? ==>
        result.log == [HandleResponse(call, device).value]
        && appleLoginDelegate == old(appleLoginDelegate)
        && performedRequests == old(performedRequests)
      ensures HandleResponse(call, device).None? ==>
        result.log == []
        && appleLoginDelegate != null && fresh(appleLoginDelegate)
        && appleLoginDelegate.result == result
        && performedRequests == old(performedRequests) + [[FullName, EmailScope]]
    {
      if call == AppleLogin {
        HandleAppleLogin(result, device);
      } else {
        result.Reply(HandleResponse(call, device).value);
      }
    }

    /**
     * `handleAppleLogin`: below iOS 13 answers UNAVAILABLE, creating no delegate and
     * performing no request; otherwise requests name and e-mail and leaves the
     * handle to a fresh delegate.
     */
    method HandleAppleLogin(result: ResultHandle, device: Device)
      requires result.log == []
      modifies this, result
      ensures !device.supportsAppleSignIn ==>
        result.log == [AppleLoginGate(device).value]
        && appleLoginDelegate == old(appleLoginDelegate)
        && performedRequests == old(performedRequests)
      ensures device.supportsAppleSignIn ==>
        result.log == []
        && appleLoginDelegate != null && fresh(appleLoginDelegate)
        && appleLoginDelegate.result == result
        && performedRequests == old(performedRequests) + [[FullName, EmailScope]]
    {
      if device.supportsAppleSignIn {
        var requestedScopes := [FullName, EmailScope];
        appleLoginDelegate := new AppleLoginDelegate(result);
        performedRequests := performedRequests + [requestedScopes];
      } else {
        result.Reply(AppleLoginGate(device).value);
      }
    }
  }

  /**
   * The delegate of one authorization attempt. The operating system calls exactly
   * one of its two completion methods, once, while the handle is still unanswered.
   */
  class AppleLoginDelegate {
    const result: ResultHandle

    constructor (result: ResultHandle)
      ensures this.result == result
    {
      this.result := result;
    }

    method DidCompleteWithAuthorization(credential: Credential)
      requires result.log == []
      modifies result
      ensures |result.log| == 1 && AnswersAuthorization(credential, result.log[0])
    {
      var response := BuildAuthorizationResponse(credential);
      result.Reply(response);
    }

    method DidCompleteWithError(error: NSError)
      requires result.log == []
      modifies result
      ensures result.log == [AuthorizationErrorResponse(error)]
    {
      result.Reply(AuthorizationErrorResponse(error));
    }
  }

  /**
   * The process-wide WeChat login manager (a singleton in the source): at most
   * one call waiting for the WeChat application's callback.
   */
  class WechatLoginManager {
    var pendingResult: ResultHandle?

    constructor ()
      ensures pendingResult == null
    {
      pendingResult := null;
    }

    /**
     * Answers the pending call, once, and empties the slot; with nothing
     * pending the callback is dropped and nothing changes.
     */
    method HandleWechatCallback(code: Option<string>, error: Option<NSError>)
      requires pendingResult != null ==> pendingResult.log == []
      modifies this, pendingResult
      ensures pendingResult == null
      ensures old(pendingResult) == null ==> unchanged(this)
      ensures old(pendingResult) != null ==>
        old(pendingResult).log == [WechatCallbackResponse(code, error)]
    {
      var result := pendingResult;
      if result == null {
        return;
      }
      result.Reply(WechatCallbackResponse(code, error));
      pendingResult := null;
    }
  }

  /**
   * A call left pending with the manager is answered by the first callback and
   * by no later one: the slot is empty once it has been used.
   */
  method CallbackAnswersPendingOnce(manager: WechatLoginManager, result: ResultHandle, code: string, later: Option<string>)
    requires result.log == []
    modifies manager, result
    ensures result.log == [Success(Str(code))]
    ensures manager.pendingResult == null
  {
    manager.pendingResult := result;
    manager.HandleWechatCallback(Some(code), None);
    manager.HandleWechatCallback(later, None);
  }
}
