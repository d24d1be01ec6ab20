/**
 * The method channel "easy_auth" that connects the Flutter side of the plugin to
 * its native handlers: the values that travel over it, the three kinds of answer a
 * call can receive, and the reply handle through which a handler answers.
 */
module Channel {

  datatype Option<+T> = None | Some(value: T)

  /** The values the plugin sends back: strings, and string-keyed dictionaries. */
  datatype Value = Str(s: string) | Dict(entries: map<string, Value>)

  /**
   * The answer to one method call: a success value, a structured error
   * (code, human-readable message, optional details), or the "method not
   * implemented" signal, which is not an error.
   */
  datatype Response =
    | Success(value: Value)
    | Error(code: string, message: string, details: Option<Value>)
    | NotImplemented

  // The method names the mobile dispatchers recognise (matched exactly, case-sensitively).
  const GetPlatformVersion: string := "getPlatformVersion"
  const AppleLogin: string := "appleLogin"
  const WechatLogin: string := "wechatLogin"
  const KnownMethods: set<string> := {GetPlatformVersion, AppleLogin, WechatLogin}

  // The error codes the plugin emits.
  const UnsupportedPlatform: string := "UNSUPPORTED_PLATFORM"
  const Unavailable: string := "UNAVAILABLE"
  const SdkNotFound: string := "SDK_NOT_FOUND"
  const AppNotInstalled: string := "APP_NOT_INSTALLED"
  const NoActivity: string := "NO_ACTIVITY"
  const NotImplementedCode: string := "NOT_IMPLEMENTED"
  const AuthCodeError: string := "AUTH_CODE_ERROR"
  const UserCancelled: string := "USER_CANCELLED"
  const AuthError: string := "AUTH_ERROR"
  const InvalidCredential: string := "INVALID_CREDENTIAL"
  const WechatAuthError: string := "WECHAT_AUTH_ERROR"
  const UnknownError: string := "UNKNOWN_ERROR"

  /**
   * The reply handle the channel gives a handler with each call (FlutterResult on
   * iOS, MethodChannel.Result on Android). The channel accepts one reply per call,
   * so Reply demands an unanswered handle; `log` records the answers given.
   */
  class ResultHandle {
    ghost var log: seq<Response>

    constructor ()
      ensures log == []
    {
      log := [];
    }

    method Reply(r: Response)
      requires log == []
      modifies this
      ensures log == [r]
    {
      log := log + [r];
    }
  }
}
