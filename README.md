# easy_auth: the native decision logic, modelled in Dafny

easy_auth is a Flutter plugin offering Sign in with Apple, WeChat login and a
platform-version query over the method channel `easy_auth`. This project models what the iOS
and Android handlers decide. That covers:

- the dispatcher that routes a call by its method name;
- the WeChat precondition chain, which always ends in an error;
- the Apple ID credential converted into a result dictionary, and the classification of OS errors;
- the single-slot WeChat login manager that answers one pending call when WeChat calls back;
- on Android, the lifecycle fields that decide whether `wechatLogin` reports NO_ACTIVITY.

Files:

- `channel.dfy` (module `Channel`): the values and answers that travel over the channel, the
  method names and error codes, and `ResultHandle`, the reply handle given with each call. The
  channel accepts one reply per call, so `Reply` requires an unanswered handle. Every handler
  that requires an unanswered handle and ensures `log == [r]` is therefore proved to answer
  exactly once.
- `ios.dfy` (module `IosPlugin`): `ios/Classes/EasyAuthPlugin.swift`.
- `android.dfy` (module `AndroidPlugin`): `android/src/main/kotlin/com/example/easy_auth/EasyAuthPlugin.kt`.
- `parity.dfy` (module `Parity`): the two dispatchers give the same kind of answer and the same
  error codes wherever both platforms can answer alike.

The decision chains (`handle`, `onMethodCall`, `handleWechatLogin`, the version gate,
`didCompleteWithError`, the callback branches) are functions. The class methods that reply on a
handle or update fields are proved against those functions. The result dictionary of
`didCompleteWithAuthorization` is built step by step in a method. A declarative predicate,
`AnswersAuthorization`, specifies it key by key, and a lemma shows that this predicate pins the
answer down uniquely.

Everything the operating system answers is an input:

- the version string (`UIDevice.current.systemVersion`, `Build.VERSION.RELEASE`);
- whether iOS 13 is available;
- whether `NSClassFromString("WXApi")` or `Class.forName(...WXAPIFactory)` resolves;
- whether `weixin://` can be opened;
- the outcome of the package lookup for `com.tencent.mm`;
- what UTF-8 decoding of a byte buffer yields.

## Model

| member | source | states |
|---|---|---|
| IosPlugin.HandleResponse | ios/Classes/EasyAuthPlugin.swift:16-29 | Exact name match. getPlatformVersion is the only success, with a string that starts with "iOS " followed by the system version. Any unknown name gives not-implemented, never success or error. appleLogin answers at once exactly when iOS 13 is missing. wechatLogin answers with the WeChat gate. |
| IosPlugin.EasyAuthPlugin.Handle | ios/Classes/EasyAuthPlugin.swift:16-29 | Each call is answered exactly once with the dispatcher's answer. The one exception is appleLogin with iOS 13 available: the call stays unanswered, a fresh delegate holds its handle, and one request for full name and e-mail is performed. |
| IosPlugin.AppleLoginGate | ios/Classes/EasyAuthPlugin.swift:36-53 | Below iOS 13 the answer is error UNAVAILABLE. Otherwise there is no immediate answer. |
| IosPlugin.EasyAuthPlugin.HandleAppleLogin | ios/Classes/EasyAuthPlugin.swift:36-54 | Below iOS 13: UNAVAILABLE, the delegate field is unchanged and no request is performed. Otherwise: the handle goes unanswered to a fresh delegate, and one request with scopes [fullName, email] is performed. |
| IosPlugin.WechatLoginResponse | ios/Classes/EasyAuthPlugin.swift:60-100 | Always an error, never success. SDK_NOT_FOUND if and only if the WXApi class is missing. APP_NOT_INSTALLED if and only if the SDK is present and weixin:// cannot be opened. NOT_IMPLEMENTED if and only if both checks pass. |
| IosPlugin.BuildAuthorizationResponse | ios/Classes/EasyAuthPlugin.swift:128-180 | A non-Apple-ID credential gives INVALID_CREDENTIAL. A missing or non-UTF-8 code gives AUTH_CODE_ERROR, with no payload. Otherwise the payload always has "authCode" and "user". It has "idToken" if and only if the token is present and decodes, and "email" if and only if an e-mail is present. It has "fullName" if and only if a name with at least one part is present, holding exactly the present parts. There are no other keys. |
| IosPlugin.AuthorizationAnswerUnique | ios/Classes/EasyAuthPlugin.swift:141-171 | The key-by-key description of the answer admits only one answer per credential, so the payload has no freedom beyond what the credential says. |
| IosPlugin.NamePayloadUnique | ios/Classes/EasyAuthPlugin.swift:156-167 | The "fullName" dictionary is determined by the name components present. |
| IosPlugin.RepeatSignInPayload | ios/Classes/EasyAuthPlugin.swift:140-173 | A repeat sign-in has no token, no e-mail, and either no name or a name with no parts. Its payload is exactly {"authCode", "user"}: absent fields are omitted, not sent empty. |
| IosPlugin.AppleLoginDelegate.DidCompleteWithAuthorization | ios/Classes/EasyAuthPlugin.swift:127-181 | The pending handle is answered exactly once, with an answer meeting the credential description above. |
| IosPlugin.AuthorizationErrorResponse | ios/Classes/EasyAuthPlugin.swift:183-202 | USER_CANCELLED if and only if the OS code is 1001, with no details. AUTH_ERROR for every other code, whose details are the error's description and whose message embeds it. |
| IosPlugin.AppleLoginDelegate.DidCompleteWithError | ios/Classes/EasyAuthPlugin.swift:183-202 | The pending handle is answered exactly once, with the classification above. |
| IosPlugin.WechatCallbackResponse | ios/Classes/EasyAuthPlugin.swift:215-232 | Success(code) if and only if there is no error and a code is present. WECHAT_AUTH_ERROR if and only if an error is present. UNKNOWN_ERROR if and only if neither is present. Never not-implemented. |
| IosPlugin.WechatLoginManager.HandleWechatCallback | ios/Classes/EasyAuthPlugin.swift:215-235 | With nothing pending, the manager is unchanged. Otherwise the pending handle is answered exactly once with the callback answer. Either way, pendingResult is nil afterwards. |
| IosPlugin.CallbackAnswersPendingOnce | ios/Classes/EasyAuthPlugin.swift:211-235 | With a handle pending, a callback carrying a code resolves it with success(code). A second callback is a silent no-op, and the slot ends up empty. |
| AndroidPlugin.MethodCallResponse | android/src/main/kotlin/com/example/easy_auth/EasyAuthPlugin.kt:27-47 | getPlatformVersion is the only success, with a string that starts with "Android " followed by the release. Any unknown name gives notImplemented. appleLogin is UNSUPPORTED_PLATFORM whatever the WeChat environment. wechatLogin answers with the WeChat gate. |
| AndroidPlugin.EasyAuthPlugin.OnMethodCall | android/src/main/kotlin/com/example/easy_auth/EasyAuthPlugin.kt:27-47 | Each call is answered exactly once with the dispatcher's answer. No plugin field changes. |
| AndroidPlugin.WechatLoginResponse | android/src/main/kotlin/com/example/easy_auth/EasyAuthPlugin.kt:80-134 | Always an error, never success. NO_ACTIVITY if and only if no handler is attached, whatever the SDK and package state. Then SDK_NOT_FOUND, then APP_NOT_INSTALLED, then NOT_IMPLEMENTED, each if and only if the earlier gates pass and its own check decides it. |
| AndroidPlugin.EasyAuthPlugin.HandleWechatLogin | android/src/main/kotlin/com/example/easy_auth/EasyAuthPlugin.kt:80-134 | Answers exactly once, with the gate answer above for the handler attached at the time of the call. |
| AndroidPlugin.WechatLoginHandler.IsWechatInstalled | android/src/main/kotlin/com/example/easy_auth/EasyAuthPlugin.kt:143-151 | True if and only if the package lookup succeeds. Any thrown exception means false. |
| AndroidPlugin.EasyAuthPlugin.OnAttachedToEngine | android/src/main/kotlin/com/example/easy_auth/EasyAuthPlugin.kt:21-25 | Sets context. activity and wechatLoginHandler are unchanged. |
| AndroidPlugin.EasyAuthPlugin.OnDetachedFromEngine | android/src/main/kotlin/com/example/easy_auth/EasyAuthPlugin.kt:49-52 | Clears context and touches no other field. |
| AndroidPlugin.EasyAuthPlugin.OnAttachedToActivity | android/src/main/kotlin/com/example/easy_auth/EasyAuthPlugin.kt:58-61 | Sets activity and a fresh wechatLoginHandler wrapping that activity. context is unchanged. |
| AndroidPlugin.EasyAuthPlugin.OnDetachedFromActivity | android/src/main/kotlin/com/example/easy_auth/EasyAuthPlugin.kt:63-66 | Clears both activity and wechatLoginHandler. |
| AndroidPlugin.EasyAuthPlugin.OnReattachedToActivityForConfigChanges | android/src/main/kotlin/com/example/easy_auth/EasyAuthPlugin.kt:68-70 | Sets only activity. wechatLoginHandler and context are unchanged. |
| AndroidPlugin.EasyAuthPlugin.OnDetachedFromActivityForConfigChanges | android/src/main/kotlin/com/example/easy_auth/EasyAuthPlugin.kt:72-74 | Clears only activity. wechatLoginHandler and context are unchanged. |
| AndroidPlugin.HandlerAfterReplay | android/src/main/kotlin/com/example/easy_auth/EasyAuthPlugin.kt:58-74 | After any sequence of lifecycle callbacks, a handler is attached exactly when some onAttachedToActivity is followed by no onDetachedFromActivity, or when one was attached to begin with and no full detach came. |
| AndroidPlugin.NoActivityAfterHistory | android/src/main/kotlin/com/example/easy_auth/EasyAuthPlugin.kt:58-89 | After any history of lifecycle callbacks, wechatLogin answers NO_ACTIVITY exactly when that history leaves no handler bound. |
| AndroidPlugin.ConfigChangesKeepHandler | android/src/main/kotlin/com/example/easy_auth/EasyAuthPlugin.kt:68-74 | Any run of engine and configuration-change callbacks leaves the handler exactly as it was. |
| AndroidPlugin.WechatLoginAfterConfigChange | android/src/main/kotlin/com/example/easy_auth/EasyAuthPlugin.kt:72-89 | With a handler attached, wechatLogin right after a configuration-change detach does not answer NO_ACTIVITY. |
| AndroidPlugin.WechatCallbackResponse | android/src/main/kotlin/com/example/easy_auth/EasyAuthPlugin.kt:170-183 | Success(code) if and only if there is no error and a code is present. WECHAT_AUTH_ERROR if and only if an error is present. UNKNOWN_ERROR if and only if neither is present. |
| AndroidPlugin.WechatLoginManager.HandleWechatCallback | android/src/main/kotlin/com/example/easy_auth/EasyAuthPlugin.kt:170-186 | With nothing pending, the manager is unchanged. Otherwise the pending handle is answered exactly once. Either way, pendingResult is null afterwards. |
| Parity.WechatGateParity | android/src/main/kotlin/com/example/easy_auth/EasyAuthPlugin.kt:80-134 | With an activity attached, Android's WeChat gate gives the same error code as iOS's for the same SDK and installation state. |
| Parity.DispatchParity | android/src/main/kotlin/com/example/easy_auth/EasyAuthPlugin.kt:27-47 | Assume a WeChat handler is attached on Android, and both platforms report the same SDK and installation state. Then for every method name except appleLogin, both dispatchers answer at once with the same kind of answer (and, for errors, the same code). Without a handler, Android answers wechatLogin with NO_ACTIVITY, which iOS never gives. |

## Left out

- The macOS plugin (`macos/Classes/EasyAuthPlugin.swift`) is not modelled. It answers getPlatformVersion and nothing else.
- The Windows plugin (`windows/easy_auth_plugin.h`, `windows/easy_auth_plugin_c_api.cpp`) is not modelled. It holds only declarations and registration.
- Channel creation and registration (`register`, the `channel` fields, `setMethodCallHandler`) are not modelled. They are bridge plumbing.
- `presentationAnchor` (the key window) is not modelled. It is UI presentation.
- The operating system's sign-in sheet and `performRequests` are not modelled. A performed request is recorded only by its scopes, in `performedRequests`.
- The WeChat request-sending code (`SendAuthReq`, `WXApi.send`, `getWXAPI`, SEND_REQUEST_FAILED) is commented out in the source and is not modelled. No live code ever stores a pending result in either WechatLoginManager; the models let a client store one directly, as that commented-out code would.
- Asynchrony, threads and the main-thread event loop are not modelled. A reply is an append to the handle's log.
- The singletons (`WechatLoginManager.shared`, the Kotlin `object`) are ordinary class instances. Dafny has no mutable static state, so a caller passes the one instance around.
- Object lifetimes are not modelled. In the source the authorization controller keeps its delegate weakly. A second appleLogin replaces `appleLoginDelegate`, and whether the first attempt can still be answered depends on reference counting.
- `checkWechatInstalled` is modelled only as the boolean `canOpenWeixinUrl`. The branch where `URL(string: "weixin://")` fails cannot be taken for that literal, and `canOpenURL` is an OS query.
- `Context` and `Activity` are opaque objects. `WechatLoginHandler.IsWechatInstalled` receives the package-lookup outcome as an input, so the lookup itself is not modelled.
