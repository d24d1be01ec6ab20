/**
 * The iOS and Android dispatchers answer alike wherever both platforms can: the
 * same kind of answer for every method except appleLogin, and the same WeChat
 * error codes once an activity is attached on Android.
 */
module Parity {
  import opened Channel
  import IosPlugin
  import AndroidPlugin

  /** Two answers of the same kind, and, for errors, with the same code. */
  predicate SameOutcome(a: Response, b: Response) {
    && a.Success? == b.Success?
    && a.NotImplemented? == b.NotImplemented?
    && (a.Error? && b.Error? ==> a.code == b.code)
  }

  /** Both platforms probe for the same SDK and the same application. */
  predicate SameEnvironment(device: IosPlugin.Device, env: AndroidPlugin.Environment) {
    && device.hasWXApiClass == env.hasWXAPIFactoryClass
    && device.canOpenWeixinUrl == (env.wechatLookup == AndroidPlugin.PackageFound)
  }

  lemma WechatGateParity(device: IosPlugin.Device, handler: AndroidPlugin.WechatLoginHandler, env: AndroidPlugin.Environment)
    requires SameEnvironment(device, env)
    ensures SameOutcome(IosPlugin.WechatLoginResponse(device), AndroidPlugin.WechatLoginResponse(handler, env))
  {
  }

  lemma DispatchParity(call: string, device: IosPlugin.Device, handler: AndroidPlugin.WechatLoginHandler, env: AndroidPlugin.Environment)
    requires call != AppleLogin && SameEnvironment(device, env)
    ensures IosPlugin.HandleResponse(call, device).Some?
    ensures SameOutcome(IosPlugin.HandleResponse(call, device).value, AndroidPlugin.MethodCallResponse(call, handler, env))
  {
  }
}
