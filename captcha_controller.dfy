// `CaptchaController.verifyCredentials`
// (packages/backend/src/captcha/captcha.controller.ts:11-46): the provider
// and key checks in front of the CAPTCHA service, and the mapping of the
// service's answer to a status. The service's outcome is an argument.
module CaptchaController {
  import opened Wrappers

  datatype Reply = Reply(status: int, message: string)

  const INVALID_PROVIDER := "无效的 CAPTCHA 提供商。"
  const VERIFIED := "CAPTCHA 凭据验证成功。"
  const REJECTED := "CAPTCHA 凭据验证失败。请检查您的 Site Key 和 Secret Key 是否正确，并确保服务器可以访问 CAPTCHA 服务提供商。"
  const INTERNAL_ERROR := "CAPTCHA 凭据验证时发生服务器内部错误。"

  predicate ValidProvider(provider: Option<string>)
  {
    provider == Some("hcaptcha") || provider == Some("recaptcha")
  }

  /** `!key`: absent or empty. */
  predicate MissingKey(key: Option<string>)
  {
    key.None? || key.value == ""
  }

  /** The 400 message when a key is missing (captcha.controller.ts:22-31), as the code builds it. */
  function MissingKeyMessage(provider: string, siteKeyMissing: bool, secretKeyMissing: bool): string
  {
    var fallback := "缺少 " + provider + " 的 Site Key 或 Secret Key。";
    if siteKeyMissing && secretKeyMissing then "缺少 " + provider + " 的 Site Key 和 Secret Key。"
    else if siteKeyMissing then "缺少 " + provider + " 的 Site Key。"
    else if secretKeyMissing then "缺少 " + provider + " 的 Secret Key。"
    else fallback
  }

  /** verifyCredentials. */
  function VerifyCredentials(provider: Option<string>, siteKey: Option<string>, secretKey: Option<string>,
                             outcome: Outcome<bool>): (r: Reply)
    ensures !ValidProvider(provider) ==> r == Reply(400, INVALID_PROVIDER)
    ensures ValidProvider(provider) && (MissingKey(siteKey) || MissingKey(secretKey)) ==>
      r == Reply(400, MissingKeyMessage(provider.value, MissingKey(siteKey), MissingKey(secretKey)))
    ensures ValidProvider(provider) && !MissingKey(siteKey) && !MissingKey(secretKey) ==>
      r.status == (if outcome.Threw? then 500 else if outcome.value then 200 else 400)
    ensures r.status == 200 ==> r.message == VERIFIED
  {
    if !ValidProvider(provider) then Reply(400, INVALID_PROVIDER)
    else if MissingKey(siteKey) || MissingKey(secretKey) then
      Reply(400, MissingKeyMessage(provider.value, MissingKey(siteKey), MissingKey(secretKey)))
    else match outcome
      case Returned(true) => Reply(200, VERIFIED)
      case Returned(false) => Reply(400, REJECTED)
      case Threw(m) => Reply(500, if m.Some? && m.value != "" then m.value else INTERNAL_ERROR)
  }

  /**
   * A missing-key reply names exactly the missing keys: both when both are
   * missing, otherwise the one that is; the combined "or" message is never sent.
   */
  lemma MissingKeyMessageNamesMissingKeys(provider: string, siteKeyMissing: bool, secretKeyMissing: bool)
    requires siteKeyMissing || secretKeyMissing
    ensures MissingKeyMessage(provider, siteKeyMissing, secretKeyMissing) ==
      "缺少 " + provider + " 的 "
      + (if siteKeyMissing && secretKeyMissing then "Site Key 和 Secret Key"
         else if siteKeyMissing then "Site Key" else "Secret Key")
      + "。"
    ensures MissingKeyMessage(provider, siteKeyMissing, secretKeyMissing) != "缺少 " + provider + " 的 Site Key 或 Secret Key。"
  {
    var p := "缺少 " + provider + " 的 ";
    if siteKeyMissing && secretKeyMissing {
      assert MissingKeyMessage(provider, siteKeyMissing, secretKeyMissing) == p + "Site Key 和 Secret Key" + "。";
      assert (p + "Site Key 和 Secret Key" + "。")[|p| + 9] == '和';
      assert (p + "Site Key 或 Secret Key。")[|p| + 9] == '或';
    } else if siteKeyMissing {
      assert |p + "Site Key" + "。"| != |p + "Site Key 或 Secret Key。"|;
    } else {
      assert |p + "Secret Key" + "。"| != |p + "Site Key 或 Secret Key。"|;
    }
  }

  /** The CAPTCHA service is consulted only for a valid provider with both keys present. */
  lemma ServiceOnlyWithCompleteRequest(provider: Option<string>, siteKey: Option<string>, secretKey: Option<string>,
                                       a: Outcome<bool>, b: Outcome<bool>)
    requires !ValidProvider(provider) || MissingKey(siteKey) || MissingKey(secretKey)
    ensures VerifyCredentials(provider, siteKey, secretKey, a) == VerifyCredentials(provider, siteKey, secretKey, b)
  {
  }
}
