// The CAPTCHA settings form of
// packages/frontend/src/composables/settings/useCaptchaSettings.ts: when a
// save must first have the keys verified by the server, what the save sends,
// and how the form follows the stored settings. The two HTTP calls are
// parameters: an `Outcome` says whether each returned or threw.
module CaptchaSettings {
  import opened Wrappers

  datatype Provider = HCaptcha | ReCaptcha | NoProvider

  /** `captchaForm`; an empty or undefined key is "". */
  datatype Form = Form(enabled: bool, provider: Provider,
                       hcaptchaSiteKey: string, hcaptchaSecretKey: string,
                       recaptchaSiteKey: string, recaptchaSecretKey: string)

  /** The settings the store holds; the secret keys never reach the browser. */
  datatype StoredCaptcha = StoredCaptcha(enabled: bool, provider: Provider,
                                         hcaptchaSiteKey: Option<string>, recaptchaSiteKey: Option<string>)

  /** The body of the save request: an empty key is sent as undefined. */
  datatype SaveDto = SaveDto(enabled: bool, provider: Provider,
                             hcaptchaSiteKey: Option<string>, recaptchaSiteKey: Option<string>,
                             hcaptchaSecretKey: Option<string>, recaptchaSecretKey: Option<string>)

  datatype Request =
    | VerifyRequest(provider: Provider, siteKey: string, secretKey: string)
    | SaveRequest(dto: SaveDto)

  /** The message under the form; the translated texts are named by what they say. */
  datatype Message = NoMessage | Saved | KeysRequired(provider: Provider) | VerificationFailed | SaveFailed | ErrorText(text: string)

  /** Whether the save must verify the keys first, and with which. */
  datatype Decision = NoVerification | Verify(provider: Provider, siteKey: string, secretKey: string) | KeysMissing(provider: Provider)

  // --------------------------------------------------- the watcher

  /** `x || ''` on an optional string. */
  function OrEmpty(s: Option<string>): string
  {
    if s.Some? then s.value else ""
  }

  /** `x || undefined` on a string. */
  function EmptyToNone(s: string): Option<string>
  {
    if s == "" then None else Some(s)
  }

  /** The form the watcher of useCaptchaSettings.ts:37-55 sets for the stored settings. */
  function SyncForm(stored: Option<StoredCaptcha>): Form
  {
    match stored
    case None => Form(false, NoProvider, "", "", "", "")
    case Some(c) => Form(c.enabled, c.provider, OrEmpty(c.hcaptchaSiteKey), "", OrEmpty(c.recaptchaSiteKey), "")
  }

  // ------------------------------------------------------ the decision

  /** The stored and the entered site key and the entered secret key of the chosen provider. */
  function KeysOf(form: Form, stored: Option<StoredCaptcha>): (string, string, string)
  {
    if form.provider == HCaptcha then
      (if stored.Some? then OrEmpty(stored.value.hcaptchaSiteKey) else "", form.hcaptchaSiteKey, form.hcaptchaSecretKey)
    else
      (if stored.Some? then OrEmpty(stored.value.recaptchaSiteKey) else "", form.recaptchaSiteKey, form.recaptchaSecretKey)
  }

  /** Step 1 of handleUpdateCaptchaSettings (useCaptchaSettings.ts:67-116). */
  function Decide(form: Form, stored: Option<StoredCaptcha>): Decision
  {
    if form.enabled && form.provider != NoProvider then
      var (original, site, secret) := KeysOf(form, stored);
      if site != original then
        if site == "" || secret == "" then KeysMissing(form.provider) else Verify(form.provider, site, secret)
      else if secret != "" then
        if site == "" then KeysMissing(form.provider) else Verify(form.provider, site, secret)
      else NoVerification
    else NoVerification
  }

  /**
   * The decision in full: nothing is checked when CAPTCHA is off or the
   * provider is none, nor when the site key is the stored one and no secret
   * key is entered; otherwise both keys of the chosen provider must be
   * entered, and then exactly those two are sent for verification.
   */
  lemma DecideMeaning(form: Form, stored: Option<StoredCaptcha>)
    ensures var (original, site, secret) := KeysOf(form, stored);
      var active := form.enabled && form.provider != NoProvider;
      var touched := site != original || secret != "";
      && (Decide(form, stored) == NoVerification <==> !active || !touched)
      && (Decide(form, stored).KeysMissing? <==> active && touched && (site == "" || secret == ""))
      && (Decide(form, stored).Verify? <==> active && touched && site != "" && secret != "")
      && (Decide(form, stored).Verify? ==> Decide(form, stored) == Verify(form.provider, site, secret))
      && (Decide(form, stored).KeysMissing? ==> Decide(form, stored).provider == form.provider)
  {
  }

  /** Right after the form follows the stored settings, saving needs no verification. */
  lemma SyncedFormNeedsNoVerification(stored: Option<StoredCaptcha>)
    ensures Decide(SyncForm(stored), stored) == NoVerification
  {
  }

  // ---------------------------------------------------------- saving

  /** Step 3 of handleUpdateCaptchaSettings (useCaptchaSettings.ts:133-140). */
  function Dto(form: Form): SaveDto
  {
    SaveDto(form.enabled, form.provider,
            EmptyToNone(form.hcaptchaSiteKey), EmptyToNone(form.recaptchaSiteKey),
            EmptyToNone(form.hcaptchaSecretKey), EmptyToNone(form.recaptchaSecretKey))
  }

  /** The DTO drops exactly the empty keys, and the form's keys can be read back from it. */
  lemma DtoMeaning(form: Form)
    ensures var d := Dto(form);
      && (d.hcaptchaSiteKey.None? <==> form.hcaptchaSiteKey == "")
      && (d.recaptchaSiteKey.None? <==> form.recaptchaSiteKey == "")
      && (d.hcaptchaSecretKey.None? <==> form.hcaptchaSecretKey == "")
      && (d.recaptchaSecretKey.None? <==> form.recaptchaSecretKey == "")
      && OrEmpty(d.hcaptchaSiteKey) == form.hcaptchaSiteKey && OrEmpty(d.recaptchaSiteKey) == form.recaptchaSiteKey
      && OrEmpty(d.hcaptchaSecretKey) == form.hcaptchaSecretKey && OrEmpty(d.recaptchaSecretKey) == form.recaptchaSecretKey
      && d.enabled == form.enabled && d.provider == form.provider
  {
  }

  /** What the composable holds: the form, the loading, message and success refs, and the requests it made. */
  datatype CaptchaUi = CaptchaUi(form: Form, loading: bool, message: Message, success: bool, requests: seq<Request>)

  /** `verifyError.response?.data?.message || verifyError.message || t(...)`, the first two as one text. */
  function VerifyErrorMessage(m: Option<string>): Message
  {
    if m.Some? && m.value != "" then ErrorText(m.value) else VerificationFailed
  }

  /** The save of step 4 and its outcome (useCaptchaSettings.ts:143-155). */
  function SaveStep(ui: CaptchaUi, saveOutcome: Outcome<()>): CaptchaUi
  {
    var requests := ui.requests + [SaveRequest(Dto(ui.form))];
    match saveOutcome
    case Returned(_) =>
      CaptchaUi(ui.form.(hcaptchaSecretKey := "", recaptchaSecretKey := ""), false, Saved, true, requests)
    case Threw(m) =>
      CaptchaUi(ui.form, false, if m.Some? && m.value != "" then ErrorText(m.value) else SaveFailed, false, requests)
  }

  /** handleUpdateCaptchaSettings (useCaptchaSettings.ts:57-156). */
  function UpdateStep(ui: CaptchaUi, stored: Option<StoredCaptcha>, verifyOutcome: Outcome<()>, saveOutcome: Outcome<()>): CaptchaUi
  {
    match Decide(ui.form, stored)
    case KeysMissing(p) => ui.(loading := false, message := KeysRequired(p), success := false)
    case Verify(p, site, secret) =>
      var ui' := ui.(requests := ui.requests + [VerifyRequest(p, site, secret)]);
      if verifyOutcome.Threw? then ui'.(loading := false, message := VerifyErrorMessage(verifyOutcome.message), success := false)
      else SaveStep(ui', saveOutcome)
    case NoVerification => SaveStep(ui, saveOutcome)
  }

  /**
   * A save attempt always ends with loading off. It succeeds exactly when
   * the keys were complete, their verification (if any) passed and the save
   * returned; then the saved DTO is the form's, and both secret-key fields
   * are cleared and nothing else in the form changes. Otherwise the success
   * flag is off and the form is as it was. Nothing is saved unless the keys
   * were complete and verified.
   */
  lemma UpdateMeaning(ui: CaptchaUi, stored: Option<StoredCaptcha>, verifyOutcome: Outcome<()>, saveOutcome: Outcome<()>)
    ensures var ui' := UpdateStep(ui, stored, verifyOutcome, saveOutcome);
      var d := Decide(ui.form, stored);
      var saves := !d.KeysMissing? && !(d.Verify? && verifyOutcome.Threw?);
      && !ui'.loading
      && (ui'.success <==> saves && saveOutcome.Returned?)
      && (ui'.success ==> ui'.form == ui.form.(hcaptchaSecretKey := "", recaptchaSecretKey := "") && ui'.message == Saved)
      && (!ui'.success ==> ui'.form == ui.form)
      && ui'.requests == ui.requests
           + (if d.Verify? then [VerifyRequest(d.provider, d.siteKey, d.secretKey)] else [])
           + (if saves then [SaveRequest(Dto(ui.form))] else [])
  {
  }

  // ------------------------------------------------------------ class

  class CaptchaSettingsForm {
    var form: Form
    var loading: bool
    var message: Message
    var success: bool
    var requests: seq<Request>

    function Abs(): CaptchaUi
      reads this
    {
      CaptchaUi(form, loading, message, success, requests)
    }

    constructor ()
      ensures Abs() == CaptchaUi(Form(false, NoProvider, "", "", "", ""), false, NoMessage, false, [])
    {
      form := Form(false, NoProvider, "", "", "", "");
      loading := false;
      message := NoMessage;
      success := false;
      requests := [];
    }

    /** The watcher (useCaptchaSettings.ts:37-55). */
    method Sync(stored: Option<StoredCaptcha>)
      modifies this`form
      ensures form == SyncForm(stored)
      ensures form.hcaptchaSecretKey == "" && form.recaptchaSecretKey == ""
    {
      if stored.Some? {
        var c := stored.value;
        form := form.(enabled := c.enabled, provider := c.provider);
        form := form.(hcaptchaSiteKey := OrEmpty(c.hcaptchaSiteKey), hcaptchaSecretKey := "");
        form := form.(recaptchaSiteKey := OrEmpty(c.recaptchaSiteKey), recaptchaSecretKey := "");
      } else {
        form := Form(false, NoProvider, "", "", "", "");
      }
    }

    /**
     * Step 1 of handleUpdateCaptchaSettings (useCaptchaSettings.ts:67-116):
     * which keys, if any, must be verified before saving.
     */
    method PlanVerification(stored: Option<StoredCaptcha>) returns (d: Decision)
      ensures d == Decide(form, stored)
    {
      d := NoVerification;
      if form.enabled && form.provider != NoProvider {
        var (originalSiteKeyValue, currentSiteKeyValue, currentSecretKeyValue) := KeysOf(form, stored);
        if currentSiteKeyValue != originalSiteKeyValue {
          if currentSiteKeyValue == "" || currentSecretKeyValue == "" {
            return KeysMissing(form.provider);
          }
          d := Verify(form.provider, currentSiteKeyValue, currentSecretKeyValue);
        } else if currentSecretKeyValue != "" {
          if currentSiteKeyValue == "" {
            return KeysMissing(form.provider);
          }
          d := Verify(form.provider, currentSiteKeyValue, currentSecretKeyValue);
        }
      }
    }

    /** Step 4 of handleUpdateCaptchaSettings (useCaptchaSettings.ts:143-155): the save and its outcome. */
    method Save(saveOutcome: Outcome<()>)
      modifies this`form, this`loading, this`message, this`success, this`requests
      ensures Abs() == SaveStep(old(Abs()), saveOutcome)
    {
      var dtoToSave := Dto(form);
      requests := requests + [SaveRequest(dtoToSave)];
      if saveOutcome.Returned? {
        message := Saved;
        success := true;
        form := form.(hcaptchaSecretKey := "", recaptchaSecretKey := "");
      } else {
        message := if saveOutcome.message.Some? && saveOutcome.message.value != "" then ErrorText(saveOutcome.message.value) else SaveFailed;
        success := false;
      }
      loading := false;
    }

    /** handleUpdateCaptchaSettings (useCaptchaSettings.ts:57-156). */
    method HandleUpdate(stored: Option<StoredCaptcha>, verifyOutcome: Outcome<()>, saveOutcome: Outcome<()>)
      modifies this`form, this`loading, this`message, this`success, this`requests
      ensures Abs() == UpdateStep(old(Abs()), stored, verifyOutcome, saveOutcome)
    {
      ghost var ui := Abs();
      var d := PlanVerification(stored);
      loading := true;
      message := NoMessage;
      success := false;
      if d.KeysMissing? {
        message := KeysRequired(d.provider);
        success := false;
        loading := false;
        return;
      }
      if d.Verify? && d.provider != NoProvider && d.siteKey != "" && d.secretKey != "" {
        requests := requests + [VerifyRequest(d.provider, d.siteKey, d.secretKey)];
        if verifyOutcome.Threw? {
          message := VerifyErrorMessage(verifyOutcome.message);
          success := false;
          loading := false;
          return;
        }
      }
      Save(saveOutcome);
    }
  }
}
