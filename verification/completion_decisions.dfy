/**
 * The decision rules of the identity-completion endpoint: the phone
 * verification parameter check, the choice between accounts found by LINE
 * id and by phone, which credentials are written to an account, which
 * verification step a user is sent to, and the `next_step`,
 * `profile_complete` and `missing_data` of the final response.
 */
module CompletionDecisions {
  import opened JsText
  import opened PhoneNumbers
  import opened ProfileTemplate

  datatype Step =
    | VerifyLine
    | VerifyTel
    | VerifyShopify
    | CompleteProfileNew
    | CompleteProfileExisting
    | Complete

  /** The `next_step` string of each step. */
  function StepName(s: Step): string
  {
    match s
    case VerifyLine => "verify_line"
    case VerifyTel => "verify_tel"
    case VerifyShopify => "verify_shopify"
    case CompleteProfileNew => "complete_profile_new"
    case CompleteProfileExisting => "complete_profile_existing"
    case Complete => "complete"
  }

  predicate IsVerification(s: Step) {
    s == VerifyLine || s == VerifyTel || s == VerifyShopify
  }

  /** The `message` sent with a verification step. */
  function StepMessage(s: Step): string
    requires IsVerification(s)
  {
    match s
    case VerifyLine => "LINE login required"
    case VerifyTel => "Phone verification required"
    case VerifyShopify => "Shopify login required"
  }

  /** The columns of a `user_accounts` row that the decisions read. */
  datatype Account = Account(
    id: string,
    tel: Option<string>,
    lineId: Option<string>,
    email: Option<string>,
    externalUserId: Option<string>,
    personaId: Option<string>,
    isSignupFormComplete: Option<bool>)

  /** `merchantData?.auth_methods || ['line']` */
  function AuthMethodsOf(stored: Option<seq<string>>): seq<string>
  {
    if stored.Some? then stored.value else ["line"]
  }

  /** `userAccount.external_user_id?.startsWith('shopify:')` */
  predicate ShopifyLinked(a: Account) {
    a.externalUserId.Some? && StartsWith(a.externalUserId.value, "shopify:")
  }

  /** `userAccount.is_signup_form_complete ?? false` */
  function SignupFormComplete(a: Account): bool
  {
    a.isSignupFormComplete.Some? && a.isSignupFormComplete.value
  }

  // ---------------------------------------------------------------------
  // Phone verification parameters (lines 182-196)
  // ---------------------------------------------------------------------

  /** Which of the three phone verification parameters were given. */
  datatype PhoneParams = PhoneParams(hasTel: bool, hasOtp: bool, hasSession: bool)

  /**
   * `!!tel` (of the normalised number), `!!otp_code`, `!!session_id`.
   * A tel counts as given exactly when it holds some character other than
   * whitespace and hyphens; the other two count when they are non-empty.
   */
  function PhoneParamsOf(tel: Option<string>, otpCode: Option<string>, sessionId: Option<string>): (p: PhoneParams)
    ensures p.hasTel <==> tel.Some? && RemoveSeparators(tel.value) != []
    ensures p.hasOtp <==> Truthy(otpCode)
    ensures p.hasSession <==> Truthy(sessionId)
  {
    TelGivenIff(tel);
    PhoneParams(Truthy(NormalizeTel(tel)), Truthy(otpCode), Truthy(sessionId))
  }

  lemma TelGivenIff(tel: Option<string>)
    ensures Truthy(NormalizeTel(tel)) <==> tel.Some? && RemoveSeparators(tel.value) != []
  {
    if tel.Some? {
      TrimIsSubsumed(tel.value);
      RewriteKeepsEmptiness(RemoveSeparators(tel.value));
    }
  }

  const PhoneParamNames: seq<string> := ["tel", "otp_code", "session_id"]

  /**
   * None when none or all three parameters were given; otherwise the names
   * of the missing ones, in the order tel, otp_code, session_id.
   */
  function MissingPhoneParams(p: PhoneParams): (r: Option<seq<string>>)
    ensures r.None? <==> (p.hasTel && p.hasOtp && p.hasSession) || (!p.hasTel && !p.hasOtp && !p.hasSession)
    ensures r.Some? ==> 1 <= |r.value| <= 2 && IsSubsequence(r.value, PhoneParamNames)
    ensures r.Some? ==>
      && ("tel" in r.value <==> !p.hasTel)
      && ("otp_code" in r.value <==> !p.hasOtp)
      && ("session_id" in r.value <==> !p.hasSession)
  {
    var any := p.hasTel || p.hasOtp || p.hasSession;
    var all := p.hasTel && p.hasOtp && p.hasSession;
    if any && !all then
      var missing := MissingNames(p);
      MissingNamesInOrder(p);
      Some(missing)
    else None
  }

  /** The names of the parameters not given, pushed in the order tel, otp_code, session_id. */
  function MissingNames(p: PhoneParams): (names: seq<string>)
    ensures |names| <= 3
    ensures |names| == 0 <==> p.hasTel && p.hasOtp && p.hasSession
    ensures |names| == 3 <==> !p.hasTel && !p.hasOtp && !p.hasSession
    ensures "tel" in names <==> !p.hasTel
    ensures "otp_code" in names <==> !p.hasOtp
    ensures "session_id" in names <==> !p.hasSession
  {
    (if !p.hasTel then ["tel"] else [])
      + (if !p.hasOtp then ["otp_code"] else [])
      + (if !p.hasSession then ["session_id"] else [])
  }

  predicate NameMissing(p: PhoneParams, name: string)
  {
    (name == "tel" && !p.hasTel) || (name == "otp_code" && !p.hasOtp) || (name == "session_id" && !p.hasSession)
  }

  lemma MissingNamesInOrder(p: PhoneParams)
    ensures IsSubsequence(MissingNames(p), PhoneParamNames)
  {
    assert MissingNames(p) == Filter(PhoneParamNames, name => NameMissing(p, name));
    FilterIsSubsequence(PhoneParamNames, name => NameMissing(p, name));
  }

  /** The `details` text of the 400 response for incomplete phone parameters. */
  function PhoneParamsDetails(missing: seq<string>): string
  {
    "Missing required parameters: " + Join(missing, ", ")
      + ". For phone verification, you must provide tel, otp_code, and session_id together."
  }

  // ---------------------------------------------------------------------
  // Accounts found by credentials (lines 256-259)
  // ---------------------------------------------------------------------

  datatype Resolution = Conflict | Resolved(account: Option<Account>)

  /**
   * The account found by LINE id and the one found by phone: a 409 conflict
   * when both exist with different ids, otherwise `userByLine || userByTel`.
   */
  function ResolveByCredentials(byLine: Option<Account>, byTel: Option<Account>): (r: Resolution)
    ensures r.Conflict? <==> byLine.Some? && byTel.Some? && byLine.value.id != byTel.value.id
    ensures r.Resolved? ==> (r.account.None? <==> byLine.None? && byTel.None?)
    ensures r.Resolved? && byLine.Some? ==> r.account == byLine
    ensures r.Resolved? && byTel.Some? ==> r.account.Some? && r.account.value.id == byTel.value.id
    ensures r.Resolved? && byLine.None? ==> r.account == byTel
  {
    if byLine.Some? && byTel.Some? && byLine.value.id != byTel.value.id then Conflict
    else if byLine.Some? then Resolved(byLine)
    else Resolved(byTel)
  }

  // ---------------------------------------------------------------------
  // Credential updates (lines 226-232 and 296-302)
  // ---------------------------------------------------------------------

  /** The `updates` object: a present entry is a column to write. */
  datatype Updates = Updates(tel: Option<string>, lineId: Option<string>)

  /** `Object.keys(updates).length > 0` */
  predicate HasUpdates(u: Updates) {
    u.tel.Some? || u.lineId.Some?
  }

  /**
   * The updates for an account. `verifiedTel` is the normalised phone when
   * the OTP check succeeded (`hasTel`), and None otherwise.
   */
  function CredentialUpdates(a: Account, verifiedTel: Option<string>, lineUserId: Option<string>): (u: Updates)
    ensures u.tel.Some? <==> verifiedTel.Some? && !Truthy(a.tel)
    ensures u.tel.Some? ==> u.tel == verifiedTel
    ensures u.lineId.Some? <==> Truthy(lineUserId) && !Truthy(a.lineId)
    ensures u.lineId.Some? ==> u.lineId == lineUserId
  {
    Updates(
      if verifiedTel.Some? && !Truthy(a.tel) then verifiedTel else None,
      if Truthy(lineUserId) && !Truthy(a.lineId) then lineUserId else None)
  }

  /** The row the update returns: the listed columns overwritten. */
  function ApplyUpdates(a: Account, u: Updates): Account
  {
    a.(tel := if u.tel.Some? then u.tel else a.tel,
       lineId := if u.lineId.Some? then u.lineId else a.lineId)
  }

  /**
   * Credentials only fill empty columns: a phone or LINE id already on the
   * account is never replaced, the other columns are never touched, and once
   * the updates are applied there is nothing left to update.
   */
  lemma CredentialsOnlyFillEmpty(a: Account, verifiedTel: Option<string>, lineUserId: Option<string>)
    requires verifiedTel.Some? ==> Truthy(verifiedTel)
    ensures var b := ApplyUpdates(a, CredentialUpdates(a, verifiedTel, lineUserId));
      && (Truthy(a.tel) ==> b.tel == a.tel)
      && (Truthy(a.lineId) ==> b.lineId == a.lineId)
      && (verifiedTel.Some? ==> Truthy(b.tel))
      && (Truthy(lineUserId) ==> Truthy(b.lineId))
      && b.(tel := a.tel, lineId := a.lineId) == a
      && !HasUpdates(CredentialUpdates(b, verifiedTel, lineUserId))
  {
  }

  // ---------------------------------------------------------------------
  // Verification steps
  // ---------------------------------------------------------------------

  /**
   * Lines 261-279, before a new account is created: None lets the creation
   * go ahead. With both LINE and phone required, the Shopify requirement is
   * not consulted.
   */
  function NewUserGate(authMethods: seq<string>, hasLine: bool, hasTel: bool, hasShopifyEmail: bool): (r: Option<Step>)
    ensures r.Some? ==> IsVerification(r.value)
    ensures "line" in authMethods && !hasLine ==> r == Some(VerifyLine)
    ensures ("tel" in authMethods && !hasTel && !("line" in authMethods && !hasLine)) ==> r == Some(VerifyTel)
    ensures r == Some(VerifyShopify) <==>
      && "shopify_email" in authMethods && !hasShopifyEmail
      && !("line" in authMethods && "tel" in authMethods)
      && !("line" in authMethods && !hasLine) && !("tel" in authMethods && !hasTel)
    ensures r.None? <==>
      && ("line" in authMethods ==> hasLine) && ("tel" in authMethods ==> hasTel)
      && ("shopify_email" in authMethods && !hasShopifyEmail ==> "line" in authMethods && "tel" in authMethods)
  {
    var needsLine := "line" in authMethods;
    var needsTel := "tel" in authMethods;
    var needsShopifyEmail := "shopify_email" in authMethods;
    if needsLine && needsTel then
      if !hasLine then Some(VerifyLine)
      else if !hasTel then Some(VerifyTel)
      else None
    else if needsLine && !hasLine then Some(VerifyLine)
    else if needsTel && !hasTel then Some(VerifyTel)
    else if needsShopifyEmail && !hasShopifyEmail then Some(VerifyShopify)
    else None
  }

  /** Lines 288-295, for an account that was found: a missing phone is asked for first. */
  function ExistingUserGate(authMethods: seq<string>, a: Account, hasTel: bool, hasShopifyEmail: bool): (r: Option<Step>)
    ensures r == Some(VerifyTel) <==> "tel" in authMethods && !Truthy(a.tel) && !hasTel
    ensures r == Some(VerifyShopify) <==>
      && !("tel" in authMethods && !Truthy(a.tel) && !hasTel)
      && "shopify_email" in authMethods && !ShopifyLinked(a) && !hasShopifyEmail
    ensures r.None? || r == Some(VerifyTel) || r == Some(VerifyShopify)
  {
    if "tel" in authMethods && !Truthy(a.tel) && !hasTel then Some(VerifyTel)
    else if "shopify_email" in authMethods && !ShopifyLinked(a) && !hasShopifyEmail then Some(VerifyShopify)
    else None
  }

  /** The `missing` object of a response. */
  datatype MissingFlags = MissingFlags(
    tel: bool, line: bool, shopifyEmail: bool,
    consent: bool, profile: bool, address: bool)

  /** Lines 310-312: the credentials the merchant requires that the account lacks. */
  function CredentialGaps(authMethods: seq<string>, a: Account): (gaps: MissingFlags)
    ensures gaps.tel ==> "tel" in authMethods && !Truthy(a.tel)
    ensures gaps.line ==> "line" in authMethods && !Truthy(a.lineId)
    ensures gaps.shopifyEmail ==> "shopify_email" in authMethods && !ShopifyLinked(a)
    ensures "tel" in authMethods && !Truthy(a.tel) ==> gaps.tel
    ensures "line" in authMethods && !Truthy(a.lineId) ==> gaps.line
    ensures "shopify_email" in authMethods && !ShopifyLinked(a) ==> gaps.shopifyEmail
    ensures !gaps.consent && !gaps.profile && !gaps.address
  {
    MissingFlags(
      "tel" in authMethods && !Truthy(a.tel),
      "line" in authMethods && !Truthy(a.lineId),
      "shopify_email" in authMethods && !ShopifyLinked(a),
      false, false, false)
  }

  /** Lines 314-323: the step for the first gap, by priority phone, then Shopify, then LINE. */
  function CredentialStep(gaps: MissingFlags): (r: Option<Step>)
    ensures r.None? <==> !gaps.tel && !gaps.line && !gaps.shopifyEmail
    ensures r == Some(VerifyTel) <==> gaps.tel
    ensures r == Some(VerifyShopify) <==> !gaps.tel && gaps.shopifyEmail
    ensures r == Some(VerifyLine) <==> !gaps.tel && !gaps.shopifyEmail && gaps.line
  {
    if gaps.line || gaps.tel || gaps.shopifyEmail then
      var nextStep := if gaps.tel then VerifyTel else if gaps.shopifyEmail then VerifyShopify else VerifyLine;
      Some(nextStep)
    else None
  }

  /** The account inserted for a new user (line 280): only the credentials just verified. */
  function NewAccount(id: string, lineUserId: Option<string>, verifiedTel: Option<string>, email: Option<string>,
                      hasShopifyEmail: bool): (a: Account)
    ensures a.id == id && a.tel == verifiedTel
    ensures Truthy(lineUserId) ==> a.lineId == lineUserId
    ensures !Truthy(lineUserId) ==> a.lineId == None
    ensures hasShopifyEmail ==> a.email == email
    ensures !hasShopifyEmail ==> a.email == None
    ensures !ShopifyLinked(a) && a.personaId == None && !SignupFormComplete(a)
  {
    Account(id,
            if verifiedTel.Some? then verifiedTel else None,
            if Truthy(lineUserId) then lineUserId else None,
            if hasShopifyEmail then email else None,
            None, None, Some(false))
  }

  /**
   * The gate skips the Shopify requirement when LINE and phone are both
   * required, but the account it creates has no Shopify link, so the
   * credential step still asks for Shopify before any profile check.
   */
  lemma NewAccountStillVerifiesShopify(authMethods: seq<string>, id: string, lineUserId: Option<string>,
                                       verifiedTel: Option<string>, email: Option<string>, hasShopifyEmail: bool)
    requires "shopify_email" in authMethods
    requires NewUserGate(authMethods, Truthy(lineUserId), verifiedTel.Some?, hasShopifyEmail).None?
    requires verifiedTel.Some? ==> Truthy(verifiedTel)
    ensures var gaps := CredentialGaps(authMethods, NewAccount(id, lineUserId, verifiedTel, email, hasShopifyEmail));
      gaps.shopifyEmail && !gaps.tel && !gaps.line
      && CredentialStep(gaps) == Some(VerifyShopify)
  {
  }

  // ---------------------------------------------------------------------
  // The profile decision (lines 350-368)
  // ---------------------------------------------------------------------

  /** Which `missing_data` the response carries. */
  datatype MissingDataChoice = FullForm | MissingOnlyData | NoMissingData

  datatype ProfileOutcome = ProfileOutcome(nextStep: Step, profileComplete: bool, missingData: MissingDataChoice)

  /**
   * `profile_complete`, `next_step` and the `missing_data` choice from the
   * new-user flag, the signup flag and the two missing flags.
   */
  function ProfileDecision(isNewUser: bool, signupComplete: bool, hasMissingConsent: bool, hasMissingProfile: bool)
    : (r: ProfileOutcome)
    ensures r.profileComplete <==> !hasMissingConsent && !hasMissingProfile
    ensures r.nextStep == CompleteProfileNew <==> isNewUser
    ensures r.nextStep == Complete <==> !isNewUser && signupComplete && !hasMissingConsent && !hasMissingProfile
    ensures !IsVerification(r.nextStep)
    ensures r.missingData == FullForm <==> isNewUser || !signupComplete
    ensures r.missingData == NoMissingData <==> r.nextStep == Complete
    ensures r.missingData == MissingOnlyData <==> r.nextStep == CompleteProfileExisting && signupComplete
  {
    var profileComplete := !hasMissingConsent && !hasMissingProfile;
    var nextStep :=
      if isNewUser then CompleteProfileNew
      else if !signupComplete || hasMissingConsent || hasMissingProfile then CompleteProfileExisting
      else Complete;
    var missingData :=
      if nextStep == CompleteProfileNew then FullForm
      else if nextStep == CompleteProfileExisting then (if !signupComplete then FullForm else MissingOnlyData)
      else NoMissingData;
    ProfileOutcome(nextStep, profileComplete, missingData)
  }

  /** `missing_data` as sent. */
  datatype MissingDataValue = FullFormValue(form: FullFormData) | MissingOnlyValue(data: MissingData) | NullValue

  /** The response once an account exists (lines 310-381), without tokens and the user summary. */
  datatype CompletionResponse =
    | CredentialsPending(
        nextStep: Step, missing: MissingFlags, isNewUser: bool, isSignupFormComplete: bool)
    | ProfileChecked(
        nextStep: Step, profileComplete: bool, missing: MissingFlags, isNewUser: bool,
        isSignupFormComplete: bool, missingData: MissingDataValue)

  /**
   * The tail of the handler: credential gaps first, then the persona
   * injection, the missing-data filter and the profile decision.
   */
  function ResponseFor(authMethods: seq<string>, a: Account, isNewUser: bool, profileTemplate: Option<Template>)
    : (r: CompletionResponse)
    ensures r.isNewUser == isNewUser && r.isSignupFormComplete == SignupFormComplete(a)
    ensures r.CredentialsPending? ==>
              && CredentialStep(CredentialGaps(authMethods, a)) == Some(r.nextStep)
              && r.missing == CredentialGaps(authMethods, a)
    ensures r.ProfileChecked? <==> CredentialStep(CredentialGaps(authMethods, a)).None?
    ensures r.ProfileChecked? ==>
      var userPersonaId := OrNull(a.personaId);
      var template := TemplateOrEmpty(InjectPersona(profileTemplate, userPersonaId));
      var m := MissingOnly(template, userPersonaId);
      var d := ProfileDecision(isNewUser, SignupFormComplete(a), m.hasMissingConsent, m.hasMissingProfile);
      && r.nextStep == d.nextStep && r.profileComplete == d.profileComplete
      && r.missing == MissingFlags(false, false, false, m.hasMissingConsent, m.hasMissingProfile, m.hasMissingAddress)
      && (r.missingData.FullFormValue? <==> isNewUser || !SignupFormComplete(a))
      && (r.missingData.FullFormValue? ==> r.missingData.form == ExtractFullFormData(template, userPersonaId))
      && (r.missingData.MissingOnlyValue? ==> r.missingData.data == m.missingData)
      && (r.missingData == NullValue <==> r.nextStep == Complete)
  {
    var gaps := CredentialGaps(authMethods, a);
    var step := CredentialStep(gaps);
    if step.Some? then CredentialsPending(step.value, gaps, isNewUser, SignupFormComplete(a))
    else
      var userPersonaId := OrNull(a.personaId);
      var template := TemplateOrEmpty(InjectPersona(profileTemplate, userPersonaId));
      var m := MissingOnly(template, userPersonaId);
      var decision := ProfileDecision(isNewUser, SignupFormComplete(a), m.hasMissingConsent, m.hasMissingProfile);
      var missingData :=
        match decision.missingData
        case FullForm => FullFormValue(ExtractFullFormData(template, userPersonaId))
        case MissingOnlyData => MissingOnlyValue(m.missingData)
        case NoMissingData => NullValue;
      ProfileChecked(decision.nextStep, decision.profileComplete,
                     MissingFlags(false, false, false, m.hasMissingConsent, m.hasMissingProfile, m.hasMissingAddress),
                     isNewUser, SignupFormComplete(a), missingData)
  }

  /**
   * A response that skips the profile check reports only credential gaps;
   * a profile-checked response reports none, and its step is never a
   * verification.
   */
  lemma ResponseShape(authMethods: seq<string>, a: Account, isNewUser: bool, profileTemplate: Option<Template>)
    ensures var r := ResponseFor(authMethods, a, isNewUser, profileTemplate);
      && (r.CredentialsPending? <==> CredentialStep(CredentialGaps(authMethods, a)).Some?)
      && (r.CredentialsPending? ==>
            && IsVerification(r.nextStep)
            && (r.missing.tel || r.missing.line || r.missing.shopifyEmail)
            && !r.missing.consent && !r.missing.profile && !r.missing.address)
      && (r.ProfileChecked? ==>
            && !IsVerification(r.nextStep)
            && !r.missing.tel && !r.missing.line && !r.missing.shopifyEmail
            && (r.missing.address ==> r.missing.profile))
  {
    var userPersonaId := OrNull(a.personaId);
    var template := TemplateOrEmpty(InjectPersona(profileTemplate, userPersonaId));
    MissingFlagsIff(template, userPersonaId);
  }

  /**
   * `complete` is reached only by an existing user with a finished signup
   * form and nothing missing; it carries no missing data and a complete
   * profile.
   */
  lemma CompleteMeansNothingMissing(authMethods: seq<string>, a: Account, isNewUser: bool, profileTemplate: Option<Template>)
    requires ResponseFor(authMethods, a, isNewUser, profileTemplate).nextStep == Complete
    ensures var r := ResponseFor(authMethods, a, isNewUser, profileTemplate);
      && r.ProfileChecked? && !isNewUser && SignupFormComplete(a) && r.profileComplete
      && r.missingData == NullValue
      && !r.missing.tel && !r.missing.line && !r.missing.shopifyEmail
      && !r.missing.consent && !r.missing.profile && !r.missing.address
  {
    var userPersonaId := OrNull(a.personaId);
    var template := TemplateOrEmpty(InjectPersona(profileTemplate, userPersonaId));
    MissingFlagsIff(template, userPersonaId);
  }

  /** A new user whose credentials are complete is sent the full, persona-filtered form. */
  lemma NewUserGetsFullForm(authMethods: seq<string>, a: Account, profileTemplate: Option<Template>)
    requires CredentialStep(CredentialGaps(authMethods, a)).None?
    ensures var r := ResponseFor(authMethods, a, true, profileTemplate);
      var userPersonaId := OrNull(a.personaId);
      var template := TemplateOrEmpty(InjectPersona(profileTemplate, userPersonaId));
      && r.nextStep == CompleteProfileNew
      && r.missingData == FullFormValue(ExtractFullFormData(template, userPersonaId))
      && VisibleGroups(r.missingData.form.defaultFieldsConfig, ListOrEmpty(template.defaultFieldsConfig), userPersonaId)
      && VisibleGroups(r.missingData.form.customFieldsConfig, ListOrEmpty(template.customFieldsConfig), userPersonaId)
  {
    var userPersonaId := OrNull(a.personaId);
    var template := TemplateOrEmpty(InjectPersona(profileTemplate, userPersonaId));
    FullFormGroups(ListOrEmpty(template.defaultFieldsConfig), userPersonaId);
    FullFormGroups(ListOrEmpty(template.customFieldsConfig), userPersonaId);
  }

  /**
   * `shown` holds every group of `groups`, in order, with its other
   * properties, and exactly its persona-visible fields.
   */
  ghost predicate VisibleGroups(shown: seq<FieldGroup>, groups: seq<FieldGroup>, userPersonaId: Option<string>)
  {
    && |shown| == |groups|
    && forall i :: 0 <= i < |groups| ==>
         && shown[i].attributes == groups[i].attributes && shown[i].fields.Some?
         && forall f :: f in shown[i].fields.value <==> f in FieldsOf(groups[i]) && Visible(f, userPersonaId)
  }

  /**
   * An existing user with a finished signup form who is missing something
   * is sent only the missing data, and a user with a persona is not offered
   * the persona groups in it.
   */
  lemma ExistingUserGetsMissingOnly(authMethods: seq<string>, a: Account, profileTemplate: Option<Template>)
    requires CredentialStep(CredentialGaps(authMethods, a)).None?
    requires SignupFormComplete(a)
    requires ResponseFor(authMethods, a, false, profileTemplate).nextStep != Complete
    ensures var r := ResponseFor(authMethods, a, false, profileTemplate);
      && r.nextStep == CompleteProfileExisting
      && r.missingData.MissingOnlyValue?
      && (r.missing.consent || r.missing.profile)
      && (Truthy(a.personaId) && r.missingData.data.persona.Some? ==>
            r.missingData.data.persona.value.personaGroups == EmptyList)
  {
    var userPersonaId := OrNull(a.personaId);
    if Truthy(a.personaId) {
      InjectedPersonaSelected(profileTemplate, userPersonaId);
    }
  }
}
