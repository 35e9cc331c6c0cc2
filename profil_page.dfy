/** The profile screen of src/pages/ProfilPage.tsx: the password change,
    the two-step phone and e-mail change flows (address, then a six-digit
    code), the profile load and the logout button. Every handler's server
    answer is a parameter; a handler runs to completion in one step. */
module ProfilPage {
  import opened Wrappers
  import opened JsValues
  import opened OtpDigits
  import opened EmailPattern
  import App
  import Auth
  import Api
  import OtpContext

  datatype ToastColor = ToastSuccess | ToastDanger

  /** A toast the handler raises. */
  datatype Notice = Notice(message: string, color: ToastColor)

  /** The toast's three state fields, always written together. */
  datatype Toast = Toast(open: bool, message: string, color: ToastColor)

  /** The toast after a handler: the raised notice, if any, shown open. */
  function Raise(t: Toast, n: Option<Notice>): (r: Toast)
    ensures n.None? ==> r == t
    ensures n.Some? ==> r.open && r.message == n.value.message && r.color == n.value.color
  {
    if n.Some? then Toast(true, n.value.message, n.value.color) else t
  }

  const FieldsMissingMessage := "Lütfen tüm alanları doldurunuz."
  const PasswordMismatchMessage := "Yeni şifreler eşleşmiyor."
  const PasswordShortMessage := "Şifre en az 6 karakter olmalıdır."
  const PasswordChangedMessage := "Şifreniz başarıyla değiştirildi."
  const PasswordFailedMessage := "Şifre güncelleme başarısız."
  const PhoneMissingMessage := "Lütfen telefon numaranızı giriniz."
  const PhoneLengthMessage := "Telefon numarası 10 haneli olmalıdır."
  const CodeSentMessage := "Doğrulama kodu gönderildi."
  const PhoneRequestFailedMessage := "Telefon güncelleme isteği başarısız."
  const CodeLengthMessage := "Lütfen 6 haneli kodu giriniz."
  const WrongCodeMessage := "Hatalı doğrulama kodu."
  const PhoneUpdatedMessage := "Telefonunuz güncellendi."
  const EmailMissingMessage := "Lütfen e-posta adresinizi giriniz."
  const EmailInvalidMessage := "Geçerli bir e-posta adresi giriniz."
  const EmailRequestFailedMessage := "E-posta güncelleme isteği başarısız."
  const EmailUpdatedMessage := "E-posta adresiniz güncellendi."

  // ----- password change -----

  /** The first failing password check, in the handler's order. */
  function PasswordCheck(oldPassword: string, newPassword: string, confirmPassword: string): (r: Option<string>)
    ensures r.None? <==> oldPassword != "" && newPassword != "" && confirmPassword != ""
                         && newPassword == confirmPassword && |newPassword| >= 6
    ensures oldPassword == "" || newPassword == "" || confirmPassword == "" ==> r == Some(FieldsMissingMessage)
    ensures (oldPassword != "" && newPassword != "" && confirmPassword != "" && newPassword != confirmPassword)
            ==> r == Some(PasswordMismatchMessage)
    ensures (oldPassword != "" && newPassword != "" && confirmPassword != "" && newPassword == confirmPassword
             && |newPassword| < 6) ==> r == Some(PasswordShortMessage)
  {
    if oldPassword == "" || newPassword == "" || confirmPassword == "" then Some(FieldsMissingMessage)
    else if newPassword != confirmPassword then Some(PasswordMismatchMessage)
    else if |newPassword| < 6 then Some(PasswordShortMessage)
    else None
  }

  // ----- the "continue" step of the change flows -----

  /** What a continue handler leaves behind: its submitting flag, whether the
      flow moves to the code step, the toast, and the request sent. */
  datatype ContinueOutcome = ContinueOutcome(submitting: bool, toCode: bool, notice: Option<Notice>,
                                             request: Option<map<string, Json>>)

  /** A continue handler whose failures release the submitting flag, as the
      e-mail handler does: a running submission swallows the call; a failed
      check raises its message; otherwise `{key: value}` is posted, and
      success moves the flow to the code step. */
  function ContinueWith(submitting: bool, check: Option<string>, key: string, value: string,
                        fallback: string, reply: Result<Json, Api.HttpFailure>): (r: ContinueOutcome)
    ensures submitting ==> r == ContinueOutcome(true, false, None, None)
    ensures !submitting ==> !r.submitting
    ensures !submitting && check.Some? ==> r.request.None? && r.notice == Some(Notice(check.value, ToastDanger))
    ensures r.request.Some? <==> !submitting && check.None?
    ensures r.request.Some? ==> r.request.value == map[key := JStr(value)]
    ensures r.toCode <==> r.request.Some? && reply.Success?
    ensures r.toCode ==> r.notice == Some(Notice(CodeSentMessage, ToastSuccess))
    ensures r.request.Some? && reply.Failure? ==> r.notice == Some(Notice(Api.FailureText(reply.error, fallback), ToastDanger))
  {
    if submitting then ContinueOutcome(true, false, None, None)
    else if check.Some? then ContinueOutcome(false, false, Some(Notice(check.value, ToastDanger)), None)
    else
      var request := Some(map[key := JStr(value)]);
      match reply
      case Success(_) => ContinueOutcome(false, true, Some(Notice(CodeSentMessage, ToastSuccess)), request)
      case Failure(e) => ContinueOutcome(false, false, Some(Notice(Api.FailureText(e, fallback), ToastDanger)), request)
  }

  /** The phone checks: present, and ten digits once non-digits are dropped. */
  function PhoneCheck(newPhone: string): (r: Option<string>)
    ensures r.None? <==> newPhone != "" && |DigitsOnly(newPhone)| == 10
    ensures newPhone == "" ==> r == Some(PhoneMissingMessage)
    ensures newPhone != "" && |DigitsOnly(newPhone)| != 10 ==> r == Some(PhoneLengthMessage)
  {
    if newPhone == "" then Some(PhoneMissingMessage)
    else if |DigitsOnly(newPhone)| != 10 then Some(PhoneLengthMessage)
    else None
  }

  /** The e-mail checks: present, and matching the address pattern. */
  function EmailCheck(newEmail: string): (r: Option<string>)
    ensures r.None? <==> newEmail != "" && RegexMatches(newEmail)
    ensures newEmail == "" ==> r == Some(EmailMissingMessage)
    ensures newEmail != "" && !RegexMatches(newEmail) ==> r == Some(EmailInvalidMessage)
  {
    EmailCheckMatchesRegex(newEmail);
    if newEmail == "" then Some(EmailMissingMessage)
    else if !IsValidEmail(newEmail) then Some(EmailInvalidMessage)
    else None
  }

  /** `handlePhoneContinue` as written: a failed request returns from the
      `catch` before the flag is released, so the flag stays set. */
  function PhoneContinueAsWritten(submitting: bool, newPhone: string, reply: Result<Json, Api.HttpFailure>): (r: ContinueOutcome)
    ensures var fixed := PhoneContinue(submitting, newPhone, reply);
      r.request == fixed.request && r.toCode == fixed.toCode && r.notice == fixed.notice
    ensures r.submitting <==> submitting || (r.request.Some? && reply.Failure?)
  {
    var r := PhoneContinue(submitting, newPhone, reply);
    if r.request.Some? && reply.Failure? then r.(submitting := true) else r
  }

  /** `handlePhoneContinue` with the flag released on every path, as the
      e-mail handler does it. */
  function PhoneContinue(submitting: bool, newPhone: string, reply: Result<Json, Api.HttpFailure>): (r: ContinueOutcome)
    ensures r.request.Some? <==> !submitting && newPhone != "" && |DigitsOnly(newPhone)| == 10
    ensures r.request.Some? ==> r.request.value == map["phone" := JStr(newPhone)]
    ensures r.toCode <==> r.request.Some? && reply.Success?
    ensures !submitting ==> !r.submitting
  {
    ContinueWith(submitting, PhoneCheck(newPhone), "phone", newPhone, PhoneRequestFailedMessage, reply)
  }

  /** `handleEmailContinue`. */
  function EmailContinue(submitting: bool, newEmail: string, reply: Result<Json, Api.HttpFailure>): (r: ContinueOutcome)
    ensures r.request.Some? <==> !submitting && newEmail != "" && RegexMatches(newEmail)
    ensures r.request.Some? ==> r.request.value == map["email" := JStr(newEmail)]
    ensures r.toCode <==> r.request.Some? && reply.Success?
    ensures !submitting ==> !r.submitting
  {
    ContinueWith(submitting, EmailCheck(newEmail), "email", newEmail, EmailRequestFailedMessage, reply)
  }

  /** As written, one failed phone request leaves the flag set, and every
      later continue with a valid number is swallowed by the guard: nothing
      is sent again and the flow never reaches the code step. Closing the
      modal does not clear the flag either. */
  lemma PhoneRetryBlockedAsWritten(newPhone: string, err: Api.HttpFailure, later: string, reply: Result<Json, Api.HttpFailure>)
    requires PhoneCheck(newPhone).None?
    ensures var first := PhoneContinueAsWritten(false, newPhone, Failure(err));
            && first.request.Some? && first.submitting
            && PhoneContinueAsWritten(first.submitting, later, reply) == ContinueOutcome(true, false, None, None)
  {
  }

  /** With the flag released, the number can be submitted again after a
      failure, and a successful retry reaches the code step. */
  lemma PhoneRetryAfterFailure(newPhone: string, err: Api.HttpFailure, reply: Result<Json, Api.HttpFailure>)
    requires PhoneCheck(newPhone).None?
    ensures var first := PhoneContinue(false, newPhone, Failure(err));
            && first.request.Some? && !first.submitting
            && PhoneContinue(first.submitting, newPhone, reply).request == Some(map["phone" := JStr(newPhone)])
            && (reply.Success? ==> PhoneContinue(first.submitting, newPhone, reply).toCode)
  {
  }

  // ----- the code step of the change flows -----

  datatype VerifyOutcome = VerifyOutcome(verifying: bool, done: bool, notice: Option<Notice>,
                                         request: Option<map<string, Json>>)

  /** `handleVerifyPhone` / `handleVerifyEmail`: a running verification
      swallows the call; a code that is not six characters long raises the
      toast; otherwise `{key: value, code}` is posted, and success completes
      the change. */
  function VerifyWith(verifying: bool, key: string, value: string, digits: seq<string>, doneMessage: string,
                      reply: Result<Json, Api.HttpFailure>): (r: VerifyOutcome)
    requires key != "code"
    ensures verifying ==> r == VerifyOutcome(true, false, None, None)
    ensures !verifying ==> !r.verifying
    ensures r.request.Some? <==> !verifying && |Join(digits)| == 6
    ensures !verifying && |Join(digits)| != 6 ==> r.notice == Some(Notice(CodeLengthMessage, ToastDanger))
    ensures r.request.Some? ==>
              && r.request.value.Keys == {key, "code"}
              && r.request.value[key] == JStr(value) && r.request.value["code"] == JStr(Join(digits))
    ensures r.done <==> r.request.Some? && reply.Success?
    ensures r.done ==> r.notice == Some(Notice(doneMessage, ToastSuccess))
    ensures r.request.Some? && reply.Failure? ==> r.notice == Some(Notice(Api.FailureText(reply.error, WrongCodeMessage), ToastDanger))
  {
    if verifying then VerifyOutcome(true, false, None, None)
    else
      var code := Join(digits);
      if |code| != 6 then VerifyOutcome(false, false, Some(Notice(CodeLengthMessage, ToastDanger)), None)
      else
        var request := Some(map[key := JStr(value), "code" := JStr(code)]);
        match reply
        case Success(_) => VerifyOutcome(false, true, Some(Notice(doneMessage, ToastSuccess)), request)
        case Failure(e) => VerifyOutcome(false, false, Some(Notice(Api.FailureText(e, WrongCodeMessage), ToastDanger)), request)
  }

  /** Which step a change modal shows. */
  datatype Step = EntryStep | CodeStep

  class ProfilForm {
    var showPasswordModal: bool
    var oldPassword: string
    var newPassword: string
    var confirmPassword: string
    var isPasswordSubmitting: bool

    var showPhoneModal: bool
    var newPhone: string
    var currentPhone: string
    var phoneStep: Step
    var otpDigits: seq<string>
    var isPhoneSubmitting: bool
    var isPhoneVerifying: bool

    var showEmailModal: bool
    var newEmail: string
    var currentEmail: string
    var emailStep: Step
    var emailOtpDigits: seq<string>
    var isEmailSubmitting: bool
    var isEmailVerifying: bool

    var toast: Toast

    /** Both code rows are six valid boxes. */
    predicate Valid()
      reads this
    {
      SlotsValid(otpDigits) && SlotsValid(emailOtpDigits)
    }

    constructor ()
      ensures Valid()
      ensures !showPasswordModal && oldPassword == "" && newPassword == "" && confirmPassword == "" && !isPasswordSubmitting
      ensures !showPhoneModal && newPhone == "" && currentPhone == "" && phoneStep == EntryStep
      ensures otpDigits == EmptySlots && !isPhoneSubmitting && !isPhoneVerifying
      ensures !showEmailModal && newEmail == "" && currentEmail == "" && emailStep == EntryStep
      ensures emailOtpDigits == EmptySlots && !isEmailSubmitting && !isEmailVerifying
      ensures toast == Toast(false, "", ToastSuccess)
    {
      showPasswordModal, oldPassword, newPassword, confirmPassword, isPasswordSubmitting := false, "", "", "", false;
      showPhoneModal, newPhone, currentPhone, phoneStep := false, "", "", EntryStep;
      otpDigits, isPhoneSubmitting, isPhoneVerifying := EmptySlots, false, false;
      showEmailModal, newEmail, currentEmail, emailStep := false, "", "", EntryStep;
      emailOtpDigits, isEmailSubmitting, isEmailVerifying := EmptySlots, false, false;
      toast := Toast(false, "", ToastSuccess);
    }

    /** The mount effect: the profile is fetched with one retry allowed, and
        its phone and e-mail (or '') become the current values; a failure
        is ignored. */
    method LoadProfile(net: nat -> Api.Reply) returns (delays: seq<int>)
      modifies this`currentPhone, this`currentEmail
      ensures |delays| <= 1
      ensures var t := Api.Run(Some(Api.RetryMeta(Some(1), None, None)), 0, net);
        delays == t.delays
        && (t.last.Ok? && Api.UnwrapResponse(t.last.body).Success? ==>
              var profile := Api.UnwrapResponse(t.last.body).value;
              && currentPhone == (if Truthy(Prop(profile, "telefon")) then ToStr(Prop(profile, "telefon")) else "")
              && currentEmail == (if Truthy(Prop(profile, "eposta")) then ToStr(Prop(profile, "eposta")) else ""))
        && (!(t.last.Ok? && Api.UnwrapResponse(t.last.body).Success?) ==>
              currentPhone == old(currentPhone) && currentEmail == old(currentEmail))
    {
      var meta := Some(Api.RetryMeta(Some(1), None, None));
      var config := new Api.RequestConfig(meta);
      var r;
      r, delays := Api.Request(config, net);
      Api.RunBounded(meta, 0, net);
      if r.Success? {
        var telefon := Prop(r.value, "telefon");
        var eposta := Prop(r.value, "eposta");
        currentPhone := if Truthy(telefon) then ToStr(telefon) else "";
        currentEmail := if Truthy(eposta) then ToStr(eposta) else "";
      }
    }

    /** `handlePasswordChange`: on success the fields are cleared and the
        modal closes; on any failure the fields are kept. */
    method HandlePasswordChange(reply: Result<Json, Api.HttpFailure>) returns (request: Option<map<string, Json>>)
      modifies this`isPasswordSubmitting, this`toast, this`showPasswordModal,
               this`oldPassword, this`newPassword, this`confirmPassword
      ensures old(isPasswordSubmitting) ==> request.None? && isPasswordSubmitting && toast == old(toast)
      ensures !old(isPasswordSubmitting) ==> !isPasswordSubmitting
      ensures var check := PasswordCheck(old(oldPassword), old(newPassword), old(confirmPassword));
        && (!old(isPasswordSubmitting) && check.Some? ==> request.None? && toast == Raise(old(toast), Some(Notice(check.value, ToastDanger))))
        && (request.Some? <==> !old(isPasswordSubmitting) && check.None?)
      ensures request.Some? ==> request.value == map["oldPassword" := JStr(old(oldPassword)), "newPassword" := JStr(old(newPassword))]
      ensures request.Some? && reply.Success? ==>
        && toast == Raise(old(toast), Some(Notice(PasswordChangedMessage, ToastSuccess)))
        && !showPasswordModal && oldPassword == "" && newPassword == "" && confirmPassword == ""
      ensures !(request.Some? && reply.Success?) ==>
        && showPasswordModal == old(showPasswordModal) && oldPassword == old(oldPassword)
        && newPassword == old(newPassword) && confirmPassword == old(confirmPassword)
      ensures request.Some? && reply.Failure? ==>
        toast == Raise(old(toast), Some(Notice(Api.FailureText(reply.error, PasswordFailedMessage), ToastDanger)))
    {
      request := None;
      if isPasswordSubmitting {
        return;
      }
      if oldPassword == "" || newPassword == "" || confirmPassword == "" {
        toast := Toast(true, FieldsMissingMessage, ToastDanger);
        return;
      }
      if newPassword != confirmPassword {
        toast := Toast(true, PasswordMismatchMessage, ToastDanger);
        return;
      }
      if |newPassword| < 6 {
        toast := Toast(true, PasswordShortMessage, ToastDanger);
        return;
      }
      isPasswordSubmitting := true;
      request := Some(map["oldPassword" := JStr(oldPassword), "newPassword" := JStr(newPassword)]);
      match reply {
        case Success(_) =>
          toast := Toast(true, PasswordChangedMessage, ToastSuccess);
          showPasswordModal := false;
          oldPassword, newPassword, confirmPassword := "", "", "";
        case Failure(e) =>
          toast := Toast(true, Api.FailureText(e, PasswordFailedMessage), ToastDanger);
      }
      isPasswordSubmitting := false;
    }

    // ----- phone change -----

    method OpenPhoneModal()
      modifies this`showPhoneModal
      ensures showPhoneModal
    {
      showPhoneModal := true;
    }

    /** The number field's `onIonInput`: only the digits of the entry are kept. */
    method PhoneInput(value: Option<string>)
      modifies this`newPhone
      ensures newPhone == DigitsOnly(value.GetOr(""))
    {
      newPhone := DigitsOnly(value.GetOr(""));
    }

    /** `handlePhoneContinue`, with the submitting flag released after a
        failed request (the source leaves it set; see `PhoneContinueAsWritten`). */
    method HandlePhoneContinue(reply: Result<Json, Api.HttpFailure>) returns (request: Option<map<string, Json>>)
      modifies this`isPhoneSubmitting, this`toast, this`phoneStep
      ensures var r := PhoneContinue(old(isPhoneSubmitting), newPhone, reply);
        && request == r.request && isPhoneSubmitting == r.submitting
        && toast == Raise(old(toast), r.notice)
        && phoneStep == if r.toCode then CodeStep else old(phoneStep)
    {
      request := None;
      if isPhoneSubmitting {
        return;
      }
      if newPhone == "" {
        toast := Toast(true, PhoneMissingMessage, ToastDanger);
        return;
      }
      if |DigitsOnly(newPhone)| != 10 {
        toast := Toast(true, PhoneLengthMessage, ToastDanger);
        return;
      }
      isPhoneSubmitting := true;
      request := Some(map["phone" := JStr(newPhone)]);
      match reply {
        case Success(_) =>
          toast := Toast(true, CodeSentMessage, ToastSuccess);
          phoneStep := CodeStep;
        case Failure(e) =>
          toast := Toast(true, Api.FailureText(e, PhoneRequestFailedMessage), ToastDanger);
      }
      isPhoneSubmitting := false;
    }

    /** `handleOtpInputChange`: one box of the phone code takes the first
        digit typed; the other boxes keep theirs. */
    method HandleOtpInputChange(index: nat, value: string)
      requires index < |otpDigits|
      modifies this`otpDigits
      ensures otpDigits == old(otpDigits)[index := SlotValue(value)]
      ensures old(Valid()) ==> Valid()
    {
      otpDigits := WriteSlot(otpDigits, index, value);
    }

    /** `resetPhoneModalState`: back to the number step with empty boxes and
        no number; the submitting flags are not touched. */
    method ResetPhoneModalState()
      modifies this`phoneStep, this`otpDigits, this`newPhone
      ensures phoneStep == EntryStep && otpDigits == EmptySlots && newPhone == ""
      ensures old(Valid()) ==> Valid()
    {
      phoneStep := EntryStep;
      otpDigits := EmptySlots;
      newPhone := "";
    }

    /** The cancel buttons and the modal's `onDidDismiss`. */
    method ClosePhoneModal()
      modifies this`showPhoneModal, this`phoneStep, this`otpDigits, this`newPhone
      ensures !showPhoneModal && phoneStep == EntryStep && otpDigits == EmptySlots && newPhone == ""
      ensures old(Valid()) ==> Valid()
    {
      showPhoneModal := false;
      ResetPhoneModalState();
    }

    /** `handleVerifyPhone`: success makes the new number current, closes the
        modal and resets the flow; failure keeps the flow as it is. */
    method HandleVerifyPhone(reply: Result<Json, Api.HttpFailure>) returns (request: Option<map<string, Json>>)
      modifies this`isPhoneVerifying, this`toast, this`currentPhone, this`showPhoneModal,
               this`phoneStep, this`otpDigits, this`newPhone
      ensures var r := VerifyWith(old(isPhoneVerifying), "phone", old(newPhone), old(otpDigits), PhoneUpdatedMessage, reply);
        && request == r.request && isPhoneVerifying == r.verifying
        && toast == Raise(old(toast), r.notice)
        && (r.done ==> currentPhone == old(newPhone) && !showPhoneModal
                       && phoneStep == EntryStep && otpDigits == EmptySlots && newPhone == "")
        && (!r.done ==> currentPhone == old(currentPhone) && showPhoneModal == old(showPhoneModal)
                        && phoneStep == old(phoneStep) && otpDigits == old(otpDigits) && newPhone == old(newPhone))
      ensures old(Valid()) ==> Valid()
    {
      request := None;
      if isPhoneVerifying {
        return;
      }
      var code := Join(otpDigits);
      if |code| != 6 {
        toast := Toast(true, CodeLengthMessage, ToastDanger);
        return;
      }
      isPhoneVerifying := true;
      request := Some(map["phone" := JStr(newPhone), "code" := JStr(code)]);
      match reply {
        case Success(_) =>
          currentPhone := newPhone;
          toast := Toast(true, PhoneUpdatedMessage, ToastSuccess);
          showPhoneModal := false;
          ResetPhoneModalState();
        case Failure(e) =>
          toast := Toast(true, Api.FailureText(e, WrongCodeMessage), ToastDanger);
      }
      isPhoneVerifying := false;
    }

    // ----- e-mail change -----

    method OpenEmailModal()
      modifies this`showEmailModal
      ensures showEmailModal
    {
      showEmailModal := true;
    }

    /** The address field's `onIonInput`: the entry as typed, '' for none. */
    method EmailInput(value: Option<string>)
      modifies this`newEmail
      ensures newEmail == value.GetOr("")
    {
      newEmail := value.GetOr("");
    }

    /** `handleEmailContinue`: the flag is released on every path. */
    method HandleEmailContinue(reply: Result<Json, Api.HttpFailure>) returns (request: Option<map<string, Json>>)
      modifies this`isEmailSubmitting, this`toast, this`emailStep
      ensures var r := EmailContinue(old(isEmailSubmitting), newEmail, reply);
        && request == r.request && isEmailSubmitting == r.submitting
        && toast == Raise(old(toast), r.notice)
        && emailStep == if r.toCode then CodeStep else old(emailStep)
    {
      request := None;
      if isEmailSubmitting {
        return;
      }
      if newEmail == "" {
        toast := Toast(true, EmailMissingMessage, ToastDanger);
        return;
      }
      if !IsValidEmail(newEmail) {
        toast := Toast(true, EmailInvalidMessage, ToastDanger);
        return;
      }
      isEmailSubmitting := true;
      request := Some(map["email" := JStr(newEmail)]);
      match reply {
        case Success(_) =>
          toast := Toast(true, CodeSentMessage, ToastSuccess);
          emailStep := CodeStep;
        case Failure(e) =>
          toast := Toast(true, Api.FailureText(e, EmailRequestFailedMessage), ToastDanger);
      }
      isEmailSubmitting := false;
    }

    method HandleEmailOtpInputChange(index: nat, value: string)
      requires index < |emailOtpDigits|
      modifies this`emailOtpDigits
      ensures emailOtpDigits == old(emailOtpDigits)[index := SlotValue(value)]
      ensures old(Valid()) ==> Valid()
    {
      emailOtpDigits := WriteSlot(emailOtpDigits, index, value);
    }

    method ResetEmailModalState()
      modifies this`emailStep, this`emailOtpDigits, this`newEmail
      ensures emailStep == EntryStep && emailOtpDigits == EmptySlots && newEmail == ""
      ensures old(Valid()) ==> Valid()
    {
      emailStep := EntryStep;
      emailOtpDigits := EmptySlots;
      newEmail := "";
    }

    method CloseEmailModal()
      modifies this`showEmailModal, this`emailStep, this`emailOtpDigits, this`newEmail
      ensures !showEmailModal && emailStep == EntryStep && emailOtpDigits == EmptySlots && newEmail == ""
      ensures old(Valid()) ==> Valid()
    {
      showEmailModal := false;
      ResetEmailModalState();
    }

    /** `handleVerifyEmail`. */
    method HandleVerifyEmail(reply: Result<Json, Api.HttpFailure>) returns (request: Option<map<string, Json>>)
      modifies this`isEmailVerifying, this`toast, this`currentEmail, this`showEmailModal,
               this`emailStep, this`emailOtpDigits, this`newEmail
      ensures var r := VerifyWith(old(isEmailVerifying), "email", old(newEmail), old(emailOtpDigits), EmailUpdatedMessage, reply);
        && request == r.request && isEmailVerifying == r.verifying
        && toast == Raise(old(toast), r.notice)
        && (r.done ==> currentEmail == old(newEmail) && !showEmailModal
                       && emailStep == EntryStep && emailOtpDigits == EmptySlots && newEmail == "")
        && (!r.done ==> currentEmail == old(currentEmail) && showEmailModal == old(showEmailModal)
                        && emailStep == old(emailStep) && emailOtpDigits == old(emailOtpDigits) && newEmail == old(newEmail))
      ensures old(Valid()) ==> Valid()
    {
      request := None;
      if isEmailVerifying {
        return;
      }
      var code := Join(emailOtpDigits);
      if |code| != 6 {
        toast := Toast(true, CodeLengthMessage, ToastDanger);
        return;
      }
      isEmailVerifying := true;
      request := Some(map["email" := JStr(newEmail), "code" := JStr(code)]);
      match reply {
        case Success(_) =>
          currentEmail := newEmail;
          toast := Toast(true, EmailUpdatedMessage, ToastSuccess);
          showEmailModal := false;
          ResetEmailModalState();
        case Failure(e) =>
          toast := Toast(true, Api.FailureText(e, WrongCodeMessage), ToastDanger);
      }
      isEmailVerifying := false;
    }

    method DismissToast()
      modifies this`toast
      ensures toast == old(toast).(open := false)
    {
      toast := toast.(open := false);
    }
  }

  /** The logout button: `logout(true)` (server call, storage wipe, redirect
      to `/login`), then the app's `handleLogout`. When the wipe succeeds,
      the only key left in storage is the login flag, rewritten as "false". */
  method HandleLogout(app: App.AppState, net: nat -> Api.Reply, clearFails: bool, removeFails: bool)
    returns (location: Option<string>)
    requires app.session.storage == app.storage
    modifies app`isLoggedIn, app.storage, app.session
    ensures location == Some("/login")
    ensures !app.isLoggedIn && app.session.currentOtp.None?
    ensures !clearFails && old(app.isLoggedIn) ==> app.storage.items == map[App.AuthKey := OtpContext.Str("false")]
  {
    location := Auth.Logout(app.storage, true, net, clearFails);
    var threw := app.HandleLogout(removeFails);
  }
}
