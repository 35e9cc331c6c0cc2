/** The code-entry screen of src/pages/OtpPage.tsx: six digit boxes and the
    verification request that completes the login. The request's answer is
    a parameter; `onVerified` is reported as a result for the caller (the
    app shell passes its login handler). */
module OtpPage {
  import opened Wrappers
  import opened JsValues
  import opened BrowserStorage
  import opened OtpContext
  import opened History
  import opened OtpDigits
  import Api

  const CodeLengthMessage := "Lütfen 6 haneli doğrulama kodunu giriniz."
  const VerifyFailedMessage := "OTP doğrulaması başarısız."
  const TokenKey := "auth_token"

  /** The `OtpVerifyRequest` built from the code and the navigation state:
      the phone comes from `telefon`, and an identity number is attached only
      under the `loginType` that names it. */
  function VerifyPayload(code: string, navState: Json): (p: map<string, Json>)
    ensures p.Keys == {"code", "phone", "tc_identity_no", "identity_no"}
    ensures p["code"] == JStr(code) && p["phone"] == Prop(navState, "telefon")
    ensures p["tc_identity_no"] != JUndefined ==> Prop(navState, "loginType") == JStr("tc")
    ensures p["identity_no"] != JUndefined ==> Prop(navState, "loginType") == JStr("identity")
    ensures Prop(navState, "loginType") == JStr("tc") ==> p["tc_identity_no"] == Prop(navState, "tcKimlik")
    ensures Prop(navState, "loginType") == JStr("identity") ==> p["identity_no"] == Prop(navState, "pasaportNo")
  {
    var loginType := Prop(navState, "loginType");
    map[
      "code" := JStr(code),
      "phone" := Prop(navState, "telefon"),
      "tc_identity_no" := if loginType == JStr("tc") then Prop(navState, "tcKimlik") else JUndefined,
      "identity_no" := if loginType == JStr("identity") then Prop(navState, "pasaportNo") else JUndefined]
  }

  /** The two identity numbers are never sent together. */
  lemma IdentityFieldsExclusive(code: string, navState: Json)
    ensures VerifyPayload(code, navState)["tc_identity_no"] == JUndefined
         || VerifyPayload(code, navState)["identity_no"] == JUndefined
  {
  }

  /** The login form hands over `{tcKimlik, telefon}` without a `loginType`,
      so a verification started from it carries the phone and neither
      identity number. */
  lemma LoginHandoffSendsNoIdentity(code: string, tcKimlik: string, telefon: string)
    ensures var p := VerifyPayload(code, JObject(map["tcKimlik" := JStr(tcKimlik), "telefon" := JStr(telefon)]));
      p["phone"] == JStr(telefon) && p["tc_identity_no"] == JUndefined && p["identity_no"] == JUndefined
  {
  }

  /** `res?.token`. */
  function TokenOf(res: Json): Json {
    Prop(res, "token")
  }

  class OtpForm {
    const storage: LocalStorage<Item>
    var code: seq<string>
    var showError: bool
    var errorMessage: string
    var isVerifying: bool

    constructor (storage: LocalStorage<Item>)
      ensures this.storage == storage
      ensures code == EmptySlots && !showError && errorMessage == "" && !isVerifying
    {
      this.storage := storage;
      code := EmptySlots;
      showError := false;
      errorMessage := "";
      isVerifying := false;
    }

    /** `handleChange(index, value)`: box `index` takes the first digit typed
        (or becomes empty); the other boxes keep their contents. */
    method HandleChange(index: nat, value: string)
      requires index < |code|
      modifies this`code
      ensures code == old(code)[index := SlotValue(value)]
      ensures SlotsValid(old(code)) ==> SlotsValid(code)
    {
      code := WriteSlot(code, index, value);
    }

    /** `handleVerify`: ignored while a verification is running; an
        incomplete code raises the toast and sends nothing; otherwise the
        request is sent, a truthy token is stored, and success reports
        `onVerified` and replaces the location with `/dashboard`, while failure
        shows the server's message or the fallback. `isVerifying` ends false. */
    method HandleVerify(navState: Json, reply: Result<Json, Api.HttpFailure>)
      returns (request: Option<map<string, Json>>, verified: bool, nav: Option<HistoryOp>)
      modifies this`showError, this`errorMessage, this`isVerifying, storage
      ensures old(isVerifying) ==>
        && request.None? && !verified && nav.None? && isVerifying
        && showError == old(showError) && errorMessage == old(errorMessage)
        && storage.items == old(storage.items)
      ensures !old(isVerifying) && |Join(code)| != 6 ==>
        && request.None? && !verified && nav.None? && !isVerifying
        && showError && errorMessage == CodeLengthMessage
        && storage.items == old(storage.items)
      ensures !old(isVerifying) && |Join(code)| == 6 ==>
        && request == Some(VerifyPayload(Join(code), navState)) && !isVerifying
        && verified == reply.Success?
        && (reply.Success? ==>
              && nav == Some(Replace("/dashboard"))
              && showError == old(showError) && errorMessage == old(errorMessage)
              && storage.items == if Truthy(TokenOf(reply.value))
                                  then old(storage.items)[TokenKey := Str(ToStr(TokenOf(reply.value)))]
                                  else old(storage.items))
        && (reply.Failure? ==>
              && nav.None? && showError
              && errorMessage == Api.FailureText(reply.error, VerifyFailedMessage)
              && storage.items == old(storage.items))
    {
      request, verified, nav := None, false, None;
      if isVerifying {
        return;
      }
      var otp := Join(code);
      if |otp| != 6 {
        errorMessage := CodeLengthMessage;
        showError := true;
        return;
      }
      isVerifying := true;
      var payload := VerifyPayload(otp, navState);
      request := Some(payload);
      match reply {
        case Success(res) =>
          var token := TokenOf(res);
          if Truthy(token) {
            storage.SetItem(TokenKey, Str(ToStr(token)));
          }
          verified := true;
          nav := Some(Replace("/dashboard"));
        case Failure(err) =>
          errorMessage := Api.FailureText(err, VerifyFailedMessage);
          showError := true;
      }
      isVerifying := false;
    }

    /** The toast's `onDidDismiss`. */
    method DismissError()
      modifies this`showError
      ensures !showError
    {
      showError := false;
    }
  }
}
