/** The OTP session store of src/services/otpContext.ts: one persisted
    context slot (`localStorage['OTP_CONTEXT']`), one in-memory OTP code
    (`currentOtp`), and the builder of the request body that OTP-protected
    endpoints expect. */
module OtpContext {
  import opened Wrappers
  import opened JsValues
  import opened BrowserStorage

  /** `OtpContext`: identity references, phone, and the server's OTP cipher. */
  datatype OtpContext = OtpContext(
    id: Option<int>,
    patientId: Option<int>,
    tcIdentityNo: Option<string>,
    identityNo: Option<string>,
    phoneNumber: string,
    otpCipher: string)

  /** What a storage key holds: plain text, or a serialised context. The
      serialisation itself is not modelled: a context saved is a context read
      back, and text under the context key stands for anything that does not
      parse to a context (including the empty string). */
  datatype Item = Str(s: string) | Ctx(ctx: OtpContext)

  const StorageKey := "OTP_CONTEXT"

  /** `loadOtpContext` over the storage contents: null when nothing is
      stored or the stored text does not parse. */
  function LoadFrom(items: map<string, Item>): (r: Option<OtpContext>)
    ensures r.Some? <==> StorageKey in items && items[StorageKey].Ctx?
    ensures r.Some? ==> items[StorageKey] == Ctx(r.value)
  {
    if StorageKey in items && items[StorageKey].Ctx? then Some(items[StorageKey].ctx) else None
  }

  datatype PayloadError = ContextMissing | OtpMissing

  function PayloadErrorMessage(e: PayloadError): string {
    match e
    case ContextMissing => "OTP context missing"
    case OtpMissing => "OTP missing"
  }

  /** A number property enters the payload only when truthy: absent and 0 are left out. */
  predicate IsTruthyNumber(n: Option<int>) {
    n.Some? && n.value != 0
  }

  /** The keys the base payload has before the caller's fields are merged. */
  function BaseKeys(ctx: OtpContext): set<string> {
    {"tc_identity_no", "identity_no", "phone_number", "otp_cipher", "otp"}
    + (if IsTruthyNumber(ctx.id) then {"id"} else {})
    + (if IsTruthyNumber(ctx.patientId) then {"patient_id"} else {})
  }

  /** `buildProtectedPayload`: fails first on a missing context, then on a
      missing or empty code; otherwise the identity fields, phone, cipher and
      code of the session, `id`/`patient_id` when truthy, and the caller's
      fields on top, the caller winning on every key they share. */
  function BuildProtectedPayload(ctx: Option<OtpContext>, currentOtp: Option<string>,
                                 body: Option<map<string, Json>>): (r: Result<map<string, Json>, PayloadError>)
    ensures ctx.None? ==> r == Failure(ContextMissing)
    ensures ctx.Some? && (currentOtp.None? || currentOtp.value == "") ==> r == Failure(OtpMissing)
    ensures r.Success? <==> ctx.Some? && currentOtp.Some? && currentOtp.value != ""
    ensures r.Success? ==>
      var p, b, c := r.value, body.GetOr(map[]), ctx.value;
      && p.Keys == BaseKeys(c) + b.Keys
      && (forall k :: k in b ==> p[k] == b[k])
      && ("tc_identity_no" !in b ==> p["tc_identity_no"] == OptStr(c.tcIdentityNo))
      && ("identity_no" !in b ==> p["identity_no"] == OptStr(c.identityNo))
      && ("phone_number" !in b ==> p["phone_number"] == JStr(c.phoneNumber))
      && ("otp_cipher" !in b ==> p["otp_cipher"] == JStr(c.otpCipher))
      && ("otp" !in b ==> p["otp"] == JStr(currentOtp.value))
      && (IsTruthyNumber(c.id) && "id" !in b ==> p["id"] == JNum(c.id.value))
      && (IsTruthyNumber(c.patientId) && "patient_id" !in b ==> p["patient_id"] == JNum(c.patientId.value))
  {
    if ctx.None? then Failure(ContextMissing)
    else if currentOtp.None? || currentOtp.value == "" then Failure(OtpMissing)
    else
      var c := ctx.value;
      var basePayload := map[
        "tc_identity_no" := OptStr(c.tcIdentityNo),
        "identity_no" := OptStr(c.identityNo),
        "phone_number" := JStr(c.phoneNumber),
        "otp_cipher" := JStr(c.otpCipher),
        "otp" := JStr(currentOtp.value)];
      var withId := if IsTruthyNumber(c.id) then basePayload["id" := JNum(c.id.value)] else basePayload;
      var payload := if IsTruthyNumber(c.patientId) then withId["patient_id" := JNum(c.patientId.value)] else withId;
      Success(payload + body.GetOr(map[]))
  }

  /** The module's state: the shared storage and the in-memory code. */
  class OtpSession {
    const storage: LocalStorage<Item>
    var currentOtp: Option<string>

    /** Module load: `let currentOtp = null`. */
    constructor (storage: LocalStorage<Item>)
      ensures this.storage == storage && currentOtp.None?
    {
      this.storage := storage;
      currentOtp := None;
    }

    /** `loadOtpContext()`. */
    function Load(): (r: Option<OtpContext>)
      reads storage
      ensures r.Some? <==> StorageKey in storage.items && storage.items[StorageKey].Ctx?
      ensures r.Some? ==> storage.items[StorageKey] == Ctx(r.value)
    {
      LoadFrom(storage.items)
    }

    /** `saveOtpContext(ctx)`: overwrites the slot; a storage failure is
        swallowed and leaves storage as it was. */
    method Save(ctx: OtpContext, writeFails: bool)
      modifies storage
      ensures storage.items == if writeFails then old(storage.items) else old(storage.items)[StorageKey := Ctx(ctx)]
      ensures !writeFails ==> Load() == Some(ctx)
    {
      if !writeFails {
        storage.SetItem(StorageKey, Ctx(ctx));
      }
    }

    /** `clearOtpContext()`: removes the slot; the `finally` clears the code
        even when the removal throws, and the exception then propagates. */
    method Clear(removeFails: bool) returns (threw: bool)
      modifies this, storage
      ensures currentOtp.None?
      ensures threw == removeFails
      ensures storage.items == if removeFails then old(storage.items) else old(storage.items) - {StorageKey}
      ensures !removeFails ==> Load().None?
    {
      if !removeFails {
        storage.RemoveItem(StorageKey);
      }
      currentOtp := None;
      threw := removeFails;
    }

    method SetCurrentOtp(otp: string)
      modifies this
      ensures currentOtp == Some(otp)
    {
      currentOtp := Some(otp);
    }

    function GetCurrentOtp(): Option<string>
      reads this
    {
      currentOtp
    }

    /** `buildProtectedPayload(body)` on the current state. */
    function BuildPayload(body: Option<map<string, Json>>): (r: Result<map<string, Json>, PayloadError>)
      reads this, storage
      ensures Load().None? ==> r == Failure(ContextMissing)
      ensures r.Success? <==> Load().Some? && currentOtp.Some? && currentOtp.value != ""
      ensures r.Success? && "otp" !in body.GetOr(map[]) ==> "otp" in r.value && r.value["otp"] == JStr(currentOtp.value)
    {
      BuildProtectedPayload(Load(), currentOtp, body)
    }
  }

  /** A session whose context was just saved and whose code was set builds a
      payload carrying exactly that context and code. */
  method SaveThenBuild(s: OtpSession, ctx: OtpContext, otp: string) returns (p: Result<map<string, Json>, PayloadError>)
    requires otp != ""
    modifies s, s.storage
    ensures p.Success? && p.value.Keys == BaseKeys(ctx)
    ensures p.value["phone_number"] == JStr(ctx.phoneNumber) && p.value["otp_cipher"] == JStr(ctx.otpCipher)
    ensures p.value["otp"] == JStr(otp)
  {
    s.Save(ctx, false);
    s.SetCurrentOtp(otp);
    p := s.BuildPayload(None);
  }
}
