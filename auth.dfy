/** Session teardown of src/services/auth.ts: wiping the persisted storage
    and the best-effort server logout around it. */
module Auth {
  import opened Wrappers
  import opened JsValues
  import opened BrowserStorage
  import opened OtpContext
  import Api

  /** `clearSession()`: wipes every key; a storage failure is swallowed and
      leaves storage as it was. */
  method ClearSession(storage: LocalStorage<Item>, clearFails: bool)
    modifies storage
    ensures storage.items == if clearFails then old(storage.items) else map[]
  {
    if !clearFails {
      storage.Clear();
    }
  }

  /** `logout(redirect)`: posts to the logout endpoint with the answers `net`
      gives, ignores whatever comes back, clears the session in `finally`
      and then sends the browser to `/login` when `redirect` holds. The
      result is the location assigned, if any; no error reaches the caller. */
  method Logout(storage: LocalStorage<Item>, redirect: bool, net: nat -> Api.Reply, clearFails: bool)
    returns (location: Option<string>)
    modifies storage
    ensures storage.items == if clearFails then old(storage.items) else map[]
    ensures location == if redirect then Some("/login") else None
  {
    var config := new Api.RequestConfig(None);
    var _, _ := Api.Request(config, net);
    ClearSession(storage, clearFails);
    location := if redirect then Some("/login") else None;
  }

  /** `clearSession` touches storage only: the in-memory code survives a
      logout, yet every protected payload built afterwards fails for want of
      a context. */
  method LogoutThenBuild(session: OtpSession, net: nat -> Api.Reply, body: Option<map<string, Json>>)
    returns (p: Result<map<string, Json>, PayloadError>)
    modifies session.storage
    ensures session.currentOtp == old(session.currentOtp)
    ensures p == Failure(ContextMissing)
  {
    var _ := Logout(session.storage, true, net, false);
    p := session.BuildPayload(body);
  }

  /** Whatever code is held, an empty store yields "OTP context missing". */
  lemma EmptyStorageHasNoContext(otp: Option<string>, body: Option<map<string, Json>>)
    ensures BuildProtectedPayload(LoadFrom(map[]), otp, body) == Failure(ContextMissing)
    ensures PayloadErrorMessage(ContextMissing) == "OTP context missing"
  {
  }
}
