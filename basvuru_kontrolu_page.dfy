/** The application-status lookup form of src/pages/BasvuruKontroluPage.tsx.
    Its ID validator and its validation ladder are textually the same as the
    login form's, so the model reuses LoginPage.ValidateTcKimlik and
    LoginPage.FirstError. */
module BasvuruKontroluPage {
  import opened Wrappers
  import opened JsValues
  import LoginPage

  /** A lookup result (`BasvuruSonuc`). */
  datatype BasvuruSonuc = BasvuruSonuc(
    durum: string,
    mesaj: string,
    basvuruTarihi: Option<string>,
    sonGuncelleme: Option<string>,
    aciklama: Option<string>)

  /** The fixed result the handler's mock lookup produces. */
  const MockSonuc := BasvuruSonuc(
    "onaylandi",
    "Başvurunuz onaylanmıştır.",
    Some("15.11.2025"),
    Some("16.11.2025"),
    Some("Kartınız hazırlanmaktadır. En kısa sürede tarafınıza ulaştırılacaktır."))

  const LookupFailedMessage := "Sorgulama sırasında bir hata oluştu."

  /** The three statuses the page knows by name. */
  predicate IsKnownDurum(durum: string) {
    durum == "onaylandi" || durum == "beklemede" || durum == "reddedildi"
  }

  /** `getDurumClass`: the badge's CSS class. */
  function DurumClass(durum: string): (r: string)
    ensures durum == "onaylandi" ==> r == "status-approved"
    ensures durum == "beklemede" ==> r == "status-pending"
    ensures durum == "reddedildi" ==> r == "status-rejected"
    ensures r == "status-notfound" <==> !IsKnownDurum(durum)
    ensures r in {"status-approved", "status-pending", "status-rejected", "status-notfound"}
  {
    match durum
    case "onaylandi" => "status-approved"
    case "beklemede" => "status-pending"
    case "reddedildi" => "status-rejected"
    case _ => "status-notfound"
  }

  /** `getDurumText`: the badge's label; total, with 'Bulunamadı' as the default. */
  function DurumText(durum: string): (r: string)
    ensures durum == "onaylandi" ==> r == "Onaylandı"
    ensures durum == "beklemede" ==> r == "Beklemede"
    ensures durum == "reddedildi" ==> r == "Reddedildi"
    ensures r == "Bulunamadı" <==> !IsKnownDurum(durum)
    ensures r in {"Onaylandı", "Beklemede", "Reddedildi", "Bulunamadı"}
  {
    match durum
    case "onaylandi" => "Onaylandı"
    case "beklemede" => "Beklemede"
    case "reddedildi" => "Reddedildi"
    case _ => "Bulunamadı"
  }

  /** The badge's class and label always describe the same status: two
      statuses get the same class exactly when they get the same label. */
  lemma BadgeClassAndTextAgree(d1: string, d2: string)
    ensures DurumClass(d1) == DurumClass(d2) <==> DurumText(d1) == DurumText(d2)
  {
  }

  /** The page's state. */
  class BasvuruForm {
    var tcKimlik: string
    var telefon: string
    var loading: bool
    var sonuc: Option<BasvuruSonuc>
    var showError: bool
    var errorMessage: string

    constructor ()
      ensures tcKimlik == "" && telefon == "" && !loading && sonuc.None?
      ensures !showError && errorMessage == ""
    {
      tcKimlik, telefon, loading, sonuc := "", "", false, None;
      showError, errorMessage := false, "";
    }

    /** `onIonInput` of the ID field: a missing value reads as ''. */
    method TcInput(value: Option<string>)
      modifies this`tcKimlik
      ensures tcKimlik == DigitsOnly(value.GetOr(""))
    {
      tcKimlik := match value case Some(v) => DigitsOnly(v) case None => "";
    }

    /** `onIonInput` of the phone field. */
    method PhoneInput(value: Option<string>)
      modifies this`telefon
      ensures telefon == DigitsOnly(value.GetOr(""))
    {
      telefon := match value case Some(v) => DigitsOnly(v) case None => "";
    }

    /** The synchronous part of `handleSubmit`, up to the `await`: the same
        ladder and messages as the login form; on failure the loading flag
        and the previous result are untouched; on success the previous result
        is cleared and the loading flag raised before the lookup starts. */
    method Submit() returns (started: bool)
      modifies this
      ensures tcKimlik == old(tcKimlik) && telefon == old(telefon)
      ensures started <==> LoginPage.FirstError(tcKimlik, telefon).None?
      ensures match LoginPage.FirstError(tcKimlik, telefon)
              case Some(e) =>
                && showError && errorMessage == LoginPage.ErrorMessage(e)
                && loading == old(loading) && sonuc == old(sonuc)
              case None =>
                && loading && sonuc.None?
                && showError == old(showError) && errorMessage == old(errorMessage)
    {
      if tcKimlik == "" || telefon == "" {
        errorMessage := LoginPage.ErrorMessage(LoginPage.FieldsMissing);
        showError := true;
        return false;
      }
      if |tcKimlik| != 11 {
        errorMessage := LoginPage.ErrorMessage(LoginPage.TcLength);
        showError := true;
        return false;
      }
      if !LoginPage.ValidateTcKimlik(tcKimlik) {
        errorMessage := LoginPage.ErrorMessage(LoginPage.TcInvalid);
        showError := true;
        return false;
      }
      if |telefon| != 10 {
        errorMessage := LoginPage.ErrorMessage(LoginPage.PhoneLength);
        showError := true;
        return false;
      }
      loading := true;
      sonuc := None;
      started := true;
    }

    /** The part of `handleSubmit` after the `await`: the mock result is shown,
        or, if the wait rejected, the error toast; in both cases the loading
        flag is lowered by the `finally`. */
    method CompleteLookup(failed: bool)
      modifies this
      ensures !loading
      ensures tcKimlik == old(tcKimlik) && telefon == old(telefon)
      ensures !failed ==> sonuc == Some(MockSonuc) && showError == old(showError) && errorMessage == old(errorMessage)
      ensures failed ==> sonuc == old(sonuc) && showError && errorMessage == LookupFailedMessage
    {
      if !failed {
        sonuc := Some(MockSonuc);
      } else {
        errorMessage := LookupFailedMessage;
        showError := true;
      }
      loading := false;
    }
  
    /** The toast's `onDidDismiss`. */
    method DismissError()
      modifies this`showError
      ensures !showError
    {
      showError := false;
    }
  }
}
