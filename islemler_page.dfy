/** The transaction list of src/pages/IslemlerPage.tsx: a window over the
    data that grows by five items per infinite-scroll event, and the card
    click that opens a transaction. The data set is a parameter (the page
    uses a fixed mock list), and the load delays are not modelled. */
module IslemlerPage {
  import opened Wrappers
  import opened JsValues
  import opened History
  import OtpContext
  import App

  /** `Islem`. */
  datatype Islem = Islem(id: int, tarih: string, tur: string, hastane: string, doktor: string,
                         tutar: string, durum: string, detay: string)

  /** The transaction as the navigation state carries it. */
  function IslemJson(i: Islem): Json {
    JObject(map[
      "id" := JNum(i.id), "tarih" := JStr(i.tarih), "tur" := JStr(i.tur),
      "hastane" := JStr(i.hastane), "doktor" := JStr(i.doktor), "tutar" := JStr(i.tutar),
      "durum" := JStr(i.durum), "detay" := JStr(i.detay)])
  }

  const PageSize := 5

  /** The badge text on a card. */
  function StatusLabel(durum: string): (r: string)
    ensures r == "Tamamlandı" <==> durum == "tamamlandi"
    ensures r in {"Tamamlandı", "Beklemede"}
  {
    if durum == "tamamlandi" then "Tamamlandı" else "Beklemede"
  }

  /** `/islemler/${islem.id}`. */
  function DetailPath(i: Islem): (p: string)
    ensures |p| > |"/islemler/"| && p[..|"/islemler/"|] == "/islemler/"
    ensures i.id >= 0 ==> AllDigits(p[|"/islemler/"|..]) && DecimalValue(p[|"/islemler/"|..]) == i.id
  {
    var p := "/islemler/" + IntToDecimal(i.id);
    assert p[|"/islemler/"|..] == IntToDecimal(i.id);
    p
  }

  /** The window `data.slice(0, count)` is a prefix of the data, no longer
      than `count`; it is the whole data exactly when the count reaches the
      data's length, which is when the infinite scroll is disabled. */
  lemma WindowIsPrefix<T>(data: seq<T>, count: nat)
    ensures var w := Slice0(data, count);
      && w == data[..|w|]
      && |w| == (if count < |data| then count else |data|)
      && (w == data <==> count >= |data|)
  {
  }

  /** Growing the count only extends the window. */
  lemma WindowGrows<T>(data: seq<T>, count: nat, more: nat)
    ensures var w := Slice0(data, count); var w' := Slice0(data, count + more);
      |w| <= |w'| && w == w'[..|w|]
  {
  }

  class IslemlerList {
    const data: seq<Islem>
    var islemler: seq<Islem>
    var displayCount: nat
    var isLoading: bool

    /** What the page shows is a prefix of the data. */
    predicate Valid()
      reads this
    {
      |islemler| <= |data| && islemler == data[..|islemler|]
    }

    constructor (data: seq<Islem>)
      ensures this.data == data && islemler == [] && displayCount == PageSize && isLoading
      ensures Valid()
    {
      this.data := data;
      islemler := [];
      displayCount := PageSize;
      isLoading := true;
    }

    /** The mount effect's first load. */
    method InitialLoad()
      modifies this`islemler, this`isLoading
      ensures islemler == Slice0(data, displayCount) && !isLoading
      ensures |islemler| == if displayCount < |data| then displayCount else |data|
      ensures Valid()
    {
      islemler := Slice0(data, displayCount);
      isLoading := false;
    }

    /** `loadMoreData`: five more items. */
    method LoadMore()
      modifies this`displayCount, this`islemler
      ensures displayCount == old(displayCount) + PageSize
      ensures islemler == Slice0(data, displayCount)
      ensures Valid()
      ensures old(islemler) == Slice0(data, old(displayCount)) ==> |old(islemler)| <= |islemler| && old(islemler) == islemler[..|old(islemler)|]
    {
      var newCount := displayCount + PageSize;
      displayCount := newCount;
      islemler := Slice0(data, newCount);
      WindowGrows(data, old(displayCount), PageSize);
    }

    /** The infinite scroll's `disabled` attribute. */
    function ScrollDisabled(): (r: bool)
      reads this
      ensures r <==> Slice0(data, displayCount) == data
    {
      WindowIsPrefix(data, displayCount);
      displayCount >= |data|
    }

    /** `handleCardClick`: pushes the detail path with the item as state. */
    method HandleCardClick(islem: Islem) returns (nav: HistoryOp)
      ensures nav == Push(DetailPath(islem), map["islem" := IslemJson(islem)])
      ensures App.Route(true, Some(OtpContext.Str("true")), nav.path) == App.IslemDetayScreen(IntToDecimal(islem.id))
    {
      nav := Push(DetailPath(islem), map["islem" := IslemJson(islem)]);
      App.DetailPathRoutes(islem.id);
    }
  }
}
