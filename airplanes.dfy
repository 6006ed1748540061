/**
 * src/modules/airplanes.py: the list of all the account's aircraft, read
 * page by page from the aircraft page, one dictionary per table row.
 */
module Airplanes {
  import opened Results
  import opened Strings
  import opened Pages
  import opened Sessions
  import opened Paging
  import Common

  /** The dictionary `parse_airplane_row` builds for an aircraft row. */
  datatype Airplane = Airplane(
    id: int,
    name: string,
    model: string,
    modelImgUrl: string,
    url: string,
    hub: string,
    hubFlagAlt: string,
    hubFlagUrl: string,
    range: string,
    usage: string,
    wearing: string,
    age: string,
    capacity: string,
    resultLast7Days: string)

  /** The address of aircraft page `page`. */
  function AircraftPageUrl(page: int): string {
    BaseUrl + "/aircraft?page=" + IntToString(page)
  }

  /** The Referer of page `page`: the home page for the first, the page before it for the others. */
  function Referer(page: int): (r: string)
    ensures page <= 1 ==> r == BaseUrl + "/home/"
    ensures page > 1 ==> r == AircraftPageUrl(page - 1)
  {
    var endpoint := if page <= 1 then "home/" else "aircraft?page=" + IntToString(page - 1);
    assert BaseUrl + "/" + ("aircraft?page=" + IntToString(page - 1)) == BaseUrl + "/aircraft?page=" + IntToString(page - 1);
    BaseUrl + "/" + endpoint
  }

  /** The aircraft page request for `page`. */
  function AirplanesCall(page: int): (c: Call)
    ensures c.verb == Get && c.allowRedirects && c.payload.None?
    ensures c.url == AircraftPageUrl(page)
    ensures c.extraHeaders == Some(map["Referer" := Referer(page)])
  {
    Call(Get, AircraftPageUrl(page), Some(map["Referer" := Referer(page)]), None, true)
  }

  /** Each page after the first is requested as if followed from the page before it. */
  lemma RefererIsPreviousPage(page: int)
    requires page > 1
    ensures AirplanesCall(page).extraHeaders.value["Referer"] == AirplanesCall(page - 1).url
  {
  }

  /** Different pages are different requests. */
  lemma AirplanesCallInjective(p: int, q: int)
    requires AirplanesCall(p) == AirplanesCall(q)
    ensures p == q
  {
    var prefix := BaseUrl + "/aircraft?page=";
    assert AirplanesCall(p).url[|prefix|..] == IntToString(p);
    assert AirplanesCall(q).url[|prefix|..] == IntToString(q);
    IntToStringInjective(p, q);
  }

  /** `text[:3]`. */
  function Prefix3(text: string): (r: string)
    ensures |r| == if |text| < 3 then |text| else 3
    ensures r <= text
  {
    if |text| < 3 then text else text[..3]
  }

  /**
   * `parse_airplane_row`: None for a header row (the empty dictionary);
   * otherwise the aircraft, whose id is the integer after the last "/" of the
   * name span's `data-url` (ValueError when it is not one).
   */
  function ParseAirplaneRow(row: AircraftRow): (r: Result<Option<Airplane>>)
    ensures row.AircraftHeader? <==> r == Ok(None)
    ensures r.Err? <==> row.AircraftLine? && ParseInt(LastPart(row.dataUrl, '/')).None?
    ensures r.Err? ==> r.error == ValueError
  {
    match row
    case AircraftHeader => Ok(None)
    case AircraftLine(dataUrl, nameText, modelText, modelImage, hubText, hubFlagAlt, hubFlagSrc,
                      rangeText, usageText, wearingText, ageText, capacityText, resultText) =>
      var id := ParseInt(LastPart(dataUrl, '/'));
      if id.None? then Err(ValueError)
      else
        Ok(Some(Airplane(
          id.value,
          nameText,
          SanitizeText(Split(modelText, '/')[0]),
          modelImage,
          dataUrl,
          SanitizeText(Prefix3(hubText)),
          hubFlagAlt,
          hubFlagSrc,
          SanitizeText(rangeText),
          SanitizeText(usageText),
          SanitizeText(wearingText),
          SanitizeText(ageText),
          SanitizeText(capacityText),
          SanitizeText(resultText))))
  }

  /**
   * An aircraft row whose `data-url` ends in "/<id>", whose model cell reads
   * "<model>/<rest>" and whose hub cell starts with a three-letter code reads
   * back that id, that model and that code (sanitised), and keeps the link.
   */
  lemma AirplaneRowReadsAircraft(row: AircraftRow, path: string, id: int, model: string, rest: string, code: string, tail: string)
    requires row.AircraftLine?
    requires row.dataUrl == path + "/" + IntToString(id)
    requires row.modelText == model + "/" + rest && Free(model, '/')
    requires row.hubText == code + tail && |code| == 3
    ensures var r := ParseAirplaneRow(row);
            && r.Ok? && r.value.Some?
            && r.value.value.id == id
            && r.value.value.url == row.dataUrl
            && r.value.value.model == SanitizeText(model)
            && r.value.value.hub == SanitizeText(code)
  {
    IntToStringFree(id, '/');
    assert row.dataUrl == path + ['/'] + IntToString(id);
    LastPartAfterSeparator(path, IntToString(id), '/');
    SplitOfFree(IntToString(id), '/');
    ParseIntOfIntToString(id);
    assert row.modelText == model + ['/'] + rest;
    SplitAround(model, rest, '/');
    SplitOfFree(model, '/');
    assert Prefix3(row.hubText) == code;
  }

  /** The hub of a parsed aircraft is at most three characters long. */
  lemma HubIsShort(row: AircraftRow)
    requires ParseAirplaneRow(row).Ok? && ParseAirplaneRow(row).value.Some?
    ensures |ParseAirplaneRow(row).value.value.hub| <= 3
  {
    SanitizeTextPreserves(Prefix3(row.hubText));
  }

  /**
   * `get_page_airplanes`: the aircraft of one page and whether there is a
   * next one. A page without the `aircraftListViewTable` table raises
   * ReferenceError.
   */
  function AirplanesPage(o: Result<Response>): (r: Result<(seq<Airplane>, bool)>)
    ensures o.Err? ==> r == Err(o.error)
    ensures o.Ok? && !(o.value.page.AircraftList? && o.value.page.aircraft.Some?) ==> r == Err(ReferenceError)
    ensures o.Ok? && o.value.page.AircraftList? && o.value.page.aircraft.Some? ==>
              (r.Ok? <==> ParseAll(ParseAirplaneRow, o.value.page.aircraft.value).Ok? && o.value.page.pagination.Some?)
  {
    var resp :- o;
    if !resp.page.AircraftList? || resp.page.aircraft.None? then Err(ReferenceError)
    else
      var airplanes :- ParseAll(ParseAirplaneRow, resp.page.aircraft.value);
      var hasNext :- Common.HasNextPage(resp.page.pagination);
      Ok((airplanes, hasNext))
  }

  /**
   * `fetch_all_airplanes`: the aircraft of every page from page 1 on, saved
   * to CSV; at most `fuel` pages are requested.
   */
  function AllAirplanes(req: Requester, s: SessionState, fuel: nat): (res: (SessionState, Result<seq<Airplane>>))
    requires Records(req)
  {
    var (s', r) := Listing(req, AirplanesCall, AirplanesPage, s, 1, fuel);
    (s', Exported(r))
  }

  /**
   * The aircraft pages 1, 2, ... are requested in order; when the listing
   * succeeds, it holds the aircraft of all those pages in page order, the
   * last page announced no next page and every other page did.
   */
  lemma AllAirplanesReadsPages(req: Requester, s: SessionState, fuel: nat)
    requires Records(req)
    requires fuel > 0
    ensures var (s', r) := AllAirplanes(req, s, fuel);
            && PagesFrom(CallsSince(s, s'), AirplanesCall, 1)
            && ListingOutcome(AirplanesPage, ExchangesSince(s, s'), Listing(req, AirplanesCall, AirplanesPage, s, 1, fuel).1)
            && (r.Ok? ==> r.value == AllRows(AirplanesPage, ExchangesSince(s, s')) && |r.value| >= 1)
  {
    ListingCalls(req, AirplanesCall, AirplanesPage, s, 1, fuel);
    ListingReadsPages(req, AirplanesCall, AirplanesPage, s, 1, fuel);
  }

  /** `fetch_all_airplanes`, through the session manager. */
  method FetchAllAirplanes(sm: SessionManager, fuel: nat) returns (airplanes: Result<seq<Airplane>>)
    modifies sm
    ensures Records(RequesterOf(sm.world))
    ensures (sm.State(), airplanes) == AllAirplanes(RequesterOf(sm.world), old(sm.State()), fuel)
  {
    var listing := FetchListing(sm, AirplanesCall, AirplanesPage, fuel);
    airplanes := Exported(listing);
  }
}
