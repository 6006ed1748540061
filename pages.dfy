/**
 * The pages the game server answers with, as the bot's BeautifulSoup queries
 * see them. Each page keeps only what those queries extract: an element the
 * bot looks for is an `Option` (absent when `find` returns None), a text the
 * bot reads is a `string`, and a number read with `return_only_numbers` or
 * `strptime` is the number it yields. The selectors themselves are not part
 * of this model.
 */
module Pages {
  import opened Results
  import opened Json
  import CategorizedValues

  type CategorizedValue = CategorizedValues.CategorizedValue

  /** The `content` div of a line page: the texts of the airport boxes, the numbers and the title. */
  datatype LineDetails = LineDetails(
    originText: string,           // box1, fourth item, bold text
    destinationText: string,      // box2, fourth item, bold text
    distanceKm: Option<int>,      // box2, second item, through return_only_numbers
    taxes: Option<int>,           // box2, third item, through return_only_numbers
    title: Option<string>)        // the lineTitle div's text without its span; None when either is missing

  /** The `marketing_linePricing` div of a pricing page. */
  datatype LinePricing = LinePricing(
    demand: CategorizedValue,
    idealCost: CategorizedValue,
    turnover: CategorizedValue,
    currentCost: CategorizedValue,
    auditCostInput: Option<string>,   // the `value` of the internalAuditCost input, None when the input is missing
    lastAuditDate: Option<int>,       // the audit date cell through strptime; None when it does not parse
    reliability: Option<int>,         // the reliability class through return_only_numbers
    hasForm: bool,                    // a `form` element inside the div
    tokenInput: Option<string>)       // the `value` of the line__token input, None when the input is missing

  /** A row of the second table of the `displayPro` div on the network page. */
  datatype SummaryRow =
    | SummaryHeader                  // a row holding `th` cells
    | SummaryLine(
        href: string,                // the link of the seventh cell
        nameText: string,            // the text of the first cell
        flagAlt: string,
        flagSrc: string,
        distanceText: string,
        demandText: string,
        turnoverText: string,
        resultText: string)

  /** A row of the `aircraftListViewTable` table. */
  datatype AircraftRow =
    | AircraftHeader                 // a row holding `th` cells
    | AircraftLine(
        dataUrl: string,             // the `data-url` of the editAircraftName span
        nameText: string,            // the text of that span
        modelText: string,           // the text of the first cell
        modelImage: string,
        hubText: string,             // the text of the second cell
        hubFlagAlt: string,
        hubFlagSrc: string,
        rangeText: string,
        usageText: string,
        wearingText: string,
        ageText: string,
        capacityText: string,
        resultText: string)

  /** The title div of one bonus card: its image's `src` and its `.string`. */
  datatype BonusTitle = BonusTitle(imageSrc: Option<string>, text: Option<string>)

  /** One `showCards-card front-card` div; its title div may be missing. */
  datatype BonusCard = BonusCard(title: Option<BonusTitle>)

  /** The purchase button of a workshop item, with `return_only_numbers` of its text. */
  datatype PurchaseLink = PurchaseLink(price: Option<int>)

  /** One `object` div of the workshop rack: its purchase button and the `href` of its first link. */
  datatype WorkshopItem = WorkshopItem(purchaseLink: Option<PurchaseLink>, firstHref: Option<string>)

  datatype Page =
    | LoginForm(csrfToken: Option<string>)                                  // /login
    | Home(mainContent: bool, playWheel: bool)                              // /home
    | ShowLine(content: Option<LineDetails>)                                // /network/showline/<id>
    | Pricing(pricing: Option<LinePricing>)                                 // /marketing/pricing/<id>
    | NetworkList(lines: Option<seq<SummaryRow>>, pagination: Option<seq<string>>)
    | AircraftList(aircraft: Option<seq<AircraftRow>>, pagination: Option<seq<string>>)
    | CardHolder(hasTitle: bool, hasTimer: bool)                            // /shop/cardholder
    | CardModal(token: Option<string>, formId: Option<string>)              // /shop/buycards/...
    | BonusCards(container: Option<seq<BonusCard>>)                         // the card opening reply
    | Workshop(rack: Option<seq<WorkshopItem>>)                             // /shop/workshop
    | WheelReply(data: Value)                                               // the wheel's JSON reply
    | Other                                                                 // anything else

  /** What a request returns: the status code and the page. */
  datatype Response = Response(status: int, page: Page)

  /**
   * The spans of the `pagination` div that `class_='next'` matches. The
   * pagination is given as one entry per span: "next" stands for a span whose
   * class list contains `next`, any other text for a span whose list does not.
   */
  function NextSpans(classes: seq<string>): (r: seq<string>)
    ensures |r| <= |classes|
    ensures forall i :: 0 <= i < |r| ==> r[i] == "next"
  {
    if classes == [] then []
    else (if classes[0] == "next" then ["next"] else []) + NextSpans(classes[1..])
  }

  /** There is a "next" span exactly when one of the spans has that class. */
  lemma {:induction false} NextSpansNonEmpty(classes: seq<string>)
    ensures |NextSpans(classes)| > 0 <==> exists i :: 0 <= i < |classes| && classes[i] == "next"
  {
    if classes != [] {
      NextSpansNonEmpty(classes[1..]);
      if exists i :: 0 <= i < |classes[1..]| && classes[1..][i] == "next" {
        var i :| 0 <= i < |classes[1..]| && classes[1..][i] == "next";
        assert classes[i + 1] == "next";
      }
      if exists i :: 0 <= i < |classes| && classes[i] == "next" {
        var i :| 0 <= i < |classes| && classes[i] == "next";
        if i > 0 { assert classes[1..][i - 1] == "next"; }
      }
    }
  }
}
