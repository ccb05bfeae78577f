/** The normalisation half of the Wine-Searcher scraper
    (`scrapers/wine-searcher.ts`): from the texts found in one search-result
    element to a catalog record, the counting loop over a result page, and
    the defaults of the detail-page reader. Fetching and HTML parsing are
    inputs: a page is the list of its elements' texts, or the error that
    stopped the fetch. `encodeURIComponent` is a parameter. */
module WineSearcher {
  import opened Options
  import opened Text
  import opened Numbers
  import opened WineTypes
  import opened Helpers
  import opened Scrape

  /** The texts one result element offers: the first name, price, region and
      vintage elements' text (empty when missing), and the image's `src` and
      `data-src` attributes. */
  datatype Listing = Listing(
    name: string, price: string, region: string, vintage: string,
    src: Option<string>, dataSrc: Option<string>)

  const DefaultPrice: real := 45.0
  /** `maxPages` when the configuration does not set it; ten elements per page. */
  const DefaultMaxPages: nat := 3
  const SearchUrl: string := "https://www.wine-searcher.com/find/"

  /** A present, non-empty attribute. */
  predicate Given(a: Option<string>) {
    a.Some? && a.value != ""
  }

  /** `attr('src') || attr('data-src')`, then `undefined` when that is empty. */
  function ImageSource(src: Option<string>, dataSrc: Option<string>): Option<string> {
    if Given(src) then src else if Given(dataSrc) then dataSrc else None
  }

  /** An address that starts with "http" is kept; any other, protocol-relative
      or site-relative, gets `https:` put in front. */
  function AbsoluteImage(url: string): (r: string)
    ensures StartsWith(r, "http")
    ensures StartsWith(url, "http") ==> r == url
    ensures !StartsWith(url, "http") ==> r == "https:" + url
  {
    if StartsWith(url, "http") then url
    else
      assert ("https:" + url)[..4] == "http";
      "https:" + url
  }

  /** A site-relative path becomes "https:/img.jpg", which names no host. */
  lemma SiteRelativeImage()
    ensures AbsoluteImage("/img.jpg") == "https:/img.jpg"
  {
    assert "/img.jpg"[0] != "http"[0];
  }

  /** `extractWineData`: `None` is the `null` returned for an element whose
      cleaned name is empty. Otherwise:
      - the price is the parsed one unless that is missing or zero, then 45;
        base and current price agree;
      - the vintage is the year in the vintage text, else the year in the
        name, else absent;
      - the region is the cleaned one, or "Unknown Region" when that is
        empty, and the description is the kind followed by " from " and the
        region;
      - the image address is `src` when non-empty, else `data-src` when
        non-empty, made absolute, and absent when both are empty;
      - the kind and varietal are read from the name alone, alcohol is 13.0,
        the bottle is 750 ml, and the source address is the search address
        with the encoded name. */
  function ExtractWineData(l: Listing, encode: string -> string, now: Instant): (r: Option<WineData>)
    ensures r.None? <==> NonSpace(l.name) == ""
    ensures r.Some? ==> var w := r.value;
      && w.name == CleanText(l.name)
      && w.basePrice == w.currentPrice
      && w.basePrice == (match ParsePrice(l.price)
                         case Some(p) => if p == 0.0 then DefaultPrice else p
                         case None => DefaultPrice)
    ensures r.Some? ==> var w := r.value;
      && (ExtractYear(l.vintage).Some? ==> w.vintage == Some(ExtractYear(l.vintage).value as real))
      && (ExtractYear(l.vintage).None? ==>
            w.vintage == (if ExtractYear(w.name).Some? then Some(ExtractYear(w.name).value as real) else None))
    ensures r.Some? ==> var w := r.value;
      && w.region != ""
      && (NonSpace(l.region) == "" ==> w.region == UnknownRegion)
      && (NonSpace(l.region) != "" ==> w.region == CleanText(l.region))
      && w.description == Some(TypeName(w.kind) + " from " + w.region)
    ensures r.Some? ==> var w := r.value;
      && (w.primaryImageUrl.Some? <==> Given(l.src) || Given(l.dataSrc))
      && (w.primaryImageUrl.Some? ==> StartsWith(w.primaryImageUrl.value, "http"))
      && (Given(l.src) && StartsWith(l.src.value, "http") ==> w.primaryImageUrl == l.src)
      && w.primaryImageUrl == (if Given(l.src) then Some(AbsoluteImage(l.src.value))
                               else if Given(l.dataSrc) then Some(AbsoluteImage(l.dataSrc.value))
                               else None)
    ensures r.Some? ==> var w := r.value;
      && w.kind == DetermineWineType(w.name, "")
      && w.varietal == ExtractVarietal(w.name, "")
      && w.alcoholContent == 13.0 && w.volumeMl == 750.0
      && w.sourceUrl == Some(SearchUrl + encode(w.name))
  {
    CleanTextEmpty(l.name);
    var name := CleanText(l.name);
    if name == "" then None
    else
      var price := ValueOr(ParsePrice(l.price), DefaultPrice);
      var vintage := match ExtractYear(l.vintage)
                     case Some(y) => Some(y)
                     case None => ExtractYear(name);
      var region := RegionOrUnknown(l.region);
      var kind := DetermineWineType(name, "");
      var image := ImageSource(l.src, l.dataSrc);
      Some(WineData(
        name, Some(TypeName(kind) + " from " + region), kind, ExtractVarietal(name, ""), region, None,
        if vintage.Some? then Some(vintage.value as real) else None,
        Producer(name), 13.0, 750.0, price, price, None, None, None, None, None,
        if image.Some? then Some(AbsoluteImage(image.value)) else None, None, None, None, None, None,
        Some(SearchUrl + encode(name)), now))
  }

  /** The producer is the first word of the non-empty cleaned name, which is
      never empty, so "Unknown Producer" never appears. */
  lemma ProducerIsFirstWord(l: Listing, encode: string -> string, now: Instant)
    requires ExtractWineData(l, encode, now).Some?
    ensures var w := ExtractWineData(l, encode, now).value;
      && w.producer == FirstWord(w.name) && w.producer != ""
      && ' ' !in w.producer && StartsWith(w.name, w.producer)
  {
    var name := ExtractWineData(l, encode, now).value.name;
    FirstWordOfTrimmed(name);
  }

  /** `extractWineData` as the per-element step of the search loop. */
  function Extractor(encode: string -> string, now: Instant): Listing -> Option<WineData> {
    x => ExtractWineData(x, encode, now)
  }

  /** `scrapeSearch(query)`, with `maxPages` the configured value or
      `DefaultMaxPages`: at most `maxPages * 10` elements are looked at,
      all of them are counted as attempted, and a failed fetch reports its
      message with zero counts. */
  method ScrapeSearch(page: Result<seq<Listing>>, maxPages: nat, encode: string -> string, now: Instant)
    returns (r: ScrapingResult)
    ensures r.success <==> page.Ok?
    ensures page.Err? ==> r == ScrapingResult(false, None, Some(page.message), Some(ScrapeStats(0, 0, 0)))
    ensures page.Ok? ==>
      var elements := page.value[..Min(|page.value|, maxPages * 10)];
      && r.data == Some(Extractions(Outcomes(elements, Extractor(encode, now))))
      && r.stats == Some(ScrapeStats(|elements|, |r.data.value|, 0))
      && r.error.None?
  {
    if page.Err? {
      return ScrapingResult(false, None, Some(page.message), Some(ScrapeStats(0, 0, 0)));
    }
    var elements := page.value[..Min(|page.value|, maxPages * 10)];
    var outcomes := Outcomes(elements, Extractor(encode, now));
    var wines, successful, failed := Tally(outcomes);
    NoThrowNoFailure(outcomes);
    r := ScrapingResult(true, Some(wines), None, Some(ScrapeStats(|elements|, successful, failed)));
  }

  /** The fields `scrapeWineDetails` fills in. */
  datatype WineDetails = WineDetails(tastingNotes: Option<string>, alcoholContent: real,
                                     foodPairings: Option<seq<string>>)

  /** The texts a detail page offers: the first tasting-notes element's text,
      the first alcohol element's text, and every pairing element's text. */
  datatype DetailPage = DetailPage(tastingNotes: string, alcohol: string, pairings: seq<string>)

  /** `scrapeWineDetails(url)`: `None` when the fetch fails. Notes are
      cleaned when present; alcohol is the number found unless that is
      missing, zero or NaN, then 13.0; an empty pairing list is left out. */
  function ScrapeWineDetails(page: Option<DetailPage>): (r: Option<WineDetails>)
    ensures r.Some? <==> page.Some?
    ensures r.Some? ==> var d, p := r.value, page.value;
      && d.alcoholContent == (if ExtractNumber(p.alcohol).Some? && Truthy(ExtractNumber(p.alcohol).value)
                              then ExtractNumber(p.alcohol).value.value else 13.0)
      && d.alcoholContent != 0.0
    ensures r.Some? ==> var d, p := r.value, page.value;
      && (d.foodPairings.Some? <==> |p.pairings| > 0)
      && (d.foodPairings.Some? ==> d.foodPairings.value == p.pairings)
      && (d.tastingNotes.Some? <==> p.tastingNotes != "")
      && (d.tastingNotes.Some? ==> d.tastingNotes.value == CleanText(p.tastingNotes))
  {
    match page
    case None => None
    case Some(p) =>
      Some(WineDetails(
        if p.tastingNotes != "" then Some(CleanText(p.tastingNotes)) else None,
        OrElse(ExtractNumber(p.alcohol), 13.0),
        if |p.pairings| > 0 then Some(p.pairings) else None))
  }
}
