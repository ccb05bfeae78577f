/** The normalisation half of the Vivino scraper (`scrapers/vivino.ts`): from
    the texts of one wine card to a catalog record, and the counting loop over
    a search page. Fetching and the DOM are inputs: a page is the list of its
    cards' texts, or the error that stopped the fetch. `encodeURIComponent`
    is a parameter. */
module Vivino {
  import opened Options
  import opened Text
  import opened Numbers
  import opened WineTypes
  import opened Helpers
  import opened Scrape

  /** The texts one wine card offers, each `""` when its element or attribute
      is missing: the name, price, rating, region and vintage elements' text,
      the stars element's `aria-label`, and the image's `src`. The page
      script trims the element texts but not the two attributes; the model
      takes them untrimmed and trims them itself. */
  datatype Card = Card(
    name: string, price: string, rating: string, reviews: string,
    image: string, region: string, vintage: string)

  const DefaultPrice: real := 50.0
  const DefaultAlcohol: real := 13.5
  /** `maxPages` when the configuration does not set it; twenty cards per page. */
  const DefaultMaxPages: nat := 5
  const SearchUrl: string := "https://www.vivino.com/search/wines?q="

  /** `extractNumber(text) || undefined`: the first number in the text when
      that is a non-zero number (never negative), absent otherwise. */
  function PositiveNumber(text: string): (r: Option<real>)
    ensures r.Some? <==> ExtractNumber(text).Some? && Truthy(ExtractNumber(text).value)
    ensures r.Some? ==> r.value == ExtractNumber(text).value.value && r.value > 0.0
  {
    OrUndefined(ExtractNumber(text))
  }

  /** `extractNumber(ariaLabel) || 0`: the review count is never negative, and it
      is non-zero exactly when the label holds a non-zero number, which it
      then is. */
  function ReviewCount(ariaLabel: string): (r: real)
    ensures r >= 0.0
    ensures r != 0.0 <==> ExtractNumber(ariaLabel).Some? && Truthy(ExtractNumber(ariaLabel).value)
    ensures r != 0.0 ==> r == ExtractNumber(ariaLabel).value.value
  {
    OrElse(ExtractNumber(ariaLabel), 0.0)
  }

  /** `parsePrice(text) || 50`: always positive; the parsed price unless that
      is missing or zero. */
  function CardPrice(text: string): (r: real)
    ensures r > 0.0
    ensures ParsePrice(text).Some? && ParsePrice(text).value != 0.0 ==> r == ParsePrice(text).value
    ensures ParsePrice(text).None? || ParsePrice(text).value == 0.0 ==> r == DefaultPrice
  {
    ValueOr(ParsePrice(text), DefaultPrice)
  }

  /** `extractWineData`: `None` is the `null` returned for a card whose name
      has no visible character. Otherwise the name is cleaned, but the
      producer, the kind and the varietal are read from the merely trimmed
      name; the producer is its first space-separated word,
      and is never empty; the region is cleaned, or "Unknown Region" when
      blank, while the description is built from the trimmed region text,
      blank or not; the image address is the `src` as it is, absent when
      empty. The numeric fields are the ones described above. */
  function ExtractWineData(c: Card, encode: string -> string, now: Instant): (r: Option<WineData>)
    ensures r.None? <==> forall i :: 0 <= i < |c.name| ==> IsSpace(c.name[i])
    ensures r.Some? ==> var w := r.value;
      && w.name == CleanText(Trim(c.name)) && w.name != ""
      && w.producer != "" && ' ' !in w.producer && StartsWith(Trim(c.name), w.producer)
      && w.sourceUrl == Some(SearchUrl + encode(Trim(c.name)))
      && w.kind == DetermineWineType(Trim(c.name), "")
      && w.varietal == ExtractVarietal(Trim(c.name), "")
    ensures r.Some? ==> var w := r.value;
      && w.basePrice == w.currentPrice == CardPrice(Trim(c.price))
      && w.vintage == PositiveNumber(Trim(c.vintage))
      && w.averageRating == PositiveNumber(Trim(c.rating))
      && w.totalReviews == Some(ReviewCount(c.reviews))
      && w.alcoholContent == DefaultAlcohol && w.volumeMl == 750.0
    ensures r.Some? ==> var w := r.value;
      && w.description == Some("Wine from " + Trim(c.region))
      && w.region != ""
      && (Trim(c.region) == "" ==> w.region == UnknownRegion)
      && (Trim(c.region) != "" ==> w.region == CleanText(Trim(c.region)))
      && (w.primaryImageUrl.Some? <==> c.image != "")
      && (w.primaryImageUrl.Some? ==> w.primaryImageUrl.value == c.image)
  {
    var name := Trim(c.name);
    if name == "" then None
    else
      FirstWordOfTrimmed(name);
      var region := Trim(c.region);
      assert region != "" ==> NonSpace(region) == [region[0]] + NonSpace(region[1..]);
      var price := CardPrice(Trim(c.price));
      var kind := DetermineWineType(name, "");
      Some(WineData(
        CleanText(name), Some("Wine from " + region), kind, ExtractVarietal(name, ""),
        RegionOrUnknown(region), None, PositiveNumber(Trim(c.vintage)),
        Producer(name), DefaultAlcohol, 750.0, price, price,
        PositiveNumber(Trim(c.rating)), Some(ReviewCount(c.reviews)),
        None, None, None, if c.image == "" then None else Some(c.image), None, None, None, None, None,
        Some(SearchUrl + encode(name)), now))
  }

  /** The producer is cut at spaces only, before the name is cleaned: a
      trimmed name without a space character (words separated by tabs or
      newlines, say) is taken whole as the producer. */
  lemma ProducerOfUnspacedName(c: Card, encode: string -> string, now: Instant)
    requires ExtractWineData(c, encode, now).Some?
    requires ' ' !in Trim(c.name)
    ensures ExtractWineData(c, encode, now).value.producer == Trim(c.name)
  {
    var name := Trim(c.name);
    assert IndexOf(name, ' ') == |name|;
  }

  /** A card without a region text gets "Unknown Region" as its region but
      "Wine from " as its description: the two fields disagree. */
  lemma BlankRegionDescription(c: Card, encode: string -> string, now: Instant)
    requires ExtractWineData(c, encode, now).Some?
    requires forall i :: 0 <= i < |c.region| ==> IsSpace(c.region[i])
    ensures ExtractWineData(c, encode, now).value.description == Some("Wine from ")
    ensures ExtractWineData(c, encode, now).value.region == UnknownRegion
  {
    var w := ExtractWineData(c, encode, now).value;
    var region := Trim(c.region);
    assert region == "";
    EmptySuffix("Wine from ", region);
  }

  /** Appending an empty text changes nothing. */
  lemma EmptySuffix(s: string, t: string)
    requires t == ""
    ensures s + t == s
  {
  }

  /** `extractNumber` of a plain digit string is its value. */
  lemma ExtractDigits(ds: string)
    requires |ds| > 0 && AllDigits(ds)
    ensures ExtractNumber(ds) == Some(Num(DigitsValue(ds) as real))
  {
    FirstDecimalCharIs(ds, 0, 0);
    DecimalRunIs(ds, 0, |ds|);
    ParseDigits(ds);
    assert ds[0..|ds|] == ds;
  }

  lemma PositiveDigits(ds: string)
    requires |ds| > 0 && AllDigits(ds) && DigitsValue(ds) > 0
    ensures PositiveNumber(ds) == Some(DigitsValue(ds) as real)
  {
    ExtractDigits(ds);
  }

  /** The vintage is not checked against a year range: any positive number
      of digits in the vintage text (12, or 1850) becomes the vintage. */
  lemma VintageOfDigits(c: Card, encode: string -> string, now: Instant, ds: string)
    requires ExtractWineData(c, encode, now).Some?
    requires |ds| > 0 && AllDigits(ds) && DigitsValue(ds) > 0
    requires Trim(c.vintage) == ds
    ensures ExtractWineData(c, encode, now).value.vintage == Some(DigitsValue(ds) as real)
  {
    PositiveDigits(ds);
  }

  /** `extractWineData` as the per-element step of the search loop. */
  function Extractor(encode: string -> string, now: Instant): Card -> Option<WineData> {
    x => ExtractWineData(x, encode, now)
  }

  /** `scrapeSearch(query)`, with `maxPages` the configured value or
      `DefaultMaxPages`: every card on the page counts as attempted, but
      only the first `maxPages * 20` are extracted; a failed fetch reports
      its message with zero counts. */
  method ScrapeSearch(page: Result<seq<Card>>, maxPages: nat, encode: string -> string, now: Instant)
    returns (r: ScrapingResult)
    ensures r.success <==> page.Ok?
    ensures page.Err? ==> r == ScrapingResult(false, None, Some(page.message), Some(ScrapeStats(0, 0, 0)))
    ensures page.Ok? ==>
      var processed := page.value[..Min(|page.value|, maxPages * 20)];
      && r.data == Some(Extractions(Outcomes(processed, Extractor(encode, now))))
      && r.stats == Some(ScrapeStats(|page.value|, |r.data.value|, 0))
      && r.stats.value.successful + r.stats.value.failed <= |processed| <= r.stats.value.attempted
      && r.error.None?
  {
    if page.Err? {
      return ScrapingResult(false, None, Some(page.message), Some(ScrapeStats(0, 0, 0)));
    }
    var processed := page.value[..Min(|page.value|, maxPages * 20)];
    var outcomes := Outcomes(processed, Extractor(encode, now));
    var wines, successful, failed := Tally(outcomes);
    NoThrowNoFailure(outcomes);
    r := ScrapingResult(true, Some(wines), None, Some(ScrapeStats(|page.value|, successful, failed)));
  }
}
