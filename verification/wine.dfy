/** The catalog record every part of the ingestion script produces or
    consumes, and the result a scrape returns. */
module WineTypes {
  import opened Options

  /** The four product kinds a record can have. */
  datatype WineType = Wine | Spirits | Beer | Sake

  /** The text stored in the `type` column. */
  function TypeName(t: WineType): string {
    match t
    case Wine => "wine"
    case Spirits => "spirits"
    case Beer => "beer"
    case Sake => "sake"
  }

  /** The kind named by a `type` text, if it names one. */
  function ParseType(s: string): (r: Option<WineType>)
    ensures r.Some? <==> s in {"wine", "spirits", "beer", "sake"}
  {
    if s == "wine" then Some(Wine)
    else if s == "spirits" then Some(Spirits)
    else if s == "beer" then Some(Beer)
    else if s == "sake" then Some(Sake)
    else None
  }

  /** The `type` texts are exactly the four names, one per kind. */
  lemma TypeNamesRoundTrip(t: WineType, s: string)
    ensures ParseType(TypeName(t)) == Some(t)
    ensures ParseType(s) == Some(t) ==> TypeName(t) == s
  {
  }

  /** A point in time, in milliseconds since the epoch (`new Date()`). */
  type Instant = int

  /** One catalog item. Fields the source declares optional are `Option`s;
      every JavaScript number is an exact `real`. */
  datatype WineData = WineData(
    name: string,
    description: Option<string>,
    kind: WineType,
    varietal: string,
    region: string,
    appellation: Option<string>,
    vintage: Option<real>,
    producer: string,
    alcoholContent: real,
    volumeMl: real,
    basePrice: real,
    currentPrice: real,
    averageRating: Option<real>,
    totalReviews: Option<real>,
    wineSpectatorScore: Option<real>,
    robertParkerScore: Option<real>,
    jamesSucklingScore: Option<real>,
    primaryImageUrl: Option<string>,
    imageUrls: Option<seq<string>>,
    tastingNotes: Option<string>,
    foodPairings: Option<seq<string>>,
    servingTemperature: Option<string>,
    agingPotential: Option<string>,
    sourceUrl: Option<string>,
    scrapedAt: Instant)

  /** The three critic scores are separate optional fields: any combination of
      present and absent scores can be put on any record, without touching the
      rest of it. */
  lemma CriticScoresIndependent(w: WineData, spectator: Option<real>, parker: Option<real>, suckling: Option<real>)
    ensures exists v: WineData ::
      && v.wineSpectatorScore == spectator
      && v.robertParkerScore == parker
      && v.jamesSucklingScore == suckling
      && v.(wineSpectatorScore := w.wineSpectatorScore, robertParkerScore := w.robertParkerScore,
            jamesSucklingScore := w.jamesSucklingScore) == w
  {
    var v := w.(wineSpectatorScore := spectator, robertParkerScore := parker, jamesSucklingScore := suckling);
    assert v.(wineSpectatorScore := w.wineSpectatorScore, robertParkerScore := w.robertParkerScore,
              jamesSucklingScore := w.jamesSucklingScore) == w;
  }

  /** The counters a scrape reports. */
  datatype ScrapeStats = ScrapeStats(attempted: nat, successful: nat, failed: nat)

  /** What a scrape returns: the records found, or the error that stopped it. */
  datatype ScrapingResult = ScrapingResult(
    success: bool,
    data: Option<seq<WineData>>,
    error: Option<string>,
    stats: Option<ScrapeStats>)
}
