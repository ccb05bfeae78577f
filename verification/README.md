# Wine catalog ingestion, modelled in Dafny

This project models the core of the catalog-ingestion scripts of a wine and
spirits marketplace. The scripts turn scraped listing texts or generated
records into `WineData` records, and store them as product rows under a
seller. The modules follow the scripts:

- `Options`: `Option` and `Result`.
- `Text`: the JavaScript string operations the scripts rely on (ASCII
  `toLowerCase`, `includes`, `split`/`join`, `trim`, `\s` whitespace).
- `Numbers`: `parseFloat` on digit-and-point strings, `Number.prototype.toString`,
  `Math.round`, and JavaScript truthiness (`x || d`). It models a
  JavaScript number as `JsNum`, which is `NaN` or a real.
- `WineTypes`: the record types of `types/wine.ts`.
- `Helpers`: the text extractors of `utils/helpers.ts`.
- `Database`: the store side of `utils/database.ts`. The Supabase store is
  a value: a list of product rows and a list of seller rows. The store's
  answers are parameters: the reply to each insert, whether a lookup
  errored, and the fresh ids.
- `Generator`: the synthetic catalog generator of `scrapers/ai-data-generator.ts`.
  Every `Math.random()` call is a parameter of type `Draw`, which is a real
  in `[0, 1)`. The current year and the creation times are parameters too.
- `Scrape`: what both scrapers share. This covers the region and producer
  defaults, and the tally of extraction outcomes into `{attempted,
  successful, failed}`.
- `WineSearcher` and `Vivino`: the normalisation half of the two scrapers,
  from the texts of one listing or card to a record, and the counting loop
  over one search page. A fetched page is given as the list of its
  elements' texts, or as the error that stopped the fetch.

Behaviours of the scripts worth knowing, each stated as a lemma:

- `generateSlug` adds no uniqueness suffix, so equal inputs give equal
  slugs. It does not trim hyphens, so an empty producer gives a slug that
  starts with `-`.
- The wine-searcher and Vivino loops never count a failure. Each
  extraction catches its own errors and returns `null`, so `failed` stays
  0 and a skipped element is counted nowhere.
- `findOrCreateSeller` only logs a failed lookup and then creates a new
  seller, even when one with that licence number exists.
  `ensureDefaultSeller` uses a single-row lookup, so two existing default
  sellers make it create a third.
- The Vivino vintage is any positive number found in the vintage text. It
  is not checked to be a year.

## Model

| member | source | states |
|---|---|---|
| WineTypes.ParseType | scripts/scraper/src/types/wine.ts:4 | A `type` text names a kind exactly when it is one of "wine", "spirits", "beer", "sake" |
| WineTypes.TypeNamesRoundTrip | scripts/scraper/src/types/wine.ts:4 | Printing a kind and reading it back gives the kind, and the only text read as a kind is that kind's name |
| WineTypes.CriticScoresIndependent | scripts/scraper/src/types/wine.ts:18-20 | The three critic scores are independent optional fields: any combination can be set without touching the rest of a record |
| Numbers.ParseDecimal | scripts/scraper/src/utils/helpers.ts:16 | `parseFloat` of a digit-and-point string is NaN exactly when it does not start with a digit or a point followed by a digit, and is never negative |
| Numbers.ParseDecimalLiteral | scripts/scraper/src/utils/helpers.ts:16 | `parseFloat` reads `digits.digits` as that decimal value and stops at a second point |
| Numbers.ParseDigits | scripts/scraper/src/utils/helpers.ts:16 | `parseFloat` of a plain digit string is the integer those digits denote |
| Numbers.NatToString | scripts/scraper/src/scrapers/ai-data-generator.ts:80 | A natural number prints as a non-empty digit string with no leading zero that denotes the number |
| Numbers.IntToString | scripts/scraper/src/scrapers/ai-data-generator.ts:80 | An integer prints as its magnitude's digits, with a `-` in front when negative |
| Numbers.NumberToStringOfInt | scripts/scraper/src/utils/database.ts:250 | `vintage.toString()` of an integral vintage prints its integer digits |
| Numbers.RoundMonotone | scripts/scraper/src/scrapers/ai-data-generator.ts:221 | `Math.round` never decreases as its argument grows |
| Numbers.RoundClose | scripts/scraper/src/scrapers/ai-data-generator.ts:221 | `Math.round(x)` lies in `(x - 0.5, x + 0.5]` |
| Text.Lower | scripts/scraper/src/utils/helpers.ts:63 | `toLowerCase` keeps the length, maps each character and leaves no upper-case ASCII letter |
| Text.ContainsIff | scripts/scraper/src/utils/helpers.ts:65-68 | `includes` holds exactly when the term occurs at some position |
| Text.JoinSplit | scripts/scraper/src/utils/helpers.ts:96-98 | Joining the pieces of a split on the same character gives back the string |
| Text.TitleCaseChars | scripts/scraper/src/utils/helpers.ts:96-98 | Capitalising the space-separated words upper-cases exactly the first character and every character after a space, and keeps the length |
| Text.TitleCaseAtSpace | scripts/scraper/src/utils/helpers.ts:96-98 | Title case is the capitalised first word, a space, and the title case of the rest |
| Text.LowerTitleCase | scripts/scraper/src/utils/helpers.ts:96-98 | Lower-casing a title-cased text gives the lower-cased original |
| Text.Trim | scripts/scraper/src/utils/helpers.ts:28 | `trim` leaves no whitespace at either end, and is empty exactly when the input is all whitespace |
| Text.TrimKeepsNonSpace | scripts/scraper/src/utils/helpers.ts:28 | `trim` removes only whitespace |
| Text.CollapseSpaces | scripts/scraper/src/utils/helpers.ts:26 | `replace(/\s+/g, ' ')` leaves only single plain spaces and keeps every other character in order |
| Text.CollapseAppend | scripts/scraper/src/utils/helpers.ts:26 | Collapsing a text cut just after a visible character collapses each piece on its own, so no run straddles the cut |
| Text.CollapseRun | scripts/scraper/src/utils/helpers.ts:26 | A whitespace run of any length and kind, followed by a visible character or nothing, becomes exactly one space |
| Text.CollapseJoin | scripts/scraper/src/utils/helpers.ts:26 | A whitespace run between two visible characters becomes exactly one space, never none |
| Text.CollapseLast | scripts/scraper/src/utils/helpers.ts:26 | The collapsed text ends in whitespace exactly when the original does |
| Text.TrimJoin | scripts/scraper/src/utils/helpers.ts:28 | `trim` of two pieces joined by one inner space removes only the outer whitespace |
| Text.ReplaceNewlinesWithout | scripts/scraper/src/utils/helpers.ts:27 | `replace(/\n+/g, ' ')` changes nothing in a text without newlines |
| Helpers.ExtractNumber | scripts/scraper/src/utils/helpers.ts:14-17 | `extractNumber` is null exactly when the text has no digit or point |
| Helpers.ExtractNumberFirstRun | scripts/scraper/src/utils/helpers.ts:14-17 | `extractNumber` is `parseFloat` of the leftmost maximal run of digits and points, and is NaN exactly when that run does not start numerically |
| Helpers.ExtractYear | scripts/scraper/src/utils/helpers.ts:19-22 | `extractYear` is a year in 1900..2099, null exactly when no word-bounded `19dd` or `20dd` occurs |
| Helpers.ExtractYearLeftmost | scripts/scraper/src/utils/helpers.ts:19-22 | `extractYear` is the value of the leftmost word-bounded year |
| Helpers.CleanText | scripts/scraper/src/utils/helpers.ts:24-29 | `cleanText` keeps every visible character in order, with single spaces between them and none at either end |
| Helpers.CleanTextIsTrimmedCollapse | scripts/scraper/src/utils/helpers.ts:24-29 | The newline pass finds nothing to replace after the whitespace collapse, so `cleanText` is the trimmed collapse |
| Helpers.CleanTextJoin | scripts/scraper/src/utils/helpers.ts:24-29 | Between two visible characters, a whitespace run of any kind becomes exactly one space, and each side is cleaned on its own |
| Helpers.CleanTextKeepsSpace | scripts/scraper/src/utils/helpers.ts:24-29 | Spaces, a newline and a tab between two words (`"a \n\t b"`) clean to a single space (`"a b"`) |
| Helpers.CleanTextIdempotent | scripts/scraper/src/utils/helpers.ts:24-29 | Cleaning a cleaned text changes nothing |
| Helpers.CleanTextEmpty | scripts/scraper/src/utils/helpers.ts:24-29 | A text cleans to "" exactly when it has no visible character |
| Helpers.FirstQuantity | scripts/scraper/src/utils/helpers.ts:32-43 | The quantity pattern finds nothing exactly when no position holds a number followed by its unit |
| Helpers.FirstQuantityLeftmost | scripts/scraper/src/utils/helpers.ts:32-43 | A quantity pattern yields the number of its leftmost match |
| Helpers.ExtractAlcoholContent | scripts/scraper/src/utils/helpers.ts:31-34 | `extractAlcoholContent` is null exactly when no number is followed by `%`, and is otherwise the number of a match |
| Helpers.AlcoholLeftmost | scripts/scraper/src/utils/helpers.ts:31-34 | The alcohol content is the number of the leftmost `number %` match |
| Helpers.VolumeLiteralsSubsumed | scripts/scraper/src/utils/helpers.ts:36-54 | `extractVolumeML` is the first millilitre quantity, else the first litre quantity times 1000, else the named bottle size, else 750 |
| Helpers.VolumeOfLitres | scripts/scraper/src/utils/helpers.ts:43-46 | With no millilitre quantity, the volume is 1000 times the leftmost litre quantity |
| Helpers.MillilitreLiteralFound | scripts/scraper/src/utils/helpers.ts:37-51 | Any text holding `750ml` or `375ml` already matches the millilitre pattern, so those literal checks never decide |
| Helpers.MagnumLiteralFound | scripts/scraper/src/utils/helpers.ts:43-50 | Any text holding `1.5L` already matches the litre pattern |
| Helpers.ParsePrice | scripts/scraper/src/utils/helpers.ts:56-60 | `parsePrice` is null exactly when the kept digits and points do not start numerically, and is never negative |
| Helpers.PriceRoundTrip | scripts/scraper/src/utils/helpers.ts:56-60 | A printed price `$d.c` parses back to `d + c / 10^len(c)` |
| Helpers.PriceIgnoresOtherChars | scripts/scraper/src/utils/helpers.ts:57 | Deleting a character other than a digit or a point does not change the parsed price |
| Helpers.PriceSecondPoint | scripts/scraper/src/utils/helpers.ts:56-60 | `"1.2.3"` parses as 1.2 |
| Helpers.PriceWithThousandsComma | scripts/scraper/src/utils/helpers.ts:56-60 | `"$1,299.00"` parses as 1299: the thousands separator is deleted with the currency sign |
| Helpers.PriceAbsent | scripts/scraper/src/utils/helpers.ts:56-60 | A text without digits or points has no price |
| Helpers.KeepDecimalCharsAppend | scripts/scraper/src/utils/helpers.ts:57 | Deleting non-numeric characters works piecewise over a concatenation |
| Helpers.MentionsSpirits | scripts/scraper/src/utils/helpers.ts:65-68 | The spirits terms are exactly the ten the source checks |
| Helpers.MentionsBeer | scripts/scraper/src/utils/helpers.ts:72-73 | The beer terms are exactly the five the source checks |
| Helpers.MentionsSake | scripts/scraper/src/utils/helpers.ts:77 | The sake terms are exactly the three the source checks |
| Helpers.DetermineWineType | scripts/scraper/src/utils/helpers.ts:62-82 | The kind is spirits if a spirits term occurs in the lower-cased text, else beer if a beer term does, else sake if a sake term does, else wine, each in both directions |
| Helpers.SpiritsBeforeBeer | scripts/scraper/src/utils/helpers.ts:65-75 | A name and description that mention both a spirits term and a beer term are spirits |
| Helpers.ScotchStoutIsSpirits | scripts/scraper/src/utils/helpers.ts:65-75 | "Scotch Stout" names a spirit and a beer and is spirits |
| Helpers.SubstringMatchesInsideWords | scripts/scraper/src/utils/helpers.ts:65-68 | Terms match inside words: "Original" contains "gin" and is spirits |
| Helpers.WineByDefault | scripts/scraper/src/utils/helpers.ts:62-81 | "Merlot" mentions no term and is wine |
| Helpers.ExtractVarietal | scripts/scraper/src/utils/helpers.ts:84-103 | The varietal is "Red Wine" or the title case of a listed varietal that occurs in the text |
| Helpers.ExtractVarietalFirst | scripts/scraper/src/utils/helpers.ts:94-99 | The varietal is the title case of the first listed varietal that occurs, and it lower-cases back to the list entry |
| Helpers.ExtractVarietalDefault | scripts/scraper/src/utils/helpers.ts:102 | With no listed varietal in the text, the varietal is "Red Wine" |
| Helpers.VarietalListOrderWins | scripts/scraper/src/utils/helpers.ts:87-99 | List order decides, not position in the name: "Chardonnay Merlot" gives "Merlot" |
| Database.GenerateSlug | scripts/scraper/src/utils/database.ts:248-258 | A slug has at most 100 characters, only `a-z`, `0-9` and `-`, and never two hyphens in a row |
| Database.SlugKeepsLettersAndDigits | scripts/scraper/src/utils/database.ts:248-258 | The slug's letters and digits are a prefix of those of the lower-cased words, and all of them when the words fit in 100 characters |
| Database.HyphenateKeepsAlnum | scripts/scraper/src/utils/database.ts:255-256 | Deleting characters and hyphenating whitespace keeps every letter and digit and never lengthens the text |
| Database.SlugIgnoresDeletedChars | scripts/scraper/src/utils/database.ts:255 | A character whose lower case is not a letter, digit or whitespace makes no difference to the slug |
| Database.SlugZeroVintage | scripts/scraper/src/utils/database.ts:250 | A vintage of 0 is left out, as if there were none |
| Database.SlugYearVintage | scripts/scraper/src/utils/database.ts:249-254 | A non-zero vintage is appended as its integer digits after the producer and the name |
| Database.SlugLeadingHyphen | scripts/scraper/src/utils/database.ts:249-257 | With an empty producer the slug starts with a hyphen |
| Database.BuildRow | scripts/scraper/src/utils/database.ts:25-55 | A row belongs to the seller, has quantity 1, defaults a missing review count to 0 and carries the record's slug |
| Database.RowKeepsRecord | scripts/scraper/src/utils/database.ts:25-55 | A row carries every field of its record unchanged, except that missing review counts and lists get their defaults |
| Database.InsertWineData | scripts/scraper/src/utils/database.ts:19-75 | Every record is counted once as success or failure, successes are the accepted inserts, and the store gains exactly their rows in order |
| Database.AcceptedRowsMembership | scripts/scraper/src/utils/database.ts:57-67 | A record's row is stored exactly when its insert was accepted |
| Database.RowIdsFrom | scripts/scraper/src/utils/database.ts:26 | Every stored row has one of the fresh ids |
| Database.ThirdOfFiveRefused | scripts/scraper/src/utils/database.ts:61-71 | Five records with the third refused give 4 successes and 1 failure |
| Database.FindOrCreateSeller | scripts/scraper/src/utils/database.ts:77-114 | With a working lookup and exactly one row under the licence, that row's id comes back and the store is unchanged; with a failed lookup or any other number of rows (none, or several, which `.maybeSingle()` reports as an error), an insert error gives "Failed to create seller: " and its message, and otherwise the new unverified seller is appended and its id returned |
| Database.FindsExistingSeller | scripts/scraper/src/utils/database.ts:79-91 | With one seller for the licence number and a working lookup, its id comes back and nothing is written |
| Database.FindOrCreateIdempotent | scripts/scraper/src/utils/database.ts:77-114 | A second call after a creation finds the created seller and changes nothing |
| Database.LookupFailureDuplicates | scripts/scraper/src/utils/database.ts:85-95 | A failed lookup creates another seller with the same licence number |
| Database.EnsureDefaultSeller | scripts/scraper/src/utils/database.ts:205-246 | With a working lookup and exactly one seller named "AI Generated Marketplace", its id comes back and the store is unchanged; with a failed lookup or any other number of such rows, an insert error is rethrown unchanged, and otherwise the default seller is appended and its id returned |
| Database.DefaultSellerStable | scripts/scraper/src/utils/database.ts:205-241 | Once created, the default seller is found by the next call and nothing more is written |
| Database.DuplicateDefaultSellersGrow | scripts/scraper/src/utils/database.ts:208-219 | With two default sellers the single-row lookup fails and a third is created |
| Generator.RandomIndexCovers | scripts/scraper/src/scrapers/ai-data-generator.ts:176-178 | Every index of a list is drawn by some draw |
| Generator.RandomItem | scripts/scraper/src/scrapers/ai-data-generator.ts:176-178 | `getRandomItem` returns an element of the list |
| Generator.RandomInt | scripts/scraper/src/scrapers/ai-data-generator.ts:180-182 | `getRandomInt(min, max)` lies in `[min, max]` |
| Generator.RandomIntCovers | scripts/scraper/src/scrapers/ai-data-generator.ts:180-182 | Every integer of `[min, max]` is drawn by some draw |
| Generator.RandomFloatBounds | scripts/scraper/src/scrapers/ai-data-generator.ts:184-186 | `getRandomFloat` on bounds with one decimal stays within them and has one decimal |
| Generator.RandomVintage | scripts/scraper/src/scrapers/ai-data-generator.ts:188-191 | A vintage is 1 to 25 years before the current year |
| Generator.Lookup | scripts/scraper/src/scrapers/ai-data-generator.ts:73-75 | A keyed table lookup finds a value exactly when the key is present, and the value is that key's |
| Generator.SpiritKindsWellFormed | scripts/scraper/src/scrapers/ai-data-generator.ts:23-48 | Every spirit kind has regions and a non-empty age, type or grade list, and no empty region |
| Generator.JitterBounds | scripts/scraper/src/scrapers/ai-data-generator.ts:219-221 | The random variation keeps a price between its rounded 80% and 120% |
| Generator.WineBase | scripts/scraper/src/scrapers/ai-data-generator.ts:197-213 | A wine's base price before age is between 50 and 3000 |
| Generator.WinePriceBounds | scripts/scraper/src/scrapers/ai-data-generator.ts:193-222 | A wine's price is within 80%..120% of its base price plus 5 per year of age, and at least 40 |
| Generator.MargauxInBordeaux | scripts/scraper/src/scrapers/ai-data-generator.ts:199-210 | Château Margaux in Bordeaux starts at 200 times 5 |
| Generator.ScreamingEagleInNapa | scripts/scraper/src/scrapers/ai-data-generator.ts:203-213 | Screaming Eagle in Napa Valley starts at 150 times 3 |
| Generator.FirstAge | scripts/scraper/src/scrapers/ai-data-generator.ts:235-236 | The age pattern finds nothing exactly when no digits are followed by optional spaces and "Year" |
| Generator.FirstAgeAt | scripts/scraper/src/scrapers/ai-data-generator.ts:235-238 | The age is the number of the leftmost match |
| Generator.SpiritBase | scripts/scraper/src/scrapers/ai-data-generator.ts:224-244 | A spirit's base price is at least 60 |
| Generator.MacallanEighteenBase | scripts/scraper/src/scrapers/ai-data-generator.ts:224-244 | "The Macallan 18 Year" as Scotch Whisky starts at (100 + 15 × 18) × 2 = 740 |
| Generator.CognacXOBase | scripts/scraper/src/scrapers/ai-data-generator.ts:224-244 | A Cognac with no stated age and no premium brand starts at 150 |
| Generator.SpiritPrice | scripts/scraper/src/scrapers/ai-data-generator.ts:224-250 | A spirit's price is at least 48 |
| Generator.GeneratedAgeIsPriced | scripts/scraper/src/scrapers/ai-data-generator.ts:128-131 | The age put into a generated spirit name is the age the price rule reads back |
| Generator.Dashed | scripts/scraper/src/scrapers/ai-data-generator.ts:253 | Each character is lower-cased and kept when a letter or digit, otherwise replaced by `-` |
| Generator.ImageUrlShape | scripts/scraper/src/scrapers/ai-data-generator.ts:252-255 | The image path is the kind's folder, one character per producer and varietal character with a `-` between them, and `.jpg` |
| Generator.WineDescriptionMentions | scripts/scraper/src/scrapers/ai-data-generator.ts:257-265 | Every wine description mentions the varietal and the region |
| Generator.SpiritDescriptionMentions | scripts/scraper/src/scrapers/ai-data-generator.ts:267-275 | Every spirit description mentions the spirit kind |
| Generator.NoteFor | scripts/scraper/src/scrapers/ai-data-generator.ts:293 | Wine notes are looked up by exact varietal, absent exactly when the table lacks it |
| Generator.FirstContainedNote | scripts/scraper/src/scrapers/ai-data-generator.ts:295-300 | Spirit notes are those of the first table entry the varietal contains |
| Generator.CognacNotes | scripts/scraper/src/scrapers/ai-data-generator.ts:285-297 | Cognac gets the cognac note |
| Generator.CabernetFrancExactVersusContained | scripts/scraper/src/scrapers/ai-data-generator.ts:292-330 | "Cabernet Franc" gets the default tasting note but the Cabernet ageing rule |
| Generator.FoodPairings | scripts/scraper/src/scrapers/ai-data-generator.ts:304-313 | A varietal in the pairings table gets its three dishes, any other varietal the default three |
| Generator.ServingTemp | scripts/scraper/src/scrapers/ai-data-generator.ts:315-323 | 6-8 °C exactly for a varietal containing "Champagne" or equal to "Sauvignon Blanc"; otherwise 8-12 °C exactly for "Chardonnay" and "Pinot Grigio"; 16-18 °C for every other varietal |
| Generator.BlancDeBlancsServedWarm | scripts/scraper/src/scrapers/ai-data-generator.ts:315-322 | A Champagne-region "Blanc de Blancs" is served at red-wine temperature |
| Generator.AgingFollowsThreshold | scripts/scraper/src/scrapers/ai-data-generator.ts:325-340 | Past its varietal's threshold a wine is "drinking well now", within it a range of years, and without a threshold "Ready to drink" |
| Generator.AgingPast | scripts/scraper/src/scrapers/ai-data-generator.ts:329-337 | Older than the threshold reads "Drinking well now" |
| Generator.AgingWithin | scripts/scraper/src/scrapers/ai-data-generator.ts:329-337 | Up to the threshold reads as a range of years |
| Generator.AgingMonotone | scripts/scraper/src/scrapers/ai-data-generator.ts:325-340 | An older wine of a varietal that is drinking well is drinking well too |
| Generator.PickWine | scripts/scraper/src/scrapers/ai-data-generator.ts:72-77 | The varietal belongs to the region, the producer to the region's pool or the fallback, and the vintage is 1 to 25 years back |
| Generator.GenerateWineValid | scripts/scraper/src/scrapers/ai-data-generator.ts:68-109 | A generated wine is a 750 ml wine of a consistent region, varietal, producer and vintage, named after them, priced at least 40 with equal base and current price, 11.5% to 15.5% alcohol |
| Generator.GenerateWinePriced | scripts/scraper/src/scrapers/ai-data-generator.ts:87-104 | The current price is set to the base price, which is at least 40 |
| Generator.GenerateWinePicked | scripts/scraper/src/scrapers/ai-data-generator.ts:72-86 | The name is producer, varietal and vintage joined by spaces |
| Generator.BuildEach | scripts/scraper/src/scrapers/ai-data-generator.ts:71-106 | One record per iteration, in order |
| Generator.GenerateWines | scripts/scraper/src/scrapers/ai-data-generator.ts:68-109 | `generateWines(n)` returns n valid wines in order |
| Generator.SpiritNaming | scripts/scraper/src/scrapers/ai-data-generator.ts:120-140 | A spirit name starts with its producer |
| Generator.SpiritNamingLadder | scripts/scraper/src/scrapers/ai-data-generator.ts:128-140 | An age from the kind's list is appended as " N Year" to both name and varietal; a type is appended to the name and becomes the varietal; a grade is appended to the name and to the kind |
| Generator.PickSpirit | scripts/scraper/src/scrapers/ai-data-generator.ts:115-140 | The region belongs to the spirit kind, the producer to the kind's pool or the fallback, and the name starts with the producer |
| Generator.GenerateSpiritValid | scripts/scraper/src/scrapers/ai-data-generator.ts:111-168 | A generated spirit has no vintage, a region, a 700, 750 or 1000 ml bottle, 35% to 50% alcohol, and a price of at least 48 with equal base and current price |
| Generator.GenerateSpiritMeasured | scripts/scraper/src/scrapers/ai-data-generator.ts:149-150 | Alcohol and bottle size stay within their drawn ranges |
| Generator.GenerateSpirits | scripts/scraper/src/scrapers/ai-data-generator.ts:111-168 | `generateSpirits(n)` returns n valid spirits in order |
| Generator.GenerateLargeDataset | scripts/scraper/src/scrapers/ai-data-generator.ts:344-352 | The dataset is the generated wine of each wine block in order, followed by the generated spirit of each spirit block in order, each valid |
| Scrape.RegionOrUnknown | scripts/scraper/src/scrapers/wine-searcher.ts:95-116 | The region is never empty: the cleaned text, or "Unknown Region" when there is nothing visible |
| Scrape.FirstWordOfTrimmed | scripts/scraper/src/scrapers/wine-searcher.ts:108-109 | The producer of a trimmed name is its first space-separated word, non-empty and a prefix of the name |
| Scrape.Outcomes | scripts/scraper/src/scrapers/wine-searcher.ts:84-133 | Each element's extraction catches its own errors, so no element ends in an exception |
| Scrape.OutcomeRecords | scripts/scraper/src/scrapers/vivino.ts:59-70 | A search's records are exactly the records its elements extract to, and never more than the elements |
| Scrape.OutcomesPartition | scripts/scraper/src/scrapers/wine-searcher.ts:50-66 | Every element is extracted, skipped or failed, exactly one of them |
| Scrape.ExtractionsMembership | scripts/scraper/src/scrapers/wine-searcher.ts:52-56 | A record is returned exactly when some element extracted to it |
| Scrape.Tally | scripts/scraper/src/scrapers/wine-searcher.ts:50-66 | `successful` counts the returned records and `failed` the thrown extractions, and together they are at most the elements |
| WineSearcher.AbsoluteImage | scripts/scraper/src/scrapers/wine-searcher.ts:123 | An address that starts with "http" is kept, and any other gets "https:" in front |
| WineSearcher.SiteRelativeImage | scripts/scraper/src/scrapers/wine-searcher.ts:123 | A site-relative path "/img.jpg" becomes "https:/img.jpg", which names no host |
| WineSearcher.ExtractWineData | scripts/scraper/src/scrapers/wine-searcher.ts:84-134 | A listing is skipped exactly when its name has nothing visible; otherwise the name is cleaned, the price parsed or 45, the year from the vintage text else the name, the region never empty, the description "kind from region", and the image the `src`, else the `data-src`, made absolute, and absent when both are empty; the kind and varietal come from the name, alcohol is 13, the bottle 750 ml, and the source address is the search address with the encoded name |
| WineSearcher.ProducerIsFirstWord | scripts/scraper/src/scrapers/wine-searcher.ts:107-109 | The producer is the cleaned name's first word |
| WineSearcher.ScrapeSearch | scripts/scraper/src/scrapers/wine-searcher.ts:32-82 | On a fetched page, the first `maxPages * 10` elements are attempted and their extractions returned, with failures 0; a fetch error is reported with zero counts |
| WineSearcher.ScrapeWineDetails | scripts/scraper/src/scrapers/wine-searcher.ts:136-158 | Details exist exactly when the page loaded; the alcohol is the number found when it is present and neither 0 nor NaN, else 13; the notes are the cleaned notes text, present exactly when it is non-empty; the pairings are the texts found, present exactly when there is one |
| Vivino.PositiveNumber | scripts/scraper/src/scrapers/vivino.ts:117-137 | The number or `undefined` is present exactly when a non-zero number is found, and is then that number |
| Vivino.ReviewCount | scripts/scraper/src/scrapers/vivino.ts:119-138 | The review count is never negative, and is non-zero exactly when the label holds a non-zero number |
| Vivino.CardPrice | scripts/scraper/src/scrapers/vivino.ts:116 | The price is the parsed price, or 50 when that is missing or zero |
| Vivino.ExtractWineData | scripts/scraper/src/scrapers/vivino.ts:90-150 | A card is skipped exactly when its name has nothing visible; otherwise the name is cleaned, while the producer, kind and varietal are read from the merely trimmed name; price, vintage, rating, reviews, region, description and image follow the card's texts as stated |
| Vivino.ProducerOfUnspacedName | scripts/scraper/src/scrapers/vivino.ts:122-123 | A name without a space character is its own producer |
| Vivino.BlankRegionDescription | scripts/scraper/src/scrapers/vivino.ts:127-130 | A blank region gives region "Unknown Region" but description "Wine from " |
| Vivino.VintageOfDigits | scripts/scraper/src/scrapers/vivino.ts:118-131 | Any positive digit string in the vintage text becomes the vintage, year or not |
| Vivino.ScrapeSearch | scripts/scraper/src/scrapers/vivino.ts:34-88 | Every card counts as attempted, but only the first `maxPages * 20` are extracted; failures are 0; a fetch error is reported with zero counts |

## Left out

- Fetching, HTML parsing, the browser and the DOM are left out. A page is given as the texts its selectors pick, or as the error that stopped the fetch.
- Logging, `delay` and `getRandomUserAgent` are left out because they do not affect any result.
- `logStats` is left out because it only prints.
- The Supabase client setup is left out because it is I/O.
- `updatePriceHistory`, `getProductCount`, `getSampleProducts`, `clearAllProducts`, `clearAIGeneratedProducts` and `testConnection` are left out. They are store maintenance outside the ingestion path, each a single query with no logic of its own.
- The scraper entry point, the plain scraper, the storefront product listing, the admin routes and the database setup script are outside this core.
- `encodeURIComponent` is a parameter, because percent-encoding is a standard library routine.
- `uuidv4`, `Math.random()`, `new Date()` and the current year are parameters. The model uses one current year and one timestamp per call, where the source reads the clock again inside each price and ageing computation.
- `getRandomKey` is the same uniform choice as `getRandomItem`, applied to the table's keys in declaration order.
- Numbers are exact reals, not IEEE doubles. `0.8 + r * 0.4` and the tenths of `getRandomFloat` are exact, so rounding at a half-way point may differ from the double computation.
- Numbers.NumberToString: `toString` is modelled in positional notation only, for the numbers a slug meets. There is no exponent form at or above 10^21, and at most 20 fraction digits are printed.
- Text.Lower: `toLowerCase` maps ASCII letters only. Accented and other non-ASCII letters are left as they are, and the slug then deletes them.
- Helpers.ExtractVolumeML: the contract states only that the volume is non-negative. The case analysis is stated by Helpers.VolumeLiteralsSubsumed and Helpers.VolumeOfLitres.
- Generator.RandomItem requires a non-empty list. Every list the generator draws from is non-empty (Generator.SpiritKindsWellFormed and the producer pools), and the source returns `undefined` otherwise.
- The record-level `try`/`catch` of `insertWineData` is left out. Building a row cannot throw, so a thrown error is the same as a refused insert, which the reply list already covers.
- `ScrapingConfig` defaults other than `maxPages` are not modelled, since `delay` and `userAgent` only pace or disguise requests.
