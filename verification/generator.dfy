/** The rule-based generator of synthetic catalog records
    (`scrapers/ai-data-generator.ts`). Every `Math.random()` call is a draw
    `r` with `0 <= r < 1` taken from an explicit sequence, in the order the
    source makes the calls; the current year and the record timestamps are
    parameters as well. */
module Generator {
  import opened Options
  import opened Text
  import opened Numbers
  import opened WineTypes

  // ---------------------------------------------------------------------------
  // Random choices
  // ---------------------------------------------------------------------------

  /** A value `Math.random()` can return. */
  type Draw = r: real | 0.0 <= r < 1.0

  /** `Math.floor(r * n)`: the position `getRandomItem` and `getRandomKey` pick. */
  function RandomIndex(r: Draw, n: nat): (i: nat)
    requires n > 0
    ensures i < n
  {
    assert r * n as real < n as real by {
      assert (1.0 - r) * n as real > 0.0;
    }
    (r * n as real).Floor
  }

  /** Every position can be picked: the draw `i / n` picks position `i`. */
  lemma RandomIndexCovers(i: nat, n: nat)
    requires i < n
    ensures 0.0 <= i as real / n as real < 1.0
    ensures RandomIndex(i as real / n as real, n) == i
  {
    var r := i as real / n as real;
    assert r * n as real == i as real;
  }

  /** A product of non-negative reals is non-negative. */
  lemma MulNonNeg(x: real, y: real)
    requires x >= 0.0 && y >= 0.0
    ensures x * y >= 0.0
  {
  }

  /** A draw scales the width of `[a, b]` to at most itself. */
  lemma ScaleBelow(r: Draw, a: real, b: real)
    requires a <= b
    ensures 0.0 <= r * (b - a) <= b - a
  {
    MulNonNeg(r, b - a);
    MulNonNeg(1.0 - r, b - a);
  }

  /** `getRandomItem(xs)` for a non-empty list. */
  function RandomItem<T>(xs: seq<T>, r: Draw): (x: T)
    requires |xs| > 0
    ensures x in xs
  {
    xs[RandomIndex(r, |xs|)]
  }

  /** `getRandomInt(min, max)`: `Math.floor(r * (max - min + 1)) + min`. */
  function RandomInt(min: int, max: int, r: Draw): (n: int)
    ensures min <= max ==> min <= n <= max
  {
    if min <= max then RandomIndex(r, max - min + 1) + min
    else (r * (max - min + 1) as real).Floor + min
  }

  /** Every integer of the range is reachable. */
  lemma RandomIntCovers(min: int, max: int, k: int)
    requires min <= k <= max
    ensures var r := (k - min) as real / (max - min + 1) as real;
      0.0 <= r < 1.0 && RandomInt(min, max, r) == k
  {
    RandomIndexCovers(k - min, max - min + 1);
  }

  /** `getRandomFloat(min, max)`: a value of `[min, max)` rounded to one
      decimal place. */
  function RandomFloat(min: real, max: real, r: Draw): (x: real)
  {
    Round((r * (max - min) + min) * 10.0) as real / 10.0
  }

  /** With bounds of one decimal place, `lo / 10` and `hi / 10`, the result
      stays within them and has one decimal place itself. */
  lemma RandomFloatBounds(lo: int, hi: int, r: Draw)
    requires lo <= hi
    ensures var x := RandomFloat(lo as real / 10.0, hi as real / 10.0, r);
      lo as real / 10.0 <= x <= hi as real / 10.0 && IsInteger(x * 10.0)
  {
    var min, max := lo as real / 10.0, hi as real / 10.0;
    var x := r * (max - min) + min;
    ScaleBelow(r, min, max);
    assert min <= x <= max;
    assert lo as real <= x * 10.0 <= hi as real;
    RoundMonotone(lo as real, x * 10.0);
    RoundMonotone(x * 10.0, hi as real);
    RoundOfInteger(lo);
    RoundOfInteger(hi);
    var n := Round(x * 10.0);
    assert lo <= n <= hi;
    assert RandomFloat(min, max, r) == n as real / 10.0;
    TenthBetween(n, lo, hi);
  }

  lemma RoundOfInteger(k: int)
    ensures Round(k as real) == k
  {
  }

  lemma TenthBetween(n: int, lo: int, hi: int)
    requires lo <= n <= hi
    ensures lo as real / 10.0 <= n as real / 10.0 <= hi as real / 10.0
    ensures IsInteger(n as real / 10.0 * 10.0)
  {
    assert n as real / 10.0 * 10.0 == n as real;
  }

  /** `getRandomVintage()`: between 1 and 25 years before `year`. */
  function RandomVintage(year: int, r: Draw): (v: int)
    ensures year - 25 <= v <= year - 1
  {
    year - RandomInt(1, 25, r)
  }

  // ---------------------------------------------------------------------------
  // Tables
  // ---------------------------------------------------------------------------

  /** The mis-encoded "Château" exactly as the source tables spell it. */
  const Chateau: string := "Ch\U{221A}\U{00A2}teau"
  /** The mis-encoded degree sign of the serving temperatures. */
  const Degrees: string := "\U{00AC}\U{221E}C"

  /** Wine regions and their varietals, in key order. */
  const WineRegions: seq<(string, seq<string>)> := [
    ("Bordeaux, France", ["Cabernet Sauvignon", "Merlot", "Cabernet Franc", "Petit Verdot"]),
    ("Burgundy, France", ["Pinot Noir", "Chardonnay"]),
    ("Champagne, France", ["Champagne", "Blanc de Blancs", "Blanc de Noirs"]),
    ("Tuscany, Italy", ["Sangiovese", "Chianti", "Brunello di Montalcino"]),
    ("Piedmont, Italy", ["Nebbiolo", "Barolo", "Barbaresco"]),
    ("Napa Valley, California", ["Cabernet Sauvignon", "Chardonnay", "Merlot"]),
    ("Sonoma County, California", ["Pinot Noir", "Zinfandel", "Chardonnay"]),
    ("Willamette Valley, Oregon", ["Pinot Noir", "Pinot Gris"]),
    ("Rioja, Spain", ["Tempranillo", "Garnacha"]),
    ("Douro, Portugal", ["Port", "Touriga Nacional"]),
    ("Barossa Valley, Australia", ["Shiraz", "Grenache"]),
    ("Marlborough, New Zealand", ["Sauvignon Blanc", "Pinot Noir"]),
    ("Mosel, Germany", ["Riesling", "Gew\U{221A}\U{00BA}rztraminer"])]

  /** Producers for the regions that have them. */
  const WineProducers: seq<(string, seq<string>)> := [
    ("Bordeaux, France", [Chateau + " Margaux", Chateau + " Lafite Rothschild", Chateau + " Latour",
                          Chateau + " Haut-Brion", Chateau + " Mouton Rothschild",
                          Chateau + " Pichon Baron", Chateau + " Lynch-Bages"]),
    ("Burgundy, France", ["Domaine de la Roman\U{221A}\U{00A9}e-Conti", "Domaine Leroy",
                          "Domaine Armand Rousseau", "Domaine Georges Roumier", "Domaine Coche-Dury"]),
    ("Champagne, France", ["Dom P\U{221A}\U{00A9}rignon", "Krug", "Louis Roederer", "Bollinger", "Pol Roger"]),
    ("Tuscany, Italy", ["Antinori", "Ornellaia", "Sassicaia", "Solaia", "Tignanello"]),
    ("Napa Valley, California", ["Screaming Eagle", "Harlan Estate", "Opus One", "Caymus", "Silver Oak"]),
    ("Sonoma County, California", ["Williams Selyem", "Rochioli", "Kosta Browne"])]

  /** The producers of a region without its own list. */
  const FallbackWineProducers: seq<string> := ["Estate Winery", "Domaine Vineyard", Chateau + " Estate"]

  /** What a spirit's name and varietal are extended with. */
  datatype Ladder = Ages(ages: seq<nat>) | Types(types: seq<string>) | Grades(grades: seq<string>)

  datatype SpiritKind = SpiritKind(name: string, regions: seq<string>, ladder: Ladder)

  /** Spirit types, in key order. */
  const SpiritKinds: seq<SpiritKind> := [
    SpiritKind("Scotch Whisky", ["Speyside", "Highlands", "Islay", "Lowlands", "Campbeltown"],
               Ages([12, 15, 18, 21, 25, 30])),
    SpiritKind("Irish Whiskey", ["Dublin", "Cork", "Antrim"], Ages([12, 15, 18, 21])),
    SpiritKind("American Whiskey", ["Kentucky", "Tennessee", "Indiana"],
               Types(["Bourbon", "Rye", "Single Malt"])),
    SpiritKind("Cognac", ["Grande Champagne", "Petite Champagne", "Borderies"],
               Grades(["VS", "VSOP", "XO", "XXO"])),
    SpiritKind("Rum", ["Jamaica", "Barbados", "Cuba", "Guatemala"], Ages([8, 12, 15, 18, 21])),
    SpiritKind("Tequila", ["Jalisco", "Nayarit", "Guanajuato"],
               Types(["Blanco", "Reposado", "A\U{221A}\U{00B1}ejo", "Extra A\U{221A}\U{00B1}ejo"]))]

  const SpiritProducers: seq<(string, seq<string>)> := [
    ("Scotch Whisky", ["Macallan", "Glenfiddich", "Balvenie", "Ardbeg", "Lagavulin", "Glenlivet", "Highland Park"]),
    ("Irish Whiskey", ["Redbreast", "Green Spot", "Jameson", "Tullamore Dew"]),
    ("American Whiskey", ["Pappy Van Winkle", "Buffalo Trace", "Maker's Mark", "Woodford Reserve"]),
    ("Cognac", ["Hennessy", "R\U{221A}\U{00A9}my Martin", "Martell", "Courvoisier"]),
    ("Rum", ["Mount Gay", "Appleton Estate", "Zacapa", "Diplomatico"]),
    ("Tequila", ["Herradura", "Patr\U{221A}\U{2265}n", "Don Julio", "Casa Noble"])]

  const FallbackSpiritProducers: seq<string> := ["Artisan Distillery", "Heritage Spirits", "Premium Distillers"]

  /** The list stored under `key`, if any: `table[key]`. */
  function Lookup(table: seq<(string, seq<string>)>, key: string): (r: Option<seq<string>>)
    ensures r.Some? <==> exists i :: 0 <= i < |table| && table[i].0 == key
    ensures r.Some? ==> exists i :: 0 <= i < |table| && table[i] == (key, r.value)
  {
    if |table| == 0 then None
    else if table[0].0 == key then Some(table[0].1)
    else
      var r := Lookup(table[1..], key);
      assert forall i :: 0 < i < |table| ==> table[i] == table[1..][i - 1];
      r
  }

  predicate NonEmptyLists(table: seq<(string, seq<string>)>) {
    forall i :: 0 <= i < |table| ==> |table[i].1| > 0
  }

  /** The producers a wine of `region` is drawn from: `wineProducers[region] || fallback`. */
  function WineProducerPool(region: string): (pool: seq<string>)
    ensures |pool| > 0
  {
    assert NonEmptyLists(WineProducers);
    Lookup(WineProducers, region).GetOr(FallbackWineProducers)
  }

  function SpiritProducerPool(kind: string): (pool: seq<string>)
    ensures |pool| > 0
  {
    assert NonEmptyLists(SpiritProducers);
    Lookup(SpiritProducers, kind).GetOr(FallbackSpiritProducers)
  }

  /** Every spirit type has regions and a non-empty ladder, so each spirit
      takes the same ten draws. */
  predicate WellFormedKind(k: SpiritKind) {
    && |k.regions| > 0
    && match k.ladder
       case Ages(xs) => |xs| > 0
       case Types(xs) => |xs| > 0
       case Grades(xs) => |xs| > 0
  }

  lemma SpiritKindsWellFormed()
    ensures forall i :: 0 <= i < |SpiritKinds| ==> WellFormedKind(SpiritKinds[i])
    ensures forall i, j :: 0 <= i < |SpiritKinds| && 0 <= j < |SpiritKinds[i].regions| ==>
      SpiritKinds[i].regions[j] != ""
  {
  }

  // ---------------------------------------------------------------------------
  // Prices
  // ---------------------------------------------------------------------------

  /** `basePrice *= (0.8 + r * 0.4)` then `Math.round`. */
  function Jitter(price: int, r: Draw): int
  {
    Round(price as real * (0.8 + r * 0.4))
  }

  /** The random factor keeps a non-negative price between 80% and 120% of
      itself, rounded. */
  lemma JitterBounds(price: int, r: Draw)
    requires price >= 0
    ensures Round(price as real * 0.8) <= Jitter(price, r) <= Round(price as real * 1.2)
    ensures Jitter(price, r) >= 0
  {
    var p := price as real;
    assert p * (0.8 + r * 0.4) == p * 0.8 + p * r * 0.4;
    MulNonNeg(p, r);
    MulNonNeg(p, 1.0 - r);
    RoundMonotone(p * 0.8, p * (0.8 + r * 0.4));
    RoundMonotone(p * (0.8 + r * 0.4), p * 1.2);
    RoundMonotone(0.0, p * 0.8);
    assert Round(0.0) == 0;
  }

  /** The base of a wine's price before aging and jitter: 200 for Bordeaux
      and Burgundy, 150 for Napa Valley (checked second, so it wins when both
      occur), else 50; times 5 for Château Margaux or DRC, and times 3 for
      Screaming Eagle or Harlan. */
  function WineBase(region: string, producer: string): (p: int)
    ensures 50 <= p <= 200 * 15
  {
    var tier := if Contains(region, "Napa Valley") then 150
                else if Contains(region, "Bordeaux") || Contains(region, "Burgundy") then 200
                else 50;
    var first := if Contains(producer, Chateau + " Margaux") || Contains(producer, "DRC") then tier * 5 else tier;
    if Contains(producer, "Screaming Eagle") || Contains(producer, "Harlan") then first * 3 else first
  }

  /** `generateWinePrice(region, producer, vintage)` with the year and draw given. */
  function WinePrice(region: string, producer: string, vintage: int, year: int, r: Draw): int
  {
    Jitter(WineBase(region, producer) + (year - vintage) * 5, r)
  }

  /** Each year of age adds 5 before the jitter, and a wine from the past
      never costs less than 80% of the plain base price, rounded. */
  lemma WinePriceBounds(region: string, producer: string, vintage: int, year: int, r: Draw)
    requires vintage <= year
    ensures var pre := WineBase(region, producer) + (year - vintage) * 5;
      && Round(pre as real * 0.8) <= WinePrice(region, producer, vintage, year, r) <= Round(pre as real * 1.2)
      && WinePrice(region, producer, vintage, year, r) >= 40
  {
    var pre := WineBase(region, producer) + (year - vintage) * 5;
    JitterBounds(pre, r);
    RoundMonotone(40.0 - 0.5, pre as real * 0.8);
  }

  /** Château Margaux in Bordeaux: the 200 tier times 5. */
  lemma MargauxInBordeaux()
    ensures WineBase("Bordeaux, France", Chateau + " Margaux") == 1000
  {
    var region, producer := "Bordeaux, France", Chateau + " Margaux";
    assert 'N' !in region;
    NotContainedWithout(region, "Napa Valley", 0);
    ContainedInMiddle("", "Bordeaux", ", France");
    assert "" + "Bordeaux" + ", France" == region;
    ContainedInMiddle("", producer, "");
    assert "" + producer + "" == producer;
    MargauxNotThreefold();
  }

  lemma MargauxNotThreefold()
    ensures !Contains(Chateau + " Margaux", "Screaming Eagle")
    ensures !Contains(Chateau + " Margaux", "Harlan")
  {
    var producer := Chateau + " Margaux";
    assert 'S' !in producer && 'H' !in producer;
    NotContainedWithout(producer, "Screaming Eagle", 0);
    NotContainedWithout(producer, "Harlan", 0);
  }

  /** Screaming Eagle in Napa Valley: the 150 tier times 3. */
  lemma ScreamingEagleInNapa()
    ensures WineBase("Napa Valley, California", "Screaming Eagle") == 450
  {
    ContainedInMiddle("", "Napa Valley", ", California");
    assert "" + "Napa Valley" + ", California" == "Napa Valley, California";
    ContainedInMiddle("", "Screaming Eagle", "");
    assert "" + "Screaming Eagle" + "" == "Screaming Eagle";
    EagleNotFivefold();
  }

  lemma EagleNotFivefold()
    ensures !Contains("Screaming Eagle", Chateau + " Margaux")
    ensures !Contains("Screaming Eagle", "DRC")
  {
    assert 'D' !in "Screaming Eagle" && 'h' !in "Screaming Eagle";
    NotContainedWithout("Screaming Eagle", "DRC", 0);
    NotContainedWithout("Screaming Eagle", Chateau + " Margaux", 1);
  }

  /** `/(\d+)\s*Year/` matches with its digits starting at `i`. */
  predicate AgeMatchAt(s: string, i: nat) {
    && i < |s| && IsDigit(s[i])
    && var k := i + DigitRun(s, i);
       var j := SpacesEnd(s, k);
       j + 4 <= |s| && s[j..j + 4] == "Year"
  }

  /** `parseInt` of the digits of a match at `i`. */
  function AgeAt(s: string, i: nat): nat
    requires i < |s| && IsDigit(s[i])
  {
    DigitsValue(DigitRunText(s, i))
  }

  /** Index of the leftmost "N Year" in `s` at or after `i`, or `|s|`. */
  function AgeIndex(s: string, i: nat): (k: nat)
    requires i <= |s|
    ensures i <= k <= |s|
    ensures k < |s| ==> AgeMatchAt(s, k)
    ensures forall j :: i <= j < k ==> !AgeMatchAt(s, j)
    decreases |s| - i
  {
    if i == |s| || AgeMatchAt(s, i) then i else AgeIndex(s, i + 1)
  }

  /** The number of the leftmost "N Year" in `s` from `i` on. */
  function FirstAge(s: string, i: nat): (r: Option<nat>)
    requires i <= |s|
    ensures r.None? <==> forall k :: i <= k < |s| ==> !AgeMatchAt(s, k)
  {
    var k := AgeIndex(s, i);
    if k == |s| then None else Some(AgeAt(s, k))
  }

  /** The age found is that of the leftmost match. */
  lemma FirstAgeAt(s: string, i: nat, k: nat)
    requires i <= k < |s| && AgeMatchAt(s, k)
    requires forall j :: i <= j < k ==> !AgeMatchAt(s, j)
    ensures FirstAge(s, i) == Some(AgeAt(s, k))
  {
    var m := AgeIndex(s, i);
    assert m == k;
  }

  /** The base of a spirit's price before the jitter: 100 for whisky or
      whiskey, 150 for cognac, else 60; plus 15 per year of a stated age;
      doubled for Macallan or Pappy. */
  function SpiritBase(kind: string, name: string): (p: nat)
    ensures p >= 60
  {
    var tier := if Contains(kind, "Cognac") then 150
                else if Contains(kind, "Whisky") || Contains(kind, "Whiskey") then 100
                else 60;
    var aged := match FirstAge(name, 0)
                case Some(age) => tier + age * 15
                case None => tier;
    if Contains(name, "Macallan") || Contains(name, "Pappy") then aged * 2 else aged
  }

  /** An 18-year Macallan whisky: 100, plus 15 per year, doubled. */
  lemma MacallanEighteenBase()
    ensures SpiritBase("Scotch Whisky", "The Macallan 18 Year") == 740
  {
    MacallanTerms();
    MacallanAge();
  }

  lemma MacallanTerms()
    ensures !Contains("Scotch Whisky", "Cognac") && Contains("Scotch Whisky", "Whisky")
    ensures Contains("The Macallan 18 Year", "Macallan")
  {
    NotContainedWithout("Scotch Whisky", "Cognac", 0);
    WhiskyTerm();
    MacallanTerm();
  }

  lemma WhiskyTerm()
    ensures Contains("Scotch Whisky", "Whisky")
  {
    ContainedInMiddle("Scotch ", "Whisky", "");
    assert "Scotch " + "Whisky" + "" == "Scotch Whisky";
  }

  lemma MacallanTerm()
    ensures Contains("The Macallan 18 Year", "Macallan")
  {
    ContainedInMiddle("The ", "Macallan", " 18 Year");
    assert "The " + "Macallan" + " 18 Year" == "The Macallan 18 Year";
  }

  lemma MacallanAge()
    ensures FirstAge("The Macallan 18 Year", 0) == Some(18)
  {
    MacallanName();
    GeneratedAgeIsPriced("The Macallan", 18);
  }

  lemma MacallanName()
    ensures "The Macallan" + " " + NatToString(18) + " Year" == "The Macallan 18 Year"
  {
    assert NatToString(18) == "18" by {
      assert NatToString(1) == "1";
    }
  }

  /** A cognac without a stated age or premium brand keeps its tier of 150. */
  lemma CognacXOBase()
    ensures SpiritBase("Cognac", "Hennessy XO") == 150
  {
    var name := "Hennessy XO";
    ContainedInMiddle("", "Cognac", "");
    assert "" + "Cognac" + "" == "Cognac";
    forall k | 0 <= k < |name| ensures !AgeMatchAt(name, k) {
      assert !IsDigit(name[k]);
    }
    NotContainedWithout(name, "Macallan", 0);
    NotContainedWithout(name, "Pappy", 0);
  }

  /** `generateSpiritsPrice(type, name)` with the draw given. */
  function SpiritPrice(kind: string, name: string, r: Draw): (p: int)
    ensures p >= 48
  {
    JitterBounds(SpiritBase(kind, name), r);
    RoundMonotone(47.5, SpiritBase(kind, name) as real * 0.8);
    Jitter(SpiritBase(kind, name), r)
  }

  /** The age a generated spirit's name states is the one its price uses. */
  lemma GeneratedAgeIsPriced(producer: string, age: nat)
    requires forall i :: 0 <= i < |producer| ==> !IsDigit(producer[i])
    ensures FirstAge(producer + " " + NatToString(age) + " Year", 0) == Some(age)
  {
    var digits := NatToString(age);
    var s := producer + " " + digits + " Year";
    var i := |producer| + 1;
    AgeMatchInName(producer, digits);
    forall j | 0 <= j < i ensures !AgeMatchAt(s, j) {
      assert !IsDigit(s[j]);
    }
    FirstAgeAt(s, 0, i);
  }

  /** The digits written before " Year" in a generated name are a match. */
  lemma AgeMatchInName(producer: string, digits: string)
    requires |digits| > 0 && AllDigits(digits)
    ensures var s := producer + " " + digits + " Year";
      AgeMatchAt(s, |producer| + 1) && AgeAt(s, |producer| + 1) == DigitsValue(digits)
  {
    var s := producer + " " + digits + " Year";
    NamePieces(producer, digits);
    DigitsThenYear(s, |producer| + 1, |digits|);
  }

  lemma NamePieces(producer: string, digits: string)
    requires AllDigits(digits)
    ensures var s := producer + " " + digits + " Year";
      var i, k := |producer| + 1, |producer| + 1 + |digits|;
      && s[i..k] == digits && s[k..] == " Year"
      && forall j :: i <= j < k ==> IsDigit(s[j])
  {
    var s := producer + " " + digits + " Year";
    var i, k := |producer| + 1, |producer| + 1 + |digits|;
    assert s[i..k] == digits;
    forall j | i <= j < k ensures IsDigit(s[j]) {
      assert s[j] == digits[j - i];
    }
  }

  /** `n` digits at `i`, then " Year" to the end, make a match whose age is
      the value of those digits. */
  lemma DigitsThenYear(s: string, i: nat, n: nat)
    requires 0 < n && i + n <= |s|
    requires forall j :: i <= j < i + n ==> IsDigit(s[j])
    requires s[i + n..] == " Year"
    ensures AgeMatchAt(s, i) && AgeAt(s, i) == DigitsValue(s[i..i + n])
  {
    DigitRunIs(s, i, n);
    var k := i + n;
    assert s[k] == ' ' && s[k + 1] == 'Y';
    assert s[k + 1..k + 5] == s[k..][1..] == "Year";
    assert SpacesEnd(s, k) == k + 1 by {
      assert IsSpace(s[k]) && !IsSpace(s[k + 1]);
    }
    assert DigitRunText(s, i) == s[i..k];
  }

  // ---------------------------------------------------------------------------
  // Derived text fields
  // ---------------------------------------------------------------------------

  /** `.toLowerCase().replace(/[^a-z0-9]/g, '-')`: one hyphen per character
      outside `a-z0-9`, with no collapsing. */
  function Dashed(s: string): (r: string)
    ensures |r| == |s|
    ensures forall i :: 0 <= i < |s| ==>
      r[i] == (if IsAsciiLower(LowerChar(s[i])) || IsDigit(s[i]) then LowerChar(s[i]) else '-')
  {
    if |s| == 0 then ""
    else
      var c := LowerChar(s[0]);
      [if IsAsciiLower(c) || IsDigit(c) then c else '-'] + Dashed(s[1..])
  }

  /** `generateImageUrl(type, producer, varietal)`. */
  function ImageUrl(kind: WineType, producer: string, varietal: string): string {
    "/images/" + TypeName(kind) + "s/" + Dashed(producer) + "-" + Dashed(varietal) + ".jpg"
  }

  /** The image name keeps one character per character of producer and
      varietal, unlike the product slug, which deletes them. */
  lemma ImageUrlShape(kind: WineType, producer: string, varietal: string)
    ensures var url := ImageUrl(kind, producer, varietal);
      var prefix := "/images/" + TypeName(kind) + "s/";
      var name := url[|prefix|..|url| - 4];
      && |url| == |prefix| + |producer| + 1 + |varietal| + 4
      && url[..|prefix|] == prefix && url[|url| - 4..] == ".jpg"
      && (forall i :: 0 <= i < |name| ==> IsAsciiLower(name[i]) || IsDigit(name[i]) || name[i] == '-')
      && name[|producer|] == '-'
  {
    var prefix := "/images/" + TypeName(kind) + "s/";
    var name := Dashed(producer) + "-" + Dashed(varietal);
    ThreePieces(prefix, name, ".jpg");
    DashedNameChars(producer, varietal);
  }

  /** The three pieces of a concatenation can be cut back out of it. */
  lemma ThreePieces(a: string, b: string, c: string)
    ensures var s := a + b + c;
      && s[..|a|] == a && s[|a|..|s| - |c|] == b && s[|s| - |c|..] == c
  {
  }

  /** The dashed producer and varietal, joined by a hyphen, use only lower-case
      letters, digits and hyphens, with the joining hyphen right after the
      producer. */
  lemma DashedNameChars(producer: string, varietal: string)
    ensures var name := Dashed(producer) + "-" + Dashed(varietal);
      && |name| == |producer| + 1 + |varietal|
      && (forall i :: 0 <= i < |name| ==> IsAsciiLower(name[i]) || IsDigit(name[i]) || name[i] == '-')
      && name[|producer|] == '-'
  {
    var name := Dashed(producer) + "-" + Dashed(varietal);
    forall i | 0 <= i < |name| ensures IsAsciiLower(name[i]) || IsDigit(name[i]) || name[i] == '-' {
      if i < |producer| {
        assert name[i] == Dashed(producer)[i];
      } else if i > |producer| {
        assert name[i] == Dashed(varietal)[i - |producer| - 1];
      }
    }
  }

  /** `generateWineDescription(varietal, region, vintage)`: one of four sentences. */
  function WineDescription(varietal: string, region: string, vintage: int, r: Draw): string
  {
    var v := IntToString(vintage);
    RandomItem([
      "Exceptional " + varietal + " from " + region + ", vintage " + v + ". A wine of remarkable character and finesse.",
      "Classic " + region + " expression of " + varietal + ". The " + v + " vintage showcases the terroir beautifully.",
      "Premium " + varietal + " from the prestigious " + region + " region. " + v + " was an outstanding vintage.",
      "Elegant " + varietal + " representing the finest traditions of " + region + ". The " + v + " harvest was exceptional."], r)
  }

  /** A seven-piece text contains its second and fourth pieces. */
  lemma PiecesTwoAndFour(a: string, b: string, c: string, d: string, e: string, f: string, g: string)
    ensures Contains(a + b + c + d + e + f + g, b) && Contains(a + b + c + d + e + f + g, d)
  {
    assert a + b + c + d + e + f + g == a + b + (c + d + e + f + g);
    ContainedInMiddle(a, b, c + d + e + f + g);
    assert a + b + c + d + e + f + g == (a + b + c) + d + (e + f + g);
    ContainedInMiddle(a + b + c, d, e + f + g);
  }

  /** Whichever sentence is drawn, it names the varietal and the region. */
  lemma WineDescriptionMentions(varietal: string, region: string, vintage: int, r: Draw)
    ensures Contains(WineDescription(varietal, region, vintage, r), varietal)
    ensures Contains(WineDescription(varietal, region, vintage, r), region)
  {
    var v := IntToString(vintage);
    PiecesTwoAndFour("Exceptional ", varietal, " from ", region, ", vintage ", v,
                     ". A wine of remarkable character and finesse.");
    PiecesTwoAndFour("Classic ", region, " expression of ", varietal, ". The ", v,
                     " vintage showcases the terroir beautifully.");
    PiecesTwoAndFour("Premium ", varietal, " from the prestigious ", region, " region. ", v,
                     " was an outstanding vintage.");
    PiecesTwoAndFour("Elegant ", varietal, " representing the finest traditions of ", region, ". The ", v,
                     " harvest was exceptional.");
  }

  /** `generateSpiritsDescription(type, region)`: one of four sentences, the
      second half naming the region when there is one. */
  function SpiritDescription(kind: string, region: string, r: Draw): string
  {
    var has := region != "";
    RandomItem([
      "Premium " + kind + " crafted with traditional methods. "
        + (if has then "From the renowned " + region + " region." else "Artfully distilled."),
      "Exceptional " + kind + " showcasing master distillation. "
        + (if has then region + " heritage at its finest." else "Meticulously crafted."),
      "Distinguished " + kind + " with complex character. "
        + (if has then "Representing " + region + " excellence." else "Premium quality spirit."),
      "Fine " + kind + " aged to perfection. "
        + (if has then "Classic " + region + " style." else "Expertly balanced.")], r)
  }

  /** A four-piece text contains its second piece. */
  lemma PieceTwo(a: string, b: string, c: string, d: string)
    ensures Contains(a + b + c + d, b)
  {
    assert a + b + c + d == a + b + (c + d);
    ContainedInMiddle(a, b, c + d);
  }

  /** Whichever sentence is drawn, it names the spirit type. */
  lemma SpiritDescriptionMentions(kind: string, region: string, r: Draw)
    ensures Contains(SpiritDescription(kind, region, r), kind)
  {
    var has := region != "";
    PieceTwo("Premium ", kind, " crafted with traditional methods. ",
             if has then "From the renowned " + region + " region." else "Artfully distilled.");
    PieceTwo("Exceptional ", kind, " showcasing master distillation. ",
             if has then region + " heritage at its finest." else "Meticulously crafted.");
    PieceTwo("Distinguished ", kind, " with complex character. ",
             if has then "Representing " + region + " excellence." else "Premium quality spirit.");
    PieceTwo("Fine ", kind, " aged to perfection. ",
             if has then "Classic " + region + " style." else "Expertly balanced.");
  }

  const WineNotes: seq<(string, string)> := [
    ("Cabernet Sauvignon", "Rich blackcurrant, cedar, and tobacco with firm tannins and a long finish."),
    ("Pinot Noir", "Elegant red cherry, earth, and spice with silky texture and bright acidity."),
    ("Chardonnay", "Crisp green apple, citrus, and vanilla with creamy texture and mineral finish."),
    ("Champagne", "Fine bubbles with notes of brioche, citrus, and subtle yeast complexity.")]

  const SpiritNotes: seq<(string, string)> := [
    ("Scotch Whisky", "Complex malt with honey, vanilla, and subtle smoke. Long, warming finish."),
    ("Irish Whiskey", "Smooth and approachable with notes of honey, spice, and gentle fruit."),
    ("American Whiskey", "Rich caramel, vanilla, and oak with spicy rye and sweet corn notes."),
    ("Cognac", "Luxurious blend of dried fruits, spice, and oak with elegant complexity.")]

  const DefaultWineNote: string := "Complex and well-balanced with excellent structure and length."
  const DefaultSpiritNote: string := "Smooth and complex with rich flavors and a satisfying finish."

  /** The note stored under exactly `key`. */
  function NoteFor(table: seq<(string, string)>, key: string): (r: Option<string>)
    ensures r.Some? ==> exists i :: 0 <= i < |table| && table[i] == (key, r.value)
    ensures r.None? ==> forall i :: 0 <= i < |table| ==> table[i].0 != key
  {
    if |table| == 0 then None
    else if table[0].0 == key then Some(table[0].1)
    else
      assert forall i :: 0 < i < |table| ==> table[i] == table[1..][i - 1];
      NoteFor(table[1..], key)
  }

  /** The note of the first key, in table order, that `text` contains. */
  function FirstContainedNote(table: seq<(string, string)>, text: string): (r: Option<string>)
    ensures r.Some? ==> exists i :: 0 <= i < |table| && table[i].1 == r.value && Contains(text, table[i].0)
                                    && forall j :: 0 <= j < i ==> !Contains(text, table[j].0)
    ensures r.None? ==> forall i :: 0 <= i < |table| ==> !Contains(text, table[i].0)
  {
    if |table| == 0 then None
    else if Contains(text, table[0].0) then Some(table[0].1)
    else
      assert forall i :: 0 < i < |table| ==> table[i] == table[1..][i - 1];
      FirstContainedNote(table[1..], text)
  }

  /** `generateTastingNotes(type, varietal)`: wines look their varietal up
      exactly, spirits take the first type the text contains. */
  function TastingNotes(kind: WineType, varietal: string): string {
    if kind == Wine then NoteFor(WineNotes, varietal).GetOr(DefaultWineNote)
    else FirstContainedNote(SpiritNotes, varietal).GetOr(DefaultSpiritNote)
  }

  /** Spirit notes go by containment in table order: cognac gets its own note. */
  lemma CognacNotes()
    ensures TastingNotes(Spirits, "Cognac") == SpiritNotes[3].1
  {
    assert 'S' !in "Cognac" && 'I' !in "Cognac" && 'A' !in "Cognac";
    NotContainedWithout("Cognac", "Scotch Whisky", 0);
    NotContainedWithout("Cognac", "Irish Whiskey", 0);
    NotContainedWithout("Cognac", "American Whiskey", 0);
    ContainedInMiddle("", "Cognac", "");
    assert "" + "Cognac" + "" == "Cognac";
  }

  /** Wine notes go by exact name, while aging goes by containment: a
      Cabernet Franc gets the default note but the Cabernet aging window. */
  lemma CabernetFrancExactVersusContained()
    ensures TastingNotes(Wine, "Cabernet Franc") == DefaultWineNote
    ensures AgingThreshold("Cabernet Franc") == Some(15)
  {
    ContainedInMiddle("", "Cabernet", " Franc");
    assert "" + "Cabernet" + " Franc" == "Cabernet Franc";
  }

  const WinePairings: seq<(string, seq<string>)> := [
    ("Cabernet Sauvignon", ["Grilled Red Meat", "Aged Cheese", "Dark Chocolate"]),
    ("Pinot Noir", ["Duck", "Salmon", "Mushroom Dishes"]),
    ("Chardonnay", ["Lobster", "Roasted Chicken", "Creamy Pasta"]),
    ("Champagne", ["Oysters", "Caviar", "Light Appetizers"])]

  const DefaultPairings: seq<string> := ["Fine Dining", "Gourmet Cheese", "Special Occasions"]

  /** `generateFoodPairings(type, varietal)`: the table's three dishes for a
      listed varietal, the default three for any other. */
  function FoodPairings(varietal: string): (r: seq<string>)
    ensures |r| == 3
    ensures Lookup(WinePairings, varietal).Some? ==> r == Lookup(WinePairings, varietal).value
    ensures Lookup(WinePairings, varietal).None? ==> r == DefaultPairings
  {
    var r := Lookup(WinePairings, varietal).GetOr(DefaultPairings);
    assert forall i :: 0 <= i < |WinePairings| ==> |WinePairings[i].1| == 3;
    r
  }

  /** `getWineServingTemp(varietal)`: sparkling and Sauvignon Blanc cold,
      Chardonnay and Pinot Grigio cool, everything else at cellar warmth. */
  function ServingTemp(varietal: string): (t: string)
    ensures t in {"6-8" + Degrees, "8-12" + Degrees, "16-18" + Degrees}
    ensures t == "6-8" + Degrees <==> Contains(varietal, "Champagne") || varietal == "Sauvignon Blanc"
    ensures t == "8-12" + Degrees <==>
      !Contains(varietal, "Champagne") && (varietal == "Chardonnay" || varietal == "Pinot Grigio")
    ensures t == "16-18" + Degrees <==>
      !Contains(varietal, "Champagne")
      && varietal !in {"Sauvignon Blanc", "Chardonnay", "Pinot Grigio"}
  {
    if Contains(varietal, "Champagne") || varietal == "Sauvignon Blanc" then "6-8" + Degrees
    else if varietal == "Chardonnay" || varietal == "Pinot Grigio" then "8-12" + Degrees
    else "16-18" + Degrees
  }

  /** Champagne-region wines are served cold only when their varietal names
      Champagne: a Blanc de Blancs is served like a red. */
  lemma BlancDeBlancsServedWarm()
    ensures ServingTemp("Blanc de Blancs") == "16-18" + Degrees
    ensures "Blanc de Blancs" in WineRegions[2].1
  {
    assert 'C' !in "Blanc de Blancs";
    NotContainedWithout("Blanc de Blancs", "Champagne", 0);
  }

  /** `getAgingPotential(varietal, vintage)` for a wine `age` years old. */
  function AgingPotential(varietal: string, age: int): string {
    if Contains(varietal, "Cabernet") || Contains(varietal, "Bordeaux") then
      if age > 15 then "Drinking well now, can age further" else "10-20 years"
    else if varietal == "Pinot Noir" then
      if age > 10 then "Drinking well now" else "5-15 years"
    else if varietal == "Chardonnay" then
      if age > 8 then "Drinking well now" else "3-10 years"
    else "Ready to drink"
  }

  /** The age past which a varietal is "drinking well now", if it has one. */
  function AgingThreshold(varietal: string): Option<int> {
    if Contains(varietal, "Cabernet") || Contains(varietal, "Bordeaux") then Some(15)
    else if varietal == "Pinot Noir" then Some(10)
    else if varietal == "Chardonnay" then Some(8)
    else None
  }

  /** Past its threshold a varietal reads "drinking well now". */
  lemma AgingPast(varietal: string, age: int)
    requires AgingThreshold(varietal).Some? && age > AgingThreshold(varietal).value
    ensures StartsWith(AgingPotential(varietal, age), "Drinking well now")
  {
    var tail := if Contains(varietal, "Cabernet") || Contains(varietal, "Bordeaux") then ", can age further" else "";
    assert AgingPotential(varietal, age) == "Drinking well now" + tail;
    StartsWithAppend("Drinking well now", tail);
  }

  /** Up to its threshold a varietal gives a window of years. */
  lemma AgingWithin(varietal: string, age: int)
    requires AgingThreshold(varietal).Some? && age <= AgingThreshold(varietal).value
    ensures !StartsWith(AgingPotential(varietal, age), "Drinking well now")
    ensures Contains(AgingPotential(varietal, age), "years")
  {
    var t := AgingThreshold(varietal).value;
    var window := if t == 15 then "10-20 " else if t == 10 then "5-15 " else "3-10 ";
    assert AgingPotential(varietal, age) == window + "years" + "";
    ContainedInMiddle(window, "years", "");
    assert AgingPotential(varietal, age)[0] != 'D';
  }

  /** A varietal with a threshold reads "drinking well now" exactly past it,
      and gives a window of years up to it; without one it is ready to drink. */
  lemma AgingFollowsThreshold(varietal: string, age: int)
    ensures var a := AgingPotential(varietal, age);
      match AgingThreshold(varietal)
      case Some(t) =>
        && (age > t <==> StartsWith(a, "Drinking well now"))
        && (age <= t ==> Contains(a, "years"))
      case None => a == "Ready to drink"
  {
    if AgingThreshold(varietal).Some? {
      if age > AgingThreshold(varietal).value {
        AgingPast(varietal, age);
      } else {
        AgingWithin(varietal, age);
      }
    }
  }

  /** Once a wine is "drinking well now" it stays so as it gets older. */
  lemma AgingMonotone(varietal: string, age: int, older: int)
    requires age <= older
    requires StartsWith(AgingPotential(varietal, age), "Drinking well now")
    ensures StartsWith(AgingPotential(varietal, older), "Drinking well now")
  {
    AgingFollowsThreshold(varietal, age);
    AgingFollowsThreshold(varietal, older);
  }

  // ---------------------------------------------------------------------------
  // Records
  // ---------------------------------------------------------------------------

  /** Draws one wine takes. */
  const WineDraws: nat := 11
  /** Draws one spirit takes. */
  const SpiritDraws: nat := 10

  /** The tag generated records carry in place of a source URL. */
  const Generated: string := "ai-generated"

  /** A region of the table together with one of its varietals. */
  predicate RegionVarietal(region: string, varietal: string) {
    exists i :: 0 <= i < |WineRegions| && WineRegions[i].0 == region && varietal in WineRegions[i].1
  }

  /** What a wine is built around: the first four draws of a wine. */
  datatype WinePick = WinePick(region: string, varietal: string, producer: string, vintage: int)

  function PickWine(r0: Draw, r1: Draw, r2: Draw, r3: Draw, year: int): (p: WinePick)
        ensures RegionVarietal(p.region, p.varietal)
    ensures p.producer in WineProducerPool(p.region)
    ensures year - 25 <= p.vintage <= year - 1
  {
    var k := RandomIndex(r0, |WineRegions|);
    assert NonEmptyLists(WineRegions);
    var region := WineRegions[k].0;
    WinePick(region, RandomItem(WineRegions[k].1, r1), RandomItem(WineProducerPool(region), r2),
             RandomVintage(year, r3))
  }

  /** One wine of `generateWines`, from its eleven draws: region, varietal,
      producer, vintage, description, alcohol, price jitter, rating, reviews
      and the two critic scores. */
  function GenerateWine(d: seq<Draw>, year: int, now: Instant): (w: WineData)
    requires |d| == WineDraws
  {
    var p := PickWine(d[0], d[1], d[2], d[3], year);
    var price := WinePrice(p.region, p.producer, p.vintage, year, d[6]) as real;
    WineData(
      p.producer + " " + p.varietal + " " + IntToString(p.vintage),
      Some(WineDescription(p.varietal, p.region, p.vintage, d[4])),
      Wine, p.varietal, p.region, None, Some(p.vintage as real), p.producer,
      RandomFloat(11.5, 15.5, d[5]), 750.0, price, price,
      Some(RandomFloat(3.5, 5.0, d[7])), Some(RandomInt(10, 500, d[8]) as real),
      Some(RandomInt(85, 100, d[9]) as real), Some(RandomInt(85, 100, d[10]) as real), None,
      Some(ImageUrl(Wine, p.producer, p.varietal)), None,
      Some(TastingNotes(Wine, p.varietal)), Some(FoodPairings(p.varietal)),
      Some(ServingTemp(p.varietal)), Some(AgingPotential(p.varietal, year - p.vintage)),
      Some(Generated), now)
  }

  /** What every generated wine satisfies. */
  predicate ValidGeneratedWine(w: WineData, year: int) {
    && w.kind == Wine && w.volumeMl == 750.0 && w.sourceUrl == Some(Generated)
    && w.currentPrice == w.basePrice && w.basePrice >= 40.0
    && w.vintage.Some? && IsInteger(w.vintage.value)
    && year - 25 <= w.vintage.value.Floor <= year - 1
    && RegionVarietal(w.region, w.varietal)
    && w.producer in WineProducerPool(w.region)
    && w.name == w.producer + " " + w.varietal + " " + IntToString(w.vintage.value.Floor)
    && 11.5 <= w.alcoholContent <= 15.5
  }

  lemma GenerateWineValid(d: seq<Draw>, year: int, now: Instant)
    requires |d| == WineDraws
    ensures ValidGeneratedWine(GenerateWine(d, year, now), year)
  {
    GenerateWinePriced(d, year, now);
    GenerateWinePicked(d, year, now);
  }

  /** A generated wine's price is its draw's price for both fields, at least
      40, and its alcohol lies between 11.5 and 15.5. */
  lemma GenerateWinePriced(d: seq<Draw>, year: int, now: Instant)
    requires |d| == WineDraws
    ensures var w := GenerateWine(d, year, now);
      && w.currentPrice == w.basePrice && w.basePrice >= 40.0
      && 11.5 <= w.alcoholContent <= 15.5
  {
    var p := PickWine(d[0], d[1], d[2], d[3], year);
    WinePriceBounds(p.region, p.producer, p.vintage, year, d[6]);
    RandomFloatBounds(115, 155, d[5]);
  }

  /** A generated wine's region, varietal, producer and vintage come from the
      tables and the vintage window, and its name spells them out. */
  lemma GenerateWinePicked(d: seq<Draw>, year: int, now: Instant)
    requires |d| == WineDraws
    ensures var w := GenerateWine(d, year, now);
      && w.vintage.Some? && IsInteger(w.vintage.value)
      && year - 25 <= w.vintage.value.Floor <= year - 1
      && RegionVarietal(w.region, w.varietal)
      && w.producer in WineProducerPool(w.region)
      && w.name == w.producer + " " + w.varietal + " " + IntToString(w.vintage.value.Floor)
  {
    var p := PickWine(d[0], d[1], d[2], d[3], year);
    assert (p.vintage as real).Floor == p.vintage;
  }

  /** One block of `n` draws per record. */
  predicate Blocks(blocks: seq<seq<Draw>>, n: nat) {
    forall i :: 0 <= i < |blocks| ==> |blocks[i]| == n
  }

  /** The loop both generators share: one record per block of draws and
      creation time, in order. */
  method BuildEach<T>(blocks: seq<seq<Draw>>, times: seq<Instant>, build: (seq<Draw>, Instant) --> T)
    returns (records: seq<T>)
    requires |times| == |blocks|
    requires forall i :: 0 <= i < |blocks| ==> build.requires(blocks[i], times[i])
    ensures |records| == |blocks|
    ensures forall i :: 0 <= i < |blocks| ==> records[i] == build(blocks[i], times[i])
  {
    records := [];
    for i := 0 to |blocks|
      invariant |records| == i
      invariant forall j :: 0 <= j < i ==> records[j] == build(blocks[j], times[j])
    {
      records := records + [build(blocks[i], times[i])];
    }
  }

  /** `generateWines(count)`, with `blocks[i]` the eleven draws of wine `i`
      and `times[i]` its creation time. */
  method GenerateWines(blocks: seq<seq<Draw>>, year: int, times: seq<Instant>)
    returns (wines: seq<WineData>)
    requires Blocks(blocks, WineDraws) && |times| == |blocks|
    ensures |wines| == |blocks|
    ensures forall i :: 0 <= i < |blocks| ==> wines[i] == GenerateWine(blocks[i], year, times[i])
    ensures forall i :: 0 <= i < |blocks| ==> ValidGeneratedWine(wines[i], year)
  {
    wines := BuildEach(blocks, times,
                       (d: seq<Draw>, now: Instant) requires |d| == WineDraws => GenerateWine(d, year, now));
    forall i | 0 <= i < |blocks| ensures ValidGeneratedWine(wines[i], year) {
      GenerateWineValid(blocks[i], year, times[i]);
    }
  }

  /** Name and varietal of a spirit, after its ladder step. */
  function SpiritNaming(kind: SpiritKind, producer: string, r: Draw): (nv: (string, string))
    requires WellFormedKind(kind)
    ensures StartsWith(nv.0, producer)
  {
    match kind.ladder
    case Ages(ages) =>
      var age := NatToString(RandomItem(ages, r));
      (producer + " " + age + " Year", kind.name + " " + age + " Year")
    case Types(types) =>
      var t := RandomItem(types, r);
      (producer + " " + t, t)
    case Grades(grades) =>
      var g := RandomItem(grades, r);
      (producer + " " + g, kind.name + " " + g)
  }

  /** The ladder step: an age is appended as " N Year" to both the name and
      the kind, a type is appended to the name and replaces the varietal, and
      a grade is appended to the name and to the kind. The step is always one
      of the kind's own. */
  lemma SpiritNamingLadder(kind: SpiritKind, producer: string, r: Draw)
    requires WellFormedKind(kind)
    ensures var nv := SpiritNaming(kind, producer, r);
      match kind.ladder
      case Ages(ages) =>
        (exists a :: a in ages && nv.0 == producer + " " + NatToString(a) + " Year"
                               && nv.1 == kind.name + " " + NatToString(a) + " Year")
      case Types(types) => (exists t :: t in types && nv.0 == producer + " " + t && nv.1 == t)
      case Grades(grades) =>
        (exists g :: g in grades && nv.0 == producer + " " + g && nv.1 == kind.name + " " + g)
  {
    match kind.ladder
    case Ages(ages) => assert RandomItem(ages, r) in ages;
    case Types(types) => assert RandomItem(types, r) in types;
    case Grades(grades) => assert RandomItem(grades, r) in grades;
  }

  /** What a spirit is built around: the first four draws of a spirit. */
  datatype SpiritPick = SpiritPick(kind: string, producer: string, region: string, name: string, varietal: string)

  function PickSpirit(r0: Draw, r1: Draw, r2: Draw, r3: Draw): (p: SpiritPick)
        ensures exists i :: 0 <= i < |SpiritKinds| && SpiritKinds[i].name == p.kind && p.region in SpiritKinds[i].regions
    ensures p.producer in SpiritProducerPool(p.kind)
    ensures p.region != ""
    ensures StartsWith(p.name, p.producer)
  {
    SpiritKindsWellFormed();
    var k := RandomIndex(r0, |SpiritKinds|);
    var kind := SpiritKinds[k];
    var producer := RandomItem(SpiritProducerPool(kind.name), r1);
    var region := RandomItem(kind.regions, r2);
    var naming := SpiritNaming(kind, producer, r3);
    SpiritPick(kind.name, producer, region, naming.0, naming.1)
  }

  /** One spirit of `generateSpirits`, from its ten draws: type, producer,
      region, ladder step, description, alcohol, bottle size, price jitter,
      rating and reviews. */
  function GenerateSpirit(d: seq<Draw>, now: Instant): (w: WineData)
    requires |d| == SpiritDraws
  {
    var p := PickSpirit(d[0], d[1], d[2], d[3]);
    var price := SpiritPrice(p.kind, p.name, d[7]) as real;
    WineData(
      p.name, Some(SpiritDescription(p.kind, p.region, d[4])), Spirits, p.varietal,
      if p.region == "" then "Various" else p.region, None, None, p.producer,
      RandomFloat(35.0, 50.0, d[5]), RandomItem([700.0, 750.0, 1000.0], d[6]), price, price,
      Some(RandomFloat(3.8, 5.0, d[8])), Some(RandomInt(20, 300, d[9]) as real), None, None, None,
      Some(ImageUrl(Spirits, p.producer, p.kind)), None,
      Some(TastingNotes(Spirits, p.kind)), None,
      Some("Room temperature"), Some("Ready to drink"), Some(Generated), now)
  }

  /** What every generated spirit satisfies. */
  predicate ValidGeneratedSpirit(w: WineData) {
    && w.kind == Spirits && w.volumeMl in {700.0, 750.0, 1000.0}
    && w.sourceUrl == Some(Generated) && w.region != ""
    && w.currentPrice == w.basePrice && w.basePrice >= 48.0
    && w.vintage.None? && StartsWith(w.name, w.producer)
    && 35.0 <= w.alcoholContent <= 50.0
  }

  lemma GenerateSpiritValid(d: seq<Draw>, now: Instant)
    requires |d| == SpiritDraws
    ensures ValidGeneratedSpirit(GenerateSpirit(d, now))
  {
    GenerateSpiritMeasured(d, now);
  }

  /** A generated spirit's alcohol lies between 35 and 50 and its bottle is
      one of the three sizes. */
  lemma GenerateSpiritMeasured(d: seq<Draw>, now: Instant)
    requires |d| == SpiritDraws
    ensures var w := GenerateSpirit(d, now);
      35.0 <= w.alcoholContent <= 50.0 && w.volumeMl in {700.0, 750.0, 1000.0}
  {
    var w := GenerateSpirit(d, now);
    assert w.alcoholContent == RandomFloat(35.0, 50.0, d[5]);
    assert w.volumeMl == RandomItem([700.0, 750.0, 1000.0], d[6]);
    RandomFloatBounds(350, 500, d[5]);
  }

  /** `generateSpirits(count)`, with `blocks[i]` the ten draws of spirit `i`. */
  method GenerateSpirits(blocks: seq<seq<Draw>>, times: seq<Instant>)
    returns (spirits: seq<WineData>)
    requires Blocks(blocks, SpiritDraws) && |times| == |blocks|
    ensures |spirits| == |blocks|
    ensures forall i :: 0 <= i < |blocks| ==> spirits[i] == GenerateSpirit(blocks[i], times[i])
    ensures forall i :: 0 <= i < |blocks| ==> ValidGeneratedSpirit(spirits[i])
  {
    spirits := BuildEach(blocks, times,
                         (d: seq<Draw>, now: Instant) requires |d| == SpiritDraws => GenerateSpirit(d, now));
    forall i | 0 <= i < |blocks| ensures ValidGeneratedSpirit(spirits[i]) {
      GenerateSpiritValid(blocks[i], times[i]);
    }
  }

  /** `generateLargeDataset(wineCount, spiritsCount)` (defaults 500 and 300):
      the wines, then the spirits. */
  method GenerateLargeDataset(wineBlocks: seq<seq<Draw>>, spiritBlocks: seq<seq<Draw>>, year: int,
                              wineTimes: seq<Instant>, spiritTimes: seq<Instant>)
    returns (all: seq<WineData>)
    requires Blocks(wineBlocks, WineDraws) && |wineTimes| == |wineBlocks|
    requires Blocks(spiritBlocks, SpiritDraws) && |spiritTimes| == |spiritBlocks|
    ensures |all| == |wineBlocks| + |spiritBlocks|
    ensures forall i :: 0 <= i < |wineBlocks| ==> ValidGeneratedWine(all[i], year)
    ensures forall i :: |wineBlocks| <= i < |all| ==> ValidGeneratedSpirit(all[i])
    ensures forall i :: 0 <= i < |wineBlocks| ==> all[i] == GenerateWine(wineBlocks[i], year, wineTimes[i])
    ensures forall i :: 0 <= i < |spiritBlocks| ==>
      all[|wineBlocks| + i] == GenerateSpirit(spiritBlocks[i], spiritTimes[i])
  {
    var wines := GenerateWines(wineBlocks, year, wineTimes);
    var spirits := GenerateSpirits(spiritBlocks, spiritTimes);
    all := wines + spirits;
    assert all[..|wines|] == wines && all[|wines|..] == spirits;
  }
}
