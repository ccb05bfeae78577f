/** The database side of ingestion (`utils/database.ts`): the URL slug of a
    product, the row written for each record, the counting loop over a batch
    of inserts, and the two find-or-create operations on the seller table.
    The store is an explicit sequence of rows; what the remote service answers
    (an insert refused, a lookup that errors) and every fresh id and timestamp
    are parameters. */
module Database {
  import opened Options
  import opened Text
  import opened Numbers
  import opened WineTypes

  // ---------------------------------------------------------------------------
  // generateSlug
  // ---------------------------------------------------------------------------

  /** The longest slug stored. */
  const MaxSlugLength: nat := 100

  /** The words of the slug: producer, name, and the vintage when it is truthy
      (present and not 0). */
  function SlugParts(name: string, producer: string, vintage: Option<real>): seq<string> {
    if vintage.Some? && vintage.value != 0.0 then [producer, name, NumberToString(vintage.value)]
    else [producer, name]
  }

  /** The words joined by spaces and lower-cased. */
  function SlugText(name: string, producer: string, vintage: Option<real>): string {
    Lower(Join(SlugParts(name, producer, vintage), ' '))
  }

  /** A character `.replace(/[^a-z0-9\s]/g, '')` keeps. */
  predicate SlugKeeps(c: char) {
    IsAsciiLower(c) || IsDigit(c) || IsSpace(c)
  }

  predicate IsAlnum(c: char) {
    IsAsciiLower(c) || IsDigit(c)
  }

  /** `s.replace(/[^a-z0-9\s]/g, '')`. */
  function KeepSlugChars(s: string): (r: string)
    ensures forall i :: 0 <= i < |r| ==> SlugKeeps(r[i])
  {
    if |s| == 0 then ""
    else if SlugKeeps(s[0]) then [s[0]] + KeepSlugChars(s[1..])
    else KeepSlugChars(s[1..])
  }

  /** Every space becomes a hyphen. */
  function SpacesToHyphens(s: string): (r: string)
    ensures |r| == |s|
    ensures forall i :: 0 <= i < |s| ==> r[i] == if s[i] == ' ' then '-' else s[i]
  {
    if |s| == 0 then "" else [if s[0] == ' ' then '-' else s[0]] + SpacesToHyphens(s[1..])
  }

  /** `s.replace(/\s+/g, '-')`: each whitespace run becomes one hyphen. */
  function Hyphenate(s: string): string {
    SpacesToHyphens(CollapseSpaces(s))
  }

  /** `generateSlug(name, producer, vintage)`: the words lower-cased, every
      character other than `a-z`, `0-9` and whitespace deleted, whitespace runs
      turned into single hyphens, cut to 100 characters. Nothing makes it
      unique and hyphens at either end are kept. */
  function GenerateSlug(name: string, producer: string, vintage: Option<real>): (r: string)
    ensures |r| <= MaxSlugLength
    ensures forall i :: 0 <= i < |r| ==> IsAlnum(r[i]) || r[i] == '-'
    ensures forall i :: 0 <= i < |r| - 1 ==> !(r[i] == '-' && r[i + 1] == '-')
  {
    var kept := KeepSlugChars(SlugText(name, producer, vintage));
    CollapseKeepsSlugChars(kept);
    var full := Hyphenate(kept);
    full[..Min(|full|, MaxSlugLength)]
  }

  /** Collapsing whitespace introduces no character outside the kept set. */
  lemma {:induction false} CollapseKeepsSlugChars(s: string)
    requires forall i :: 0 <= i < |s| ==> SlugKeeps(s[i])
    ensures forall i :: 0 <= i < |CollapseSpaces(s)| ==> SlugKeeps(CollapseSpaces(s)[i])
    decreases |s|
  {
    if |s| > 0 {
      if IsSpace(s[0]) {
        var n := LeadingSpaces(s);
        CollapseKeepsSlugChars(s[n..]);
      } else {
        CollapseKeepsSlugChars(s[1..]);
      }
    }
  }

  /** The lower-case letters and digits of `s`, in order. */
  function Alnum(s: string): string {
    if |s| == 0 then ""
    else if IsAlnum(s[0]) then [s[0]] + Alnum(s[1..])
    else Alnum(s[1..])
  }

  lemma {:induction false} AlnumAppend(a: string, b: string)
    ensures Alnum(a + b) == Alnum(a) + Alnum(b)
    decreases |a|
  {
    if |a| == 0 {
      assert a + b == b;
    } else {
      AlnumAppend(a[1..], b);
      assert (a + b)[0] == a[0];
      assert (a + b)[1..] == a[1..] + b;
    }
  }

  lemma {:induction false} AlnumOfKept(s: string)
    ensures Alnum(KeepSlugChars(s)) == Alnum(s)
    decreases |s|
  {
    if |s| > 0 {
      AlnumOfKept(s[1..]);
      if SlugKeeps(s[0]) {
        assert KeepSlugChars(s) == [s[0]] + KeepSlugChars(s[1..]);
        assert ([s[0]] + KeepSlugChars(s[1..]))[1..] == KeepSlugChars(s[1..]);
      }
    }
  }

  /** On kept characters, the letters and digits are exactly the non-whitespace. */
  lemma {:induction false} AlnumIsNonSpace(s: string)
    requires forall i :: 0 <= i < |s| ==> SlugKeeps(s[i])
    ensures Alnum(s) == NonSpace(s)
    decreases |s|
  {
    if |s| > 0 {
      AlnumIsNonSpace(s[1..]);
    }
  }

  lemma {:induction false} AlnumOfHyphens(s: string)
    ensures Alnum(SpacesToHyphens(s)) == Alnum(s)
    decreases |s|
  {
    if |s| > 0 {
      AlnumOfHyphens(s[1..]);
      var h := SpacesToHyphens(s);
      assert h[1..] == SpacesToHyphens(s[1..]);
    }
  }

  /** The slug keeps every letter and digit of the lower-cased words, in
      order, and drops nothing else that would matter: its letters and digits
      are a prefix of theirs, and all of them when the words are at most 100
      characters long. */
  lemma SlugKeepsLettersAndDigits(name: string, producer: string, vintage: Option<real>)
    ensures var text := SlugText(name, producer, vintage);
      var slug := Alnum(GenerateSlug(name, producer, vintage));
      && |slug| <= |Alnum(text)| && slug == Alnum(text)[..|slug|]
      && (|text| <= MaxSlugLength ==> slug == Alnum(text))
  {
    var text := SlugText(name, producer, vintage);
    var full := Hyphenate(KeepSlugChars(text));
    HyphenateKeepsAlnum(text);
    var m := Min(|full|, MaxSlugLength);
    assert full == full[..m] + full[m..];
    AlnumAppend(full[..m], full[m..]);
  }

  /** Before the cut, the slug holds exactly the text's letters and digits,
      and is no longer than the text. */
  lemma HyphenateKeepsAlnum(text: string)
    ensures Alnum(Hyphenate(KeepSlugChars(text))) == Alnum(text)
    ensures |Hyphenate(KeepSlugChars(text))| <= |text|
  {
    var kept := KeepSlugChars(text);
    var collapsed := CollapseSpaces(kept);
    CollapseKeepsSlugChars(kept);
    AlnumOfKept(text);
    AlnumIsNonSpace(kept);
    AlnumIsNonSpace(collapsed);
    AlnumOfHyphens(collapsed);
    KeptNoLonger(text);
    CollapseNoLonger(kept);
  }

  lemma {:induction false} KeptNoLonger(s: string)
    ensures |KeepSlugChars(s)| <= |s|
    decreases |s|
  {
    if |s| > 0 {
      KeptNoLonger(s[1..]);
    }
  }

  lemma {:induction false} CollapseNoLonger(s: string)
    ensures |CollapseSpaces(s)| <= |s|
    decreases |s|
  {
    if |s| > 0 {
      if IsSpace(s[0]) {
        CollapseNoLonger(s[LeadingSpaces(s)..]);
      } else {
        CollapseNoLonger(s[1..]);
      }
    }
  }

  lemma {:induction false} KeptAppend(a: string, b: string)
    ensures KeepSlugChars(a + b) == KeepSlugChars(a) + KeepSlugChars(b)
    decreases |a|
  {
    if |a| == 0 {
      assert a + b == b;
    } else {
      KeptAppend(a[1..], b);
      assert (a + b)[0] == a[0];
      assert (a + b)[1..] == a[1..] + b;
      if SlugKeeps(a[0]) {
        assert KeepSlugChars(a) == [a[0]] + KeepSlugChars(a[1..]);
      }
    }
  }

  /** What follows the name in the joined words. */
  function VintageSuffix(vintage: Option<real>): string {
    if vintage.Some? && vintage.value != 0.0 then " " + NumberToString(vintage.value) else ""
  }

  lemma SlugTextPieces(name: string, producer: string, vintage: Option<real>)
    ensures SlugText(name, producer, vintage)
         == Lower(producer + " ") + Lower(name) + Lower(VintageSuffix(vintage))
  {
    var parts := SlugParts(name, producer, vintage);
    if vintage.Some? && vintage.value != 0.0 {
      var v := NumberToString(vintage.value);
      assert parts[1..] == [name, v];
      assert [name, v][1..] == [v];
      assert Join([v], ' ') == v;
      assert Join([name, v], ' ') == name + [' '] + v;
      assert Join(parts, ' ') == producer + [' '] + (name + [' '] + v);
      assert Join(parts, ' ') == (producer + " ") + name + (" " + v);
    } else {
      assert parts[1..] == [name];
      assert Join(parts, ' ') == (producer + " ") + name + "";
    }
    LowerAppend(producer + " ", name);
    LowerAppend((producer + " ") + name, VintageSuffix(vintage));
  }

  lemma KeptDropsChar(x: string, c: char, y: string)
    requires !SlugKeeps(c)
    ensures KeepSlugChars(x + ([c] + y)) == KeepSlugChars(x + y)
  {
    KeptAppend(x, [c] + y);
    KeptAppend(x, y);
    assert ([c] + y)[0] == c && ([c] + y)[1..] == y;
  }

  lemma SlugTextWithChar(pre: string, c: char, post: string, producer: string, vintage: Option<real>)
    ensures var x := Lower(producer + " ") + Lower(pre);
      var y := Lower(post) + Lower(VintageSuffix(vintage));
      && SlugText(pre + [c] + post, producer, vintage) == x + ([LowerChar(c)] + y)
      && SlugText(pre + post, producer, vintage) == x + y
  {
    var h, t := Lower(producer + " "), Lower(VintageSuffix(vintage));
    SlugTextPieces(pre + [c] + post, producer, vintage);
    SlugTextPieces(pre + post, producer, vintage);
    LowerAppend(pre + [c], post);
    LowerAppend(pre, [c]);
    LowerAppend(pre, post);
    assert Lower([c]) == [LowerChar(c)];
    Regroup(h, Lower(pre), [LowerChar(c)], Lower(post), t);
    Regroup(h, Lower(pre), [], Lower(post), t);
    assert Lower(pre) + [] == Lower(pre) && [] + (Lower(post) + t) == Lower(post) + t;
  }

  lemma Regroup(a: string, b: string, c: string, d: string, e: string)
    ensures a + (b + c + d) + e == (a + b) + (c + (d + e))
  {
  }

  /** A character the slug filter deletes, such as a hyphen, an apostrophe or
      a non-ASCII letter, makes no difference anywhere in the name: so
      "Haut-Brion" gives the same slug as "HautBrion", namely "hautbrion". */
  lemma SlugIgnoresDeletedChars(pre: string, c: char, post: string, producer: string, vintage: Option<real>)
    requires !SlugKeeps(LowerChar(c))
    ensures GenerateSlug(pre + [c] + post, producer, vintage) == GenerateSlug(pre + post, producer, vintage)
  {
    SlugTextWithChar(pre, c, post, producer, vintage);
    var x := Lower(producer + " ") + Lower(pre);
    var y := Lower(post) + Lower(VintageSuffix(vintage));
    KeptDropsChar(x, LowerChar(c), y);
    assert KeepSlugChars(SlugText(pre + [c] + post, producer, vintage))
        == KeepSlugChars(SlugText(pre + post, producer, vintage));
  }

  /** A vintage of 0 is falsy and left out, exactly as a missing one. */
  lemma SlugZeroVintage(name: string, producer: string)
    ensures GenerateSlug(name, producer, Some(0.0)) == GenerateSlug(name, producer, None)
  {
  }

  /** A whole-year vintage is written as its digits after the name. */
  lemma SlugYearVintage(name: string, producer: string, year: int)
    requires year != 0
    ensures SlugText(name, producer, Some(year as real))
         == Lower(producer + " ") + Lower(name) + Lower(" " + IntToString(year))
  {
    SlugTextPieces(name, producer, Some(year as real));
    NumberToStringOfInt(year);
  }

  lemma KeptStartsWithSpace(rest: string)
    ensures var k := KeepSlugChars(" " + rest);
      |k| > 0 && k[0] == ' '
  {
    assert (" " + rest)[0] == ' ' && (" " + rest)[1..] == rest;
  }

  lemma CollapseStartsWithSpace(s: string)
    requires |s| > 0 && s[0] == ' '
    ensures var c := CollapseSpaces(s);
      |c| > 0 && c[0] == ' '
  {
  }

  /** Hyphens at the ends are not trimmed: with no producer the words start
      with a space, so the slug starts with a hyphen. */
  lemma SlugLeadingHyphen(name: string, vintage: Option<real>)
    ensures var r := GenerateSlug(name, "", vintage);
      |r| > 0 && r[0] == '-'
  {
    var rest := NoProducerText(name, vintage);
    KeptStartsWithSpace(rest);
    var kept := KeepSlugChars(" " + rest);
    CollapseStartsWithSpace(kept);
    var full := Hyphenate(kept);
    assert full[0] == '-';
    assert GenerateSlug(name, "", vintage) == full[..Min(|full|, MaxSlugLength)];
  }

  lemma LowerOfSpace()
    ensures Lower("" + " ") == " "
  {
    assert "" + " " == " ";
  }

  lemma PrependAssoc(x: string, a: string, b: string)
    ensures x + a + b == x + (a + b)
  {
  }

  lemma NoProducerText(name: string, vintage: Option<real>) returns (rest: string)
    ensures SlugText(name, "", vintage) == " " + rest
  {
    var a, b := Lower(name), Lower(VintageSuffix(vintage));
    rest := a + b;
    SlugTextPieces(name, "", vintage);
    LowerOfSpace();
    PrependAssoc(" ", a, b);
  }

  // ---------------------------------------------------------------------------
  // insertWineData: one row per record, counted
  // ---------------------------------------------------------------------------

  /** A row of the `products` table as the ingestion script writes it. */
  datatype ProductRow = ProductRow(
    id: string,
    name: string,
    description: Option<string>,
    kind: WineType,
    varietal: string,
    region: string,
    appellation: Option<string>,
    vintage: Option<real>,
    producer: string,
    alcoholContent: real,
    volumeMl: real,
    basePrice: real,
    currentPrice: real,
    averageRating: Option<real>,
    totalReviews: real,
    wineSpectatorScore: Option<real>,
    robertParkerScore: Option<real>,
    jamesSucklingScore: Option<real>,
    primaryImageUrl: Option<string>,
    imageUrls: seq<string>,
    tastingNotes: Option<string>,
    foodPairings: seq<string>,
    servingTemperature: Option<string>,
    agingPotential: Option<string>,
    sellerId: string,
    availableQuantity: nat,
    slug: string,
    createdAt: Instant,
    updatedAt: Instant)

  /** `x || 0` for an optional count: absent and 0 both give 0. */
  function OrZero(x: Option<real>): real {
    if x.Some? && x.value != 0.0 then x.value else 0.0
  }

  /** The row written for `w`, with the fresh id and the current time. */
  function BuildRow(w: WineData, sellerId: string, id: string, now: Instant): (row: ProductRow)
    ensures row.sellerId == sellerId && row.availableQuantity == 1
    ensures row.totalReviews == w.totalReviews.GetOr(0.0)
    ensures row.slug == GenerateSlug(w.name, w.producer, w.vintage)
  {
    ProductRow(
      id, w.name, w.description, w.kind, w.varietal, w.region, w.appellation, w.vintage,
      w.producer, w.alcoholContent, w.volumeMl, w.basePrice, w.currentPrice, w.averageRating,
      OrZero(w.totalReviews), w.wineSpectatorScore, w.robertParkerScore, w.jamesSucklingScore,
      w.primaryImageUrl, w.imageUrls.GetOr([]), w.tastingNotes, w.foodPairings.GetOr([]),
      w.servingTemperature, w.agingPotential, sellerId, 1,
      GenerateSlug(w.name, w.producer, w.vintage), now, now)
  }

  /** The record a row describes, given the two fields the row does not store. */
  function RecordOf(row: ProductRow, sourceUrl: Option<string>, scrapedAt: Instant): WineData {
    WineData(
      row.name, row.description, row.kind, row.varietal, row.region, row.appellation, row.vintage,
      row.producer, row.alcoholContent, row.volumeMl, row.basePrice, row.currentPrice,
      row.averageRating, Some(row.totalReviews), row.wineSpectatorScore, row.robertParkerScore,
      row.jamesSucklingScore, row.primaryImageUrl, Some(row.imageUrls), row.tastingNotes,
      Some(row.foodPairings), row.servingTemperature, row.agingPotential, sourceUrl, scrapedAt)
  }

  /** A row carries every field of its record unchanged, except that the three
      optional lists and counts get their defaults; the source URL and the
      scrape time are not stored. */
  lemma RowKeepsRecord(w: WineData, sellerId: string, id: string, now: Instant)
    ensures RecordOf(BuildRow(w, sellerId, id, now), w.sourceUrl, w.scrapedAt)
         == w.(totalReviews := Some(w.totalReviews.GetOr(0.0)),
               imageUrls := Some(w.imageUrls.GetOr([])),
               foodPairings := Some(w.foodPairings.GetOr([])))
  {
  }

  /** How the store answered one insert. */
  datatype InsertReply = Inserted | Rejected(message: string) | Threw(message: string)

  /** The counters `insertWineData` returns. */
  datatype InsertTally = InsertTally(success: nat, failed: nat)

  /** Number of inserts the store accepted. */
  function CountInserted(replies: seq<InsertReply>): nat {
    if |replies| == 0 then 0
    else CountInserted(replies[..|replies| - 1]) + (if replies[|replies| - 1].Inserted? then 1 else 0)
  }

  /** The rows the store holds afterwards, in order: those of accepted inserts. */
  function AcceptedRows(wines: seq<WineData>, sellerId: string, ids: seq<string>,
                        replies: seq<InsertReply>, now: Instant): (rows: seq<ProductRow>)
    requires |ids| == |wines| && |replies| == |wines|
    ensures |rows| == CountInserted(replies)
    decreases |wines|
  {
    if |wines| == 0 then []
    else
      var n := |wines| - 1;
      AcceptedRows(wines[..n], sellerId, ids[..n], replies[..n], now)
        + (if replies[n].Inserted? then [BuildRow(wines[n], sellerId, ids[n], now)] else [])
  }

  /** `insertWineData(wines, sellerId)`: one insert per record, in order, with
      `ids[i]` the fresh id and `replies[i]` the store's answer for record
      `i`. A refused or failing insert is counted and the loop goes on. */
  method InsertWineData(wines: seq<WineData>, sellerId: string, ids: seq<string>,
                        replies: seq<InsertReply>, now: Instant, products: seq<ProductRow>)
    returns (tally: InsertTally, stored: seq<ProductRow>)
    requires |ids| == |wines| && |replies| == |wines|
    ensures tally.success + tally.failed == |wines|
    ensures tally.success == CountInserted(replies)
    ensures stored == products + AcceptedRows(wines, sellerId, ids, replies, now)
  {
    var success, failed := 0, 0;
    stored := products;
    for i := 0 to |wines|
      invariant success + failed == i
      invariant success == CountInserted(replies[..i])
      invariant stored == products + AcceptedRows(wines[..i], sellerId, ids[..i], replies[..i], now)
    {
      assert wines[..i + 1][..i] == wines[..i];
      assert ids[..i + 1][..i] == ids[..i];
      assert replies[..i + 1][..i] == replies[..i];
      match replies[i]
      case Inserted =>
        stored := stored + [BuildRow(wines[i], sellerId, ids[i], now)];
        success := success + 1;
      case Rejected(_) =>
        failed := failed + 1;
      case Threw(_) =>
        failed := failed + 1;
    }
    assert wines[..|wines|] == wines && ids[..|ids|] == ids && replies[..|replies|] == replies;
    tally := InsertTally(success, failed);
  }

  /** Record `i` has a row in the store exactly when its own insert was
      accepted, whatever happened to the records before it. */
  lemma {:induction false} AcceptedRowsMembership(wines: seq<WineData>, sellerId: string, ids: seq<string>,
                                                  replies: seq<InsertReply>, now: Instant, i: nat)
    requires |ids| == |wines| && |replies| == |wines| && i < |wines|
    requires forall j, k :: 0 <= j < k < |ids| ==> ids[j] != ids[k]
    ensures (exists row :: row in AcceptedRows(wines, sellerId, ids, replies, now) && row.id == ids[i])
        <==> replies[i].Inserted?
    ensures replies[i].Inserted? ==> BuildRow(wines[i], sellerId, ids[i], now) in AcceptedRows(wines, sellerId, ids, replies, now)
    decreases |wines|
  {
    var n := |wines| - 1;
    var front := AcceptedRows(wines[..n], sellerId, ids[..n], replies[..n], now);
    var rows := AcceptedRows(wines, sellerId, ids, replies, now);
    RowIdsFrom(wines[..n], sellerId, ids[..n], replies[..n], now);
    if i < n {
      AcceptedRowsMembership(wines[..n], sellerId, ids[..n], replies[..n], now, i);
      if replies[n].Inserted? {
        assert rows == front + [BuildRow(wines[n], sellerId, ids[n], now)];
      } else {
        assert rows == front;
      }
    } else {
      assert forall row :: row in front ==> row.id != ids[n];
      if replies[n].Inserted? {
        assert rows == front + [BuildRow(wines[n], sellerId, ids[n], now)];
      } else {
        assert rows == front;
      }
    }
  }

  /** Every row of an accepted batch carries one of the batch's ids. */
  lemma {:induction false} RowIdsFrom(wines: seq<WineData>, sellerId: string, ids: seq<string>,
                                      replies: seq<InsertReply>, now: Instant)
    requires |ids| == |wines| && |replies| == |wines|
    ensures forall row :: row in AcceptedRows(wines, sellerId, ids, replies, now) ==> row.id in ids
    decreases |wines|
  {
    if |wines| > 0 {
      var n := |wines| - 1;
      RowIdsFrom(wines[..n], sellerId, ids[..n], replies[..n], now);
      assert forall x :: x in ids[..n] ==> x in ids;
    }
  }

  /** Five records whose third insert is refused: four stored, one failed. */
  method ThirdOfFiveRefused(wines: seq<WineData>, sellerId: string, ids: seq<string>, now: Instant)
    returns (tally: InsertTally)
    requires |wines| == 5 && |ids| == 5
    ensures tally == InsertTally(4, 1)
  {
    var replies := [Inserted, Inserted, Rejected("duplicate key"), Inserted, Inserted];
    assert replies[..1][..0] == [];
    assert CountInserted(replies[..1]) == 1;
    assert replies[..2][..1] == replies[..1];
    assert CountInserted(replies[..2]) == 2;
    assert replies[..3][..2] == replies[..2];
    assert CountInserted(replies[..3]) == 2;
    assert replies[..4][..3] == replies[..3];
    assert CountInserted(replies[..4]) == 3;
    assert replies[..5][..4] == replies[..4];
    assert replies[..5] == replies;
    var stored;
    tally, stored := InsertWineData(wines, sellerId, ids, replies, now, []);
  }

  // ---------------------------------------------------------------------------
  // Sellers
  // ---------------------------------------------------------------------------

  datatype VerificationStatus = Unverified | Verified

  /** A row of the `sellers` table. */
  datatype SellerRow = SellerRow(
    id: string,
    userId: Option<string>,
    businessName: string,
    licenseNumber: string,
    licenseState: string,
    status: VerificationStatus,
    sellerRating: Option<real>,
    totalSales: Option<nat>,
    yearsInBusiness: Option<nat>,
    createdAt: Instant,
    updatedAt: Instant)

  /** What a lookup of one seller's id gives back. */
  datatype Lookup = Found(id: string) | NotFound | LookupFailed

  /** The sellers with license number `license`, in store order. */
  function WithLicense(store: seq<SellerRow>, license: string): (rows: seq<SellerRow>)
    ensures forall row :: row in rows <==> row in store && row.licenseNumber == license
  {
    if |store| == 0 then []
    else WithLicense(store[..|store| - 1], license)
         + (if store[|store| - 1].licenseNumber == license then [store[|store| - 1]] else [])
  }

  /** The sellers with business name `name`, in store order. */
  function WithBusinessName(store: seq<SellerRow>, name: string): (rows: seq<SellerRow>)
    ensures forall row :: row in rows <==> row in store && row.businessName == name
  {
    if |store| == 0 then []
    else WithBusinessName(store[..|store| - 1], name)
         + (if store[|store| - 1].businessName == name then [store[|store| - 1]] else [])
  }

  /** `.maybeSingle()`: no row is not an error, one row is found, several
      rows are an error. */
  function MaybeSingle(rows: seq<SellerRow>): (r: Lookup)
    ensures r.Found? <==> |rows| == 1
    ensures r.NotFound? <==> |rows| == 0
  {
    if |rows| == 0 then NotFound else if |rows| == 1 then Found(rows[0].id) else LookupFailed
  }

  /** `.single()`: anything but exactly one row is an error. */
  function Single(rows: seq<SellerRow>): (r: Lookup)
    ensures r.Found? <==> |rows| == 1
    ensures !r.NotFound?
  {
    if |rows| == 1 then Found(rows[0].id) else LookupFailed
  }

  /** A seller id and the seller table after the call. */
  datatype SellerOutcome = SellerOutcome(id: string, sellers: seq<SellerRow>)

  /** The row `findOrCreateSeller` inserts for a scraped seller. */
  function ScrapedSeller(id: string, businessName: string, license: string, now: Instant): SellerRow {
    SellerRow(id, None, businessName, license, "CA", Unverified, None, None, None, now, now)
  }

  /** `findOrCreateSeller(businessName, license)`. `lookupFails` says the
      select errored (the error is only logged, and the call goes on as if
      nothing were found); `newId` is the fresh id; `insertError` is the
      store's answer to the insert. */
  function FindOrCreateSeller(store: seq<SellerRow>, businessName: string, license: string,
                              lookupFails: bool, newId: string, insertError: Option<string>,
                              now: Instant): (r: Result<SellerOutcome>)
    ensures r.Ok? && r.value.sellers == store ==>
      exists row :: row in store && row.licenseNumber == license && row.id == r.value.id
    ensures r.Ok? && r.value.sellers != store ==>
      r.value.id == newId && r.value.sellers == store + [ScrapedSeller(newId, businessName, license, now)]
    ensures r.Err? ==> insertError.Some? && r.message == "Failed to create seller: " + insertError.value
    ensures !lookupFails && |WithLicense(store, license)| == 1 ==>
      r == Ok(SellerOutcome(WithLicense(store, license)[0].id, store))
    ensures (lookupFails || |WithLicense(store, license)| != 1) && insertError.Some? ==>
      r == Err("Failed to create seller: " + insertError.value)
    ensures (lookupFails || |WithLicense(store, license)| != 1) && insertError.None? ==>
      r == Ok(SellerOutcome(newId, store + [ScrapedSeller(newId, businessName, license, now)]))
  {
    var lookup := if lookupFails then LookupFailed else MaybeSingle(WithLicense(store, license));
    if lookup.Found? then
      assert WithLicense(store, license)[0] in WithLicense(store, license);
      Ok(SellerOutcome(lookup.id, store))
    else if insertError.Some? then Err("Failed to create seller: " + insertError.value)
    else
      var sellers := store + [ScrapedSeller(newId, businessName, license, now)];
      assert sellers != store by { assert |sellers| != |store|; }
      Ok(SellerOutcome(newId, sellers))
  }

  lemma {:induction false} WithLicenseAppend(store: seq<SellerRow>, row: SellerRow, license: string)
    ensures WithLicense(store + [row], license)
         == WithLicense(store, license) + (if row.licenseNumber == license then [row] else [])
  {
    assert (store + [row])[..|store|] == store;
  }

  /** With the license on record exactly once and a working lookup, the
      existing id comes back and the table is left as it was. */
  lemma FindsExistingSeller(store: seq<SellerRow>, businessName: string, license: string,
                            newId: string, insertError: Option<string>, now: Instant)
    requires |WithLicense(store, license)| == 1
    ensures FindOrCreateSeller(store, businessName, license, false, newId, insertError, now)
         == Ok(SellerOutcome(WithLicense(store, license)[0].id, store))
  {
  }

  /** With the license unknown, a seller is created, once: a second call with
      the same license finds it, returns the same id and adds nothing. */
  lemma FindOrCreateIdempotent(store: seq<SellerRow>, businessName: string, license: string,
                               newId: string, otherId: string, insertError: Option<string>,
                               now: Instant, later: Instant)
    requires |WithLicense(store, license)| == 0
    ensures var first := FindOrCreateSeller(store, businessName, license, false, newId, None, now);
      && first == Ok(SellerOutcome(newId, store + [ScrapedSeller(newId, businessName, license, now)]))
      && |WithLicense(first.value.sellers, license)| == 1
      && FindOrCreateSeller(first.value.sellers, businessName, license, false, otherId, insertError, later)
         == first
  {
    var row := ScrapedSeller(newId, businessName, license, now);
    WithLicenseAppend(store, row, license);
  }

  /** A failed lookup is treated as "not found": a seller already on record
      gets a second row with the same license. */
  lemma LookupFailureDuplicates(store: seq<SellerRow>, businessName: string, license: string,
                                newId: string, now: Instant)
    ensures var r := FindOrCreateSeller(store, businessName, license, true, newId, None, now);
      && r.Ok? && r.value.id == newId
      && |WithLicense(r.value.sellers, license)| == |WithLicense(store, license)| + 1
  {
    WithLicenseAppend(store, ScrapedSeller(newId, businessName, license, now), license);
  }

  /** The seller `ensureDefaultSeller` creates for generated products. */
  const DefaultBusinessName: string := "AI Generated Marketplace"

  function DefaultSeller(id: string, now: Instant): SellerRow {
    SellerRow(id, None, DefaultBusinessName, "AI-GEN-001", "CA", Verified, Some(4.8), Some(1000), Some(5), now, now)
  }

  /** `ensureDefaultSeller()`: the id of the one seller named "AI Generated
      Marketplace", creating it when the single-row lookup does not succeed.
      An insert error is passed on unchanged. */
  function EnsureDefaultSeller(store: seq<SellerRow>, lookupFails: bool, newId: string,
                               insertError: Option<string>, now: Instant): (r: Result<SellerOutcome>)
    ensures r.Ok? && r.value.sellers == store ==>
      !lookupFails && |WithBusinessName(store, DefaultBusinessName)| == 1
      && r.value.id == WithBusinessName(store, DefaultBusinessName)[0].id
    ensures r.Ok? && r.value.sellers != store ==>
      r.value.id == newId && r.value.sellers == store + [DefaultSeller(newId, now)]
    ensures r.Err? ==> insertError == Some(r.message)
    ensures !lookupFails && |WithBusinessName(store, DefaultBusinessName)| == 1 ==>
      r == Ok(SellerOutcome(WithBusinessName(store, DefaultBusinessName)[0].id, store))
    ensures (lookupFails || |WithBusinessName(store, DefaultBusinessName)| != 1) && insertError.Some? ==>
      r == Err(insertError.value)
    ensures (lookupFails || |WithBusinessName(store, DefaultBusinessName)| != 1) && insertError.None? ==>
      r == Ok(SellerOutcome(newId, store + [DefaultSeller(newId, now)]))
  {
    var lookup := if lookupFails then LookupFailed else Single(WithBusinessName(store, DefaultBusinessName));
    if lookup.Found? then Ok(SellerOutcome(lookup.id, store))
    else if insertError.Some? then Err(insertError.value)
    else
      var sellers := store + [DefaultSeller(newId, now)];
      assert sellers != store by { assert |sellers| != |store|; }
      Ok(SellerOutcome(newId, sellers))
  }

  lemma {:induction false} WithBusinessNameAppend(store: seq<SellerRow>, row: SellerRow, name: string)
    ensures WithBusinessName(store + [row], name)
         == WithBusinessName(store, name) + (if row.businessName == name then [row] else [])
  {
    assert (store + [row])[..|store|] == store;
  }

  /** Once the default seller exists, later calls return it and add nothing. */
  lemma DefaultSellerStable(store: seq<SellerRow>, newId: string, otherId: string,
                            insertError: Option<string>, now: Instant, later: Instant)
    requires |WithBusinessName(store, DefaultBusinessName)| == 0
    ensures var first := EnsureDefaultSeller(store, false, newId, None, now);
      && first == Ok(SellerOutcome(newId, store + [DefaultSeller(newId, now)]))
      && EnsureDefaultSeller(first.value.sellers, false, otherId, insertError, later) == first
  {
    WithBusinessNameAppend(store, DefaultSeller(newId, now), DefaultBusinessName);
  }

  /** `.single()` fails on two rows, so two default sellers make every later
      call insert yet another one. */
  lemma DuplicateDefaultSellersGrow(store: seq<SellerRow>, newId: string, now: Instant)
    requires |WithBusinessName(store, DefaultBusinessName)| == 2
    ensures var r := EnsureDefaultSeller(store, false, newId, None, now);
      && r.Ok? && r.value.id == newId
      && |WithBusinessName(r.value.sellers, DefaultBusinessName)| == 3
  {
    WithBusinessNameAppend(store, DefaultSeller(newId, now), DefaultBusinessName);
  }
}
