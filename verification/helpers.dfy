/** The text extractors every scraper and the generator share
    (`utils/helpers.ts`): numbers, years, quantities and prices pulled out of
    free text, whitespace clean-up, and the keyword rules that classify a
    product and name its grape. */
module Helpers {
  import opened Options
  import opened Text
  import opened Numbers
  import opened WineTypes

  // ---------------------------------------------------------------------------
  // extractNumber: the first run of digits and points, parsed
  // ---------------------------------------------------------------------------

  /** Index of the first digit or point at or after `i`, or `|s|` if none. */
  function FirstDecimalChar(s: string, i: nat): (k: nat)
    requires i <= |s|
    ensures i <= k <= |s|
    ensures k < |s| ==> IsDecimalChar(s[k])
    ensures forall j :: i <= j < k ==> !IsDecimalChar(s[j])
    decreases |s| - i
  {
    if i == |s| || IsDecimalChar(s[i]) then i else FirstDecimalChar(s, i + 1)
  }

  /** Number of consecutive digits and points of `s` from index `i` on. */
  function DecimalRun(s: string, i: nat): (n: nat)
    requires i <= |s|
    ensures i + n <= |s|
    ensures forall j :: i <= j < i + n ==> IsDecimalChar(s[j])
    ensures i + n < |s| ==> !IsDecimalChar(s[i + n])
    decreases |s| - i
  {
    if i < |s| && IsDecimalChar(s[i]) then 1 + DecimalRun(s, i + 1) else 0
  }

  /** `s[k..k+n]` is what `/[\d.]+/` matches in `s`: the leftmost run of digits
      and points, taken as long as it goes. */
  predicate IsFirstDecimalRun(s: string, k: nat, n: nat) {
    && 0 < n && k + n <= |s|
    && (forall j :: k <= j < k + n ==> IsDecimalChar(s[j]))
    && (forall j :: 0 <= j < k ==> !IsDecimalChar(s[j]))
    && (k + n < |s| ==> !IsDecimalChar(s[k + n]))
  }

  /** `extractNumber(s)`: `parseFloat` of the first run of digits and points,
      or null when `s` has neither. A run of points alone parses to NaN, which
      the source passes on as it is. */
  function ExtractNumber(s: string): (r: Option<JsNum>)
    ensures r.None? <==> forall j :: 0 <= j < |s| ==> !IsDecimalChar(s[j])
  {
    var k := FirstDecimalChar(s, 0);
    if k == |s| then None else Some(ParseDecimal(DecimalRunText(s, k)))
  }

  /** The run of digits and points that starts at `k`. */
  function DecimalRunText(s: string, k: nat): (t: string)
    requires k <= |s|
    ensures DecimalChars(t)
  {
    s[k..k + DecimalRun(s, k)]
  }

  lemma {:induction false} DecimalRunIs(s: string, i: nat, n: nat)
    requires i + n <= |s|
    requires forall j :: i <= j < i + n ==> IsDecimalChar(s[j])
    requires i + n < |s| ==> !IsDecimalChar(s[i + n])
    ensures DecimalRun(s, i) == n
    decreases n
  {
    if n > 0 {
      DecimalRunIs(s, i + 1, n - 1);
    }
  }

  /** The number extracted is the parse of exactly the leftmost maximal run,
      and it is NaN exactly when that run does not open with a number. */
  lemma ExtractNumberFirstRun(s: string, k: nat, n: nat)
    requires IsFirstDecimalRun(s, k, n)
    ensures DecimalChars(s[k..k + n])
    ensures ExtractNumber(s) == Some(ParseDecimal(s[k..k + n]))
    ensures ExtractNumber(s) == Some(NaN) <==> !StartsNumeric(s[k..k + n])
  {
    FirstDecimalRunIs(s, k, n);
    assert DecimalRunText(s, k) == s[k..k + n];
  }

  lemma FirstDecimalRunIs(s: string, k: nat, n: nat)
    requires IsFirstDecimalRun(s, k, n)
    ensures FirstDecimalChar(s, 0) == k && DecimalRun(s, k) == n
  {
    FirstDecimalCharIs(s, 0, k);
    DecimalRunIs(s, k, n);
  }

  lemma {:induction false} FirstDecimalCharIs(s: string, i: nat, k: nat)
    requires i <= k < |s| && IsDecimalChar(s[k])
    requires forall j :: i <= j < k ==> !IsDecimalChar(s[j])
    ensures FirstDecimalChar(s, i) == k
    decreases k - i
  {
    if i < k {
      FirstDecimalCharIs(s, i + 1, k);
    }
  }

  // ---------------------------------------------------------------------------
  // extractYear: a stand-alone year 1900..2099
  // ---------------------------------------------------------------------------

  /** `/\b(19|20)\d{2}\b/` matches at index `i` of `s`. */
  predicate YearAt(s: string, i: nat) {
    && i + 4 <= |s|
    && ((s[i] == '1' && s[i + 1] == '9') || (s[i] == '2' && s[i + 1] == '0'))
    && IsDigit(s[i + 2]) && IsDigit(s[i + 3])
    && (i == 0 || !IsWordChar(s[i - 1]))
    && (i + 4 == |s| || !IsWordChar(s[i + 4]))
  }

  /** `parseInt` of the four matched digits. */
  function YearValue(s: string, i: nat): (y: nat)
    requires YearAt(s, i)
  {
    var t := s[i..i + 4];
    assert AllDigits(t);
    DigitsValue(t)
  }

  lemma FourDigits(t: string)
    requires |t| == 4 && AllDigits(t)
    ensures DigitsValue(t)
         == 1000 * DigitValue(t[0]) + 100 * DigitValue(t[1]) + 10 * DigitValue(t[2]) + DigitValue(t[3])
  {
    var t1, t2, t3 := t[..1], t[..2], t[..3];
    assert t1[..0] == "" && t2[..1] == t1 && t3[..2] == t2 && t[..3] == t3;
    assert DigitsValue(t1) == DigitValue(t[0]);
    assert DigitsValue(t2) == 10 * DigitValue(t[0]) + DigitValue(t[1]);
    assert DigitsValue(t3) == 100 * DigitValue(t[0]) + 10 * DigitValue(t[1]) + DigitValue(t[2]);
  }

  /** The leftmost year match from index `i` on. */
  function FindYear(s: string, i: nat): (r: Option<nat>)
    requires i <= |s|
    ensures r.Some? ==> i <= r.value && YearAt(s, r.value)
                        && forall j :: i <= j < r.value ==> !YearAt(s, j)
    ensures r.None? ==> forall j: nat :: i <= j ==> !YearAt(s, j)
    decreases |s| - i
  {
    if |s| < i + 4 then None
    else if YearAt(s, i) then Some(i)
    else FindYear(s, i + 1)
  }

  /** `extractYear(s)`: the leftmost stand-alone year of the 1900s or 2000s. */
  function ExtractYear(s: string): (r: Option<nat>)
    ensures r.Some? ==> 1900 <= r.value <= 2099
    ensures r.None? <==> forall i: nat :: !YearAt(s, i)
  {
    match FindYear(s, 0)
    case None => None
    case Some(i) =>
      FourDigits(s[i..i + 4]);
      Some(YearValue(s, i))
  }

  /** The year found is the value of the leftmost match. */
  lemma ExtractYearLeftmost(s: string, i: nat)
    requires YearAt(s, i)
    requires forall j: nat :: j < i ==> !YearAt(s, j)
    ensures ExtractYear(s) == Some(YearValue(s, i))
  {
    assert FindYear(s, 0) == Some(i);
  }

  // ---------------------------------------------------------------------------
  // cleanText
  // ---------------------------------------------------------------------------

  /** `cleanText(s)`: whitespace runs collapsed to one space (newline runs
      too), then trimmed. */
  function CleanText(s: string): (r: string)
    ensures |r| > 0 ==> !IsSpace(r[0]) && !IsSpace(r[|r| - 1])
    ensures SingleSpaced(r)
    ensures NonSpace(r) == NonSpace(s)
  {
    var collapsed := CollapseSpaces(s);
    assert '\n' !in collapsed by {
      forall i | 0 <= i < |collapsed| ensures collapsed[i] != '\n' {
        assert IsSpace('\n');
      }
    }
    ReplaceNewlinesWithout(collapsed);
    var spaced := ReplaceNewlines(collapsed);
    TrimKeepsSingleSpaced(spaced);
    TrimKeepsNonSpace(spaced);
    Trim(spaced)
  }

  /** `cleanText` is the trimmed collapse: the newline pass finds nothing
      left to replace. */
  lemma {:induction false} CleanTextIsTrimmedCollapse(s: string)
    ensures CleanText(s) == Trim(CollapseSpaces(s))
  {
    var collapsed := CollapseSpaces(s);
    assert '\n' !in collapsed by {
      forall i | 0 <= i < |collapsed| ensures collapsed[i] != '\n' {
        assert IsSpace('\n');
      }
    }
    ReplaceNewlinesWithout(collapsed);
  }

  /** Between two visible characters, a whitespace run of any length and
      kind (spaces, tabs, newlines) becomes exactly one space: the words on
      either side are cleaned on their own and joined by " ". */
  lemma {:induction false} CleanTextJoin(a: string, ws: string, b: string)
    requires |a| > 0 && !IsSpace(a[|a| - 1])
    requires |ws| > 0 && forall i :: 0 <= i < |ws| ==> IsSpace(ws[i])
    requires |b| > 0 && !IsSpace(b[0])
    ensures CleanText(a + ws + b) == CleanText(a) + " " + CleanText(b)
  {
    var ca, cb := CollapseSpaces(a), CollapseSpaces(b);
    CollapseJoin(a, ws, b);
    CollapseLast(a);
    TrimJoin(ca, cb);
    CleanTextIsTrimmedCollapse(a + ws + b);
    CleanTextIsTrimmedCollapse(a);
    CleanTextIsTrimmedCollapse(b);
  }

  /** A single visible character is already clean. */
  lemma CleanTextOfVisible(c: char)
    requires !IsSpace(c)
    ensures CleanText([c]) == [c]
  {
    CollapseSingleSpaced([c]);
    CleanTextIsTrimmedCollapse([c]);
  }

  /** Spaces, a newline and a tab between two words become one space. */
  lemma CleanTextKeepsSpace()
    ensures CleanText("a \n\t b") == "a b"
  {
    var ws := " \n\t ";
    assert forall i :: 0 <= i < |ws| ==> IsSpace(ws[i]);
    SpacedPieces();
    CleanTextJoin("a", ws, "b");
    CleanTextOfVisible('a');
    CleanTextOfVisible('b');
  }

  lemma SpacedPieces()
    ensures "a" + " \n\t " + "b" == "a \n\t b"
    ensures "a" + " " + "b" == "a b"
  {
  }

  /** Cleaning clean text changes nothing. */
  lemma CleanTextIdempotent(s: string)
    ensures CleanText(CleanText(s)) == CleanText(s)
  {
    var c := CleanText(s);
    CollapseSingleSpaced(c);
    ReplaceNewlinesWithout(c);
    TrimUntouched(c);
  }

  /** A cleaned string is empty exactly when the original was all whitespace. */
  lemma CleanTextEmpty(s: string)
    ensures CleanText(s) == "" <==> NonSpace(s) == ""
  {
    var c := CleanText(s);
    if c != "" {
      NonSpaceOfVisibleStart(c);
    }
  }

  // ---------------------------------------------------------------------------
  // Quantities: `(\d+(?:\.\d+)?)\s*UNIT`
  // ---------------------------------------------------------------------------

  /** End of the number `\d+(?:\.\d+)?` that starts at `i`, taken as long as it
      goes. A backtracking engine cannot succeed with a shorter number: what
      would follow it is a digit, which neither whitespace nor any unit matches. */
  function QuantityEnd(s: string, i: nat): (e: nat)
    requires i < |s| && IsDigit(s[i])
    ensures i < e <= |s|
  {
    var a := i + DigitRun(s, i);
    if a + 1 < |s| && s[a] == '.' && IsDigit(s[a + 1]) then a + 1 + DigitRun(s, a + 1) else a
  }

  /** The three units the extractors look for. */
  datatype Unit = Percent | Millilitres | Litres

  /** The unit alternative matches at index `k`: `%`; `ml|mL|ML`; or
      `l|L|liter|Liter`, where the words only ever begin with a bare `l`/`L`
      that already matches, so a single letter decides. */
  predicate UnitAt(s: string, k: nat, u: Unit) {
    match u
    case Percent => k < |s| && s[k] == '%'
    case Millilitres =>
      k + 2 <= |s| && (s[k..k + 2] == "ml" || s[k..k + 2] == "mL" || s[k..k + 2] == "ML")
    case Litres => k < |s| && (s[k] == 'l' || s[k] == 'L')
  }

  /** The quantity pattern for `u` matches with its number starting at `i`. */
  predicate QuantityAt(s: string, i: nat, u: Unit) {
    i < |s| && IsDigit(s[i]) && UnitAt(s, SpacesEnd(s, QuantityEnd(s, i)), u)
  }

  /** The number part of a quantity at `i`. */
  function QuantityText(s: string, i: nat): (t: string)
    requires i < |s| && IsDigit(s[i])
    ensures |t| > 0 && DecimalChars(t) && IsDigit(t[0])
  {
    s[i..QuantityEnd(s, i)]
  }

  /** `parseFloat(match[1])` for a quantity at `i`: never NaN, since the match
      starts with a digit. */
  function QuantityValue(s: string, i: nat): (v: real)
    requires i < |s| && IsDigit(s[i])
    ensures v >= 0.0
  {
    ParseDecimal(QuantityText(s, i)).value
  }

  /** Index of the leftmost quantity with unit `u` at or after `i`, or `|s|`
      when there is none. */
  function QuantityIndex(s: string, u: Unit, i: nat): (k: nat)
    requires i <= |s|
    ensures i <= k <= |s|
    ensures k < |s| ==> QuantityAt(s, k, u)
    ensures forall j :: i <= j < k ==> !QuantityAt(s, j, u)
    decreases |s| - i
  {
    if i == |s| || QuantityAt(s, i, u) then i else QuantityIndex(s, u, i + 1)
  }

  /** The value of the leftmost quantity with unit `u` from index `i` on. */
  function FirstQuantity(s: string, u: Unit, i: nat): (r: Option<real>)
    requires i <= |s|
    ensures r.None? <==> forall k :: i <= k < |s| ==> !QuantityAt(s, k, u)
    ensures r.Some? ==> r.value >= 0.0
  {
    var k := QuantityIndex(s, u, i);
    if k == |s| then None else Some(QuantityValue(s, k))
  }

  /** The value found is that of the leftmost match. */
  lemma FirstQuantityLeftmost(s: string, u: Unit, i: nat, k: nat)
    requires i <= k < |s| && QuantityAt(s, k, u)
    requires forall j :: i <= j < k ==> !QuantityAt(s, j, u)
    ensures FirstQuantity(s, u, i) == Some(QuantityValue(s, k))
  {
    var m := QuantityIndex(s, u, i);
    assert m == k;
  }

  /** `extractAlcoholContent(s)`: the number of the first `%`-quantity. */
  function ExtractAlcoholContent(s: string): (r: Option<real>)
    ensures r.None? <==> forall k :: 0 <= k < |s| ==> !QuantityAt(s, k, Percent)
    ensures r.Some? ==> exists k :: 0 <= k < |s| && QuantityAt(s, k, Percent) && r.value == QuantityValue(s, k)
  {
    var k := QuantityIndex(s, Percent, 0);
    assert k < |s| ==> QuantityAt(s, k, Percent);
    FirstQuantity(s, Percent, 0)
  }

  /** The alcohol content is read from the leftmost `%`-quantity. */
  lemma AlcoholLeftmost(s: string, k: nat)
    requires k < |s| && QuantityAt(s, k, Percent)
    requires forall j :: 0 <= j < k ==> !QuantityAt(s, j, Percent)
    ensures ExtractAlcoholContent(s) == Some(QuantityValue(s, k))
  {
    FirstQuantityLeftmost(s, Percent, 0, k);
  }

  /** The bottle size named by keyword alone, for text with no quantity. */
  function KeywordVolume(s: string): real {
    if Contains(s, "standard") then 750.0
    else if Contains(s, "magnum") then 1500.0
    else if Contains(s, "half") then 375.0
    else 750.0
  }

  /** `extractVolumeML(s)`: a millilitre quantity as it is, else a litre
      quantity times 1000, else a size named in the text, else 750. The source
      types the result as nullable but always returns a number. */
  function ExtractVolumeML(s: string): (r: real)
    ensures r >= 0.0
  {
    var ml := FirstQuantity(s, Millilitres, 0);
    var litres := FirstQuantity(s, Litres, 0);
    if ml.Some? then ml.value
    else if litres.Some? then litres.value * 1000.0
    else if Contains(s, "750ml") || Contains(s, "standard") then 750.0
    else if Contains(s, "1.5L") || Contains(s, "magnum") then 1500.0
    else if Contains(s, "375ml") || Contains(s, "half") then 375.0
    else 750.0
  }

  /** A three-digit millilitre size such as `750ml` written at index `k` is a
      quantity the millilitre pattern finds. */
  lemma MillilitresAt(s: string, k: nat, t: string)
    requires |t| == 5 && IsDigit(t[0]) && IsDigit(t[1]) && IsDigit(t[2]) && t[3] == 'm' && t[4] == 'l'
    requires OccursAt(s, t, k)
    ensures QuantityAt(s, k, Millilitres)
  {
    assert s[k] == t[0] && s[k + 1] == t[1] && s[k + 2] == t[2];
    assert s[k + 3..k + 5] == "ml";
    DigitRunIs(s, k, 3);
    assert QuantityEnd(s, k) == k + 3;
    assert SpacesEnd(s, k + 3) == k + 3;
  }

  /** The literal size checks `750ml`, `1.5L` and `375ml` can never decide the
      result: any text containing one of them already has a quantity the two
      regular expressions find. Only the words `standard`, `magnum` and `half`
      reach the fall-back. */
  lemma VolumeLiteralsSubsumed(s: string)
    ensures ExtractVolumeML(s) ==
      var ml := FirstQuantity(s, Millilitres, 0);
      var litres := FirstQuantity(s, Litres, 0);
      if ml.Some? then ml.value
      else if litres.Some? then litres.value * 1000.0
      else KeywordVolume(s)
  {
    if Contains(s, "750ml") {
      MillilitreLiteralFound(s, "750ml");
    }
    if Contains(s, "375ml") {
      MillilitreLiteralFound(s, "375ml");
    }
    if Contains(s, "1.5L") {
      MagnumLiteralFound(s);
    }
  }

  lemma MillilitreLiteralFound(s: string, t: string)
    requires |t| == 5 && IsDigit(t[0]) && IsDigit(t[1]) && IsDigit(t[2]) && t[3] == 'm' && t[4] == 'l'
    requires Contains(s, t)
    ensures FirstQuantity(s, Millilitres, 0).Some?
  {
    ContainsIff(s, t);
    var k: nat :| OccursAt(s, t, k);
    MillilitresAt(s, k, t);
  }

  lemma MagnumLiteralFound(s: string)
    requires Contains(s, "1.5L")
    ensures FirstQuantity(s, Litres, 0).Some?
  {
    ContainsIff(s, "1.5L");
    var k: nat :| OccursAt(s, "1.5L", k);
    assert s[k] == '1' && s[k + 1] == '.' && s[k + 2] == '5' && s[k + 3] == 'L' by {
      assert s[k..k + 4] == "1.5L";
    }
    DigitRunIs(s, k, 1);
    DigitRunIs(s, k + 2, 1);
    assert QuantityEnd(s, k) == k + 3;
    assert SpacesEnd(s, k + 3) == k + 3;
    assert QuantityAt(s, k, Litres);
  }

  /** A litre quantity is reported in millilitres. */
  lemma VolumeOfLitres(s: string, k: nat)
    requires k < |s| && QuantityAt(s, k, Litres)
    requires forall j :: 0 <= j < k ==> !QuantityAt(s, j, Litres)
    requires forall j :: 0 <= j < |s| ==> !QuantityAt(s, j, Millilitres)
    ensures ExtractVolumeML(s) == 1000.0 * QuantityValue(s, k)
  {
    FirstQuantityLeftmost(s, Litres, 0, k);
  }

  // ---------------------------------------------------------------------------
  // parsePrice
  // ---------------------------------------------------------------------------

  /** `s.replace(/[^\d.]/g, '')`: the digits and points of `s`, in order. */
  function KeepDecimalChars(s: string): string {
    if |s| == 0 then ""
    else if IsDecimalChar(s[0]) then [s[0]] + KeepDecimalChars(s[1..])
    else KeepDecimalChars(s[1..])
  }

  /** What is kept is only digits and points, and no longer than the input. */
  lemma {:induction false} KeepDecimalCharsShape(s: string)
    ensures DecimalChars(KeepDecimalChars(s))
    ensures |KeepDecimalChars(s)| <= |s|
    decreases |s|
  {
    if |s| > 0 {
      KeepDecimalCharsShape(s[1..]);
      var t := KeepDecimalChars(s[1..]);
      if IsDecimalChar(s[0]) {
        assert KeepDecimalChars(s) == [s[0]] + t;
        forall i | 0 <= i < |t| + 1 ensures IsDecimalChar(([s[0]] + t)[i]) {
          if i > 0 {
            assert ([s[0]] + t)[i] == t[i - 1];
          }
        }
      }
    }
  }

  lemma {:induction false} KeepDecimalCharsAppend(a: string, b: string)
    ensures KeepDecimalChars(a + b) == KeepDecimalChars(a) + KeepDecimalChars(b)
    decreases |a|
  {
    if |a| == 0 {
      assert a + b == b;
    } else {
      KeepDecimalCharsAppend(a[1..], b);
      assert (a + b)[0] == a[0];
      assert (a + b)[1..] == a[1..] + b;
    }
  }

  lemma {:induction false} KeepDecimalCharsOfDecimal(s: string)
    requires DecimalChars(s)
    ensures KeepDecimalChars(s) == s
    decreases |s|
  {
    if |s| > 0 {
      KeepDecimalCharsOfDecimal(s[1..]);
      assert s == [s[0]] + s[1..];
    }
  }

  /** `parsePrice(s)`: the number the digits and points of `s` spell, or null
      when they do not start with one. */
  function ParsePrice(s: string): (r: Option<real>)
    ensures r.None? <==> !StartsNumeric(KeepDecimalChars(s))
    ensures r.Some? ==> r.value >= 0.0
  {
    KeepDecimalCharsShape(s);
    match ParseDecimal(KeepDecimalChars(s))
    case NaN => None
    case Num(v) => Some(v)
  }

  /** Concatenation regrouped so that the part after the currency sign is
      one string with an empty remainder, the shape the decimal parser reads. */
  lemma Regroup(a: string, x: string, y: string, z: string)
    ensures a + x + y + z == a + (x + y + z + "")
  {
    assert x + y + z + "" == x + y + z;
  }

  /** A price printed as `$<dollars>.<cents>` parses back to its value, with
      any number of cent digits. */
  lemma PriceRoundTrip(dollars: nat, cents: string)
    requires AllDigits(cents)
    ensures ParsePrice("$" + NatToString(dollars) + "." + cents) == Some(DecimalValue(NatToString(dollars), cents))
    ensures DecimalValue(NatToString(dollars), cents)
         == dollars as real + DigitsValue(cents) as real / Pow10(|cents|) as real
  {
    var ip := NatToString(dollars);
    var body := ip + "." + cents + "";
    Regroup("$", ip, ".", cents);
    ParseDecimalLiteral(ip, cents, "");
    KeepDecimalCharsOfDecimal(body);
    KeepDecimalCharsAppend("$", body);
    assert KeepDecimalChars("$") == "" by {
      assert !IsDecimalChar('$');
      assert "$"[1..] == "";
    }
    assert KeepDecimalChars("$" + body) == body;
    assert ParsePrice("$" + body) == Some(DecimalValue(ip, cents));
    assert "$" + ip + "." + cents == "$" + body;
  }

  /** A thousands separator is deleted with the currency sign: "$1,299.00"
      is 1299. */
  lemma PriceWithThousandsComma()
    ensures ParsePrice("$1,299.00") == Some(1299.0)
  {
    var printed := "$" + NatToString(1299) + "." + "00";
    PrintedPrice();
    PriceIgnoresOtherChars("$1", ',', "299.00");
    PriceRoundTrip(1299, "00");
    ZeroFraction(NatToString(1299), "00");
    assert ParsePrice(printed) == Some(1299.0);
  }

  /** "$1,299.00" is the printed price 1299.00 with a comma after the first digit. */
  lemma PrintedPrice()
    ensures "$1" + [','] + "299.00" == "$1,299.00"
    ensures "$" + NatToString(1299) + "." + "00" == "$1" + "299.00"
  {
    assert NatToString(1299) == "1299" by {
      assert NatToString(1) == "1";
      assert NatToString(12) == "12";
      assert NatToString(129) == "129";
    }
  }

  lemma {:induction false} KeepDecimalCharsNone(s: string)
    requires forall i :: 0 <= i < |s| ==> !IsDecimalChar(s[i])
    ensures KeepDecimalChars(s) == ""
    decreases |s|
  {
    if |s| > 0 {
      KeepDecimalCharsNone(s[1..]);
    }
  }

  lemma KeepDecimalCharsCons(c: char, b: string)
    ensures KeepDecimalChars([c] + b) == if IsDecimalChar(c) then [c] + KeepDecimalChars(b) else KeepDecimalChars(b)
  {
    assert ([c] + b)[0] == c && ([c] + b)[1..] == b;
  }

  /** Any character other than a digit or a point, a thousands separator or a
      currency sign say, can be inserted anywhere without changing the price. */
  lemma PriceIgnoresOtherChars(a: string, c: char, b: string)
    requires !IsDecimalChar(c)
    ensures ParsePrice(a + [c] + b) == ParsePrice(a + b)
  {
    KeepDecimalCharsAppend(a, [c] + b);
    KeepDecimalCharsCons(c, b);
    KeepDecimalCharsAppend(a, b);
    assert a + [c] + b == a + ([c] + b);
  }

  lemma ParseTwoPoints()
    ensures DecimalChars("1.2.3")
    ensures ParseDecimal("1.2.3") == Num(1.2)
  {
    ParseDecimalLiteral("1", "2", ".3");
    assert "1" + "." + "2" + ".3" == "1.2.3";
    assert DecimalValue("1", "2") == 1.2;
  }

  /** Text after a second point is ignored. */
  lemma PriceSecondPoint()
    ensures ParsePrice("1.2.3") == Some(1.2)
  {
    ParseTwoPoints();
    KeepDecimalCharsOfDecimal("1.2.3");
  }

  /** Text without a digit or point has no price. */
  lemma PriceAbsent(s: string)
    requires forall i :: 0 <= i < |s| ==> !IsDecimalChar(s[i])
    ensures ParsePrice(s) == None
  {
    KeepDecimalCharsNone(s);
  }

  // ---------------------------------------------------------------------------
  // determineWineType
  // ---------------------------------------------------------------------------

  const SpiritTerms: seq<string> :=
    ["whiskey", "whisky", "vodka", "gin", "rum", "tequila", "bourbon", "scotch", "brandy", "cognac"]
  const BeerTerms: seq<string> := ["beer", "ale", "lager", "stout", "porter"]
  const SakeTerms: seq<string> := ["sake", "junmai", "daiginjo"]

  /** Some term of `terms` occurs in `text`. */
  predicate MentionsAny(text: string, terms: seq<string>) {
    exists i :: 0 <= i < |terms| && Contains(text, terms[i])
  }

  /** The text the classification rules search: name and description joined by
      a space, lower-cased. */
  function SearchText(name: string, description: string): string {
    Lower(name + " " + description)
  }

  lemma MentionsSpirits(text: string)
    ensures MentionsAny(text, SpiritTerms) <==>
      (Contains(text, "whiskey") || Contains(text, "whisky") || Contains(text, "vodka")
       || Contains(text, "gin") || Contains(text, "rum") || Contains(text, "tequila")
       || Contains(text, "bourbon") || Contains(text, "scotch") || Contains(text, "brandy")
       || Contains(text, "cognac"))
  {
    var t := SpiritTerms;
    assert t[0] == "whiskey" && t[1] == "whisky" && t[2] == "vodka" && t[3] == "gin" && t[4] == "rum";
    assert t[5] == "tequila" && t[6] == "bourbon" && t[7] == "scotch" && t[8] == "brandy" && t[9] == "cognac";
  }

  lemma MentionsBeer(text: string)
    ensures MentionsAny(text, BeerTerms) <==>
      (Contains(text, "beer") || Contains(text, "ale") || Contains(text, "lager")
       || Contains(text, "stout") || Contains(text, "porter"))
  {
    var t := BeerTerms;
    assert t[0] == "beer" && t[1] == "ale" && t[2] == "lager" && t[3] == "stout" && t[4] == "porter";
  }

  lemma MentionsSake(text: string)
    ensures MentionsAny(text, SakeTerms) <==>
      (Contains(text, "sake") || Contains(text, "junmai") || Contains(text, "daiginjo"))
  {
    var t := SakeTerms;
    assert t[0] == "sake" && t[1] == "junmai" && t[2] == "daiginjo";
  }

  /** `determineWineType(name, description)`: spirits if any spirit word occurs,
      else beer if any beer word does, else sake if any sake word does, else
      wine. Words are matched as substrings, so "gin" inside "original" counts. */
  function DetermineWineType(name: string, description: string): (r: WineType)
    ensures var text := SearchText(name, description);
      && (r == Spirits <==> MentionsAny(text, SpiritTerms))
      && (r == Beer <==> !MentionsAny(text, SpiritTerms) && MentionsAny(text, BeerTerms))
      && (r == Sake <==> !MentionsAny(text, SpiritTerms) && !MentionsAny(text, BeerTerms)
                         && MentionsAny(text, SakeTerms))
      && (r == Wine <==> !MentionsAny(text, SpiritTerms) && !MentionsAny(text, BeerTerms)
                         && !MentionsAny(text, SakeTerms))
  {
    var text := SearchText(name, description);
    MentionsSpirits(text);
    MentionsBeer(text);
    MentionsSake(text);
    if Contains(text, "whiskey") || Contains(text, "whisky") || Contains(text, "vodka")
       || Contains(text, "gin") || Contains(text, "rum") || Contains(text, "tequila")
       || Contains(text, "bourbon") || Contains(text, "scotch") || Contains(text, "brandy")
       || Contains(text, "cognac")
    then Spirits
    else if Contains(text, "beer") || Contains(text, "ale") || Contains(text, "lager")
            || Contains(text, "stout") || Contains(text, "porter")
    then Beer
    else if Contains(text, "sake") || Contains(text, "junmai") || Contains(text, "daiginjo")
    then Sake
    else Wine
  }

  // ---------------------------------------------------------------------------
  // extractVarietal
  // ---------------------------------------------------------------------------

  /** The varietal names searched for, in the order they are tried. */
  const Varietals: seq<string> := [
    "cabernet sauvignon", "merlot", "pinot noir", "chardonnay", "sauvignon blanc",
    "riesling", "pinot grigio", "syrah", "malbec", "zinfandel", "sangiovese",
    "tempranillo", "grenache", "nebbiolo", "barbera", "chianti", "bordeaux",
    "burgundy", "champagne", "prosecco", "rosé", "red blend", "white blend"]

  /** Index of the first of `terms[i..]` that occurs in `text`. */
  function FirstMentioned(text: string, terms: seq<string>, i: nat): (r: Option<nat>)
    requires i <= |terms|
    ensures r.Some? ==> i <= r.value < |terms| && Contains(text, terms[r.value])
                        && forall j :: i <= j < r.value ==> !Contains(text, terms[j])
    ensures r.None? ==> forall j :: i <= j < |terms| ==> !Contains(text, terms[j])
    decreases |terms| - i
  {
    if i == |terms| then None
    else if Contains(text, terms[i]) then Some(i)
    else FirstMentioned(text, terms, i + 1)
  }

  /** `extractVarietal(name, description)`: the first listed varietal that
      occurs in the text, each word capitalised; "Red Wine" if none does. */
  function ExtractVarietal(name: string, description: string): (r: string)
    ensures var text := SearchText(name, description);
      r == "Red Wine" || exists k :: 0 <= k < |Varietals| && Contains(text, Varietals[k]) && r == TitleCase(Varietals[k])
  {
    match FirstMentioned(SearchText(name, description), Varietals, 0)
    case Some(k) => TitleCase(Varietals[k])
    case None => "Red Wine"
  }

  /** The varietal reported is the first one in list order that occurs; read
      back in lower case it is that list entry. */
  lemma ExtractVarietalFirst(name: string, description: string, k: nat)
    requires k < |Varietals|
    requires Contains(SearchText(name, description), Varietals[k])
    requires forall j :: 0 <= j < k ==> !Contains(SearchText(name, description), Varietals[j])
    ensures ExtractVarietal(name, description) == TitleCase(Varietals[k])
    ensures Lower(ExtractVarietal(name, description)) == Lower(Varietals[k])
  {
    var r := FirstMentioned(SearchText(name, description), Varietals, 0);
    assert r == Some(k);
    LowerTitleCase(Varietals[k]);
  }

  /** With no listed varietal in the text, the default is reported. */
  lemma ExtractVarietalDefault(name: string, description: string)
    requires forall j :: 0 <= j < |Varietals| ==> !Contains(SearchText(name, description), Varietals[j])
    ensures ExtractVarietal(name, description) == "Red Wine"
  {
  }

  // ---------------------------------------------------------------------------
  // Worked examples of the keyword rules
  // ---------------------------------------------------------------------------

  /** Spirit words are checked before beer words: a text that mentions both
      is spirits. */
  lemma SpiritsBeforeBeer(name: string, description: string)
    requires MentionsAny(SearchText(name, description), SpiritTerms)
    requires MentionsAny(SearchText(name, description), BeerTerms)
    ensures DetermineWineType(name, description) == Spirits
  {
  }

  /** "Scotch Stout" names both a spirit and a beer, and is spirits. */
  lemma ScotchStoutIsSpirits()
    ensures DetermineWineType("Scotch Stout", "") == Spirits
  {
    SearchScotchStout();
    ContainedInMiddle("", "scotch", " stout ");
    assert "" + "scotch" + " stout " == "scotch stout ";
    assert SpiritTerms[7] == "scotch";
  }

  /** The search text of "Scotch Stout" with no description, written out. */
  lemma SearchScotchStout()
    ensures SearchText("Scotch Stout", "") == "scotch stout "
  {
    var t := "scotch stout ";
    var r := SearchText("Scotch Stout", "");
    assert "Scotch Stout" + " " + "" == "Scotch Stout ";
    forall i | 0 <= i < |t| ensures r[i] == t[i] {
    }
  }

  /** Words match inside other words: "Original" mentions "gin". */
  lemma SubstringMatchesInsideWords()
    ensures DetermineWineType("Original", "") == Spirits
  {
    SearchOriginal();
    ContainedInMiddle("ori", "gin", "al ");
    assert "ori" + "gin" + "al " == "original ";
    assert SpiritTerms[3] == "gin";
  }

  /** The search text of "Original" with no description, written out. */
  lemma SearchOriginal()
    ensures SearchText("Original", "") == "original "
  {
    var t := "original ";
    var r := SearchText("Original", "");
    assert "Original" + " " + "" == "Original ";
    forall i | 0 <= i < |t| ensures r[i] == t[i] {
    }
  }

  lemma MerlotNoSpirits()
    ensures !MentionsAny("merlot ", SpiritTerms)
  {
    MerlotNoFirstSpirits();
    MerlotNoLastSpirits();
    MentionsSpirits("merlot ");
  }

  lemma MerlotNoFirstSpirits()
    ensures !Contains("merlot ", "whiskey") && !Contains("merlot ", "whisky") && !Contains("merlot ", "vodka")
    ensures !Contains("merlot ", "gin") && !Contains("merlot ", "rum")
  {
    var text := "merlot ";
    NotContainedWithout(text, "whiskey", 0);
    NotContainedWithout(text, "whisky", 0);
    NotContainedWithout(text, "vodka", 0);
    NotContainedWithout(text, "gin", 0);
    NotContainedWithout(text, "rum", 1);
  }

  lemma MerlotNoLastSpirits()
    ensures !Contains("merlot ", "tequila") && !Contains("merlot ", "bourbon") && !Contains("merlot ", "scotch")
    ensures !Contains("merlot ", "brandy") && !Contains("merlot ", "cognac")
  {
    var text := "merlot ";
    NotContainedWithout(text, "tequila", 2);
    NotContainedWithout(text, "bourbon", 0);
    NotContainedWithout(text, "scotch", 0);
    NotContainedWithout(text, "brandy", 0);
    NotContainedWithout(text, "cognac", 0);
  }

  lemma MerlotNoBeerOrSake()
    ensures !MentionsAny("merlot ", BeerTerms) && !MentionsAny("merlot ", SakeTerms)
  {
    MerlotNoBeer();
    MerlotNoSake();
  }

  lemma MerlotNoBeer()
    ensures !MentionsAny("merlot ", BeerTerms)
  {
    var text := "merlot ";
    NotContainedWithout(text, "beer", 0);
    NotContainedWithout(text, "ale", 0);
    NotContainedWithout(text, "lager", 2);
    NotContainedWithout(text, "stout", 0);
    NotContainedWithout(text, "porter", 0);
    MentionsBeer(text);
  }

  lemma MerlotNoSake()
    ensures !MentionsAny("merlot ", SakeTerms)
  {
    var text := "merlot ";
    NotContainedWithout(text, "sake", 0);
    NotContainedWithout(text, "junmai", 0);
    NotContainedWithout(text, "daiginjo", 0);
    MentionsSake(text);
  }

  /** A name without any category word is a wine. */
  lemma WineByDefault()
    ensures DetermineWineType("Merlot", "") == Wine
  {
    SearchMerlot();
    MerlotNoSpirits();
    MerlotNoBeerOrSake();
  }

  /** The search text of "Merlot" with no description, written out. */
  lemma SearchMerlot()
    ensures SearchText("Merlot", "") == "merlot "
  {
    var t := "merlot ";
    var r := SearchText("Merlot", "");
    assert "Merlot" + " " + "" == "Merlot ";
    forall i | 0 <= i < |t| ensures r[i] == t[i] {
    }
  }

  lemma TitleMerlot()
    ensures TitleCase("merlot") == "Merlot"
  {
    var s := "merlot";
    assert ' ' !in s;
    TitleCaseOneWord(s);
    assert Capitalize(s) == [UpperChar('m')] + "erlot";
  }

  lemma SearchChardonnayMerlot()
    ensures SearchText("Chardonnay Merlot", "") == "chardonnay merlot "
  {
    var t := "chardonnay merlot ";
    var r := SearchText("Chardonnay Merlot", "");
    assert "Chardonnay Merlot" + " " + "" == "Chardonnay Merlot ";
    forall i | 0 <= i < |t| ensures r[i] == t[i] {
    }
  }

  /** The list order decides, not the position in the text: "Merlot" is
      listed before "Chardonnay", so it wins although it comes second. */
  lemma VarietalListOrderWins()
    ensures ExtractVarietal("Chardonnay Merlot", "") == "Merlot"
  {
    ChardonnayMerlotMentions();
    ExtractVarietalFirst("Chardonnay Merlot", "", 1);
    TitleMerlot();
  }

  lemma ChardonnayMerlotMentions()
    ensures !Contains(SearchText("Chardonnay Merlot", ""), Varietals[0])
    ensures Contains(SearchText("Chardonnay Merlot", ""), Varietals[1])
  {
    SearchChardonnayMerlot();
    assert Varietals[0] == "cabernet sauvignon" && Varietals[1] == "merlot";
    CabernetAbsent();
    MerlotPresent();
  }

  lemma CabernetAbsent()
    ensures !Contains("chardonnay merlot ", "cabernet sauvignon")
  {
    NotContainedWithout("chardonnay merlot ", "cabernet sauvignon", 2);
  }

  lemma MerlotPresent()
    ensures Contains("chardonnay merlot ", "merlot")
  {
    ContainedInMiddle("chardonnay ", "merlot", " ");
    assert "chardonnay " + "merlot" + " " == "chardonnay merlot ";
  }
}
