/** What the two search scrapers share: the defaults for a missing region or
    producer, and the per-element loop over a result page with the counters
    it keeps. */
module Scrape {
  import opened Options
  import opened Text
  import opened WineTypes
  import opened Helpers

  const UnknownRegion: string := "Unknown Region"
  const UnknownProducer: string := "Unknown Producer"

  /** `cleanText(region) || 'Unknown Region'`: never empty; the default when
      the text has no visible character, the cleaned text otherwise. */
  function RegionOrUnknown(text: string): (region: string)
    ensures region != ""
    ensures NonSpace(text) == "" ==> region == UnknownRegion
    ensures NonSpace(text) != "" ==> region == CleanText(text)
  {
    CleanTextEmpty(text);
    var c := CleanText(text);
    if c == "" then UnknownRegion else c
  }

  /** `nameParts[0] || 'Unknown Producer'`. */
  function Producer(name: string): string {
    var first := FirstWord(name);
    if first == "" then UnknownProducer else first
  }

  /** The first word of a string that does not open with whitespace is a
      non-empty prefix of it. */
  lemma FirstWordOfTrimmed(s: string)
    requires |s| > 0 && !IsSpace(s[0])
    ensures FirstWord(s) != "" && ' ' !in FirstWord(s) && StartsWith(s, FirstWord(s))
    ensures Producer(s) == FirstWord(s)
  {
    assert IsSpace(' ');
    assert IndexOf(s, ' ') > 0;
  }

  /** What the `try` around one element ends with: a record, `null`, or an
      exception caught by the loop. */
  datatype Outcome = Extracted(wine: WineData) | Skipped | Threw

  /** The records of the extracted elements, in element order. */
  function Extractions(outcomes: seq<Outcome>): (wines: seq<WineData>)
    ensures |wines| <= |outcomes|
  {
    if |outcomes| == 0 then []
    else
      var n := |outcomes| - 1;
      Extractions(outcomes[..n]) + (if outcomes[n].Extracted? then [outcomes[n].wine] else [])
  }

  function CountThrew(outcomes: seq<Outcome>): nat {
    if |outcomes| == 0 then 0
    else CountThrew(outcomes[..|outcomes| - 1]) + (if outcomes[|outcomes| - 1].Threw? then 1 else 0)
  }

  function CountSkipped(outcomes: seq<Outcome>): nat {
    if |outcomes| == 0 then 0
    else CountSkipped(outcomes[..|outcomes| - 1]) + (if outcomes[|outcomes| - 1].Skipped? then 1 else 0)
  }

  /** What the extraction of each element ends with, for an extractor that
      catches its own errors and returns `null`: no element throws. */
  function Outcomes<T>(xs: seq<T>, extract: T -> Option<WineData>): (os: seq<Outcome>)
    ensures |os| == |xs|
    ensures forall i :: 0 <= i < |os| ==> !os[i].Threw?
  {
    seq(|xs|, i requires 0 <= i < |xs| =>
      match extract(xs[i])
      case Some(w) => Extracted(w)
      case None => Skipped)
  }

  /** The records of a page are exactly the extractions of its elements, and
      never more than there are elements. */
  lemma OutcomeRecords<T>(xs: seq<T>, extract: T -> Option<WineData>, w: WineData)
    ensures |Extractions(Outcomes(xs, extract))| <= |xs|
    ensures w in Extractions(Outcomes(xs, extract)) <==>
      exists i :: 0 <= i < |xs| && extract(xs[i]) == Some(w)
  {
    var os := Outcomes(xs, extract);
    ExtractionsMembership(os, w);
    if Extracted(w) in os {
      var i :| 0 <= i < |os| && os[i] == Extracted(w);
      assert extract(xs[i]) == Some(w);
    }
    if exists i :: 0 <= i < |xs| && extract(xs[i]) == Some(w) {
      var i :| 0 <= i < |xs| && extract(xs[i]) == Some(w);
      assert os[i] == Extracted(w);
    }
  }

  /** Every element lands in exactly one of the three counts. */
  lemma {:induction false} OutcomesPartition(outcomes: seq<Outcome>)
    ensures |Extractions(outcomes)| + CountThrew(outcomes) + CountSkipped(outcomes) == |outcomes|
  {
    if |outcomes| > 0 {
      OutcomesPartition(outcomes[..|outcomes| - 1]);
    }
  }

  /** A record is kept exactly when some element yielded it. */
  lemma {:induction false} ExtractionsMembership(outcomes: seq<Outcome>, w: WineData)
    ensures w in Extractions(outcomes) <==> Extracted(w) in outcomes
  {
    if |outcomes| > 0 {
      var n := |outcomes| - 1;
      ExtractionsMembership(outcomes[..n], w);
      assert outcomes == outcomes[..n] + [outcomes[n]];
    }
  }

  /** Without exceptions nothing is counted as failed. */
  lemma {:induction false} NoThrowNoFailure(outcomes: seq<Outcome>)
    requires forall i :: 0 <= i < |outcomes| ==> !outcomes[i].Threw?
    ensures CountThrew(outcomes) == 0
  {
    if |outcomes| > 0 {
      NoThrowNoFailure(outcomes[..|outcomes| - 1]);
    }
  }

  /** The loop: a record pushed and `successful` bumped for each extraction,
      `failed` bumped for each exception, nothing for a `null`. */
  method Tally(outcomes: seq<Outcome>) returns (wines: seq<WineData>, successful: nat, failed: nat)
    ensures wines == Extractions(outcomes)
    ensures successful == |wines|
    ensures failed == CountThrew(outcomes)
    ensures successful + failed <= |outcomes|
  {
    wines, successful, failed := [], 0, 0;
    for i := 0 to |outcomes|
      invariant wines == Extractions(outcomes[..i])
      invariant successful == |wines|
      invariant failed == CountThrew(outcomes[..i])
    {
      assert outcomes[..i + 1][..i] == outcomes[..i];
      match outcomes[i]
      case Extracted(w) =>
        wines := wines + [w];
        successful := successful + 1;
      case Skipped =>
      case Threw =>
        failed := failed + 1;
    }
    assert outcomes[..|outcomes|] == outcomes;
    OutcomesPartition(outcomes);
  }
}
