/** The invoice-to-PO matching engine of backend/app/services/ai_matching_service.py:
    the deterministic rule scorer and ranker (`fuzzy_match`), the parser of the language
    model's answer (`_parse_ai_response`) and the orchestrator (`find_best_match`).
    The language model is a parameter `oracle` from the bounded request to its answer text
    (`None` when the call raises); `json.loads` is a parameter `decode` (`None` when it
    raises a decode error). Amounts and scores are exact reals. */
module Matching {
  import opened Wrappers
  import opened Text
  import opened Json
  import Seqs
  import Extraction

  /** The invoice dictionary as the matcher reads it; `None` where a key is absent or null. */
  datatype InvoiceFields = InvoiceFields(
    invoiceNumber: Option<string>,
    vendorName: Option<string>,
    vendorId: Option<string>,
    invoiceAmount: Option<real>,
    invoiceDate: Option<string>,
    invoiceType: Option<string>,
    poReference: Option<string>,
    partNumber: Option<string>,
    description: Option<string>,
    lineItems: seq<Extraction.LineItem>)

  /** A candidate purchase-order line dictionary; `None` where a key is absent or null. */
  datatype Candidate = Candidate(
    poNumber: string,
    poLine: int,
    vendorName: Option<string>,
    vendorId: Option<string>,
    partNumber: Option<string>,
    supplierPart: Option<string>,
    lineDescription: Option<string>,
    lineAmount: real,
    remainingAmount: Option<real>)

  /** The triple `(best_po, match_score, reasoning)`. Score and reasoning are JSON values
      because on the model's path they are whatever the answer held. */
  datatype MatchResult = MatchResult(po: Option<Candidate>, score: Json, reasoning: Json)

  /** The placeholder PO substituted when there are no candidates. */
  const DemoPo := Candidate(
    "PO-2024-1001", 1, Some("ACME Corporation"), Some("ACME001"), Some("OFF-SUP-001"), None,
    Some("Office Supplies - Batch Order"), 2754.0, None)

  const ExactVendorPoints: real := 0.3
  const PartialVendorPoints: real := 0.15
  const PoReferencePoints: real := 0.4
  const ExactAmountPoints: real := 0.3
  const CloseAmountPoints: real := 0.15
  const PartNumberPoints: real := 0.25
  const DescriptionPoints: real := 0.1
  /** The amount tolerance is this fraction of the PO line amount. */
  const AmountTolerance: real := 0.05

  const NoMatchReason := "No suitable matches found"
  const ParseErrorReason := "Error parsing AI response"
  const DefaultAiReason := "AI matching completed"

  // ---------------------------------------------------------------------------
  // Rule scorer
  // ---------------------------------------------------------------------------

  /** What rules contributed for one candidate: points and the labels, in evaluation order. */
  datatype Assessment = Assessment(points: real, labels: seq<string>)

  /** A single rule either does not fire (no points, no label) or adds positive points and one label. */
  predicate SingleRule(a: Assessment) {
    (a.points == 0.0 && a.labels == []) || (a.points > 0.0 && |a.labels| == 1 && a.labels[0] != "")
  }

  function Fired(points: real, text: string): Assessment {
    Assessment(points, [text])
  }

  const NotFired := Assessment(0.0, [])

  /** `(x or "")`. */
  function OrEmpty(s: Option<string>): string {
    s.GetOr("")
  }

  /** Vendor rule: exact equality of the lower-cased names, otherwise containment either
      way; only when both names are non-empty. */
  function VendorRule(inv: InvoiceFields, po: Candidate): (a: Assessment)
    ensures SingleRule(a) && a.points <= ExactVendorPoints
  {
    var name := Lower(OrEmpty(inv.vendorName));
    var poName := Lower(OrEmpty(po.vendorName));
    if name != "" && poName != "" then
      if name == poName then Fired(ExactVendorPoints, "Exact vendor match")
      else if Contains(poName, name) || Contains(name, poName) then Fired(PartialVendorPoints, "Partial vendor match")
      else NotFired
    else NotFired
  }

  /** PO reference rule: a non-empty reference contained in the PO number or containing it (case-sensitive). */
  function PoReferenceRule(inv: InvoiceFields, po: Candidate): (a: Assessment)
    ensures SingleRule(a) && a.points <= PoReferencePoints
  {
    var reference := OrEmpty(inv.poReference);
    if reference != "" && (Contains(po.poNumber, reference) || Contains(reference, po.poNumber))
    then Fired(PoReferencePoints, "PO number reference match")
    else NotFired
  }

  /** Absolute value. */
  function Abs(x: real): real {
    if x < 0.0 then -x else x
  }

  /** Amount rule: only when both amounts are non-zero; within the tolerance, or within twice it. */
  function AmountRule(inv: InvoiceFields, po: Candidate): (a: Assessment)
    ensures SingleRule(a) && a.points <= ExactAmountPoints
  {
    var amount := inv.invoiceAmount.GetOr(0.0);
    if amount != 0.0 && po.lineAmount != 0.0 then
      var diff := Abs(amount - po.lineAmount);
      var tolerance := po.lineAmount * AmountTolerance;
      if diff <= tolerance then Fired(ExactAmountPoints, "Exact amount match")
      else if diff <= tolerance * 2.0 then Fired(CloseAmountPoints, "Amount close match")
      else NotFired
    else NotFired
  }

  /** Part number rule: the lower-cased invoice part number equals the PO's part number or supplier part. */
  function PartNumberRule(inv: InvoiceFields, po: Candidate): (a: Assessment)
    ensures SingleRule(a) && a.points <= PartNumberPoints
  {
    var part := Lower(OrEmpty(inv.partNumber));
    if part != "" && (part == Lower(OrEmpty(po.partNumber)) || part == Lower(OrEmpty(po.supplierPart)))
    then Fired(PartNumberPoints, "Part number match")
    else NotFired
  }

  /** Description rule: the lower-cased invoice description occurs in the PO line description. */
  function DescriptionRule(inv: InvoiceFields, po: Candidate): (a: Assessment)
    ensures SingleRule(a) && a.points <= DescriptionPoints
  {
    var description := Lower(OrEmpty(inv.description));
    var poDescription := Lower(OrEmpty(po.lineDescription));
    if description != "" && poDescription != "" && Contains(poDescription, description)
    then Fired(DescriptionPoints, "Description match")
    else NotFired
  }

  /** All five rules, evaluated independently and in order; points add up, labels are kept in order. */
  function Assess(inv: InvoiceFields, po: Candidate): (a: Assessment)
    ensures 0.0 <= a.points <= 1.35
    ensures a.points > 0.0 <==> a.labels != []
    ensures |a.labels| <= 5
  {
    var v, r, m, p, d := VendorRule(inv, po), PoReferenceRule(inv, po), AmountRule(inv, po),
                         PartNumberRule(inv, po), DescriptionRule(inv, po);
    Assessment(v.points + r.points + m.points + p.points + d.points,
               v.labels + r.labels + m.labels + p.labels + d.labels)
  }

  /** The raw (unclamped) score of one candidate. */
  function RawScore(inv: InvoiceFields, po: Candidate): (score: real)
    ensures 0.0 <= score <= 1.35
    ensures score > 0.0 <==> Assess(inv, po).labels != []
  {
    Assess(inv, po).points
  }

  /** The vendor block of the `fuzzy_match` loop body: adds the vendor rule's points and label. */
  method AddVendorPoints(inv: InvoiceFields, po: Candidate, score: real, parts: seq<string>)
    returns (score': real, parts': seq<string>)
    ensures score' == score + VendorRule(inv, po).points && parts' == parts + VendorRule(inv, po).labels
  {
    score', parts' := score, parts;
    var poVendor := Lower(OrEmpty(po.vendorName));
    var vendorName := Lower(OrEmpty(inv.vendorName));
    if vendorName != "" && poVendor != "" {
      if vendorName == poVendor {
        score' := score' + ExactVendorPoints;
        parts' := parts' + ["Exact vendor match"];
      } else if Contains(poVendor, vendorName) || Contains(vendorName, poVendor) {
        score' := score' + PartialVendorPoints;
        parts' := parts' + ["Partial vendor match"];
      }
    }
  }

  /** The PO reference block of the `fuzzy_match` loop body. */
  method AddPoReferencePoints(inv: InvoiceFields, po: Candidate, score: real, parts: seq<string>)
    returns (score': real, parts': seq<string>)
    ensures score' == score + PoReferenceRule(inv, po).points && parts' == parts + PoReferenceRule(inv, po).labels
  {
    score', parts' := score, parts;
    var poReference := OrEmpty(inv.poReference);
    if poReference != "" && (Contains(po.poNumber, poReference) || Contains(poReference, po.poNumber)) {
      score' := score' + PoReferencePoints;
      parts' := parts' + ["PO number reference match"];
    }
  }

  /** The amount block of the `fuzzy_match` loop body. */
  method AddAmountPoints(inv: InvoiceFields, po: Candidate, score: real, parts: seq<string>)
    returns (score': real, parts': seq<string>)
    ensures score' == score + AmountRule(inv, po).points && parts' == parts + AmountRule(inv, po).labels
  {
    score', parts' := score, parts;
    var invoiceAmount := inv.invoiceAmount.GetOr(0.0);
    var poAmount := po.lineAmount;
    if invoiceAmount != 0.0 && poAmount != 0.0 {
      var diff := Abs(invoiceAmount - poAmount);
      var tolerance := poAmount * AmountTolerance;
      if diff <= tolerance {
        score' := score' + ExactAmountPoints;
        parts' := parts' + ["Exact amount match"];
      } else if diff <= tolerance * 2.0 {
        score' := score' + CloseAmountPoints;
        parts' := parts' + ["Amount close match"];
      }
    }
  }

  /** The part number block of the `fuzzy_match` loop body. */
  method AddPartNumberPoints(inv: InvoiceFields, po: Candidate, score: real, parts: seq<string>)
    returns (score': real, parts': seq<string>)
    ensures score' == score + PartNumberRule(inv, po).points && parts' == parts + PartNumberRule(inv, po).labels
  {
    score', parts' := score, parts;
    var partNum := Lower(OrEmpty(inv.partNumber));
    var poPartNum := Lower(OrEmpty(po.partNumber));
    var poSupplierPart := Lower(OrEmpty(po.supplierPart));
    if partNum != "" && (partNum == poPartNum || partNum == poSupplierPart) {
      score' := score' + PartNumberPoints;
      parts' := parts' + ["Part number match"];
    }
  }

  /** The description block of the `fuzzy_match` loop body. */
  method AddDescriptionPoints(inv: InvoiceFields, po: Candidate, score: real, parts: seq<string>)
    returns (score': real, parts': seq<string>)
    ensures score' == score + DescriptionRule(inv, po).points && parts' == parts + DescriptionRule(inv, po).labels
  {
    score', parts' := score, parts;
    var description := Lower(OrEmpty(inv.description));
    var poDesc := Lower(OrEmpty(po.lineDescription));
    if description != "" && poDesc != "" && Contains(poDesc, description) {
      score' := score' + DescriptionPoints;
      parts' := parts' + ["Description match"];
    }
  }

  /** The per-candidate body of the `fuzzy_match` loop: `score +=` and `reasoning_parts.append` rule by rule. */
  method ScoreCandidate(inv: InvoiceFields, po: Candidate) returns (score: real, parts: seq<string>)
    ensures score == RawScore(inv, po) && parts == Assess(inv, po).labels
    ensures 0.0 <= score <= 1.35 && (score > 0.0 <==> parts != [])
  {
    score, parts := AddVendorPoints(inv, po, 0.0, []);
    assert [] + VendorRule(inv, po).labels == VendorRule(inv, po).labels;
    score, parts := AddPoReferencePoints(inv, po, score, parts);
    score, parts := AddAmountPoints(inv, po, score, parts);
    score, parts := AddPartNumberPoints(inv, po, score, parts);
    score, parts := AddDescriptionPoints(inv, po, score, parts);
  }

  /** Equal vendor names up to letter case give the exact-vendor points. */
  lemma SameVendorIgnoringCase(inv: InvoiceFields, po: Candidate)
    requires Lower(OrEmpty(inv.vendorName)) == Lower(OrEmpty(po.vendorName)) != ""
    ensures VendorRule(inv, po) == Fired(ExactVendorPoints, "Exact vendor match")
  {
  }

  /** A reference equal to the PO number gives the reference points, whatever the other fields hold. */
  lemma SameReferenceMatches(inv: InvoiceFields, po: Candidate)
    requires inv.poReference == Some(po.poNumber) && po.poNumber != ""
    ensures PoReferenceRule(inv, po) == Fired(PoReferencePoints, "PO number reference match")
  {
    ContainsPrefix(po.poNumber, po.poNumber);
  }

  /** An invoice amount within 5% of a positive PO line amount gives the exact-amount points. */
  lemma AmountWithinFivePercent(inv: InvoiceFields, po: Candidate)
    requires po.lineAmount > 0.0 && inv.invoiceAmount.Some? && inv.invoiceAmount.value != 0.0
    requires Abs(inv.invoiceAmount.value - po.lineAmount) <= po.lineAmount / 20.0
    ensures AmountRule(inv, po) == Fired(ExactAmountPoints, "Exact amount match")
  {
  }

  /** A negative PO line amount makes the tolerance negative, so the amount rule never fires,
      not even for an identical (credit-memo) amount. */
  lemma NegativeLineAmountNeverMatches(inv: InvoiceFields, po: Candidate)
    requires po.lineAmount < 0.0
    ensures AmountRule(inv, po) == NotFired
  {
  }

  /** All five rules can fire at once, for 1.35 raw points: this is why the score is clamped. */
  lemma AllRulesFire()
    ensures var inv := InvoiceFields(None, Some("a"), None, Some(1.0), None, None, Some("P"), Some("x"), Some("d"), []);
            var po := Candidate("P", 1, Some("a"), None, Some("x"), None, Some("d"), 1.0, None);
            RawScore(inv, po) == 1.35
  {
    var inv := InvoiceFields(None, Some("a"), None, Some(1.0), None, None, Some("P"), Some("x"), Some("d"), []);
    var po := Candidate("P", 1, Some("a"), None, Some("x"), None, Some("d"), 1.0, None);
    assert Lower("a") == "a" && Lower("x") == "x" && Lower("d") == "d";
    ContainsPrefix("P", "P");
    ContainsPrefix("d", "d");
  }

  // ---------------------------------------------------------------------------
  // Ranker
  // ---------------------------------------------------------------------------

  /** `min(x, 1.0)`. */
  function Clamp(x: real): real {
    if x < 1.0 then x else 1.0
  }

  /** The reasoning of a chosen candidate: its labels joined by "; " (or "Partial match" if none). */
  function ReasonText(labels: seq<string>): string {
    if labels == [] then "Partial match" else Join(labels, "; ")
  }

  /** The raw scores of all candidates, in candidate order. */
  function Scores(inv: InvoiceFields, pos: seq<Candidate>): (s: seq<real>)
    ensures |s| == |pos|
    ensures forall j :: 0 <= j < |pos| ==> s[j] == RawScore(inv, pos[j]) && s[j] >= 0.0
  {
    seq(|pos|, j requires 0 <= j < |pos| => RawScore(inv, pos[j]))
  }

  /** The index the left-to-right scan holds after the first `n` scores (-1 for none):
      starting from 0, it moves only to a strictly greater score. */
  function BestIndex(scores: seq<real>, n: nat): (b: int)
    requires n <= |scores|
    ensures -1 <= b < n
  {
    if n == 0 then -1
    else
      var prev := BestIndex(scores, n - 1);
      var prevScore := if prev < 0 then 0.0 else scores[prev];
      if scores[n - 1] > prevScore then n - 1 else prev
  }

  /** `fuzzy_match`'s result as a function of its inputs. */
  function Rank(inv: InvoiceFields, pos: seq<Candidate>): (r: MatchResult)
    ensures r.score.JNumber? && 0.0 <= r.score.n <= 1.0
    ensures r.reasoning.JString?
    ensures r.po.Some? ==> r.po.value in pos
  {
    var b := BestIndex(Scores(inv, pos), |pos|);
    if b < 0 then MatchResult(None, JNumber(0.0), JString(NoMatchReason))
    else
      var a := Assess(inv, pos[b]);
      MatchResult(Some(pos[b]), JNumber(Clamp(a.points)), JString(ReasonText(a.labels)))
  }

  /** `k` is the first index of the greatest score, and that score is positive. */
  ghost predicate IsFirstBest(scores: seq<real>, k: int) {
    0 <= k < |scores| && scores[k] > 0.0
    && (forall j :: 0 <= j < |scores| ==> scores[j] <= scores[k])
    && (forall j :: 0 <= j < k ==> scores[j] < scores[k])
  }

  /** One step of the scan: it moves to the next index only on a strictly greater score. */
  lemma BestIndexStep(scores: seq<real>, i: nat)
    requires i < |scores|
    ensures var b := BestIndex(scores, i);
            BestIndex(scores, i + 1) == if scores[i] > (if b < 0 then 0.0 else scores[b]) then i else b
  {
  }

  /** What the ranker promises: no PO (score 0, "No suitable matches found") when no candidate
      scores above 0, including when there are none; otherwise the first candidate with the
      greatest score, that score clamped to 1, and its rule labels joined by "; ". */
  ghost predicate IsRanking(inv: InvoiceFields, pos: seq<Candidate>, r: MatchResult) {
    var scores := Scores(inv, pos);
    if forall j :: 0 <= j < |scores| ==> scores[j] <= 0.0
    then r == MatchResult(None, JNumber(0.0), JString(NoMatchReason))
    else exists k :: IsFirstBest(scores, k)
                     && Assess(inv, pos[k]).labels != []
                     && r == MatchResult(Some(pos[k]), JNumber(Clamp(scores[k])),
                                         JString(Join(Assess(inv, pos[k]).labels, "; ")))
  }

  lemma {:induction false} BestIndexIsFirstBest(scores: seq<real>, n: nat)
    requires n <= |scores|
    ensures var b := BestIndex(scores, n);
            && (b < 0 <==> forall j :: 0 <= j < n ==> scores[j] <= 0.0)
            && (b >= 0 ==> scores[b] > 0.0)
            && (b >= 0 ==> forall j :: 0 <= j < n ==> scores[j] <= scores[b])
            && (b >= 0 ==> forall j :: 0 <= j < b ==> scores[j] < scores[b])
  {
    if n > 0 {
      BestIndexIsFirstBest(scores, n - 1);
    }
  }

  /** The ranker's result meets its promise. */
  lemma RankIsRanking(inv: InvoiceFields, pos: seq<Candidate>)
    ensures IsRanking(inv, pos, Rank(inv, pos))
  {
    var scores := Scores(inv, pos);
    var b := BestIndex(scores, |pos|);
    BestIndexIsFirstBest(scores, |pos|);
    if b >= 0 {
      assert IsFirstBest(scores, b);
      assert Assess(inv, pos[b]).points > 0.0;
    }
  }

  /** The promise determines the result: no two indices are both the first best. */
  lemma RankingIsUnique(inv: InvoiceFields, pos: seq<Candidate>, r: MatchResult)
    requires IsRanking(inv, pos, r)
    ensures r == Rank(inv, pos)
  {
    RankIsRanking(inv, pos);
    var scores := Scores(inv, pos);
    if !forall j :: 0 <= j < |scores| ==> scores[j] <= 0.0 {
      var k1 :| IsFirstBest(scores, k1) && r.po == Some(pos[k1])
                && r == MatchResult(Some(pos[k1]), JNumber(Clamp(scores[k1])),
                                    JString(Join(Assess(inv, pos[k1]).labels, "; ")));
      var k2 :| IsFirstBest(scores, k2)
                && Rank(inv, pos) == MatchResult(Some(pos[k2]), JNumber(Clamp(scores[k2])),
                                                 JString(Join(Assess(inv, pos[k2]).labels, "; ")));
      FirstBestIsUnique(scores, k1, k2);
    }
  }

  lemma FirstBestIsUnique(scores: seq<real>, k1: int, k2: int)
    requires IsFirstBest(scores, k1) && IsFirstBest(scores, k2)
    ensures k1 == k2
  {
  }

  /** What the scan holds after the first `i` candidates: nothing while no score exceeded 0,
      otherwise the candidate at `BestIndex`, its raw score and its reasoning text. */
  ghost predicate ScanHolds(inv: InvoiceFields, pos: seq<Candidate>, i: nat,
                            bestPo: Option<Candidate>, bestScore: real, bestReasoning: string)
    requires i <= |pos|
  {
    var b := BestIndex(Scores(inv, pos), i);
    if b < 0 then bestPo.None? && bestScore == 0.0
    else bestPo == Some(pos[b]) && bestScore == RawScore(inv, pos[b])
         && bestReasoning == ReasonText(Assess(inv, pos[b]).labels)
  }

  /** One iteration of the `fuzzy_match` loop: score candidate `i` and keep it on a strictly greater score. */
  method ScanCandidate(inv: InvoiceFields, pos: seq<Candidate>, i: nat,
                       bestPo: Option<Candidate>, bestScore: real, bestReasoning: string)
    returns (bestPo': Option<Candidate>, bestScore': real, bestReasoning': string)
    requires i < |pos| && ScanHolds(inv, pos, i, bestPo, bestScore, bestReasoning)
    ensures ScanHolds(inv, pos, i + 1, bestPo', bestScore', bestReasoning')
  {
    ghost var scores := Scores(inv, pos);
    BestIndexStep(scores, i);
    var score, parts := ScoreCandidate(inv, pos[i]);
    assert score == scores[i];
    if score > bestScore {
      bestScore' := score;
      bestPo' := Some(pos[i]);
      bestReasoning' := if |parts| > 0 then Join(parts, "; ") else "Partial match";
    } else {
      bestPo', bestScore', bestReasoning' := bestPo, bestScore, bestReasoning;
    }
  }

  /** `fuzzy_match`: one left-to-right pass, keeping the first candidate with a strictly greater score. */
  method FuzzyMatch(inv: InvoiceFields, pos: seq<Candidate>) returns (r: MatchResult)
    ensures r == Rank(inv, pos)
  {
    var bestPo: Option<Candidate> := None;
    var bestScore := 0.0;
    var bestReasoning := "";
    for i := 0 to |pos|
      invariant ScanHolds(inv, pos, i, bestPo, bestScore, bestReasoning)
    {
      bestPo, bestScore, bestReasoning := ScanCandidate(inv, pos, i, bestPo, bestScore, bestReasoning);
    }
    var reasoning := if bestPo.Some? then bestReasoning else NoMatchReason;
    r := MatchResult(bestPo, JNumber(if bestScore < 1.0 then bestScore else 1.0), JString(reasoning));
  }

  // ---------------------------------------------------------------------------
  // Parser of the language model's answer
  // ---------------------------------------------------------------------------

  const JsonFence := "```json"
  const Fence := "```"

  /** The parser's own error triple, returned (not raised) on a decode error. */
  const ParseErrorResult := MatchResult(None, JNumber(0.0), JString(ParseErrorReason))

  /** What the parser does: return a triple, or let an exception escape to its caller
      (`.get` on a decoded value that is not an object raises AttributeError, which the
      parser does not catch). */
  datatype ParseOutcome = Returned(result: MatchResult) | Raised

  /** The answer text after `strip()`, one leading "```json" removed and one trailing "```" removed. */
  function CleanReply(text: string): (r: string)
    ensures |r| <= |text|
  {
    Unfence(Strip(text))
  }

  /** One leading "```json" removed, then one trailing "```" removed. */
  function Unfence(t: string): (r: string)
    ensures |r| <= |t|
    ensures StartsWith(t, JsonFence) ==> |r| <= |t| - 7
    ensures !StartsWith(t, JsonFence) && !EndsWith(t, Fence) ==> r == t
  {
    var u := if StartsWith(t, JsonFence) then t[7..] else t;
    if EndsWith(u, Fence) then u[..|u| - 3] else u
  }

  /** `po.get("po_number") == po_number`: a PO number is a string, so only an equal JSON string names it. */
  predicate Names(v: Json, po: Candidate) {
    v == JString(po.poNumber)
  }

  /** The first candidate the answer's `po_number` names, if any. */
  function Resolve(pool: seq<Candidate>, v: Json): (r: Option<Candidate>)
    ensures r.None? <==> forall j :: 0 <= j < |pool| ==> !Names(v, pool[j])
    ensures r.Some? ==> r.value in pool
    ensures forall k :: 0 <= k < |pool| && Names(v, pool[k]) && (forall j :: 0 <= j < k ==> !Names(v, pool[j]))
                        ==> r == Some(pool[k])
  {
    match Seqs.FirstIndex(pool, po => Names(v, po))
    case None => None
    case Some(k) => Some(pool[k])
  }

  /** `_parse_ai_response` as a function of the answer text, the candidate list and the decoder. */
  function ParseReply(text: string, pool: seq<Candidate>, decode: string -> Option<Json>): (o: ParseOutcome)
    ensures o.Returned? && o.result.po.Some? ==> o.result.po.value in pool
  {
    match decode(CleanReply(text))
    case None => Returned(ParseErrorResult)
    case Some(doc) =>
      if !doc.JObject? then Raised
      else
        var best := Get(doc.members, "best_match", JObject(map[]));
        if !best.JObject? then Raised
        else Returned(MatchResult(Resolve(pool, Get(best.members, "po_number", JNull)),
                                  Get(best.members, "match_score", JNumber(0.0)),
                                  Get(doc.members, "reasoning", JString(DefaultAiReason))))
  }

  /** The search loop of `_parse_ai_response`: the first candidate whose `po_number` equals
      the answer's, stopping at the first hit. */
  method FindNamedPo(pool: seq<Candidate>, poNumber: Json) returns (matchingPo: Option<Candidate>)
    ensures matchingPo == Resolve(pool, poNumber)
  {
    matchingPo := None;
    var i := 0;
    while i < |pool|
      invariant 0 <= i <= |pool|
      invariant matchingPo.None? ==> forall j :: 0 <= j < i ==> !Names(poNumber, pool[j])
      invariant matchingPo.Some? ==> matchingPo == Resolve(pool, poNumber)
    {
      if Names(poNumber, pool[i]) {
        matchingPo := Some(pool[i]);
        break;
      }
      i := i + 1;
    }
  }

  /** `_parse_ai_response`: clean the text step by step, decode it, then search the whole
      candidate list for the named PO, stopping at the first hit. */
  method ParseAiResponse(text: string, pool: seq<Candidate>, decode: string -> Option<Json>)
    returns (o: ParseOutcome)
    ensures o == ParseReply(text, pool, decode)
  {
    var responseText := Strip(text);
    if StartsWith(responseText, JsonFence) {
      responseText := responseText[7..];
    }
    if EndsWith(responseText, Fence) {
      responseText := responseText[..|responseText| - 3];
    }
    assert responseText == CleanReply(text);
    var decoded := decode(responseText);
    if decoded.None? {
      return Returned(ParseErrorResult);
    }
    var aiResult := decoded.value;
    if !aiResult.JObject? {
      return Raised;
    }
    var bestMatch := Get(aiResult.members, "best_match", JObject(map[]));
    if !bestMatch.JObject? {
      return Raised;
    }
    var poNumber := Get(bestMatch.members, "po_number", JNull);
    var matchingPo := FindNamedPo(pool, poNumber);
    o := Returned(MatchResult(matchingPo,
                              Get(bestMatch.members, "match_score", JNumber(0.0)),
                              Get(aiResult.members, "reasoning", JString(DefaultAiReason))));
  }

  /** A fenced answer, with any white space around it, is cleaned down to what lies between the fences. */
  lemma FencedReplyIsCleaned(lead: string, body: string, trail: string)
    requires forall i :: 0 <= i < |lead| ==> IsSpace(lead[i])
    requires forall i :: 0 <= i < |trail| ==> IsSpace(trail[i])
    ensures CleanReply(lead + JsonFence + body + Fence + trail) == body
  {
    var core := JsonFence + body + Fence;
    assert lead + JsonFence + body + Fence + trail == lead + core + trail;
    assert core[0] == '`' && core[|core| - 1] == '`';
    StripPadded(lead, core, trail);
    UnfenceFenced(body);
  }

  lemma UnfenceFenced(body: string)
    ensures Unfence(JsonFence + body + Fence) == body
  {
    var core := JsonFence + body + Fence;
    var u := body + Fence;
    assert StartsWith(core, JsonFence) && core[7..] == u;
    assert EndsWith(u, Fence) && u[..|u| - 3] == body;
  }

  /** An unfenced answer is only stripped of surrounding white space. */
  lemma PlainReplyIsStripped(lead: string, core: string, trail: string)
    requires forall i :: 0 <= i < |lead| ==> IsSpace(lead[i])
    requires forall i :: 0 <= i < |trail| ==> IsSpace(trail[i])
    requires |core| > 0 && !IsSpace(core[0]) && !IsSpace(core[|core| - 1])
    requires !StartsWith(core, JsonFence) && !EndsWith(core, Fence)
    ensures CleanReply(lead + core + trail) == core
  {
    StripPadded(lead, core, trail);
  }

  /** An answer naming a candidate's PO number resolves to the first candidate with that number,
      with the answer's own score and reasoning (defaults where they are absent). */
  lemma ParserResolvesNamedPo(text: string, pool: seq<Candidate>, decode: string -> Option<Json>,
                              members: map<string, Json>, best: map<string, Json>, k: nat)
    requires decode(CleanReply(text)) == Some(JObject(members))
    requires "best_match" in members && members["best_match"] == JObject(best)
    requires k < |pool| && "po_number" in best && best["po_number"] == JString(pool[k].poNumber)
    requires forall j :: 0 <= j < k ==> pool[j].poNumber != pool[k].poNumber
    ensures ParseReply(text, pool, decode)
            == Returned(MatchResult(Some(pool[k]), Get(best, "match_score", JNumber(0.0)),
                                    Get(members, "reasoning", JString(DefaultAiReason))))
  {
    assert Names(JString(pool[k].poNumber), pool[k]);
  }

  /** An object answer without `best_match` or `reasoning` yields no PO, score 0 and the default reasoning. */
  lemma EmptyAnswerGivesDefaults(text: string, pool: seq<Candidate>, decode: string -> Option<Json>)
    requires decode(CleanReply(text)) == Some(JObject(map[]))
    ensures ParseReply(text, pool, decode) == Returned(MatchResult(None, JNumber(0.0), JString(DefaultAiReason)))
  {
  }

  // ---------------------------------------------------------------------------
  // Orchestrator
  // ---------------------------------------------------------------------------

  /** The data the prompt is built from; the surrounding instruction text is fixed. */
  datatype Prompt = Prompt(invoice: InvoiceFields, pos: seq<Candidate>)

  /** `_prepare_invoice_context`: the invoice fields with only the first 3 line items. */
  function InvoiceContext(inv: InvoiceFields): (c: InvoiceFields)
    ensures c.lineItems <= inv.lineItems && |c.lineItems| <= 3
    ensures |inv.lineItems| <= 3 ==> c == inv
    ensures c.(lineItems := inv.lineItems) == inv
  {
    inv.(lineItems := Seqs.Take(inv.lineItems, 3))
  }

  /** `_prepare_pos_context`: the first 10 candidates. */
  function PosContext(pool: seq<Candidate>): (c: seq<Candidate>)
    ensures c <= pool && |c| <= 10
    ensures |pool| <= 10 ==> c == pool
  {
    Seqs.Take(pool, 10)
  }

  /** The request sent to the language model. */
  function MatchingPrompt(inv: InvoiceFields, pool: seq<Candidate>): (p: Prompt)
    ensures |p.invoice.lineItems| <= 3 && |p.pos| <= 10 && p.pos <= pool
  {
    Prompt(InvoiceContext(inv), PosContext(pool))
  }

  /** The candidate list after the demo substitution for an empty list. */
  function PoolFor(available: seq<Candidate>): (pool: seq<Candidate>)
    ensures |pool| > 0
  {
    if available == [] then [DemoPo] else available
  }

  /** `find_best_match` as a function of the invoice, the candidates, the model and the decoder:
      a failed call, or an exception out of the parser, falls back to the ranker over the same list. */
  function ExpectedMatch(inv: InvoiceFields, available: seq<Candidate>,
                         oracle: Prompt -> Option<string>, decode: string -> Option<Json>): (r: MatchResult)
    ensures r.po.Some? ==> r.po.value in PoolFor(available)
  {
    var pool := PoolFor(available);
    match oracle(MatchingPrompt(inv, pool))
    case None => Rank(inv, pool)
    case Some(text) =>
      match ParseReply(text, pool, decode)
      case Returned(result) => result
      case Raised => Rank(inv, pool)
  }

  /** `find_best_match`. */
  method FindBestMatch(inv: InvoiceFields, available: seq<Candidate>,
                       oracle: Prompt -> Option<string>, decode: string -> Option<Json>)
    returns (r: MatchResult)
    ensures r == ExpectedMatch(inv, available, oracle, decode)
  {
    var pos := available;
    if |pos| == 0 {
      pos := [DemoPo];
    }
    var prompt := MatchingPrompt(inv, pos);
    var responseText := oracle(prompt);
    if responseText.None? {
      r := FuzzyMatch(inv, pos);
      return;
    }
    var outcome := ParseAiResponse(responseText.value, pos, decode);
    match outcome {
      case Returned(result) =>
        r := result;
      case Raised =>
        r := FuzzyMatch(inv, pos);
    }
  }

  /** Only the first 10 candidates and the first 3 line items reach the model: lists that agree
      on those give the same request. */
  lemma PromptSeesOnlyTheHead(inv1: InvoiceFields, inv2: InvoiceFields, a: seq<Candidate>, b: seq<Candidate>)
    requires inv1.(lineItems := inv2.lineItems) == inv2
    requires Seqs.Take(inv1.lineItems, 3) == Seqs.Take(inv2.lineItems, 3)
    requires Seqs.Take(a, 10) == Seqs.Take(b, 10)
    ensures MatchingPrompt(inv1, a) == MatchingPrompt(inv2, b)
  {
  }

  /** A failed call to the model falls back to the ranker over the (possibly substituted) list. */
  lemma OracleFailureFallsBack(inv: InvoiceFields, available: seq<Candidate>,
                               oracle: Prompt -> Option<string>, decode: string -> Option<Json>)
    requires oracle(MatchingPrompt(inv, PoolFor(available))).None?
    ensures ExpectedMatch(inv, available, oracle, decode) == Rank(inv, PoolFor(available))
    ensures IsRanking(inv, PoolFor(available), ExpectedMatch(inv, available, oracle, decode))
  {
    RankIsRanking(inv, PoolFor(available));
  }

  /** An answer that decodes to something other than an object escapes the parser and falls back. */
  lemma NonObjectAnswerFallsBack(inv: InvoiceFields, available: seq<Candidate>,
                                 oracle: Prompt -> Option<string>, decode: string -> Option<Json>, doc: Json)
    requires oracle(MatchingPrompt(inv, PoolFor(available))).Some?
    requires decode(CleanReply(oracle(MatchingPrompt(inv, PoolFor(available))).value)) == Some(doc)
    requires !doc.JObject?
    ensures ExpectedMatch(inv, available, oracle, decode) == Rank(inv, PoolFor(available))
  {
  }

  /** An undecodable answer yields the parser's error triple: there is no fallback to the ranker,
      even when the ranker would have found a PO. */
  lemma UndecodableAnswerIsFinal(inv: InvoiceFields, available: seq<Candidate>,
                                 oracle: Prompt -> Option<string>, decode: string -> Option<Json>)
    requires oracle(MatchingPrompt(inv, PoolFor(available))).Some?
    requires decode(CleanReply(oracle(MatchingPrompt(inv, PoolFor(available))).value)).None?
    ensures ExpectedMatch(inv, available, oracle, decode) == ParseErrorResult
  {
  }

  /** An answer naming no candidate yields no PO with the answer's own score: again no fallback. */
  lemma UnresolvedAnswerIsFinal(inv: InvoiceFields, available: seq<Candidate>,
                                oracle: Prompt -> Option<string>, decode: string -> Option<Json>,
                                members: map<string, Json>, best: map<string, Json>)
    requires oracle(MatchingPrompt(inv, PoolFor(available))).Some?
    requires decode(CleanReply(oracle(MatchingPrompt(inv, PoolFor(available))).value)) == Some(JObject(members))
    requires "best_match" in members && members["best_match"] == JObject(best)
    requires forall j :: 0 <= j < |PoolFor(available)| ==> !Names(Get(best, "po_number", JNull), PoolFor(available)[j])
    ensures ExpectedMatch(inv, available, oracle, decode).po.None?
    ensures ExpectedMatch(inv, available, oracle, decode).score == Get(best, "match_score", JNumber(0.0))
  {
    var pool := PoolFor(available);
    ParserReturnsUnresolved(oracle(MatchingPrompt(inv, pool)).value, pool, decode, members, best);
  }

  /** The parser step of `UnresolvedAnswerIsFinal`: the answer is returned, with no PO. */
  lemma ParserReturnsUnresolved(text: string, pool: seq<Candidate>, decode: string -> Option<Json>,
                                members: map<string, Json>, best: map<string, Json>)
    requires decode(CleanReply(text)) == Some(JObject(members))
    requires "best_match" in members && members["best_match"] == JObject(best)
    requires forall j :: 0 <= j < |pool| ==> !Names(Get(best, "po_number", JNull), pool[j])
    ensures ParseReply(text, pool, decode)
            == Returned(MatchResult(None, Get(best, "match_score", JNumber(0.0)),
                                    Get(members, "reasoning", JString(DefaultAiReason))))
  {
    assert Get(members, "best_match", JObject(map[])) == JObject(best);
    assert Resolve(pool, Get(best, "po_number", JNull)).None?;
  }

  /** The named PO is searched for in the whole list, so the model can pick a candidate it was
      never shown (any position, including beyond the first 10). */
  lemma AnswerResolvesInWholeList(inv: InvoiceFields, available: seq<Candidate>,
                                  oracle: Prompt -> Option<string>, decode: string -> Option<Json>,
                                  members: map<string, Json>, best: map<string, Json>, k: nat)
    requires k < |available|
    requires oracle(MatchingPrompt(inv, available)).Some?
    requires decode(CleanReply(oracle(MatchingPrompt(inv, available)).value)) == Some(JObject(members))
    requires "best_match" in members && members["best_match"] == JObject(best)
    requires "po_number" in best && best["po_number"] == JString(available[k].poNumber)
    requires forall j :: 0 <= j < k ==> available[j].poNumber != available[k].poNumber
    ensures ExpectedMatch(inv, available, oracle, decode).po == Some(available[k])
  {
    ParserResolvesNamedPo(oracle(MatchingPrompt(inv, available)).value, available, decode, members, best, k);
  }

  /** With no candidates, the only PO the matcher can return is the demo PO, on either path. */
  lemma EmptyListUsesDemoPo(inv: InvoiceFields, oracle: Prompt -> Option<string>, decode: string -> Option<Json>)
    ensures var r := ExpectedMatch(inv, [], oracle, decode);
            r.po.Some? ==> r.po.value == DemoPo
  {
  }
}
