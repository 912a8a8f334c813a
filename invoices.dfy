/** The matching bookkeeping of backend/app/routes/invoices.py over the in-memory tables:
    `match_invoice_to_po`, `get_pending_matches` and `approve_match`. A route's failure is an
    `HttpError`: a 404 the route raises and re-raises, or a 500 from the generic handler. */
module Invoices {
  import opened Wrappers
  import opened Json
  import opened Store
  import Seqs
  import Text
  import Matching

  /** The body `match_invoice_to_po` returns. */
  datatype MatchResponse =
    | NoMatchFound(invoiceId: int)
    | Matched(matchId: int, invoiceId: int, poNumber: string, score: Json, reasoning: Json,
              requiresApproval: bool)

  /** A route's response together with the match table it leaves behind. */
  datatype Step<T> = Step(response: Result<T, HttpError>, matches: seq<MatchRow>)

  /** Scores below this require approval. */
  const ApprovalThreshold: real := 0.8
  const AiMatchType := "AI"
  const ApprovedMessage := "Match approved successfully"

  // ---------------------------------------------------------------------------
  // match_invoice_to_po
  // ---------------------------------------------------------------------------

  /** The purchase orders offered to the matcher: exactly those with a positive remaining amount. */
  function Available(pos: seq<PurchaseOrderRow>): (r: seq<PurchaseOrderRow>)
    ensures forall i :: 0 <= i < |r| ==> r[i] in pos && r[i].remainingAmount > 0.0
    ensures forall i :: 0 <= i < |pos| && pos[i].remainingAmount > 0.0 ==> pos[i] in r
  {
    Seqs.Filter(pos, (po: PurchaseOrderRow) => po.remainingAmount > 0.0)
  }

  /** The dictionary the route builds for one row: no vendor id, part number or supplier part. */
  function CandidateOf(po: PurchaseOrderRow): Matching.Candidate {
    Matching.Candidate(po.poNumber, po.poLine, po.vendorName, None, None, None,
                       po.lineDescription, po.lineAmount, Some(po.remainingAmount))
  }

  function Candidates(pos: seq<PurchaseOrderRow>): (c: seq<Matching.Candidate>)
    ensures |c| == |pos| && forall i :: 0 <= i < |pos| ==> c[i] == CandidateOf(pos[i])
  {
    seq(|pos|, i requires 0 <= i < |pos| => CandidateOf(pos[i]))
  }

  /** Python's `score < bound` on a value the matcher returned: numbers and booleans compare,
      anything else raises TypeError (`None`). */
  function LessThan(score: Json, bound: real): (r: Option<bool>)
    ensures score.JNumber? ==> r == Some(score.n < bound)
    ensures r.None? <==> !(score.JNumber? || score.JBool?)
  {
    match score
    case JNumber(n) => Some(n < bound)
    case JBool(b) => Some((if b then 1.0 else 0.0) < bound)
    case _ => None
  }

  /** The match row recorded for a found PO: its id is the id of the first row with the
      returned PO number, whichever line that row is. */
  function NewMatch(pos: seq<PurchaseOrderRow>, id: int, invoice: InvoiceRow, r: Matching.MatchResult): (m: MatchRow)
    requires r.po.Some?
    ensures m.poId.Some? <==> exists i :: 0 <= i < |pos| && pos[i].poNumber == r.po.value.poNumber
    ensures m.poId.Some? ==> exists i :: 0 <= i < |pos| && pos[i].id == m.poId.value
                                         && pos[i].poNumber == r.po.value.poNumber
    ensures !m.isApproved && m.matchScore == r.score && m.aiReasoning == r.reasoning
  {
    var poRecord := FirstWithPoNumber(pos, r.po.value.poNumber);
    MatchRow(id, invoice.id, if poRecord.Some? then Some(poRecord.value.id) else None,
             r.score, invoice.invoiceAmount, AiMatchType, r.reasoning, false)
  }

  /** `match_invoice_to_po` as a function of the tables and of the route's collaborators:
      `readInvoice` stands for decoding the stored extracted data (`None` when it raises). */
  function MatchOutcome(pos: seq<PurchaseOrderRow>, invoices: seq<InvoiceRow>, ms: seq<MatchRow>,
                        nextMatchId: int, invoiceId: int,
                        readInvoice: Option<string> -> Option<Matching.InvoiceFields>,
                        oracle: Matching.Prompt -> Option<string>, decode: string -> Option<Json>)
    : (s: Step<MatchResponse>)
    ensures s.matches == ms || (|s.matches| == |ms| + 1 && s.matches[..|ms|] == ms
                                && s.matches[|ms|].id == nextMatchId)
    ensures s.response.Err? && s.response.error.NotFound? ==> s.matches == ms
    ensures s.response.Ok? && s.response.value.Matched? ==>
              s.response.value.matchId == nextMatchId && |s.matches| == |ms| + 1
  {
    match FindInvoice(invoices, invoiceId)
    case None => Step(Err(NotFound("Invoice not found")), ms)
    case Some(invoice) =>
      var available := Available(pos);
      if available == [] then Step(Err(NotFound("No available purchase orders")), ms)
      else match readInvoice(invoice.extractedData)
        case None => Step(Err(ServerError), ms)
        case Some(fields) =>
          var r := Matching.ExpectedMatch(fields, Candidates(available), oracle, decode);
          if r.po.None? then Step(Ok(NoMatchFound(invoiceId)), ms)
          else
            var ms' := ms + [NewMatch(pos, nextMatchId, invoice, r)];
            if !Storable(r.score, r.reasoning) then Step(Err(ServerError), ms)
            else match LessThan(r.score, ApprovalThreshold)
            case None => Step(Err(ServerError), ms')
            case Some(low) =>
              Step(Ok(Matched(nextMatchId, invoiceId, r.po.value.poNumber, r.score, r.reasoning, low)), ms')
  }

  /** `db.add(match)` and `db.commit()`: the new row takes the next id and goes after all existing rows. */
  method AddMatch(db: Database, record: MatchRow)
    requires db.Valid() && record.id == db.nextMatchId
    modifies db
    ensures db.Valid()
    ensures db.matches == old(db.matches) + [record] && db.nextMatchId == old(db.nextMatchId) + 1
    ensures db.purchaseOrders == old(db.purchaseOrders) && db.invoices == old(db.invoices)
    ensures db.nextPoId == old(db.nextPoId)
  {
    AppendKeepsIdsFresh(db.matches, db.nextMatchId, record);
    db.matches := db.matches + [record];
    db.nextMatchId := db.nextMatchId + 1;
  }

  /** `match_invoice_to_po`. A score or reasoning the columns cannot take makes the commit
      raise, a 500 with nothing stored. The record is committed before `requires_approval` is
      computed, so a stored score that does not compare with 0.8 ends in a 500 with the record kept. */
  method MatchInvoiceToPo(db: Database, invoiceId: int,
                          readInvoice: Option<string> -> Option<Matching.InvoiceFields>,
                          oracle: Matching.Prompt -> Option<string>, decode: string -> Option<Json>)
    returns (r: Result<MatchResponse, HttpError>)
    requires db.Valid()
    modifies db
    ensures db.Valid()
    ensures db.purchaseOrders == old(db.purchaseOrders) && db.invoices == old(db.invoices)
    ensures db.nextPoId == old(db.nextPoId)
    ensures var s := MatchOutcome(old(db.purchaseOrders), old(db.invoices), old(db.matches), old(db.nextMatchId),
                                  invoiceId, readInvoice, oracle, decode);
            r == s.response && db.matches == s.matches
    ensures db.nextMatchId == old(db.nextMatchId) + (|db.matches| - |old(db.matches)|)
  {
    ghost var s := MatchOutcome(db.purchaseOrders, db.invoices, db.matches, db.nextMatchId,
                                invoiceId, readInvoice, oracle, decode);
    var invoice := FindInvoice(db.invoices, invoiceId);
    if invoice.None? {
      assert s == Step(Err(NotFound("Invoice not found")), db.matches);
      return Err(NotFound("Invoice not found"));
    }
    var availablePos := Available(db.purchaseOrders);
    if |availablePos| == 0 {
      assert s == Step(Err(NotFound("No available purchase orders")), db.matches);
      return Err(NotFound("No available purchase orders"));
    }
    var posData := Candidates(availablePos);
    var invoiceData := readInvoice(invoice.value.extractedData);
    if invoiceData.None? {
      assert s == Step(Err(ServerError), db.matches);
      return Err(ServerError);
    }
    var best := Matching.FindBestMatch(invoiceData.value, posData, oracle, decode);
    assert best == Matching.ExpectedMatch(invoiceData.value, posData, oracle, decode);
    if best.po.None? {
      assert s == Step(Ok(NoMatchFound(invoiceId)), db.matches);
      return Ok(NoMatchFound(invoiceId));
    }
    var poRecord := FirstWithPoNumber(db.purchaseOrders, best.po.value.poNumber);
    var record := MatchRow(db.nextMatchId, invoiceId, if poRecord.Some? then Some(poRecord.value.id) else None,
                           best.score, invoice.value.invoiceAmount, AiMatchType, best.reasoning, false);
    assert record == NewMatch(db.purchaseOrders, db.nextMatchId, invoice.value, best);
    if !Storable(best.score, best.reasoning) {
      assert s == Step(Err(ServerError), db.matches);
      return Err(ServerError);
    }
    assert s.matches == db.matches + [record];
    AddMatch(db, record);
    var requiresApproval := LessThan(best.score, ApprovalThreshold);
    if requiresApproval.None? {
      assert s.response == Err(ServerError);
      return Err(ServerError);
    }
    r := Ok(Matched(record.id, invoiceId, best.po.value.poNumber, best.score, best.reasoning,
                    requiresApproval.value));
    assert s.response == r;
  }

  /** Appending a row that takes the next id keeps the ids fresh and distinct. */
  lemma AppendKeepsIdsFresh(ms: seq<MatchRow>, nextId: int, m: MatchRow)
    requires MatchIdsFresh(ms, nextId) && m.id == nextId
    ensures MatchIdsFresh(ms + [m], nextId + 1)
  {
  }

  /** The route's candidates never carry a part number, so the part-number rule never fires through it. */
  lemma PartNumberRuleIsDeadThroughRoute(inv: Matching.InvoiceFields, po: PurchaseOrderRow)
    ensures Matching.PartNumberRule(inv, CandidateOf(po)) == Matching.NotFired
  {
    assert Text.Lower("") == "";
  }

  /** At most one row is added by the route, only for a found PO, after all existing rows, and
      only when the invoice exists, there are available POs and its data could be read; the row
      records the invoice, its amount, the "AI" type and is not approved. Existing rows are kept. */
  lemma MatchAddsOneRecordForAFoundPo(pos: seq<PurchaseOrderRow>, invoices: seq<InvoiceRow>, ms: seq<MatchRow>,
                                      nextMatchId: int, invoiceId: int,
                                      readInvoice: Option<string> -> Option<Matching.InvoiceFields>,
                                      oracle: Matching.Prompt -> Option<string>, decode: string -> Option<Json>)
    ensures var s := MatchOutcome(pos, invoices, ms, nextMatchId, invoiceId, readInvoice, oracle, decode);
            && (s.response == Ok(NoMatchFound(invoiceId)) ==> s.matches == ms)
            && (s.response.Err? && s.response.error.NotFound? ==> s.matches == ms)
            && (s.matches == ms || |s.matches| == |ms| + 1)
            && s.matches[..|ms|] == ms
            && (s.matches != ms ==>
                  var invoice := FindInvoice(invoices, invoiceId).value;
                  && FindInvoice(invoices, invoiceId).Some?
                  && Available(pos) != []
                  && readInvoice(invoice.extractedData).Some?
                  && Matching.ExpectedMatch(readInvoice(invoice.extractedData).value, Candidates(Available(pos)),
                                            oracle, decode).po.Some?
                  && var m := s.matches[|ms|];
                  && m.id == nextMatchId && m.invoiceId == invoiceId && m.matchedAmount == invoice.invoiceAmount
                  && m.matchType == "AI" && !m.isApproved
                  && Storable(m.matchScore, m.aiReasoning))
  {
  }

  /** A matched PO is one of the available rows (the demo PO of the matcher is never reached,
      since the route stops on an empty list), and the record points at the first row with its number. */
  lemma MatchedPoIsAvailable(pos: seq<PurchaseOrderRow>, invoices: seq<InvoiceRow>, ms: seq<MatchRow>,
                             nextMatchId: int, invoiceId: int,
                             readInvoice: Option<string> -> Option<Matching.InvoiceFields>,
                             oracle: Matching.Prompt -> Option<string>, decode: string -> Option<Json>)
    requires MatchOutcome(pos, invoices, ms, nextMatchId, invoiceId, readInvoice, oracle, decode).response.Ok?
    requires MatchOutcome(pos, invoices, ms, nextMatchId, invoiceId, readInvoice, oracle, decode).response.value.Matched?
    ensures var s := MatchOutcome(pos, invoices, ms, nextMatchId, invoiceId, readInvoice, oracle, decode);
            var n := s.response.value.poNumber;
            && (exists i :: 0 <= i < |pos| && pos[i].remainingAmount > 0.0 && pos[i].poNumber == n)
            && FirstWithPoNumber(pos, n).Some?
            && s.matches[|ms|].poId == Some(FirstWithPoNumber(pos, n).value.id)
  {
    var invoice := FindInvoice(invoices, invoiceId).value;
    var available := Available(pos);
    var fields := readInvoice(invoice.extractedData).value;
    var r := Matching.ExpectedMatch(fields, Candidates(available), oracle, decode);
    assert Matching.PoolFor(Candidates(available)) == Candidates(available);
    var k :| 0 <= k < |available| && Candidates(available)[k] == r.po.value;
    assert available[k] in pos;
  }

  /** A match requires approval exactly when its numeric score is below 0.8; whatever the score,
      a matched response carries the outcome of the comparison. */
  lemma RequiresApprovalIffBelowThreshold(pos: seq<PurchaseOrderRow>, invoices: seq<InvoiceRow>, ms: seq<MatchRow>,
                                          nextMatchId: int, invoiceId: int,
                                          readInvoice: Option<string> -> Option<Matching.InvoiceFields>,
                                          oracle: Matching.Prompt -> Option<string>, decode: string -> Option<Json>)
    ensures var s := MatchOutcome(pos, invoices, ms, nextMatchId, invoiceId, readInvoice, oracle, decode);
            s.response.Ok? && s.response.value.Matched? ==>
              && LessThan(s.response.value.score, ApprovalThreshold) == Some(s.response.value.requiresApproval)
              && (s.response.value.score.JNumber? ==>
                    (s.response.value.requiresApproval <==> s.response.value.score.n < 0.8))
              && s.matches[|ms|].matchScore == s.response.value.score
              && s.matches[|ms|].aiReasoning == s.response.value.reasoning
  {
  }

  /** A score that is stored but is not a number (a null, or text that `float()` parses, as the
      model may answer) fails the route after the new record was committed. */
  lemma UncomparableScoreFailsAfterRecording(pos: seq<PurchaseOrderRow>, invoices: seq<InvoiceRow>,
                                             ms: seq<MatchRow>, nextMatchId: int, invoiceId: int,
                                             readInvoice: Option<string> -> Option<Matching.InvoiceFields>,
                                             oracle: Matching.Prompt -> Option<string>,
                                             decode: string -> Option<Json>)
    requires FindInvoice(invoices, invoiceId).Some? && Available(pos) != []
    requires readInvoice(FindInvoice(invoices, invoiceId).value.extractedData).Some?
    requires var r := Matching.ExpectedMatch(readInvoice(FindInvoice(invoices, invoiceId).value.extractedData).value,
                                             Candidates(Available(pos)), oracle, decode);
             r.po.Some? && !(r.score.JNumber? || r.score.JBool?) && Storable(r.score, r.reasoning)
    ensures var s := MatchOutcome(pos, invoices, ms, nextMatchId, invoiceId, readInvoice, oracle, decode);
            s.response == Err(ServerError) && |s.matches| == |ms| + 1
  {
  }

  /** A score or reasoning the match columns cannot take (a list, a dictionary, or a score text
      `float()` rejects) fails the route at the commit, and no record is kept. */
  lemma UnstorableMatchIsNotKept(pos: seq<PurchaseOrderRow>, invoices: seq<InvoiceRow>,
                                 ms: seq<MatchRow>, nextMatchId: int, invoiceId: int,
                                 readInvoice: Option<string> -> Option<Matching.InvoiceFields>,
                                 oracle: Matching.Prompt -> Option<string>,
                                 decode: string -> Option<Json>)
    requires FindInvoice(invoices, invoiceId).Some? && Available(pos) != []
    requires readInvoice(FindInvoice(invoices, invoiceId).value.extractedData).Some?
    requires var r := Matching.ExpectedMatch(readInvoice(FindInvoice(invoices, invoiceId).value.extractedData).value,
                                             Candidates(Available(pos)), oracle, decode);
             r.po.Some? && !Storable(r.score, r.reasoning)
    ensures MatchOutcome(pos, invoices, ms, nextMatchId, invoiceId, readInvoice, oracle, decode)
            == Step(Err(ServerError), ms)
  {
  }

  // ---------------------------------------------------------------------------
  // approve_match
  // ---------------------------------------------------------------------------

  /** `approve_match` on the match table: set `is_approved` on the first match with the id,
      or `None` for an unknown id. */
  function Approve(ms: seq<MatchRow>, matchId: int): (r: Option<seq<MatchRow>>)
    ensures r.None? <==> forall i :: 0 <= i < |ms| ==> ms[i].id != matchId
    ensures r.Some? ==> |r.value| == |ms|
    ensures r.Some? ==> forall i :: 0 <= i < |ms| ==> r.value[i].(isApproved := ms[i].isApproved) == ms[i]
    ensures r.Some? ==> forall i :: 0 <= i < |ms| && ms[i].isApproved ==> r.value[i].isApproved
    ensures r.Some? ==> exists i :: 0 <= i < |ms| && ms[i].id == matchId && r.value[i].isApproved
    ensures r.Some? ==> exists k :: 0 <= k < |ms| && ms[k].id == matchId
                                    && (forall j :: 0 <= j < k ==> ms[j].id != matchId)
                                    && r.value == ms[k := ms[k].(isApproved := true)]
  {
    match Seqs.FirstIndex(ms, (m: MatchRow) => m.id == matchId)
    case None => None
    case Some(k) => Some(ms[k := ms[k].(isApproved := true)])
  }

  /** With unique ids, approval flips exactly the flag of the match with the id. */
  lemma ApproveFlipsOnlyThatMatch(ms: seq<MatchRow>, nextId: int, matchId: int)
    requires MatchIdsFresh(ms, nextId)
    requires Approve(ms, matchId).Some?
    ensures var ms' := Approve(ms, matchId).value;
            forall i :: 0 <= i < |ms| ==> (ms'[i].isApproved <==> ms[i].isApproved || ms[i].id == matchId)
    ensures MatchIdsFresh(Approve(ms, matchId).value, nextId)
  {
    var ms' := Approve(ms, matchId).value;
    forall i | 0 <= i < |ms|
      ensures ms'[i].isApproved <==> ms[i].isApproved || ms[i].id == matchId
    {
      assert ms'[i].id == ms[i].id;
    }
  }

  /** Approving twice is approving once. */
  lemma ApproveIsIdempotent(ms: seq<MatchRow>, matchId: int)
    requires Approve(ms, matchId).Some?
    ensures Approve(Approve(ms, matchId).value, matchId) == Approve(ms, matchId)
  {
    var k := Seqs.FirstIndex(ms, (m: MatchRow) => m.id == matchId).value;
    var ms' := ms[k := ms[k].(isApproved := true)];
    assert forall i :: 0 <= i < |ms| ==> ms'[i].id == ms[i].id;
    var k' := Seqs.FirstIndex(ms', (m: MatchRow) => m.id == matchId).value;
    assert k' == k;
    assert ms'[k := ms'[k].(isApproved := true)] == ms';
  }

  /** `approve_match`. An unknown id raises a 404 inside the `try`, which the generic handler turns into a 500. */
  method ApproveMatch(db: Database, matchId: int) returns (r: Result<string, HttpError>)
    requires db.Valid()
    modifies db
    ensures db.Valid()
    ensures db.purchaseOrders == old(db.purchaseOrders) && db.invoices == old(db.invoices)
    ensures db.nextPoId == old(db.nextPoId) && db.nextMatchId == old(db.nextMatchId)
    ensures match Approve(old(db.matches), matchId)
            case None => r == Err(ServerError) && db.matches == old(db.matches)
            case Some(ms) => r == Ok(ApprovedMessage) && db.matches == ms
  {
    var k := Seqs.FirstIndex(db.matches, (m: MatchRow) => m.id == matchId);
    if k.None? {
      return Err(ServerError);
    }
    var record := db.matches[k.value];
    db.matches := db.matches[k.value := record.(isApproved := true)];
    assert forall i :: 0 <= i < |db.matches| ==> db.matches[i].id == old(db.matches)[i].id;
    r := Ok(ApprovedMessage);
  }

  // ---------------------------------------------------------------------------
  // get_pending_matches
  // ---------------------------------------------------------------------------

  /** One entry of the pending list. */
  datatype PendingEntry = PendingEntry(matchId: int, invoiceNumber: Option<string>, poNumber: Option<string>,
                                       amount: Option<real>, score: Json, reasoning: Json)

  /** The matches `filter(InvoiceMatch.is_approved == False)` selects. */
  function Pending(ms: seq<MatchRow>): (r: seq<MatchRow>)
    ensures forall i :: 0 <= i < |r| ==> r[i] in ms && !r[i].isApproved
    ensures forall i :: 0 <= i < |ms| && !ms[i].isApproved ==> ms[i] in r
  {
    Seqs.Filter(ms, (m: MatchRow) => !m.isApproved)
  }

  /** The entry for one match; `None` when its invoice is missing (`match.invoice` is None and
      reading its number raises). A missing PO gives no PO number. */
  function EntryOf(invoices: seq<InvoiceRow>, pos: seq<PurchaseOrderRow>, m: MatchRow): (r: Option<PendingEntry>)
    ensures r.None? <==> forall i :: 0 <= i < |invoices| ==> invoices[i].id != m.invoiceId
    ensures r.Some? ==> r.value.matchId == m.id && r.value.amount == m.matchedAmount
                        && r.value.score == m.matchScore && r.value.reasoning == m.aiReasoning
    ensures r.Some? ==> r.value.invoiceNumber == FindInvoice(invoices, m.invoiceId).value.invoiceNumber
    ensures r.Some? ==> (r.value.poNumber.Some? <==> m.poId.Some? && FindPurchaseOrder(pos, m.poId.value).Some?)
    ensures r.Some? && r.value.poNumber.Some? ==>
              r.value.poNumber.value == FindPurchaseOrder(pos, m.poId.value).value.poNumber
  {
    match FindInvoice(invoices, m.invoiceId)
    case None => None
    case Some(invoice) =>
      var po := if m.poId.Some? then FindPurchaseOrder(pos, m.poId.value) else None;
      Some(PendingEntry(m.id, invoice.invoiceNumber, if po.Some? then Some(po.value.poNumber) else None,
                        m.matchedAmount, m.matchScore, m.aiReasoning))
  }

  /** The entries of a list of matches, in order; `None` as soon as one of them has no invoice. */
  function Entries(invoices: seq<InvoiceRow>, pos: seq<PurchaseOrderRow>, ps: seq<MatchRow>)
    : (r: Option<seq<PendingEntry>>)
    ensures r.Some? ==> |r.value| == |ps|
    ensures r.Some? ==> forall i :: 0 <= i < |ps| ==> EntryOf(invoices, pos, ps[i]) == Some(r.value[i])
    ensures r.None? <==> exists i :: 0 <= i < |ps| && EntryOf(invoices, pos, ps[i]).None?
  {
    if |ps| == 0 then Some([])
    else
      var last := ps[|ps| - 1];
      match Entries(invoices, pos, ps[..|ps| - 1])
      case None => None
      case Some(front) =>
        match EntryOf(invoices, pos, last)
        case None => None
        case Some(e) => Some(front + [e])
  }

  /** `get_pending_matches` as a function of the tables. */
  function PendingList(invoices: seq<InvoiceRow>, pos: seq<PurchaseOrderRow>, ms: seq<MatchRow>)
    : (r: Result<seq<PendingEntry>, HttpError>)
    ensures r.Ok? ==> |r.value| == |Pending(ms)|
    ensures r.Err? ==> r.error == ServerError
    ensures r.Err? <==> exists i :: 0 <= i < |Pending(ms)| && EntryOf(invoices, pos, Pending(ms)[i]).None?
  {
    match Entries(invoices, pos, Pending(ms))
    case None => Err(ServerError)
    case Some(es) => Ok(es)
  }

  /** `get_pending_matches`: the unapproved matches, one entry each, appended in table order. */
  method GetPendingMatches(db: Database) returns (r: Result<seq<PendingEntry>, HttpError>)
    ensures r == PendingList(db.invoices, db.purchaseOrders, db.matches)
  {
    var pending := Pending(db.matches);
    var results: seq<PendingEntry> := [];
    for i := 0 to |pending|
      invariant Entries(db.invoices, db.purchaseOrders, pending[..i]) == Some(results)
    {
      assert pending[..i + 1][..i] == pending[..i];
      var entry := EntryOf(db.invoices, db.purchaseOrders, pending[i]);
      if entry.None? {
        assert pending[..i + 1][i] == pending[i];
        assert Entries(db.invoices, db.purchaseOrders, pending[..i + 1]).None?;
        assert pending[..i + 1] == pending[..|pending|][..i + 1];
        EntriesOfPrefix(db.invoices, db.purchaseOrders, pending, i + 1);
        return Err(ServerError);
      }
      results := results + [entry.value];
    }
    assert pending[..|pending|] == pending;
    r := Ok(results);
  }

  /** A failure in a prefix is a failure of the whole list. */
  lemma EntriesOfPrefix(invoices: seq<InvoiceRow>, pos: seq<PurchaseOrderRow>, ps: seq<MatchRow>, n: nat)
    requires n <= |ps|
    requires Entries(invoices, pos, ps[..n]).None?
    ensures Entries(invoices, pos, ps).None?
  {
    var i :| 0 <= i < n && EntryOf(invoices, pos, ps[..n][i]).None?;
    assert ps[..n][i] == ps[i];
  }

  /** Every entry of the pending list is an unapproved match. */
  lemma PendingEntriesAreUnapproved(invoices: seq<InvoiceRow>, pos: seq<PurchaseOrderRow>, ms: seq<MatchRow>,
                                    es: seq<PendingEntry>)
    requires PendingList(invoices, pos, ms) == Ok(es)
    ensures forall j :: 0 <= j < |es| ==> exists i :: 0 <= i < |ms| && ms[i].id == es[j].matchId && !ms[i].isApproved
  {
    var ps := Pending(ms);
    assert Entries(invoices, pos, ps) == Some(es);
    forall j | 0 <= j < |es|
      ensures exists i :: 0 <= i < |ms| && ms[i].id == es[j].matchId && !ms[i].isApproved
    {
      assert EntryOf(invoices, pos, ps[j]) == Some(es[j]);
      var k :| 0 <= k < |ms| && ms[k] == ps[j];
    }
  }

  /** When every match has its invoice, the pending list succeeds and lists every unapproved match. */
  lemma UnapprovedMatchesAreListed(invoices: seq<InvoiceRow>, pos: seq<PurchaseOrderRow>, ms: seq<MatchRow>)
    requires forall i :: 0 <= i < |ms| ==> FindInvoice(invoices, ms[i].invoiceId).Some?
    ensures PendingList(invoices, pos, ms).Ok?
    ensures forall i :: 0 <= i < |ms| && !ms[i].isApproved ==>
              exists j :: 0 <= j < |PendingList(invoices, pos, ms).value| &&
                          PendingList(invoices, pos, ms).value[j].matchId == ms[i].id
  {
    var ps := Pending(ms);
    EntriesOfPending(invoices, pos, ms, ps);
    var es := Entries(invoices, pos, ps).value;
    assert PendingList(invoices, pos, ms) == Ok(es);
    forall i | 0 <= i < |ms| && !ms[i].isApproved
      ensures exists j :: 0 <= j < |es| && es[j].matchId == ms[i].id
    {
      var j :| 0 <= j < |ps| && ps[j] == ms[i];
      assert EntryOf(invoices, pos, ps[j]) == Some(es[j]);
    }
  }

  lemma EntriesOfPending(invoices: seq<InvoiceRow>, pos: seq<PurchaseOrderRow>, ms: seq<MatchRow>, ps: seq<MatchRow>)
    requires forall i :: 0 <= i < |ms| ==> FindInvoice(invoices, ms[i].invoiceId).Some?
    requires forall i :: 0 <= i < |ps| ==> ps[i] in ms
    ensures Entries(invoices, pos, ps).Some?
  {
    forall i | 0 <= i < |ps|
      ensures EntryOf(invoices, pos, ps[i]).Some?
    {
      var k :| 0 <= k < |ms| && ms[k] == ps[i];
    }
  }

  /** After approving a match (ids unique), no pending entry carries its id. */
  lemma ApprovedMatchLeavesPending(invoices: seq<InvoiceRow>, pos: seq<PurchaseOrderRow>, ms: seq<MatchRow>,
                                   nextId: int, matchId: int)
    requires MatchIdsFresh(ms, nextId)
    requires Approve(ms, matchId).Some?
    requires PendingList(invoices, pos, Approve(ms, matchId).value).Ok?
    ensures forall e :: e in PendingList(invoices, pos, Approve(ms, matchId).value).value ==> e.matchId != matchId
  {
    var ms' := Approve(ms, matchId).value;
    ApproveFlipsOnlyThatMatch(ms, nextId, matchId);
    var ps := Pending(ms');
    var es := PendingList(invoices, pos, ms').value;
    forall e | e in es
      ensures e.matchId != matchId
    {
      var j :| 0 <= j < |es| && es[j] == e;
      var k :| 0 <= k < |ms'| && ms'[k] == ps[j];
      assert ms'[k].id == ms[k].id;
    }
  }
}
