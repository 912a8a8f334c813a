# Invoice-to-PO matching, modelled in Dafny

This project models the core of an invoice-to-purchase-order reconciliation backend (a
FastAPI service over an Epicor ERP). Its centre is the matching engine in
`backend/app/services/ai_matching_service.py`. The engine asks a language model to pick the best
purchase-order (PO) line for an invoice. When that call fails, it falls back to a deterministic
rule scorer (`fuzzy_match`). Around the engine, the project models:

- invoice-type detection and table line-item extraction (`invoice_extraction_service.py`);
- the match bookkeeping of the invoice routes: the candidate filter, the match record, the
  `requires_approval` flag, approval and the pending list (`routes/invoices.py`);
- the PO sync upsert keyed by `(po_number, po_line)` and the PO lookup (`routes/purchase_orders.py`).

Files, one module each:

| file | module | models |
|---|---|---|
| `wrappers.dfy` | `Wrappers` | `Option` and `Result` |
| `seqs.dfy` | `Seqs` | first-match search, filtering and `xs[:n]` over sequences |
| `text.dfy` | `Text` | the Python string operations used: `lower`, `in`, `strip`, `startswith`, `endswith`, `join`, `str(n)` |
| `json.dfy` | `Json` | decoded JSON values and `dict.get` |
| `extraction.dfy` | `Extraction` | `invoice_extraction_service.py` |
| `matching.dfy` | `Matching` | `ai_matching_service.py` |
| `store.dfy` | `Store` | the three tables of `models/database.py` as sequences of rows |
| `invoices.dfy` | `Invoices` | `routes/invoices.py` |
| `purchase_orders.dfy` | `PurchaseOrders` | `routes/purchase_orders.py` |

Modelling choices:

- The language model is a parameter `oracle: Prompt -> Option<string>`. `None` stands for any
  exception out of the call. That includes a `None` message content, whose `.strip()` raises inside
  the parser.
- `json.loads` is a parameter `decode: string -> Option<Json>`. `None` stands for a decode error.
- Amounts and scores are exact `real`s.
- Tables are sequences of rows, held by the class `Store.Database`. Ids come from counters, like
  autoincrement keys.
- A route that fails yields an `HttpError`. `NotFound` is a 404 that reaches the client. `ServerError`
  is a 500 from a route's generic handler.
- Committing a match row can fail. `Store.Storable` says when the row's score fits the Float
  column and its reasoning the Text column (models/database.py:58 and 61). When it does not, the
  match route answers 500 and keeps no row.
- Each imperative routine is a method (loops, `+=`, `append`, `break`, in-place field updates). Each
  such method is proved equal to a specification function. The properties are lemmas about those
  functions.

Three behaviours of the code are easy to misread; the model follows the code in all three:

- `fuzzy_match` returns no PO when every candidate scores 0. It moves only on a strictly greater
  score than the running best, which starts at 0 (lines 142 and 147).
- An oracle answer naming no candidate, and an undecodable answer, are returned as "no PO". Neither
  falls back to the rule scorer (lines 70-72 and 251-257).
- Only exceptions that escape the parser reach the fallback. For example, `.get` on a decoded value
  that is not an object raises `AttributeError` (line 74).

Three further observations about the code, all modelled as written:

- The match route decodes `str(extracted_data)` with `json.loads` (invoices.py:60 and 112). A Python
  dict printed by `str` is in general not JSON, so that decode usually raises and the route answers
  500. The model keeps this step as the parameter `readInvoice`, so it covers every outcome.
- The Epicor fetch supplies no `received_amount` and no `due_date` (epicor_service.py:79-92). The
  sync route reads both with `po_data[...]`, so such a record raises `KeyError`. The model gives each
  incoming key a `Field` (`Missing` or `Present`) and proves exactly when a pass fails
  (`UpsertFailureCases`).
- `due_date` is a DateTime column (models/database.py:22). Under the default SQLite URL that column
  binds only date objects or null, while a record decoded from JSON carries a date as text. So a new
  row with a text due date is refused when it is flushed, which happens before the commit. The route
  then answers 500 and keeps nothing (`TextDueDateFailsSync`).

## Model

| member | source | states |
|---|---|---|
| `Matching.VendorRule` | backend/app/services/ai_matching_service.py:98-106 | vendor rule adds either nothing, or positive points with one label; at most 0.3 |
| `Matching.PoReferenceRule` | backend/app/services/ai_matching_service.py:108-112 | PO-reference rule adds either nothing, or positive points with one label; at most 0.4 |
| `Matching.AmountRule` | backend/app/services/ai_matching_service.py:114-124 | amount rule adds either nothing, or positive points with one label; at most 0.3 |
| `Matching.PartNumberRule` | backend/app/services/ai_matching_service.py:126-133 | part-number rule adds either nothing, or positive points with one label; at most 0.25 |
| `Matching.DescriptionRule` | backend/app/services/ai_matching_service.py:135-140 | description rule adds either nothing, or positive points with one label; at most 0.1 |
| `Matching.Assess` | backend/app/services/ai_matching_service.py:94-140 | the raw score is in [0, 1.35]; it is positive exactly when some rule label was recorded; at most 5 labels |
| `Matching.RawScore` | backend/app/services/ai_matching_service.py:94-140 | the unclamped score of one candidate is in [0, 1.35] and positive exactly when some rule label was recorded |
| `Matching.Scores` | backend/app/services/ai_matching_service.py:92-140 | one raw score per candidate, in order, none negative |
| `Matching.BestIndex` | backend/app/services/ai_matching_service.py:142-145 | the scan holds -1 or an index among the scores seen so far (its full description is `BestIndexIsFirstBest`) |
| `Matching.AddVendorPoints` | backend/app/services/ai_matching_service.py:98-106 | the vendor block adds exactly the vendor rule's points and label to the running score and parts |
| `Matching.AddPoReferencePoints` | backend/app/services/ai_matching_service.py:108-112 | the PO reference block adds exactly the reference rule's points and label |
| `Matching.AddAmountPoints` | backend/app/services/ai_matching_service.py:114-124 | the amount block adds exactly the amount rule's points and label |
| `Matching.AddPartNumberPoints` | backend/app/services/ai_matching_service.py:126-133 | the part number block adds exactly the part number rule's points and label |
| `Matching.AddDescriptionPoints` | backend/app/services/ai_matching_service.py:135-140 | the description block adds exactly the description rule's points and label |
| `Matching.ScoreCandidate` | backend/app/services/ai_matching_service.py:95-140 | the step-by-step `score +=` / `append` body computes the sum of the five independent rules and their labels in evaluation order |
| `Matching.SameVendorIgnoringCase` | backend/app/services/ai_matching_service.py:99-103 | equal non-empty vendor names up to letter case give +0.3 "Exact vendor match" |
| `Matching.SameReferenceMatches` | backend/app/services/ai_matching_service.py:108-112 | a PO reference equal to the PO number gives +0.4 whatever the other fields hold |
| `Matching.AmountWithinFivePercent` | backend/app/services/ai_matching_service.py:115-121 | a non-zero invoice amount within 5% of a positive line amount gives +0.3 "Exact amount match" |
| `Matching.NegativeLineAmountNeverMatches` | backend/app/services/ai_matching_service.py:115-124 | a negative line amount makes the tolerance negative, so the amount rule never fires |
| `Matching.AllRulesFire` | backend/app/services/ai_matching_service.py:98-148 | all five rules can fire together for a raw 1.35, which is why the score is clamped |
| `Matching.Rank` | backend/app/services/ai_matching_service.py:142-148 | the ranker's score is a number in [0, 1], its reasoning a string, and its PO one of the candidates |
| `Matching.BestIndexIsFirstBest` | backend/app/services/ai_matching_service.py:142-145 | the left-to-right scan holds nothing exactly when no score is positive; otherwise its pick is positive, at least every score, and strictly above every earlier one |
| `Matching.RankIsRanking` | backend/app/services/ai_matching_service.py:85-148 | no positive score (including no candidates) gives (None, 0.0, "No suitable matches found"); otherwise the first maximal candidate, its score clamped to 1, its labels joined by "; " |
| `Matching.RankingIsUnique` | backend/app/services/ai_matching_service.py:142-148 | that description determines the result: any result meeting it is the ranker's |
| `Matching.ScanCandidate` | backend/app/services/ai_matching_service.py:95-145 | one iteration keeps the scan's state equal to the first best candidate so far, moving only on a strictly greater score |
| `Matching.FuzzyMatch` | backend/app/services/ai_matching_service.py:79-148 | the loop with `best_po`, `best_score` and `best_reasoning` returns exactly the ranker's result |
| `Matching.Resolve` | backend/app/services/ai_matching_service.py:238-243 | resolution gives the first candidate whose PO number equals the answer's, or None when none does |
| `Matching.ParseReply` | backend/app/services/ai_matching_service.py:223-257 | a PO the parser returns is one of the candidates |
| `Matching.FindNamedPo` | backend/app/services/ai_matching_service.py:238-243 | the search loop with `break` returns the first candidate whose PO number equals the answer's, or None |
| `Matching.ParseAiResponse` | backend/app/services/ai_matching_service.py:223-257 | the step-by-step cleaning, decoding and search loop with `break` computes `ParseReply` |
| `Matching.UnfenceFenced` | backend/app/services/ai_matching_service.py:228-231 | removing the 7-character "```json" prefix and the 3-character "```" suffix recovers the fenced body |
| `Matching.FencedReplyIsCleaned` | backend/app/services/ai_matching_service.py:227-231 | a fenced answer with any surrounding white space is cleaned down to the body between the fences |
| `Matching.CleanReply` | backend/app/services/ai_matching_service.py:225-231 | cleaning never lengthens the answer |
| `Matching.Unfence` | backend/app/services/ai_matching_service.py:228-231 | removing fences never lengthens the text, a leading "```json" removes at least 7 characters, and text with neither fence is unchanged |
| `Matching.PlainReplyIsStripped` | backend/app/services/ai_matching_service.py:227-231 | an unfenced answer only loses its surrounding white space |
| `Matching.ParserResolvesNamedPo` | backend/app/services/ai_matching_service.py:235-249 | an answer naming a candidate's PO number resolves to the first candidate with it, with the answer's `match_score` (default 0.0) and `reasoning` (default "AI matching completed") |
| `Matching.EmptyAnswerGivesDefaults` | backend/app/services/ai_matching_service.py:235-249 | an empty object answer yields (None, 0.0, "AI matching completed") |
| `Matching.InvoiceContext` | backend/app/services/ai_matching_service.py:150-163 | the invoice context keeps every field and only the first 3 line items |
| `Matching.PosContext` | backend/app/services/ai_matching_service.py:165-167 | the PO context is the first 10 candidates |
| `Matching.MatchingPrompt` | backend/app/services/ai_matching_service.py:42-47 | the request holds at most 3 line items and a prefix of at most 10 candidates |
| `Matching.PromptSeesOnlyTheHead` | backend/app/services/ai_matching_service.py:150-167 | inputs that agree on the first 3 line items and first 10 candidates give the same request |
| `Matching.PoolFor` | backend/app/services/ai_matching_service.py:27-39 | the candidate list is never empty after the demo substitution |
| `Matching.ExpectedMatch` | backend/app/services/ai_matching_service.py:17-77 | the orchestrator's PO is always from the (possibly substituted) candidate list |
| `Matching.FindBestMatch` | backend/app/services/ai_matching_service.py:17-77 | the orchestrator with its reassignment of `available_pos` and its try/except computes `ExpectedMatch` |
| `Matching.OracleFailureFallsBack` | backend/app/services/ai_matching_service.py:49-77 | a failed oracle call returns the ranker's result over the same list, which meets the ranking description |
| `Matching.NonObjectAnswerFallsBack` | backend/app/services/ai_matching_service.py:233-236 | an answer decoding to a non-object escapes the parser and falls back to the ranker |
| `Matching.UndecodableAnswerIsFinal` | backend/app/services/ai_matching_service.py:251-257 | an undecodable answer returns (None, 0.0, "Error parsing AI response") with no fallback |
| `Matching.UnresolvedAnswerIsFinal` | backend/app/services/ai_matching_service.py:238-249 | an answer naming no candidate returns no PO with the answer's own score, with no fallback |
| `Matching.ParserReturnsUnresolved` | backend/app/services/ai_matching_service.py:235-249 | an answer object whose `po_number` names no candidate is returned with no PO, its `match_score` (default 0.0) and its `reasoning` (default "AI matching completed") |
| `Matching.AnswerResolvesInWholeList` | backend/app/services/ai_matching_service.py:238-243 | the named PO is searched for in the whole list, beyond the 10 candidates the oracle was shown |
| `Matching.EmptyListUsesDemoPo` | backend/app/services/ai_matching_service.py:27-39 | with no candidates, the only PO either path can return is the demo PO "PO-2024-1001" |
| `Extraction.DetectedType` | backend/app/services/invoice_extraction_service.py:133-144 | the detected type is "Credit Memo", "Debit Memo" or the type it started from |
| `Extraction.CreditMemoTakesPriority` | backend/app/services/invoice_extraction_service.py:137-138 | "credit" and "memo" anywhere give "Credit Memo", even when "debit" occurs too |
| `Extraction.CreditNoteIsCreditMemo` | backend/app/services/invoice_extraction_service.py:137-142 | "credit note" always gives "Credit Memo" |
| `Extraction.DebitNoteIsDebitMemo` | backend/app/services/invoice_extraction_service.py:139-144 | "debit note" in a text without "credit" gives "Debit Memo" |
| `Extraction.NoKeywordKeepsType` | backend/app/services/invoice_extraction_service.py:133-144 | when none of the four rules fires the type is left unchanged; starting from a type other than "Credit Memo" or "Debit Memo", the type is unchanged exactly when no rule fires |
| `Extraction.DebitMemoRule` | backend/app/services/invoice_extraction_service.py:139-140 | "debit" and "memo" give "Debit Memo" whenever the credit-memo rule has not fired |
| `Extraction.DetectedTypeIgnoresCase` | backend/app/services/invoice_extraction_service.py:135-144 | detection is unaffected by letter case |
| `Extraction.RowItemsOnePerEligibleRow` | backend/app/services/invoice_extraction_service.py:148-157 | exactly one item per row of length at least 2, in row order, built from that row; other rows are skipped |
| `Extraction.TableItemsFlatten` | backend/app/services/invoice_extraction_service.py:149-150 | items follow table order, then row order |
| `Extraction.ExtractLineItems` | backend/app/services/invoice_extraction_service.py:146-157 | the nested append loops compute the table items |
| `Extraction.AppendRowItems` | backend/app/services/invoice_extraction_service.py:150-157 | the inner loop over one table's rows appends exactly that table's items |
| `Extraction.CellText` | backend/app/services/invoice_extraction_service.py:154 | `str(cell)`: a present cell is its own text; the empty text comes only from an empty cell |
| `Extraction.ItemOfCells` | backend/app/services/invoice_extraction_service.py:151-156 | the description is the first cell and the amount the last, each empty exactly when that cell is missing or empty; the quantity is `str` of the second cell |
| `Extraction.RowItems` | backend/app/services/invoice_extraction_service.py:150-156 | a table yields at most one item per row |
| `Extraction.TableItems` | backend/app/services/invoice_extraction_service.py:149-156 | the tables yield at most one item per row of all tables |
| `Extraction.PagesTextAppend` | backend/app/services/invoice_extraction_service.py:53-56 | the text of two runs of pages is the first run's text followed by the second's |
| `Extraction.PagesTextCoversEveryPage` | backend/app/services/invoice_extraction_service.py:53-56 | the whole text is the text of the pages before page i, then page i's text, then the text of the pages after it |
| `Extraction.PagesWithoutTextGiveNoText` | backend/app/services/invoice_extraction_service.py:55 | pages whose reader finds no text give the empty text |
| `Extraction.PagesItemsAppend` | backend/app/services/invoice_extraction_service.py:57-59 | the items of two runs of pages are the first run's items followed by the second's |
| `Extraction.PagesItemsCoverEveryPage` | backend/app/services/invoice_extraction_service.py:57-59 | the gathered items are the items of the pages before page i, then page i's table items, then the items of the pages after it |
| `Extraction.PagesWithoutTablesGiveNoItems` | backend/app/services/invoice_extraction_service.py:57-59 | pages without tables give no line items |
| `Extraction.ExtractedData.constructor` | backend/app/services/invoice_extraction_service.py:76-85 | the starting dictionary has no fields, type "Standard", no line items and the given raw text |
| `Extraction.ExtractedData.RecordFields` | backend/app/services/invoice_extraction_service.py:92-131 | each field a pattern found is overwritten; nothing else changes |
| `Extraction.ExtractedData.DetectInvoiceType` | backend/app/services/invoice_extraction_service.py:133-144 | only the type changes, to the detected type |
| `Extraction.ExtractFromText` | backend/app/services/invoice_extraction_service.py:74-90 | text extraction gives the five fields found in the text, the type detected from "Standard", no line items and the text as raw text |
| `Extraction.ExtractFromPdf` | backend/app/services/invoice_extraction_service.py:37-72 | PDF extraction concatenates page texts, gathers every page's table items, holds the five fields found in the whole text, and never detects the type ("Standard") |
| `Extraction.FileKindOfShape` | backend/app/services/invoice_extraction_service.py:159-170 | for every path `dir/stem.ext` with a non-empty stem free of '/' and a non-empty extension free of '.' and '/', "pdf" in any letter case selects the PDF reader, "txt" or "csv" the text reader, and any other extension is refused with "Unsupported file type: ." and the lower-cased extension |
| `Extraction.EmptySuffixShapes` | backend/app/services/invoice_extraction_service.py:161 | a name has no suffix exactly when it has no dot, its only dot is its first character, or it ends in a dot |
| `Extraction.FileKindOfOutcomes` | backend/app/services/invoice_extraction_service.py:161-170 | a reader is chosen only for a four-character suffix; every refusal is the "Unsupported file type: " error |
| `Extraction.UpperCasePdfIsPdf` | backend/app/services/invoice_extraction_service.py:161-164 | "INVOICE.PDF" goes to the PDF reader |
| `Extraction.LastSuffixDecides` | backend/app/services/invoice_extraction_service.py:161-165 | only the last suffix counts: "scan.pdf.csv" is read as text |
| `Extraction.DotFileIsRefused` | backend/app/services/invoice_extraction_service.py:161-170 | a name such as ".pdf" has no suffix and is refused with "Unsupported file type: " |
| `Extraction.FileName` | backend/app/services/invoice_extraction_service.py:161 | `Path(path).name` holds no '/' |
| `Extraction.Suffix` | backend/app/services/invoice_extraction_service.py:161 | `Path(name).suffix` is empty or a dot followed by at least one character and no further dot, ending the name |
| `Extraction.ExtractFromFile` | backend/app/services/invoice_extraction_service.py:159-170 | the suffix chooses the reader; an unsupported suffix is an error and a reader failure propagates; on success the result is that reader's: the five fields found in the text read, its type, line items and raw text |
| `Invoices.Available` | backend/app/routes/invoices.py:89-92 | the candidates are exactly the POs with a positive remaining amount |
| `Invoices.Candidates` | backend/app/routes/invoices.py:97-108 | one candidate dictionary per available row, in order |
| `Invoices.NewMatch` | backend/app/routes/invoices.py:126-139 | the new record points to a row carrying the answer's PO number, or to none exactly when no row carries it; it is unapproved and holds the returned score and reasoning |
| `Invoices.MatchOutcome` | backend/app/routes/invoices.py:80-159 | the tables are unchanged or gain exactly one record with the next id; a 404 changes nothing; a returned match id is the new record's id |
| `Invoices.AddMatch` | backend/app/routes/invoices.py:140-142 | adding the record appends it under the next id, advances the counter and keeps the tables' invariants; the other tables are unchanged |
| `Invoices.LessThan` | backend/app/routes/invoices.py:152 | a numeric score compares with the bound; a non-number, non-boolean score raises |
| `Invoices.MatchInvoiceToPo` | backend/app/routes/invoices.py:80-159 | the route computes `MatchOutcome`, keeps the tables' invariants, and adds at most the one match row; a score or reasoning the commit cannot store ends in 500 with no row added |
| `Invoices.MatchAddsOneRecordForAFoundPo` | backend/app/routes/invoices.py:119-142 | no record without a found PO; otherwise exactly one record appended, with the invoice, its amount, type "AI" and not approved |
| `Invoices.MatchedPoIsAvailable` | backend/app/routes/invoices.py:126-134 | a matched PO is an available row (the demo PO is unreachable here), and the record points to the first row with its number |
| `Invoices.RequiresApprovalIffBelowThreshold` | backend/app/routes/invoices.py:146-153 | `requires_approval` holds exactly when the score is below 0.8; the record carries the returned score and reasoning |
| `Invoices.UncomparableScoreFailsAfterRecording` | backend/app/routes/invoices.py:140-159 | a storable score that `<` cannot compare (a numeric string, say) fails the route with 500 after the record was committed |
| `Invoices.UnstorableMatchIsNotKept` | backend/app/routes/invoices.py:126-159 | a found PO whose score or reasoning the commit cannot store fails the route with 500 and adds no record |
| `Invoices.PartNumberRuleIsDeadThroughRoute` | backend/app/routes/invoices.py:98-108 | the route's candidates carry no part number, so that rule never fires through it |
| `Invoices.Approve` | backend/app/routes/invoices.py:189-193 | an unknown id fails; otherwise, for the first index k holding the id, the result is the table with row k's flag set to true and nothing else changed |
| `Invoices.ApproveFlipsOnlyThatMatch` | backend/app/routes/invoices.py:189-193 | with unique ids, a flag is set after approval exactly when it was set before or the row has the id |
| `Invoices.ApproveIsIdempotent` | backend/app/routes/invoices.py:193 | approving twice is approving once |
| `Invoices.ApproveMatch` | backend/app/routes/invoices.py:185-201 | the route applies `Approve`; an unknown id ends in 500 (the 404 is rewrapped) with the table unchanged |
| `Invoices.Pending` | backend/app/routes/invoices.py:165-167 | the pending matches are exactly the unapproved ones |
| `Invoices.Entries` | backend/app/routes/invoices.py:169-178 | one entry per pending match in order, or failure exactly when some match has no invoice |
| `Invoices.EntryOf` | backend/app/routes/invoices.py:171-178 | an entry exists exactly when the match's invoice does. It carries the match's id and amount, that invoice's number, and the score and reasoning as bound when the row was stored. Its PO number is present exactly when the match points to an existing PO row, and is then that row's number |
| `Invoices.PendingList` | backend/app/routes/invoices.py:161-183 | one entry per unapproved match; the only failure is 500, exactly when some pending match has no invoice |
| `Invoices.GetPendingMatches` | backend/app/routes/invoices.py:161-183 | the `results.append` loop computes the pending list |
| `Invoices.PendingEntriesAreUnapproved` | backend/app/routes/invoices.py:165-178 | every listed entry is an unapproved match |
| `Invoices.UnapprovedMatchesAreListed` | backend/app/routes/invoices.py:165-178 | when every match has its invoice, every unapproved match is listed |
| `Invoices.ApprovedMatchLeavesPending` | backend/app/routes/invoices.py:165-193 | after approval a match no longer appears in the pending list |
| `PurchaseOrders.KeyIndex` | backend/app/routes/purchase_orders.py:39-42 | the lookup finds the first row with the key `(po_number, po_line)`, or nothing when no row has it |
| `PurchaseOrders.UpsertUpdatesExisting` | backend/app/routes/purchase_orders.py:46-50 | an existing key changes only the line, received and remaining amounts of that row, with remaining = line - received |
| `PurchaseOrders.UpsertInsertsNew` | backend/app/routes/purchase_orders.py:51-64 | a new key whose record has every field and a null due date appends one row holding all the record's fields under the next id |
| `PurchaseOrders.Upsert` | backend/app/routes/purchase_orders.py:36-64 | a pass adds at most one row, advances the id counter by the rows added, and keeps every existing row's id and key |
| `PurchaseOrders.UpsertFailureCases` | backend/app/routes/purchase_orders.py:36-64 | a pass fails exactly when an amount is missing, or when the key is new and a field of the new row is missing or its due date is text |
| `PurchaseOrders.TextDueDateFailsSync` | backend/app/routes/purchase_orders.py:51-78 | a new line with every key present but a text due date makes the whole sync answer 500 and leaves the table as it was |
| `PurchaseOrders.UpsertEffect` | backend/app/routes/purchase_orders.py:39-64 | after a pass a row with the key holds the record's amounts; rows with other keys are unchanged; only amounts change |
| `PurchaseOrders.UpsertKeepsValid` | backend/app/routes/purchase_orders.py:39-64 | a pass keeps ids fresh and distinct and `(po_number, po_line)` keys distinct |
| `PurchaseOrders.SyncAllKeepsValid` | backend/app/routes/purchase_orders.py:35-66 | the whole loop keeps those table invariants |
| `PurchaseOrders.SyncAllLastRecordWins` | backend/app/routes/purchase_orders.py:35-66 | every incoming key has a row holding the amounts of the last incoming record with that key |
| `PurchaseOrders.SyncAllKeepsOtherRows` | backend/app/routes/purchase_orders.py:35-66 | no row is removed, existing rows change only in their amounts, and rows of keys not synced are untouched |
| `PurchaseOrders.SyncAll` | backend/app/routes/purchase_orders.py:34-66 | the loop adds at most one row per record, advances the id counter by the rows added, and keeps every existing row's id and key |
| `PurchaseOrders.UpsertAll` | backend/app/routes/purchase_orders.py:34-66 | the `for` loop with its running `synced_count` computes `SyncAll`; on success the count is the number of records |
| `PurchaseOrders.SyncOutcome` | backend/app/routes/purchase_orders.py:23-78 | a failure is 500 with the table unchanged; "nothing found" exactly for an empty fetch, with the table unchanged; a sync reports a positive count equal to the records fetched |
| `PurchaseOrders.UpsertRecord` | backend/app/routes/purchase_orders.py:36-64 | one pass of the loop, on the rows and the id counter, computes `Upsert`: update the first row with the key or append a new row, failing where the record lacks a key the pass reads |
| `PurchaseOrders.SyncPurchaseOrdersFromEpicor` | backend/app/routes/purchase_orders.py:23-78 | the route computes `SyncOutcome`: an empty fetch leaves the table and says "No purchase orders found in Epicor"; a failure leaves the table (no commit); otherwise `synced_count` is the number of records |
| `PurchaseOrders.GetPurchaseOrder` | backend/app/routes/purchase_orders.py:104-136 | an unknown id gives 404 "Purchase order not found"; otherwise the row with the id and its linked invoices |
| `PurchaseOrders.LinkedInvoices` | backend/app/routes/purchase_orders.py:123-130 | the list is empty exactly when no invoice points to the PO; each entry is the id, number and amount of an invoice pointing to it |
| `PurchaseOrders.LinkedInvoicesListsEvery` | backend/app/routes/purchase_orders.py:123-130 | every invoice pointing to the PO is listed, with its id, number and amount |
| `Store.FindInvoice` | backend/app/routes/invoices.py:85-87 | the lookup finds a row with the id, or nothing exactly when no row has it |
| `Store.FindPurchaseOrder` | backend/app/routes/purchase_orders.py:108-111 | the lookup finds a row with the id, or nothing exactly when no row has it |
| `Store.FirstWithPoNumber` | backend/app/routes/invoices.py:127-129 | the lookup finds a row with the PO number, or nothing exactly when no row has it |
| `Store.FloatTextOfPlain` | backend/app/models/database.py:58 | a plain text (no surrounding white space, no sign, not the length of "inf", "nan" or "infinity") converts to the Float column exactly when it is a decimal literal |
| `Store.DecimalScoreTextIsStorable` | backend/app/models/database.py:58 | the text "0.85" and a null score can be stored in the Float column |
| `Store.WordScoreIsNotFloat` | backend/app/models/database.py:58 | the text "high" cannot be stored in the Float column |
| `Store.DoubleDotScoreIsNotFloat` | backend/app/models/database.py:58 | the text "1..2" cannot be stored in the Float column |
| `Store.EmptyScoreIsNotFloat` | backend/app/models/database.py:58 | the empty text cannot be stored in the Float column |

## Left out

- The OpenAI client, its request parameters and `validate_match` (ai_matching_service.py:14, 50-66, 259-308): a network call to a non-deterministic service, replaced by the `oracle` parameter.
- The prompt text and `json.dumps` formatting (ai_matching_service.py:152-221): the request is modelled as the data it is built from, the invoice fields with at most 3 line items and at most 10 candidates.
- The JSON grammar of `json.loads`: decoding is the `decode` parameter onto a small JSON datatype.
- The regular-expression field extraction (`_extract_fields`): it is the parameter `findFields`, and `RecordFields` models how its findings are stored.
- PDF and file reading (pdfplumber, `open`): parameters `readPdf` and `readText`, whose `None` is the exception they raise.
- `upload_invoice` (file size check, saving, `strptime` date parsing, creation of the invoice row) and `get_all_purchase_orders`: not part of the matching bookkeeping.
- SQLAlchemy sessions, the ORM, FastAPI routing, `get_db`, application startup, `epicor_service.py` (an HTTP client), `config.py`, `serve.py`, the connection scripts and the frontend.
- The `unique=True` on `po_number` (database.py:14) is not enforced. The tables keep the sync route's key `(po_number, po_line)` unique, so two lines of one PO can coexist here where the database would refuse the second.
- IEEE-754 floating point: amounts and scores are exact reals, so rounding at a tolerance boundary or in a sum such as 0.3 + 0.4 + 0.3 is not modelled.
- No reject action or locking: the code has only the boolean `is_approved` and no reject endpoint.
- Text.Lower: lower-cases the ASCII letters only, not the full Unicode case mapping of Python's `str.lower()`.
- Matching.PartNumberRule: a `part_number` key present with JSON null makes `.lower()` raise inside `fuzzy_match`; the model cannot tell an absent key from null and treats both as "".
- Candidate fields: the PO number is always a string and the line amount always a number, while a database row with null columns would hand `None` to the matcher.
- Storing a match (`Store.Storable`) follows the default database URL, `sqlite:///./app.db` (config.py:16). The score goes through Python's `float()`, and the reasoning column accepts any scalar. A list or object cannot be bound to either. Another database driver, `float()` on non-ASCII digits or white space, and the full Unicode white space set are not modelled.
- Invoices.EntryOf: the pending list carries the score and reasoning as the route bound them, not as the columns read them back (routes/invoices.py:176-177). The Float column returns `float()` of a text or boolean score (`"0.85"` as 0.85, `true` as 1.0), and the Text column returns a scalar reasoning as text. The model has no value for a `float()` text (including inf and nan) and no text form for an SQLite number, so this conversion is left out. The two agree for a numeric score with a string reasoning, which is what the rule scorer always produces.
- PurchaseOrders.Upsert: a record's `po_number` is always a string and its `po_line` always an integer. The fetch reads them with `po.get(...)` (epicor_service.py:80-81), which can give `None`. The route would then filter and insert with null key columns, and `EpicorRecord` cannot represent that.
- Invoice fields: an `invoice_amount` or `po_reference` of another JSON type (a string amount, a numeric reference) is not representable.
