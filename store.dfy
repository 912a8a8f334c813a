/** The three tables of backend/app/models/database.py as in-memory sequences of rows.
    Row ids are handed out by counters, as the database's autoincrement keys are. */
module Store {
  import opened Wrappers
  import opened Json
  import Seqs
  import Text

  /** How a route fails: a 404 with its detail, or a 500 from the route's generic handler. */
  datatype HttpError = NotFound(detail: string) | ServerError

  /** A `purchase_orders` row. */
  datatype PurchaseOrderRow = PurchaseOrderRow(
    id: int,
    poNumber: string,
    poLine: int,
    vendorId: Option<string>,
    vendorName: Option<string>,
    lineDescription: Option<string>,
    lineAmount: real,
    receivedAmount: real,
    remainingAmount: real,
    dueDate: Option<string>)

  /** An `invoices` row; `extractedData` is the stored text of the extracted fields. */
  datatype InvoiceRow = InvoiceRow(
    id: int,
    invoiceNumber: Option<string>,
    vendorName: Option<string>,
    invoiceAmount: Option<real>,
    invoiceType: Option<string>,
    extractedData: Option<string>,
    purchaseOrderId: Option<int>)

  /** An `invoice_matches` row. Score and reasoning hold the values the route binds to the
      columns, as the matcher returned them, not the column's read-back form. */
  datatype MatchRow = MatchRow(
    id: int,
    invoiceId: int,
    poId: Option<int>,
    matchScore: Json,
    matchedAmount: Option<real>,
    matchType: string,
    aiReasoning: Json,
    isApproved: bool)

  // ---------------------------------------------------------------------------
  // What the `invoice_matches` columns accept
  // ---------------------------------------------------------------------------

  predicate IsDigit(c: char) {
    '0' <= c <= '9'
  }

  predicate IsDot(c: char) {
    c == '.'
  }

  predicate IsExponentMark(c: char) {
    c == 'e' || c == 'E'
  }

  /** Python's `digitpart`: digits, where a single underscore may stand between two digits. */
  predicate DigitPart(s: string) {
    && |s| > 0 && IsDigit(s[0]) && IsDigit(s[|s| - 1])
    && (forall i :: 0 <= i < |s| ==> IsDigit(s[i]) || s[i] == '_')
    && (forall i :: 0 <= i < |s| - 1 && s[i] == '_' ==> s[i + 1] != '_')
  }

  /** The digits of an exponent, after an optional sign. */
  predicate ExponentDigits(s: string) {
    if |s| > 0 && (s[0] == '+' || s[0] == '-') then DigitPart(s[1..]) else DigitPart(s)
  }

  /** `digitpart "." [digitpart]`, `"." digitpart` or a bare `digitpart`. */
  predicate Mantissa(s: string) {
    match Seqs.FirstIndex(s, IsDot)
    case None => DigitPart(s)
    case Some(d) =>
      (DigitPart(s[..d]) && (d == |s| - 1 || DigitPart(s[d + 1..])))
      || (d == 0 && DigitPart(s[d + 1..]))
  }

  /** An unsigned decimal literal: a mantissa, then an optional exponent after 'e' or 'E'. */
  predicate DecimalLiteral(s: string) {
    match Seqs.FirstIndex(s, IsExponentMark)
    case None => Mantissa(s)
    case Some(e) => Mantissa(s[..e]) && ExponentDigits(s[e + 1..])
  }

  /** The text after an optional leading sign. */
  function Unsigned(t: string): (u: string)
    ensures |u| <= |t|
  {
    if |t| > 0 && (t[0] == '+' || t[0] == '-') then t[1..] else t
  }

  /** "inf", "infinity" or "nan", in any letter case. */
  predicate SpecialFloat(u: string) {
    Text.Lower(u) in ["inf", "infinity", "nan"]
  }

  /** Whether Python's `float()` parses the text: surrounding white space, an optional sign,
      then a decimal literal or a special value. */
  predicate FloatText(s: string) {
    var u := Unsigned(Text.Strip(s));
    SpecialFloat(u) || DecimalLiteral(u)
  }

  /** What the `Float` column `match_score` takes: the value goes through `float()` on the way
      in, which converts null, numbers, booleans and parsable text and raises on anything else. */
  predicate FloatBindable(v: Json) {
    match v
    case JString(s) => FloatText(s)
    case JArray(_) => false
    case JObject(_) => false
    case _ => true
  }

  /** What the `Text` column `ai_reasoning` takes: the driver binds scalars, not lists or dicts. */
  predicate TextBindable(v: Json) {
    !v.JArray? && !v.JObject?
  }

  /** A match row with this score and reasoning can be committed. */
  predicate Storable(score: Json, reasoning: Json) {
    FloatBindable(score) && TextBindable(reasoning)
  }

  /** Text with no surrounding white space, no sign and not the length of a special value
      parses exactly when it is a decimal literal. */
  lemma FloatTextOfPlain(u: string)
    requires |u| > 0 && !Text.IsSpace(u[0]) && !Text.IsSpace(u[|u| - 1])
    requires u[0] != '+' && u[0] != '-' && |u| != 3 && |u| != 8
    ensures FloatText(u) <==> DecimalLiteral(u)
  {
    Text.StripPadded("", u, "");
    assert "" + u + "" == u;
    assert Unsigned(u) == u;
    assert |Text.Lower(u)| == |u|;
  }

  lemma DecimalLiteralExample()
    ensures DecimalLiteral("0.85")
  {
    var t := "0.85";
    assert !IsExponentMark(t[0]) && !IsExponentMark(t[1]) && !IsExponentMark(t[2]) && !IsExponentMark(t[3]);
    assert !IsDot(t[0]) && IsDot(t[1]);
    assert t[..1] == "0" && t[2..] == "85";
  }

  /** A score written as a decimal in text, or a null, can be stored. */
  lemma DecimalScoreTextIsStorable()
    ensures FloatText("0.85") && FloatBindable(JString("0.85")) && FloatBindable(JNull)
  {
    FloatTextOfPlain("0.85");
    DecimalLiteralExample();
  }

  /** A word is not a number. */
  lemma WordScoreIsNotFloat()
    ensures !FloatText("high")
  {
    var w := "high";
    FloatTextOfPlain(w);
    assert !DecimalLiteral(w) by {
      assert !IsExponentMark(w[0]) && !IsExponentMark(w[1]) && !IsExponentMark(w[2]) && !IsExponentMark(w[3]);
      assert !IsDot(w[0]) && !IsDot(w[1]) && !IsDot(w[2]) && !IsDot(w[3]);
      assert !IsDigit(w[0]);
    }
  }

  /** Two dots in a row do not make a number. */
  lemma DoubleDotScoreIsNotFloat()
    ensures !FloatText("1..2")
  {
    var m := "1..2";
    FloatTextOfPlain(m);
    assert !DecimalLiteral(m) by {
      assert !IsExponentMark(m[0]) && !IsExponentMark(m[1]) && !IsExponentMark(m[2]) && !IsExponentMark(m[3]);
      assert !IsDot(m[0]) && IsDot(m[1]);
      assert m[2..] == ".2" && !IsDigit(m[2]);
    }
  }

  /** Empty text is not a number. */
  lemma EmptyScoreIsNotFloat()
    ensures !FloatText("")
  {
    assert Unsigned(Text.Strip("")) == "";
    assert !SpecialFloat("") by {
      assert |Text.Lower("")| == 0;
    }
    assert !DecimalLiteral("") by {
      assert Seqs.FirstIndex("", IsExponentMark).None? && Seqs.FirstIndex("", IsDot).None?;
    }
  }

  /** No two purchase-order rows share an id, and every id is below the next one to be handed out. */
  predicate PoIdsFresh(pos: seq<PurchaseOrderRow>, nextId: int) {
    (forall i :: 0 <= i < |pos| ==> pos[i].id < nextId)
    && (forall i, j :: 0 <= i < j < |pos| ==> pos[i].id != pos[j].id)
  }

  /** No two purchase-order rows share the key `(po_number, po_line)` the sync route upserts by. */
  predicate PoKeysUnique(pos: seq<PurchaseOrderRow>) {
    forall i, j :: 0 <= i < j < |pos| ==> pos[i].poNumber != pos[j].poNumber || pos[i].poLine != pos[j].poLine
  }

  /** No two match rows share an id, and every id is below the next one to be handed out. */
  predicate MatchIdsFresh(ms: seq<MatchRow>, nextId: int) {
    (forall i :: 0 <= i < |ms| ==> ms[i].id < nextId)
    && (forall i, j :: 0 <= i < j < |ms| ==> ms[i].id != ms[j].id)
  }

  /** `query(Invoice).filter(Invoice.id == id).first()`. */
  function FindInvoice(invoices: seq<InvoiceRow>, id: int): (r: Option<InvoiceRow>)
    ensures r.None? <==> forall i :: 0 <= i < |invoices| ==> invoices[i].id != id
    ensures r.Some? ==> r.value in invoices && r.value.id == id
  {
    Seqs.First(invoices, (inv: InvoiceRow) => inv.id == id)
  }

  /** `query(PurchaseOrder).filter(PurchaseOrder.id == id).first()`. */
  function FindPurchaseOrder(pos: seq<PurchaseOrderRow>, id: int): (r: Option<PurchaseOrderRow>)
    ensures r.None? <==> forall i :: 0 <= i < |pos| ==> pos[i].id != id
    ensures r.Some? ==> r.value in pos && r.value.id == id
  {
    Seqs.First(pos, (po: PurchaseOrderRow) => po.id == id)
  }

  /** `query(PurchaseOrder).filter(PurchaseOrder.po_number == n).first()`. */
  function FirstWithPoNumber(pos: seq<PurchaseOrderRow>, n: string): (r: Option<PurchaseOrderRow>)
    ensures r.None? <==> forall i :: 0 <= i < |pos| ==> pos[i].poNumber != n
    ensures r.Some? ==> r.value in pos && r.value.poNumber == n
  {
    Seqs.First(pos, (po: PurchaseOrderRow) => po.poNumber == n)
  }

  /** The database the routes share. */
  class Database {
    var purchaseOrders: seq<PurchaseOrderRow>
    var invoices: seq<InvoiceRow>
    var matches: seq<MatchRow>
    var nextPoId: int
    var nextMatchId: int

    /** Keys the routes rely on: fresh ids and unique upsert keys. */
    ghost predicate Valid()
      reads this
    {
      PoIdsFresh(purchaseOrders, nextPoId) && PoKeysUnique(purchaseOrders)
      && MatchIdsFresh(matches, nextMatchId)
    }

    /** Empty tables; ids start at 1. */
    constructor ()
      ensures Valid()
      ensures purchaseOrders == [] && invoices == [] && matches == []
      ensures nextPoId == 1 && nextMatchId == 1
    {
      purchaseOrders := [];
      invoices := [];
      matches := [];
      nextPoId := 1;
      nextMatchId := 1;
    }
  }
}
