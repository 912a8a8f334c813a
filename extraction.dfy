/** Invoice extraction: the rules of backend/app/services/invoice_extraction_service.py
    that do not depend on a regular-expression engine or on reading files.
    The extracted-data dictionary that the service fills in place is the class
    `ExtractedData`; the regex field pulling, the PDF reader and the text-file
    reader are parameters. */
module Extraction {
  import opened Wrappers
  import opened Text
  import Seqs

  const StandardType := "Standard"
  const CreditMemoType := "Credit Memo"
  const DebitMemoType := "Debit Memo"

  /** One extracted table line: description, quantity and amount, as strings. */
  datatype LineItem = LineItem(description: string, quantity: string, amount: string)

  /** A table cell as the PDF reader returns it: a string or `None`. */
  type Cell = Option<string>
  type Row = seq<Cell>
  type Table = seq<Row>

  /** The values the regular-expression pass found in a text; `None` where no pattern matched. */
  datatype FoundFields = FoundFields(
    invoiceNumber: Option<string>,
    vendorName: Option<string>,
    invoiceAmount: Option<real>,
    invoiceDate: Option<string>,
    poReference: Option<string>)

  /** One PDF page: its text (absent when the reader finds none) and its tables. */
  datatype Page = Page(text: Option<string>, tables: seq<Table>)

  // ---------------------------------------------------------------------------
  // Invoice type detection
  // ---------------------------------------------------------------------------

  /** The invoice type after `_detect_invoice_type` has looked at `text`, starting from `current`.
      The four keyword rules are tried in order on the lower-cased text; when none fires the
      type is left as it was. */
  function DetectedType(text: string, current: string): (t: string)
    ensures t == CreditMemoType || t == DebitMemoType || t == current
  {
    var low := Lower(text);
    if Contains(low, "credit") && Contains(low, "memo") then CreditMemoType
    else if Contains(low, "debit") && Contains(low, "memo") then DebitMemoType
    else if Contains(low, "credit note") then CreditMemoType
    else if Contains(low, "debit note") then DebitMemoType
    else current
  }

  /** "credit" together with "memo" anywhere gives a credit memo, even when "debit" occurs too. */
  lemma CreditMemoTakesPriority(text: string, current: string)
    requires Contains(Lower(text), "credit") && Contains(Lower(text), "memo")
    ensures DetectedType(text, current) == CreditMemoType
  {
  }

  /** A text mentioning "credit note" is always a credit memo, whichever rule fires. */
  lemma CreditNoteIsCreditMemo(text: string, current: string)
    requires Contains(Lower(text), "credit note")
    ensures DetectedType(text, current) == CreditMemoType
  {
    ContainsPrefix("credit note", "credit");
    ContainsTransitive(Lower(text), "credit note", "credit");
  }

  /** "debit note" in a text that never says "credit" gives a debit memo. */
  lemma DebitNoteIsDebitMemo(text: string, current: string)
    requires Contains(Lower(text), "debit note") && !Contains(Lower(text), "credit")
    ensures DetectedType(text, current) == DebitMemoType
  {
    ContainsPrefix("credit note", "credit");
    if Contains(Lower(text), "credit note") {
      ContainsTransitive(Lower(text), "credit note", "credit");
    }
  }

  /** "debit" together with "memo" gives a debit memo once the credit-memo rule has not fired. */
  lemma DebitMemoRule(text: string, current: string)
    requires !(Contains(Lower(text), "credit") && Contains(Lower(text), "memo"))
    requires Contains(Lower(text), "debit") && Contains(Lower(text), "memo")
    ensures DetectedType(text, current) == DebitMemoType
  {
  }

  /** The type is left unchanged when none of the four rules fires; starting from a type that
      no rule produces, that is the only way it stays unchanged. */
  lemma NoKeywordKeepsType(text: string, current: string)
    ensures var low := Lower(text);
            var noRule := && !(Contains(low, "credit") && Contains(low, "memo"))
                          && !(Contains(low, "debit") && Contains(low, "memo"))
                          && !Contains(low, "credit note")
                          && !Contains(low, "debit note");
            && (noRule ==> DetectedType(text, current) == current)
            && (current != CreditMemoType && current != DebitMemoType
                ==> (DetectedType(text, current) == current <==> noRule))
  {
  }

  /** Detection ignores letter case. */
  lemma DetectedTypeIgnoresCase(text: string, current: string)
    ensures DetectedType(Lower(text), current) == DetectedType(text, current)
  {
    LowerIdempotent(text);
  }

  // ---------------------------------------------------------------------------
  // Table line items
  // ---------------------------------------------------------------------------

  /** Python truthiness of a cell: present and non-empty. */
  predicate Truthy(c: Cell) {
    c.Some? && c.value != ""
  }

  /** Python's `str(cell)`: `None` prints as "None". */
  function CellText(c: Cell): (r: string)
    ensures c.Some? ==> r == c.value
    ensures r == "" ==> c == Some("")
  {
    match c
    case None => "None"
    case Some(s) => s
  }

  /** `if row and len(row) >= 2`: the rows that yield a line item. */
  predicate Eligible(row: Row) {
    |row| >= 2
  }

  /** The line item built from one eligible row. */
  function ItemOf(row: Row): LineItem
    requires Eligible(row)
  {
    LineItem(
      if Truthy(row[0]) then row[0].value else "",
      CellText(row[1]),
      if Truthy(row[|row| - 1]) then row[|row| - 1].value else "")
  }

  /** The description is the first cell and the amount the last, each empty exactly when that
      cell is missing or empty; the quantity is the second cell as Python prints it. */
  lemma ItemOfCells(row: Row)
    requires Eligible(row)
    ensures ItemOf(row).description == "" <==> !Truthy(row[0])
    ensures Truthy(row[0]) ==> ItemOf(row).description == row[0].value
    ensures ItemOf(row).quantity == CellText(row[1])
    ensures ItemOf(row).amount == "" <==> !Truthy(row[|row| - 1])
    ensures Truthy(row[|row| - 1]) ==> ItemOf(row).amount == row[|row| - 1].value
  {
  }

  /** The items of a sequence of rows, in row order. */
  function RowItems(rows: seq<Row>): (items: seq<LineItem>)
    ensures |items| <= |rows|
  {
    if |rows| == 0 then []
    else RowItems(rows[..|rows| - 1])
         + (if Eligible(rows[|rows| - 1]) then [ItemOf(rows[|rows| - 1])] else [])
  }

  /** The items of a list of tables: tables in order, rows in order within each. */
  function TableItems(tables: seq<Table>): (items: seq<LineItem>)
    ensures |items| <= |Flatten(tables)|
  {
    if |tables| == 0 then []
    else TableItems(tables[..|tables| - 1]) + RowItems(tables[|tables| - 1])
  }

  /** All rows of all tables, in table order then row order. */
  function Flatten(tables: seq<Table>): seq<Row>
  {
    if |tables| == 0 then []
    else Flatten(tables[..|tables| - 1]) + tables[|tables| - 1]
  }

  lemma {:induction false} RowItemsAppend(a: seq<Row>, b: seq<Row>)
    ensures RowItems(a + b) == RowItems(a) + RowItems(b)
  {
    if |b| == 0 {
      assert a + b == a;
    } else {
      assert (a + b)[..|a + b| - 1] == a + b[..|b| - 1];
      RowItemsAppend(a, b[..|b| - 1]);
    }
  }

  /** Items follow the concatenation of all tables' rows. */
  lemma {:induction false} TableItemsFlatten(tables: seq<Table>)
    ensures TableItems(tables) == RowItems(Flatten(tables))
  {
    if |tables| > 0 {
      TableItemsFlatten(tables[..|tables| - 1]);
      RowItemsAppend(Flatten(tables[..|tables| - 1]), tables[|tables| - 1]);
    }
  }

  /** Exactly one item per eligible row, in order, built by `ItemOf`; other rows are skipped. */
  lemma {:induction false} RowItemsOnePerEligibleRow(rows: seq<Row>)
    ensures var kept := Seqs.Filter(rows, Eligible);
            |RowItems(rows)| == |kept|
            && forall i :: 0 <= i < |kept| ==> Eligible(kept[i]) && RowItems(rows)[i] == ItemOf(kept[i])
  {
    if |rows| > 0 {
      RowItemsOnePerEligibleRow(rows[..|rows| - 1]);
    }
  }

  /** `_extract_line_items`: nested loops over tables and rows, appending one item per eligible row. */
  method ExtractLineItems(tables: seq<Table>) returns (items: seq<LineItem>)
    ensures items == TableItems(tables)
  {
    items := [];
    var t := 0;
    while t < |tables|
      invariant 0 <= t <= |tables|
      invariant items == TableItems(tables[..t])
    {
      assert tables[..t + 1][..t] == tables[..t];
      items := AppendRowItems(items, tables[t]);
      t := t + 1;
    }
    assert tables[..t] == tables;
  }

  /** The inner loop of `_extract_line_items`: the rows of one table, appending one item
      per eligible row. */
  method AppendRowItems(start: seq<LineItem>, table: Table) returns (items: seq<LineItem>)
    ensures items == start + RowItems(table)
  {
    items := start;
    var r := 0;
    while r < |table|
      invariant 0 <= r <= |table|
      invariant items == start + RowItems(table[..r])
    {
      var row := table[r];
      assert table[..r + 1][..r] == table[..r];
      if |row| > 0 && |row| >= 2 {
        items := items + [ItemOf(row)];
      }
      r := r + 1;
    }
    assert table[..r] == table;
  }

  // ---------------------------------------------------------------------------
  // The extracted-data dictionary
  // ---------------------------------------------------------------------------

  /** The dictionary the service fills in: fields found in the text, the invoice type,
      the table line items and the raw text. */
  class ExtractedData {
    var invoiceNumber: Option<string>
    var vendorName: Option<string>
    var invoiceAmount: Option<real>
    var invoiceDate: Option<string>
    var poReference: Option<string>
    var invoiceType: string
    var lineItems: seq<LineItem>
    var rawText: string

    /** The starting dictionary: no field found, type "Standard", no line items. */
    constructor (rawText: string)
      ensures invoiceNumber.None? && vendorName.None? && invoiceAmount.None?
      ensures invoiceDate.None? && poReference.None?
      ensures invoiceType == StandardType && lineItems == [] && this.rawText == rawText
    {
      invoiceNumber, vendorName, invoiceAmount := None, None, None;
      invoiceDate, poReference := None, None;
      invoiceType, lineItems := StandardType, [];
      this.rawText := rawText;
    }

    /** The effect of `_extract_fields`: each field a pattern found is overwritten; the others keep their value. */
    method RecordFields(found: FoundFields)
      modifies this
      ensures invoiceNumber == (if found.invoiceNumber.Some? then found.invoiceNumber else old(invoiceNumber))
      ensures vendorName == (if found.vendorName.Some? then found.vendorName else old(vendorName))
      ensures invoiceAmount == (if found.invoiceAmount.Some? then found.invoiceAmount else old(invoiceAmount))
      ensures invoiceDate == (if found.invoiceDate.Some? then found.invoiceDate else old(invoiceDate))
      ensures poReference == (if found.poReference.Some? then found.poReference else old(poReference))
      ensures invoiceType == old(invoiceType) && lineItems == old(lineItems) && rawText == old(rawText)
    {
      if found.invoiceNumber.Some? { invoiceNumber := found.invoiceNumber; }
      if found.invoiceAmount.Some? { invoiceAmount := found.invoiceAmount; }
      if found.invoiceDate.Some? { invoiceDate := found.invoiceDate; }
      if found.vendorName.Some? { vendorName := found.vendorName; }
      if found.poReference.Some? { poReference := found.poReference; }
    }

    /** `_detect_invoice_type`: only the type changes, as `DetectedType` says. */
    method DetectInvoiceType(text: string)
      modifies this
      ensures invoiceType == DetectedType(text, old(invoiceType))
      ensures invoiceNumber == old(invoiceNumber) && vendorName == old(vendorName)
      ensures invoiceAmount == old(invoiceAmount) && invoiceDate == old(invoiceDate)
      ensures poReference == old(poReference) && lineItems == old(lineItems) && rawText == old(rawText)
    {
      var low := Lower(text);
      if Contains(low, "credit") && Contains(low, "memo") {
        invoiceType := CreditMemoType;
      } else if Contains(low, "debit") && Contains(low, "memo") {
        invoiceType := DebitMemoType;
      } else if Contains(low, "credit note") {
        invoiceType := CreditMemoType;
      } else if Contains(low, "debit note") {
        invoiceType := DebitMemoType;
      }
    }
  }

  /** The five fields the patterns look for hold what they found. */
  predicate HoldsFound(data: ExtractedData, found: FoundFields)
    reads data
  {
    && data.invoiceNumber == found.invoiceNumber
    && data.vendorName == found.vendorName
    && data.invoiceAmount == found.invoiceAmount
    && data.invoiceDate == found.invoiceDate
    && data.poReference == found.poReference
  }

  /** `extract_from_text`: start from the empty dictionary, record the fields the patterns
      find in the text, then detect the invoice type. Text input never has line items. */
  method ExtractFromText(text: string, findFields: string -> FoundFields) returns (data: ExtractedData)
    ensures fresh(data)
    ensures HoldsFound(data, findFields(text))
    ensures data.invoiceType == DetectedType(text, StandardType)
    ensures data.lineItems == [] && data.rawText == text
  {
    data := new ExtractedData(text);
    data.RecordFields(findFields(text));
    data.DetectInvoiceType(text);
  }

  /** `page.extract_text() or ""`. */
  function PageText(p: Page): string {
    p.text.GetOr("")
  }

  /** The text of all pages, concatenated in page order. */
  function PagesText(pages: seq<Page>): string
  {
    if |pages| == 0 then "" else PagesText(pages[..|pages| - 1]) + PageText(pages[|pages| - 1])
  }

  /** Moving the last part of a concatenation into its suffix. */
  lemma Regroup<T>(whole: seq<T>, front: seq<T>, x: seq<T>, rest: seq<T>, last: seq<T>, suffix: seq<T>)
    requires whole == front + x + rest + last && suffix == rest + last
    ensures whole == front + x + suffix
  {
  }

  /** The text of two runs of pages is the text of the first followed by that of the second. */
  lemma {:induction false} PagesTextAppend(a: seq<Page>, b: seq<Page>)
    ensures PagesText(a + b) == PagesText(a) + PagesText(b)
  {
    if |b| == 0 {
      assert a + b == a;
    } else {
      assert (a + b)[..|a + b| - 1] == a + b[..|b| - 1];
      PagesTextAppend(a, b[..|b| - 1]);
    }
  }

  /** Every page's text sits in the whole, after the text of the pages before it and
      before the text of the pages after it. */
  lemma {:induction false} PagesTextCoversEveryPage(pages: seq<Page>, i: int)
    requires 0 <= i < |pages|
    ensures PagesText(pages) == PagesText(pages[..i]) + PageText(pages[i]) + PagesText(pages[i + 1..])
  {
    var n := |pages| - 1;
    if i == n {
      assert pages[i + 1..] == [];
    } else {
      PagesTextCoversEveryPage(pages[..n], i);
      assert pages[..n][..i] == pages[..i];
      assert pages[..n][i + 1..] == pages[i + 1..n];
      assert pages[i + 1..][..|pages[i + 1..]| - 1] == pages[i + 1..n];
      assert pages[i + 1..][|pages[i + 1..]| - 1] == pages[n];
      Regroup(PagesText(pages), PagesText(pages[..i]), PageText(pages[i]), PagesText(pages[i + 1..n]),
              PageText(pages[n]), PagesText(pages[i + 1..]));
    }
  }

  /** Pages without text contribute nothing. */
  lemma {:induction false} PagesWithoutTextGiveNoText(pages: seq<Page>)
    requires forall i :: 0 <= i < |pages| ==> pages[i].text.None?
    ensures PagesText(pages) == ""
  {
    if |pages| > 0 {
      PagesWithoutTextGiveNoText(pages[..|pages| - 1]);
    }
  }

  /** The line items of all pages' tables, in page order. */
  function PagesItems(pages: seq<Page>): seq<LineItem>
  {
    if |pages| == 0 then [] else PagesItems(pages[..|pages| - 1]) + TableItems(pages[|pages| - 1].tables)
  }

  /** The items of two runs of pages are the items of the first followed by those of the second. */
  lemma {:induction false} PagesItemsAppend(a: seq<Page>, b: seq<Page>)
    ensures PagesItems(a + b) == PagesItems(a) + PagesItems(b)
  {
    if |b| == 0 {
      assert a + b == a;
    } else {
      assert (a + b)[..|a + b| - 1] == a + b[..|b| - 1];
      PagesItemsAppend(a, b[..|b| - 1]);
    }
  }

  /** Every page's table items sit in the whole, after the table items of the pages before it and
      before the table items of the pages after it. */
  lemma {:induction false} PagesItemsCoverEveryPage(pages: seq<Page>, i: int)
    requires 0 <= i < |pages|
    ensures PagesItems(pages) == PagesItems(pages[..i]) + TableItems(pages[i].tables) + PagesItems(pages[i + 1..])
  {
    var n := |pages| - 1;
    if i == n {
      assert pages[i + 1..] == [];
    } else {
      PagesItemsCoverEveryPage(pages[..n], i);
      assert pages[..n][..i] == pages[..i];
      assert pages[..n][i + 1..] == pages[i + 1..n];
      assert pages[i + 1..][..|pages[i + 1..]| - 1] == pages[i + 1..n];
      assert pages[i + 1..][|pages[i + 1..]| - 1] == pages[n];
      Regroup(PagesItems(pages), PagesItems(pages[..i]), TableItems(pages[i].tables), PagesItems(pages[i + 1..n]),
              TableItems(pages[n].tables), PagesItems(pages[i + 1..]));
    }
  }

  /** Pages without tables contribute no items. */
  lemma {:induction false} PagesWithoutTablesGiveNoItems(pages: seq<Page>)
    requires forall i :: 0 <= i < |pages| ==> pages[i].tables == []
    ensures PagesItems(pages) == []
  {
    if |pages| > 0 {
      PagesWithoutTablesGiveNoItems(pages[..|pages| - 1]);
    }
  }

  /** `extract_from_pdf` once the document is read: page texts are concatenated, every page's
      tables contribute their line items, the fields are found in the whole text. The invoice type
      is never detected on this path, so a PDF invoice stays "Standard". */
  method ExtractFromPdf(pages: seq<Page>, findFields: string -> FoundFields) returns (data: ExtractedData)
    ensures fresh(data)
    ensures data.rawText == PagesText(pages)
    ensures data.lineItems == PagesItems(pages)
    ensures data.invoiceType == StandardType
    ensures HoldsFound(data, findFields(PagesText(pages)))
  {
    data := new ExtractedData("");
    var fullText := "";
    var i := 0;
    while i < |pages|
      invariant 0 <= i <= |pages|
      invariant fullText == PagesText(pages[..i])
      invariant data.lineItems == PagesItems(pages[..i])
      invariant data.invoiceType == StandardType && data.rawText == ""
      invariant data.invoiceNumber.None? && data.vendorName.None? && data.invoiceAmount.None?
      invariant data.invoiceDate.None? && data.poReference.None?
    {
      assert pages[..i + 1][..i] == pages[..i];
      assert PagesText(pages[..i + 1]) == PagesText(pages[..i]) + PageText(pages[i]);
      assert PagesItems(pages[..i + 1]) == PagesItems(pages[..i]) + TableItems(pages[i].tables);
      fullText := fullText + PageText(pages[i]);
      var tables := pages[i].tables;
      if |tables| > 0 {
        var items := ExtractLineItems(tables);
        data.lineItems := data.lineItems + items;
      } else {
        assert TableItems(tables) == [];
      }
      i := i + 1;
    }
    assert pages[..i] == pages;
    data.rawText := fullText;
    data.RecordFields(findFields(fullText));
  }

  // ---------------------------------------------------------------------------
  // Dispatch on the file suffix
  // ---------------------------------------------------------------------------

  datatype FileKind = PdfFile | TextFile

  datatype ExtractionError =
    | UnsupportedFileType(message: string)  // the ValueError of extract_from_file
    | ReadFailed                            // the PDF or text reader raised

  /** Index of the last occurrence of `c` in `s`, or -1 (Python's `str.rfind`). */
  function LastIndexOf(s: string, c: char): (i: int)
    ensures -1 <= i < |s|
    ensures i >= 0 ==> s[i] == c
    ensures forall j :: i < j < |s| ==> s[j] != c
  {
    if |s| == 0 then -1
    else if s[|s| - 1] == c then |s| - 1
    else LastIndexOf(s[..|s| - 1], c)
  }

  /** The last occurrence is the only occurrence after which `c` no longer appears. */
  lemma LastIndexOfIs(s: string, c: char, i: int)
    requires 0 <= i < |s| && s[i] == c
    requires forall j :: i < j < |s| ==> s[j] != c
    ensures LastIndexOf(s, c) == i
  {
  }

  /** The path without trailing slashes. */
  function TrimSlashes(path: string): (r: string)
    ensures r <= path
    ensures r == [] || r[|r| - 1] != '/'
  {
    if |path| > 0 && path[|path| - 1] == '/' then TrimSlashes(path[..|path| - 1]) else path
  }

  /** `Path(path).name`: the last component of a slash-separated path. */
  function FileName(path: string): (name: string)
    ensures '/' !in name
  {
    var t := TrimSlashes(path);
    t[LastIndexOf(t, '/') + 1..]
  }

  /** `Path(path).suffix`: from the last dot of the name, when that dot is neither the
      first nor the last character of the name; otherwise empty. */
  function Suffix(name: string): (ext: string)
    ensures ext == [] || (|ext| >= 2 && ext[0] == '.' && '.' !in ext[1..])
    ensures ext == [] || (|ext| < |name| && name[|name| - |ext|..] == ext)
  {
    var i := LastIndexOf(name, '.');
    if 0 < i < |name| - 1 then name[i..] else ""
  }

  /** Which reader `extract_from_file` uses, from the lower-cased suffix; any other suffix
      is refused with "Unsupported file type: " and the (lower-cased) suffix. */
  function FileKindOf(path: string): Result<FileKind, ExtractionError>
  {
    KindOfSuffix(Lower(Suffix(FileName(path))))
  }

  /** The dispatch on an already lower-cased suffix. */
  function KindOfSuffix(ext: string): Result<FileKind, ExtractionError>
  {
    if ext == ".pdf" then Ok(PdfFile)
    else if ext == ".txt" || ext == ".csv" then Ok(TextFile)
    else Err(UnsupportedFileType("Unsupported file type: " + ext))
  }

  /** A reader is chosen only for a four-character suffix; every refusal is the
      "Unsupported file type: " error. */
  lemma FileKindOfOutcomes(path: string)
    ensures FileKindOf(path).Ok? ==> |Suffix(FileName(path))| == 4
    ensures FileKindOf(path).Err? ==> FileKindOf(path).error.UnsupportedFileType?
                                      && "Unsupported file type: " <= FileKindOf(path).error.message
  {
    var ext := Lower(Suffix(FileName(path)));
    assert |ext| == |Suffix(FileName(path))|;
    if KindOfSuffix(ext).Ok? {
      assert ext == ".pdf" || ext == ".txt" || ext == ".csv";
    }
  }

  /** For a path whose last component is a non-empty stem (which may hold dots), a dot and an
      extension holding no dot, the lower-cased extension alone chooses the reader: "pdf" the PDF reader, "txt" or "csv"
      the text reader, anything else the error naming it. */
  lemma FileKindOfShape(dir: string, stem: string, ext: string)
    requires stem != [] && '/' !in stem
    requires ext != [] && '.' !in ext && '/' !in ext
    ensures FileKindOf(dir + "/" + stem + "." + ext)
            == if Lower(ext) == "pdf" then Ok(PdfFile)
               else if Lower(ext) == "txt" || Lower(ext) == "csv" then Ok(TextFile)
               else Err(UnsupportedFileType("Unsupported file type: ." + Lower(ext)))
  {
    var name := stem + "." + ext;
    assert dir + "/" + stem + "." + ext == dir + "/" + name;
    assert '/' !in name by {
      forall k | 0 <= k < |name|
        ensures name[k] != '/'
      {
        if k < |stem| { assert name[k] == stem[k]; }
        else if k > |stem| { assert name[k] == ext[k - |stem| - 1]; }
      }
    }
    FileNameOfLastComponent(dir, name);
    SuffixOfStemAndExtension(stem, ext);
    LowerDotPrefix(ext);
    KindOfDottedExtension(Lower(ext));
  }

  /** The dispatch on a dot followed by `low`. */
  lemma KindOfDottedExtension(low: string)
    ensures KindOfSuffix("." + low)
            == if low == "pdf" then Ok(PdfFile)
               else if low == "txt" || low == "csv" then Ok(TextFile)
               else Err(UnsupportedFileType("Unsupported file type: ." + low))
  {
    assert ".pdf" == "." + "pdf" && ".txt" == "." + "txt" && ".csv" == "." + "csv";
    DotPrefixInjective(low, "pdf");
    DotPrefixInjective(low, "txt");
    DotPrefixInjective(low, "csv");
    assert "Unsupported file type: " + ("." + low) == "Unsupported file type: ." + low;
  }

  /** Prefixing a dot keeps texts apart. */
  lemma DotPrefixInjective(x: string, y: string)
    ensures "." + x == "." + y <==> x == y
  {
    if "." + x == "." + y {
      assert ("." + x)[1..] == x && ("." + y)[1..] == y;
    }
  }

  /** The name of a path is what follows its last '/'. */
  lemma FileNameOfLastComponent(dir: string, name: string)
    requires name != [] && '/' !in name
    ensures FileName(dir + "/" + name) == name
  {
    var path := dir + "/" + name;
    assert path[|dir|] == '/';
    assert path[|dir| + 1..] == name;
    forall j | |dir| < j < |path|
      ensures path[j] != '/'
    {
      assert path[j] == name[j - |dir| - 1];
    }
    assert path[|path| - 1] == name[|name| - 1];
    assert TrimSlashes(path) == path;
    LastIndexOfIs(path, '/', |dir|);
  }

  /** A non-empty stem and an extension with no '.' give the extension, with its dot, as the suffix. */
  lemma SuffixOfStemAndExtension(stem: string, ext: string)
    requires stem != []
    requires ext != [] && '.' !in ext
    ensures Suffix(stem + "." + ext) == "." + ext
  {
    var name := stem + "." + ext;
    forall j | |stem| < j < |name|
      ensures name[j] != '.'
    {
      assert name[j] == ext[j - |stem| - 1];
    }
    LastIndexOfIs(name, '.', |stem|);
    assert name[|stem|..] == "." + ext;
  }

  /** Lower-casing leaves the dot alone. */
  lemma LowerDotPrefix(ext: string)
    ensures Lower("." + ext) == "." + Lower(ext)
  {
    var low := Lower("." + ext);
    assert LowerChar('.') == '.';
    forall k | 0 <= k < |low|
      ensures low[k] == ("." + Lower(ext))[k]
    {
      if k > 0 { assert ("." + ext)[k] == ext[k - 1]; }
    }
  }

  /** A name has no suffix exactly when it has no '.', its only '.' is its first character,
      or it ends in '.'. */
  lemma EmptySuffixShapes(name: string)
    ensures Suffix(name) == ""
            <==> '.' !in name || (name[0] == '.' && '.' !in name[1..]) || name[|name| - 1] == '.'
  {
    var i := LastIndexOf(name, '.');
    if 0 < i < |name| - 1 {
      assert name[1..][i - 1] == '.';
      assert name[|name| - 1] != '.';
    } else if i == 0 {
      forall j | 0 <= j < |name| - 1
        ensures name[1..][j] != '.'
      {
        assert name[1..][j] == name[j + 1];
      }
    }
  }

  /** Letter case of the suffix is ignored. */
  lemma UpperCasePdfIsPdf()
    ensures FileKindOf("uploads/INVOICE.PDF") == Ok(PdfFile)
  {
    assert "uploads" + "/" + "INVOICE" + "." + "PDF" == "uploads/INVOICE.PDF";
    assert Lower("PDF") == "pdf";
    FileKindOfShape("uploads", "INVOICE", "PDF");
  }

  /** Only the last suffix counts. */
  lemma LastSuffixDecides()
    ensures FileKindOf("uploads/scan.pdf.csv") == Ok(TextFile)
  {
    assert "uploads" + "/" + "scan.pdf" + "." + "csv" == "uploads/scan.pdf.csv";
    assert Lower("csv") == "csv";
    FileKindOfShape("uploads", "scan.pdf", "csv");
  }

  /** A name that is only a suffix (a dot file) has no suffix, and is refused. */
  lemma DotFileIsRefused()
    ensures FileKindOf("uploads/.pdf") == Err(UnsupportedFileType("Unsupported file type: "))
  {
    LastIndexOfIs("uploads/.pdf", '/', 7);
    assert FileName("uploads/.pdf") == ".pdf";
    LastIndexOfIs(".pdf", '.', 0);
    assert Suffix(".pdf") == "";
    assert Lower("") == "";
    assert "Unsupported file type: " + "" == "Unsupported file type: ";
  }

  /** `extract_from_file`: the suffix chooses the reader; the readers are parameters whose
      `None` stands for the exception they raise. */
  method ExtractFromFile(
    path: string,
    readPdf: string -> Option<seq<Page>>,
    readText: string -> Option<string>,
    findFields: string -> FoundFields)
    returns (r: Result<ExtractedData, ExtractionError>)
    ensures FileKindOf(path).Err? ==> r == Err(FileKindOf(path).error)
    ensures FileKindOf(path) == Ok(PdfFile) ==>
      match readPdf(path)
      case None => r == Err(ReadFailed)
      case Some(pages) =>
        r.Ok? && fresh(r.value) && r.value.rawText == PagesText(pages)
        && r.value.lineItems == PagesItems(pages) && r.value.invoiceType == StandardType
        && HoldsFound(r.value, findFields(PagesText(pages)))
    ensures FileKindOf(path) == Ok(TextFile) ==>
      match readText(path)
      case None => r == Err(ReadFailed)
      case Some(text) =>
        r.Ok? && fresh(r.value) && r.value.rawText == text && r.value.lineItems == []
        && r.value.invoiceType == DetectedType(text, StandardType)
        && HoldsFound(r.value, findFields(text))
  {
    var ext := Lower(Suffix(FileName(path)));
    if ext == ".pdf" {
      var pages := readPdf(path);
      if pages.None? {
        return Err(ReadFailed);
      }
      var data := ExtractFromPdf(pages.value, findFields);
      r := Ok(data);
    } else if ext == ".txt" || ext == ".csv" {
      var text := readText(path);
      if text.None? {
        return Err(ReadFailed);
      }
      var data := ExtractFromText(text.value, findFields);
      r := Ok(data);
    } else {
      r := Err(UnsupportedFileType("Unsupported file type: " + ext));
    }
  }
}
