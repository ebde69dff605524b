/**
 * The statement-of-account template: an asynchronous builder that loads the
 * company logo, turns every ledger item into a nine-cell row, appends a
 * totals row and returns a definition with a header drawn on every page.
 */
module StatementOfAccount {
  import opened Wrappers
  import opened JsValue
  import opened ImageHelper
  import opened CompanyLogo

  // ---- item rows ----

  const TextKeys: seq<string> := ["docNo", "date", "party", "narration", "po", "remarks"]
  const AmountKeys: seq<string> := ["billAmt", "vatAmt", "totalAmt"]

  function Cell(text: Value): Value {
    Obj([Field("text", text), Field("fontSize", Num(9.0))])
  }

  function AmountCell(text: Value): Value {
    Obj([Field("text", text), Field("fontSize", Num(9.0)), Field("alignment", Str("right"))])
  }

  /** `v != null ? v.toFixed(2) : ''`, where `callee` is the source text of `v`. */
  function Amount(h: Host, v: Value, callee: string): (r: Outcome<Value>)
    ensures r.Ok? <==> Nullish(v) || v.Num?
    ensures Nullish(v) ==> r == Ok(Str(""))
    ensures v.Num? ==> r == Ok(Str(h.fixed(v.n, 2)))
  {
    if Nullish(v) then Ok(Str("")) else ToFixed(h, v, 2, callee)
  }

  /** An amount the row can format: missing, or a number. */
  predicate AmountReadable(v: Value) {
    Nullish(v) || v.Num?
  }

  /** The `map` callback: nine cells, the first six defaulting to ''. */
  function ItemRow(h: Host, item: Value): Outcome<Value> {
    var docNo :- Prop(item, "docNo");
    var bill :- Amount(h, Get(item, "billAmt"), "item.billAmt");
    var vat :- Amount(h, Get(item, "vatAmt"), "item.vatAmt");
    var total :- Amount(h, Get(item, "totalAmt"), "item.totalAmt");
    Ok(Arr([Cell(Or(docNo, Str(""))), Cell(Or(Get(item, "date"), Str(""))), Cell(Or(Get(item, "party"), Str(""))),
            Cell(Or(Get(item, "narration"), Str(""))), Cell(Or(Get(item, "po"), Str(""))),
            Cell(Or(Get(item, "remarks"), Str(""))), AmountCell(bill), AmountCell(vat), AmountCell(total)]))
  }

  /** `(data.items || []).map(...)`: a missing item list is an empty one. */
  function ItemRows(h: Host, data: Value): Outcome<seq<Value>> {
    var items :- Prop(data, "items");
    var xs :- ItemsOf(Or(items, Arr([])), "(data.items || [])");
    MapR(xs, (item, i) => ItemRow(h, item))
  }

  // ---- totals row ----

  function FullBorder(): Value {
    Arr([Bool(true), Bool(true), Bool(true), Bool(true)])
  }

  function BorderCell(): Value {
    Obj([Field("text", Str("")), Field("fontSize", Num(9.0)), Field("border", FullBorder())])
  }

  function TotalCell(text: Value): Value {
    Obj([Field("text", text), Field("fontSize", Num(9.0)), Field("alignment", Str("right")),
         Field("bold", Bool(true)), Field("border", FullBorder())])
  }

  /** `data.summary?.<key> ?? 0` */
  function SummaryTotal(data: Value, key: string): Value {
    Coalesce(OptProp(Get(data, "summary"), key), Num(0.0))
  }

  /** The row pushed after the item rows: six bordered blanks and the three totals. */
  function TotalsRow(h: Host, data: Value): Outcome<Value> {
    var bill :- ToFixed(h, SummaryTotal(data, "billTotal"), 2, "(data.summary?.billTotal ?? 0)");
    var vat :- ToFixed(h, SummaryTotal(data, "vatTotal"), 2, "(data.summary?.vatTotal ?? 0)");
    var gross :- ToFixed(h, SummaryTotal(data, "grossTotal"), 2, "(data.summary?.grossTotal ?? 0)");
    Ok(Arr([BorderCell(), BorderCell(), BorderCell(), BorderCell(), BorderCell(), BorderCell(),
            TotalCell(bill), TotalCell(vat), TotalCell(gross)]))
  }

  // ---- running header ----

  /** The logo cell: the image when the logo loaded, else empty text. */
  function LogoCell(logo: Value): Value {
    if Truthy(logo) then
      Obj([Field("image", logo), Field("width", Num(60.0)), Field("height", Num(60.0)),
           Field("alignment", Str("right")), Field("margin", Margin(0.0, 0.0, 0.0, 0.0))])
    else Obj([Field("text", Str(""))])
  }

  function CompanyStack(h: Host, name: string, companyInfo: Value): Value {
    Arr([
      Obj([Field("text", Str(name)), Field("style", Str("companyName")), Field("margin", Margin(0.0, 0.0, 0.0, 4.0))]),
      Obj([Field("text", Or(OptProp(companyInfo, "address"), Str(""))), Field("style", Str("companyAddress")),
           Field("margin", Margin(0.0, 0.0, 0.0, 3.0))]),
      Obj([Field("columns", Arr([
        Obj([Field("text", Str("Tel: " + ToStr(h, Or(OptProp(companyInfo, "phone"), Str(""))))),
             Field("style", Str("companySmall")), Field("width", Str("auto"))]),
        Obj([Field("text", Str("TRN: " + ToStr(h, Or(OptProp(companyInfo, "trn"), Str(""))))),
             Field("style", Str("companySmall")), Field("width", Str("auto")), Field("margin", Margin(10.0, 0.0, 0.0, 0.0))])]))])])
  }

  /** The ledger's boxed layout: its callbacks ignore their arguments; padding is left, right, top, bottom. */
  function BoxLayout(width: real, padX: real, padY: real): Value {
    Obj([Field("hLineWidth", Fn(Const(Num(width)))), Field("vLineWidth", Fn(Const(Num(width)))),
         Field("hLineColor", Fn(Const(Str("black")))), Field("vLineColor", Fn(Const(Str("black")))),
         Field("paddingLeft", Fn(Const(Num(padX)))), Field("paddingRight", Fn(Const(Num(padX)))),
         Field("paddingTop", Fn(Const(Num(padY)))), Field("paddingBottom", Fn(Const(Num(padY))))])
  }

  /** The header box's layout: unit rules in black and padding 8 on every side, top and bottom first. */
  function HeaderLayout(): Value {
    Obj([Field("hLineWidth", Fn(Const(Num(1.0)))), Field("vLineWidth", Fn(Const(Num(1.0)))),
         Field("hLineColor", Fn(Const(Str("black")))), Field("vLineColor", Fn(Const(Str("black")))),
         Field("paddingTop", Fn(Const(Num(8.0)))), Field("paddingBottom", Fn(Const(Num(8.0)))),
         Field("paddingLeft", Fn(Const(Num(8.0)))), Field("paddingRight", Fn(Const(Num(8.0))))])
  }

  /** The header box, built from company name (upper-cased by the caller) and the logo cell. */
  function HeaderBox(h: Host, name: string, companyInfo: Value, logo: Value): Value {
    Obj([
      Field("margin", Margin(30.0, 20.0, 30.0, 0.0)),
      Field("table", Obj([
        Field("widths", Arr([Str("*")])),
        Field("body", Arr([Arr([Obj([
          Field("columns", Arr([
            Obj([Field("width", Str("70%")), Field("height", Num(60.0)), Field("stack", CompanyStack(h, name, companyInfo)),
                 Field("alignment", Str("left"))]),
            Obj([Field("width", Str("30%")), Field("alignment", Str("right")), Field("stack", Arr([LogoCell(logo)]))])])),
          Field("margin", Margin(0.0, 5.0, 0.0, 5.0))])])]))])),
      Field("layout", HeaderLayout())])
  }

  /**
   * What the header closure returns when called with any page number and
   * page count: reading `companyInfo` of a nullish payload and upper-casing
   * a company name that is not a string are the calls that can throw.
   */
  function HeaderAt(h: Host, data: Value, logo: Value, page: nat, count: nat): Outcome<Value> {
    var companyInfo :- Prop(data, "companyInfo");
    var name :- ToUpper(h, Or(OptProp(companyInfo, "name"), Str("")), "(data.companyInfo?.name || \"\")");
    Ok(HeaderBox(h, name.s, companyInfo, logo))
  }

  // ---- content ----

  function TitleRow(h: Host, data: Value): Value {
    Arr([Obj([
      Field("text", Str(ToStr(h, Or(Get(data, "accountName"), Str(""))) + "\nStatement of Account as on: "
                        + ToStr(h, Or(Get(data, "statementDate"), Str(""))))),
      Field("colSpan", Num(9.0)),
      Field("border", Arr([Bool(true), Bool(true), Bool(true), Bool(false)])),
      Field("alignment", Str("left")),
      Field("fontSize", Num(10.0))])]
      + seq(8, i => Obj([])))
  }

  function HeadCell(text: string): Value {
    Obj([Field("text", Str(text)), Field("style", Str("tableHeader"))])
  }

  function RightHeadCell(text: string): Value {
    Obj([Field("text", Str(text)), Field("style", Str("tableHeader")), Field("alignment", Str("right"))])
  }

  function HeaderRow(): Value {
    Arr([HeadCell("Doc #"), HeadCell("Date"), HeadCell("Party"), HeadCell("Narration"), HeadCell("PO"),
         HeadCell("Remarks"), RightHeadCell("Bill Amt"), RightHeadCell("VAT Amt"), RightHeadCell("Total Amt")])
  }

  function Widths(): Value {
    Arr([Str("auto"), Str("auto"), Str("*"), Str("*"), Str("auto"), Str("auto"), Str("auto"), Str("auto"), Str("auto")])
  }

  function LedgerTable(body: seq<Value>): Value {
    Obj([
      Field("table", Obj([Field("headerRows", Num(1.0)), Field("widths", Widths()), Field("body", Arr(body))])),
      Field("layout", BoxLayout(0.5, 4.0, 3.0)),
      Field("margin", Margin(0.0, 0.0, 0.0, 6.0))])
  }

  /** The document definition around the ledger table. */
  function StatementDoc(data: Value, logo: Value, ledger: Value, styles: Value): Value {
    Obj([
      Field("pageSize", Str("A4")),
      Field("pageMargins", Margin(30.0, 110.0, 30.0, 70.0)),
      Field("header", Fn(StatementHeader(data, logo))),
      Field("footer", Fn(Const(Arr([])))),
      Field("content", Arr([ledger])),
      Field("styles", styles)])
  }

  /** The template's default export, once its promise settles. */
  function Build(h: Host, io: ImageIo, data: Value, styles: Value): (r: Outcome<Value>)
    ensures r.Ok? ==> r.value.Obj?
  {
    var logo := Logo(io, data);
    var rows :- ItemRows(h, data);
    var totals :- TotalsRow(h, data);
    Ok(StatementDoc(data, Nullable(logo), LedgerTable([TitleRow(h, data), HeaderRow()] + rows + [totals]), styles))
  }

  // ---- properties ----

  /** `toFixed` answers every number with some digits, never the empty string. */
  ghost predicate FixedNonEmpty(h: Host) {
    forall n: real, d: nat :: h.fixed(n, d) != ""
  }

  /** An amount cell is '' exactly when the amount is null or undefined; 0 is still formatted. */
  lemma AmountEmpty(h: Host, v: Value, callee: string)
    requires FixedNonEmpty(h) && AmountReadable(v)
    ensures Amount(h, v, callee).Ok?
    ensures Amount(h, v, callee).value == Str("") <==> Nullish(v)
    ensures v == Num(0.0) ==> Amount(h, v, callee).value == Str(h.fixed(0.0, 2))
  {
  }

  /**
   * A row exists exactly when the item can be read and its amounts are
   * missing or numbers; it has nine cells, six texts that default to '' and
   * three right-aligned amounts.
   */
  lemma ItemRowCells(h: Host, item: Value)
    ensures ItemRow(h, item).Ok? <==>
              !Nullish(item) && AmountReadable(Get(item, "billAmt")) && AmountReadable(Get(item, "vatAmt"))
              && AmountReadable(Get(item, "totalAmt"))
    ensures ItemRow(h, item).Ok? ==>
              var cells := ItemRow(h, item).value.items;
              ItemRow(h, item).value.Arr? && |cells| == 9
              && (forall j :: 0 <= j < 6 ==> cells[j] == Cell(Or(Get(item, TextKeys[j]), Str(""))))
              && (forall k :: 0 <= k < 3 ==> cells[6 + k] == AmountCell(Amount(h, Get(item, AmountKeys[k]), "").value))
  {
    if ItemRow(h, item).Ok? {
      ItemRowShape(h, item);
    }
  }

  lemma ItemRowValue(h: Host, item: Value)
    requires ItemRow(h, item).Ok?
    requires AmountReadable(Get(item, "billAmt")) && AmountReadable(Get(item, "vatAmt"))
    requires AmountReadable(Get(item, "totalAmt"))
    ensures ItemRow(h, item).value
            == Arr([Cell(Or(Get(item, "docNo"), Str(""))), Cell(Or(Get(item, "date"), Str(""))),
                    Cell(Or(Get(item, "party"), Str(""))), Cell(Or(Get(item, "narration"), Str(""))),
                    Cell(Or(Get(item, "po"), Str(""))), Cell(Or(Get(item, "remarks"), Str(""))),
                    AmountCell(Amount(h, Get(item, "billAmt"), "").value),
                    AmountCell(Amount(h, Get(item, "vatAmt"), "").value),
                    AmountCell(Amount(h, Get(item, "totalAmt"), "").value)])
  {
  }

  lemma CellsByKey(h: Host, item: Value, cells: seq<Value>)
    requires AmountReadable(Get(item, "billAmt")) && AmountReadable(Get(item, "vatAmt"))
    requires AmountReadable(Get(item, "totalAmt"))
    requires cells
             == [Cell(Or(Get(item, "docNo"), Str(""))), Cell(Or(Get(item, "date"), Str(""))),
                 Cell(Or(Get(item, "party"), Str(""))), Cell(Or(Get(item, "narration"), Str(""))),
                 Cell(Or(Get(item, "po"), Str(""))), Cell(Or(Get(item, "remarks"), Str(""))),
                 AmountCell(Amount(h, Get(item, "billAmt"), "").value),
                 AmountCell(Amount(h, Get(item, "vatAmt"), "").value),
                 AmountCell(Amount(h, Get(item, "totalAmt"), "").value)]
    ensures forall j :: 0 <= j < 6 ==> cells[j] == Cell(Or(Get(item, TextKeys[j]), Str("")))
    ensures forall k :: 0 <= k < 3 ==> cells[6 + k] == AmountCell(Amount(h, Get(item, AmountKeys[k]), "").value)
  {
    forall j | 0 <= j < 6 ensures cells[j] == Cell(Or(Get(item, TextKeys[j]), Str(""))) {
      if j == 0 {} else if j == 1 {} else if j == 2 {} else if j == 3 {} else if j == 4 {} else {}
    }
    forall k | 0 <= k < 3 ensures cells[6 + k] == AmountCell(Amount(h, Get(item, AmountKeys[k]), "").value) {
      if k == 0 {} else if k == 1 {} else {}
    }
  }

  lemma ItemRowShape(h: Host, item: Value)
    requires ItemRow(h, item).Ok?
    ensures var cells := ItemRow(h, item).value.items;
            ItemRow(h, item).value.Arr? && |cells| == 9
            && (forall j :: 0 <= j < 6 ==> cells[j] == Cell(Or(Get(item, TextKeys[j]), Str(""))))
            && (forall k :: 0 <= k < 3 ==> cells[6 + k] == AmountCell(Amount(h, Get(item, AmountKeys[k]), "").value))
  {
    ItemRowValue(h, item);
    CellsByKey(h, item, ItemRow(h, item).value.items);
  }

  /**
   * The totals row has six empty, fully bordered cells and then the three
   * summary totals; a missing summary total is formatted as 0.
   */
  lemma TotalsRowCells(h: Host, data: Value)
    ensures TotalsRow(h, data).Ok? <==>
              SummaryTotal(data, "billTotal").Num? && SummaryTotal(data, "vatTotal").Num?
              && SummaryTotal(data, "grossTotal").Num?
    ensures TotalsRow(h, data).Ok? ==>
              var cells := TotalsRow(h, data).value.items;
              TotalsRow(h, data).value.Arr? && |cells| == 9
              && (forall j :: 0 <= j < 6 ==> cells[j] == BorderCell())
              && cells[6] == TotalCell(Str(h.fixed(SummaryTotal(data, "billTotal").n, 2)))
              && cells[7] == TotalCell(Str(h.fixed(SummaryTotal(data, "vatTotal").n, 2)))
              && cells[8] == TotalCell(Str(h.fixed(SummaryTotal(data, "grossTotal").n, 2)))
  {
  }

  /** The blank cells are empty text with all four borders. */
  lemma BorderCellBlank()
    ensures Get(BorderCell(), "text") == Str("") && Get(BorderCell(), "border") == FullBorder()
  {
    FieldOfAt(BorderCell().fields, 2);
  }

  /** Without a summary every total is 0, formatted. */
  lemma MissingSummary(h: Host, data: Value)
    requires Nullish(Get(data, "summary"))
    ensures TotalsRow(h, data).Ok?
    ensures forall j :: 6 <= j < 9 ==> TotalsRow(h, data).value.items[j] == TotalCell(Str(h.fixed(0.0, 2)))
  {
    TotalsRowCells(h, data);
  }

  /** The item list the rows are built from: `data.items || []`. */
  function ItemList(data: Value): Value {
    Or(Get(data, "items"), Arr([]))
  }

  /** One row per item, in item order; a missing item list gives no rows. */
  lemma ItemRowsOf(h: Host, data: Value)
    ensures ItemRows(h, data).Ok? ==>
              ItemList(data).Arr? && |ItemRows(h, data).value| == |ItemList(data).items|
              && forall i :: 0 <= i < |ItemList(data).items| ==>
                   ItemRow(h, ItemList(data).items[i]).Ok?
                   && ItemRows(h, data).value[i] == ItemRow(h, ItemList(data).items[i]).value
    ensures !Nullish(data) && !Truthy(Get(data, "items")) ==> ItemRows(h, data) == Ok([])
  {
    if ItemList(data).Arr? {
      MapROk(ItemList(data).items, (item, i) => ItemRow(h, item));
    }
  }

  /** The body of the ledger table: the first content node's `table.body`. */
  function Ledger(doc: Value): Value {
    var c := Get(doc, "content");
    if c.Arr? && |c.items| > 0 then Get(Get(c.items[0], "table"), "body") else Undef
  }

  lemma DocParts(data: Value, logo: Value, ledger: Value, styles: Value)
    ensures var doc := StatementDoc(data, logo, ledger, styles);
            Keys(doc.fields) == ["pageSize", "pageMargins", "header", "footer", "content", "styles"]
            && Get(doc, "pageSize") == Str("A4")
            && Get(doc, "header") == Fn(StatementHeader(data, logo))
            && Get(doc, "footer") == Fn(Const(Arr([])))
            && Get(doc, "content") == Arr([ledger])
            && Get(doc, "styles") == styles
  {
    var doc := StatementDoc(data, logo, ledger, styles);
    FieldOfAt(doc.fields, 2);
    FieldOfAt(doc.fields, 3);
    FieldOfAt(doc.fields, 4);
    FieldOfAt(doc.fields, 5);
  }

  lemma LedgerBody(body: seq<Value>)
    ensures Get(Get(LedgerTable(body), "table"), "body") == Arr(body)
  {
    FieldOfAt(LedgerTable(body).fields[0].value.fields, 2);
  }

  /** A successful build is the document over the item rows followed by the totals row. */
  lemma BuildValue(h: Host, io: ImageIo, data: Value, styles: Value)
    requires Build(h, io, data, styles).Ok?
    ensures ItemRows(h, data).Ok? && TotalsRow(h, data).Ok?
    ensures Build(h, io, data, styles).value
            == StatementDoc(data, Nullable(Logo(io, data)),
                            LedgerTable([TitleRow(h, data), HeaderRow()] + ItemRows(h, data).value + [TotalsRow(h, data).value]),
                            styles)
  {
  }

  /**
   * The ledger body is the title row, the header row, one row per item and
   * the totals row, so it has as many rows as items plus three.
   */
  lemma LedgerRows(h: Host, io: ImageIo, data: Value, styles: Value)
    requires Build(h, io, data, styles).Ok?
    ensures ItemList(data).Arr? && TotalsRow(h, data).Ok?
    ensures var body := Ledger(Build(h, io, data, styles).value);
            var items := ItemList(data).items;
            body.Arr? && |body.items| == |items| + 3
            && body.items[0] == TitleRow(h, data) && body.items[1] == HeaderRow()
            && body.items[|items| + 2] == TotalsRow(h, data).value
  {
    BuildValue(h, io, data, styles);
    var body := [TitleRow(h, data), HeaderRow()] + ItemRows(h, data).value + [TotalsRow(h, data).value];
    DocParts(data, Nullable(Logo(io, data)), LedgerTable(body), styles);
    LedgerBody(body);
    ItemRowsOf(h, data);
  }

  /** Row `i + 2` of the ledger is the row of item `i`. */
  lemma LedgerRow(h: Host, io: ImageIo, data: Value, styles: Value, i: nat)
    requires Build(h, io, data, styles).Ok? && ItemList(data).Arr? && i < |ItemList(data).items|
    ensures var body := Ledger(Build(h, io, data, styles).value);
            body.Arr? && i + 2 < |body.items|
            && ItemRow(h, ItemList(data).items[i]).Ok? && body.items[i + 2] == ItemRow(h, ItemList(data).items[i]).value
  {
    BuildValue(h, io, data, styles);
    var body := [TitleRow(h, data), HeaderRow()] + ItemRows(h, data).value + [TotalsRow(h, data).value];
    DocParts(data, Nullable(Logo(io, data)), LedgerTable(body), styles);
    LedgerBody(body);
    ItemRowsOf(h, data);
  }

  /** Without items the ledger is the title, header and totals rows only. */
  lemma EmptyLedger(h: Host, io: ImageIo, data: Value, styles: Value)
    requires Build(h, io, data, styles).Ok? && !Truthy(Get(data, "items"))
    ensures TotalsRow(h, data).Ok?
    ensures Ledger(Build(h, io, data, styles).value) == Arr([TitleRow(h, data), HeaderRow(), TotalsRow(h, data).value])
  {
    LedgerRows(h, io, data, styles);
    assert ItemList(data) == Arr([]);
    ThreeRows(Ledger(Build(h, io, data, styles).value).items, TitleRow(h, data), HeaderRow(), TotalsRow(h, data).value);
  }

  lemma ThreeRows(rows: seq<Value>, a: Value, b: Value, c: Value)
    requires |rows| == 3 && rows[0] == a && rows[1] == b && rows[2] == c
    ensures rows == [a, b, c]
  {
  }

  /** The title row spans all nine columns, padded by eight empty cells; the header row has nine cells. */
  lemma FixedRows(h: Host, data: Value)
    ensures |TitleRow(h, data).items| == 9 && Get(TitleRow(h, data).items[0], "colSpan") == Num(9.0)
    ensures forall j :: 1 <= j < 9 ==> TitleRow(h, data).items[j] == Obj([])
    ensures |HeaderRow().items| == 9
  {
    FieldOfAt(TitleRow(h, data).items[0].fields, 1);
  }

  /**
   * The definition holds page settings, a header closure over the payload
   * and the loaded logo, a blank footer, the ledger and the styles argument
   * unchanged.
   */
  lemma DocumentShape(h: Host, io: ImageIo, data: Value, styles: Value)
    requires Build(h, io, data, styles).Ok?
    ensures var doc := Build(h, io, data, styles).value;
            Keys(doc.fields) == ["pageSize", "pageMargins", "header", "footer", "content", "styles"]
            && Get(doc, "header") == Fn(StatementHeader(data, Nullable(Logo(io, data))))
            && Get(doc, "footer") == Fn(Const(Arr([])))
            && Get(doc, "styles") == styles
  {
    BuildValue(h, io, data, styles);
    var body := [TitleRow(h, data), HeaderRow()] + ItemRows(h, data).value + [TotalsRow(h, data).value];
    DocParts(data, Nullable(Logo(io, data)), LedgerTable(body), styles);
  }

  /** The single cell of the header box. */
  function HeaderCell(node: Value): Value {
    var body := Get(Get(node, "table"), "body");
    if body.Arr? && |body.items| > 0 && body.items[0].Arr? && |body.items[0].items| > 0 then body.items[0].items[0]
    else Undef
  }

  /** The header box has the company column and the logo column. */
  lemma HeaderBoxParts(h: Host, name: string, companyInfo: Value, logo: Value)
    ensures var cols := Get(HeaderCell(HeaderBox(h, name, companyInfo, logo)), "columns");
            cols.Arr? && |cols.items| == 2
            && Get(cols.items[0], "stack") == CompanyStack(h, name, companyInfo)
            && Get(cols.items[1], "stack") == Arr([LogoCell(logo)])
  {
    var box := HeaderBox(h, name, companyInfo, logo);
    FieldOfAt(box.fields, 1);
    FieldOfAt(box.fields[1].value.fields, 1);
    var cols := Get(HeaderCell(box), "columns");
    FieldOfAt(cols.items[0].fields, 2);
    FieldOfAt(cols.items[1].fields, 2);
  }

  /**
   * The header box lays its padding out top, bottom, left, right, all 8,
   * while the ledger's goes left, right (4), top, bottom (3).
   */
  lemma LayoutPaddingOrder(h: Host, name: string, companyInfo: Value, logo: Value)
    ensures Get(HeaderBox(h, name, companyInfo, logo), "layout") == HeaderLayout()
    ensures Keys(HeaderLayout().fields)[4..] == ["paddingTop", "paddingBottom", "paddingLeft", "paddingRight"]
    ensures forall i :: 4 <= i < 8 ==> HeaderLayout().fields[i].value == Fn(Const(Num(8.0)))
    ensures Keys(BoxLayout(0.5, 4.0, 3.0).fields)[4..] == ["paddingLeft", "paddingRight", "paddingTop", "paddingBottom"]
  {
    FieldOfAt(HeaderBox(h, name, companyInfo, logo).fields, 2);
  }

  /** The company column opens with the name it was given. */
  lemma CompanyNameFirst(h: Host, name: string, companyInfo: Value)
    ensures Get(CompanyStack(h, name, companyInfo).items[0], "text") == Str(name)
  {
  }

  /** The logo cell is the image exactly when the logo loaded, else empty text. */
  lemma LogoCellRule(logo: Value)
    ensures Truthy(logo) ==> Get(LogoCell(logo), "image") == logo && Keys(LogoCell(logo).fields)[0] == "image"
    ensures !Truthy(logo) ==> LogoCell(logo) == Obj([Field("text", Str(""))])
  {
  }

  /**
   * The header closure answers every page and page count alike: the box
   * with the upper-cased company name ('' when missing); it fails only on a
   * nullish payload or a company name that is not a string.
   */
  lemma HeaderEveryPage(h: Host, data: Value, logo: Value, page: nat, count: nat)
    ensures var name := Or(OptProp(Get(data, "companyInfo"), "name"), Str(""));
            HeaderAt(h, data, logo, page, count) == HeaderAt(h, data, logo, 1, 1)
            && (HeaderAt(h, data, logo, page, count).Ok? <==> !Nullish(data) && name.Str?)
            && (!Nullish(data) && name.Str? ==>
                  HeaderAt(h, data, logo, page, count) == Ok(HeaderBox(h, h.upper(name.s), Get(data, "companyInfo"), logo)))
            && (!Nullish(data) && !Truthy(OptProp(Get(data, "companyInfo"), "name")) ==>
                  HeaderAt(h, data, logo, page, count) == Ok(HeaderBox(h, h.upper(""), Get(data, "companyInfo"), logo)))
  {
  }

  /** The reads that must succeed, in the order the template makes them. */
  predicate Readable(h: Host, data: Value) {
    !Nullish(data)
    && ItemList(data).Arr?
    && (forall i :: 0 <= i < |ItemList(data).items| ==> ItemRow(h, ItemList(data).items[i]).Ok?)
    && SummaryTotal(data, "billTotal").Num? && SummaryTotal(data, "vatTotal").Num?
    && SummaryTotal(data, "grossTotal").Num?
  }

  /** The builder succeeds exactly on readable payloads. */
  lemma BuildSucceeds(h: Host, io: ImageIo, data: Value, styles: Value)
    ensures Build(h, io, data, styles).Ok? <==> Readable(h, data)
  {
    if ItemList(data).Arr? {
      MapROk(ItemList(data).items, (item, i) => ItemRow(h, item));
    }
    TotalsRowCells(h, data);
  }

  /**
   * A missing payload fails reading `items`; an item list that is truthy
   * but not an array fails calling `map`.
   */
  lemma BuildFirstErrors(h: Host, io: ImageIo, data: Value, styles: Value)
    ensures Nullish(data) ==> Build(h, io, data, styles) == Err(ReadError(data, "items"))
    ensures !Nullish(data) && !ItemList(data).Arr? ==>
              Build(h, io, data, styles) == Err(NotAFunction("(data.items || []).map"))
  {
    if !Nullish(data) && !ItemList(data).Arr? {
      assert Truthy(Get(data, "items"));
      assert "(data.items || [])" + ".map" == "(data.items || []).map";
      assert ItemRows(h, data) == Err(NotAFunction("(data.items || []).map"));
    }
  }
}
