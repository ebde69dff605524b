/**
 * The quotation template: an asynchronous builder that loads the company
 * logo, rewrites the payload's item list in place so that every item's
 * `image` is a data URL (or null), and returns a definition with a header on
 * the first page only, the client and quotation details, the items table,
 * the totals and the terms box.
 */
module Quotation {
  import opened Wrappers
  import opened JsValue
  import opened ImageHelper
  import opened CompanyLogo
  import opened Documents

  // ---- the item-image rewrite ----

  /** `item.image ? await ImageHelper.getImageDataUrl(item.image) : null` */
  function ItemImage(io: ImageIo, item: Value): Value {
    var image := Get(item, "image");
    if Truthy(image) then Nullable(GetImageDataUrl(io, image)) else Null
  }

  /** The own enumerable properties spreading `{...v}` copies, in order. */
  function SpreadFields(v: Value): seq<Field> {
    match v
    case Obj(fields) => fields
    case Arr(items) => seq(|items|, i requires 0 <= i < |items| => Field(NatStr(i), items[i]))
    case Str(s) => seq(|s|, i requires 0 <= i < |s| => Field(NatStr(i), Str([s[i]])))
    case _ => []
  }

  /** `{ ...item, image: ... }` for an item that is not null or undefined. */
  function RewrittenItem(io: ImageIo, item: Value): Value {
    Obj(Set(SpreadFields(item), "image", ItemImage(io, item)))
  }

  function RewrittenItems(io: ImageIo, items: seq<Value>): (r: seq<Value>)
    ensures |r| == |items|
    ensures forall i :: 0 <= i < |items| ==> r[i] == RewrittenItem(io, items[i])
  {
    seq(|items|, i requires 0 <= i < |items| => RewrittenItem(io, items[i]))
  }

  /**
   * The rewrite happens when `data.items` is an array whose every element
   * can be read; reading `image` of a null or undefined element rejects the
   * `Promise.all`, and the `catch` leaves the payload as it was.
   */
  predicate Rewritable(data: Value) {
    data.Obj? && Get(data, "items").Arr?
    && forall i :: 0 <= i < |Get(data, "items").items| ==> !Nullish(Get(data, "items").items[i])
  }

  /** The payload after the `try` block that processes the item images. */
  function Rewritten(io: ImageIo, data: Value): Value {
    if Rewritable(data) then Obj(Set(data.fields, "items", Arr(RewrittenItems(io, Get(data, "items").items))))
    else data
  }

  /** The rewrite on the caller's payload object, one item at a time. */
  method RewriteItems(io: ImageIo, data: DocumentRecord)
    modifies data
    ensures Obj(data.fields) == Rewritten(io, Obj(old(data.fields)))
  {
    var items := data.Lookup("items");
    if items.Arr? {
      var processed: seq<Value> := [];
      var failed := false;
      var i := 0;
      while i < |items.items| && !failed
        invariant 0 <= i <= |items.items|
        invariant !failed ==> processed == RewrittenItems(io, items.items[..i])
        invariant !failed ==> forall j :: 0 <= j < i ==> !Nullish(items.items[j])
        invariant failed ==> exists j :: 0 <= j < |items.items| && Nullish(items.items[j])
        decreases |items.items| - i, if failed then 0 else 1
      {
        var item := items.items[i];
        if Nullish(item) {
          failed := true;
        } else {
          processed := processed + [RewrittenItem(io, item)];
          i := i + 1;
        }
      }
      if !failed {
        assert items.items[..i] == items.items;
        data.Assign("items", Arr(processed));
      }
    }
  }

  // ---- first-page header ----

  function Border(left: bool, top: bool, right: bool, bottom: bool): Value {
    Arr([Bool(left), Bool(top), Bool(right), Bool(bottom)])
  }

  function Styled(text: Value, style: string): Value {
    Obj([Field("text", text), Field("style", Str(style))])
  }

  /** The company column: name, address, phone and email, '' when missing. */
  function CompanyCell(h: Host, info: Value): Value {
    Obj([Field("stack", Arr([
           Styled(Or(OptProp(info, "name"), Str("")), "companyName"),
           Styled(Or(OptProp(info, "address"), Str("")), "companyAddress"),
           Styled(Str("Phone: " + ToStr(h, Or(OptProp(info, "phone"), Str("")))), "companySmall"),
           Styled(Str("Email: " + ToStr(h, Or(OptProp(info, "email"), Str("")))), "companySmall")])),
         Field("border", Border(true, true, false, true))])
  }

  /** The logo column: the logo, a spacer and the TRN. */
  function LogoCell(h: Host, info: Value, logo: Value): Value {
    Obj([Field("stack", Arr([
           Obj([Field("image", logo), Field("width", Num(30.0)), Field("alignment", Str("center")),
                Field("margin", Margin(0.0, 0.0, 0.0, 0.0))]),
           Obj([Field("text", Str("")), Field("margin", Margin(0.0, 6.0, 0.0, 6.0))]),
           Obj([Field("text", Str("TRN " + ToStr(h, Or(OptProp(info, "trn"), Str(""))))),
                Field("alignment", Str("right")), Field("style", Str("companySmall"))])])),
         Field("border", Border(false, true, true, true))])
  }

  /** The document title spanning both columns. */
  function TitleCell(data: Value): Value {
    Obj([Field("colSpan", Num(2.0)), Field("text", Or(Get(data, "documentTitle"), Str("QUOTATION"))),
         Field("style", Str("documentTitle")), Field("alignment", Str("center")),
         Field("margin", Margin(0.0, 0.0, 0.0, 0.0))])
  }

  function HeaderBody(h: Host, data: Value, logo: Value): Value {
    var info := Get(data, "companyInfo");
    Arr([Arr([CompanyCell(h, info), LogoCell(h, info, logo)]), Arr([TitleCell(data), Obj([])])])
  }

  /** The company box, the logo box and the title row spanning both. */
  function HeaderBox(h: Host, data: Value, logo: Value): Value {
    Obj([
      Field("table", Obj([Field("widths", Arr([Str("70%"), Str("30%")])), Field("body", HeaderBody(h, data, logo))])),
      Field("layout", Obj([
        Field("hLineWidth", Fn(OuterLines(0.8, 0.5))), Field("vLineWidth", Fn(Const(Num(0.8)))),
        Field("hLineColor", Fn(Const(Str("#000")))),
        Field("paddingLeft", Fn(Const(Num(8.0)))), Field("paddingRight", Fn(Const(Num(8.0)))),
        Field("paddingTop", Fn(Const(Num(4.0)))), Field("paddingBottom", Fn(Const(Num(4.0))))])),
      Field("margin", Margin(40.0, 30.0, 40.0, 0.0))])
  }

  /** What the header closure returns for a page: the box on page 1, null on every other page. */
  function HeaderAt(h: Host, data: Value, logo: Value, page: nat, count: nat): Outcome<Value> {
    if page != 1 then Ok(Null)
    else if Nullish(data) then Err(ReadError(data, "companyInfo"))
    else Ok(HeaderBox(h, data, logo))
  }

  // ---- client and quotation details ----

  /** Table line callbacks: horizontal width, then constant vertical width and colours. */
  function Lines(hLine: Fun, vLine: real, color: string): seq<Field> {
    [Field("hLineWidth", Fn(hLine)), Field("vLineWidth", Fn(Const(Num(vLine)))),
     Field("hLineColor", Fn(Const(Str(color)))), Field("vLineColor", Fn(Const(Str(color))))]
  }

  function Padding(x: real, y: real): seq<Field> {
    [Field("paddingLeft", Fn(Const(Num(x)))), Field("paddingRight", Fn(Const(Num(x)))),
     Field("paddingTop", Fn(Const(Num(y)))), Field("paddingBottom", Fn(Const(Num(y))))]
  }

  const InfoKeys: seq<string> := ["number", "date", "terms", "currency", "salesman"]
  const InfoLabels: seq<string> := ["No:", "Date:", "Terms:", "Currency:", "S/Man:"]

  /** The default of each quotation detail: the currency is AED, every other detail ''. */
  function InfoDefault(j: nat): string {
    if j == 3 then "AED" else ""
  }

  /** The label-value lines of the quotation details. */
  function InfoRows(data: Value): (rows: seq<Value>)
    ensures |rows| == 5
    ensures forall j :: 0 <= j < 5 ==>
              rows[j] == Arr([Styled(Str(InfoLabels[j]), "infoText"),
                              Styled(Or(OptProp(Get(data, "quotationInfo"), InfoKeys[j]), Str(InfoDefault(j))), "infoText")])
  {
    seq(5, j requires 0 <= j < 5 =>
      Arr([Styled(Str(InfoLabels[j]), "infoText"),
           Styled(Or(OptProp(Get(data, "quotationInfo"), InfoKeys[j]), Str(InfoDefault(j))), "infoText")]))
  }

  function ClientCell(data: Value): Value {
    var client := Get(data, "clientInfo");
    Obj([Field("stack", Arr([Styled(Str("M/S"), "infoText"),
                             Styled(Or(OptProp(client, "name"), Str("")), "infoText"),
                             Styled(Or(OptProp(client, "address"), Str("")), "infoText")])),
         Field("border", Border(true, true, false, true)), Field("margin", Margin(6.0, 0.0, 6.0, 0.0))])
  }

  function DetailsCell(data: Value): Value {
    Obj([Field("table", Obj([Field("widths", Arr([Num(60.0), Str("*")])), Field("body", Arr(InfoRows(data)))])),
         Field("layout", Str("noBorders")), Field("border", Border(false, true, true, true)),
         Field("margin", Margin(6.0, 0.0, 6.0, 0.0))])
  }

  function InfoBlock(data: Value): Value {
    Obj([Field("table", Obj([Field("widths", Arr([Str("50%"), Str("50%")])),
                             Field("body", Arr([Arr([ClientCell(data), DetailsCell(data)])]))])),
         Field("layout", Obj(Lines(Const(Num(0.8)), 0.8, "#000") + Padding(4.0, 3.0))),
         Field("margin", Margin(0.0, 0.0, 0.0, 0.0))])
  }

  // ---- items table ----

  function HeadCell(text: string): Value {
    Styled(Str(text), "tableHeader")
  }

  function ItemsHeader(): Value {
    Arr([HeadCell("Sno"), HeadCell("Image"), HeadCell("Item"), HeadCell("Qty"), HeadCell("Price (AED)"),
         HeadCell("Amount")])
  }

  /** The image cell: the item's image when truthy, else empty text. */
  function ImageCell(image: Value): Value {
    if Truthy(image) then Obj([Field("image", image), Field("width", Num(40.0)), Field("height", Num(40.0))])
    else Obj([Field("text", Str("")), Field("fontSize", Num(9.0))])
  }

  function SmallCell(text: Value, alignment: Option<string>): Value {
    match alignment
    case None => Obj([Field("text", text), Field("fontSize", Num(9.0))])
    case Some(a) => Obj([Field("text", text), Field("fontSize", Num(9.0)), Field("alignment", Str(a))])
  }

  /** The `map` callback for item `i`: serial number, image, description, quantity, price and amount. */
  function ItemRow(h: Host, item: Value, i: nat): Outcome<Value> {
    var image :- Prop(item, "image");
    var price :- ToFixed(h, Get(item, "price"), 2, "item.price");
    var amount :- ToFixed(h, Get(item, "amount"), 2, "item.amount");
    Ok(Arr([SmallCell(Num((i + 1) as real), None), ImageCell(image), SmallCell(Get(item, "description"), None),
            SmallCell(Get(item, "qty"), Some("center")), SmallCell(price, Some("right")),
            SmallCell(amount, Some("right"))]))
  }

  function ItemRows(h: Host, items: Value): Outcome<seq<Value>> {
    var xs :- ItemsOf(items, "data.items");
    MapR(xs, (item, i) => ItemRow(h, item, i))
  }

  function ItemsBlock(rows: seq<Value>): Value {
    Obj([Field("table", Obj([
           Field("headerRows", Num(1.0)),
           Field("widths", Arr([Str("auto"), Str("auto"), Str("*"), Str("auto"), Str("auto"), Str("auto")])),
           Field("body", Arr([ItemsHeader()] + rows))])),
         Field("layout", Obj(Lines(Const(Num(0.5)), 0.5, "black")))])
  }

  // ---- totals ----

  /** `data.summary?.<key>.toFixed(2)`: undefined when there is no summary. */
  function SummaryFixed(h: Host, data: Value, key: string): Outcome<Value> {
    OptToFixed(h, Get(data, "summary"), key, 2, "data.summary?." + key)
  }

  function TotalsLine(caption: string, labelStyle: string, labelBorder: Value, value: Value, valueStyle: string): Value {
    Arr([Obj([Field("text", Str(caption)), Field("alignment", Str("right")), Field("style", Str(labelStyle)),
              Field("border", labelBorder)]),
         Obj([Field("text", value), Field("alignment", Str("right")), Field("style", Str(valueStyle)),
              Field("border", Border(true, true, true, true))])])
  }

  function TotalsBlock(total: Value, vat: Value, net: Value): Value {
    Obj([Field("table", Obj([
           Field("widths", Arr([Str("*"), Str("auto")])),
           Field("body", Arr([
             TotalsLine("Total Amount in AED", "totalsLabelBold", Border(true, true, false, true), total, "totalsValue"),
             TotalsLine("VAT @ 5%", "totalsLabel", Border(true, false, false, true), vat, "totalsValue"),
             TotalsLine("Net Amount", "totalsLabelBold", Border(true, false, false, true), net, "totalsValueBold")]))])),
         Field("layout", Obj(Lines(Const(Num(0.8)), 0.8, "#000"))),
         Field("margin", Margin(0.0, 0.0, 0.0, 0.0))])
  }

  // ---- terms and contact box ----

  function TermLine(t: Value): Value {
    Styled(t, "infoText")
  }

  /** `data.terms.map(t => ({ text: t, style: "infoText" }))` */
  function TermLines(terms: Value): (r: Outcome<seq<Value>>)
    ensures r.Ok? <==> terms.Arr?
    ensures r.Ok? ==> |r.value| == |terms.items| && forall i :: 0 <= i < |terms.items| ==> r.value[i] == TermLine(terms.items[i])
  {
    var xs :- ItemsOf(terms, "data.terms");
    Ok(seq(|xs|, i requires 0 <= i < |xs| => TermLine(xs[i])))
  }

  function ContactLine(text: Value): Value {
    Obj([Field("text", text), Field("style", Str("infoText")), Field("bold", Bool(true))])
  }

  function TermsHeading(): Value {
    Obj([Field("text", Str("Terms & Conditions:")), Field("style", Str("totalsLabelBold")),
         Field("margin", Margin(0.0, 5.0, 0.0, 3.0)), Field("decoration", Str("underline"))])
  }

  /** The heading, one line per term, a spacer and the contact lines. */
  function TermsStack(h: Host, data: Value, lines: seq<Value>): seq<Value> {
    var footer := Get(data, "footer");
    [TermsHeading()] + lines
    + [Obj([Field("text", Str("")), Field("margin", Margin(0.0, 8.0, 0.0, 8.0))]),
       Obj([Field("text", Str("For " + ToStr(h, OptProp(Get(data, "companyInfo"), "name")))),
            Field("style", Str("infoText")), Field("margin", Margin(0.0, 5.0, 0.0, 2.0)), Field("bold", Bool(true))]),
       ContactLine(Or(OptProp(footer, "contactPerson"), Str(""))),
       ContactLine(Or(OptProp(footer, "phone"), Str(""))),
       ContactLine(Or(OptProp(footer, "business"), Str("Business Solutions")))]
  }

  function TermsBlock(stack: seq<Value>): Value {
    Obj([Field("table", Obj([
           Field("widths", Arr([Str("*")])),
           Field("body", Arr([Arr([Obj([Field("stack", Arr(stack)), Field("margin", Margin(8.0, 6.0, 8.0, 6.0))])])]))])),
         Field("layout", Obj(Lines(FirstLine(0.8, 0.8), 0.8, "#000") + Padding(6.0, 4.0))),
         Field("margin", Margin(0.0, 0.0, 0.0, 0.0))])
  }

  // ---- the definition ----

  function QuotationDoc(data: Value, logo: Value, info: Value, items: Value, totals: Value, terms: Value,
                        styles: Value): Value
  {
    Obj([
      Field("pageSize", Str("A4")),
      Field("pageMargins", Margin(40.0, 107.8, 40.0, 50.0)),
      Field("header", Fn(QuotationHeader(data, logo))),
      Field("content", Arr([info, items, totals, terms])),
      Field("styles", styles)])
  }

  /**
   * The object literal the template returns, over the payload as the item
   * rewrite left it and the loaded logo: reading `clientInfo` is the first
   * read that can throw, then the item rows, the totals and the terms.
   */
  function Definition(h: Host, data: Value, logo: Value, styles: Value): (r: Outcome<Value>)
    ensures r.Ok? ==> r.value.Obj?
  {
    var _ :- Prop(data, "clientInfo");
    var rows :- ItemRows(h, Get(data, "items"));
    var total :- SummaryFixed(h, data, "totalAmount");
    var vat :- SummaryFixed(h, data, "vatAmount");
    var net :- SummaryFixed(h, data, "netAmount");
    var lines :- TermLines(Get(data, "terms"));
    Ok(QuotationDoc(data, logo, InfoBlock(data), ItemsBlock(rows), TotalsBlock(total, vat, net),
                    TermsBlock(TermsStack(h, data, lines)), styles))
  }

  /** The template's default export, once its promise settles: load the logo, rewrite the items, build. */
  function Build(h: Host, io: ImageIo, data: Value, styles: Value): (r: Outcome<Value>)
    ensures r.Ok? ==> r.value.Obj?
  {
    Definition(h, Rewritten(io, data), Nullable(Logo(io, data)), styles)
  }

  // ---- properties of the rewrite ----

  /**
   * An item's new image is null exactly when loading its old image gave
   * nothing (a falsy image is never loaded), and otherwise the data URL
   * loaded from it.
   */
  lemma ItemImageRule(io: ImageIo, item: Value)
    ensures !Truthy(Get(item, "image")) ==> ItemImage(io, item) == Null
    ensures GetImageDataUrl(io, Get(item, "image")).None? ==> ItemImage(io, item) == Null
    ensures GetImageDataUrl(io, Get(item, "image")).Some? ==>
              ItemImage(io, item) == Str(GetImageDataUrl(io, Get(item, "image")).value)
              && StartsWith(ItemImage(io, item).s, "data:")
  {
    ImageResultIsDataUrl(io, Get(item, "image"));
  }

  /**
   * A rewritten item's image is the one loaded for it; an object item also
   * keeps every other property and its key order.
   */
  lemma RewrittenItemFields(io: ImageIo, item: Value)
    ensures Get(RewrittenItem(io, item), "image") == ItemImage(io, item)
    ensures item.Obj? ==>
              Keys(RewrittenItem(io, item).fields) == NoteKey(Keys(item.fields), "image")
              && forall k :: k != "image" ==> Get(RewrittenItem(io, item), k) == Get(item, k)
  {
    SetFacts(SpreadFields(item), "image", ItemImage(io, item));
  }

  /**
   * The rewrite replaces `items` by one rewritten item per item, in order,
   * and leaves every other property of the payload and the key order alone;
   * a payload it cannot rewrite is returned as it was.
   */
  lemma RewriteShape(io: ImageIo, data: Value)
    ensures !Rewritable(data) ==> Rewritten(io, data) == data
    ensures Rewritable(data) ==>
              var r := Rewritten(io, data);
              var items := Get(data, "items").items;
              r.Obj? && Keys(r.fields) == Keys(data.fields)
              && Get(r, "items").Arr? && |Get(r, "items").items| == |items|
              && (forall i :: 0 <= i < |items| ==> Get(r, "items").items[i] == RewrittenItem(io, items[i]))
              && forall k :: k != "items" ==> Get(r, k) == Get(data, k)
  {
    if Rewritable(data) {
      SetFacts(data.fields, "items", Arr(RewrittenItems(io, Get(data, "items").items)));
      FieldOfPresent(data.fields, "items");
    }
  }

  // ---- properties of the header ----

  /** The body of a node's table. */
  function TableBody(node: Value): Value {
    Get(Get(node, "table"), "body")
  }

  /** The header box's table holds the company and logo columns over the title row. */
  lemma HeaderBoxBody(h: Host, data: Value, logo: Value)
    ensures TableBody(HeaderBox(h, data, logo)) == HeaderBody(h, data, logo)
  {
    FieldOfAt(HeaderBox(h, data, logo).fields[0].value.fields, 1);
  }

  /** The title spans both columns and is the document title, QUOTATION by default. */
  lemma TitleCellRule(data: Value)
    ensures Get(TitleCell(data), "colSpan") == Num(2.0)
    ensures Truthy(Get(data, "documentTitle")) ==> Get(TitleCell(data), "text") == Get(data, "documentTitle")
    ensures !Truthy(Get(data, "documentTitle")) ==> Get(TitleCell(data), "text") == Str("QUOTATION")
  {
    FieldOfAt(TitleCell(data).fields, 1);
  }

  /**
   * The company column opens with the company name ('' when missing) and
   * the logo column with the loaded logo.
   */
  lemma HeaderColumns(h: Host, info: Value, logo: Value)
    ensures var company := Get(CompanyCell(h, info), "stack");
            company.Arr? && |company.items| == 4
            && Get(company.items[0], "text") == Or(OptProp(info, "name"), Str(""))
    ensures var side := Get(LogoCell(h, info, logo), "stack");
            side.Arr? && |side.items| == 3 && Get(side.items[0], "image") == logo
  {
  }

  /** The header closure draws the box on the first page only and is null on every other page. */
  lemma HeaderFirstPageOnly(h: Host, data: Value, logo: Value, page: nat, count: nat)
    ensures page != 1 ==> HeaderAt(h, data, logo, page, count) == Ok(Null)
    ensures page == 1 ==> (HeaderAt(h, data, logo, page, count).Ok? <==> !Nullish(data))
    ensures page == 1 && !Nullish(data) ==> HeaderAt(h, data, logo, page, count) == Ok(HeaderBox(h, data, logo))
    ensures page == 1 && Nullish(data) ==> HeaderAt(h, data, logo, page, count) == Err(ReadError(data, "companyInfo"))
  {
  }

  // ---- properties of the content blocks ----

  /**
   * The quotation details list their labels in order, each value being the
   * detail when truthy and otherwise its default: AED for the currency, ''
   * for the others.
   */
  lemma InfoDefaults(data: Value, j: nat)
    requires j < 5
    ensures var row := InfoRows(data)[j];
            var v := OptProp(Get(data, "quotationInfo"), InfoKeys[j]);
            row.Arr? && |row.items| == 2
            && Get(row.items[0], "text") == Str(InfoLabels[j])
            && (Truthy(v) ==> Get(row.items[1], "text") == v)
            && (!Truthy(v) ==> Get(row.items[1], "text") == Str(if InfoKeys[j] == "currency" then "AED" else ""))
  {
  }

  /** An item the row callback can read: not null or undefined, with a numeric price and amount. */
  predicate ItemReadable(item: Value) {
    !Nullish(item) && Get(item, "price").Num? && Get(item, "amount").Num?
  }

  /**
   * An item row exists when the item can be read and its price and amount
   * are numbers; it has six cells, numbered from 1, with the image cell and
   * the two-decimal price and amount.
   */
  lemma ItemRowRule(h: Host, item: Value, i: nat)
    ensures ItemRow(h, item, i).Ok? <==> ItemReadable(item)
    ensures ItemRow(h, item, i).Ok? ==>
              var cells := ItemRow(h, item, i).value;
              cells.Arr? && |cells.items| == 6
              && Get(cells.items[0], "text") == Num((i + 1) as real)
              && cells.items[1] == ImageCell(Get(item, "image"))
              && Get(cells.items[4], "text") == Str(h.fixed(Get(item, "price").n, 2))
              && Get(cells.items[5], "text") == Str(h.fixed(Get(item, "amount").n, 2))
  {
  }

  /** A truthy image is shown 40 by 40; any other value leaves the cell blank. */
  lemma ImageCellRule(image: Value)
    ensures Truthy(image) ==> Get(ImageCell(image), "image") == image
                              && Get(ImageCell(image), "width") == Num(40.0)
                              && Get(ImageCell(image), "height") == Num(40.0)
    ensures !Truthy(image) ==> ImageCell(image) == Obj([Field("text", Str("")), Field("fontSize", Num(9.0))])
  {
    if Truthy(image) {
      FieldOfAt(ImageCell(image).fields, 1);
      FieldOfAt(ImageCell(image).fields, 2);
    }
  }

  /** The items table is the header row followed by the rows it was given. */
  lemma ItemsBlockBody(rows: seq<Value>)
    ensures TableBody(ItemsBlock(rows)) == Arr([ItemsHeader()] + rows)
    ensures |ItemsHeader().items| == 6
  {
    FieldOfAt(ItemsBlock(rows).fields[0].value.fields, 2);
  }

  /**
   * The terms box: the heading, one line per term, a spacer, "For" and the
   * company name ("For undefined" without company details), and the contact
   * lines, the business line defaulting to Business Solutions.
   */
  lemma TermsStackShape(h: Host, data: Value, lines: seq<Value>)
    ensures |TermsStack(h, data, lines)| == |lines| + 6
    ensures var s := TermsStack(h, data, lines);
            s[0] == TermsHeading()
            && (forall i :: 0 <= i < |lines| ==> s[i + 1] == lines[i])
            && Get(s[|lines| + 2], "text") == Str("For " + ToStr(h, OptProp(Get(data, "companyInfo"), "name")))
            && (Nullish(Get(data, "companyInfo")) ==> Get(s[|lines| + 2], "text") == Str("For undefined"))
            && (!Truthy(OptProp(Get(data, "footer"), "business")) ==>
                  Get(s[|lines| + 5], "text") == Str("Business Solutions"))
  {
  }

  /** The terms box is one cell holding the stack it was given. */
  lemma TermsBlockStack(stack: seq<Value>)
    ensures var body := TableBody(TermsBlock(stack));
            body.Arr? && |body.items| == 1 && body.items[0].Arr? && |body.items[0].items| == 1
            && Get(body.items[0].items[0], "stack") == Arr(stack)
  {
    FieldOfAt(TermsBlock(stack).fields[0].value.fields, 1);
  }

  // ---- properties of the definition ----

  /** The `k`-th block of a definition's content, undefined past its end. */
  function Block(doc: Value, k: nat): Value {
    var content := Get(doc, "content");
    if content.Arr? && k < |content.items| then content.items[k] else Undef
  }

  lemma DocParts(data: Value, logo: Value, info: Value, items: Value, totals: Value, terms: Value, styles: Value)
    ensures var doc := QuotationDoc(data, logo, info, items, totals, terms, styles);
            Keys(doc.fields) == ["pageSize", "pageMargins", "header", "content", "styles"]
            && Get(doc, "pageSize") == Str("A4")
            && Get(doc, "header") == Fn(QuotationHeader(data, logo))
            && Block(doc, 0) == info && Block(doc, 1) == items && Block(doc, 2) == totals && Block(doc, 3) == terms
            && Get(doc, "styles") == styles
  {
    var doc := QuotationDoc(data, logo, info, items, totals, terms, styles);
    FieldOfAt(doc.fields, 2);
    FieldOfAt(doc.fields, 3);
    FieldOfAt(doc.fields, 4);
  }

  /** A successful definition is the document over its computed parts. */
  lemma DefinitionValue(h: Host, data: Value, logo: Value, styles: Value)
    requires Definition(h, data, logo, styles).Ok?
    ensures ItemRows(h, Get(data, "items")).Ok? && TermLines(Get(data, "terms")).Ok?
            && SummaryFixed(h, data, "totalAmount").Ok? && SummaryFixed(h, data, "vatAmount").Ok?
            && SummaryFixed(h, data, "netAmount").Ok?
            && Definition(h, data, logo, styles).value
               == QuotationDoc(data, logo, InfoBlock(data), ItemsBlock(ItemRows(h, Get(data, "items")).value),
                               TotalsBlock(SummaryFixed(h, data, "totalAmount").value,
                                           SummaryFixed(h, data, "vatAmount").value,
                                           SummaryFixed(h, data, "netAmount").value),
                               TermsBlock(TermsStack(h, data, TermLines(Get(data, "terms")).value)), styles)
  {
  }

  /** The rows of an item list, one per item in order. */
  lemma ItemRowsOf(h: Host, items: Value)
    requires ItemRows(h, items).Ok?
    ensures items.Arr? && |ItemRows(h, items).value| == |items.items|
    ensures forall i :: 0 <= i < |items.items| ==>
              ItemRow(h, items.items[i], i).Ok? && ItemRows(h, items).value[i] == ItemRow(h, items.items[i], i).value
  {
    MapROk(items.items, (item, i) => ItemRow(h, item, i));
  }

  /** The second block of a definition is the items table over its item rows. */
  lemma ItemsBlockOf(h: Host, data: Value, logo: Value, styles: Value)
    requires Definition(h, data, logo, styles).Ok?
    ensures ItemRows(h, Get(data, "items")).Ok?
    ensures Block(Definition(h, data, logo, styles).value, 1) == ItemsBlock(ItemRows(h, Get(data, "items")).value)
  {
    DefinitionValue(h, data, logo, styles);
    DocParts(data, logo, InfoBlock(data), ItemsBlock(ItemRows(h, Get(data, "items")).value),
             TotalsBlock(SummaryFixed(h, data, "totalAmount").value, SummaryFixed(h, data, "vatAmount").value,
                         SummaryFixed(h, data, "netAmount").value),
             TermsBlock(TermsStack(h, data, TermLines(Get(data, "terms")).value)), styles);
  }

  /** The items table over a payload's item rows opens with the header row, then one row per item. */
  lemma ItemsTableRows(h: Host, items: Value)
    requires ItemRows(h, items).Ok?
    ensures items.Arr?
    ensures var body := TableBody(ItemsBlock(ItemRows(h, items).value));
            body.Arr? && |body.items| == |items.items| + 1 && body.items[0] == ItemsHeader()
  {
    ItemsBlockBody(ItemRows(h, items).value);
    ItemRowsOf(h, items);
  }

  /** Row `i + 1` of the items table is the row of item `i`. */
  lemma ItemsTableRow(h: Host, items: Value, i: nat)
    requires ItemRows(h, items).Ok? && items.Arr? && i < |items.items|
    ensures var body := TableBody(ItemsBlock(ItemRows(h, items).value));
            body.Arr? && i + 1 < |body.items|
            && ItemRow(h, items.items[i], i).Ok? && body.items[i + 1] == ItemRow(h, items.items[i], i).value
  {
    ItemsBlockBody(ItemRows(h, items).value);
    ItemRowsOf(h, items);
  }

  /** The fourth block is the terms box over the payload's terms. */
  lemma TermsBlockOf(h: Host, data: Value, logo: Value, styles: Value)
    requires Definition(h, data, logo, styles).Ok?
    ensures TermLines(Get(data, "terms")).Ok?
    ensures Block(Definition(h, data, logo, styles).value, 3)
            == TermsBlock(TermsStack(h, data, TermLines(Get(data, "terms")).value))
  {
    DefinitionValue(h, data, logo, styles);
    DocParts(data, logo, InfoBlock(data), ItemsBlock(ItemRows(h, Get(data, "items")).value),
             TotalsBlock(SummaryFixed(h, data, "totalAmount").value, SummaryFixed(h, data, "vatAmount").value,
                         SummaryFixed(h, data, "netAmount").value),
             TermsBlock(TermsStack(h, data, TermLines(Get(data, "terms")).value)), styles);
  }

  /** The terms box lists one line per term of the payload, in order, after the heading. */
  lemma TermsOfDocument(h: Host, data: Value, logo: Value, styles: Value)
    requires Definition(h, data, logo, styles).Ok?
    ensures Get(data, "terms").Arr?
    ensures var body := TableBody(Block(Definition(h, data, logo, styles).value, 3));
            var terms := Get(data, "terms").items;
            body.Arr? && |body.items| == 1 && body.items[0].Arr? && |body.items[0].items| == 1
            && var stack := Get(body.items[0].items[0], "stack");
               stack.Arr? && |stack.items| == |terms| + 6 && stack.items[0] == TermsHeading()
               && forall i :: 0 <= i < |terms| ==> stack.items[i + 1] == TermLine(terms[i])
  {
    TermsBlockOf(h, data, logo, styles);
    var lines := TermLines(Get(data, "terms")).value;
    TermsBlockStack(TermsStack(h, data, lines));
    TermsStackShape(h, data, lines);
  }

  /** A build is the definition over the rewritten payload, with the header closure over both. */
  lemma BuildDocument(h: Host, io: ImageIo, data: Value, styles: Value)
    requires Build(h, io, data, styles).Ok?
    ensures var doc := Build(h, io, data, styles).value;
            doc.Obj? && Keys(doc.fields) == ["pageSize", "pageMargins", "header", "content", "styles"]
            && Get(doc, "header") == Fn(QuotationHeader(Rewritten(io, data), Nullable(Logo(io, data))))
            && Get(doc, "styles") == styles
  {
    var p := Rewritten(io, data);
    var logo := Nullable(Logo(io, data));
    DefinitionValue(h, p, logo, styles);
    DocParts(p, logo, InfoBlock(p), ItemsBlock(ItemRows(h, Get(p, "items")).value),
             TotalsBlock(SummaryFixed(h, p, "totalAmount").value, SummaryFixed(h, p, "vatAmount").value,
                         SummaryFixed(h, p, "netAmount").value),
             TermsBlock(TermsStack(h, p, TermLines(Get(p, "terms")).value)), styles);
  }

  /**
   * The row of a rewritten item shows in its image cell the data URL loaded
   * for the item, or is blank when nothing loaded.
   */
  lemma RowImage(h: Host, io: ImageIo, item: Value, i: nat)
    requires ItemRow(h, RewrittenItem(io, item), i).Ok?
    ensures var cells := ItemRow(h, RewrittenItem(io, item), i).value;
            var loaded := GetImageDataUrl(io, Get(item, "image"));
            cells.Arr? && |cells.items| == 6
            && (loaded.None? ==> cells.items[1] == ImageCell(Null))
            && (loaded.Some? ==> Get(cells.items[1], "image") == Str(loaded.value))
  {
    RewrittenItemFields(io, item);
    ItemImageRule(io, item);
    ItemRowRule(h, RewrittenItem(io, item), i);
    ImageCellRule(ItemImage(io, item));
  }

  /**
   * When the payload was rewritten, row `i + 1` of its items table is the
   * row of item `i` after the rewrite.
   */
  lemma RewrittenRow(h: Host, io: ImageIo, data: Value, i: nat)
    requires Rewritable(data) && i < |Get(data, "items").items|
    requires ItemRows(h, Get(Rewritten(io, data), "items")).Ok?
    ensures var body := TableBody(ItemsBlock(ItemRows(h, Get(Rewritten(io, data), "items")).value));
            var r := RewrittenItem(io, Get(data, "items").items[i]);
            body.Arr? && i + 1 < |body.items| && ItemRow(h, r, i).Ok? && body.items[i + 1] == ItemRow(h, r, i).value
  {
    RewriteShape(io, data);
    ItemsTableRow(h, Get(Rewritten(io, data), "items"), i);
  }

  /** A summary total that can be printed: no summary at all, or a number. */
  predicate SummaryReadable(data: Value, key: string) {
    Nullish(Get(data, "summary")) || Get(Get(data, "summary"), key).Num?
  }

  /** An item list the table can be built from: an array of readable items. */
  predicate ItemsReadable(items: Value) {
    items.Arr? && forall i :: 0 <= i < |items.items| ==> ItemReadable(items.items[i])
  }

  /** The item rows exist exactly for an array of readable items. */
  lemma ItemRowsOk(h: Host, items: Value)
    ensures ItemRows(h, items).Ok? <==> ItemsReadable(items)
  {
    if items.Arr? {
      MapROk(items.items, (item, i) => ItemRow(h, item, i));
      forall i | 0 <= i < |items.items| ensures ItemRow(h, items.items[i], i).Ok? <==> ItemReadable(items.items[i]) {
        ItemRowRule(h, items.items[i], i);
      }
    }
  }

  /** The reads that must succeed on the payload, in the order the definition makes them. */
  predicate Readable(data: Value) {
    !Nullish(data) && ItemsReadable(Get(data, "items"))
    && SummaryReadable(data, "totalAmount") && SummaryReadable(data, "vatAmount")
    && SummaryReadable(data, "netAmount")
    && Get(data, "terms").Arr?
  }

  lemma DefinitionSucceeds(h: Host, data: Value, logo: Value, styles: Value)
    ensures Definition(h, data, logo, styles).Ok? <==> Readable(data)
  {
    ItemRowsOk(h, Get(data, "items"));
  }

  /** A build succeeds exactly when the rewritten payload can be read throughout. */
  lemma BuildSucceeds(h: Host, io: ImageIo, data: Value, styles: Value)
    ensures Build(h, io, data, styles).Ok? <==> Readable(Rewritten(io, data))
  {
    DefinitionSucceeds(h, Rewritten(io, data), Nullable(Logo(io, data)), styles);
  }

  /**
   * The first failing read decides the error: reading `clientInfo` of a null
   * or undefined payload, then calling `map` on items that are not an array
   * (which the rewrite leaves as they were).
   */
  lemma BuildFirstErrors(h: Host, io: ImageIo, data: Value, styles: Value)
    ensures Nullish(data) ==> Build(h, io, data, styles) == Err(ReadError(data, "clientInfo"))
    ensures !Nullish(data) && Nullish(Get(data, "items")) ==>
              Build(h, io, data, styles) == Err(ReadError(Get(data, "items"), "map"))
    ensures !Nullish(data) && !Nullish(Get(data, "items")) && !Get(data, "items").Arr? ==>
              Build(h, io, data, styles) == Err(NotAFunction("data.items.map"))
  {
    RewriteShape(io, data);
    assert "data.items" + ".map" == "data.items.map";
  }
}
