/**
 * `PdfService`, the generator driven by template modules: `generatePdf(name,
 * data)` loads `templates/<name>.js`, calls its default export with the
 * payload and the service's default styles, overwrites the page furniture
 * with `addCommonElements`, renders, names the output after
 * `data.documentNumber` and resolves with the collected buffer, its base64
 * form and the output path.  A failure up to the start of rendering is
 * rethrown as "Failed to generate PDF: <message>".
 */
module PdfService {
  import opened Wrappers
  import opened JsValue
  import opened Base64
  import opened Documents
  import opened PdfGenerator
  import ImageHelper
  import Invoice
  import StatementOfAccount
  import Quotation
  import PurchaseOrder
  import Generators

  // ---- the template modules ----

  /** The four modules under `templates/`; only `invoice` exports a plain function, the others are `async`. */
  datatype TemplateModule = InvoiceTemplate | StatementTemplate | QuotationTemplate | PurchaseOrderTemplate

  /** The file name a module is imported by. */
  function ModuleName(t: TemplateModule): string {
    match t
    case InvoiceTemplate => "invoice"
    case StatementTemplate => "statementOfAccount"
    case QuotationTemplate => "quotation"
    case PurchaseOrderTemplate => "purchaseOrder"
  }

  /** `import(`../templates/${name}.js`)`: the module of that name, if there is one. */
  function TemplateNamed(name: string): (t: Option<TemplateModule>)
    ensures t.Some? ==> ModuleName(t.value) == name
  {
    if name == "invoice" then Some(InvoiceTemplate)
    else if name == "statementOfAccount" then Some(StatementTemplate)
    else if name == "quotation" then Some(QuotationTemplate)
    else if name == "purchaseOrder" then Some(PurchaseOrderTemplate)
    else None
  }

  /** Every module is found under its own name, and only the four names load a module. */
  lemma TemplateNames(t: TemplateModule, name: string)
    ensures TemplateNamed(ModuleName(t)) == Some(t)
    ensures TemplateNamed(name).Some? <==>
              name in ["invoice", "statementOfAccount", "quotation", "purchaseOrder"]
  {
  }

  /** What calling a default export gives back: the definition's fields, or a promise settling with them. */
  datatype TemplateResult = Returned(r: Outcome<seq<Field>>) | Promised(p: Outcome<seq<Field>>)

  /** The properties of a built definition; templates build object literals. */
  function Fields(o: Outcome<Value>): (r: Outcome<seq<Field>>)
    requires o.Ok? ==> o.value.Obj?
    ensures r.Err? <==> o.Err?
    ensures r.Ok? ==> o.value == Obj(r.value)
    ensures r.Err? ==> r.error == o.error
  {
    match o
    case Ok(v) => Ok(v.fields)
    case Err(e) => Err(e)
  }

  /** `template.default(data, styles)`: a synchronous throw for `invoice`, a settled promise for the rest. */
  function RunTemplate(h: Host, io: ImageHelper.ImageIo, t: TemplateModule, data: Value, styles: Value)
    : (r: TemplateResult)
    ensures r.Returned? <==> t.InvoiceTemplate?
  {
    match t
    case InvoiceTemplate => Returned(Fields(Invoice.Build(h, data, styles)))
    case StatementTemplate => Promised(Fields(StatementOfAccount.Build(h, io, data, styles)))
    case QuotationTemplate => Promised(Fields(Quotation.Build(h, io, data, styles)))
    case PurchaseOrderTemplate => Promised(Fields(PurchaseOrder.Build(h, io, data, styles)))
  }

  /**
   * The definition `addCommonElements` receives when the call is not awaited:
   * a synchronous result as it is, and for a promise the promise object
   * itself, which has no own properties.  What the promise settles with is
   * never looked at.
   */
  function DefinitionAsWritten(t: TemplateResult): (r: Outcome<seq<Field>>)
    ensures t.Returned? ==> r == t.r
    ensures t.Promised? ==> r == Ok([])
  {
    match t
    case Returned(r) => r
    case Promised(_) => Ok([])
  }

  /** The definition once the call is awaited: what the template built, or what it threw. */
  function Definition(t: TemplateResult): (r: Outcome<seq<Field>>)
    ensures r == (if t.Returned? then t.r else t.p)
  {
    match t
    case Returned(r) => r
    case Promised(p) => p
  }

  // ---- the service's own definitions ----

  /** The styles the constructor passes to every template. */
  function DefaultStyles(): Value {
    Obj([
      Field("header", Obj([Field("fontSize", Num(18.0)), Field("bold", Bool(true)),
                           Field("margin", Margin(0.0, 0.0, 0.0, 10.0))])),
      Field("subheader", Obj([Field("fontSize", Num(14.0)), Field("bold", Bool(true)),
                              Field("margin", Margin(0.0, 10.0, 0.0, 5.0))])),
      Field("tableHeader", Obj([Field("bold", Bool(true)), Field("fontSize", Num(12.0)),
                                Field("color", Str("black"))]))])
  }

  /** The default styles name exactly three styles, all bold, at 18, 14 and 12 points. */
  lemma DefaultStylesEntries()
    ensures DefaultStyles().Obj? && Keys(DefaultStyles().fields) == ["header", "subheader", "tableHeader"]
    ensures Get(Get(DefaultStyles(), "header"), "fontSize") == Num(18.0)
    ensures Get(Get(DefaultStyles(), "subheader"), "fontSize") == Num(14.0)
    ensures Get(Get(DefaultStyles(), "tableHeader"), "fontSize") == Num(12.0)
    ensures forall k :: k in Keys(DefaultStyles().fields) ==> Get(Get(DefaultStyles(), k), "bold") == Bool(true)
    ensures Get(Get(DefaultStyles(), "tableHeader"), "color") == Str("black")
  {
    assert Keys(DefaultStyles().fields) == ["header", "subheader", "tableHeader"];
  }

  /** `path.join(process.cwd(), 'assets', 'demo_logo.jpg')` */
  function LogoPath(cwd: string): string {
    cwd + "/assets/demo_logo.jpg"
  }

  /** The definition after `addCommonElements`. */
  function CommonElements(cwd: string, fields: seq<Field>): seq<Field> {
    var withHeader := Set(fields, "header", Fn(PageHeader(LogoPath(cwd))));
    var withFooter := Set(withHeader, "footer", Fn(PageFooter));
    var withSize := Set(withFooter, "pageSize", Str("A4"));
    Set(withSize, "pageMargins", Margin(40.0, 80.0, 40.0, 80.0))
  }

  /** The four properties `addCommonElements` assigns. */
  predicate Furniture(k: string) {
    k == "header" || k == "footer" || k == "pageSize" || k == "pageMargins"
  }

  /**
   * The four properties always hold the service's values, whatever the
   * template set; every other property reads as before; every earlier key is
   * kept in place and the four keys are present.
   */
  lemma CommonElementsRead(cwd: string, fields: seq<Field>)
    ensures FieldOf(CommonElements(cwd, fields), "header") == Some(Fn(PageHeader(LogoPath(cwd))))
    ensures FieldOf(CommonElements(cwd, fields), "footer") == Some(Fn(PageFooter))
    ensures FieldOf(CommonElements(cwd, fields), "pageSize") == Some(Str("A4"))
    ensures FieldOf(CommonElements(cwd, fields), "pageMargins") == Some(Margin(40.0, 80.0, 40.0, 80.0))
    ensures forall k :: !Furniture(k) ==> FieldOf(CommonElements(cwd, fields), k) == FieldOf(fields, k)
    ensures |CommonElements(cwd, fields)| >= |fields|
    ensures Keys(CommonElements(cwd, fields))[..|fields|] == Keys(fields)
    ensures forall k :: Furniture(k) ==> k in Keys(CommonElements(cwd, fields))
  {
    var withHeader := Set(fields, "header", Fn(PageHeader(LogoPath(cwd))));
    var withFooter := Set(withHeader, "footer", Fn(PageFooter));
    var withSize := Set(withFooter, "pageSize", Str("A4"));
    var r := Set(withSize, "pageMargins", Margin(40.0, 80.0, 40.0, 80.0));
    SetStep(fields, "header", Fn(PageHeader(LogoPath(cwd))));
    SetStep(withHeader, "footer", Fn(PageFooter));
    SetStep(withFooter, "pageSize", Str("A4"));
    SetStep(withSize, "pageMargins", Margin(40.0, 80.0, 40.0, 80.0));
    assert r == CommonElements(cwd, fields);
    forall k | !Furniture(k)
      ensures FieldOf(r, k) == FieldOf(fields, k)
    {
      assert k != "header" && k != "footer" && k != "pageSize" && k != "pageMargins";
    }
    PrefixOfPrefix(Keys(r), Keys(withSize), Keys(withFooter));
    PrefixOfPrefix(Keys(r), Keys(withFooter), Keys(withHeader));
    PrefixOfPrefix(Keys(r), Keys(withHeader), Keys(fields));
  }

  lemma PrefixOfPrefix(a: seq<string>, b: seq<string>, c: seq<string>)
    requires |b| <= |a| && a[..|b|] == b
    requires |c| <= |b| && b[..|c|] == c
    ensures a[..|c|] == c
  {
    assert a[..|c|] == a[..|b|][..|c|];
  }

  /** One assignment: the key reads the new value, the others as before, and the earlier keys stay in place. */
  lemma SetStep(fields: seq<Field>, key: string, val: Value)
    ensures FieldOf(Set(fields, key, val), key) == Some(val)
    ensures forall k :: k != key ==> FieldOf(Set(fields, key, val), k) == FieldOf(fields, k)
    ensures |Keys(Set(fields, key, val))| >= |fields| && Keys(Set(fields, key, val))[..|fields|] == Keys(fields)
    ensures key in Keys(Set(fields, key, val))
    ensures forall k :: k in Keys(fields) ==> k in Keys(Set(fields, key, val))
  {
    SetFacts(fields, key, val);
  }

  /** Adding the furniture twice reads the same as adding it once. */
  lemma CommonElementsIdempotent(cwd: string, fields: seq<Field>)
    ensures forall k :: FieldOf(CommonElements(cwd, CommonElements(cwd, fields)), k)
                        == FieldOf(CommonElements(cwd, fields), k)
  {
    CommonElementsRead(cwd, fields);
    CommonElementsRead(cwd, CommonElements(cwd, fields));
    forall k
      ensures FieldOf(CommonElements(cwd, CommonElements(cwd, fields)), k) == FieldOf(CommonElements(cwd, fields), k)
    {
      if !Furniture(k) {
      }
    }
  }

  /** The header for page p: the logo at 100 points, then "Page p" on the right. */
  lemma HeaderOnPage(h: Host, cwd: string, page: nat, count: nat)
    ensures Generators.Call(h, PageHeader(LogoPath(cwd)), page, count).Ok?
    ensures var header := Generators.Call(h, PageHeader(LogoPath(cwd)), page, count).value;
            var columns := Get(header, "columns");
            columns.Arr? && |columns.items| == 2
            && Get(columns.items[0], "image") == Str(LogoPath(cwd))
            && Get(columns.items[0], "width") == Num(100.0)
            && Get(columns.items[1], "text") == Str("Page " + NatStr(page))
            && Get(columns.items[1], "alignment") == Str("right")
  {
    var columns := Get(Generators.ServiceHeaderAt(LogoPath(cwd), page), "columns");
    FieldOfAt(columns.items[0].fields, 1);
    FieldOfAt(columns.items[1].fields, 1);
  }

  /** The footer for page p of n: the signature line on the left, "Page p of n" on the right. */
  lemma FooterOnPage(h: Host, page: nat, count: nat)
    ensures Generators.Call(h, PageFooter, page, count).Ok?
    ensures var footer := Generators.Call(h, PageFooter, page, count).value;
            var columns := Get(footer, "columns");
            columns.Arr? && |columns.items| == 2
            && Get(columns.items[0], "text") == Str(Generators.SignatureLine)
            && Get(columns.items[0], "alignment") == Str("left")
            && Get(columns.items[1], "text") == Str("Page " + NatStr(page) + " of " + NatStr(count))
            && Get(columns.items[1], "alignment") == Str("right")
  {
    var columns := Get(Generators.ServiceFooterAt(page, count), "columns");
    FieldOfAt(columns.items[0].fields, 1);
    FieldOfAt(columns.items[1].fields, 1);
  }

  /** `${data.documentNumber || 'document'}.pdf`; reading the number of null or undefined throws. */
  function OutputName(h: Host, data: Value): (r: Outcome<string>)
    ensures r.Err? <==> Nullish(data)
    ensures r.Err? ==> r.error == ReadError(data, "documentNumber")
    ensures r.Ok? && Truthy(Get(data, "documentNumber")) ==>
              r.value == ToStr(h, Get(data, "documentNumber")) + ".pdf"
    ensures r.Ok? && !Truthy(Get(data, "documentNumber")) ==> r.value == "document.pdf"
  {
    var number :- Prop(data, "documentNumber");
    Ok(ToStr(h, Or(number, Str("document"))) + ".pdf")
  }

  /** `path.join(outputDir, name)` */
  function JoinPath(dir: string, name: string): string {
    dir + "/" + name
  }

  /** `{ buffer, base64, filePath }` */
  datatype PdfOutput = PdfOutput(buffer: Bytes, base64: string, filePath: string)

  /**
   * The collaborators: the host, the image oracle, `process.cwd()`, the
   * resolved `../output` directory, the loader's error for a name with no
   * module, the default exports of the loaded modules, and the renderer
   * (which may throw synchronously).
   */
  datatype ServiceEnv = ServiceEnv(
    host: Host,
    images: ImageHelper.ImageIo,
    cwd: string,
    outputDir: string,
    importFailure: string -> Exception,
    run: (TemplateModule, Value, Value) -> TemplateResult,
    render: Value -> Outcome<seq<Event>>)

  /** The default exports are the four templates of this model. */
  ghost predicate StandardTemplates(env: ServiceEnv) {
    forall t, data, styles :: env.run(t, data, styles) == RunTemplate(env.host, env.images, t, data, styles)
  }

  /** `new Error(`Failed to generate PDF: ${error.message}`)` */
  function Wrapped(e: Exception): (w: Exception)
    ensures w.Message() == "Failed to generate PDF: " + e.Message()
    ensures w.Code() == None
  {
    Thrown("Failed to generate PDF: " + e.Message(), None)
  }

  /** The promise returned at line 65: settled by the first `end` or `error` of the stream. */
  function Settle(path: string, s: StreamEnd): (r: Settlement<PdfOutput>)
    ensures s.Open? <==> r.Pending?
    ensures s.Failed? ==> r == Settled(Err(s.e))
    ensures s.Ended? ==> r.Settled? && r.outcome.Ok? && r.outcome.value.buffer == s.buffer
                         && Decode(r.outcome.value.base64) == Some(s.buffer)
                         && r.outcome.value.filePath == path
  {
    match s
    case Open => Pending
    case Failed(e) => Settled(Err(e))
    case Ended(buffer) =>
      RoundTrip(buffer);
      Settled(Ok(PdfOutput(buffer, Encode(buffer), path)))
  }

  /** Lines 57-81 for a definition with the given fields. */
  function Rendered(env: ServiceEnv, data: Value, fields: seq<Field>): Settlement<PdfOutput> {
    match env.render(Obj(CommonElements(env.cwd, fields)))
    case Err(e) => Settled(Err(Wrapped(e)))
    case Ok(events) =>
      match OutputName(env.host, data)
      case Err(e) => Settled(Err(Wrapped(e)))
      case Ok(name) => Settle(JoinPath(env.outputDir, name), StreamResult(events))
  }

  /** `generatePdf` as the source has it: the template's result is not awaited. */
  function GeneratedAsWritten(env: ServiceEnv, name: string, data: Value, styles: Value): Settlement<PdfOutput> {
    match TemplateNamed(name)
    case None => Settled(Err(Wrapped(env.importFailure(name))))
    case Some(t) =>
      match DefinitionAsWritten(env.run(t, data, styles))
      case Err(e) => Settled(Err(Wrapped(e)))
      case Ok(fields) => Rendered(env, data, fields)
  }

  /** `generatePdf` with the template's result awaited. */
  function Generated(env: ServiceEnv, name: string, data: Value, styles: Value): Settlement<PdfOutput> {
    match TemplateNamed(name)
    case None => Settled(Err(Wrapped(env.importFailure(name))))
    case Some(t) =>
      match Definition(env.run(t, data, styles))
      case Err(e) => Settled(Err(Wrapped(e)))
      case Ok(fields) => Rendered(env, data, fields)
  }

  class PdfService {
    var defaultStyles: Value

    constructor()
      ensures defaultStyles == DefaultStyles()
    {
      defaultStyles := DefaultStyles();
    }

    /** Assign the running header, the footer, the page size and the margins. */
    method AddCommonElements(doc: DocumentRecord, cwd: string)
      modifies doc
      ensures doc.fields == CommonElements(cwd, old(doc.fields))
    {
      doc.Assign("header", Fn(PageHeader(LogoPath(cwd))));
      doc.Assign("footer", Fn(PageFooter));
      doc.Assign("pageSize", Str("A4"));
      doc.Assign("pageMargins", Margin(40.0, 80.0, 40.0, 80.0));
    }

    /** Load, build, decorate, render and collect, with the template's result awaited. */
    method GeneratePdf(env: ServiceEnv, name: string, data: Value) returns (r: Settlement<PdfOutput>)
      ensures r == Generated(env, name, data, defaultStyles)
    {
      var template := TemplateNamed(name);
      if template.None? {
        return Settled(Err(Wrapped(env.importFailure(name))));
      }
      var definition := Definition(env.run(template.value, data, defaultStyles));
      if definition.Err? {
        return Settled(Err(Wrapped(definition.error)));
      }
      var doc := new DocumentRecord(definition.value);
      AddCommonElements(doc, env.cwd);
      var rendered := env.render(Obj(doc.fields));
      if rendered.Err? {
        return Settled(Err(Wrapped(rendered.error)));
      }
      var fileName := OutputName(env.host, data);
      if fileName.Err? {
        return Settled(Err(Wrapped(fileName.error)));
      }
      var ended := Collect(rendered.value);
      r := Settle(JoinPath(env.outputDir, fileName.value), ended);
    }
  }

  // ---- properties ----

  /**
   * When the renderer emits chunks and then `end`, the promise resolves with
   * their in-order concatenation, its base64 form, which decodes back to it,
   * and the path under the output directory.
   */
  lemma ResolvedOutput(env: ServiceEnv, data: Value, fields: seq<Field>, chunks: seq<Bytes>, rest: seq<Event>)
    requires env.render(Obj(CommonElements(env.cwd, fields))) == Ok(ChunkEvents(chunks) + [End] + rest)
    requires OutputName(env.host, data).Ok?
    ensures Rendered(env, data, fields)
            == Settled(Ok(PdfOutput(Concat(chunks), Encode(Concat(chunks)),
                                    JoinPath(env.outputDir, OutputName(env.host, data).value))))
    ensures Decode(Encode(Concat(chunks))) == Some(Concat(chunks))
  {
    EndedBuffer(chunks, rest);
    RoundTrip(Concat(chunks));
  }

  /** A stream `error` rejects with that error as it is: the `catch` does not see it. */
  lemma StreamErrorUnwrapped(env: ServiceEnv, data: Value, fields: seq<Field>, chunks: seq<Bytes>,
                             e: Exception, rest: seq<Event>)
    requires env.render(Obj(CommonElements(env.cwd, fields))) == Ok(ChunkEvents(chunks) + [Failure(e)] + rest)
    requires OutputName(env.host, data).Ok?
    ensures Rendered(env, data, fields) == Settled(Err(e))
  {
    FailedStream(chunks, e, rest);
  }

  /** A name with no module, a template that throws, a renderer that throws, or nullish data: the error is wrapped. */
  lemma FailuresWrapped(env: ServiceEnv, name: string, data: Value, styles: Value)
    ensures TemplateNamed(name).None? ==>
              Generated(env, name, data, styles) == Settled(Err(Wrapped(env.importFailure(name))))
    ensures TemplateNamed(name).Some? &&
            Definition(env.run(TemplateNamed(name).value, data, styles)).Err? ==>
              Generated(env, name, data, styles)
              == Settled(Err(Wrapped(Definition(env.run(TemplateNamed(name).value, data, styles)).error)))
    ensures forall fields :: env.render(Obj(CommonElements(env.cwd, fields))).Err? ==>
              Rendered(env, data, fields)
              == Settled(Err(Wrapped(env.render(Obj(CommonElements(env.cwd, fields))).error)))
    ensures forall fields :: env.render(Obj(CommonElements(env.cwd, fields))).Ok? && Nullish(data) ==>
              Rendered(env, data, fields) == Settled(Err(Wrapped(ReadError(data, "documentNumber"))))
  {
  }

  /** The synchronous `invoice` template gives the same outcome whether or not it is awaited. */
  lemma InvoiceUnaffected(env: ServiceEnv, data: Value, styles: Value)
    requires StandardTemplates(env)
    ensures GeneratedAsWritten(env, "invoice", data, styles) == Generated(env, "invoice", data, styles)
  {
  }

  /**
   * As written, an `async` template's definition never reaches the renderer:
   * it renders the promise object carrying only the four common properties,
   * so the outcome is the same whatever the template built or threw.
   */
  lemma UnawaitedTemplateIgnored(env: ServiceEnv, name: string, data: Value, styles: Value)
    requires StandardTemplates(env)
    requires TemplateNamed(name).Some? && TemplateNamed(name).value != InvoiceTemplate
    ensures GeneratedAsWritten(env, name, data, styles) == Rendered(env, data, [])
    ensures "content" !in Keys(CommonElements(env.cwd, []))
  {
    assert env.run(TemplateNamed(name).value, data, styles).Promised?;
    FurnitureOnly(env.cwd);
  }

  /** Decorating an object with no own properties gives the four common properties and no `content`. */
  lemma FurnitureOnly(cwd: string)
    ensures "content" !in Keys(CommonElements(cwd, []))
  {
    CommonElementsRead(cwd, []);
    FieldOfPresent(CommonElements(cwd, []), "content");
  }

  /**
   * With the result awaited, the renderer receives what the template built,
   * content and styles included, with the four common properties on top.
   */
  lemma AwaitedTemplateRendered(env: ServiceEnv, name: string, data: Value, styles: Value, fields: seq<Field>)
    requires TemplateNamed(name).Some?
    requires Definition(env.run(TemplateNamed(name).value, data, styles)) == Ok(fields)
    ensures Generated(env, name, data, styles) == Rendered(env, data, fields)
    ensures FieldOf(CommonElements(env.cwd, fields), "content") == FieldOf(fields, "content")
    ensures FieldOf(CommonElements(env.cwd, fields), "styles") == FieldOf(fields, "styles")
  {
    ContentKept(env.cwd, fields);
  }

  /** `addCommonElements` leaves `content` and `styles` as the template built them. */
  lemma ContentKept(cwd: string, fields: seq<Field>)
    ensures FieldOf(CommonElements(cwd, fields), "content") == FieldOf(fields, "content")
    ensures FieldOf(CommonElements(cwd, fields), "styles") == FieldOf(fields, "styles")
  {
    assert !Furniture("content") && !Furniture("styles");
    CommonElementsRead(cwd, fields);
  }
}
