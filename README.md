# pdfmake document pipeline, modelled in Dafny

This project models the core of a small Node.js service that turns a template
and a JSON data payload into a PDF through pdfmake. There are two
generators.

- **The template-driven generator** (`generatePdf(organizationId, reportId, data)`):
  1. reads a stored JSON template;
  2. substitutes every `{{path}}` marker in its strings with a lookup in `{ data }`;
  3. fills in `styles` and `defaultStyle`;
  4. turns every `image` entry into a base64 data URL through the image helper;
  5. renders, and writes the concatenated output chunks under a fresh id.
- **The `PdfService` class** (`generatePdf(templateName, data)`):
  1. loads one of four template modules (invoice, statement of account, quotation, purchase order);
  2. calls it with the payload and the service's default styles;
  3. decorates the result with a running header, a signature footer, A4 page size and fixed margins;
  4. renders, and resolves with the buffer, its base64 text and the output path.

The templates build pdfmake document definitions. Three of them are
`async`: they load a company logo first, and the quotation also rewrites
its item images. The style packs are object spreads over a shared base
pack.

## How the model is built

- **Values.** `JsValue.Value` models the JavaScript values.
  - Objects are ordered field sequences, so key order is observable as it is in JavaScript.
  - Property reads of null or undefined throw a `TypeError`, and so do calls of missing methods. These are `JsValue.Exception` values inside `Outcome`.
  - Every builder fails exactly where the JavaScript throws, with the first failing read deciding the error.
- **Closures.** The closures inside definitions (header and footer generators, table line callbacks) are defunctionalised into `JsValue.Fun`. `Generators.Call` says what each returns for a page number and page count.
- **Host operations.** Number formatting, upper-casing and floating-point products are parameters of the model (`JsValue.Host`).
- **Image I/O.** The network and the file system are oracles (`ImageHelper.ImageIo`).
- **Base64.** Base64 is defined as in section 4 of RFC 4648, with its decoder and round trip. Data URLs follow section 3 of RFC 2397.
- **Imperative code.** Code that updates state in place is modelled as methods over a `Documents.DocumentRecord` object:
  - `addCommonElements`;
  - the default filling;
  - the quotation's item rewrite;
  - the image walk's array slots;
  - the chunk collection.

  Each such method is proved equal to a specification function, and the lemmas are about that function.

### Behaviour worth knowing

- **GIF media type.** A local `.gif` file is given the media type `image/gif` (`src/utils/imageHelper.js:29`).
- **Placeholder root.** Placeholders are looked up against `{ data }` (`src/utils/pdfGenerator.js:105`). So `"Hello {{customer.name}}"` with payload `{customer: {name: "Acme"}}` becomes `"Hello "`, not `"Hello Acme"`. Only paths starting with `data.` can resolve (`Placeholders.DataRootLookup`, `PlaceholderExamples.MissingDataPrefix`).
- **Trailing spaces in markers.** A marker with spaces inside, such as `{{ data.k }}`, looks up the key `"k "`, because the greedy group swallows the trailing space (`PlaceholderExamples.SpacedDataFieldMarker`).
- **Page settings are overridden.** `addCommonElements` always overrides `header`, `footer`, `pageSize` and `pageMargins`, even when the template set them.
- **No structural validation.** The template-driven generator fills only `styles` and `defaultStyle` and does not validate the definition.
- **Stream errors are not wrapped.** An `error` event of the renderer's stream rejects the returned promise with the renderer's error as it is. The promise is returned from inside the `try`, so the `catch` that adds "Failed to generate PDF:" never sees that rejection (`PdfService.StreamErrorUnwrapped`).

## Model

| member | source | states |
|---|---|---|
| Base64.RoundTrip | src/pdfService.js:71 | decoding the base64 text of any buffer gives back exactly that buffer |
| Base64.QuadRoundTrip | src/pdfService.js:71 | every three bytes encode to four alphabet characters that decode back to those bytes |
| Base64.OneByteRoundTrip | src/pdfService.js:71 | a one-byte tail (two characters and "==") decodes back to its byte |
| Base64.TwoBytesRoundTrip | src/pdfService.js:71 | a two-byte tail (three characters and "=") decodes back to its bytes |
| Base64.CharIndex | src/utils/imageHelper.js:30 | each 6-bit group has a character that maps back to it, and the character is never '=' or ',' |
| Base64.EncodedShape | src/utils/imageHelper.js:30 | the encoding is made of alphabet characters and '='; every '=' is among the last two characters and is followed only by '='; the length is 4 * ceil(n / 3) |
| Base64.EncodeAlphabet | src/utils/imageHelper.js:21 | the base64 body of a data URL contains no comma, so the URL's media type and body can be told apart |
| Base64.EncodedNoComma | src/utils/imageHelper.js:21 | a well-formed base64 text contains no comma |
| Base64.QuadEncoded | src/utils/imageHelper.js:30 | a full group of three bytes encodes to a well-formed quartet |
| JsValue.FieldOfAt | src/utils/pdfGenerator.js:49 | reading a key finds the first field carrying it |
| JsValue.FieldOfPresent | src/utils/pdfGenerator.js:49 | a read finds a value exactly when the key is among the object's keys |
| JsValue.NatStrDigits | src/pdfService.js:99 | the decimal text of a page number is non-empty digits without a leading zero, and denotes that number |
| JsValue.IndexKeyRoundTrip | src/utils/pdfGenerator.js:49 | every array index has a canonical key that reads back as that index |
| JsValue.IndexKeyCanonical | src/utils/pdfGenerator.js:49 | a key names an array element only if it is the canonical decimal text of that index |
| JsValue.Prop | templates/invoice.js:42-45 | `v.key` throws exactly when `v` is null or undefined |
| JsValue.SetFacts | src/utils/pdfGenerator.js:108-109 | after an assignment the key reads the new value, every other key reads as before, an existing key keeps its place and a new one is appended |
| JsValue.SetFresh | src/utils/pdfGenerator.js:61 | assigning a key an object lacks appends exactly one field |
| JsValue.SetDistinct | src/utils/pdfGenerator.js:75-83 | assignment never creates a duplicate key |
| JsValue.SpreadLookup | styles/templates.js:3-21 | in `{...base, entries}` the last entry written for a key wins, and an unwritten key keeps its base value |
| JsValue.SpreadKeys | styles/templates.js:3-21 | a spread lists the base keys first, then the added keys in first-assignment order |
| JsValue.NoteKeysPrefix | styles/templates.js:4 | the spread keeps every base key in place ahead of the new ones, and holds exactly the keys of both parts |
| JsValue.NoteKeysDistinct | styles/templates.js:4 | spreading over distinct keys gives distinct keys |
| JsValue.NoteKeysFresh | styles/templates.js:3-21 | keys that are distinct and new are appended as they are |
| JsValue.LastOfAt | styles/templates.js:3-21 | the last update of a key decides its value |
| JsValue.ToFixed | templates/invoice.js:64 | `v.toFixed(d)` succeeds exactly on numbers and gives the host's formatting of that number |
| JsValue.OptToFixed | templates/quotation.js:197 | `base?.key.toFixed(d)` is undefined when the base is nullish, throws when the key is not a number, and otherwise formats it |
| JsValue.ToUpper | templates/statementOfAccount.js:63 | `v.toUpperCase()` succeeds exactly on strings and gives the host's upper-casing |
| JsValue.CallToString | templates/invoice.js:63 | `v.toString()` throws exactly on null and undefined, and otherwise gives `String(v)` |
| JsValue.ItemsOf | templates/invoice.js:61 | `v.map` exists exactly on arrays and runs over their elements |
| JsValue.MapROk | templates/invoice.js:61-66 | a map succeeds exactly when the callback succeeds on every element, and then gives one result per element, in order |
| JsValue.MapRFirstError | templates/invoice.js:61-66 | a map fails with the error of the first element whose callback throws |
| Documents.DocumentRecord.constructor | src/utils/pdfGenerator.js:75 | a new record holds exactly the given fields |
| Documents.DocumentRecord.Lookup | src/utils/pdfGenerator.js:108 | `record[key]` is undefined for a missing key and otherwise the key's value |
| Documents.DocumentRecord.Assign | src/pdfService.js:123 | `record[key] = val` updates the record the way an object assignment does |
| Generators.Call | src/pdfService.js:90-120 | for each closure kind: constant callbacks ignore their arguments, line callbacks distinguish the outer or first line, template headers are null off page 1, and only headers that read the payload can throw |
| Placeholders.RunLength | src/utils/pdfGenerator.js:43 | `[^}]+` runs exactly up to the first '}' |
| Placeholders.DropSpaces | src/utils/pdfGenerator.js:43 | `\s*` leaves a suffix that does not start with whitespace |
| Placeholders.MatchAt | src/utils/pdfGenerator.js:43 | a match is at least five characters long and lies within the string |
| Placeholders.ReplaceNoMatch | src/utils/pdfGenerator.js:43 | a string in which the expression matches nowhere is returned unchanged |
| Placeholders.NoBraceNoMatch | src/utils/pdfGenerator.js:43 | a string without '{' has no match |
| Placeholders.MarkerMatch | src/utils/pdfGenerator.js:43 | `{{run}}` matches with its whole length and captures the run's capture |
| Placeholders.ReplaceAtMarker | src/utils/pdfGenerator.js:43-55 | a leading marker is replaced by the replacer's text, and scanning resumes after "}}" without rescanning the replacement |
| Placeholders.ReplaceCopies | src/utils/pdfGenerator.js:43 | a character other than '{' is copied as it is |
| Placeholders.ReplaceAfterPlain | src/utils/pdfGenerator.js:43 | text without '{' in front of a string is copied unchanged |
| Placeholders.ReplaceMarker | src/utils/pdfGenerator.js:43-55 | matches are replaced left to right without overlap: plain prefix, replaced marker, then the rest replaced |
| Placeholders.CaptureSkipsLeadingSpace | src/utils/pdfGenerator.js:43 | the capture drops leading whitespace but keeps all later characters |
| Placeholders.Split | src/utils/pdfGenerator.js:45 | `split('.')` gives at least one part and no part contains '.' |
| Placeholders.JoinSplit | src/utils/pdfGenerator.js:45 | joining the parts of a split with '.' gives the original expression |
| Placeholders.SplitJoin | src/utils/pdfGenerator.js:45 | splitting a '.'-join of dot-free parts gives the parts back, empty ones included |
| Placeholders.WalkNullish | src/utils/pdfGenerator.js:47-48 | a walk that meets null or undefined before a segment gives nothing |
| Placeholders.WalkAppend | src/utils/pdfGenerator.js:46-50 | walking a path is walking its first part, then the rest from where it stopped |
| Placeholders.DataRootLookup | src/utils/pdfGenerator.js:105 | against `{ data }`, a path not starting with `data` gives "", and `data.rest` looks `rest` up in the payload |
| Placeholders.ResolvePlaceholders | src/utils/pdfGenerator.js:40-66 | strings are substituted; arrays keep length and order; objects keep keys and order, with every child resolved; null, undefined, numbers and booleans are returned as they are |
| Placeholders.ResolveMarkerFree | src/utils/pdfGenerator.js:43 | a tree without markers is a fixed point, whatever the payload |
| Placeholders.SubstituteMarker | src/utils/pdfGenerator.js:43-55 | in a string leaf, a marker is replaced by the lookup text of its capture |
| Placeholders.SubstituteSingle | src/utils/pdfGenerator.js:43-55 | a string holding one marker becomes its prefix followed by the lookup text of the expression |
| PlaceholderExamples.SplitDataKey | src/utils/pdfGenerator.js:45 | `data.key` splits into `data` and `key` |
| PlaceholderExamples.LookupDataKey | src/utils/pdfGenerator.js:105 | `data.key` reads the payload's field of exactly that name, or "" when it is absent or nullish |
| PlaceholderExamples.DataFieldMarker | src/utils/pdfGenerator.js:43-55 | `pre{{data.k}}` becomes `pre` followed by the text of the payload's `k` |
| PlaceholderExamples.MissingDataPrefix | src/utils/pdfGenerator.js:105 | a marker whose path does not start with `data` becomes "" |
| PlaceholderExamples.SpacedDataFieldMarker | src/utils/pdfGenerator.js:43-49 | `{{ data.k }}` reads the key `k ` with its trailing space and so gives "" for a payload holding `k` |
| PdfGenerator.ImageValue | src/utils/pdfGenerator.js:77-79 | an image entry becomes exactly the data URL the image helper returns for it, and keeps its original string when the helper returns null; either way it is a string that is the original or starts with `data:` |
| PdfGenerator.ResolvedImages | src/utils/pdfGenerator.js:68-85 | the walk keeps arrays' lengths, resolves each array element in place, keeps objects' keys in order, and returns non-objects as they are |
| PdfGenerator.ResolvedKeyRead | src/utils/pdfGenerator.js:75-84 | reading a key of the resolved object gives the original entry under that key, converted if it is an image entry and resolved recursively otherwise |
| PdfGenerator.TemplateImageLoaded | src/utils/pdfGenerator.js:104-112 | a marker-free template's non-empty `image` string reaches the renderer as the data URL the image helper loaded, or as itself when loading failed |
| PdfGenerator.ResolvedEntry | src/utils/pdfGenerator.js:76-83 | only an entry keyed `image` with a non-empty string is converted: it becomes the data URL the image helper loaded, or stays as it was when the helper returns null; every other entry is resolved recursively |
| PdfGenerator.ResolveImageFree | src/utils/pdfGenerator.js:69 | a tree without image entries is returned unchanged, whatever the image oracle answers |
| PdfGenerator.ResolvedImagesWellFormed | src/utils/pdfGenerator.js:75-84 | the walk never creates duplicate keys |
| PdfGenerator.ResolveImages | src/utils/pdfGenerator.js:68-85 | the loop that overwrites array slots and fills a fresh object computes the walk |
| PdfGenerator.DefaultsFilledFacts | src/utils/pdfGenerator.js:108-109 | a truthy `styles` or `defaultStyle` is kept, and a falsy one becomes `{}` or `{font: 'Roboto'}`; both keys are present afterwards and nothing else changes |
| PdfGenerator.DefaultsIdempotent | src/utils/pdfGenerator.js:108-109 | filling the defaults twice is filling them once |
| PdfGenerator.SetUnchanged | src/utils/pdfGenerator.js:108 | assigning a key its own value changes nothing |
| PdfGenerator.FillDefaults | src/utils/pdfGenerator.js:108-109 | the two in-place assignments leave the record with its defaults filled |
| PdfGenerator.WithDefaults | src/utils/pdfGenerator.js:105-109 | an object definition gets its defaults; a null or undefined definition throws reading `styles`; primitives throw on assignment |
| PdfGenerator.DefaultsWellFormed | src/utils/pdfGenerator.js:108-109 | filling defaults keeps keys distinct |
| PdfGenerator.ResolvedPlaceholdersWellFormed | src/utils/pdfGenerator.js:57-64 | substitution keeps keys distinct |
| PdfGenerator.PlainTemplate | src/utils/pdfGenerator.js:102-112 | a template without markers or images reaches the renderer as itself with its defaults filled in, for every payload |
| PdfGenerator.Concat | src/utils/pdfGenerator.js:120 | no chunks concatenate to the empty buffer |
| PdfGenerator.ConcatAppend | src/utils/pdfGenerator.js:118-120 | concatenating two runs of chunks is concatenating each and joining the results |
| PdfGenerator.EndedBuffer | src/utils/pdfGenerator.js:118-120 | chunks followed by `end` yield the in-order concatenation of the chunks |
| PdfGenerator.Collect | src/utils/pdfGenerator.js:116-130 | the loop over stream events pushes chunks and stops at the first `end` or `error`, as the stream result says |
| PdfGenerator.FailedStream | src/utils/pdfGenerator.js:129 | an `error` before any `end` rejects with that error |
| PdfGenerator.OpenStream | src/utils/pdfGenerator.js:117-131 | a stream that emits only chunks never settles |
| PdfGenerator.LoadTemplate | src/utils/pdfGenerator.js:89-100 | a read template is used as it is; an ENOENT error becomes "Report not found" and any other error is rethrown |
| PdfGenerator.GeneratePdf | src/utils/pdfGenerator.js:87-132 | the imperative pipeline (load, substitute, fill in place, resolve images, collect chunks, write) settles as the function `PdfGenerator.GeneratedPdf` of the same inputs |
| PdfGenerator.MissingTemplate | src/utils/pdfGenerator.js:93-99 | a missing template rejects with "Report not found", and the outcome does not depend on the renderer or the writer |
| PdfGenerator.WrittenBuffer | src/utils/pdfGenerator.js:119-124 | when rendering ends, the buffer written under the fresh id is the chunks concatenated in order, and the result carries that id and the path |
| ImageHelper.FirstIndexOf | src/utils/imageHelper.js:21 | the first position of a character, or none when it does not occur |
| ImageHelper.DataUrlRoundTrip | src/utils/imageHelper.js:21 | parsing a data URL built from a media type and bytes gives back both |
| ImageHelper.LastIndexOf | src/utils/imageHelper.js:28 | the last position of a character, or none when it does not occur |
| ImageHelper.AsciiLower | src/utils/imageHelper.js:28 | lower-casing keeps the length, leaves no capital A-Z, turns each capital into its small letter and keeps every other character |
| ImageHelper.AsciiLowerFixed | src/utils/imageHelper.js:28 | lower-casing leaves a string unchanged exactly when it has no capital letter, and lower-casing twice is lower-casing once |
| ImageHelper.ExtNameOfFile | src/utils/imageHelper.js:28 | the extension of `dir/stem.e` is `.e` |
| ImageHelper.MimeOfFile | src/utils/imageHelper.js:28-29 | `.png` gives image/png and `.gif` gives image/gif, in any letter case; everything else gives image/jpeg |
| ImageHelper.GetImageDataUrl | src/utils/imageHelper.js:9-35 | a falsy input gives null; a `data:image/` string is returned unchanged; a truthy non-string gives null rather than throwing |
| ImageHelper.ImageResultIsDataUrl | src/utils/imageHelper.js:9-35 | every non-null answer is a data URL |
| ImageHelper.DataImageNotRemote | src/utils/imageHelper.js:13-16 | an http(s) URL is never taken for a data URL |
| ImageHelper.RemoteImage | src/utils/imageHelper.js:16-21 | an ok response becomes a data URL with its content type (image/png when missing) and its exact body; a failed fetch or a non-ok response gives null |
| ImageHelper.LocalImage | src/utils/imageHelper.js:25-30 | any other string is read under the project root (absolute paths as they are) and becomes a data URL with its bytes and the extension's media type; a read failure gives null, and the network is never consulted |
| ImageHelper.AbsoluteLocal | src/utils/imageHelper.js:13-26 | a path starting with `/` is taken neither for a data URL nor for a remote URL, and is read from the file system exactly as written |
| ImageHelper.ProcessImages | src/utils/imageHelper.js:38-41 | no argument gives `{}`; only an array argument succeeds |
| ImageHelper.ProcessImagesEntries | src/utils/imageHelper.js:38-41 | duplicate paths collapse to one key, the keys are exactly the paths, and each maps to its data URL or null |
| CompanyLogo.LogoSource | templates/quotation.js:13-14 | the logo is loaded from `companyInfo.logo` when it is set; a nullish payload has no logo, because the failed read is caught |
| CompanyLogo.LogoFallback | templates/statementOfAccount.js:11-12 | without a company logo, the bundled default logo file is loaded |
| CompanyLogo.DefaultLogoRead | templates/purchaseOrder.js:9 | the bundled logo is read from the file system as a PNG data URL |
| Styles.SpreadPack | styles/templates.js:3-46 | a pack lists the base keys first, holds exactly the base and pack keys, an entry the pack writes wins, and every other key keeps its base value |
| Styles.UnwrittenKeyKeepsBase | styles/templates.js:4 | a key a pack does not write keeps the base value exactly |
| Styles.BaseKeys | styles/base.js:1-43 | the base pack holds its nine styles in their order |
| Styles.PacksKeepBaseKeys | styles/templates.js:3-46 | each of the three packs holds every base key, in base order, ahead of its own |
| Styles.InvoiceKeepsHeaders | styles/templates.js:3-22 | the invoice pack keeps the base `header` and `subheader` |
| Styles.PurchaseOrderKeepsHeaders | styles/templates.js:23-31 | the purchase-order pack keeps the base `header` and `subheader` |
| Styles.StatementKeepsHeaders | styles/templates.js:32-46 | the statement pack keeps the base `header` and `subheader` |
| Styles.PurchaseOrderTableHeader | styles/templates.js:29 | the purchase-order `tableHeader` is exactly `{fontSize: 9}`; the base attributes are gone |
| Styles.StatementTableHeader | styles/templates.js:39 | the statement `tableHeader` is exactly `{fontSize: 9, bold: true, fillColor: null}` |
| Styles.InvoiceTableHeader | styles/templates.js:3-22 | the invoice pack keeps the base `tableHeader` |
| Styles.InvoiceHeadersExtendBase | styles/templates.js:5-12 | `invoiceHeader` and `invoiceSubheader` are the base attributes followed by their colours |
| Styles.InvoiceKeys | styles/templates.js:3-22 | over a base without them, the invoice pack is the base keys plus exactly four new keys |
| Styles.InvoiceKeysFresh | styles/base.js:1-43 | the base pack defines none of the invoice pack's new keys |
| Invoice.ItemRow | templates/invoice.js:61-66 | a row exists exactly when the item, its quantity and a numeric unit price can be read; it is the description, the quantity as a string, then the unit price and the amount to two decimals |
| Invoice.Build | templates/invoice.js:1-106 | a successful build is an object |
| Invoice.BuildSucceeds | templates/invoice.js:1-106 | the builder succeeds exactly on payloads whose every read succeeds |
| Invoice.BuildFirstErrors | templates/invoice.js:25-42 | a missing payload fails reading `invoiceNumber`, and a missing customer fails reading `name` |
| Invoice.StylesPassedThrough | templates/invoice.js:105 | the definition has exactly `content` and `styles`, and the styles argument is passed through |
| Invoice.ContentOf | templates/invoice.js:3-104 | the content has eight blocks |
| Invoice.OpensWithTitle | templates/invoice.js:5-9 | the content opens with the centred "INVOICE" text in style `header` |
| Invoice.CustomerOrder | templates/invoice.js:41-46 | the customer stack holds name, address, city and phone, in that order |
| Invoice.NotesDefault | templates/invoice.js:101 | the notes are the payload's when truthy, else "Thank you for your business!" |
| Invoice.TableBodyOf | templates/invoice.js:54-67 | the table body is the header row followed by the item rows |
| Invoice.DocTable | templates/invoice.js:50-70 | the fifth block's table body is the header row followed by the given rows |
| Invoice.RowsFacts | templates/invoice.js:61-66 | one row per item, in item order |
| Invoice.ItemsTableBody | templates/invoice.js:54-66 | the body is one four-cell header row, then one four-cell row per item, in item order: description, quantity as a string, unit price, amount |
| StatementOfAccount.Amount | templates/statementOfAccount.js:26-28 | a missing amount gives '', a number is formatted to two decimals, and anything else throws |
| StatementOfAccount.AmountEmpty | templates/statementOfAccount.js:26-28 | an amount cell is '' exactly when the amount is null or undefined; 0 is still formatted |
| StatementOfAccount.ItemRowCells | templates/statementOfAccount.js:19-29 | a row exists exactly when the item can be read and its amounts are missing or numbers; it has nine cells, with six texts defaulting to '' and three right-aligned amounts |
| StatementOfAccount.TotalsRowCells | templates/statementOfAccount.js:32-42 | the totals row has six empty, fully bordered cells, then the three summary totals, with a missing one formatted as 0 |
| StatementOfAccount.BorderCellBlank | templates/statementOfAccount.js:33-38 | the blank cells are empty text with all four borders |
| StatementOfAccount.MissingSummary | templates/statementOfAccount.js:39-41 | without a summary, every total is 0, formatted |
| StatementOfAccount.ItemRowsOf | templates/statementOfAccount.js:19 | one row per item, in item order; a missing item list gives no rows |
| StatementOfAccount.Build | templates/statementOfAccount.js:8-169 | a successful build is an object |
| StatementOfAccount.DocParts | templates/statementOfAccount.js:46-168 | the definition holds A4 page settings, the header closure over the payload and logo, the blank footer, the ledger as its only content, and the styles argument |
| StatementOfAccount.LedgerBody | templates/statementOfAccount.js:121-150 | the ledger table's body is the rows it was given |
| StatementOfAccount.LedgerRows | templates/statementOfAccount.js:124-150 | the ledger is the title row, the header row, one row per item and the totals row: items + 3 rows |
| StatementOfAccount.LedgerRow | templates/statementOfAccount.js:149 | ledger row i + 2 is the row of item i |
| StatementOfAccount.EmptyLedger | templates/statementOfAccount.js:124-150 | without items, the ledger is the title, header and totals rows only |
| StatementOfAccount.FixedRows | templates/statementOfAccount.js:126-147 | the title row is one cell spanning nine columns plus eight empty objects, and the header row has nine cells |
| StatementOfAccount.DocumentShape | templates/statementOfAccount.js:46-168 | a build has the header closure over the payload and the loaded logo, an always-empty footer, and the styles argument |
| StatementOfAccount.HeaderBoxParts | templates/statementOfAccount.js:50-115 | the header box has the company column and the logo column |
| StatementOfAccount.LayoutPaddingOrder | templates/statementOfAccount.js:105-114 | the header box's layout pads 8 on every side in the order top, bottom, left, right (the ledger's layout, lines 152-161, goes left, right, top, bottom) |
| StatementOfAccount.CompanyNameFirst | templates/statementOfAccount.js:63 | the company column opens with the name it is given |
| StatementOfAccount.LogoCellRule | templates/statementOfAccount.js:94-96 | the logo cell is an image node exactly when the logo loaded, else empty text |
| StatementOfAccount.HeaderEveryPage | templates/statementOfAccount.js:50-115 | every page and page count get the same box with the upper-cased company name ('' when missing); it fails only on a nullish payload or a non-string name |
| StatementOfAccount.BuildSucceeds | templates/statementOfAccount.js:8-169 | the builder succeeds exactly on payloads whose every read succeeds |
| StatementOfAccount.BuildFirstErrors | templates/statementOfAccount.js:19 | a missing payload fails reading `items`, and a truthy non-array item list fails calling `map` |
| Quotation.RewriteItems | templates/quotation.js:21-35 | the in-place rewrite leaves the caller's payload as the rewrite function says |
| Quotation.ItemImageRule | templates/quotation.js:26-28 | a falsy image becomes null without loading; otherwise it becomes the loaded data URL, or null when loading gave nothing |
| Quotation.RewrittenItemFields | templates/quotation.js:24-29 | a rewritten item carries its new image, and an object item keeps every other property and its key order |
| Quotation.RewriteShape | templates/quotation.js:21-35 | an array of readable items is replaced by one rewritten item per item, with every other payload property and the key order unchanged; otherwise the payload stays as it was |
| Quotation.HeaderBoxBody | templates/quotation.js:44-83 | the header table holds the company and logo columns over the title row |
| Quotation.TitleCellRule | templates/quotation.js:73-79 | the title spans two columns and is the document title, "QUOTATION" by default |
| Quotation.HeaderColumns | templates/quotation.js:49-67 | the company column opens with the company name ('' when missing), and the logo column opens with the loaded logo |
| Quotation.HeaderFirstPageOnly | templates/quotation.js:41-97 | page 1 gets the header box, or a read error for a nullish payload; every other page gets null |
| Quotation.InfoDefaults | templates/quotation.js:123-127 | the labels come in order, and each value is the detail when truthy, else "AED" for the currency and '' for the others |
| Quotation.ItemRowRule | templates/quotation.js:164-173 | a row exists exactly for a readable item; it has six cells, with serial number i + 1, the image cell, and price and amount to two decimals |
| Quotation.ImageCellRule | templates/quotation.js:166-168 | a truthy image is shown 40 by 40, and any other value gives empty text |
| Quotation.ItemsBlockBody | templates/quotation.js:155-174 | the items table is the six-cell header row followed by the given rows |
| Quotation.TermLines | templates/quotation.js:252 | terms map to text nodes exactly when they are an array, one per term, in order |
| Quotation.TermsStackShape | templates/quotation.js:249-262 | the terms box holds the heading, one line per term, a spacer, "For" and the company name, and the contact lines, with business defaulting to "Business Solutions" |
| Quotation.TermsBlockStack | templates/quotation.js:243-267 | the terms box is one cell holding the stack |
| Quotation.DocParts | templates/quotation.js:37-286 | the definition holds page settings, the first-page header closure, the four content blocks in order, and the styles argument |
| Quotation.ItemRowsOf | templates/quotation.js:164-173 | one row per item, in item order |
| Quotation.ItemsBlockOf | templates/quotation.js:151-182 | the second block is the items table over the item rows |
| Quotation.ItemsTableRows | templates/quotation.js:155-174 | the items table is the header row, then one row per item: items + 1 rows, so no items give a header-only table |
| Quotation.ItemsTableRow | templates/quotation.js:164-173 | items-table row i + 1 is the row of item i |
| Quotation.TermsBlockOf | templates/quotation.js:243-279 | the fourth block is the terms box over the payload's terms |
| Quotation.TermsOfDocument | templates/quotation.js:251-252 | the terms box lists one line per term, in order, after the heading |
| Quotation.Build | templates/quotation.js:8-287 | a successful build is an object |
| Quotation.BuildDocument | templates/quotation.js:8-287 | a build is the definition over the rewritten payload, with the header closure over the payload and the loaded logo |
| Quotation.RowImage | templates/quotation.js:166-168 | a rewritten item's row shows the data URL loaded for it, or a blank cell when nothing loaded |
| Quotation.RewrittenRow | templates/quotation.js:31 | after the rewrite, items-table row i + 1 is the row of item i with its image rewritten |
| Quotation.ItemRowsOk | templates/quotation.js:164-173 | the rows exist exactly for an array of readable items |
| Quotation.DefinitionSucceeds | templates/quotation.js:37-286 | the definition succeeds exactly when every read it makes succeeds |
| Quotation.BuildSucceeds | templates/quotation.js:8-287 | the build succeeds exactly when the rewritten payload can be read throughout |
| Quotation.BuildFirstErrors | templates/quotation.js:111 | a missing payload fails reading `clientInfo`; missing or non-array items fail calling `map` |
| PurchaseOrder.HeaderFirstPageOnly | templates/purchaseOrder.js:26-48 | page 1 gets the logo over the company title ('' when missing), or a read error for a nullish payload; every other page gets null |
| PurchaseOrder.SignatureParts | templates/purchaseOrder.js:54-60 | a signature column is a line of the given length over the role's name |
| PurchaseOrder.FooterShape | templates/purchaseOrder.js:51-94 | the footer has four signature columns (Purchasing, Finance, General, Cluster General Manager) with the last line longer, then a full-width line |
| PurchaseOrder.SupplierDefaults | templates/purchaseOrder.js:107-108 | a missing supplier name or address becomes "Supplier Name" or "Supplier Address" |
| PurchaseOrder.OrderLines | templates/purchaseOrder.js:187-191 | five order-detail lines |
| PurchaseOrder.OrderDetails | templates/purchaseOrder.js:187-191 | each order detail follows its caption without a default, so a missing one reads "undefined" |
| PurchaseOrder.ItemRowOk | templates/purchaseOrder.js:228-237 | an item row exists exactly for a readable item |
| PurchaseOrder.ItemRowCells | templates/purchaseOrder.js:228-237 | an item row has eight cells, with serial number i + 1, VAT percent to one decimal and the other amounts to two |
| PurchaseOrder.ItemsBlockBody | templates/purchaseOrder.js:217-238 | the items table is the eight-cell header row followed by the given rows |
| PurchaseOrder.ItemRowsOf | templates/purchaseOrder.js:228-237 | one row per item, in item order |
| PurchaseOrder.ItemsTableRows | templates/purchaseOrder.js:217-238 | the items table is the header row, then one row per item |
| PurchaseOrder.ItemsTableRow | templates/purchaseOrder.js:228-237 | items-table row i + 1 is the row of item i |
| PurchaseOrder.TotalsRows | templates/purchaseOrder.js:256-288 | the totals table has exactly the Order, VAT and Gross rows; its line callback gives line 0 width 0 and every other line 0.5 (with `Generators.Call`) |
| PurchaseOrder.DocParts | templates/purchaseOrder.js:22-297 | the definition holds page settings, the header and footer closures, the five content blocks in order, and the styles argument |
| PurchaseOrder.ItemsBlockOf | templates/purchaseOrder.js:210-253 | the fourth block is the items table over the item rows |
| PurchaseOrder.ItemRowsOk | templates/purchaseOrder.js:228-237 | the rows exist exactly for an array of readable items |
| PurchaseOrder.DefinitionSucceeds | templates/purchaseOrder.js:22-297 | the definition succeeds exactly when every read it makes succeeds |
| PurchaseOrder.Build | templates/purchaseOrder.js:11-297 | a successful build is an object |
| PurchaseOrder.BuildSucceeds | templates/purchaseOrder.js:11-297 | the build succeeds exactly when the payload can be read throughout; the logo never decides it |
| PurchaseOrder.BuildFirstErrors | templates/purchaseOrder.js:107 | a missing payload fails reading `supplierInfo`; missing or non-array items fail calling `map` |
| PdfService.TemplateNamed | src/pdfService.js:53 | a module that loads is the one of that name |
| PdfService.TemplateNames | src/pdfService.js:53 | every module loads under its own name, and exactly the four names load a module |
| PdfService.RunTemplate | src/pdfService.js:54 | only `invoice` returns its definition directly; the three async templates return a promise |
| PdfService.PdfService.constructor | src/pdfService.js:29-47 | the service starts with its default styles |
| PdfService.DefaultStylesEntries | src/pdfService.js:30-46 | the default styles are exactly `header` (18), `subheader` (14) and `tableHeader` (12, black), all bold |
| PdfService.PdfService.AddCommonElements | src/pdfService.js:88-125 | the four in-place assignments leave the record decorated |
| PdfService.CommonElementsRead | src/pdfService.js:88-125 | header, footer, A4 and margins [40, 80, 40, 80] are always set, even over the template's values; every other property reads as before and keeps its place |
| PdfService.CommonElementsIdempotent | src/pdfService.js:88-125 | decorating twice reads the same as decorating once |
| PdfService.ContentKept | src/pdfService.js:88-125 | `content` and `styles` are left as the template built them |
| PdfService.FurnitureOnly | src/pdfService.js:88-125 | decorating an object without properties gives no `content` |
| PdfService.HeaderOnPage | src/pdfService.js:90-104 | the header for page p is the `assets/demo_logo.jpg` image at width 100, then right-aligned "Page p" |
| PdfService.FooterOnPage | src/pdfService.js:107-120 | the footer for page p of n is the signature line on the left and "Page p of n" on the right |
| PdfService.OutputName | src/pdfService.js:60 | the file is `documentNumber.pdf` when the number is truthy, else `document.pdf`; a nullish payload throws on the read |
| PdfService.Wrapped | src/pdfService.js:83-85 | the rethrown error's message is "Failed to generate PDF: " followed by the original message |
| PdfService.Settle | src/pdfService.js:65-82 | an open stream leaves the promise pending, an `error` rejects with that error, and an `end` resolves with the buffer, its base64 text (which decodes back to it) and the path |
| PdfService.PdfService.GeneratePdf | src/pdfService.js:49-86 | the imperative run (load, call, decorate in place, render, collect) settles as the function `PdfService.Generated` (the awaited version) of the same inputs |
| PdfService.ResolvedOutput | src/pdfService.js:68-76 | chunks and then `end` resolve with their in-order concatenation, its base64 text and the output path |
| PdfService.StreamErrorUnwrapped | src/pdfService.js:78 | a stream error rejects with that error, not wrapped |
| PdfService.FailuresWrapped | src/pdfService.js:50-85 | an unknown template name, a throwing template, a throwing renderer or a nullish payload each give the wrapped error |
| PdfService.InvoiceUnaffected | src/pdfService.js:54 | the synchronous invoice template gives the same outcome with or without `await` |
| PdfService.UnawaitedTemplateIgnored | src/pdfService.js:54-57 | as written, an async template's definition never reaches the renderer, which gets the four common properties and no `content` |
| PdfService.AwaitedTemplateRendered | src/pdfService.js:53-59 | with `await`, the renderer receives the template's definition, content and styles included, with the common properties on top |

## Left out

- **HTTP layer.** `server.js`, `routes/pdfRoutes.js` and `src/middleware/validateHeaders.js` are request plumbing (Express, CORS, status codes, uuid validation) and are not part of this model.
- **File storage.** `src/utils/fileHelper.js` is not part of this model. Reading a stored template and writing the output are the oracles `GeneratorEnv.readTemplate` and `GeneratorEnv.write`. The `output/<org>/<report>/<id>.pdf` scheme is whatever path the writer returns.
- **Rendering.** pdfmake/PdfKit rendering, `getFonts` and the font table are a black box, modelled as the renderer oracle.
  - The renderer returns the sequence of stream events it emits, or throws synchronously.
  - Piping the service's stream into a write stream (src/pdfService.js:63, 80) is not modelled. The output file's contents are not represented, only its path.
- **Fresh ids.** `uuidv4` is a fresh-id parameter.
- **Network and file reads.** `fetch` and `fs.readFile` in the image helper are oracles. A response body that fails to read is a failed load.
- **Directories.** `__dirname`, `process.cwd()` and the output directory are parameters (`ImageIo.root`, `ServiceEnv.cwd`, `ServiceEnv.outputDir`).
- **Path normalisation.** `path.join` is modelled as joining with "/" without normalisation (`LogoPath`, `JoinPath`, `ResolvePath`), and `path.isAbsolute` as a leading "/".
- **Concurrency.** `Promise.all` in the quotation's item rewrite and in `processImages` is modelled as an order-preserving sequential map. Asynchronous suspension is not modelled, because the results do not depend on it.
- **Template loading.** The dynamic `import()` of `templates/<name>.js` is a closed table of the four modules (`TemplateNamed`). An import failure is the `importFailure` oracle. `ServiceEnv.run` calls a module, and the lemmas that depend on the actual templates require it to be `RunTemplate`.
- **Unawaited promise.** The unhandled rejection of an unawaited async template is not modelled.
- **Numbers and text.** These are host parameters: number formatting (`toFixed`, `String(number)`), `quantity * unitPrice`, `toUpperCase` and the source text of functions in error messages. Layout constants such as 0.5, 0.8 and 107.8 are carried as exact reals and never computed with. NaN, infinities and UTF-16 code units are not modelled.
- **JavaScript property details.** Prototype properties are not modelled (every read sees own properties only), and neither is the enumeration order of integer-like keys. Objects are ordered field lists, and each constructed object is checked to have distinct keys.
- **Logging.** `console.error` calls in the templates' `catch` blocks are not modelled.
- PdfGenerator.WithDefaults: a template whose top-level JSON value is an array comes back unchanged. The source assigns `styles` and `defaultStyle` as named properties on that array (src/utils/pdfGenerator.js:108-109), and `resolveImages` returns the same array (src/utils/pdfGenerator.js:70-72). Arrays here are plain item sequences without named properties, so those two properties are not represented.
- ImageHelper.AsciiLower: `toLowerCase` is modelled for ASCII letters only. Only A-Z can lower-case to the letters of `.png` and `.gif`, so the MIME choice is unaffected.
- **Statement rows.** The statement template's `itemRows.push` of the totals row is modelled as appending to the row sequence, not as an in-place array update.

## Findings

| source | as written | input that shows it | evidently intended | confidence | as-written member | corrected member |
|---|---|---|---|---|---|---|
| src/pdfService.js:54 | `template.default(data, this.defaultStyles)` is not awaited, so for the three `async` templates `addCommonElements` decorates the Promise object. The renderer gets only header, footer, pageSize and pageMargins, with no `content`. | `generatePdf("quotation", data)` for any payload (also `"statementOfAccount"` and `"purchaseOrder"`) | `const docDefinition = await template.default(...)`, so that the template's content and styles are rendered | not executed | PdfService.GeneratedAsWritten (shown by PdfService.UnawaitedTemplateIgnored) | PdfService.Generated (proved by PdfService.AwaitedTemplateRendered, implemented by PdfService.PdfService.GeneratePdf) |
