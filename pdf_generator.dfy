/**
 * `generatePdf(organizationId, reportId, data)` of the template-driven
 * generator: read the stored template, substitute placeholders against
 * `{ data }`, fill in `styles` and `defaultStyle`, resolve `image` entries,
 * render, collect the rendered chunks and write the buffer under a fresh id.
 */
module PdfGenerator {
  import opened Wrappers
  import opened JsValue
  import opened Base64
  import opened ImageHelper
  import opened Placeholders
  import opened Documents

  // ---- resolveImages ----

  /** The entries `resolveImages` converts: key `image` with a non-empty string. */
  predicate ImageEntry(key: string, v: Value) {
    key == "image" && v.Str? && v.s != ""
  }

  /** `dataUrl || v`: the converted reference, or the original when conversion failed. */
  function ImageValue(io: ImageIo, s: string): (r: Value)
    ensures r.Str?
    ensures r == Str(s) || StartsWith(r.s, "data:")
    ensures GetImageDataUrl(io, Str(s)).Some? ==> r == Str(GetImageDataUrl(io, Str(s)).value)
    ensures GetImageDataUrl(io, Str(s)).None? ==> r == Str(s)
  {
    ImageResultIsDataUrl(io, Str(s));
    Or(Nullable(GetImageDataUrl(io, Str(s))), Str(s))
  }

  /**
   * `resolveImages(node)`: arrays keep their length and order, objects keep
   * their keys in order, an image entry takes `ImageValue`, every other
   * entry is resolved recursively, and other values are returned as they are.
   */
  function ResolvedImages(io: ImageIo, v: Value): (r: Value)
    ensures v.Arr? <==> r.Arr?
    ensures v.Obj? <==> r.Obj?
    ensures v.Arr? ==> |r.items| == |v.items|
    ensures v.Arr? ==> forall i :: 0 <= i < |v.items| ==> r.items[i] == ResolvedImages(io, v.items[i])
    ensures v.Obj? ==> Keys(r.fields) == Keys(v.fields)
    ensures !(v.Arr? || v.Obj?) ==> r == v
    decreases v
  {
    match v
    case Arr(items) =>
      Arr(seq(|items|, i requires 0 <= i < |items| => ResolvedImages(io, items[i])))
    case Obj(fields) =>
      Obj(seq(|fields|, i requires 0 <= i < |fields| =>
        Field(fields[i].key,
              if ImageEntry(fields[i].key, fields[i].value) then ImageValue(io, fields[i].value.s)
              else ResolvedImages(io, fields[i].value))))
    case _ => v
  }

  /** A tree without image entries. */
  predicate ImageFree(v: Value)
    decreases v
  {
    match v
    case Arr(items) => forall i :: 0 <= i < |items| ==> ImageFree(items[i])
    case Obj(fields) =>
      forall i :: 0 <= i < |fields| ==> !ImageEntry(fields[i].key, fields[i].value) && ImageFree(fields[i].value)
    case _ => true
  }

  /** Without image entries the walk changes nothing, whatever the image oracle answers. */
  lemma {:induction false} ResolveImageFree(io: ImageIo, v: Value)
    requires ImageFree(v)
    ensures ResolvedImages(io, v) == v
    decreases v
  {
    match v
    case Arr(items) =>
      forall i | 0 <= i < |items| ensures ResolvedImages(io, items[i]) == items[i] {
        ResolveImageFree(io, items[i]);
      }
    case Obj(fields) =>
      var r := ResolvedImages(io, v);
      forall i | 0 <= i < |fields| ensures r.fields[i] == fields[i] {
        ResolveImageFree(io, fields[i].value);
      }
    case _ =>
  }

  /**
   * Entry by entry: an image entry becomes the data URL the image helper
   * loaded for it, or stays as it was when loading failed; every other entry
   * is the resolved original.
   */
  lemma ResolvedEntry(io: ImageIo, fields: seq<Field>, i: nat)
    requires i < |fields|
    ensures var r := ResolvedImages(io, Obj(fields)).fields[i];
            r.key == fields[i].key
            && (ImageEntry(fields[i].key, fields[i].value) ==>
                  r.value.Str? && (r.value == fields[i].value || StartsWith(r.value.s, "data:"))
                  && (match GetImageDataUrl(io, fields[i].value)
                      case Some(url) => r.value == Str(url)
                      case None => r.value == fields[i].value))
            && (!ImageEntry(fields[i].key, fields[i].value) ==> r.value == ResolvedImages(io, fields[i].value))
  {
  }

  /** The walk keeps a well-formed tree well-formed. */
  lemma {:induction false} ResolvedImagesWellFormed(io: ImageIo, v: Value)
    requires WellFormed(v)
    ensures WellFormed(ResolvedImages(io, v))
    decreases v
  {
    match v
    case Arr(items) =>
      forall i | 0 <= i < |items| ensures WellFormed(ResolvedImages(io, items[i])) {
        ResolvedImagesWellFormed(io, items[i]);
      }
    case Obj(fields) =>
      var r := ResolvedImages(io, v);
      forall i | 0 <= i < |fields| ensures WellFormed(r.fields[i].value) {
        if !ImageEntry(fields[i].key, fields[i].value) {
          ResolvedImagesWellFormed(io, fields[i].value);
        }
      }
    case _ =>
  }

  /**
   * The walk itself: array slots are overwritten one by one, and an object
   * is rebuilt by assigning its entries, in order, to a fresh object.
   */
  method ResolveImages(io: ImageIo, node: Value) returns (r: Value)
    requires WellFormed(node)
    ensures r == ResolvedImages(io, node)
    decreases node
  {
    if node.Arr? {
      var items := node.items;
      var i := 0;
      while i < |items|
        invariant 0 <= i <= |items| == |node.items|
        invariant forall j :: 0 <= j < i ==> items[j] == ResolvedImages(io, node.items[j])
        invariant forall j :: i <= j < |items| ==> items[j] == node.items[j]
      {
        assert items[i] == node.items[i];
        var x := ResolveImages(io, items[i]);
        items := items[i := x];
        i := i + 1;
      }
      return Arr(items);
    } else if node.Obj? {
      var fields := node.fields;
      ghost var target := ResolvedImages(io, node).fields;
      var result: seq<Field> := [];
      var i := 0;
      while i < |fields|
        invariant 0 <= i <= |fields|
        invariant result == target[..i]
      {
        var f := fields[i];
        assert f.value < node;
        var x;
        if ImageEntry(f.key, f.value) {
          x := ImageValue(io, f.value.s);
        } else {
          x := ResolveImages(io, f.value);
        }
        assert Keys(result) == Keys(fields)[..i];
        assert f.key !in Keys(result) by {
          assert Keys(fields)[i] == f.key;
        }
        SetFresh(result, f.key, x);
        result := Set(result, f.key, x);
        assert target[..i + 1] == target[..i] + [target[i]];
        i := i + 1;
      }
      assert target[..|fields|] == target;
      return Obj(result);
    } else {
      return node;
    }
  }

  // ---- default filling ----

  const DefaultFont: Value := Obj([Field("font", Str("Roboto"))])

  /** `d.styles = d.styles || {}` and then `d.defaultStyle = d.defaultStyle || { font: 'Roboto' }`. */
  function DefaultsFilled(fields: seq<Field>): seq<Field> {
    var withStyles := Set(fields, "styles", Or(Get(Obj(fields), "styles"), Obj([])));
    Set(withStyles, "defaultStyle", Or(Get(Obj(withStyles), "defaultStyle"), DefaultFont))
  }

  /**
   * A truthy `styles` or `defaultStyle` is kept, a falsy or missing one gets
   * its default; both keys are present afterwards, an existing key keeps its
   * place, a new one is appended, and no other entry changes.
   */
  lemma DefaultsFilledFacts(fields: seq<Field>)
    ensures var r := DefaultsFilled(fields);
            var styles := Get(Obj(fields), "styles");
            var defaultStyle := Get(Obj(fields), "defaultStyle");
            Keys(r) == NoteKey(NoteKey(Keys(fields), "styles"), "defaultStyle")
            && FieldOf(r, "styles") == Some(if Truthy(styles) then styles else Obj([]))
            && FieldOf(r, "defaultStyle") == Some(if Truthy(defaultStyle) then defaultStyle else DefaultFont)
            && forall k :: k != "styles" && k != "defaultStyle" ==> FieldOf(r, k) == FieldOf(fields, k)
  {
    var withStyles := Set(fields, "styles", Or(Get(Obj(fields), "styles"), Obj([])));
    SetFacts(fields, "styles", Or(Get(Obj(fields), "styles"), Obj([])));
    SetFacts(withStyles, "defaultStyle", Or(Get(Obj(withStyles), "defaultStyle"), DefaultFont));
    assert Get(Obj(withStyles), "defaultStyle") == Get(Obj(fields), "defaultStyle");
  }

  /** Filling defaults twice is filling them once. */
  lemma DefaultsIdempotent(fields: seq<Field>)
    ensures DefaultsFilled(DefaultsFilled(fields)) == DefaultsFilled(fields)
  {
    var r := DefaultsFilled(fields);
    DefaultsFilledFacts(fields);
    var styles := Get(Obj(r), "styles");
    var defaultStyle := Get(Obj(r), "defaultStyle");
    assert Truthy(styles);
    assert Truthy(defaultStyle);
    SetUnchanged(r, "styles");
    var w := Set(r, "styles", Or(styles, Obj([])));
    assert w == r;
    SetUnchanged(r, "defaultStyle");
  }

  /** Assigning a key the value it already has changes nothing. */
  lemma {:induction false} SetUnchanged(fields: seq<Field>, key: string)
    requires FieldOf(fields, key).Some?
    ensures Set(fields, key, FieldOf(fields, key).value) == fields
  {
    if fields[0].key != key {
      SetUnchanged(fields[1..], key);
    }
  }

  /** The in-place version on the document record. */
  method FillDefaults(doc: DocumentRecord)
    modifies doc
    ensures doc.fields == DefaultsFilled(old(doc.fields))
  {
    doc.Assign("styles", Or(doc.Lookup("styles"), Obj([])));
    doc.Assign("defaultStyle", Or(doc.Lookup("defaultStyle"), DefaultFont));
  }

  /**
   * The two assignments on whatever the substitution returned: an object gets
   * its defaults; reading `styles` of null or undefined throws; assigning a
   * property on a string, number or boolean throws in strict mode.
   */
  function WithDefaults(h: Host, doc: Value): (r: Outcome<Value>)
    ensures r.Ok? && doc.Obj? ==> r.value == Obj(DefaultsFilled(doc.fields))
    ensures r.Err? <==> !(doc.Obj? || doc.Arr? || doc.Fn?)
    ensures Nullish(doc) ==> r == Err(ReadError(doc, "styles"))
  {
    match doc
    case Obj(fields) => Ok(Obj(DefaultsFilled(fields)))
    case Undef => Err(ReadError(doc, "styles"))
    case Null => Err(ReadError(doc, "styles"))
    case Bool(_) => Err(PrimitiveAssignError(h, "boolean", doc))
    case Num(_) => Err(PrimitiveAssignError(h, "number", doc))
    case Str(_) => Err(PrimitiveAssignError(h, "string", doc))
    case _ => Ok(doc)
  }

  function PrimitiveAssignError(h: Host, kind: string, v: Value): Exception {
    TypeError("Cannot create property 'styles' on " + kind + " '" + ToStr(h, v) + "'")
  }

  lemma DefaultsWellFormed(fields: seq<Field>)
    requires WellFormed(Obj(fields))
    ensures WellFormed(Obj(DefaultsFilled(fields)))
  {
    var styles := Or(Get(Obj(fields), "styles"), Obj([]));
    var withStyles := Set(fields, "styles", styles);
    var defaultStyle := Or(Get(Obj(withStyles), "defaultStyle"), DefaultFont);
    var r := Set(withStyles, "defaultStyle", defaultStyle);
    SetDistinct(fields, "styles", styles);
    SetDistinct(withStyles, "defaultStyle", defaultStyle);
    SetValues(fields, "styles", styles);
    SetValues(withStyles, "defaultStyle", defaultStyle);
    OrWellFormedStyles(fields);
    OrWellFormedDefault(withStyles);
  }

  lemma OrWellFormedStyles(fields: seq<Field>)
    requires WellFormed(Obj(fields))
    ensures WellFormed(Or(Get(Obj(fields), "styles"), Obj([])))
  {
    FieldValueWellFormed(fields, "styles");
  }

  lemma OrWellFormedDefault(fields: seq<Field>)
    requires WellFormed(Obj(fields))
    ensures WellFormed(Or(Get(Obj(fields), "defaultStyle"), DefaultFont))
  {
    FieldValueWellFormed(fields, "defaultStyle");
  }

  lemma {:induction false} FieldValueWellFormed(fields: seq<Field>, key: string)
    requires forall i :: 0 <= i < |fields| ==> WellFormed(fields[i].value)
    ensures WellFormed(Get(Obj(fields), key))
  {
    if fields != [] && fields[0].key != key {
      FieldValueWellFormed(fields[1..], key);
    }
  }

  /** Every value after an assignment is the assigned one or an old one. */
  lemma {:induction false} SetValues(fields: seq<Field>, key: string, val: Value)
    ensures forall i :: 0 <= i < |Set(fields, key, val)| ==>
              Set(fields, key, val)[i].value == val || exists j :: 0 <= j < |fields| && Set(fields, key, val)[i].value == fields[j].value
  {
    if fields != [] && fields[0].key != key {
      SetValues(fields[1..], key, val);
      var r := Set(fields, key, val);
      forall i | 1 <= i < |r|
        ensures r[i].value == val || exists j :: 0 <= j < |fields| && r[i].value == fields[j].value
      {
        assert r[i] == Set(fields[1..], key, val)[i - 1];
        if r[i].value != val {
          var j :| 0 <= j < |fields[1..]| && r[i].value == fields[1..][j].value;
          assert r[i].value == fields[j + 1].value;
        }
      }
      assert r[0].value == fields[0].value;
    } else if fields != [] {
      var r := Set(fields, key, val);
      forall i | 1 <= i < |r| ensures r[i].value == fields[i].value {
      }
    }
  }

  /** Substitution keeps a well-formed tree well-formed. */
  lemma {:induction false} ResolvedPlaceholdersWellFormed(h: Host, root: Value, v: Value)
    requires WellFormed(v)
    ensures WellFormed(ResolvePlaceholders(h, root, v))
    decreases v
  {
    match v
    case Arr(items) =>
      forall i | 0 <= i < |items| ensures WellFormed(ResolvePlaceholders(h, root, items[i])) {
        ResolvedPlaceholdersWellFormed(h, root, items[i]);
      }
    case Obj(fields) =>
      forall i | 0 <= i < |fields| ensures WellFormed(ResolvePlaceholders(h, root, fields[i].value)) {
        ResolvedPlaceholdersWellFormed(h, root, fields[i].value);
      }
    case _ =>
  }

  /** The three steps, in their order: substitution, defaults, images. */
  function Assembled(h: Host, io: ImageIo, template: Value, data: Value): Outcome<Value> {
    var doc :- WithDefaults(h, ResolvePlaceholders(h, DataRoot(data), template));
    Ok(ResolvedImages(io, doc))
  }

  /**
   * A template object without markers or image entries reaches the renderer
   * as itself with its defaults filled in, whatever the payload.
   */
  lemma PlainTemplate(h: Host, io: ImageIo, fields: seq<Field>, data: Value)
    requires MarkerFree(Obj(fields)) && ImageFree(Obj(fields))
    ensures Assembled(h, io, Obj(fields), data) == Ok(Obj(DefaultsFilled(fields)))
  {
    ResolveMarkerFree(h, DataRoot(data), Obj(fields));
    DefaultsImageFree(fields);
    ResolveImageFree(io, Obj(DefaultsFilled(fields)));
  }

  /** Reading a key of a resolved object reads the original entry, resolved. */
  lemma {:induction false} ResolvedKeyRead(io: ImageIo, fields: seq<Field>, k: string)
    ensures FieldOf(ResolvedImages(io, Obj(fields)).fields, k)
            == match FieldOf(fields, k)
               case None => None
               case Some(v) => Some(if ImageEntry(k, v) then ImageValue(io, v.s) else ResolvedImages(io, v))
    decreases |fields|
  {
    if fields != [] {
      ResolvedSplit(io, fields);
      ResolvedKeyRead(io, fields[1..], k);
    }
  }

  /** The resolved object is the resolved first entry followed by the resolved rest. */
  lemma ResolvedSplit(io: ImageIo, fields: seq<Field>)
    requires fields != []
    ensures var r := ResolvedImages(io, Obj(fields)).fields;
            && r != []
            && r[0] == Field(fields[0].key,
                             if ImageEntry(fields[0].key, fields[0].value) then ImageValue(io, fields[0].value.s)
                             else ResolvedImages(io, fields[0].value))
            && r[1..] == ResolvedImages(io, Obj(fields[1..])).fields
  {
    var r := ResolvedImages(io, Obj(fields)).fields;
    assert r[1..] == ResolvedImages(io, Obj(fields[1..])).fields;
  }

  /**
   * A template whose `image` is a non-empty string without markers reaches
   * the renderer with the data URL the image helper loaded for it, or with
   * the original string when loading failed.
   */
  lemma TemplateImageLoaded(h: Host, io: ImageIo, fields: seq<Field>, data: Value, s: string)
    requires MarkerFree(Obj(fields))
    requires FieldOf(fields, "image") == Some(Str(s)) && s != ""
    ensures Assembled(h, io, Obj(fields), data) == Ok(ResolvedImages(io, Obj(DefaultsFilled(fields))))
    ensures match GetImageDataUrl(io, Str(s))
            case Some(url) => Get(Assembled(h, io, Obj(fields), data).value, "image") == Str(url)
            case None => Get(Assembled(h, io, Obj(fields), data).value, "image") == Str(s)
  {
    ResolveMarkerFree(h, DataRoot(data), Obj(fields));
    DefaultsKeepImage(fields);
    ResolvedKeyRead(io, DefaultsFilled(fields), "image");
  }

  lemma DefaultsKeepImage(fields: seq<Field>)
    ensures FieldOf(DefaultsFilled(fields), "image") == FieldOf(fields, "image")
  {
    var styles := Or(Get(Obj(fields), "styles"), Obj([]));
    var withStyles := Set(fields, "styles", styles);
    SetFacts(fields, "styles", styles);
    SetFacts(withStyles, "defaultStyle", Or(Get(Obj(withStyles), "defaultStyle"), DefaultFont));
  }

  lemma DefaultsImageFree(fields: seq<Field>)
    requires ImageFree(Obj(fields))
    ensures ImageFree(Obj(DefaultsFilled(fields)))
  {
    var styles := Or(Get(Obj(fields), "styles"), Obj([]));
    var withStyles := Set(fields, "styles", styles);
    var defaultStyle := Or(Get(Obj(withStyles), "defaultStyle"), DefaultFont);
    FieldValueImageFree(fields, "styles");
    SetImageFree(fields, "styles", styles);
    FieldValueImageFree(withStyles, "defaultStyle");
    SetImageFree(withStyles, "defaultStyle", defaultStyle);
  }

  lemma {:induction false} FieldValueImageFree(fields: seq<Field>, key: string)
    requires ImageFree(Obj(fields))
    ensures ImageFree(Get(Obj(fields), key))
  {
    if fields != [] && fields[0].key != key {
      FieldValueImageFree(fields[1..], key);
    }
  }

  lemma {:induction false} SetImageFree(fields: seq<Field>, key: string, val: Value)
    requires ImageFree(Obj(fields)) && ImageFree(val) && key != "image"
    ensures ImageFree(Obj(Set(fields, key, val)))
  {
    if fields != [] && fields[0].key != key {
      SetImageFree(fields[1..], key, val);
      var r := Set(fields, key, val);
      assert forall i :: 1 <= i < |r| ==> r[i] == Set(fields[1..], key, val)[i - 1];
    } else if fields != [] {
      var r := Set(fields, key, val);
      assert forall i :: 1 <= i < |r| ==> r[i] == fields[i];
    }
  }

  // ---- the rendered stream ----

  /** What the renderer's stream emits: data chunks, then `end` or `error`. */
  datatype Event = Chunk(bytes: Bytes) | End | Failure(e: Exception)

  /** How the stream has finished: not at all, with the collected buffer, or with an error. */
  datatype StreamEnd = Open | Ended(buffer: Bytes) | Failed(e: Exception)

  /** `Buffer.concat(chunks)` */
  function Concat(chunks: seq<Bytes>): (b: Bytes)
    ensures chunks == [] ==> b == []
    decreases |chunks|
  {
    if chunks == [] then [] else Concat(chunks[..|chunks| - 1]) + chunks[|chunks| - 1]
  }

  /** The buffer of a concatenation is the buffers of its halves, in order. */
  lemma {:induction false} ConcatAppend(a: seq<Bytes>, b: seq<Bytes>)
    ensures Concat(a + b) == Concat(a) + Concat(b)
    decreases |b|
  {
    if b != [] {
      var init := b[..|b| - 1];
      var last := b[|b| - 1];
      assert (a + b)[..|a + b| - 1] == a + init;
      assert (a + b)[|a + b| - 1] == last;
      ConcatAppend(a, init);
      calc {
        Concat(a + b);
        Concat(a + init) + last;
        Concat(a) + Concat(init) + last;
        Concat(a) + (Concat(init) + last);
      }
    } else {
      assert a + b == a;
    }
  }

  /** The first `end` or `error` decides; the buffer is every chunk before it, in order. */
  function StreamResult(events: seq<Event>): StreamEnd
    decreases |events|
  {
    if events == [] then Open
    else match events[0]
      case Chunk(b) =>
        (match StreamResult(events[1..])
         case Ended(rest) => Ended(b + rest)
         case other => other)
      case End => Ended([])
      case Failure(e) => Failed(e)
  }

  /** With only chunks before an `end`, the buffer is their concatenation. */
  lemma {:induction false} EndedBuffer(chunks: seq<Bytes>, rest: seq<Event>)
    ensures StreamResult(ChunkEvents(chunks) + [End] + rest) == Ended(Concat(chunks))
    decreases |chunks|
  {
    if chunks == [] {
      assert ChunkEvents(chunks) + [End] + rest == [End] + rest;
    } else {
      var tail := chunks[1..];
      assert (ChunkEvents(chunks) + [End] + rest)[1..] == ChunkEvents(tail) + [End] + rest;
      EndedBuffer(tail, rest);
      ConcatAppend([chunks[0]], tail);
      assert chunks == [chunks[0]] + tail;
      assert Concat([chunks[0]]) == Concat([]) + chunks[0];
    }
  }

  function ChunkEvents(chunks: seq<Bytes>): (es: seq<Event>)
    ensures |es| == |chunks|
    ensures forall i :: 0 <= i < |chunks| ==> es[i] == Chunk(chunks[i])
  {
    seq(|chunks|, i requires 0 <= i < |chunks| => Chunk(chunks[i]))
  }

  /**
   * The `data`, `end` and `error` handlers: chunks are pushed as they come,
   * and the first `end` concatenates them.
   */
  method Collect(events: seq<Event>) returns (s: StreamEnd)
    ensures s == StreamResult(events)
  {
    var chunks: seq<Bytes> := [];
    var i := 0;
    while i < |events|
      invariant 0 <= i <= |events|
      invariant forall j :: 0 <= j < i ==> events[j].Chunk?
      invariant events[..i] == ChunkEvents(chunks)
    {
      match events[i] {
      case Chunk(b) =>
        chunks := chunks + [b];
        assert events[..i + 1] == events[..i] + [events[i]];
      case End =>
        assert events == ChunkEvents(chunks) + [End] + events[i + 1..] by {
          assert events == events[..i] + [events[i]] + events[i + 1..];
        }
        EndedBuffer(chunks, events[i + 1..]);
        return Ended(Concat(chunks));
      case Failure(e) =>
        assert events == ChunkEvents(chunks) + [Failure(e)] + events[i + 1..] by {
          assert events == events[..i] + [events[i]] + events[i + 1..];
        }
        FailedStream(chunks, e, events[i + 1..]);
        return Failed(e);
      }
      i := i + 1;
    }
    assert events == ChunkEvents(chunks);
    OpenStream(chunks);
    return Open;
  }

  lemma {:induction false} FailedStream(chunks: seq<Bytes>, e: Exception, rest: seq<Event>)
    ensures StreamResult(ChunkEvents(chunks) + [Failure(e)] + rest) == Failed(e)
    decreases |chunks|
  {
    if chunks == [] {
      assert ChunkEvents(chunks) + [Failure(e)] + rest == [Failure(e)] + rest;
    } else {
      assert (ChunkEvents(chunks) + [Failure(e)] + rest)[1..] == ChunkEvents(chunks[1..]) + [Failure(e)] + rest;
      FailedStream(chunks[1..], e, rest);
    }
  }

  lemma {:induction false} OpenStream(chunks: seq<Bytes>)
    ensures StreamResult(ChunkEvents(chunks)) == Open
    decreases |chunks|
  {
    if chunks != [] {
      assert ChunkEvents(chunks)[1..] == ChunkEvents(chunks[1..]);
      OpenStream(chunks[1..]);
    }
  }

  // ---- generatePdf ----

  /** A promise: still pending, or settled with a value or an error. */
  datatype Settlement<T> = Pending | Settled(outcome: Outcome<T>)

  /** `{ pdfId, pdfPath }` */
  datatype Artifact = Artifact(pdfId: string, pdfPath: string)

  /**
   * The collaborators: the host, the image oracle, the template store
   * (`readTemplateJson`, which parses JSON), the renderer (which may throw
   * synchronously), the fresh id `uuidv4()` hands out, and `writePdfBuffer`.
   */
  datatype GeneratorEnv = GeneratorEnv(
    host: Host,
    images: ImageIo,
    readTemplate: (string, string) -> Outcome<Value>,
    render: Value -> Outcome<seq<Event>>,
    freshId: string,
    write: (string, string, string, Bytes) -> Outcome<string>)

  const NotFound: Exception := Thrown("Report not found", None)

  /** The template read with its error mapping: ENOENT becomes "Report not found", the rest is rethrown. */
  function LoadTemplate(env: GeneratorEnv, org: string, report: string): (r: Outcome<Value>)
    ensures env.readTemplate(org, report).Ok? ==> r == env.readTemplate(org, report)
    ensures env.readTemplate(org, report).Err? ==>
              r == Err(if env.readTemplate(org, report).error.Code() == Some("ENOENT") then NotFound
                       else env.readTemplate(org, report).error)
  {
    match env.readTemplate(org, report)
    case Ok(t) => Ok(t)
    case Err(e) => Err(if e.Code() == Some("ENOENT") then NotFound else e)
  }

  /** What the `end` handler does with the buffer. */
  function Finish(env: GeneratorEnv, org: string, report: string, s: StreamEnd): Settlement<Artifact> {
    match s
    case Open => Pending
    case Failed(e) => Settled(Err(e))
    case Ended(buffer) =>
      match env.write(org, report, env.freshId, buffer)
      case Ok(path) => Settled(Ok(Artifact(env.freshId, path)))
      case Err(e) => Settled(Err(e))
  }

  /** The promise `generatePdf` returns. */
  function GeneratedPdf(env: GeneratorEnv, org: string, report: string, data: Value): Settlement<Artifact> {
    match LoadTemplate(env, org, report)
    case Err(e) => Settled(Err(e))
    case Ok(template) =>
      match Assembled(env.host, env.images, template, data)
      case Err(e) => Settled(Err(e))
      case Ok(doc) =>
        match env.render(doc)
        case Err(e) => Settled(Err(e))
        case Ok(events) => Finish(env, org, report, StreamResult(events))
  }

  method GeneratePdf(env: GeneratorEnv, org: string, report: string, data: Value) returns (r: Settlement<Artifact>)
    requires env.readTemplate(org, report).Ok? ==> WellFormed(env.readTemplate(org, report).value)
    ensures r == GeneratedPdf(env, org, report, data)
  {
    var loaded := LoadTemplate(env, org, report);
    if loaded.Err? {
      return Settled(Err(loaded.error));
    }
    var root := DataRoot(data);
    var resolved := ResolvePlaceholders(env.host, root, loaded.value);
    ResolvedPlaceholdersWellFormed(env.host, root, loaded.value);
    var withDefaults: Value;
    if resolved.Obj? {
      var doc := new DocumentRecord(resolved.fields);
      FillDefaults(doc);
      withDefaults := Obj(doc.fields);
      DefaultsWellFormed(resolved.fields);
    } else {
      var filled := WithDefaults(env.host, resolved);
      if filled.Err? {
        return Settled(Err(filled.error));
      }
      withDefaults := filled.value;
    }
    var docDefinition := ResolveImages(env.images, withDefaults);
    var rendered := env.render(docDefinition);
    if rendered.Err? {
      return Settled(Err(rendered.error));
    }
    var ended := Collect(rendered.value);
    r := Finish(env, org, report, ended);
  }

  /** A missing template settles as "Report not found"; nothing is rendered or written. */
  lemma MissingTemplate(env: GeneratorEnv, org: string, report: string, data: Value, e: Exception)
    requires env.readTemplate(org, report) == Err(e)
    ensures e.Code() == Some("ENOENT") ==> GeneratedPdf(env, org, report, data) == Settled(Err(NotFound))
    ensures e.Code() != Some("ENOENT") ==> GeneratedPdf(env, org, report, data) == Settled(Err(e))
    ensures forall render, write ::
              GeneratedPdf(env.(render := render, write := write), org, report, data)
              == GeneratedPdf(env, org, report, data)
  {
  }

  /**
   * When the renderer emits chunks and then `end`, the buffer written under
   * the fresh id is the chunks concatenated in order.
   */
  lemma WrittenBuffer(env: GeneratorEnv, org: string, report: string, data: Value,
                      doc: Value, chunks: seq<Bytes>, rest: seq<Event>)
    requires LoadTemplate(env, org, report).Ok?
    requires Assembled(env.host, env.images, LoadTemplate(env, org, report).value, data) == Ok(doc)
    requires env.render(doc) == Ok(ChunkEvents(chunks) + [End] + rest)
    ensures GeneratedPdf(env, org, report, data)
            == match env.write(org, report, env.freshId, Concat(chunks))
               case Ok(path) => Settled(Ok(Artifact(env.freshId, path)))
               case Err(e) => Settled(Err(e))
  {
    EndedBuffer(chunks, rest);
  }
}
