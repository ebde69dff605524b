/**
 * Turning an image reference (a data URL, an http(s) URL or a file path) into
 * a data URL as in section 3 of RFC 2397, with a base64 body.  The network
 * and the file system are oracles: `fetch` answers a URL with a response or a
 * network failure, `readFile` answers an absolute path with the file's bytes
 * or a failure.
 */
module ImageHelper {
  import opened Wrappers
  import opened JsValue
  import opened Base64

  /** What `fetch(url)` settles to: a rejection, or a response whose body may still fail to read. */
  datatype FetchOutcome =
    | NetworkError
    | Response(ok: bool, contentType: Option<string>, body: Option<Bytes>)

  /** The image sources: the project root, the network and the file system. */
  datatype ImageIo = ImageIo(
    root: string,
    fetch: string -> FetchOutcome,
    readFile: string -> Option<Bytes>)

  predicate StartsWith(s: string, prefix: string) {
    |prefix| <= |s| && s[..|prefix|] == prefix
  }

  // ---- data URLs ----

  function DataUrl(mime: string, body: Bytes): string {
    "data:" + mime + ";base64," + Encode(body)
  }

  function FirstIndexOf(s: string, c: char): (r: Option<nat>)
    ensures r.Some? ==> r.value < |s| && s[r.value] == c && c !in s[..r.value]
    ensures r.None? ==> c !in s
  {
    if s == [] then None
    else if s[0] == c then Some(0)
    else match FirstIndexOf(s[1..], c)
      case Some(k) => assert s[..k + 1] == [s[0]] + s[1..][..k]; Some(k + 1)
      case None => None
  }

  /** The media type and the decoded body of a base64 data URL. */
  function ParseDataUrl(s: string): Option<(string, Bytes)> {
    if !StartsWith(s, "data:") then None
    else match FirstIndexOf(s, ',')
      case None => None
      case Some(k) =>
        if k < 12 || s[k - 7..k] != ";base64" then None
        else match Decode(s[k + 1..])
          case None => None
          case Some(body) => Some((s[5..k - 7], body))
  }

  lemma {:induction false} FirstIndexAfter(x: string, y: string, c: char)
    requires c !in x && |y| > 0 && y[0] == c
    ensures FirstIndexOf(x + y, c) == Some(|x|)
    decreases |x|
  {
    if x != [] {
      assert (x + y)[1..] == x[1..] + y;
      FirstIndexAfter(x[1..], y, c);
    }
  }

  lemma FiveParts(a: string, b: string, c: string, d: string, e: string)
    ensures var s := a + b + c + d + e;
            s[|a|..|a| + |b|] == b && s[|a| + |b|..|a| + |b| + |c|] == c && s[|a| + |b| + |c| + |d|..] == e
  {
    var s := a + b + c + d + e;
    assert s[|a|..|a| + |b|] == b by {
      forall i | 0 <= i < |b| ensures s[|a| + i] == b[i] { assert (a + b)[|a| + i] == b[i]; }
    }
    assert s[|a| + |b|..|a| + |b| + |c|] == c by {
      forall i | 0 <= i < |c| ensures s[|a| + |b| + i] == c[i] { assert (a + b + c)[|a| + |b| + i] == c[i]; }
    }
  }

  lemma CommaAfterBase64(mime: string, e: string)
    requires ',' !in mime
    ensures FirstIndexOf("data:" + mime + ";base64," + e, ',') == Some(|mime| + 12)
  {
    var x := "data:" + mime + ";base64";
    assert ";base64" + "," == ";base64,";
    assert "data:" + mime + ";base64," + e == x + ("," + e);
    assert ',' !in x;
    FirstIndexAfter(x, "," + e, ',');
  }

  lemma DataUrlSlices(mime: string, e: string)
    ensures var s := "data:" + mime + ";base64," + e;
            var k := |mime| + 12;
            StartsWith(s, "data:") && s[k - 7..k] == ";base64" && s[k + 1..] == e && s[5..k - 7] == mime
  {
    var s := "data:" + mime + ";base64," + e;
    assert ";base64" + "," == ";base64,";
    assert s == "data:" + mime + ";base64" + "," + e;
    FiveParts("data:", mime, ";base64", ",", e);
    assert s[..5] == "data:";
  }

  /** Parsing a data URL gives back the media type and the bytes it was built from. */
  lemma DataUrlRoundTrip(mime: string, body: Bytes)
    requires ',' !in mime
    ensures ParseDataUrl(DataUrl(mime, body)) == Some((mime, body))
  {
    CommaAfterBase64(mime, Encode(body));
    DataUrlSlices(mime, Encode(body));
    RoundTrip(body);
  }

  // ---- file paths ----

  /** A relative path is joined under the project root; an absolute one is kept. */
  function ResolvePath(root: string, p: string): string {
    if StartsWith(p, "/") then p else root + "/" + p
  }

  function TrimTrailingSlashes(p: string): string
    decreases |p|
  {
    if |p| > 0 && p[|p| - 1] == '/' then TrimTrailingSlashes(p[..|p| - 1]) else p
  }

  /** The part of `s` after its last `c`. */
  function AfterLast(s: string, c: char): string
    decreases |s|
  {
    if s == [] then []
    else if s[|s| - 1] == c then []
    else AfterLast(s[..|s| - 1], c) + [s[|s| - 1]]
  }

  function LastIndexOf(s: string, c: char): (r: Option<nat>)
    ensures r.Some? ==> r.value < |s| && s[r.value] == c && c !in s[r.value + 1..]
    ensures r.None? ==> c !in s
    decreases |s|
  {
    if s == [] then None
    else if s[|s| - 1] == c then Some(|s| - 1)
    else LastIndexOf(s[..|s| - 1], c)
  }

  /**
   * POSIX `path.extname`: from the last '.' of the last segment to its end,
   * or "" when there is no dot, the dot begins the segment, or the segment is "..".
   */
  function ExtName(p: string): string {
    var seg := AfterLast(TrimTrailingSlashes(p), '/');
    match LastIndexOf(seg, '.')
    case None => ""
    case Some(d) => if d == 0 || seg == ".." then "" else seg[d..]
  }

  /** Lower-casing; only ASCII letters can lower-case to the letters of ".png" and ".gif". */
  function AsciiLower(s: string): (r: string)
    ensures |r| == |s|
    ensures forall i :: 0 <= i < |r| ==> !IsUpper(r[i])
    ensures forall i :: 0 <= i < |s| && IsUpper(s[i]) ==> r[i] as int == s[i] as int + 32
    ensures forall i :: 0 <= i < |s| && !IsUpper(s[i]) ==> r[i] == s[i]
  {
    seq(|s|, i requires 0 <= i < |s| =>
      if IsUpper(s[i]) then (s[i] as int - 'A' as int + 'a' as int) as char else s[i])
  }

  lemma LowerPng()
    ensures AsciiLower("png") == "png"
  {
    var s := "png";
    assert !IsUpper(s[0]) && !IsUpper(s[1]) && !IsUpper(s[2]);
    AsciiLowerFixed(s);
  }

  predicate IsUpper(c: char) {
    'A' <= c <= 'Z'
  }

  /** Lower-casing leaves a string alone exactly when it has no capital letter, so it is idempotent. */
  lemma AsciiLowerFixed(s: string)
    ensures AsciiLower(s) == s <==> forall i :: 0 <= i < |s| ==> !IsUpper(s[i])
    ensures AsciiLower(AsciiLower(s)) == AsciiLower(s)
  {
    var r := AsciiLower(s);
    if r == s {
      assert forall i :: 0 <= i < |s| ==> !IsUpper(s[i]) by {
        forall i | 0 <= i < |s| ensures !IsUpper(s[i]) { assert r[i] == s[i]; }
      }
    }
  }

  function MimeOf(path: string): string {
    var ext := AsciiLower(ExtName(path));
    if ext == ".png" then "image/png" else if ext == ".gif" then "image/gif" else "image/jpeg"
  }

  lemma {:induction false} AfterLastOfSuffix(dir: string, name: string, c: char)
    requires c !in name && (dir == [] || dir[|dir| - 1] == c)
    ensures AfterLast(dir + name, c) == name
    decreases |name|
  {
    if name == [] {
      assert dir + name == dir;
    } else {
      var init := name[..|name| - 1];
      assert (dir + name)[..|dir + name| - 1] == dir + init;
      AfterLastOfSuffix(dir, init, c);
      assert name == init + [name[|name| - 1]];
    }
  }

  lemma {:induction false} LastIndexBefore(x: string, y: string, c: char)
    requires c !in y
    ensures LastIndexOf(x + [c] + y, c) == Some(|x|)
    decreases |y|
  {
    if y != [] {
      var s := x + [c] + y;
      assert s[..|s| - 1] == x + [c] + y[..|y| - 1];
      LastIndexBefore(x, y[..|y| - 1], c);
    }
  }

  /** The extension of a file name `stem.e` in any directory is ".e". */
  lemma NameWithoutSlash(stem: string, e: string)
    requires '/' !in stem && '/' !in e
    ensures '/' !in stem + "." + e
  {
    assert '/' !in ".";
  }

  lemma NoTrailingSlash(p: string)
    requires p != [] && p[|p| - 1] != '/'
    ensures TrimTrailingSlashes(p) == p
  {
  }

  /** The extension of the file name `stem.e`, once it is the last segment. */
  lemma ExtOfSegment(p: string, stem: string, e: string)
    requires stem != [] && |e| >= 1 && '.' !in e
    requires AfterLast(TrimTrailingSlashes(p), '/') == stem + "." + e
    ensures ExtName(p) == "." + e
  {
    var name := stem + "." + e;
    LastIndexBefore(stem, e, '.');
    assert |name| >= 3;
    assert name[|stem|..] == "." + e;
  }

  lemma ExtNameOfFile(dir: string, stem: string, e: string)
    requires dir == [] || dir[|dir| - 1] == '/'
    requires stem != [] && |e| >= 1
    requires '/' !in stem && '/' !in e && '.' !in e
    ensures ExtName(dir + stem + "." + e) == "." + e
  {
    var name := stem + "." + e;
    var p := dir + name;
    assert p == dir + stem + "." + e;
    assert p[|p| - 1] == e[|e| - 1];
    NoTrailingSlash(p);
    NameWithoutSlash(stem, e);
    AfterLastOfSuffix(dir, name, '/');
    ExtOfSegment(p, stem, e);
  }

  /** The media type of a file follows its extension, in any letter case. */
  lemma MimeOfFile(dir: string, stem: string, e: string)
    requires dir == [] || dir[|dir| - 1] == '/'
    requires stem != [] && |e| >= 1
    requires '/' !in stem && '/' !in e && '.' !in e
    ensures MimeOf(dir + stem + "." + e)
            == if AsciiLower(e) == "png" then "image/png"
               else if AsciiLower(e) == "gif" then "image/gif"
               else "image/jpeg"
  {
    ExtNameOfFile(dir, stem, e);
    LowerDotted(e);
    MimeOfExt(AsciiLower(e));
  }

  lemma MimeOfExt(x: string)
    ensures (if "." + x == ".png" then "image/png" else if "." + x == ".gif" then "image/gif" else "image/jpeg")
            == (if x == "png" then "image/png" else if x == "gif" then "image/gif" else "image/jpeg")
  {
    assert "." + "png" == ".png" && "." + "gif" == ".gif";
    DotCancels(x, "png");
    DotCancels(x, "gif");
  }

  lemma LowerDotted(e: string)
    ensures AsciiLower("." + e) == "." + AsciiLower(e)
  {
  }

  lemma DotCancels(x: string, y: string)
    ensures "." + x == "." + y <==> x == y
  {
    if "." + x == "." + y {
      assert x == ("." + x)[1..];
    }
  }

  // ---- getImageDataUrl ----

  /** The media type of a response: its content-type header unless absent or empty. */
  function ResponseType(ct: Option<string>): string {
    if ct.Some? && ct.value != "" then ct.value else "image/png"
  }

  function FetchDataUrl(resp: FetchOutcome): Option<string> {
    match resp
    case NetworkError => None
    case Response(ok, ct, body) =>
      if !ok || body.None? then None else Some(DataUrl(ResponseType(ct), body.value))
  }

  function ReadDataUrl(io: ImageIo, p: string): Option<string> {
    var path := ResolvePath(io.root, p);
    match io.readFile(path)
    case None => None
    case Some(bytes) => Some(DataUrl(MimeOf(path), bytes))
  }

  predicate IsRemote(s: string) {
    StartsWith(s, "http://") || StartsWith(s, "https://")
  }

  /**
   * `ImageHelper.getImageDataUrl(input)`.  It never throws: every failure,
   * including calling `startsWith` on a value that is not a string, is null.
   */
  function GetImageDataUrl(io: ImageIo, input: Value): (r: Option<string>)
    ensures !Truthy(input) ==> r.None?
    ensures input.Str? && StartsWith(input.s, "data:image/") ==> r == Some(input.s)
    ensures Truthy(input) && !input.Str? ==> r.None?
  {
    if !Truthy(input) then None
    else if input.Str? && StartsWith(input.s, "data:image/") then Some(input.s)
    else if !input.Str? then None
    else if IsRemote(input.s) then FetchDataUrl(io.fetch(input.s))
    else ReadDataUrl(io, input.s)
  }

  lemma DataImagePrefix(s: string)
    requires StartsWith(s, "data:image/")
    ensures StartsWith(s, "data:")
  {
    assert s[..5] == s[..11][..5];
  }

  lemma DataUrlPrefix(mime: string, body: Bytes)
    ensures StartsWith(DataUrl(mime, body), "data:")
  {
    assert DataUrl(mime, body)[..5] == "data:";
  }

  /** Every answer is null or a data URL. */
  lemma ImageResultIsDataUrl(io: ImageIo, input: Value)
    ensures GetImageDataUrl(io, input).Some? ==> StartsWith(GetImageDataUrl(io, input).value, "data:")
  {
    var r := GetImageDataUrl(io, input);
    if r.Some? {
      if input.Str? && StartsWith(input.s, "data:image/") {
        DataImagePrefix(input.s);
      } else if IsRemote(input.s) {
        var resp := io.fetch(input.s);
        DataUrlPrefix(ResponseType(resp.contentType), resp.body.value);
      } else {
        var path := ResolvePath(io.root, input.s);
        DataUrlPrefix(MimeOf(path), io.readFile(path).value);
      }
    }
  }

  lemma DataImageNotRemote(s: string)
    requires StartsWith(s, "http://") || StartsWith(s, "https://")
    ensures !StartsWith(s, "data:image/")
  {
    assert s[0] == 'h';
  }

  /**
   * Only http:// and https:// references reach the network: an ok response
   * becomes a data URL carrying its body and content type (image/png when
   * missing), anything else is null.
   */
  lemma RemoteImage(io: ImageIo, url: string)
    requires IsRemote(url)
    ensures var r := GetImageDataUrl(io, Str(url));
            match io.fetch(url)
            case Response(true, ct, Some(body)) =>
              r.Some? && (',' !in ResponseType(ct) ==> ParseDataUrl(r.value) == Some((ResponseType(ct), body)))
            case _ => r.None?
  {
    DataImageNotRemote(url);
    match io.fetch(url)
    case Response(true, ct, Some(body)) =>
      if ',' !in ResponseType(ct) { DataUrlRoundTrip(ResponseType(ct), body); }
    case _ =>
  }

  /** An absolute path is neither a data URL nor remote, so it is read as it is. */
  lemma AbsoluteLocal(io: ImageIo, p: string)
    requires p != [] && p[0] == '/'
    ensures GetImageDataUrl(io, Str(p)) == ReadDataUrl(io, p)
    ensures ResolvePath(io.root, p) == p
  {
    assert !StartsWith(p, "data:image/") by { if |p| >= 11 { assert p[..11][0] == '/'; } }
    assert !StartsWith(p, "http://") by { if |p| >= 7 { assert p[..7][0] == '/'; } }
    assert !StartsWith(p, "https://") by { if |p| >= 8 { assert p[..8][0] == '/'; } }
    assert StartsWith(p, "/") by { assert p[..1] == [p[0]]; }
  }

  /**
   * Every other string is a path under the project root (absolute paths as
   * they are); its bytes come back with the media type of its extension, and
   * the network is not consulted.
   */
  lemma LocalImage(io: ImageIo, p: string)
    requires p != "" && !StartsWith(p, "data:image/") && !IsRemote(p)
    ensures var path := ResolvePath(io.root, p);
            var r := GetImageDataUrl(io, Str(p));
            match io.readFile(path)
            case None => r.None?
            case Some(bytes) => r.Some? && ParseDataUrl(r.value) == Some((MimeOf(path), bytes))
    ensures forall f :: GetImageDataUrl(ImageIo(io.root, f, io.readFile), Str(p)) == GetImageDataUrl(io, Str(p))
  {
    var path := ResolvePath(io.root, p);
    match io.readFile(path)
    case None =>
    case Some(bytes) =>
      MimeNoComma(path);
      DataUrlRoundTrip(MimeOf(path), bytes);
  }

  lemma MimeNoComma(path: string)
    ensures ',' !in MimeOf(path)
  {
    var ext := AsciiLower(ExtName(path));
    MimeNamesNoComma();
    assert MimeOf(path) == if ext == ".png" then "image/png" else if ext == ".gif" then "image/gif" else "image/jpeg";
  }

  lemma MimeNamesNoComma()
    ensures ',' !in "image/png" && ',' !in "image/gif" && ',' !in "image/jpeg"
  {
  }

  // ---- processImages ----

  function Nullable(o: Option<string>): Value {
    match o
    case Some(s) => Str(s)
    case None => Null
  }

  function ImageEntries(io: ImageIo, h: Host, paths: seq<Value>): (es: seq<Field>)
    ensures |es| == |paths|
    ensures forall i :: 0 <= i < |paths| ==>
              es[i] == Field(ToStr(h, paths[i]), Nullable(GetImageDataUrl(io, paths[i])))
  {
    seq(|paths|, i requires 0 <= i < |paths| =>
      Field(ToStr(h, paths[i]), Nullable(GetImageDataUrl(io, paths[i]))))
  }

  /** `ImageHelper.processImages(paths = [])`: `Object.fromEntries` of each path and its data URL. */
  function ProcessImages(io: ImageIo, h: Host, paths: Value): (r: Outcome<Value>)
    ensures paths.Undef? ==> r == Ok(Obj([]))
    ensures r.Ok? <==> paths.Undef? || paths.Arr?
  {
    if paths.Undef? then Ok(Obj([]))
    else
      var xs :- ItemsOf(paths, "paths");
      Ok(Obj(SetAll([], ImageEntries(io, h, xs))))
  }

  lemma {:induction false} LastOfUniform(updates: seq<Field>, k: string, v: Value)
    requires k in Keys(updates)
    requires forall i :: 0 <= i < |updates| && updates[i].key == k ==> updates[i].value == v
    ensures LastOf(updates, k) == Some(v)
    decreases |updates|
  {
    var n := |updates| - 1;
    if updates[n].key != k {
      var init := updates[..n];
      assert Keys(updates) == Keys(init) + [updates[n].key];
      LastOfUniform(init, k, v);
    }
  }

  /**
   * For a list of path strings, every distinct path is one key, keys are not
   * repeated, and each key maps to that path's data URL or null.
   */
  lemma ProcessImagesEntries(io: ImageIo, h: Host, paths: seq<string>)
    ensures var xs := seq(|paths|, i requires 0 <= i < |paths| => Str(paths[i]));
            var r := ProcessImages(io, h, Arr(xs));
            r.Ok? && r.value.Obj?
            && Distinct(Keys(r.value.fields))
            && (forall k :: k in Keys(r.value.fields) <==> k in paths)
            && (forall p :: p in paths ==> FieldOf(r.value.fields, p) == Some(Nullable(GetImageDataUrl(io, Str(p)))))
  {
    var xs := seq(|paths|, i requires 0 <= i < |paths| => Str(paths[i]));
    var es := ImageEntries(io, h, xs);
    var fields := SetAll([], es);
    SpreadKeys([], es);
    NoteKeysPrefix([], Keys(es));
    NoteKeysDistinct([], Keys(es));
    assert forall k :: k in Keys(es) <==> k in paths by {
      forall k ensures k in Keys(es) <==> k in paths {
        if k in paths {
          var i :| 0 <= i < |paths| && paths[i] == k;
          assert Keys(es)[i] == k;
        }
      }
    }
    forall p | p in paths
      ensures FieldOf(fields, p) == Some(Nullable(GetImageDataUrl(io, Str(p))))
    {
      SpreadLookup([], es, p);
      LastOfUniform(es, p, Nullable(GetImageDataUrl(io, Str(p))));
    }
  }
}
