/**
 * The company logo the quotation, purchase-order and statement templates
 * load before building their definitions: the payload's
 * `companyInfo.logo`, else the bundled default logo, through the image
 * helper.  Each template wraps the load in `try`/`catch`, so the only
 * failure, reading `companyInfo` of a nullish payload, leaves the logo null.
 */
module CompanyLogo {
  import opened Wrappers
  import opened JsValue
  import opened ImageHelper

  /** The bundled logo, `assets/default-logo.png` under the project root. */
  function DefaultLogo(io: ImageIo): string {
    io.root + "/assets/" + "default-logo" + "." + "png"
  }

  /** The loaded logo; the image helper itself never throws. */
  function Logo(io: ImageIo, data: Value): Option<string> {
    if Nullish(data) then None
    else GetImageDataUrl(io, Or(OptProp(Get(data, "companyInfo"), "logo"), Str(DefaultLogo(io))))
  }

  /** The logo is the company's when set; a nullish payload has none. */
  lemma LogoSource(io: ImageIo, data: Value)
    ensures Nullish(data) ==> Logo(io, data).None?
    ensures !Nullish(data) && Truthy(OptProp(Get(data, "companyInfo"), "logo")) ==>
              Logo(io, data) == GetImageDataUrl(io, OptProp(Get(data, "companyInfo"), "logo"))
  {
  }

  /**
   * Without a company logo the bundled PNG is read from the file system
   * (under an absolute project root) and comes back with media type image/png.
   */
  lemma LogoFallback(io: ImageIo, data: Value)
    requires !Nullish(data) && !Truthy(OptProp(Get(data, "companyInfo"), "logo")) && StartsWith(io.root, "/")
    ensures Logo(io, data) == DefaultLogoUrl(io)
  {
    DefaultLogoRead(io);
  }

  /** The bundled logo as a data URL, or nothing when it cannot be read. */
  function DefaultLogoUrl(io: ImageIo): Option<string> {
    match io.readFile(DefaultLogo(io))
    case None => None
    case Some(bytes) => Some(DataUrl("image/png", bytes))
  }

  lemma DefaultLogoAbsolute(io: ImageIo)
    requires StartsWith(io.root, "/")
    ensures DefaultLogo(io) != [] && DefaultLogo(io)[0] == '/'
  {
    assert io.root[..1][0] == '/';
  }

  lemma DefaultLogoPng(io: ImageIo)
    ensures MimeOf(DefaultLogo(io)) == "image/png"
  {
    MimeOfFile(io.root + "/assets/", "default-logo", "png");
    LowerPng();
  }

  lemma DefaultLogoRead(io: ImageIo)
    requires StartsWith(io.root, "/")
    ensures GetImageDataUrl(io, Str(DefaultLogo(io))) == DefaultLogoUrl(io)
  {
    DefaultLogoAbsolute(io);
    DefaultLogoPng(io);
    AbsoluteLocal(io, DefaultLogo(io));
  }
}
