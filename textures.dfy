/**
 * Textures: the kind and pixel-format lookups, and the two constructors,
 * which fail before any GL texture object exists when the image cannot be
 * decoded.  A texture is a value (a GL handle plus a kind): it is copied
 * into meshes and into the loader's cache and never changed afterwards, so
 * "getType returns the kind set at construction" holds by construction.
 */
module Textures {
  import opened Common

  /** The importer's texture kinds; only diffuse and specular have shader names. */
  datatype TextureKind = Diffuse | Specular | Unknown | OtherKind

  /** The GL pixel formats the constructor chooses between. */
  datatype PixelFormat = Red | Rgb | Rgba

  /** What the image decoder reports for a file it could read. */
  datatype Image = Image(width: int, height: int, channels: int)

  /** One generated and uploaded GL texture object. */
  datatype Upload = Upload(format: PixelFormat, width: int, height: int)

  /** A texture as the program holds it: its GL handle and its kind. */
  datatype Texture = Texture(id: nat, kind: TextureKind)

  datatype TextureError = DecodeError(path: string) | BadTextureType(kind: TextureKind)

  /**
   * The libraries the textures talk to: the image decoder, seen as an oracle
   * from file path to decoded image (None when decoding fails), and the GL
   * texture objects generated so far.  The object with handle `h` is
   * `textures[h - 1]`; handle 0 is never generated.
   */
  class Platform {
    const images: string -> Option<Image>
    var textures: seq<Upload>

    constructor (images: string -> Option<Image>)
      ensures this.images == images && textures == []
    {
      this.images := images;
      textures := [];
    }
  }

  /** Pixel format for a channel count: 3 and 4 have their own, every other count is single-channel. */
  function ChannelsToFormat(channels: int): (f: PixelFormat)
    ensures f == Rgb <==> channels == 3
    ensures f == Rgba <==> channels == 4
    ensures f == Red <==> channels != 3 && channels != 4
  {
    match channels
    case 1 => Red
    case 3 => Rgb
    case 4 => Rgba
    case _ => Red
  }

  /** The shader name of a kind; every kind but diffuse and specular is an error. */
  function TypeAsString(kind: TextureKind): (r: Result<string, TextureError>)
    ensures r == Success("diffuse") <==> kind == Diffuse
    ensures r == Success("specular") <==> kind == Specular
    ensures r.Failure? <==> kind != Diffuse && kind != Specular
    ensures r.Failure? ==> r.error == BadTextureType(kind)
  {
    match kind
    case Diffuse => Success("diffuse")
    case Specular => Success("specular")
    case _ => Failure(BadTextureType(kind))
  }

  /**
   * The three-argument constructor: decode the file, and only if that
   * succeeded generate one GL texture object and upload the image in the
   * format its channel count calls for.  The texture keeps the given kind.
   */
  method NewTexture(platform: Platform, path: string, kind: TextureKind) returns (r: Result<Texture, TextureError>)
    modifies platform
    ensures platform.images(path).None? ==>
      r == Failure(DecodeError(path)) && platform.textures == old(platform.textures)
    ensures platform.images(path).Some? ==>
      var image := platform.images(path).value;
      && platform.textures == old(platform.textures) + [Upload(ChannelsToFormat(image.channels), image.width, image.height)]
      && r == Success(Texture(|platform.textures|, kind))
  {
    var data := platform.images(path);
    if data.None? {
      return Failure(DecodeError(path));
    }
    var format := ChannelsToFormat(data.value.channels);
    platform.textures := platform.textures + [Upload(format, data.value.width, data.value.height)];
    r := Success(Texture(|platform.textures|, kind));
  }

  /** The two-argument constructor: the same, with the kind Unknown. */
  method NewUntypedTexture(platform: Platform, path: string) returns (r: Result<Texture, TextureError>)
    modifies platform
    ensures platform.images(path).None? ==>
      r == Failure(DecodeError(path)) && platform.textures == old(platform.textures)
    ensures platform.images(path).Some? ==>
      var image := platform.images(path).value;
      && platform.textures == old(platform.textures) + [Upload(ChannelsToFormat(image.channels), image.width, image.height)]
      && r == Success(Texture(|platform.textures|, Unknown))
  {
    r := NewTexture(platform, path, Unknown);
  }
}
