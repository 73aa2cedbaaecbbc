// Loading a texture from an image file: the file name is built from the
// model's directory and the material's relative path, the image decoder
// reports the size and channel count, and the channel count and the gamma
// flag choose the formats the image is uploaded with and its wrap mode.
// The decoder itself is a lookup in `images`, the files it can decode.

module FileUtils {
  import opened GL

  /** What the image decoder reports for a file it can read. */
  datatype Image = Image(width: int, height: int, channels: int)

  /** How a decoded image is uploaded: the format the texture stores, the
      layout of the pixel data handed over, and the wrap mode on both axes. */
  datatype TextureFormat = TextureFormat(internalFormat: nat, pixelFormat: nat, wrap: nat)

  /** Channels per pixel in a pixel format the loader can choose. */
  function PixelChannels(format: nat): nat
  {
    if format == RGBA then 4 else if format == RGB then 3 else 1
  }

  predicate IsSrgb(format: nat)
  {
    format == SRGB || format == SRGB_ALPHA
  }

  /** The format table: 3 channels are RGB, 4 are RGBA, anything else is
      uploaded as a single red channel; `gamma` turns the stored format into
      its sRGB counterpart; images with alpha are clamped at the edges. */
  function FormatFor(channels: int, gamma: bool): (f: TextureFormat)
    ensures channels == 1 || channels == 3 || channels == 4 ==> PixelChannels(f.pixelFormat) == channels
    ensures f.pixelFormat == RED <==> channels != 3 && channels != 4
    ensures IsSrgb(f.internalFormat) <==> gamma && (channels == 3 || channels == 4)
    ensures channels == 3 ==> f.internalFormat == (if gamma then SRGB else RGB)
    ensures channels == 4 ==> f.internalFormat == (if gamma then SRGB_ALPHA else RGBA)
    ensures !IsSrgb(f.internalFormat) ==> f.internalFormat == f.pixelFormat
    ensures f.wrap == CLAMP_TO_EDGE <==> channels == 4
    ensures f.wrap != CLAMP_TO_EDGE ==> f.wrap == REPEAT
  {
    var (internalFormat, pixelFormat) :=
      if channels == 3 then (if gamma then SRGB else RGB, RGB)
      else if channels == 4 then (if gamma then SRGB_ALPHA else RGBA, RGBA)
      else (RED, RED);
    TextureFormat(internalFormat, pixelFormat, if pixelFormat == RGBA then CLAMP_TO_EDGE else REPEAT)
  }

  /** The file opened for `path` relative to `directory`. */
  function TextureFilename(directory: string, path: string): (filename: string)
    ensures |filename| == |directory| + 1 + |path|
    ensures filename[..|directory|] == directory
    ensures filename[|directory|] == '/'
    ensures filename[|directory| + 1..] == path
  {
    directory + "/" + path
  }

  /** The calls that upload a decoded image into texture `id`. */
  function UploadCommands(id: Name, image: Image, gamma: bool): seq<Command>
  {
    var f := FormatFor(image.channels, gamma);
    [ BindTexture(id),
      TexImage2D(f.internalFormat, image.width, image.height, f.pixelFormat, UNSIGNED_BYTE),
      GenerateMipmap,
      TexParameter(TEXTURE_WRAP_S, f.wrap),
      TexParameter(TEXTURE_WRAP_T, f.wrap),
      TexParameter(TEXTURE_MIN_FILTER, LINEAR_MIPMAP_LINEAR),
      TexParameter(TEXTURE_MAG_FILTER, LINEAR) ]
  }

  /** The calls `TextureFromFile` makes after generating texture `id`: an
      upload only when the file decodes, and in every case the texture
      target is unbound at the end. */
  function LoadCommands(id: Name, filename: string, gamma: bool, images: map<string, Image>): (cmds: seq<Command>)
    ensures 1 <= |cmds| && cmds[|cmds| - 1] == BindTexture(0)
    ensures filename !in images <==> cmds == [BindTexture(0)]
    ensures filename in images ==> |cmds| == 8 && cmds[0] == BindTexture(id)
  {
    (if filename in images then UploadCommands(id, images[filename], gamma) else []) + [BindTexture(0)]
  }

  /** Generates a texture name, uploads the image at `directory/path` when it
      decodes and returns the name, also when it does not. */
  method TextureFromFile(path: string, directory: string, images: map<string, Image>, gl: Context,
                         gamma: bool := false)
    returns (id: Name)
    modifies gl
    ensures id == old(gl.next) && gl.next == old(gl.next) + 1
    ensures gl.trace == old(gl.trace) + LoadCommands(id, TextureFilename(directory, path), gamma, images)
  {
    var filename := TextureFilename(directory, path);
    id := gl.Gen();
    if filename in images {
      var image := images[filename];
      var f := FormatFor(image.channels, gamma);
      gl.Issue([BindTexture(id), TexImage2D(f.internalFormat, image.width, image.height, f.pixelFormat, UNSIGNED_BYTE)]);
      gl.Issue([GenerateMipmap]);
      gl.Issue([TexParameter(TEXTURE_WRAP_S, f.wrap), TexParameter(TEXTURE_WRAP_T, f.wrap)]);
      gl.Issue([TexParameter(TEXTURE_MIN_FILTER, LINEAR_MIPMAP_LINEAR), TexParameter(TEXTURE_MAG_FILTER, LINEAR)]);
    }
    gl.Issue([BindTexture(0)]);
  }
}
