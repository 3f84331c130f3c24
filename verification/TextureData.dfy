/** From an image to a texture record with sizes of its own. */
module TextureDatas {
  import opened Bytes
  import opened TxdFormat
  import opened TxdWriter
  import opened TxdTheorems
  import opened TextureImages

  const DXT1: u32 := 0x31545844

  /** A C string without its NUL that fits a name field. */
  type ShortName = s: seq<byte> | |s| < 32 witness []

  /** The name, and NULs up to 32 bytes. */
  function NameField(s: ShortName): (r: Name)
    ensures s <= r && forall i :: |s| <= i < 32 ==> r[i] == 0
  {
    s + seq(32 - |s|, _ => 0)
  }

  function PixelCount(im: GdImage, compress: bool): nat {
    if compress then im.sx * im.sy / 2 else 4 * (im.sy * im.sx)
  }

  /** The pixels that loading appends; none if there is no image. */
  ghost function LoadedPixels(im: Option<GdImage>, hasAlpha: bool, compress: bool): seq<byte> {
    match im
    case None => []
    case Some(image) => ImageBytes(image, if compress then RGBA else BGRA, hasAlpha, image.sy)
  }

  /** The image that loading will find. */
  ghost function ImageOf(img: TextureImage, load: FileLoad): Option<GdImage>
    reads img
  {
    if img.fromFile && load.Decoded? then load.image else img.myImage
  }

  /** width times height, after loading. */
  ghost function AreaOf(img: TextureImage, load: FileLoad): nat
    reads img
  {
    match ImageOf(img, load)
    case None => img.width * img.height
    case Some(im) => im.sx * im.sy
  }

  /** How long fileData is after loading. */
  ghost function LengthOf(img: TextureImage, hasAlpha: bool, compress: bool, load: FileLoad): nat
    reads img
  {
    |img.fileData| + |LoadedPixels(ImageOf(img, load), hasAlpha, compress)|
  }

  /** The program can load and, if asked to, compress: it does not go back to an
      image it has destroyed, and the pixels and the compressor's block fit. */
  ghost predicate Loadable(img: TextureImage, hasAlpha: bool, compress: bool, load: FileLoad, compressed: seq<byte>)
    reads img
  {
    && img.fOrder == F_ORDER && (img.fromFile && load.Unopened? ==> img.myImage == None)
    && (compress ==> LengthOf(img, hasAlpha, compress, load) <= 4 * AreaOf(img, load)
                     && |compressed| == AreaOf(img, load) / 2)
  }

  class TextureData {
    var m_Data: TxdTextureData

    /** Describes its pixels, whether or not there is an image, unless they are so
        many that the 32-bit chunk size wraps. Their values are not copied. */
    constructor (tName: ShortName, aName: ShortName, hasAlpha: bool, compress: bool, img: TextureImage, load: FileLoad,
                 compressed: seq<byte>)
      requires Loadable(img, hasAlpha, compress, load, compressed)
      requires (if compress then |compressed| else LengthOf(img, hasAlpha, compress, load)) < TWO_32
      modifies img
      ensures img.myImage == old(ImageOf(img, load))
      ensures img.fileData == if compress then compressed
                              else old(img.fileData) + LoadedPixels(img.myImage, hasAlpha, compress)
      ensures match img.myImage
              case None => img.width == old(img.width) && img.height == old(img.height)
              case Some(im) =>
                && img.width == im.sx && img.height == im.sy
                && (old(img.fileData) == [] ==> |img.fileData| == PixelCount(im, compress))
      ensures && m_Data.dataSize == |img.fileData| && m_Data.chunkSize == U32(92 + |img.fileData|)
              && m_Data.palette == None && m_Data.id == 0x01 && m_Data.marker == 0x1803ffff
              && m_Data.naming == Naming(0x09, 0x1101, NameField(tName), NameField(if hasAlpha then aName else []),
                                         m_Data.naming.alphaFlags, if compress then 0x31545844 else 0)
              && m_Data.shape == Shape(img.width % 65536, img.height % 65536, 0x10, 1, 0x04,
                                       (if compress then 8 else 0) + (if hasAlpha then 1 else 0))
      ensures m_Data.naming.alphaFlags == if compress then (if hasAlpha then 0x0100 else 0x0200)
                                          else if hasAlpha then 0x0500 else 0x0600
      ensures SelfDescribing(TextureInfo(m_Data, NO_EXTRA)) <==> 92 + |img.fileData| < TWO_32
    {
      hide SelfDescribing, NameField, LoadedPixels, PixelCount, ImageOf, AreaOf;
      new;
      var format := FormatFor(compress, hasAlpha);
      LoadPixels(img, format, hasAlpha, compress, load, compressed);
      // Allocated, and not filled here.
      var buffer := new byte[|img.fileData|];
      m_Data := Describe(tName, aName, hasAlpha, compress, img.width, img.height, format, buffer[..]);
    }
  }

  /** The fields of the record, one after another. */
  method Describe(tName: ShortName, aName: ShortName, hasAlpha: bool, compress: bool, width: nat, height: nat,
                  format: u32, data: seq<byte>)
    returns (m: TxdTextureData)
    requires |data| < TWO_32
    ensures m.data == data && m.dataSize == |data| && m.chunkSize == U32(92 + |data|)
    ensures m.palette == None && m.id == 0x01 && m.marker == 0x1803ffff
    ensures m.naming == Naming(0x09, 0x1101, NameField(tName), NameField(if hasAlpha then aName else []),
                               format, if compress then 0x31545844 else 0)
    ensures m.shape == Shape(width % 65536, height % 65536, 0x10, 1, 0x04,
                             (if compress then 8 else 0) + (if hasAlpha then 1 else 0))
    ensures SelfDescribing(TextureInfo(m, NO_EXTRA)) <==> 92 + |data| < TWO_32
  {
    hide SelfDescribing, NameField;
    var naming := Naming(0x09, 0x1101, NameField(tName), NameField([]), format, if compress then DXT1 else 0);
    var shape := Shape(width % TWO_16, height % TWO_16, 0x10, 1, 0x04,
                       if compress then (if hasAlpha then 9 else 8) else (if hasAlpha then 1 else 0));
    var r := TextureRecord(CHUNK_INFO, 0, VERSION_GTASA, naming, shape, None, U32(|data|), data);
    if hasAlpha {
      r := r.(naming := r.naming.(alphaName := NameField(aName)));
    }
    var size := StructSize(r.shape.depth, r.dataSize);
    m := r.(chunkSize := size);
    FieldsDescribe(m);
  }

  /** Fills img.fileData: LoadImageToData, then Compress if asked for. */
  method LoadPixels(img: TextureImage, format: u32, hasAlpha: bool, compress: bool, load: FileLoad,
                    compressed: seq<byte>)
    requires Loadable(img, hasAlpha, compress, load, compressed) && format == FormatFor(compress, hasAlpha)
    modifies img
    ensures img.myImage == old(ImageOf(img, load))
    ensures img.fileData == if compress then compressed
                            else old(img.fileData) + LoadedPixels(img.myImage, hasAlpha, compress)
    ensures match img.myImage
            case None => img.width == old(img.width) && img.height == old(img.height)
            case Some(im) =>
              && img.width == im.sx && img.height == im.sy
              && (old(img.fileData) == [] ==> |img.fileData| == PixelCount(im, compress))
  {
    img.LoadImageToData(format, hasAlpha, load);
    if compress {
      img.Compress(compressed);
    }
  }

  /** The arithmetic of the constructor's chunk_size, which starts at 0. */
  method StructSize(depth: byte, dataSize: u32) returns (size: u32)
    ensures size == U32(92 + (if depth == 8 then PALETTE_SIZE else 0) + dataSize)
  {
    size := 0;
    size := U32(size + 5 * 4);
    size := U32(size + 64);
    size := U32(size + 2 * 2);
    size := U32(size + 4 * 1);
    size := U32(size + if depth == 8 then 256 * 4 else 0);
    size := U32(size + dataSize);
  }

  lemma FieldsDescribe(t: TxdTextureData)
    requires t.palette.None? && t.shape.depth != 8 && t.chunkSize == U32(92 + |t.data|)
    ensures SelfDescribing(TextureInfo(t, NO_EXTRA)) <==> 92 + |t.data| < TWO_32
  {
  }

  /** A dictionary of textures that describe themselves, as the constructor makes
      them, is written to a file that reads back, exactly when there are fewer
      than 65536 of them and the file is shorter than 2^32 bytes. */
  lemma ConstructedReadBack(m: map<int, TextureInfo>)
    requires forall id :: id in m ==> SelfDescribing(m[id])
    ensures Read(EmitFile(m)) == Some(Contents(m)) <==> |m| < TWO_16 && 28 + DeclaredTotal(Infos(m)) < TWO_32
  {
    ReadsBackExactly(m);
  }
}
