/** The pixel serialiser: an image becomes bytes, four for each pixel, row by
    row, in an order that depends on the texture format. */
module TextureImages {
  import opened Bytes

  const FORMAT_DEFAULT: u32 := 0x0000
  const FORMAT_1555: u32 := 0x0100
  const FORMAT_565: u32 := 0x0200
  const FORMAT_4444: u32 := 0x0300
  const FORMAT_LUM8: u32 := 0x0400
  const FORMAT_8888: u32 := 0x0500
  const FORMAT_888: u32 := 0x0600
  const FORMAT_555: u32 := 0x0A00

  datatype Order = RGBA | BGRA

  const F_ORDER: map<u32, Order> := map[
    FORMAT_DEFAULT := RGBA, FORMAT_1555 := RGBA, FORMAT_565 := RGBA, FORMAT_4444 := RGBA,
    FORMAT_LUM8 := RGBA, FORMAT_8888 := BGRA, FORMAT_888 := BGRA, FORMAT_555 := RGBA]

  /** Of the eight formats, 8888 and 888 are in BGRA order. */
  lemma FormatOrders()
    ensures F_ORDER.Keys == {0x0000, 0x0100, 0x0200, 0x0300, 0x0400, 0x0500, 0x0600, 0x0A00}
    ensures forall f :: f in F_ORDER ==> (F_ORDER[f] == BGRA <==> f == 0x0500 || f == 0x0600)
  {
  }

  /** gd's alpha: 0 is opaque, 127 transparent. */
  type Alpha = x: int | 0 <= x <= 127

  /** An image of the gd library, seen through its accessors. */
  datatype GdImage = GdImage(sx: nat, sy: nat, getPixel: (int, int) -> int,
                             red: int -> byte, green: int -> byte, blue: int -> byte, alpha: int -> Alpha)

  // ---------------------------------------------------------- specification

  function AlphaByte(a: Alpha, mAlpha: bool): (b: byte)
    ensures b == 0 || b == 255
    ensures b == 255 <==> !mAlpha || a == 127
  {
    if mAlpha then 0xFF * (a / 127) else 0xFF
  }

  function ColourBytes(im: GdImage, order: Order, mAlpha: bool, c: int): (bs: seq<byte>)
    ensures |bs| == 4
  {
    var a := AlphaByte(im.alpha(c), mAlpha);
    match order
    case RGBA => [im.red(c), im.green(c), im.blue(c), a]
    case BGRA => [im.blue(c), im.green(c), im.red(c), a]
  }

  function PixelBytes(im: GdImage, order: Order, mAlpha: bool, x: nat, y: nat): (bs: seq<byte>)
    ensures |bs| == 4
  {
    ColourBytes(im, order, mAlpha, im.getPixel(x, y))
  }

  /** The first n pixels of row y. */
  function RowBytes(im: GdImage, order: Order, mAlpha: bool, y: nat, n: nat): (bs: seq<byte>)
    ensures |bs| == 4 * n
  {
    if n == 0 then [] else RowBytes(im, order, mAlpha, y, n - 1) + PixelBytes(im, order, mAlpha, n - 1, y)
  }

  /** The first n rows. */
  function ImageBytes(im: GdImage, order: Order, mAlpha: bool, n: nat): (bs: seq<byte>)
    ensures |bs| == 4 * (n * im.sx)
  {
    if n == 0 then []
    else
      assert n * im.sx == (n - 1) * im.sx + im.sx;
      ImageBytes(im, order, mAlpha, n - 1) + RowBytes(im, order, mAlpha, n - 1, im.sx)
  }

  /** The red, green, blue and alpha that a reader finds at pixel (x, y). */
  function DecodePixel(bs: seq<byte>, width: nat, order: Order, x: nat, y: nat): (byte, byte, byte, byte)
    requires 4 * (y * width + x) + 4 <= |bs|
  {
    var p := 4 * (y * width + x);
    match order
    case RGBA => (bs[p], bs[p + 1], bs[p + 2], bs[p + 3])
    case BGRA => (bs[p + 2], bs[p + 1], bs[p], bs[p + 3])
  }

  lemma {:induction false} RowAt(im: GdImage, order: Order, mAlpha: bool, y: nat, n: nat, x: nat)
    requires x < n
    ensures RowBytes(im, order, mAlpha, y, n)[4 * x..4 * x + 4] == PixelBytes(im, order, mAlpha, x, y)
  {
    if x < n - 1 {
      RowAt(im, order, mAlpha, y, n - 1, x);
      assert RowBytes(im, order, mAlpha, y, n)[4 * x..4 * x + 4]
          == RowBytes(im, order, mAlpha, y, n - 1)[4 * x..4 * x + 4];
    }
  }

  lemma OffsetBelow(x: nat, y: nat, width: nat, n: nat)
    requires x < width && y < n
    ensures 4 * (y * width + x) + 4 <= 4 * (n * width)
  {
    RowsBelow(y + 1, n, width);
    assert (y + 1) * width == y * width + width;
  }

  lemma {:induction false} RowsBelow(a: nat, b: nat, width: nat)
    requires a <= b
    ensures a * width <= b * width
    decreases b - a
  {
    if a < b {
      RowsBelow(a, b - 1, width);
      assert b * width == (b - 1) * width + width;
    }
  }

  lemma {:induction false} ImageAt(im: GdImage, order: Order, mAlpha: bool, n: nat, x: nat, y: nat)
    requires x < im.sx && y < n
    ensures 4 * (y * im.sx + x) + 4 <= 4 * (n * im.sx)
    ensures ImageBytes(im, order, mAlpha, n)[4 * (y * im.sx + x)..4 * (y * im.sx + x) + 4]
            == PixelBytes(im, order, mAlpha, x, y)
  {
    hide PixelBytes, RowBytes;
    OffsetBelow(x, y, im.sx, n);
    var p := 4 * (y * im.sx + x);
    var before := ImageBytes(im, order, mAlpha, n - 1);
    var row := RowBytes(im, order, mAlpha, n - 1, im.sx);
    if y < n - 1 {
      ImageAt(im, order, mAlpha, n - 1, x, y);
      assert (before + row)[p..p + 4] == before[p..p + 4];
    } else {
      RowAt(im, order, mAlpha, y, im.sx, x);
      assert p == |before| + 4 * x;
      assert (before + row)[p..p + 4] == row[4 * x..4 * x + 4];
    }
  }

  /** Every pixel can be read back: its colours as they were, its alpha as 0 or
      255, which is 255 exactly when no alpha was asked for or gd's is 127. */
  lemma DecodesBack(im: GdImage, order: Order, mAlpha: bool, x: nat, y: nat)
    requires x < im.sx && y < im.sy
    ensures var bs := ImageBytes(im, order, mAlpha, im.sy);
            var c := im.getPixel(x, y);
            && 4 * (y * im.sx + x) + 4 <= |bs| == 4 * (im.sy * im.sx)
            && DecodePixel(bs, im.sx, order, x, y)
               == (im.red(c), im.green(c), im.blue(c), if !mAlpha || im.alpha(c) == 127 then 255 else 0)
  {
    hide ImageBytes;
    ImageAt(im, order, mAlpha, im.sy, x, y);
    var p := 4 * (y * im.sx + x);
    var bs := ImageBytes(im, order, mAlpha, im.sy);
    assert bs[p..p + 4][0] == bs[p] && bs[p..p + 4][1] == bs[p + 1];
    assert bs[p..p + 4][2] == bs[p + 2] && bs[p..p + 4][3] == bs[p + 3];
  }

  /** The format of a texture, by whether it is compressed and has alpha: of the
      formats for each, the ones with alpha bits are 1555 and 8888. */
  function FormatFor(compress: bool, hasAlpha: bool): (f: u32)
    ensures f in F_ORDER && (F_ORDER[f] == BGRA <==> !compress)
    ensures hasAlpha <==> f == 0x0100 || f == 0x0500
    ensures compress <==> f == 0x0100 || f == 0x0200
  {
    if compress then (if hasAlpha then FORMAT_1555 else FORMAT_565)
    else if hasAlpha then FORMAT_8888 else FORMAT_888
  }

  // -------------------------------------------------------------- the class

  /** What LoadFromFile finds: no file, or a file that decodes to an image or
      to a null pointer. */
  datatype FileLoad = Unopened | Decoded(image: Option<GdImage>)

  class TextureImage {
    var myImage: Option<GdImage>
    const fromFile: bool
    var fOrder: map<u32, Order>
    var cFilter: u32
    var errorCode: int
    var width: nat
    var height: nat
    var fileData: seq<byte>

    constructor FromImage(im: Option<GdImage>)
      ensures myImage == im && !fromFile && fOrder == F_ORDER && errorCode == -1 && fileData == []
    {
      myImage := im;
      fromFile := false;
      errorCode, width, height, fileData := -1, 0, 0, [];
      cFilter := FORMAT_DEFAULT;
      fOrder := F_ORDER;
    }

    constructor FromFile()
      ensures myImage == None && fromFile && fOrder == F_ORDER && errorCode == -1 && fileData == []
    {
      myImage := None;
      fromFile := true;
      errorCode, width, height, fileData := -1, 0, 0, [];
      cFilter := FORMAT_DEFAULT;
      fOrder := F_ORDER;
    }

    ghost function OrderOf(filter: u32): Order
      reads this
    {
      if filter in fOrder then fOrder[filter] else RGBA
    }

    method LoadFromFile(load: FileLoad)
      modifies this`myImage, this`errorCode
      ensures load.Decoded? ==> myImage == load.image && errorCode == old(errorCode)
      ensures load.Unopened? ==> myImage == old(myImage) && errorCode == -2
    {
      match load
      case Decoded(image) => myImage := image;
      case Unopened => errorCode := -2;
    }

    /** Appends the image to fileData; without an image only errorCode is set. */
    method LoadImageToData(filter: u32, mAlpha: bool, load: FileLoad)
      requires fromFile && load.Unopened? ==> myImage == None
      modifies this
      ensures cFilter == filter
      ensures myImage == if fromFile && load.Decoded? then load.image else old(myImage)
      ensures myImage == None ==>
                errorCode == -3 && fileData == old(fileData) && width == old(width) && height == old(height)
      ensures myImage.Some? ==>
                && errorCode == 0 && width == myImage.value.sx && height == myImage.value.sy
                && fileData == old(fileData) + ImageBytes(myImage.value, old(OrderOf(filter)), mAlpha, height)
      ensures forall f :: old(OrderOf(f)) == OrderOf(f)
    {
      hide RowBytes, PixelBytes;
      cFilter := filter;
      if fromFile {
        LoadFromFile(load);
      }
      if myImage == None {
        errorCode := -3;
      } else {
        var im := myImage.value;
        width, height := im.sx, im.sy;
        ghost var order := OrderOf(filter);
        var y := 0;
        while y < height
          invariant 0 <= y <= height == im.sy && width == im.sx && cFilter == filter && myImage == Some(im)
          invariant fileData == old(fileData) + ImageBytes(im, order, mAlpha, y)
          invariant order == old(OrderOf(filter)) && forall f :: old(OrderOf(f)) == OrderOf(f)
        {
          LoadRow(im, mAlpha, y, order);
          Append(old(fileData), ImageBytes(im, order, mAlpha, y), RowBytes(im, order, mAlpha, y, width));
          y := y + 1;
        }
        errorCode := 0;
      }
    }

    /** The inner loop: one row. Looking up an unknown format enters it in fOrder
        with the default order. */
    method LoadRow(im: GdImage, mAlpha: bool, y: nat, ghost order: Order)
      requires order == OrderOf(cFilter) && width == im.sx
      modifies this`fileData, this`fOrder
      ensures fileData == old(fileData) + RowBytes(im, order, mAlpha, y, width)
      ensures forall f :: old(OrderOf(f)) == OrderOf(f)
    {
      var x := 0;
      while x < width
        invariant 0 <= x <= width
        invariant fileData == old(fileData) + RowBytes(im, order, mAlpha, y, x)
        invariant order == OrderOf(cFilter) && forall f :: old(OrderOf(f)) == OrderOf(f)
      {
        var c := im.getPixel(x, y);
        PushPixel(im, c, mAlpha);
        Append(old(fileData), RowBytes(im, order, mAlpha, y, x), PixelBytes(im, order, mAlpha, x, y));
        x := x + 1;
      }
    }

    /** The body of the inner loop, for a pixel of colour c. */
    method PushPixel(im: GdImage, c: int, mAlpha: bool)
      modifies this`fileData, this`fOrder
      ensures fileData == old(fileData) + ColourBytes(im, old(OrderOf(cFilter)), mAlpha, c)
      ensures forall f :: old(OrderOf(f)) == OrderOf(f)
    {
      if cFilter !in fOrder {
        fOrder := fOrder[cFilter := RGBA];
      }
      ghost var before := fileData;
      var a := if mAlpha then 0xFF * (im.alpha(c) / 127) else 0xFF;
      if fOrder[cFilter] == RGBA {
        fileData := fileData + [im.red(c)];
        fileData := fileData + [im.green(c)];
        fileData := fileData + [im.blue(c)];
        fileData := fileData + [a];
      } else {
        fileData := fileData + [im.blue(c)];
        fileData := fileData + [im.green(c)];
        fileData := fileData + [im.red(c)];
        fileData := fileData + [a];
      }
      PushFour(before, ColourBytes(im, OrderOf(cFilter), mAlpha, c));
    }

    /** Replaces the pixels by the compressor's block, `compressed`. */
    method Compress(compressed: seq<byte>)
      requires |fileData| <= 4 * (width * height) && |compressed| == width * height / 2
      modifies this`fileData
      ensures fileData == compressed
    {
      var area := width * height;
      var pixels := new byte[4 * area];
      var i := 0;
      while i < |fileData|
        invariant 0 <= i <= |fileData| <= pixels.Length && pixels[..i] == fileData[..i]
      {
        pixels[i] := fileData[i];
        i := i + 1;
      }
      var block := new byte[area / 2];
      CompressImage(pixels, compressed, block);
      fileData := [];
      i := 0;
      while i < area / 2
        invariant 0 <= i <= |compressed| && fileData == compressed[..i] && block[..] == compressed
      {
        fileData := fileData + [block[i]];
        i := i + 1;
      }
    }
  }

  lemma PushFour(s: seq<byte>, four: seq<byte>)
    requires |four| == 4
    ensures s + [four[0]] + [four[1]] + [four[2]] + [four[3]] == s + four
  {
  }

  lemma Append(s: seq<byte>, t: seq<byte>, u: seq<byte>)
    ensures s + t + u == s + (t + u)
  {
  }

  /** The external compressor: fills the block with an answer of its own. */
  method CompressImage(pixels: array<byte>, answer: seq<byte>, block: array<byte>)
    requires block.Length == |answer|
    modifies block
    ensures block[..] == answer
  {
    forall i | 0 <= i < |answer| {
      block[i] := answer[i];
    }
  }
}
