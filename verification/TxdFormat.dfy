/** The texture dictionary format: nested chunks, each with a header that
    declares the length of its body. `Layout` is the format as a function of a
    file's contents, every size being the true length of what it covers; `Read`
    is a reader that finds its way by the declared sizes alone. Each undoes the
    other. */
module TxdFormat {
  import opened Bytes

  const CHUNK_INFO: u32 := 0x01
  const CHUNK_EXTRA: u32 := 0x03
  const CHUNK_TEXTURE: u32 := 0x15
  const CHUNK_FILE: u32 := 0x16
  const HEADER_SIZE := 12
  const INFO_SIZE := 4
  const PALETTE_SIZE := 1024

  type Name = s: seq<byte> | |s| == 32 witness seq(32, _ => 0)

  /** What a texture's struct chunk holds besides sizes. */
  datatype Naming = Naming(version: u32, filterFlags: u32, textureName: Name, alphaName: Name,
                           alphaFlags: u32, format: u32)
  datatype Shape = Shape(width: u16, height: u16, depth: byte, mipmapCount: byte, texcodeType: byte, flags: byte)
  datatype Raster = Raster(naming: Naming, shape: Shape, palette: seq<byte>, data: seq<byte>)

  /** A chunk without its size: id, marker and body. */
  datatype Chunk = Chunk(id: u32, marker: u32, body: seq<byte>)

  datatype TextureView = TextureView(marker: u32, id: u32, structMarker: u32, raster: Raster, extra: Chunk)

  datatype FileView = FileView(marker: u32, infoMarker: u32, unknown: u16,
                               textures: seq<TextureView>, extraMarker: u32, extraBody: seq<byte>)

  // ----------------------------------------------------------------- layout

  function LayHeader(id: u32, size: nat, marker: u32, rest: seq<byte>): (r: seq<byte>)
    ensures |r| == HEADER_SIZE + |rest|
  {
    LE(id, 4) + (LE(size, 4) + (LE(marker, 4) + rest))
  }

  function LayChunk(c: Chunk): (r: seq<byte>)
    ensures |r| == HEADER_SIZE + |c.body|
  {
    LayHeader(c.id, |c.body|, c.marker, c.body)
  }

  function LayNaming(n: Naming, rest: seq<byte>): (bs: seq<byte>)
    ensures |bs| == 80 + |rest|
  {
    LE(n.version, 4) + (LE(n.filterFlags, 4) + (n.textureName + (n.alphaName +
    (LE(n.alphaFlags, 4) + (LE(n.format, 4) + rest)))))
  }

  function LayShape(s: Shape, rest: seq<byte>): (bs: seq<byte>)
    ensures |bs| == 8 + |rest|
  {
    LE(s.width, 2) + (LE(s.height, 2) + (LE(s.depth, 1) + (LE(s.mipmapCount, 1) +
    (LE(s.texcodeType, 1) + (LE(s.flags, 1) + rest)))))
  }

  function LayPixels(palette: seq<byte>, data: seq<byte>): (bs: seq<byte>)
    ensures |bs| == |palette| + 4 + |data|
  {
    palette + (LE(|data|, 4) + data)
  }

  function LayRaster(r: Raster): (bs: seq<byte>)
    ensures |bs| == 92 + |r.palette| + |r.data|
  {
    LayNaming(r.naming, LayShape(r.shape, LayPixels(r.palette, r.data)))
  }

  /** The body of a texture chunk: the struct chunk and the extra chunk. */
  function LayTextureBody(t: TextureView): (bs: seq<byte>)
    ensures |bs| == 2 * HEADER_SIZE + |LayRaster(t.raster)| + |t.extra.body|
  {
    LayChunk(Chunk(t.id, t.structMarker, LayRaster(t.raster))) + LayChunk(t.extra)
  }

  function LayTexture(t: TextureView): (bs: seq<byte>)
    ensures |bs| == HEADER_SIZE + |LayTextureBody(t)|
  {
    LayChunk(Chunk(CHUNK_TEXTURE, t.marker, LayTextureBody(t)))
  }

  function LayTextures(ts: seq<TextureView>, rest: seq<byte>): (bs: seq<byte>)
    ensures |bs| >= |rest|
  {
    if ts == [] then rest else LayTexture(ts[0]) + LayTextures(ts[1..], rest)
  }

  function LayInfo(f: FileView): (bs: seq<byte>)
    ensures |bs| == INFO_SIZE
  {
    LE(|f.textures|, 2) + LE(f.unknown, 2)
  }

  function LayBody(f: FileView): seq<byte> {
    LayChunk(Chunk(CHUNK_INFO, f.infoMarker, LayInfo(f)))
    + LayTextures(f.textures, LayChunk(Chunk(CHUNK_EXTRA, f.extraMarker, f.extraBody)))
  }

  function Layout(f: FileView): seq<byte> {
    LayChunk(Chunk(CHUNK_FILE, f.marker, LayBody(f)))
  }

  /** What the format can express. */
  predicate RasterOk(r: Raster) {
    && |r.palette| == (if r.shape.depth == 8 then PALETTE_SIZE else 0)
    && |LayRaster(r)| < TWO_32
  }

  predicate TextureOk(t: TextureView) {
    RasterOk(t.raster) && |LayTextureBody(t)| < TWO_32
  }

  predicate FileOk(f: FileView) {
    && |f.textures| < TWO_16
    && (forall i :: 0 <= i < |f.textures| ==> TextureOk(f.textures[i]))
    && |LayBody(f)| < TWO_32
  }

  // ----------------------------------------------------------------- reader

  /** A header and as many bytes of body as it declares. */
  function ReadChunk(bs: seq<byte>): (r: Option<(Chunk, seq<byte>)>)
    ensures r.Some? ==> |r.value.1| + HEADER_SIZE <= |bs|
  {
    var (id, b1) :- ReadLE(bs, 4);
    var (size, b2) :- ReadLE(b1, 4);
    var (marker, b3) :- ReadLE(b2, 4);
    var (body, rest) :- Take(b3, size);
    Some((Chunk(U32(id), U32(marker), body), rest))
  }

  function ReadNaming(bs: seq<byte>): Option<(Naming, seq<byte>)> {
    var (version, b1) :- ReadLE(bs, 4);
    var (filterFlags, b2) :- ReadLE(b1, 4);
    var (textureName, b3) :- Take(b2, 32);
    var (alphaName, b4) :- Take(b3, 32);
    var (alphaFlags, b5) :- ReadLE(b4, 4);
    var (format, rest) :- ReadLE(b5, 4);
    Some((Naming(U32(version), U32(filterFlags), textureName, alphaName, U32(alphaFlags), U32(format)), rest))
  }

  function ReadShape(bs: seq<byte>): Option<(Shape, seq<byte>)> {
    var (width, b1) :- ReadLE(bs, 2);
    var (height, b2) :- ReadLE(b1, 2);
    var (depth, b3) :- ReadLE(b2, 1);
    var (mipmapCount, b4) :- ReadLE(b3, 1);
    var (texcodeType, b5) :- ReadLE(b4, 1);
    var (flags, rest) :- ReadLE(b5, 1);
    Some((Shape(width % TWO_16, height % TWO_16, depth % 256, mipmapCount % 256, texcodeType % 256, flags % 256),
          rest))
  }

  /** The palette is there for 8-bit textures only; the pixels fill the rest. */
  function ReadPixels(bs: seq<byte>, depth: byte): Option<(seq<byte>, seq<byte>)> {
    var (palette, b1) :- Take(bs, if depth == 8 then PALETTE_SIZE else 0);
    var (dataSize, data) :- ReadLE(b1, 4);
    if dataSize == |data| then Some((palette, data)) else None
  }

  function ReadRaster(bs: seq<byte>): Option<Raster> {
    var (naming, b1) :- ReadNaming(bs);
    var (shape, b2) :- ReadShape(b1);
    var (palette, data) :- ReadPixels(b2, shape.depth);
    Some(Raster(naming, shape, palette, data))
  }

  function ReadTexture(bs: seq<byte>): (r: Option<(TextureView, seq<byte>)>)
    ensures r.Some? ==> |r.value.1| < |bs|
  {
    var (chunk, rest) :- ReadChunk(bs);
    if chunk.id != CHUNK_TEXTURE then None
    else
      var (struct, b1) :- ReadChunk(chunk.body);
      var raster :- ReadRaster(struct.body);
      var (extra, b2) :- ReadChunk(b1);
      if b2 != [] then None
      else Some((TextureView(chunk.marker, struct.id, struct.marker, raster, extra), rest))
  }

  function ReadTextures(bs: seq<byte>, n: nat): (r: Option<(seq<TextureView>, seq<byte>)>)
    ensures r.Some? ==> |r.value.0| == n
  {
    if n == 0 then Some(([], bs))
    else
      var (t, b1) :- ReadTexture(bs);
      var (ts, rest) :- ReadTextures(b1, n - 1);
      Some(([t] + ts, rest))
  }

  function Read(bs: seq<byte>): Option<FileView> {
    var (file, after) :- ReadChunk(bs);
    var (info, b1) :- ReadChunk(file.body);
    if file.id != CHUNK_FILE || after != [] || info.id != CHUNK_INFO || |info.body| != INFO_SIZE then None
    else
      var (count, b2) :- ReadLE(info.body, 2);
      var (unknown, _) :- ReadLE(b2, 2);
      var (textures, b3) :- ReadTextures(b1, count);
      var (extra, b4) :- ReadChunk(b3);
      if extra.id != CHUNK_EXTRA || b4 != [] then None
      else Some(FileView(file.marker, info.marker, unknown % TWO_16, textures, extra.marker, extra.body))
  }

  // ------------------------------------------------------------ round trips

  lemma ReadChunkOfLay(c: Chunk, rest: seq<byte>)
    requires |c.body| < TWO_32
    ensures ReadChunk(LayChunk(c) + rest) == Some((c, rest))
  {
    hide LE, UnLE;
    Widths();
    var b2 := LE(c.marker, 4) + (c.body + rest);
    var b1 := LE(|c.body|, 4) + b2;
    assert LayChunk(c) + rest == LE(c.id, 4) + b1;
    ReadLEOfLE(c.id, 4, b1);
    ReadLEOfLE(|c.body|, 4, b2);
    ReadLEOfLE(c.marker, 4, c.body + rest);
    TakeConcat(c.body, rest);
  }

  lemma LayChunkOfRead(bs: seq<byte>)
    requires ReadChunk(bs).Some?
    ensures var (c, rest) := ReadChunk(bs).value;
            |c.body| < TWO_32 && bs == LayChunk(c) + rest
  {
    hide LE, UnLE;
    Widths();
    var (id, b1) := ReadLE(bs, 4).value;
    var (size, b2) := ReadLE(b1, 4).value;
    var (marker, b3) := ReadLE(b2, 4).value;
    var (body, rest) := Take(b3, size).value;
    LEOfReadLE(bs, 4);
    LEOfReadLE(b1, 4);
    LEOfReadLE(b2, 4);
    assert LE(id, 4) + (LE(size, 4) + (LE(marker, 4) + (body + rest)))
        == (LE(id, 4) + (LE(size, 4) + (LE(marker, 4) + body))) + rest;
  }

  lemma ReadNamingOfLay(n: Naming, rest: seq<byte>)
    ensures ReadNaming(LayNaming(n, rest)) == Some((n, rest))
  {
    hide LE, UnLE;
    Widths();
    var b5 := LE(n.format, 4) + rest;
    var b4 := LE(n.alphaFlags, 4) + b5;
    var b3 := n.alphaName + b4;
    var b2 := n.textureName + b3;
    ReadLEOfLE(n.version, 4, LE(n.filterFlags, 4) + b2);
    ReadLEOfLE(n.filterFlags, 4, b2);
    TakeConcat(n.textureName, b3);
    TakeConcat(n.alphaName, b4);
    ReadLEOfLE(n.alphaFlags, 4, b5);
    ReadLEOfLE(n.format, 4, rest);
  }

  lemma LayNamingOfRead(bs: seq<byte>)
    requires ReadNaming(bs).Some?
    ensures var (n, rest) := ReadNaming(bs).value; bs == LayNaming(n, rest)
  {
    hide LE, UnLE, ReadLE, Take;
    Widths();
    var b1 := ReadLE(bs, 4).value.1;
    var b2 := ReadLE(b1, 4).value.1;
    var b3 := Take(b2, 32).value.1;
    var b4 := Take(b3, 32).value.1;
    var b5 := ReadLE(b4, 4).value.1;
    LEOfReadLE(bs, 4);
    LEOfReadLE(b1, 4);
    LEOfReadLE(b4, 4);
    LEOfReadLE(b5, 4);
  }

  lemma ReadShapeOfLay(s: Shape, rest: seq<byte>)
    ensures ReadShape(LayShape(s, rest)) == Some((s, rest))
  {
    hide LE, UnLE;
    Widths();
    var b5 := LE(s.flags, 1) + rest;
    var b4 := LE(s.texcodeType, 1) + b5;
    var b3 := LE(s.mipmapCount, 1) + b4;
    var b2 := LE(s.depth, 1) + b3;
    ReadLEOfLE(s.width, 2, LE(s.height, 2) + b2);
    ReadLEOfLE(s.height, 2, b2);
    ReadLEOfLE(s.depth, 1, b3);
    ReadLEOfLE(s.mipmapCount, 1, b4);
    ReadLEOfLE(s.texcodeType, 1, b5);
    ReadLEOfLE(s.flags, 1, rest);
  }

  lemma LayShapeOfRead(bs: seq<byte>)
    requires ReadShape(bs).Some?
    ensures var (s, rest) := ReadShape(bs).value; bs == LayShape(s, rest)
  {
    hide LE, UnLE, ReadLE, Take;
    Widths();
    var b1 := ReadLE(bs, 2).value.1;
    var b2 := ReadLE(b1, 2).value.1;
    var b3 := ReadLE(b2, 1).value.1;
    var b4 := ReadLE(b3, 1).value.1;
    var b5 := ReadLE(b4, 1).value.1;
    LEOfReadLE(bs, 2);
    LEOfReadLE(b1, 2);
    LEOfReadLE(b2, 1);
    LEOfReadLE(b3, 1);
    LEOfReadLE(b4, 1);
    LEOfReadLE(b5, 1);
  }

  lemma ReadRasterOfLay(r: Raster)
    requires RasterOk(r)
    ensures ReadRaster(LayRaster(r)) == Some(r)
  {
    Widths();
    var pixels := LayPixels(r.palette, r.data);
    ReadNamingOfLay(r.naming, LayShape(r.shape, pixels));
    ReadShapeOfLay(r.shape, pixels);
    TakeConcat(r.palette, LE(|r.data|, 4) + r.data);
    ReadLEOfLE(|r.data|, 4, r.data);
  }

  lemma LayRasterOfRead(bs: seq<byte>)
    requires ReadRaster(bs).Some? && |bs| < TWO_32
    ensures RasterOk(ReadRaster(bs).value) && LayRaster(ReadRaster(bs).value) == bs
  {
    hide LayNaming, ReadNaming, LayShape, ReadShape, LE, ReadLE;
    LayNamingOfRead(bs);
    var b1 := ReadNaming(bs).value.1;
    LayShapeOfRead(b1);
    var (shape, b2) := ReadShape(b1).value;
    LEOfReadLE(Take(b2, if shape.depth == 8 then PALETTE_SIZE else 0).value.1, 4);
  }

  lemma ReadTextureOfLay(t: TextureView, rest: seq<byte>)
    requires TextureOk(t)
    ensures ReadTexture(LayTexture(t) + rest) == Some((t, rest))
  {
    hide LayChunk, ReadChunk, LayRaster, ReadRaster;
    ReadChunkOfLay(Chunk(CHUNK_TEXTURE, t.marker, LayTextureBody(t)), rest);
    ReadChunkOfLay(Chunk(t.id, t.structMarker, LayRaster(t.raster)), LayChunk(t.extra));
    ReadRasterOfLay(t.raster);
    assert LayChunk(t.extra) == LayChunk(t.extra) + [];
    ReadChunkOfLay(t.extra, []);
  }

  lemma LayTextureOfRead(bs: seq<byte>)
    requires ReadTexture(bs).Some?
    ensures var (t, rest) := ReadTexture(bs).value; TextureOk(t) && bs == LayTexture(t) + rest
  {
    hide LayChunk, ReadChunk, LayRaster, ReadRaster;
    LayChunkOfRead(bs);
    var (chunk, rest) := ReadChunk(bs).value;
    LayChunkOfRead(chunk.body);
    var (struct, b1) := ReadChunk(chunk.body).value;
    LayRasterOfRead(struct.body);
    LayChunkOfRead(b1);
    var extra := ReadChunk(b1).value.0;
    assert LayChunk(extra) + [] == LayChunk(extra);
  }

  lemma {:induction false} ReadTexturesOfLay(ts: seq<TextureView>, rest: seq<byte>)
    requires forall i :: 0 <= i < |ts| ==> TextureOk(ts[i])
    ensures ReadTextures(LayTextures(ts, rest), |ts|) == Some((ts, rest))
  {
    hide LayTexture, ReadTexture;
    if ts != [] {
      ReadTextureOfLay(ts[0], LayTextures(ts[1..], rest));
      ReadTexturesOfLay(ts[1..], rest);
      assert [ts[0]] + ts[1..] == ts;
    }
  }

  lemma {:induction false} LayTexturesOfRead(bs: seq<byte>, n: nat)
    requires ReadTextures(bs, n).Some?
    ensures var (ts, rest) := ReadTextures(bs, n).value;
            && bs == LayTextures(ts, rest)
            && forall i :: 0 <= i < |ts| ==> TextureOk(ts[i])
    decreases n
  {
    hide LayTexture, ReadTexture;
    if n > 0 {
      LayTextureOfRead(bs);
      LayTexturesOfRead(ReadTexture(bs).value.1, n - 1);
    }
  }

  /** Everything the format can express is read back as it was. */
  lemma ReadOfLayout(f: FileView)
    requires FileOk(f)
    ensures Read(Layout(f)) == Some(f)
  {
    hide LayChunk, ReadChunk, LayTextures, ReadTextures, LE, ReadLE;
    Widths();
    var last := LayChunk(Chunk(CHUNK_EXTRA, f.extraMarker, f.extraBody));
    assert Layout(f) == Layout(f) + [] && last == last + [];
    ReadChunkOfLay(Chunk(CHUNK_FILE, f.marker, LayBody(f)), []);
    ReadChunkOfLay(Chunk(CHUNK_INFO, f.infoMarker, LayInfo(f)), LayTextures(f.textures, last));
    ReadLEOfLE(|f.textures|, 2, LE(f.unknown, 2));
    assert LE(f.unknown, 2) == LE(f.unknown, 2) + [];
    ReadLEOfLE(f.unknown, 2, []);
    ReadTexturesOfLay(f.textures, last);
    LayTexturesLonger(f.textures, last);
    ReadChunkOfLay(Chunk(CHUNK_EXTRA, f.extraMarker, f.extraBody), []);
  }

  lemma LayTexturesLonger(ts: seq<TextureView>, rest: seq<byte>)
    ensures |LayTextures(ts, rest)| >= |rest|
  {
  }

  /** Whatever the reader accepts is the layout of what it returns: no two
      files are read alike. */
  lemma LayoutOfRead(bs: seq<byte>)
    requires Read(bs).Some?
    ensures FileOk(Read(bs).value) && Layout(Read(bs).value) == bs
  {
    hide LayChunk, ReadChunk, LayTextures, ReadTextures, LE, ReadLE;
    Widths();
    LayChunkOfRead(bs);
    var (file, _) := ReadChunk(bs).value;
    LayChunkOfRead(file.body);
    var (info, b1) := ReadChunk(file.body).value;
    var (count, b2) := ReadLE(info.body, 2).value;
    LEOfReadLE(info.body, 2);
    LEOfReadLE(b2, 2);
    LayTexturesOfRead(b1, count);
    var b3 := ReadTextures(b1, count).value.1;
    LayChunkOfRead(b3);
    var unknown := ReadLE(b2, 2).value.0;
    assert LE(unknown, 2) + [] == LE(unknown, 2);
    var extra := ReadChunk(b3).value.0;
    assert LayChunk(extra) + [] == LayChunk(extra);
    assert LayChunk(file) + [] == LayChunk(file);
    assert ReadLE(b2, 2).value.1 == [];
  }
}
