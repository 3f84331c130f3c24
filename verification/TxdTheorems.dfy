/** Which dictionaries are written as files that can be read back. */
module TxdTheorems {
  import opened Bytes
  import opened TxdFormat
  import opened TxdWriter

  // ---------------------------------------------------------- concatenation

  lemma HeaderConcat(id: u32, size: nat, marker: u32, a: seq<byte>, b: seq<byte>)
    ensures LayHeader(id, size, marker, a) + b == LayHeader(id, size, marker, a + b)
  {
    hide LE;
    assert LE(marker, 4) + a + b == LE(marker, 4) + (a + b);
    assert LE(size, 4) + (LE(marker, 4) + a) + b == LE(size, 4) + (LE(marker, 4) + a + b);
  }

  lemma NamingConcat(n: Naming, a: seq<byte>, b: seq<byte>)
    ensures LayNaming(n, a) + b == LayNaming(n, a + b)
  {
    hide LE;
    var x4 := LE(n.format, 4) + a;
    var x3 := LE(n.alphaFlags, 4) + x4;
    var x2 := n.alphaName + x3;
    var x1 := n.textureName + x2;
    assert x4 + b == LE(n.format, 4) + (a + b);
    assert x3 + b == LE(n.alphaFlags, 4) + (x4 + b);
    assert x2 + b == n.alphaName + (x3 + b);
    assert x1 + b == n.textureName + (x2 + b);
    assert LE(n.filterFlags, 4) + x1 + b == LE(n.filterFlags, 4) + (x1 + b);
  }

  lemma ShapeConcat(s: Shape, a: seq<byte>, b: seq<byte>)
    ensures LayShape(s, a) + b == LayShape(s, a + b)
  {
    hide LE;
    var x4 := LE(s.flags, 1) + a;
    var x3 := LE(s.texcodeType, 1) + x4;
    var x2 := LE(s.mipmapCount, 1) + x3;
    var x1 := LE(s.depth, 1) + x2;
    assert x4 + b == LE(s.flags, 1) + (a + b);
    assert x3 + b == LE(s.texcodeType, 1) + (x4 + b);
    assert x2 + b == LE(s.mipmapCount, 1) + (x3 + b);
    assert x1 + b == LE(s.depth, 1) + (x2 + b);
    assert LE(s.height, 2) + x1 + b == LE(s.height, 2) + (x1 + b);
  }

  /** The bytes after the two headers of a texture are its struct and its extra. */
  lemma EmitTextureNests(ti: TextureInfo, size: u32)
    ensures EmitTexture(ti, size) ==
            LayHeader(CHUNK_TEXTURE, size, VERSION_GTASA,
              LayHeader(ti.texture.id, ti.texture.chunkSize, ti.texture.marker, LayRaster(View(ti).raster))
              + EmitExtra(ti.extra))
  {
    hide LE, LayNaming, LayShape, LayHeader;
    var t := ti.texture;
    var tail := EmitExtra(ti.extra);
    var pixels := LayPixels(Palette(t), t.data);
    assert Palette(t) + (LE(t.dataSize, 4) + (t.data + tail)) == pixels + tail;
    ShapeConcat(t.shape, pixels, tail);
    NamingConcat(t.naming, LayShape(t.shape, pixels), tail);
    HeaderConcat(t.id, t.chunkSize, t.marker, LayRaster(View(ti).raster), tail);
  }

  lemma HeaderInjective(id: u32, id': u32, size: nat, size': nat, marker: u32, marker': u32, a: seq<byte>, b: seq<byte>)
    requires size < TWO_32 && size' < TWO_32
    requires LayHeader(id, size, marker, a) == LayHeader(id', size', marker', b)
    ensures size == size' && a == b
  {
    hide LE;
    Widths();
    SplitEqual(LE(id, 4), LE(size, 4) + (LE(marker, 4) + a), LE(id', 4), LE(size', 4) + (LE(marker', 4) + b));
    SplitEqual(LE(size, 4), LE(marker, 4) + a, LE(size', 4), LE(marker', 4) + b);
    SplitEqual(LE(marker, 4), a, LE(marker', 4), b);
    SameField(size, size', 4);
  }

  // ------------------------------------------------------------ one texture

  /** The caller's two size fields are true. */
  predicate SizesTrue(ti: TextureInfo) {
    ti.texture.chunkSize == |LayRaster(View(ti).raster)| && ti.extra.chunkSize == |Payload(ti.extra)|
  }

  lemma TrueSizesEmitLayout(ti: TextureInfo)
    requires SizesTrue(ti) && |LayTextureBody(View(ti))| < TWO_32
    ensures TextureChunkSize(ti) == |LayTextureBody(View(ti))|
    ensures EmitTexture(ti, TextureChunkSize(ti)) == LayTexture(View(ti))
  {
    hide LE, LayRaster, LayHeader;
    EmitTextureNests(ti, TextureChunkSize(ti));
  }

  lemma LayoutNeedsTrueSizes(ti: TextureInfo)
    requires EmitTexture(ti, TextureChunkSize(ti)) == LayTexture(View(ti)) && TextureOk(View(ti))
    ensures SizesTrue(ti)
  {
    hide LE, LayRaster, LayHeader, EmitTexture;
    var v := View(ti);
    var t := ti.texture;
    var raster := LayRaster(v.raster);
    var struct := LayHeader(t.id, t.chunkSize, t.marker, raster);
    EmitTextureNests(ti, TextureChunkSize(ti));
    HeaderInjective(CHUNK_TEXTURE, CHUNK_TEXTURE, TextureChunkSize(ti), |LayTextureBody(v)|,
                    VERSION_GTASA, VERSION_GTASA, struct + EmitExtra(ti.extra), LayTextureBody(v));
    SplitEqual(struct, EmitExtra(ti.extra), LayHeader(t.id, |raster|, t.marker, raster), LayChunk(v.extra));
    HeaderInjective(t.id, t.id, t.chunkSize, |raster|, t.marker, t.marker, raster, raster);
    HeaderInjective(ti.extra.id, ti.extra.id, ti.extra.chunkSize, |v.extra.body|,
                    ti.extra.marker, ti.extra.marker, Payload(ti.extra), v.extra.body);
  }

  // ----------------------------------------------------------- all textures

  lemma {:induction false} AllTrueSizesEmitLayout(infos: seq<TextureInfo>, rest: seq<byte>)
    requires forall i :: 0 <= i < |infos| ==> SizesTrue(infos[i])
    requires forall i :: 0 <= i < |infos| ==> |LayTextureBody(View(infos[i]))| < TWO_32
    ensures EmitTextures(infos, rest) == LayTextures(Views(infos), rest)
  {
    hide EmitTexture, LayTexture, LayTextureBody, SizesTrue;
    if infos != [] {
      TrueSizesEmitLayout(infos[0]);
      AllTrueSizesEmitLayout(infos[1..], rest);
      assert Views(infos)[1..] == Views(infos[1..]);
    }
  }

  lemma {:induction false} AllLayoutNeedsTrueSizes(infos: seq<TextureInfo>, rest: seq<byte>, rest': seq<byte>)
    requires EmitTextures(infos, rest) == LayTextures(Views(infos), rest')
    requires forall i :: 0 <= i < |infos| ==> TextureOk(View(infos[i]))
    ensures forall i :: 0 <= i < |infos| ==> SizesTrue(infos[i])
  {
    hide EmitTexture, LayTexture, LayTextureBody, SizesTrue, TextureOk;
    if infos != [] {
      assert Views(infos)[1..] == Views(infos[1..]);
      SameLength(infos[0]);
      SplitEqual(EmitTexture(infos[0], TextureChunkSize(infos[0])), EmitTextures(infos[1..], rest),
                 LayTexture(View(infos[0])), LayTextures(Views(infos[1..]), rest'));
      LayoutNeedsTrueSizes(infos[0]);
      AllLayoutNeedsTrueSizes(infos[1..], rest, rest');
    }
  }

  lemma SameLength(ti: TextureInfo)
    ensures |EmitTexture(ti, TextureChunkSize(ti))| == |LayTexture(View(ti))|
  {
  }

  /** When the size fields are true, the declared total is the emitted total. */
  lemma {:induction false} TrueTotal(infos: seq<TextureInfo>, rest: seq<byte>)
    requires forall i :: 0 <= i < |infos| ==> SizesTrue(infos[i])
    ensures |LayTextures(Views(infos), rest)| == DeclaredTotal(infos) + |rest|
    ensures forall i :: 0 <= i < |infos| ==> |LayTextureBody(View(infos[i]))| <= DeclaredTotal(infos)
  {
    if infos != [] {
      assert Views(infos)[1..] == Views(infos[1..]);
      TrueTotal(infos[1..], rest);
      OneTotal(infos[0]);
    }
  }

  lemma OneTotal(ti: TextureInfo)
    requires SizesTrue(ti)
    ensures |LayTexture(View(ti))| == 36 + ti.texture.chunkSize + ti.extra.chunkSize
    ensures |LayTextureBody(View(ti))| == 24 + ti.texture.chunkSize + ti.extra.chunkSize
  {
  }

  // --------------------------------------------------------------- the file

  lemma InfoNests(count: u16, rest: seq<byte>)
    ensures EmitInfo(count, rest) == LayChunk(Chunk(CHUNK_INFO, VERSION_GTASA, LE(count, 2) + LE(2, 2))) + rest
  {
    hide LE, LayHeader;
    HeaderConcat(CHUNK_INFO, INFO_SIZE, VERSION_GTASA, LE(count, 2) + LE(2, 2), rest);
    assert LE(count, 2) + LE(2, 2) + rest == LE(count, 2) + (LE(2, 2) + rest);
  }

  lemma EveryInfo(m: map<int, TextureInfo>)
    ensures (forall id :: id in m ==> SelfDescribing(m[id])) <==>
            (forall i :: 0 <= i < |m| ==> SelfDescribing(Infos(m)[i]))
  {
    hide SelfDescribing;
    var keys := Ascending(m.Keys);
    AscendingIsSorted(m.Keys);
    assert forall i :: 0 <= i < |keys| ==> keys[i] in keys;
    if forall i :: 0 <= i < |m| ==> SelfDescribing(Infos(m)[i]) {
      forall id | id in m ensures SelfDescribing(m[id]) {
        assert id in keys;
        var i :| 0 <= i < |keys| && keys[i] == id;
        assert Infos(m)[i] == m[id];
      }
    }
  }

  lemma SelfDescribingMeans(ti: TextureInfo)
    ensures SelfDescribing(ti) <==>
            SizesTrue(ti) && |Palette(ti.texture)| == (if ti.texture.shape.depth == 8 then PALETTE_SIZE else 0)
  {
  }

  /** What being describable says about each texture. */
  lemma DescribableTextures(m: map<int, TextureInfo>)
    requires Describable(m)
    ensures forall i :: 0 <= i < |m| ==>
              && SizesTrue(Infos(m)[i]) && TextureOk(View(Infos(m)[i]))
              && |LayTextureBody(View(Infos(m)[i]))| < TWO_32
  {
    hide SelfDescribing, SizesTrue, LayTextureBody, TextureOk;
    var infos := Infos(m);
    EveryInfo(m);
    forall i | 0 <= i < |infos| ensures SizesTrue(infos[i]) {
      SelfDescribingMeans(infos[i]);
    }
    TrueTotal(infos, []);
    forall i | 0 <= i < |infos| ensures TextureOk(View(infos[i])) {
      SmallEnough(infos[i]);
    }
  }

  lemma FileNests(m: map<int, TextureInfo>)
    requires |m| < TWO_16
    requires var last := EmitExtra(NO_EXTRA); EmitTextures(Infos(m), last) == LayTextures(Views(Infos(m)), last)
    ensures EmitInfo(|m| % TWO_16, EmitTextures(Infos(m), EmitExtra(NO_EXTRA))) == LayBody(Contents(m))
  {
    hide LE, EmitTextures, LayTextures, LayHeader;
    InfoNests(|m|, LayTextures(Views(Infos(m)), EmitExtra(NO_EXTRA)));
  }

  /** A describable dictionary is written as the format prescribes. */
  lemma DescribableWritesLayout(m: map<int, TextureInfo>)
    requires Describable(m)
    ensures EmitFile(m) == Layout(Contents(m)) && FileOk(Contents(m))
    ensures FileChunkSize(m) == |LayBody(Contents(m))| == 28 + DeclaredTotal(Infos(m))
  {
    hide LE, EmitTextures, LayTextures, LayHeader, LayTextureBody, SizesTrue, TextureOk, SelfDescribing, EmitInfo,
         AddSizes, DeclaredTotal, Views, Infos;
    var infos := Infos(m);
    var last := EmitExtra(NO_EXTRA);
    DescribableTextures(m);
    TrueTotal(infos, last);
    AllTrueSizesEmitLayout(infos, last);
    AddSizesWraps(28, infos);
    FileNests(m);
  }

  lemma SmallEnough(ti: TextureInfo)
    requires SelfDescribing(ti) && |LayTextureBody(View(ti))| < TWO_32
    ensures TextureOk(View(ti))
  {
  }

  /** Conversely, a dictionary written as the format prescribes is describable. */
  lemma LayoutNeedsDescribable(m: map<int, TextureInfo>)
    requires EmitFile(m) == Layout(Contents(m)) && FileOk(Contents(m))
    ensures Describable(m)
  {
    hide LE, EmitTextures, LayTextures, LayHeader, SelfDescribing, SizesTrue, LayTextureBody, LayRaster, TextureOk;
    var infos := Infos(m);
    var last := LayChunk(Chunk(CHUNK_EXTRA, VERSION_GTASA, []));
    var info := LayChunk(Chunk(CHUNK_INFO, VERSION_GTASA, LE(|m|, 2) + LE(2, 2)));
    InfoNests(|m|, EmitTextures(infos, last));
    HeaderInjective(CHUNK_FILE, CHUNK_FILE, FileChunkSize(m), |LayBody(Contents(m))|, VERSION_GTASA, VERSION_GTASA,
                    info + EmitTextures(infos, last), LayBody(Contents(m)));
    SplitEqual(info, EmitTextures(infos, last), info, LayTextures(Views(infos), last));
    AllLayoutNeedsTrueSizes(infos, last, last);
    TrueTotal(infos, last);
    forall i | 0 <= i < |infos| ensures SelfDescribing(infos[i]) {
      assert TextureOk(Contents(m).textures[i]);
      PaletteAsDepth(infos[i]);
      SelfDescribingMeans(infos[i]);
    }
    EveryInfo(m);
  }

  lemma PaletteAsDepth(ti: TextureInfo)
    requires TextureOk(View(ti))
    ensures |Palette(ti.texture)| == (if ti.texture.shape.depth == 8 then PALETTE_SIZE else 0)
  {
  }

  /** The file a dictionary is written to reads back to exactly its contents,
      every texture with every field and byte in ascending id order, if and only
      if the dictionary is describable. */
  lemma ReadsBackExactly(m: map<int, TextureInfo>)
    ensures Read(EmitFile(m)) == Some(Contents(m)) <==> Describable(m)
  {
    hide Read, EmitFile, Layout, Contents, FileOk, Describable;
    if Describable(m) {
      DescribableWritesLayout(m);
      ReadOfLayout(Contents(m));
    }
    if Read(EmitFile(m)) == Some(Contents(m)) {
      LayoutOfRead(EmitFile(m));
      LayoutNeedsDescribable(m);
    }
  }

  /** The declared sizes of a describable dictionary are the bytes that follow
      the respective header, at all three levels. */
  lemma DeclaredSizesAreTrue(m: map<int, TextureInfo>)
    requires Describable(m)
    ensures FileChunkSize(m) == |EmitFile(m)| - HEADER_SIZE
    ensures forall id :: id in m ==>
              && TextureChunkSize(m[id]) == |EmitTexture(m[id], TextureChunkSize(m[id]))| - HEADER_SIZE
              && m[id].texture.chunkSize == |LayRaster(View(m[id]).raster)|
  {
    hide LE, EmitTextures, LayTextures, LayHeader, LayRaster, LayTextureBody, SelfDescribing, TextureOk;
    DescribableWritesLayout(m);
    DescribableTextures(m);
    forall id | id in m
      ensures && TextureChunkSize(m[id]) == |EmitTexture(m[id], TextureChunkSize(m[id]))| - HEADER_SIZE
              && m[id].texture.chunkSize == |LayRaster(View(m[id]).raster)|
    {
      InfoOf(m, id);
      TrueSizesEmitLayout(m[id]);
      OneTotal(m[id]);
    }
  }

  lemma InfoOf(m: map<int, TextureInfo>, id: int)
    requires id in m
    ensures exists i :: 0 <= i < |m| && Infos(m)[i] == m[id]
  {
    AscendingIsSorted(m.Keys);
    var keys := Ascending(m.Keys);
    assert id in keys;
    var i :| 0 <= i < |keys| && keys[i] == id;
    assert Infos(m)[i] == m[id];
  }

  /** A texture as a caller may well make it: no pixels, every size true. */
  function EmptyTexture(): TextureInfo {
    var blank := [0, 0, 0, 0, 0, 0, 0, 0];
    var name := blank + blank + blank + blank;
    TextureInfo(TextureRecord(1, 92, VERSION_GTASA, Naming(9, 0, name, name, 0, 0),
                              Shape(0, 0, 16, 1, 4, 0), None, 0, []), NO_EXTRA)
  }

  function Copies(n: nat): map<int, TextureInfo> {
    if n == 0 then map[] else Copies(n - 1)[n - 1 := EmptyTexture()]
  }

  lemma CopiesCount(n: nat)
    ensures forall id :: id in Copies(n) <==> 0 <= id < n
    ensures |Copies(n)| == n
  {
    hide EmptyTexture;
    if n > 0 {
      CopiesCount(n - 1);
      assert Copies(n).Keys == Copies(n - 1).Keys + {n - 1};
    }
  }

  /** 65536 such textures are too many: their count does not fit its field. */
  lemma TooManyTextures()
    ensures SelfDescribing(EmptyTexture())
    ensures Read(EmitFile(Copies(TWO_16))) != Some(Contents(Copies(TWO_16)))
  {
    hide Read, EmitFile, Contents, SelfDescribing, Copies;
    SelfDescribingMeans(EmptyTexture());
    CopiesCount(TWO_16);
    ReadsBackExactly(Copies(TWO_16));
  }
}
