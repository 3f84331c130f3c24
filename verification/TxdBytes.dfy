/** The written file byte by byte: which number stands at which offset. */
module TxdBytes {
  import opened Bytes
  import opened TxdFormat
  import opened TxdWriter

  /** The piece stands in bs at this offset. */
  predicate At(bs: seq<byte>, offset: nat, piece: seq<byte>) {
    offset + |piece| <= |bs| && bs[offset..offset + |piece|] == piece
  }

  lemma AtFront(a: seq<byte>, b: seq<byte>)
    ensures At(a + b, 0, a) && At(a + b, |a|, b)
  {
  }

  /** What stands in a part stands in the whole. */
  lemma AtPart(bs: seq<byte>, offset: nat, part: seq<byte>, k: nat, piece: seq<byte>)
    requires At(bs, offset, part) && At(part, k, piece)
    ensures At(bs, offset + k, piece)
  {
    forall i | 0 <= i < |piece| ensures bs[offset + k + i] == piece[i] {
      assert part[k..k + |piece|][i] == part[k + i] == bs[offset..offset + |part|][k + i];
    }
  }

  /** What follows a is found |a| bytes further on. */
  lemma Skip(bs: seq<byte>, offset: nat, a: seq<byte>, b: seq<byte>)
    requires At(bs, offset, a + b)
    ensures At(bs, offset, a) && At(bs, offset + |a|, b)
  {
    AtFront(a, b);
    AtPart(bs, offset, a + b, 0, a);
    AtPart(bs, offset, a + b, |a|, b);
  }

  lemma TwoBytes(v: nat)
    ensures LE(v, 1) == [v % 256] && LE(v, 2) == [v % 256, v / 256 % 256]
  {
    assert LE(v, 1) == [v % 256] + LE(v / 256, 0);
    assert LE(v / 256, 1) == [v / 256 % 256] + LE(v / 256 / 256, 0);
    assert LE(v, 2) == [v % 256] + LE(v / 256, 1);
  }

  /** Fields are little-endian. */
  lemma FieldBytes(v: nat)
    ensures LE(v, 1) == [v % 256] && LE(v, 2) == [v % 256, v / 256 % 256]
    ensures LE(v, 4) == [v % 256, v / 256 % 256, v / 65536 % 256, v / 16777216 % 256]
  {
    var w := v / 256;
    assert LE(v, 4) == [v % 256] + LE(w, 3) && LE(w, 3) == [w % 256] + LE(w / 256, 2);
    hide LE;
    TwoBytes(v);
    TwoBytes(w / 256);
    Quotients(v);
  }

  lemma Quotients(v: nat)
    ensures v / 256 / 256 == v / 65536 && v / 65536 / 256 == v / 16777216
  {
  }

  lemma Constants()
    ensures LE(CHUNK_FILE, 4) == [0x16, 0, 0, 0] && LE(CHUNK_TEXTURE, 4) == [0x15, 0, 0, 0]
    ensures LE(CHUNK_INFO, 4) == [0x01, 0, 0, 0] && LE(CHUNK_EXTRA, 4) == [0x03, 0, 0, 0]
    ensures LE(VERSION_GTASA, 4) == [0xff, 0xff, 0x03, 0x18] && LE(INFO_SIZE, 4) == [4, 0, 0, 0]
    ensures LE(0, 4) == [0, 0, 0, 0] && LE(2, 2) == [2, 0]
  {
    hide LE;
    FieldBytes(CHUNK_FILE);
    FieldBytes(CHUNK_TEXTURE);
    FieldBytes(CHUNK_INFO);
    FieldBytes(CHUNK_EXTRA);
    FieldBytes(VERSION_GTASA);
    FieldBytes(INFO_SIZE);
    FieldBytes(0);
    FieldBytes(2);
  }

  /** A header: id, size, marker. */
  lemma HeaderBytes(bs: seq<byte>, offset: nat, id: u32, size: nat, marker: u32, rest: seq<byte>)
    requires At(bs, offset, LayHeader(id, size, marker, rest))
    ensures At(bs, offset, LE(id, 4)) && At(bs, offset + 4, LE(size, 4)) && At(bs, offset + 8, LE(marker, 4))
    ensures At(bs, offset + 12, rest)
  {
    hide LE, At;
    Skip(bs, offset, LE(id, 4), LE(size, 4) + (LE(marker, 4) + rest));
    Skip(bs, offset + 4, LE(size, 4), LE(marker, 4) + rest);
    Skip(bs, offset + 8, LE(marker, 4), rest);
  }

  lemma NamingBytes(bs: seq<byte>, offset: nat, n: Naming, rest: seq<byte>)
    requires At(bs, offset, LayNaming(n, rest))
    ensures At(bs, offset, LE(n.version, 4)) && At(bs, offset + 4, LE(n.filterFlags, 4))
    ensures At(bs, offset + 8, n.textureName) && At(bs, offset + 40, n.alphaName)
    ensures At(bs, offset + 72, LE(n.alphaFlags, 4)) && At(bs, offset + 76, LE(n.format, 4))
    ensures At(bs, offset + 80, rest)
  {
    hide LE, At;
    var b5 := LE(n.format, 4) + rest;
    var b4 := LE(n.alphaFlags, 4) + b5;
    var b3 := n.alphaName + b4;
    var b2 := n.textureName + b3;
    Skip(bs, offset, LE(n.version, 4), LE(n.filterFlags, 4) + b2);
    Skip(bs, offset + 4, LE(n.filterFlags, 4), b2);
    Skip(bs, offset + 8, n.textureName, b3);
    Skip(bs, offset + 40, n.alphaName, b4);
    Skip(bs, offset + 72, LE(n.alphaFlags, 4), b5);
    Skip(bs, offset + 76, LE(n.format, 4), rest);
  }

  lemma ShapeBytes(bs: seq<byte>, offset: nat, s: Shape, rest: seq<byte>)
    requires At(bs, offset, LayShape(s, rest))
    ensures At(bs, offset, LE(s.width, 2)) && At(bs, offset + 2, LE(s.height, 2))
    ensures At(bs, offset + 4, [s.depth]) && At(bs, offset + 5, [s.mipmapCount])
    ensures At(bs, offset + 6, [s.texcodeType]) && At(bs, offset + 7, [s.flags])
    ensures At(bs, offset + 8, rest)
  {
    hide LE, At;
    FieldBytes(s.depth);
    FieldBytes(s.mipmapCount);
    FieldBytes(s.texcodeType);
    FieldBytes(s.flags);
    var b5 := LE(s.flags, 1) + rest;
    var b4 := LE(s.texcodeType, 1) + b5;
    var b3 := LE(s.mipmapCount, 1) + b4;
    var b2 := LE(s.depth, 1) + b3;
    Skip(bs, offset, LE(s.width, 2), LE(s.height, 2) + b2);
    Skip(bs, offset + 2, LE(s.height, 2), b2);
    Skip(bs, offset + 4, LE(s.depth, 1), b3);
    Skip(bs, offset + 5, LE(s.mipmapCount, 1), b4);
    Skip(bs, offset + 6, LE(s.texcodeType, 1), b5);
    Skip(bs, offset + 7, LE(s.flags, 1), rest);
  }

  /** A texture chunk, in the order of txd_texture_t, txd_texture_data_t and
      txd_extra_info_t. */
  lemma TextureBytes(ti: TextureInfo, size: u32)
    ensures var t, bs := ti.texture, EmitTexture(ti, size);
            && At(bs, 0, [0x15, 0, 0, 0]) && At(bs, 4, LE(size, 4)) && At(bs, 8, [0xff, 0xff, 0x03, 0x18])
            && At(bs, 12, LE(t.id, 4)) && At(bs, 16, LE(t.chunkSize, 4)) && At(bs, 20, LE(t.marker, 4))
            && At(bs, 24, LE(t.naming.version, 4)) && At(bs, 28, LE(t.naming.filterFlags, 4))
            && At(bs, 32, t.naming.textureName) && At(bs, 64, t.naming.alphaName)
            && At(bs, 96, LE(t.naming.alphaFlags, 4)) && At(bs, 100, LE(t.naming.format, 4))
            && At(bs, 104, LE(t.shape.width, 2)) && At(bs, 106, LE(t.shape.height, 2))
            && At(bs, 108, [t.shape.depth]) && At(bs, 109, [t.shape.mipmapCount])
            && At(bs, 110, [t.shape.texcodeType]) && At(bs, 111, [t.shape.flags])
            && (t.palette.Some? ==> At(bs, 112, t.palette.value))
            && var p: nat := if t.palette.Some? then 112 + 1024 else 112;
            && At(bs, p, LE(t.dataSize, 4)) && At(bs, p + 4, t.data)
            && var e := p + 4 + t.dataSize;
            && At(bs, e, LE(ti.extra.id, 4)) && At(bs, e + 4, LE(ti.extra.chunkSize, 4))
            && At(bs, e + 8, LE(ti.extra.marker, 4))
            && (if ti.extra.data.Null? then |bs| == e + 12
                else At(bs, e + 12, ti.extra.data.image) && |bs| == e + 12 + |ti.extra.data.image|)
  {
    hide LE, LayHeader, LayNaming, LayShape, At;
    var t, bs := ti.texture, EmitTexture(ti, size);
    var pixels := LE(t.dataSize, 4) + (t.data + EmitExtra(ti.extra));
    var shape := LayShape(t.shape, Palette(t) + pixels);
    var naming := LayNaming(t.naming, shape);
    Constants();
    Whole(bs);
    HeaderBytes(bs, 0, CHUNK_TEXTURE, size, VERSION_GTASA, LayHeader(t.id, t.chunkSize, t.marker, naming));
    HeaderBytes(bs, 12, t.id, t.chunkSize, t.marker, naming);
    NamingBytes(bs, 24, t.naming, shape);
    ShapeBytes(bs, 104, t.shape, Palette(t) + pixels);
    Skip(bs, 112, Palette(t), pixels);
    var p := 112 + |Palette(t)|;
    Skip(bs, p, LE(t.dataSize, 4), t.data + EmitExtra(ti.extra));
    Skip(bs, p + 4, t.data, EmitExtra(ti.extra));
    HeaderBytes(bs, p + 4 + |t.data|, ti.extra.id, ti.extra.chunkSize, ti.extra.marker, Payload(ti.extra));
  }

  lemma Whole(bs: seq<byte>)
    ensures At(bs, 0, bs)
  {
  }

  /** The textures are written in ascending order of their ids, each once. */
  lemma WritingOrder(m: map<int, TextureInfo>) returns (ids: seq<int>)
    ensures |ids| == |m| && forall id :: id in ids <==> id in m
    ensures forall i, j :: 0 <= i < j < |ids| ==> ids[i] < ids[j]
    ensures forall i :: 0 <= i < |ids| ==> ids[i] in m && Infos(m)[i] == m[ids[i]]
  {
    ids := Ascending(m.Keys);
    AscendingIsSorted(m.Keys);
    forall i | 0 <= i < |ids| ensures ids[i] in m {
      assert ids[i] in ids;
    }
  }

  /** Where the i-th texture chunk begins. */
  function Start(infos: seq<TextureInfo>, i: nat): nat
    requires i <= |infos|
  {
    if i == 0 then 0 else |EmitTexture(infos[0], TextureChunkSize(infos[0]))| + Start(infos[1..], i - 1)
  }

  lemma {:induction false} TexturesBytes(bs: seq<byte>, offset: nat, infos: seq<TextureInfo>, rest: seq<byte>)
    requires At(bs, offset, EmitTextures(infos, rest))
    ensures forall i :: 0 <= i < |infos| ==>
              At(bs, offset + Start(infos, i), EmitTexture(infos[i], TextureChunkSize(infos[i])))
    ensures At(bs, offset + Start(infos, |infos|), rest)
    decreases |infos|
  {
    hide At, EmitTexture, TextureChunkSize;
    if infos != [] {
      var first := EmitTexture(infos[0], TextureChunkSize(infos[0]));
      Skip(bs, offset, first, EmitTextures(infos[1..], rest));
      TexturesBytes(bs, offset + |first|, infos[1..], rest);
      forall i | 0 <= i < |infos|
        ensures At(bs, offset + Start(infos, i), EmitTexture(infos[i], TextureChunkSize(infos[i])))
      {
        if i > 0 {
          assert infos[i] == infos[1..][i - 1];
        }
      }
    }
  }

  /** The file: its header and info chunk take 28 bytes, then come the texture
      chunks in ascending id order, each with the size of its own, and at the end
      an empty extra chunk. */
  lemma FileBytes(m: map<int, TextureInfo>)
    ensures var bs, infos := EmitFile(m), Infos(m);
            && At(bs, 0, [0x16, 0, 0, 0]) && At(bs, 4, LE(FileChunkSize(m), 4)) && At(bs, 8, [0xff, 0xff, 0x03, 0x18])
            && At(bs, 12, [0x01, 0, 0, 0]) && At(bs, 16, [4, 0, 0, 0]) && At(bs, 20, [0xff, 0xff, 0x03, 0x18])
            && At(bs, 24, LE(|m| % 65536, 2)) && At(bs, 26, [2, 0])
            && (forall i :: 0 <= i < |infos| ==>
                  At(bs, 28 + Start(infos, i), EmitTexture(infos[i], TextureChunkSize(infos[i]))))
            && At(bs, 28 + Start(infos, |infos|), [0x03, 0, 0, 0, 0, 0, 0, 0, 0xff, 0xff, 0x03, 0x18])
  {
    hide LE, At, LayHeader, EmitTextures, Infos;
    var bs := EmitFile(m);
    var last := EmitExtra(NO_EXTRA);
    var textures := EmitTextures(Infos(m), last);
    Constants();
    Whole(bs);
    HeaderBytes(bs, 0, CHUNK_FILE, FileChunkSize(m), VERSION_GTASA, EmitInfo(|m| % TWO_16, textures));
    HeaderBytes(bs, 12, CHUNK_INFO, INFO_SIZE, VERSION_GTASA, LE(|m| % TWO_16, 2) + (LE(2, 2) + textures));
    Skip(bs, 24, LE(|m| % TWO_16, 2), LE(2, 2) + textures);
    Skip(bs, 26, LE(2, 2), textures);
    TexturesBytes(bs, 28, Infos(m), last);
    LastBytes();
  }

  lemma LastBytes()
    ensures EmitExtra(NO_EXTRA) == [0x03, 0, 0, 0, 0, 0, 0, 0, 0xff, 0xff, 0x03, 0x18]
  {
    hide LE;
    Constants();
    assert LE(VERSION_GTASA, 4) + [] == LE(VERSION_GTASA, 4);
  }
}
