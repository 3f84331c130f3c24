/** What the texture dictionary writer emits, on values: the size fields as the
    program computes them, in 32-bit arithmetic and by code of its own, and the
    bytes it appends. The main result says exactly which dictionaries come out
    as files that read back to their contents. */
module TxdWriter {
  import opened Bytes
  import opened TxdFormat

  const VERSION_GTASA: u32 := 0x1803ffff

  /** A C pointer to bytes: null, or an address, with its representation in memory. */
  datatype Pointer = Null | Address(image: seq<byte>)

  /** txd_texture_data_t: the sizes are whatever the caller has put there. */
  datatype TextureRecord = TextureRecord(
    id: u32, chunkSize: u32, marker: u32, naming: Naming, shape: Shape,
    palette: Option<seq<byte>>, dataSize: u32, data: seq<byte>)

  /** The buffers are as long as the program takes them to be. */
  type TxdTextureData = t: TextureRecord |
    (t.palette.Some? ==> |t.palette.value| == PALETTE_SIZE) && |t.data| == t.dataSize
    witness TextureRecord(0, 0, 0, Naming(0, 0, seq(32, _ => 0), seq(32, _ => 0), 0, 0),
                          Shape(0, 0, 0, 0, 0, 0), None, 0, [])

  /** txd_extra_info_t. */
  datatype ExtraInfo = ExtraInfo(id: u32, chunkSize: u32, marker: u32, data: Pointer)

  datatype TextureInfo = TextureInfo(texture: TxdTextureData, extra: ExtraInfo)

  /** The dictionary's own extra info: empty. */
  const NO_EXTRA := ExtraInfo(CHUNK_EXTRA, 0, VERSION_GTASA, Null)

  // ------------------------------------------------------------ iteration

  predicate IsLeast(s: set<int>, x: int) {
    x in s && forall y :: y in s ==> x <= y
  }

  lemma LeastExists(s: set<int>)
    requires s != {}
    ensures exists x :: IsLeast(s, x)
  {
    assert (forall x: int :: x !in s) ==> s == {};
    var x :| x in s;
    if s != {x} {
      assert s == (s - {x}) + {x};
      LeastExists(s - {x});
      var y :| IsLeast(s - {x}, y);
      assert IsLeast(s, if x < y then x else y);
    } else {
      assert IsLeast(s, x);
    }
  }

  /** The keys of a std::map in the order of its iterators. */
  function Ascending(s: set<int>): (r: seq<int>)
    ensures |r| == |s|
  {
    if s == {} then []
    else
      LeastExists(s);
      var x :| IsLeast(s, x);
      [x] + Ascending(s - {x})
  }

  lemma {:induction false} AscendingIsSorted(s: set<int>)
    ensures forall x :: x in Ascending(s) <==> x in s
    ensures forall i, j :: 0 <= i < j < |s| ==> Ascending(s)[i] < Ascending(s)[j]
  {
    if s != {} {
      LeastExists(s);
      var x :| IsLeast(s, x);
      var rest := Ascending(s - {x});
      assert Ascending(s) == [x] + rest;
      AscendingIsSorted(s - {x});
      forall i, j | 0 <= i < j < |s| ensures Ascending(s)[i] < Ascending(s)[j] {
        assert rest[j - 1] in rest;
      }
    }
  }

  function Infos(m: map<int, TextureInfo>): (r: seq<TextureInfo>)
    ensures |r| == |m|
  {
    AscendingIsSorted(m.Keys);
    var keys := Ascending(m.Keys);
    assert forall i :: 0 <= i < |keys| ==> keys[i] in keys;
    InfosAt(m, Ascending(m.Keys))
  }

  function InfosAt(m: map<int, TextureInfo>, keys: seq<int>): (r: seq<TextureInfo>)
    requires forall i :: 0 <= i < |keys| ==> keys[i] in m
    ensures |r| == |keys| && forall i :: 0 <= i < |r| ==> r[i] == m[keys[i]]
  {
    if keys == [] then [] else [m[keys[0]]] + InfosAt(m, keys[1..])
  }

  // ------------------------------------------------------------------ sizes

  function TextureChunkSize(ti: TextureInfo): u32 {
    U32(U32(24 + ti.texture.chunkSize) + ti.extra.chunkSize)
  }

  /** The accumulator of the loop in getFileChunkSize. */
  function AddSizes(s: u32, infos: seq<TextureInfo>): u32
    decreases |infos|
  {
    if infos == [] then s
    else AddSizes(U32(s + TextureChunkSize(infos[0]) + 12), infos[1..])
  }

  function FileChunkSize(m: map<int, TextureInfo>): u32 {
    AddSizes(28, Infos(m))
  }

  /** The same sum on unbounded integers. */
  function DeclaredTotal(infos: seq<TextureInfo>): nat {
    if infos == [] then 0
    else 36 + infos[0].texture.chunkSize + infos[0].extra.chunkSize + DeclaredTotal(infos[1..])
  }

  /** Wrapping at every step loses nothing but multiples of 2^32. */
  lemma {:induction false} AddSizesWraps(s: u32, infos: seq<TextureInfo>)
    ensures AddSizes(s, infos) == U32(s + DeclaredTotal(infos))
    ensures AddSizes(s, infos) == s + DeclaredTotal(infos) <==> s + DeclaredTotal(infos) < TWO_32
    decreases |infos|
  {
    hide U32, TextureChunkSize;
    SmallIsKept(s + DeclaredTotal(infos));
    SmallIsKept(s);
    if infos != [] {
      var step := 36 + infos[0].texture.chunkSize + infos[0].extra.chunkSize;
      var s1 := U32(s + TextureChunkSize(infos[0]) + 12);
      WrapSteps(s, infos[0]);
      AddSizesWraps(s1, infos[1..]);
      WrapAdd(s + step, DeclaredTotal(infos[1..]));
    }
  }

  lemma SmallIsKept(x: nat)
    ensures U32(x) == x <==> x < TWO_32
  {
  }

  lemma WrapAdd(a: nat, b: nat)
    ensures U32(U32(a) + b) == U32(a + b)
  {
    assert a == TWO_32 * (a / TWO_32) + a % TWO_32;
  }

  lemma WrapSteps(s: u32, ti: TextureInfo)
    ensures U32(s + TextureChunkSize(ti) + 12) == U32(s + 36 + ti.texture.chunkSize + ti.extra.chunkSize)
  {
    hide U32;
    var c: nat := ti.texture.chunkSize;
    var e: nat := ti.extra.chunkSize;
    WrapAdd(24 + c, e);
    WrapAdd(24 + c + e, s + 12);
  }

  // ------------------------------------------------------------------ bytes

  function Palette(t: TxdTextureData): seq<byte> {
    if t.palette.Some? then t.palette.value else []
  }

  function Payload(e: ExtraInfo): seq<byte> {
    if e.data.Null? then [] else e.data.image
  }

  function EmitExtra(e: ExtraInfo): (bs: seq<byte>)
    ensures |bs| == 12 + |Payload(e)|
  {
    LayHeader(e.id, e.chunkSize, e.marker, Payload(e))
  }

  function EmitTexture(ti: TextureInfo, size: u32): (bs: seq<byte>)
    ensures |bs| == 36 + |LayRaster(View(ti).raster)| + |Payload(ti.extra)|
  {
    var t := ti.texture;
    LayHeader(CHUNK_TEXTURE, size, VERSION_GTASA,
      LayHeader(t.id, t.chunkSize, t.marker,
        LayNaming(t.naming, LayShape(t.shape,
          Palette(t) + (LE(t.dataSize, 4) + (t.data + EmitExtra(ti.extra)))))))
  }

  function EmitTextures(infos: seq<TextureInfo>, rest: seq<byte>): seq<byte> {
    if infos == [] then rest
    else EmitTexture(infos[0], TextureChunkSize(infos[0])) + EmitTextures(infos[1..], rest)
  }

  function EmitInfo(count: u16, rest: seq<byte>): seq<byte> {
    LayHeader(CHUNK_INFO, INFO_SIZE, VERSION_GTASA, LE(count, 2) + (LE(2, 2) + rest))
  }

  /** The whole file. The number of textures is kept in 16 bits. */
  function EmitFile(m: map<int, TextureInfo>): seq<byte> {
    LayHeader(CHUNK_FILE, FileChunkSize(m), VERSION_GTASA,
      EmitInfo(|m| % TWO_16, EmitTextures(Infos(m), EmitExtra(NO_EXTRA))))
  }

  // ------------------------------------------------------- what it stands for

  function View(ti: TextureInfo): TextureView {
    var t := ti.texture;
    TextureView(VERSION_GTASA, t.id, t.marker, Raster(t.naming, t.shape, Palette(t), t.data),
                Chunk(ti.extra.id, ti.extra.marker, Payload(ti.extra)))
  }

  function Views(infos: seq<TextureInfo>): (r: seq<TextureView>)
    ensures |r| == |infos| && forall i :: 0 <= i < |r| ==> r[i] == View(infos[i])
  {
    seq(|infos|, i requires 0 <= i < |infos| => View(infos[i]))
  }

  /** The dictionary as a file's contents: its textures in ascending id order. */
  function Contents(m: map<int, TextureInfo>): FileView {
    FileView(VERSION_GTASA, VERSION_GTASA, 2, Views(Infos(m)), VERSION_GTASA, [])
  }

  /** The sizes the caller has put into a texture are the true ones, and it has
      a palette exactly when it is 8 bits deep. */
  predicate SelfDescribing(ti: TextureInfo) {
    && (ti.texture.palette.Some? <==> ti.texture.shape.depth == 8)
    && ti.texture.chunkSize == 92 + |Palette(ti.texture)| + |ti.texture.data|
    && ti.extra.chunkSize == |Payload(ti.extra)|
  }

  /** What a caller can check before writing. */
  predicate Describable(m: map<int, TextureInfo>) {
    && |m| < TWO_16
    && (forall id :: id in m ==> SelfDescribing(m[id]))
    && 28 + DeclaredTotal(Infos(m)) < TWO_32
  }
}
