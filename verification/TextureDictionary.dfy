/** The texture dictionary of the program: a map from ids to textures that is
    edited in place and written to a file. */
module TextureDictionaries {
  import opened Bytes
  import opened TxdFormat
  import opened TxdWriter
  import opened TxdTheorems

  // ------------------------------------------------------------ identifiers

  /** addTexture's choice: the least non-negative id not in use. */
  ghost predicate LeastUnused(keys: set<int>, id: nat) {
    id !in keys && forall k :: 0 <= k < id ==> k in keys
  }

  /** Pigeonhole: if 0 .. n-1 are all keys, there are at least n keys. */
  lemma {:induction false} EnoughKeys(keys: set<int>, n: nat)
    requires forall k :: 0 <= k < n ==> k in keys
    ensures n <= |keys|
  {
    if n > 0 {
      EnoughKeys(keys - {n - 1}, n - 1);
    }
  }

  lemma LeastUnusedIsUnique(keys: set<int>, a: nat, b: nat)
    requires LeastUnused(keys, a) && LeastUnused(keys, b)
    ensures a == b
  {
    assert !(a < b) && !(b < a);
  }

  datatype Edit = AddTexture(info: TextureInfo) | RemoveTexture(id: int)

  ghost function FreeId(keys: set<int>): (id: nat)
    ensures LeastUnused(keys, id)
  {
    FreeIdFrom(keys, 0)
  }

  ghost function FreeIdFrom(keys: set<int>, n: nat): (id: nat)
    requires forall k :: 0 <= k < n ==> k in keys
    ensures LeastUnused(keys, id)
    decreases |keys| - n
  {
    EnoughKeys(keys, n);
    if n in keys then
      EnoughKeys(keys, n + 1);
      FreeIdFrom(keys, n + 1)
    else n
  }

  ghost function ApplyEdit(m: map<int, TextureInfo>, e: Edit): map<int, TextureInfo> {
    match e
    case AddTexture(info) => m[FreeId(m.Keys) := info]
    case RemoveTexture(id) => m - {id}
  }

  /** The largest number of textures stored at once during the edits. */
  ghost function Peak(m: map<int, TextureInfo>, es: seq<Edit>): nat
    decreases |es|
  {
    if es == [] then |m|
    else
      var later := Peak(ApplyEdit(m, es[0]), es[1..]);
      if |m| > later then |m| else later
  }

  ghost function AfterEdits(m: map<int, TextureInfo>, es: seq<Edit>): map<int, TextureInfo>
    decreases |es|
  {
    if es == [] then m else AfterEdits(ApplyEdit(m, es[0]), es[1..])
  }

  /** The peak is reached, and never exceeded. */
  lemma {:induction false} PeakIsReached(m: map<int, TextureInfo>, es: seq<Edit>)
    ensures exists k :: 0 <= k <= |es| && |AfterEdits(m, es[..k])| == Peak(m, es)
    ensures forall k :: 0 <= k <= |es| ==> |AfterEdits(m, es[..k])| <= Peak(m, es)
    decreases |es|
  {
    hide ApplyEdit;
    assert AfterEdits(m, es[..0]) == m;
    if es != [] {
      var m1 := ApplyEdit(m, es[0]);
      PeakIsReached(m1, es[1..]);
      forall k | 0 < k <= |es| ensures AfterEdits(m, es[..k]) == AfterEdits(m1, es[1..][..k - 1]) {
        assert es[..k][1..] == es[1..][..k - 1];
      }
      var k :| 0 <= k <= |es[1..]| && |AfterEdits(m1, es[1..][..k])| == Peak(m1, es[1..]);
      assert AfterEdits(m, es[..k + 1]) == AfterEdits(m1, es[1..][..k]);
    }
  }

  /** However textures are added and removed, the id handed out by the k-th edit
      is below the number of textures that have been stored at once by the end:
      ids are reused before they grow. */
  lemma IdsStayBelowPeak(m: map<int, TextureInfo>, es: seq<Edit>, k: nat)
    requires k < |es| && es[k].AddTexture?
    ensures FreeId(AfterEdits(m, es[..k]).Keys) < Peak(m, es)
  {
    PeakIsReached(m, es);
    var before := AfterEdits(m, es[..k]);
    AddGrows(before, es[k].info);
    assert es[..k + 1] == es[..k] + [es[k]];
    AfterOneMore(m, es[..k], es[k]);
  }

  lemma {:induction false} AfterOneMore(m: map<int, TextureInfo>, es: seq<Edit>, e: Edit)
    ensures AfterEdits(m, es + [e]) == ApplyEdit(AfterEdits(m, es), e)
    decreases |es|
  {
    if es == [] {
      assert (es + [e])[1..] == [];
    } else {
      assert (es + [e])[1..] == es[1..] + [e];
      AfterOneMore(ApplyEdit(m, es[0]), es[1..], e);
    }
  }

  /** Adding overwrites nothing. */
  lemma AddGrows(m: map<int, TextureInfo>, info: TextureInfo)
    ensures var id := FreeId(m.Keys); var m1 := ApplyEdit(m, AddTexture(info));
            && id !in m && m1[id] == info && |m1| == |m| + 1 && id <= |m|
            && forall k :: k in m ==> k in m1 && m1[k] == m[k]
  {
    var id := FreeId(m.Keys);
    EnoughKeys(m.Keys, id);
    assert m[id := info].Keys == m.Keys + {id as int};
  }

  // ------------------------------------------------------------- the stream

  /** A file opened for writing. */
  class ByteStream {
    var bytes: seq<byte>

    constructor ()
      ensures bytes == []
    {
      bytes := [];
    }

    /** fs.write; `rest` is what the caller has yet to write. */
    method Write(piece: seq<byte>, ghost rest: seq<byte>)
      modifies this
      ensures bytes == old(bytes) + piece
      ensures bytes + rest == old(bytes) + (piece + rest)
    {
      bytes := bytes + piece;
    }
  }

  datatype FileHeader = FileHeader(id: u32, chunkSize: u32, marker: u32)
  datatype InfoHeader = InfoHeader(id: u32, chunkSize: u32, marker: u32, count: u16, unknown: u16)

  class TextureDictionary {
    var mFile_Data: FileHeader
    var mInfo_Data: InfoHeader
    var mExtraInfo_Data: ExtraInfo
    var mTextureInfo: map<int, TextureInfo>

    ghost predicate Valid()
      reads this
    {
      && mFile_Data.id == CHUNK_FILE && mFile_Data.marker == VERSION_GTASA
      && mInfo_Data == InfoHeader(CHUNK_INFO, INFO_SIZE, VERSION_GTASA, mInfo_Data.count, 2)
      && mExtraInfo_Data == NO_EXTRA
    }

    constructor ()
      ensures Valid() && mTextureInfo == map[]
    {
      mFile_Data := FileHeader(CHUNK_FILE, 0, VERSION_GTASA);
      mInfo_Data := InfoHeader(CHUNK_INFO, INFO_SIZE, VERSION_GTASA, 0, 2);
      mExtraInfo_Data := NO_EXTRA;
      mTextureInfo := map[];
    }

    method AddTexture(tex: TxdTextureData, extInf: ExtraInfo) returns (id: nat)
      requires Valid()
      modifies this`mTextureInfo
      ensures Valid() && LeastUnused(old(mTextureInfo).Keys, id) && id <= |old(mTextureInfo)|
      ensures mTextureInfo == old(mTextureInfo)[id := TextureInfo(tex, extInf)]
      ensures mTextureInfo == ApplyEdit(old(mTextureInfo), Edit.AddTexture(TextureInfo(tex, extInf)))
    {
      id := 0;
      while id in mTextureInfo
        invariant forall k :: 0 <= k < id ==> k in mTextureInfo.Keys
        invariant mTextureInfo == old(mTextureInfo)
        decreases |mTextureInfo.Keys| - id
      {
        EnoughKeys(mTextureInfo.Keys, id + 1);
        id := id + 1;
      }
      EnoughKeys(mTextureInfo.Keys, id);
      LeastUnusedIsUnique(mTextureInfo.Keys, id, FreeId(mTextureInfo.Keys));
      mTextureInfo := mTextureInfo[id := TextureInfo(tex, extInf)];
    }

    method RemoveTexture(id: int)
      requires Valid()
      modifies this`mTextureInfo
      ensures Valid() && mTextureInfo == old(mTextureInfo) - {id}
      ensures mTextureInfo == ApplyEdit(old(mTextureInfo), Edit.RemoveTexture(id))
    {
      mTextureInfo := mTextureInfo - {id};
    }

    method WriteInfo(fs: ByteStream, info: InfoHeader, ghost rest: seq<byte>)
      requires info.id == CHUNK_INFO && info.chunkSize == INFO_SIZE && info.marker == VERSION_GTASA && info.unknown == 2
      modifies fs
      ensures fs.bytes + rest == old(fs.bytes) + EmitInfo(info.count, rest)
    {
      hide LE;
      ghost var r1 := LE(info.unknown, 2) + rest;
      ghost var r2 := LE(info.count, 2) + r1;
      ghost var r3 := LE(info.marker, 4) + r2;
      ghost var r4 := LE(info.chunkSize, 4) + r3;
      fs.Write(LE(info.id, 4), r4);
      fs.Write(LE(info.chunkSize, 4), r3);
      fs.Write(LE(info.marker, 4), r2);
      fs.Write(LE(info.count, 2), r1);
      fs.Write(LE(info.unknown, 2), rest);
    }

    /** With extra data, what is written is the pointer variable itself. */
    method WriteExtraInfo(fs: ByteStream, info: ExtraInfo)
      modifies fs
      ensures fs.bytes == old(fs.bytes) + EmitExtra(info)
    {
      hide LE;
      ghost var r0 := Payload(info);
      ghost var r1 := LE(info.marker, 4) + r0;
      ghost var r2 := LE(info.chunkSize, 4) + r1;
      fs.Write(LE(info.id, 4), r2);
      fs.Write(LE(info.chunkSize, 4), r1);
      fs.Write(LE(info.marker, 4), r0);
      if info.data != Null {
        fs.Write(info.data.image, []);
      }
      assert fs.bytes + [] == fs.bytes;
    }

    method GetTextureChunkSize(tex: TextureInfo) returns (s: u32)
      ensures s == TextureChunkSize(tex)
    {
      s := 6 * 4;
      s := U32(s + tex.texture.chunkSize);
      s := U32(s + tex.extra.chunkSize);
    }

    method GetFileChunkSize() returns (s: u32)
      requires Valid()
      ensures s == FileChunkSize(mTextureInfo)
    {
      s := U32(6 * 4 + 2 * 2 + mExtraInfo_Data.chunkSize);
      var infos := Infos(mTextureInfo);
      for i := 0 to |infos|
        invariant AddSizes(s, infos[i..]) == FileChunkSize(mTextureInfo)
      {
        var size := GetTextureChunkSize(infos[i]);
        assert infos[i..][1..] == infos[i + 1..];
        s := U32(s + size + 3 * 4);
      }
    }

    method WriteTextureInfo(fs: ByteStream, tex: TextureInfo, size: u32)
      modifies fs
      ensures fs.bytes == old(fs.bytes) + EmitTexture(tex, size)
    {
      hide LE, LayNaming, LayShape, EmitExtra;
      var t := tex.texture;
      ghost var r0 := EmitExtra(tex.extra);
      ghost var r1 := t.data + r0;
      ghost var r2 := LE(t.dataSize, 4) + r1;
      ghost var r3 := Palette(t) + r2;
      ghost var r4 := LayShape(t.shape, r3);
      ghost var r5 := LayNaming(t.naming, r4);
      ghost var r6 := LayHeader(t.id, t.chunkSize, t.marker, r5);
      WriteHeader(fs, CHUNK_TEXTURE, size, VERSION_GTASA, r6);
      WriteHeader(fs, t.id, t.chunkSize, t.marker, r5);
      WriteNaming(fs, t.naming, r4);
      WriteShape(fs, t.shape, r3);
      if t.palette.Some? {
        fs.Write(t.palette.value, r2);
      }
      fs.Write(LE(t.dataSize, 4), r1);
      fs.Write(t.data, r0);
      WriteExtraInfo(fs, tex.extra);
    }

    method WriteHeader(fs: ByteStream, id: u32, size: u32, marker: u32, ghost rest: seq<byte>)
      modifies fs
      ensures fs.bytes + rest == old(fs.bytes) + LayHeader(id, size, marker, rest)
    {
      hide LE;
      ghost var r1 := LE(marker, 4) + rest;
      ghost var r2 := LE(size, 4) + r1;
      fs.Write(LE(id, 4), r2);
      fs.Write(LE(size, 4), r1);
      fs.Write(LE(marker, 4), rest);
    }

    method WriteNaming(fs: ByteStream, n: Naming, ghost rest: seq<byte>)
      modifies fs
      ensures fs.bytes + rest == old(fs.bytes) + LayNaming(n, rest)
    {
      hide LE;
      ghost var r1 := LE(n.format, 4) + rest;
      ghost var r2 := LE(n.alphaFlags, 4) + r1;
      ghost var r3 := n.alphaName + r2;
      ghost var r4 := n.textureName + r3;
      ghost var r5 := LE(n.filterFlags, 4) + r4;
      fs.Write(LE(n.version, 4), r5);
      fs.Write(LE(n.filterFlags, 4), r4);
      fs.Write(n.textureName, r3);
      fs.Write(n.alphaName, r2);
      fs.Write(LE(n.alphaFlags, 4), r1);
      fs.Write(LE(n.format, 4), rest);
    }

    method WriteShape(fs: ByteStream, s: Shape, ghost rest: seq<byte>)
      modifies fs
      ensures fs.bytes + rest == old(fs.bytes) + LayShape(s, rest)
    {
      hide LE;
      ghost var r1 := LE(s.flags, 1) + rest;
      ghost var r2 := LE(s.texcodeType, 1) + r1;
      ghost var r3 := LE(s.mipmapCount, 1) + r2;
      ghost var r4 := LE(s.depth, 1) + r3;
      ghost var r5 := LE(s.height, 2) + r4;
      fs.Write(LE(s.width, 2), r5);
      fs.Write(LE(s.height, 2), r4);
      fs.Write(LE(s.depth, 1), r3);
      fs.Write(LE(s.mipmapCount, 1), r2);
      fs.Write(LE(s.texcodeType, 1), r1);
      fs.Write(LE(s.flags, 1), rest);
    }

    /** `opens` is whether the file can be opened; if it can, it is overwritten. */
    method Write(opens: bool) returns (ok: bool, file: seq<byte>)
      requires Valid()
      modifies this`mFile_Data, this`mInfo_Data
      ensures Valid() && ok == opens
      ensures mFile_Data.chunkSize == FileChunkSize(mTextureInfo)
      ensures ok ==> file == EmitFile(mTextureInfo) && mInfo_Data.count == |mTextureInfo| % TWO_16
      ensures ok && Describable(mTextureInfo) ==> Read(file) == Some(Contents(mTextureInfo))
    {
      hide Describable, Read, Contents, LE, LayHeader, EmitTexture, EmitExtra;
      var size := GetFileChunkSize();
      mFile_Data := mFile_Data.(chunkSize := size);
      if !opens {
        return false, [];
      }
      ok := true;
      var fs := new ByteStream();
      ghost var last := EmitExtra(NO_EXTRA);
      ghost var textures := EmitTextures(Infos(mTextureInfo), last);
      WriteHeader(fs, mFile_Data.id, mFile_Data.chunkSize, mFile_Data.marker,
                  EmitInfo(|mTextureInfo| % TWO_16, textures));
      mInfo_Data := mInfo_Data.(count := |mTextureInfo| % TWO_16);
      WriteInfo(fs, mInfo_Data, textures);
      WriteTextures(fs, last);
      WriteExtraInfo(fs, mExtraInfo_Data);
      file := fs.bytes;
      ReadsBackExactly(mTextureInfo);
    }

    /** The loop of Write over the textures. */
    method WriteTextures(fs: ByteStream, ghost rest: seq<byte>)
      modifies fs
      ensures fs.bytes + rest == old(fs.bytes) + EmitTextures(Infos(mTextureInfo), rest)
    {
      hide EmitTexture, TextureChunkSize;
      var infos := Infos(mTextureInfo);
      for i := 0 to |infos|
        invariant fs.bytes + EmitTextures(infos[i..], rest) == old(fs.bytes) + EmitTextures(infos, rest)
      {
        ghost var later := EmitTextures(infos[i + 1..], rest);
        var size := GetTextureChunkSize(infos[i]);
        assert infos[i..][1..] == infos[i + 1..];
        ghost var before := fs.bytes;
        WriteTextureInfo(fs, infos[i], size);
        assert before + EmitTexture(infos[i], size) + later == before + (EmitTexture(infos[i], size) + later);
      }
    }
  }
}
