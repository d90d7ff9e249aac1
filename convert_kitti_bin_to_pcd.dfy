/**
 * Conversion of a KITTI Velodyne scan (.bin: a flat run of little records of
 * four 32-bit floats x, y, z, intensity) into a point cloud with positions
 * and an intensity channel, and the name of the output file.
 */
module ConvertKittiBinToPcd {
  import opened Common

  newtype Byte = b: int | 0 <= b < 256

  /** Bytes per float, and per record of four floats. */
  const SizeFloat: nat := 4
  const RecordSize: nat := 16

  /** One point of a scan, as stored on disk. */
  datatype KittiRecord = KittiRecord(x: real, y: real, z: real, intensity: real)

  /** The point cloud handed to the writer: positions, and intensities scaled to 0-255. */
  datatype PointCloud = PointCloud(positions: seq<Point3>, intensity: seq<real>)

  /**
   * struct.unpack("ffff", chunk): four floats from a 16-byte chunk; any other
   * length is an error. decode reads one float from four bytes.
   */
  function UnpackRecord(chunk: seq<Byte>, decode: seq<Byte> -> real): (r: Result<KittiRecord>)
    ensures r.Ok? <==> |chunk| == RecordSize
    ensures r.Err? ==> r.error == TruncatedRecord
    ensures r.Ok? ==> r.value == KittiRecord(decode(chunk[0..4]), decode(chunk[4..8]), decode(chunk[8..12]), decode(chunk[12..16]))
  {
    if |chunk| != RecordSize then Err(TruncatedRecord)
    else Ok(KittiRecord(decode(chunk[0..4]), decode(chunk[4..8]), decode(chunk[8..12]), decode(chunk[12..16])))
  }

  /** The records of a whole file, chunk after chunk from the start; a short last chunk fails. */
  function Records(bytes: seq<Byte>, decode: seq<Byte> -> real): (r: Result<seq<KittiRecord>>)
    ensures r.Err? ==> r.error == TruncatedRecord
    decreases |bytes|
  {
    if |bytes| == 0 then Ok([])
    else if |bytes| < RecordSize then Err(TruncatedRecord)
    else
      var rest := Records(bytes[RecordSize..], decode);
      if rest.Err? then rest
      else Ok([UnpackRecord(bytes[..RecordSize], decode).value] + rest.value)
  }

  /** A slice of a suffix is a slice of the whole. */
  lemma SliceOfSuffix(s: seq<Byte>, d: nat, a: nat, b: nat)
    requires d <= |s| && a <= b <= |s| - d
    ensures s[d..][a..b] == s[d + a .. d + b]
  {
    assert forall i :: 0 <= i < b - a ==> s[d..][a..b][i] == s[d + a + i];
  }

  /**
   * A file decodes exactly when its length is a multiple of 16; it then
   * holds length / 16 records, record k unpacked from bytes 16k to 16k + 15,
   * in file order.
   */
  lemma {:induction false} RecordsShape(bytes: seq<Byte>, decode: seq<Byte> -> real)
    ensures Records(bytes, decode).Ok? <==> |bytes| % RecordSize == 0
    ensures Records(bytes, decode).Err? ==> Records(bytes, decode).error == TruncatedRecord
    ensures Records(bytes, decode).Ok? ==>
      && |Records(bytes, decode).value| == |bytes| / RecordSize
      && forall k :: 0 <= k < |bytes| / RecordSize ==>
           Ok(Records(bytes, decode).value[k]) == UnpackRecord(bytes[RecordSize * k .. RecordSize * (k + 1)], decode)
    decreases |bytes|
  {
    if |bytes| >= RecordSize {
      var tail := bytes[RecordSize..];
      RecordsShape(tail, decode);
      var r := Records(bytes, decode);
      if r.Ok? {
        var rest := Records(tail, decode).value;
        forall k | 0 <= k < |bytes| / RecordSize
          ensures Ok(r.value[k]) == UnpackRecord(bytes[RecordSize * k .. RecordSize * (k + 1)], decode)
        {
          if k > 0 {
            assert r.value[k] == rest[k - 1];
            SliceOfSuffix(bytes, RecordSize, RecordSize * (k - 1), RecordSize * k);
          }
        }
      }
    }
  }

  /** The records read so far, in front of what the rest of the file yields. */
  function Prepend(data: seq<KittiRecord>, rest: Result<seq<KittiRecord>>): Result<seq<KittiRecord>>
  {
    if rest.Err? then rest else Ok(data + rest.value)
  }

  /** f.read(16) at offset pos: at most 16 bytes, fewer at the end of the file. */
  function Read(bytes: seq<Byte>, pos: nat): (chunk: seq<Byte>)
    requires pos <= |bytes|
    ensures |chunk| == if |bytes| - pos < RecordSize then |bytes| - pos else RecordSize
    ensures chunk == bytes[pos .. pos + |chunk|]
  {
    if |bytes| - pos < RecordSize then bytes[pos..] else bytes[pos .. pos + RecordSize]
  }

  /**
   * read_kitti_bin on the bytes of the file: read 16 bytes at a time until
   * a read comes back empty, unpacking each chunk into one record.
   */
  method ReadKittiBin(bytes: seq<Byte>, decode: seq<Byte> -> real) returns (r: Result<seq<KittiRecord>>)
    ensures r == Records(bytes, decode)
    ensures r.Ok? <==> |bytes| % RecordSize == 0
    ensures r.Ok? ==> |r.value| == |bytes| / RecordSize
  {
    RecordsShape(bytes, decode);
    var data: seq<KittiRecord> := [];
    var pos := 0;
    var chunk := Read(bytes, pos);
    assert bytes[pos..] == bytes;
    if Records(bytes, decode).Ok? {
      assert data + Records(bytes, decode).value == Records(bytes, decode).value;
    }
    while |chunk| > 0
      invariant pos <= |bytes| && chunk == Read(bytes, pos)
      invariant Records(bytes, decode) == Prepend(data, Records(bytes[pos..], decode))
      decreases |bytes| - pos
    {
      var record := UnpackRecord(chunk, decode);
      if record.Err? {
        assert Records(bytes[pos..], decode) == Err(TruncatedRecord);
        return Err(record.error);
      }
      assert bytes[pos..][RecordSize..] == bytes[pos + RecordSize..];
      assert bytes[pos..][..RecordSize] == chunk;
      ghost var later := Records(bytes[pos + RecordSize..], decode);
      assert Records(bytes[pos..], decode) == Prepend([record.value], later);
      if later.Ok? {
        assert data + ([record.value] + later.value) == (data + [record.value]) + later.value;
      }
      data := data + [record.value];
      pos := pos + RecordSize;
      chunk := Read(bytes, pos);
    }
    assert bytes[pos..] == [];
    assert data + [] == data;
    r := Ok(data);
  }

  /**
   * The column split of the records: positions from the first three fields,
   * intensity from the fourth times 255. An empty file gives no 2-D array
   * to slice, which fails.
   */
  function SplitColumns(records: seq<KittiRecord>): (r: Result<PointCloud>)
    ensures r.Ok? <==> |records| > 0
    ensures r.Err? ==> r.error == IndexOutOfRange
    ensures r.Ok? ==> |r.value.positions| == |records| && |r.value.intensity| == |records|
    ensures r.Ok? ==> forall i :: 0 <= i < |records| ==>
      && r.value.positions[i] == Point3(records[i].x, records[i].y, records[i].z)
      && r.value.intensity[i] == records[i].intensity * 255.0
  {
    if |records| == 0 then Err(IndexOutOfRange)
    else
      Ok(PointCloud(seq(|records|, i requires 0 <= i < |records| => Point3(records[i].x, records[i].y, records[i].z)),
                    seq(|records|, i requires 0 <= i < |records| => records[i].intensity * 255.0)))
  }

  /** convert_kitti_bin_to_pcd without the final write: read the records, then split the columns. */
  method ConvertKittiBinToPcd(bytes: seq<Byte>, decode: seq<Byte> -> real) returns (r: Result<PointCloud>)
    ensures |bytes| % RecordSize != 0 ==> r == Err(TruncatedRecord)
    ensures |bytes| == 0 ==> r == Err(IndexOutOfRange)
    ensures r.Ok? <==> |bytes| > 0 && |bytes| % RecordSize == 0
    ensures r.Ok? ==> |r.value.positions| == |bytes| / RecordSize
    ensures r.Ok? ==> Records(bytes, decode).Ok? && r == SplitColumns(Records(bytes, decode).value)
  {
    var data := ReadKittiBin(bytes, decode);
    RecordsShape(bytes, decode);
    if data.Err? {
      return Err(data.error);
    }
    r := SplitColumns(data.value);
  }

  /** main's output name: the input path with its last three characters replaced by "pcd". */
  function OutputPcdPath(path: string): (out: string)
    ensures |out| == if |path| >= 3 then |path| else 3
    ensures out[|out| - 3..] == "pcd"
    ensures |path| >= 3 ==> out[..|out| - 3] == path[..|path| - 3]
    ensures |path| <= 3 ==> out == "pcd"
  {
    (if |path| >= 3 then path[..|path| - 3] else "") + "pcd"
  }

  /** A ".bin" file is renamed to the ".pcd" file of the same stem. */
  lemma BinBecomesPcd(stem: string)
    ensures OutputPcdPath(stem + ".bin") == stem + ".pcd"
  {
    var path := stem + ".bin";
    assert path[..|path| - 3] == stem + ".";
  }

  /** Renaming a name that already ends in "pcd" changes nothing. */
  lemma OutputPcdPathIdempotent(path: string)
    ensures OutputPcdPath(OutputPcdPath(path)) == OutputPcdPath(path)
  {
    var out := OutputPcdPath(path);
    assert out == out[..|out| - 3] + out[|out| - 3..];
  }
}
