/**
 * The MNIST loader: two IDX files, read front to back. Each starts with a big-endian
 * 32-bit magic number (0x803 for images, 0x801 for labels) and a big-endian 32-bit
 * count; the images file then has 8 bytes of dimensions, which are skipped, and 784-byte
 * image records; the labels file has 1-byte labels. The files are byte sequences here,
 * and each read advances a cursor into its sequence.
 */
module Mnist {
  import opened Outcomes

  /** An unsigned 8-bit value, as the files hold them. */
  newtype byte = x: int | 0 <= x < 256

  const ImagesMagic: nat := 0x0000_0803
  const LabelsMagic: nat := 0x0000_0801
  /** 28 x 28 pixels: the record size is fixed, the dimension fields are never read. */
  const ImageSize: nat := 784
  /** Magic number, count and the two skipped dimension fields. */
  const ImagesHeader: nat := 16
  /** Magic number and count. */
  const LabelsHeader: nat := 8

  datatype MnistImages = MnistImages(images: seq<seq<byte>>, labels: seq<byte>)

  /**
   * Why unpacking failed: a read ran past the end of its file, a magic number was wrong,
   * or the two count fields differ.
   */
  datatype UnpackError = UnexpectedEof | BadMagic | CountMismatch

  /** Four bytes as an unsigned 32-bit number, most significant byte first. */
  function BigEndian32(b: seq<byte>): (n: nat)
    requires |b| == 4
    ensures n < 0x1_0000_0000
  {
    ((b[0] as nat * 0x100 + b[1] as nat) * 0x100 + b[2] as nat) * 0x100 + b[3] as nat
  }

  /** An unsigned 32-bit number as four bytes, most significant byte first. */
  function ToBigEndian32(n: nat): (b: seq<byte>)
    requires n < 0x1_0000_0000
    ensures |b| == 4
  {
    var q1 := n / 0x100;
    var q2 := q1 / 0x100;
    [(q2 / 0x100) as byte, (q2 % 0x100) as byte, (q1 % 0x100) as byte, (n % 0x100) as byte]
  }

  /** Encoding a number and decoding it gives the number back. */
  lemma DecodeEncoded(n: nat)
    requires n < 0x1_0000_0000
    ensures BigEndian32(ToBigEndian32(n)) == n
  {
    var b := ToBigEndian32(n);
    var q1 := n / 0x100;
    var q2 := q1 / 0x100;
    assert b[0] as nat * 0x100 + b[1] as nat == q2;
    assert q2 * 0x100 + b[2] as nat == q1;
  }

  /** Decoding four bytes and encoding the number gives the bytes back. */
  lemma EncodeDecoded(b: seq<byte>)
    requires |b| == 4
    ensures ToBigEndian32(BigEndian32(b)) == b
  {
    var n := BigEndian32(b);
    var hi := b[0] as nat * 0x100 + b[1] as nat;
    var mid := hi * 0x100 + b[2] as nat;
    assert n / 0x100 == mid && n % 0x100 == b[3] as nat;
    assert mid / 0x100 == hi && mid % 0x100 == b[2] as nat;
    assert hi / 0x100 == b[0] as nat && hi % 0x100 == b[1] as nat;
  }

  /** Two count fields hold the same number exactly when they are the same bytes. */
  lemma SameCountSameBytes(a: seq<byte>, b: seq<byte>)
    requires |a| == 4 && |b| == 4
    ensures BigEndian32(a) == BigEndian32(b) <==> a == b
  {
    if BigEndian32(a) == BigEndian32(b) {
      EncodeDecoded(a);
      EncodeDecoded(b);
    }
  }

  /** Image `i` of the images file: the `i`-th 784-byte record after the 16-byte header. */
  function ImageAt(imagesFile: seq<byte>, i: nat): (image: seq<byte>)
    requires ImagesHeader + ImageSize * (i + 1) <= |imagesFile|
    ensures |image| == ImageSize
  {
    imagesFile[ImagesHeader + ImageSize * i .. ImagesHeader + ImageSize * (i + 1)]
  }

  /**
   * What unpacking yields, in the order the loader reads: both magic numbers first (a
   * file shorter than 4 bytes fails), then both counts (shorter than 8 bytes fails),
   * then `count` image and label records. With a count of 0 no record is read, so the
   * images file need not reach its 16-byte header.
   */
  function Decode(imagesFile: seq<byte>, labelsFile: seq<byte>): (r: Result<MnistImages, UnpackError>)
    ensures r.Ok? ==> |imagesFile| >= 8 && |labelsFile| >= 8
    ensures r.Ok? ==> |r.value.images| == |r.value.labels| == BigEndian32(imagesFile[4..8])
    ensures r.Ok? ==> forall i :: 0 <= i < |r.value.images| ==> |r.value.images[i]| == ImageSize
  {
    if |imagesFile| < 4 || |labelsFile| < 4 then Err(UnexpectedEof)
    else if BigEndian32(imagesFile[..4]) != ImagesMagic || BigEndian32(labelsFile[..4]) != LabelsMagic then Err(BadMagic)
    else if |imagesFile| < 8 || |labelsFile| < 8 then Err(UnexpectedEof)
    else if imagesFile[4..8] != labelsFile[4..8] then Err(CountMismatch)
    else
      var count := BigEndian32(imagesFile[4..8]);
      if count > 0 && (|imagesFile| < ImagesHeader + ImageSize * count || |labelsFile| < LabelsHeader + count) then
        Err(UnexpectedEof)
      else
        Ok(MnistImages(seq(count, i requires 0 <= i < count => ImageAt(imagesFile, i)),
                       labelsFile[LabelsHeader..LabelsHeader + count]))
  }

  /**
   * The loader: read both magic numbers and check them, read both counts and check that
   * they agree, skip the dimensions, then read one image record and one label per count
   * into vectors allocated up front. Any read past the end fails the whole load.
   */
  method Unpack(imagesFile: seq<byte>, labelsFile: seq<byte>) returns (r: Result<MnistImages, UnpackError>)
    ensures r == Decode(imagesFile, labelsFile)
  {
    var imagesAt, labelsAt := 0, 0;
    if imagesAt + 4 > |imagesFile| { return Err(UnexpectedEof); }
    var imagesMagic := imagesFile[imagesAt..imagesAt + 4];
    imagesAt := imagesAt + 4;
    if labelsAt + 4 > |labelsFile| { return Err(UnexpectedEof); }
    var labelsMagic := labelsFile[labelsAt..labelsAt + 4];
    labelsAt := labelsAt + 4;
    if BigEndian32(imagesMagic) != ImagesMagic || BigEndian32(labelsMagic) != LabelsMagic {
      return Err(BadMagic);
    }

    if imagesAt + 4 > |imagesFile| { return Err(UnexpectedEof); }
    var imagesLenBytes := imagesFile[imagesAt..imagesAt + 4];
    imagesAt := imagesAt + 4;
    if labelsAt + 4 > |labelsFile| { return Err(UnexpectedEof); }
    var labelsLenBytes := labelsFile[labelsAt..labelsAt + 4];
    labelsAt := labelsAt + 4;
    if imagesLenBytes != labelsLenBytes {
      return Err(CountMismatch);
    }

    var imagesLen := BigEndian32(imagesLenBytes);
    var images: seq<seq<byte>> := seq(imagesLen, _ => seq(ImageSize, _ => 0));
    var labels: seq<byte> := seq(imagesLen, _ => 0);
    // Seeking past the end is allowed; only a later read can fail.
    imagesAt := imagesAt + 8;

    for i := 0 to imagesLen
      invariant imagesAt == ImagesHeader + ImageSize * i && labelsAt == LabelsHeader + i
      invariant |images| == |labels| == imagesLen
      invariant i > 0 ==> imagesAt <= |imagesFile| && labelsAt <= |labelsFile|
      invariant forall k :: 0 <= k < i ==> ImagesHeader + ImageSize * (k + 1) <= |imagesFile| && images[k] == ImageAt(imagesFile, k)
      invariant forall k :: 0 <= k < i ==> labels[k] == labelsFile[LabelsHeader + k]
    {
      if imagesAt + ImageSize > |imagesFile| {
        assert |imagesFile| < ImagesHeader + ImageSize * imagesLen;
        return Err(UnexpectedEof);
      }
      var pixels := imagesFile[imagesAt..imagesAt + ImageSize];
      imagesAt := imagesAt + ImageSize;
      if labelsAt + 1 > |labelsFile| {
        assert |labelsFile| < LabelsHeader + imagesLen;
        return Err(UnexpectedEof);
      }
      var labelByte := labelsFile[labelsAt];
      labelsAt := labelsAt + 1;
      images := images[i := pixels];
      labels := labels[i := labelByte];
    }
    assert imagesLen > 0 ==> |imagesFile| >= ImagesHeader + ImageSize * imagesLen && |labelsFile| >= LabelsHeader + imagesLen;
    assert images == seq(imagesLen, i requires 0 <= i < imagesLen => ImageAt(imagesFile, i));
    assert labels == labelsFile[LabelsHeader..LabelsHeader + imagesLen];
    r := Ok(MnistImages(images, labels));
  }

  /**
   * Unpacking succeeds exactly when both magic numbers are right, the count fields
   * agree and both files hold every record; it then yields `count` images of 784 bytes
   * each and `count` labels, image `i` being bytes [16 + 784 i, 16 + 784 (i + 1)) of the
   * images file and label `i` byte 8 + i of the labels file.
   */
  lemma DecodeSucceeds(imagesFile: seq<byte>, labelsFile: seq<byte>)
    ensures Decode(imagesFile, labelsFile).Ok? <==>
      && |imagesFile| >= 8 && |labelsFile| >= 8
      && BigEndian32(imagesFile[..4]) == ImagesMagic && BigEndian32(labelsFile[..4]) == LabelsMagic
      && BigEndian32(imagesFile[4..8]) == BigEndian32(labelsFile[4..8])
      && (BigEndian32(imagesFile[4..8]) > 0 ==>
            |imagesFile| >= ImagesHeader + ImageSize * BigEndian32(imagesFile[4..8]) &&
            |labelsFile| >= LabelsHeader + BigEndian32(imagesFile[4..8]))
    ensures Decode(imagesFile, labelsFile).Ok? ==>
      var count, m := BigEndian32(imagesFile[4..8]), Decode(imagesFile, labelsFile).value;
      && |m.images| == count && |m.labels| == count
      && (forall i :: 0 <= i < count ==>
            |m.images[i]| == ImageSize &&
            m.images[i] == imagesFile[ImagesHeader + ImageSize * i .. ImagesHeader + ImageSize * (i + 1)] &&
            m.labels[i] == labelsFile[LabelsHeader + i])
  {
    if |imagesFile| >= 8 && |labelsFile| >= 8 {
      SameCountSameBytes(imagesFile[4..8], labelsFile[4..8]);
    }
  }

  /** The errors, in the order the loader can meet them. */
  lemma DecodeFails(imagesFile: seq<byte>, labelsFile: seq<byte>)
    ensures |imagesFile| < 4 || |labelsFile| < 4 ==> Decode(imagesFile, labelsFile) == Err(UnexpectedEof)
    ensures (|imagesFile| >= 4 && |labelsFile| >= 4 &&
             (BigEndian32(imagesFile[..4]) != ImagesMagic || BigEndian32(labelsFile[..4]) != LabelsMagic)) ==>
      Decode(imagesFile, labelsFile) == Err(BadMagic)
    ensures Decode(imagesFile, labelsFile) == Err(CountMismatch) <==>
      && |imagesFile| >= 8 && |labelsFile| >= 8
      && BigEndian32(imagesFile[..4]) == ImagesMagic && BigEndian32(labelsFile[..4]) == LabelsMagic
      && BigEndian32(imagesFile[4..8]) != BigEndian32(labelsFile[4..8])
  {
    if |imagesFile| >= 8 && |labelsFile| >= 8 {
      SameCountSameBytes(imagesFile[4..8], labelsFile[4..8]);
    }
  }

  // ---------------------------------------------------------------------------
  // Writing the two files back
  // ---------------------------------------------------------------------------

  /** Records laid end to end. */
  function Concat(records: seq<seq<byte>>): (s: seq<byte>)
    decreases |records|
  {
    if records == [] then [] else Concat(records[..|records| - 1]) + records[|records| - 1]
  }

  /** Records of 784 bytes each, laid end to end, can be cut back apart every 784 bytes. */
  lemma {:induction false} ConcatRecords(records: seq<seq<byte>>)
    requires forall i :: 0 <= i < |records| ==> |records[i]| == ImageSize
    ensures |Concat(records)| == ImageSize * |records|
    ensures forall i :: 0 <= i < |records| ==> Concat(records)[ImageSize * i .. ImageSize * (i + 1)] == records[i]
    decreases |records|
  {
    if records != [] {
      var front := records[..|records| - 1];
      ConcatRecords(front);
      var s := Concat(records);
      assert s == Concat(front) + records[|records| - 1];
      forall i | 0 <= i < |records|
        ensures s[ImageSize * i .. ImageSize * (i + 1)] == records[i]
      {
        if i < |front| {
          assert s[ImageSize * i .. ImageSize * (i + 1)] == Concat(front)[ImageSize * i .. ImageSize * (i + 1)];
        }
      }
    }
  }

  /** A well-formed images file for `m`: magic, count, 28 x 28 dimensions, then the records. */
  function ImagesFile(m: MnistImages): (file: seq<byte>)
    requires |m.images| < 0x1_0000_0000
  {
    ToBigEndian32(ImagesMagic) + ToBigEndian32(|m.images|) + ToBigEndian32(28) + ToBigEndian32(28) + Concat(m.images)
  }

  /** A well-formed labels file for `m`: magic, count, then the labels. */
  function LabelsFile(m: MnistImages): (file: seq<byte>)
    requires |m.labels| < 0x1_0000_0000
  {
    ToBigEndian32(LabelsMagic) + ToBigEndian32(|m.labels|) + m.labels
  }

  /** Unpacking the files written for a data set of 784-byte images gives the data set back. */
  lemma UnpackWritten(m: MnistImages)
    requires |m.images| == |m.labels| < 0x1_0000_0000
    requires forall i :: 0 <= i < |m.images| ==> |m.images[i]| == ImageSize
    ensures Decode(ImagesFile(m), LabelsFile(m)) == Ok(m)
  {
    var imagesFile, labelsFile := ImagesFile(m), LabelsFile(m);
    var count := |m.images|;
    ConcatRecords(m.images);
    DecodeEncoded(ImagesMagic);
    DecodeEncoded(LabelsMagic);
    DecodeEncoded(count);
    assert imagesFile[..4] == ToBigEndian32(ImagesMagic);
    assert labelsFile[..4] == ToBigEndian32(LabelsMagic);
    assert imagesFile[4..8] == ToBigEndian32(count) == labelsFile[4..8];
    var r := Decode(imagesFile, labelsFile);
    assert imagesFile[ImagesHeader..] == Concat(m.images);
    forall i | 0 <= i < count
      ensures ImageAt(imagesFile, i) == m.images[i]
    {
      assert ImageAt(imagesFile, i) == imagesFile[ImagesHeader..][ImageSize * i .. ImageSize * (i + 1)];
    }
    assert labelsFile[LabelsHeader..LabelsHeader + count] == m.labels;
    assert r.value.images == m.images;
  }
}
