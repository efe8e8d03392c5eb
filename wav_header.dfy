/** The header extraction of wavheader/src/main.rs: the first 44 bytes of
    the file, decoded at fixed offsets into a `WavHeader` (the four ids
    big-endian, everything else little-endian), and the two ids shown as
    text when their bytes are UTF-8. Reading the file and printing the
    fields are not modelled: the file's contents (or the failure to read
    it) are a parameter, and the result is what would be printed. */
module WavHeaderReader {
  import opened Endian
  import opened Utf8
  import opened WavUtils

  /** The length of the canonical RIFF/WAVE header. */
  const HeaderSize: nat := 44

  /** The 44-byte header decoded field by field. */
  function DecodeHeader(header: seq<bv8>): WavHeader
    requires |header| >= HeaderSize
  {
    WavHeader(
      U32FromBe(header[0..4]),
      U32FromLe(header[4..8]),
      U32FromBe(header[8..12]),
      U32FromBe(header[12..16]),
      U32FromLe(header[16..20]),
      U16FromLe(header[20..22]),
      U16FromLe(header[22..24]),
      U32FromLe(header[24..28]),
      U32FromLe(header[28..32]),
      U16FromLe(header[32..34]),
      U16FromLe(header[34..36]),
      U32FromBe(header[36..40]),
      U32FromLe(header[40..44]))
  }

  // ---------------------------------------------------------------------
  // The layout: thirteen fields side by side

  datatype Field =
    | ChunkId | ChunkSize | Format | SubChunk1Id | SubChunk1Size
    | AudioFormat | NumChannels | SampleRate | ByteRate | BlockAlign
    | BitsPerSample | SubChunk2Id | SubChunk2Size

  /** The fields in declaration order, which is also their order in the file. */
  const Fields: seq<Field> := [
    ChunkId, ChunkSize, Format, SubChunk1Id, SubChunk1Size,
    AudioFormat, NumChannels, SampleRate, ByteRate, BlockAlign,
    BitsPerSample, SubChunk2Id, SubChunk2Size]

  /** Where a field starts in the header. */
  function Offset(f: Field): nat
  {
    match f
    case ChunkId => 0
    case ChunkSize => 4
    case Format => 8
    case SubChunk1Id => 12
    case SubChunk1Size => 16
    case AudioFormat => 20
    case NumChannels => 22
    case SampleRate => 24
    case ByteRate => 28
    case BlockAlign => 32
    case BitsPerSample => 34
    case SubChunk2Id => 36
    case SubChunk2Size => 40
  }

  predicate IsHalfWord(f: Field)
  {
    f == AudioFormat || f == NumChannels || f == BlockAlign || f == BitsPerSample
  }

  predicate IsId(f: Field)
  {
    f == ChunkId || f == Format || f == SubChunk1Id || f == SubChunk2Id
  }

  /** The number of bytes of a field. */
  function Width(f: Field): nat
  {
    if IsHalfWord(f) then 2 else 4
  }

  /** The bytes of one field of a header, in the field's byte order. */
  function FieldBytes(w: WavHeader, f: Field): (b: seq<bv8>)
    ensures |b| == Width(f)
  {
    match f
    case ChunkId => U32ToBe(w.chunkId)
    case ChunkSize => U32ToLe(w.chunkSize)
    case Format => U32ToBe(w.format)
    case SubChunk1Id => U32ToBe(w.subChunk1Id)
    case SubChunk1Size => U32ToLe(w.subChunk1Size)
    case AudioFormat => U16ToLe(w.audioFormat)
    case NumChannels => U16ToLe(w.numChannels)
    case SampleRate => U32ToLe(w.sampleRate)
    case ByteRate => U32ToLe(w.byteRate)
    case BlockAlign => U16ToLe(w.blockAlign)
    case BitsPerSample => U16ToLe(w.bitsPerSample)
    case SubChunk2Id => U32ToBe(w.subChunk2Id)
    case SubChunk2Size => U32ToLe(w.subChunk2Size)
  }

  /** A header written back as bytes: the RIFF chunk descriptor, the
      "fmt " sub-chunk and the head of the "data" sub-chunk. */
  function EncodeHeader(w: WavHeader): (h: seq<bv8>)
    ensures |h| == HeaderSize
  {
    RiffChunk(w) + FmtChunk(w) + DataChunk(w)
  }

  /** Bytes 0 to 11. */
  function RiffChunk(w: WavHeader): (b: seq<bv8>)
    ensures |b| == 12
  {
    U32ToBe(w.chunkId) + U32ToLe(w.chunkSize) + U32ToBe(w.format)
  }

  /** Bytes 12 to 35. */
  function FmtChunk(w: WavHeader): (b: seq<bv8>)
    ensures |b| == 24
  {
    U32ToBe(w.subChunk1Id) + U32ToLe(w.subChunk1Size)
    + U16ToLe(w.audioFormat) + U16ToLe(w.numChannels)
    + U32ToLe(w.sampleRate) + U32ToLe(w.byteRate)
    + U16ToLe(w.blockAlign) + U16ToLe(w.bitsPerSample)
  }

  /** Bytes 36 to 43. */
  function DataChunk(w: WavHeader): (b: seq<bv8>)
    ensures |b| == 8
  {
    U32ToBe(w.subChunk2Id) + U32ToLe(w.subChunk2Size)
  }

  /** The bytes a field occupies in the header. */
  function Slot(header: seq<bv8>, f: Field): seq<bv8>
    requires |header| >= HeaderSize
  {
    header[Offset(f)..Offset(f) + Width(f)]
  }

  // ---------------------------------------------------------------------
  // Properties of the layout and the decoding

  /** The thirteen slots are contiguous, in declaration order, and cover
      exactly the 44 bytes of the header; the ids are the big-endian
      fields. */
  lemma LayoutTilesHeader()
    ensures |Fields| == 13 && Offset(Fields[0]) == 0
    ensures forall i :: 0 <= i < |Fields| - 1 ==> Offset(Fields[i]) + Width(Fields[i]) == Offset(Fields[i + 1])
    ensures Offset(Fields[12]) + Width(Fields[12]) == HeaderSize
    ensures forall f: Field :: f in Fields
  {
    forall f: Field
      ensures f in Fields
    {
      assert Fields[Index(f)] == f;
    }
  }

  /** The position of a field in `Fields`. */
  function Index(f: Field): (i: nat)
    ensures i < 13
  {
    match f
    case ChunkId => 0
    case ChunkSize => 1
    case Format => 2
    case SubChunk1Id => 3
    case SubChunk1Size => 4
    case AudioFormat => 5
    case NumChannels => 6
    case SampleRate => 7
    case ByteRate => 8
    case BlockAlign => 9
    case BitsPerSample => 10
    case SubChunk2Id => 11
    case SubChunk2Size => 12
  }

  /** Each field of the decoded header is its own slot read back: a field
      depends on its own bytes and on nothing else. */
  lemma FieldsHoldTheirSlots(header: seq<bv8>, f: Field)
    requires |header| >= HeaderSize
    ensures FieldBytes(DecodeHeader(header), f) == Slot(header, f)
  {
    match f
    case ChunkId => ChunkIdHoldsItsSlot(header);
    case ChunkSize => ChunkSizeHoldsItsSlot(header);
    case Format => FormatHoldsItsSlot(header);
    case SubChunk1Id => SubChunk1IdHoldsItsSlot(header);
    case SubChunk1Size => SubChunk1SizeHoldsItsSlot(header);
    case AudioFormat => AudioFormatHoldsItsSlot(header);
    case NumChannels => NumChannelsHoldsItsSlot(header);
    case SampleRate => SampleRateHoldsItsSlot(header);
    case ByteRate => ByteRateHoldsItsSlot(header);
    case BlockAlign => BlockAlignHoldsItsSlot(header);
    case BitsPerSample => BitsPerSampleHoldsItsSlot(header);
    case SubChunk2Id => SubChunk2IdHoldsItsSlot(header);
    case SubChunk2Size => SubChunk2SizeHoldsItsSlot(header);
  }

  lemma ChunkIdHoldsItsSlot(header: seq<bv8>)
    requires |header| >= HeaderSize
    ensures FieldBytes(DecodeHeader(header), ChunkId) == Slot(header, ChunkId)
  {
    U32BeBytesRoundTrip(header[0..4]);
  }

  lemma ChunkSizeHoldsItsSlot(header: seq<bv8>)
    requires |header| >= HeaderSize
    ensures FieldBytes(DecodeHeader(header), ChunkSize) == Slot(header, ChunkSize)
  {
    U32LeBytesRoundTrip(header[4..8]);
  }

  lemma FormatHoldsItsSlot(header: seq<bv8>)
    requires |header| >= HeaderSize
    ensures FieldBytes(DecodeHeader(header), Format) == Slot(header, Format)
  {
    U32BeBytesRoundTrip(header[8..12]);
  }

  lemma SubChunk1IdHoldsItsSlot(header: seq<bv8>)
    requires |header| >= HeaderSize
    ensures FieldBytes(DecodeHeader(header), SubChunk1Id) == Slot(header, SubChunk1Id)
  {
    U32BeBytesRoundTrip(header[12..16]);
  }

  lemma SubChunk1SizeHoldsItsSlot(header: seq<bv8>)
    requires |header| >= HeaderSize
    ensures FieldBytes(DecodeHeader(header), SubChunk1Size) == Slot(header, SubChunk1Size)
  {
    U32LeBytesRoundTrip(header[16..20]);
  }

  lemma AudioFormatHoldsItsSlot(header: seq<bv8>)
    requires |header| >= HeaderSize
    ensures FieldBytes(DecodeHeader(header), AudioFormat) == Slot(header, AudioFormat)
  {
    U16LeBytesRoundTrip(header[20..22]);
  }

  lemma NumChannelsHoldsItsSlot(header: seq<bv8>)
    requires |header| >= HeaderSize
    ensures FieldBytes(DecodeHeader(header), NumChannels) == Slot(header, NumChannels)
  {
    U16LeBytesRoundTrip(header[22..24]);
  }

  lemma SampleRateHoldsItsSlot(header: seq<bv8>)
    requires |header| >= HeaderSize
    ensures FieldBytes(DecodeHeader(header), SampleRate) == Slot(header, SampleRate)
  {
    U32LeBytesRoundTrip(header[24..28]);
  }

  lemma ByteRateHoldsItsSlot(header: seq<bv8>)
    requires |header| >= HeaderSize
    ensures FieldBytes(DecodeHeader(header), ByteRate) == Slot(header, ByteRate)
  {
    U32LeBytesRoundTrip(header[28..32]);
  }

  lemma BlockAlignHoldsItsSlot(header: seq<bv8>)
    requires |header| >= HeaderSize
    ensures FieldBytes(DecodeHeader(header), BlockAlign) == Slot(header, BlockAlign)
  {
    U16LeBytesRoundTrip(header[32..34]);
  }

  lemma BitsPerSampleHoldsItsSlot(header: seq<bv8>)
    requires |header| >= HeaderSize
    ensures FieldBytes(DecodeHeader(header), BitsPerSample) == Slot(header, BitsPerSample)
  {
    U16LeBytesRoundTrip(header[34..36]);
  }

  lemma SubChunk2IdHoldsItsSlot(header: seq<bv8>)
    requires |header| >= HeaderSize
    ensures FieldBytes(DecodeHeader(header), SubChunk2Id) == Slot(header, SubChunk2Id)
  {
    U32BeBytesRoundTrip(header[36..40]);
  }

  lemma SubChunk2SizeHoldsItsSlot(header: seq<bv8>)
    requires |header| >= HeaderSize
    ensures FieldBytes(DecodeHeader(header), SubChunk2Size) == Slot(header, SubChunk2Size)
  {
    U32LeBytesRoundTrip(header[40..44]);
  }

  /** Two headers that agree on a field's slot decode to the same value
      of that field. */
  lemma FieldLocality(h1: seq<bv8>, h2: seq<bv8>, f: Field)
    requires |h1| >= HeaderSize && |h2| >= HeaderSize
    requires Slot(h1, f) == Slot(h2, f)
    ensures FieldBytes(DecodeHeader(h1), f) == FieldBytes(DecodeHeader(h2), f)
  {
    FieldsHoldTheirSlots(h1, f);
    FieldsHoldTheirSlots(h2, f);
  }

  /** Only the first 44 bytes are read. */
  lemma DecodeReadsHeaderOnly(header: seq<bv8>)
    requires |header| >= HeaderSize
    ensures DecodeHeader(header) == DecodeHeader(header[..HeaderSize])
  {
    var h := header[..HeaderSize];
    assert header[0..4] == h[0..4] && header[4..8] == h[4..8] && header[8..12] == h[8..12];
    assert header[12..16] == h[12..16] && header[16..20] == h[16..20] && header[20..22] == h[20..22];
    assert header[22..24] == h[22..24] && header[24..28] == h[24..28] && header[28..32] == h[28..32];
    assert header[32..34] == h[32..34] && header[34..36] == h[34..36] && header[36..40] == h[36..40];
    assert header[40..44] == h[40..44];
  }

  /** The encoded header puts each field in its slot. */
  lemma EncodeFillsSlots(w: WavHeader, f: Field)
    ensures Slot(EncodeHeader(w), f) == FieldBytes(w, f)
  {
    match f
    case ChunkId => EncodeSlotChunkId(w);
    case ChunkSize => EncodeSlotChunkSize(w);
    case Format => EncodeSlotFormat(w);
    case SubChunk1Id => EncodeSlotSubChunk1Id(w);
    case SubChunk1Size => EncodeSlotSubChunk1Size(w);
    case AudioFormat => EncodeSlotAudioFormat(w);
    case NumChannels => EncodeSlotNumChannels(w);
    case SampleRate => EncodeSlotSampleRate(w);
    case ByteRate => EncodeSlotByteRate(w);
    case BlockAlign => EncodeSlotBlockAlign(w);
    case BitsPerSample => EncodeSlotBitsPerSample(w);
    case SubChunk2Id => EncodeSlotSubChunk2Id(w);
    case SubChunk2Size => EncodeSlotSubChunk2Size(w);
  }

  lemma EncodeSlotChunkId(w: WavHeader)
    ensures Slot(EncodeHeader(w), ChunkId) == FieldBytes(w, ChunkId)
  {
    assert RiffChunk(w)[0..4] == U32ToBe(w.chunkId);
  }

  lemma EncodeSlotChunkSize(w: WavHeader)
    ensures Slot(EncodeHeader(w), ChunkSize) == FieldBytes(w, ChunkSize)
  {
    assert RiffChunk(w)[4..8] == U32ToLe(w.chunkSize);
  }

  lemma EncodeSlotFormat(w: WavHeader)
    ensures Slot(EncodeHeader(w), Format) == FieldBytes(w, Format)
  {
    assert RiffChunk(w)[8..12] == U32ToBe(w.format);
  }

  lemma EncodeSlotSubChunk1Id(w: WavHeader)
    ensures Slot(EncodeHeader(w), SubChunk1Id) == FieldBytes(w, SubChunk1Id)
  {
    assert FmtChunk(w)[0..4] == U32ToBe(w.subChunk1Id);
  }

  lemma EncodeSlotSubChunk1Size(w: WavHeader)
    ensures Slot(EncodeHeader(w), SubChunk1Size) == FieldBytes(w, SubChunk1Size)
  {
    var fmt := FmtChunk(w);
    assert fmt[..8] == U32ToBe(w.subChunk1Id) + U32ToLe(w.subChunk1Size);
    assert fmt[4..8] == U32ToLe(w.subChunk1Size);
    assert EncodeHeader(w)[12..36] == fmt;
  }

  lemma EncodeSlotAudioFormat(w: WavHeader)
    ensures Slot(EncodeHeader(w), AudioFormat) == FieldBytes(w, AudioFormat)
  {
    assert FmtChunk(w)[8..10] == U16ToLe(w.audioFormat);
  }

  lemma EncodeSlotNumChannels(w: WavHeader)
    ensures Slot(EncodeHeader(w), NumChannels) == FieldBytes(w, NumChannels)
  {
    assert FmtChunk(w)[10..12] == U16ToLe(w.numChannels);
  }

  lemma EncodeSlotSampleRate(w: WavHeader)
    ensures Slot(EncodeHeader(w), SampleRate) == FieldBytes(w, SampleRate)
  {
    assert FmtChunk(w)[12..16] == U32ToLe(w.sampleRate);
  }

  lemma EncodeSlotByteRate(w: WavHeader)
    ensures Slot(EncodeHeader(w), ByteRate) == FieldBytes(w, ByteRate)
  {
    assert FmtChunk(w)[16..20] == U32ToLe(w.byteRate);
  }

  lemma EncodeSlotBlockAlign(w: WavHeader)
    ensures Slot(EncodeHeader(w), BlockAlign) == FieldBytes(w, BlockAlign)
  {
    assert FmtChunk(w)[20..22] == U16ToLe(w.blockAlign);
  }

  lemma EncodeSlotBitsPerSample(w: WavHeader)
    ensures Slot(EncodeHeader(w), BitsPerSample) == FieldBytes(w, BitsPerSample)
  {
    assert FmtChunk(w)[22..24] == U16ToLe(w.bitsPerSample);
  }

  lemma EncodeSlotSubChunk2Id(w: WavHeader)
    ensures Slot(EncodeHeader(w), SubChunk2Id) == FieldBytes(w, SubChunk2Id)
  {
    assert DataChunk(w)[0..4] == U32ToBe(w.subChunk2Id);
  }

  lemma EncodeSlotSubChunk2Size(w: WavHeader)
    ensures Slot(EncodeHeader(w), SubChunk2Size) == FieldBytes(w, SubChunk2Size)
  {
    assert DataChunk(w)[4..8] == U32ToLe(w.subChunk2Size);
  }

  /** The field whose slot holds byte `i` of the header. */
  function FieldAt(i: nat): (f: Field)
    requires i < HeaderSize
    ensures Offset(f) <= i < Offset(f) + Width(f)
  {
    if i < 4 then ChunkId
    else if i < 8 then ChunkSize
    else if i < 12 then Format
    else if i < 16 then SubChunk1Id
    else if i < 20 then SubChunk1Size
    else if i < 22 then AudioFormat
    else if i < 24 then NumChannels
    else if i < 28 then SampleRate
    else if i < 32 then ByteRate
    else if i < 34 then BlockAlign
    else if i < 36 then BitsPerSample
    else if i < 40 then SubChunk2Id
    else SubChunk2Size
  }

  /** Two headers that agree on every slot are the same bytes. */
  lemma SlotsDetermineHeader(a: seq<bv8>, b: seq<bv8>)
    requires |a| == HeaderSize && |b| == HeaderSize
    requires forall f: Field :: Slot(a, f) == Slot(b, f)
    ensures a == b
  {
    forall i | 0 <= i < HeaderSize
      ensures a[i] == b[i]
    {
      var f := FieldAt(i);
      assert a[i] == Slot(a, f)[i - Offset(f)];
      assert b[i] == Slot(b, f)[i - Offset(f)];
    }
  }

  /** Writing a header and decoding the bytes gives the header back. */
  lemma DecodeEncode(w: WavHeader)
    ensures DecodeHeader(EncodeHeader(w)) == w
  {
    var d := DecodeHeader(EncodeHeader(w));
    forall f: Field
      ensures FieldBytes(d, f) == FieldBytes(w, f)
    {
      FieldsHoldTheirSlots(EncodeHeader(w), f);
      EncodeFillsSlots(w, f);
    }
    FieldBytesDetermineHeader(d, w);
  }

  /** Decoding the first 44 bytes and writing the header back gives those
      bytes: every byte of the header is read into exactly one field. */
  lemma EncodeDecode(header: seq<bv8>)
    requires |header| >= HeaderSize
    ensures EncodeHeader(DecodeHeader(header)) == header[..HeaderSize]
  {
    var h := header[..HeaderSize];
    DecodeReadsHeaderOnly(header);
    forall f: Field
      ensures Slot(EncodeHeader(DecodeHeader(h)), f) == Slot(h, f)
    {
      EncodeFillsSlots(DecodeHeader(h), f);
      FieldsHoldTheirSlots(h, f);
    }
    SlotsDetermineHeader(EncodeHeader(DecodeHeader(h)), h);
  }

  /** A header is determined by the bytes of its fields. */
  lemma FieldBytesDetermineHeader(a: WavHeader, b: WavHeader)
    requires forall f: Field :: FieldBytes(a, f) == FieldBytes(b, f)
    ensures a == b
  {
    assert FieldBytes(a, ChunkId) == FieldBytes(b, ChunkId);
    U32BeRoundTrip(a.chunkId);
    U32BeRoundTrip(b.chunkId);
    assert FieldBytes(a, ChunkSize) == FieldBytes(b, ChunkSize);
    U32LeRoundTrip(a.chunkSize);
    U32LeRoundTrip(b.chunkSize);
    assert FieldBytes(a, Format) == FieldBytes(b, Format);
    U32BeRoundTrip(a.format);
    U32BeRoundTrip(b.format);
    assert FieldBytes(a, SubChunk1Id) == FieldBytes(b, SubChunk1Id);
    U32BeRoundTrip(a.subChunk1Id);
    U32BeRoundTrip(b.subChunk1Id);
    assert FieldBytes(a, SubChunk1Size) == FieldBytes(b, SubChunk1Size);
    U32LeRoundTrip(a.subChunk1Size);
    U32LeRoundTrip(b.subChunk1Size);
    assert FieldBytes(a, AudioFormat) == FieldBytes(b, AudioFormat);
    U16LeRoundTrip(a.audioFormat);
    U16LeRoundTrip(b.audioFormat);
    assert FieldBytes(a, NumChannels) == FieldBytes(b, NumChannels);
    U16LeRoundTrip(a.numChannels);
    U16LeRoundTrip(b.numChannels);
    assert FieldBytes(a, SampleRate) == FieldBytes(b, SampleRate);
    U32LeRoundTrip(a.sampleRate);
    U32LeRoundTrip(b.sampleRate);
    assert FieldBytes(a, ByteRate) == FieldBytes(b, ByteRate);
    U32LeRoundTrip(a.byteRate);
    U32LeRoundTrip(b.byteRate);
    assert FieldBytes(a, BlockAlign) == FieldBytes(b, BlockAlign);
    U16LeRoundTrip(a.blockAlign);
    U16LeRoundTrip(b.blockAlign);
    assert FieldBytes(a, BitsPerSample) == FieldBytes(b, BitsPerSample);
    U16LeRoundTrip(a.bitsPerSample);
    U16LeRoundTrip(b.bitsPerSample);
    assert FieldBytes(a, SubChunk2Id) == FieldBytes(b, SubChunk2Id);
    U32BeRoundTrip(a.subChunk2Id);
    U32BeRoundTrip(b.subChunk2Id);
    assert FieldBytes(a, SubChunk2Size) == FieldBytes(b, SubChunk2Size);
    U32LeRoundTrip(a.subChunk2Size);
    U32LeRoundTrip(b.subChunk2Size);
  }

  // ---------------------------------------------------------------------
  // The ids as text, and the whole extraction

  /** "Invalid" in ASCII. */
  const InvalidText: seq<bv8> := [0x49, 0x6E, 0x76, 0x61, 0x6C, 0x69, 0x64]

  /** `String::from_utf8(id.to_be_bytes().to_vec())`, or "Invalid" when
      the bytes are not UTF-8; a string is given by its UTF-8 bytes. */
  function IdText(id: bv32): (text: seq<bv8>)
    ensures WellFormed(text)
    ensures text == U32ToBe(id) <==> WellFormed(U32ToBe(id))
    ensures text != U32ToBe(id) ==> text == InvalidText
  {
    if WellFormed(U32ToBe(id)) then U32ToBe(id)
    else
      AsciiIsWellFormed(InvalidText);
      InvalidText
  }

  /** What reading the file gave: its bytes, or an I/O error. */
  datatype FileRead = Bytes(data: seq<bv8>) | ReadError

  /** The two places the extraction panics. */
  datatype Panic =
    | FileTooShort   // `bytes[..44]` on a file shorter than 44 bytes
    | HeaderEmpty    // `header[0..4]` after a failed read left `header` empty

  /** The header and the two ids as they would be printed, or the panic. */
  datatype Extraction =
    | Extracted(header: WavHeader, chunkIdText: seq<bv8>, formatText: seq<bv8>)
    | Panicked(panic: Panic)

  /** `main` without the printing: keep the first 44 bytes of the file,
      decode them and render the two ids. */
  method Extract(file: FileRead) returns (r: Extraction)
    ensures file.ReadError? ==> r == Panicked(HeaderEmpty)
    ensures file.Bytes? && |file.data| < HeaderSize ==> r == Panicked(FileTooShort)
    ensures file.Bytes? && |file.data| >= HeaderSize ==>
              && r.Extracted?
              && r.header == DecodeHeader(file.data[..HeaderSize])
              && r.chunkIdText == IdText(r.header.chunkId)
              && r.formatText == IdText(r.header.format)
  {
    var header: seq<bv8> := [];
    match file {
      case Bytes(bytes) =>
        if |bytes| < HeaderSize {
          return Panicked(FileTooShort);
        }
        header := bytes[..HeaderSize];
      case ReadError =>
    }
    if |header| < HeaderSize {
      return Panicked(HeaderEmpty);
    }
    var w := DecodeHeader(header);
    r := Extracted(w, IdText(w.chunkId), IdText(w.format));
  }

  /** The printed ids are the raw bytes at offsets 0 and 8 whenever those
      are UTF-8, and "Invalid" otherwise. */
  lemma IdsAreRawBytes(header: seq<bv8>)
    requires |header| >= HeaderSize
    ensures WellFormed(header[0..4]) ==> IdText(DecodeHeader(header).chunkId) == header[0..4]
    ensures !WellFormed(header[0..4]) ==> IdText(DecodeHeader(header).chunkId) == InvalidText
    ensures WellFormed(header[8..12]) ==> IdText(DecodeHeader(header).format) == header[8..12]
    ensures !WellFormed(header[8..12]) ==> IdText(DecodeHeader(header).format) == InvalidText
  {
    FieldsHoldTheirSlots(header, ChunkId);
    FieldsHoldTheirSlots(header, Format);
  }

  /** An ASCII id such as "RIFF" or "WAVE" is printed as itself. */
  lemma AsciiIdsPrintAsThemselves(header: seq<bv8>)
    requires |header| >= HeaderSize
    requires IsAscii(header[0..4]) && IsAscii(header[8..12])
    ensures IdText(DecodeHeader(header).chunkId) == header[0..4]
    ensures IdText(DecodeHeader(header).format) == header[8..12]
  {
    AsciiIsWellFormed(header[0..4]);
    AsciiIsWellFormed(header[8..12]);
    IdsAreRawBytes(header);
  }
}
