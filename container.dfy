/**
 * Telling the plain-text ForceEffect file from the binary container and
 * locating the XML markup inside it (the byte-level part of `parseAFEFile`).
 *
 * Binary layout: bytes [0,16) an opaque header, bytes 16 and 17 the markup
 * length as a little-endian 16-bit number, bytes 18 and 19 skipped, then the
 * markup. A text file is markup from its first byte.
 */
module Container {
  import opened Wrappers

  type Byte = b: int | 0 <= b < 256

  /** The shortest buffer the importer accepts. */
  const HeaderSize: nat := 20
  /** How many leading bytes are inspected to tell text from binary. */
  const SniffSize: nat := 16

  /** Why a member aborts the bounds pass: each is a property read on a missing object, which throws. */
  datatype Defect =
    | NoJointRef   // the member has no `StartJoint` or no `EndJoint` child
    | NoPointChild // one of its joints has no `Point` child
    | NoOrigin     // one of its joints has no point labelled "Origin"

  datatype ImportError =
    | TooShort                                      // fewer than 20 bytes
    | DecodeFailed                                  // the markup did not decode to a tree
    | BadMember(componentId: string, defect: Defect) // this member aborted the bounds pass

  /** Which layout was detected, and the markup bytes to decode. */
  datatype Sniffed = Sniffed(isBinary: bool, markup: seq<Byte>)

  /** The character class `[ -~\t\n\r]`: printable ASCII, tab, line feed, carriage return. */
  predicate IsTextByte(b: Byte) {
    (0x20 <= b <= 0x7E) || b == 9 || b == 10 || b == 13
  }

  /** Some byte among the first 16 lies outside the text class. */
  predicate HasBinaryHeader(bytes: seq<Byte>)
    requires |bytes| >= SniffSize
  {
    exists i :: 0 <= i < SniffSize && !IsTextByte(bytes[i])
  }

  /** The markup length field: byte 16 plus 256 times byte 17. */
  function DeclaredLength(bytes: seq<Byte>): (n: nat)
    requires |bytes| >= HeaderSize
    ensures n < 0x1_0000
  {
    (bytes[16] as int) + 256 * (bytes[17] as int)
  }

  /**
   * The end of `subarray(20, 20 + L)`: a typed-array subarray clamps its end
   * to the buffer length.
   */
  function MarkupEnd(bytes: seq<Byte>): (e: nat)
    requires |bytes| >= HeaderSize
    ensures HeaderSize <= e <= |bytes|
    ensures e - HeaderSize <= DeclaredLength(bytes)
    ensures e == |bytes| || e == HeaderSize + DeclaredLength(bytes)
  {
    var wanted := HeaderSize + DeclaredLength(bytes);
    if wanted <= |bytes| then wanted else |bytes|
  }

  /** What the importer extracts from a raw buffer. */
  function Classify(bytes: seq<Byte>): (r: Result<Sniffed, ImportError>)
    ensures r.Failure? <==> |bytes| < HeaderSize
    ensures r.Failure? ==> r.error == TooShort
    ensures r.Success? ==> (r.value.isBinary <==> HasBinaryHeader(bytes))
    ensures r.Success? && !r.value.isBinary ==> r.value.markup == bytes
    ensures r.Success? && r.value.isBinary ==>
      && |r.value.markup| <= DeclaredLength(bytes)
      && |r.value.markup| <= |bytes| - HeaderSize
      && (|r.value.markup| == DeclaredLength(bytes) || HeaderSize + |r.value.markup| == |bytes|)
      && forall k :: 0 <= k < |r.value.markup| ==> r.value.markup[k] == bytes[HeaderSize + k]
  {
    if |bytes| < HeaderSize then Failure(TooShort)
    else if HasBinaryHeader(bytes) then Success(Sniffed(true, bytes[HeaderSize..MarkupEnd(bytes)]))
    else Success(Sniffed(false, bytes))
  }

  /** The scan of the first 16 bytes, stopping at the first non-text byte. */
  method Sniff(bytes: seq<Byte>) returns (r: Result<Sniffed, ImportError>)
    ensures r == Classify(bytes)
  {
    if |bytes| < HeaderSize {
      return Failure(TooShort);
    }
    var parseBinary := false;
    var ii := 0;
    while ii < SniffSize
      invariant 0 <= ii <= SniffSize
      invariant forall i :: 0 <= i < ii ==> IsTextByte(bytes[i])
    {
      if !IsTextByte(bytes[ii]) {
        parseBinary := true;
        break;
      }
      ii := ii + 1;
    }
    if parseBinary {
      var xmlLength: int := (bytes[16] as int) + 256 * (bytes[17] as int);
      var end := if xmlLength + 20 <= |bytes| then xmlLength + 20 else |bytes|;
      r := Success(Sniffed(true, bytes[20..end]));
    } else {
      r := Success(Sniffed(false, bytes));
    }
  }

  /** The opening of a text file, `<File Schema="9"`, as bytes. */
  const SchemaTag: seq<Byte> :=
    [0x3C, 0x46, 0x69, 0x6C, 0x65, 0x20, 0x53, 0x63, 0x68, 0x65, 0x6D, 0x61, 0x3D, 0x22, 0x39, 0x22]

  /** A buffer that opens with `<File Schema="9"` is markup from its first byte. */
  lemma TextFileIsWholeMarkup(bytes: seq<Byte>)
    requires |bytes| >= HeaderSize && bytes[..SniffSize] == SchemaTag
    ensures Classify(bytes) == Success(Sniffed(false, bytes))
  {
    forall i | 0 <= i < SniffSize ensures IsTextByte(bytes[i]) {
      assert bytes[i] == bytes[..SniffSize][i];
    }
  }

  /** A binary header whose length field reads (0x0A, 0x00) yields ten markup bytes. */
  lemma BinaryFileMarkupLength(bytes: seq<Byte>)
    requires |bytes| >= HeaderSize + 10
    requires forall i :: 0 <= i < SniffSize ==> bytes[i] == 0
    requires bytes[16] == 0x0A && bytes[17] == 0x00
    ensures Classify(bytes).Success?
    ensures Classify(bytes).value.isBinary
    ensures Classify(bytes).value.markup == bytes[20..30]
  {
    assert !IsTextByte(bytes[0]);
  }

  /** A binary length field larger than the file yields only what is there. */
  lemma BinaryMarkupClamped(bytes: seq<Byte>)
    requires |bytes| >= HeaderSize && HasBinaryHeader(bytes)
    requires HeaderSize + DeclaredLength(bytes) > |bytes|
    ensures Classify(bytes) == Success(Sniffed(true, bytes[HeaderSize..]))
  {
    assert bytes[HeaderSize..MarkupEnd(bytes)] == bytes[HeaderSize..];
  }
}
