/**
 * The metadata records exchanged with the filer: entries, their attributes and
 * the two mutation requests, with Go's fixed-width integers made explicit.
 */
module FilerPb {

  newtype uint8 = x: int | 0 <= x < 0x100
  newtype uint32 = x: int | 0 <= x < 0x1_0000_0000
  newtype int32 = x: int | -0x8000_0000 <= x < 0x8000_0000

  const MaxInt32: int32 := 0x7fff_ffff
  const MinInt32: int32 := -0x8000_0000

  /** Go's `x++` on an `int32`: two's-complement, so the largest value wraps to the smallest. */
  function Inc32(x: int32): (r: int32)
    ensures x < MaxInt32 ==> r as int == x as int + 1
    ensures (x as int + 1 - r as int) % 0x1_0000_0000 == 0
  {
    if x == MaxInt32 then MinInt32 else x + 1
  }

  /** A reference to one block of file content; opaque to the link logic. */
  datatype FileChunk = FileChunk(fileId: string, offset: int, size: nat, modifiedTsNs: int)

  /** The attribute record of an entry (the fields the link logic reads or writes). */
  datatype FuseAttributes = FuseAttributes(
    fileSize: nat,
    mtime: int,
    crtime: int,
    fileMode: bv32,
    uid: uint32,
    gid: uint32,
    symlinkTarget: string)

  /** One named object in the filer namespace. */
  datatype Entry = Entry(
    name: string,
    isDirectory: bool,
    attributes: FuseAttributes,
    chunks: seq<FileChunk>,
    extended: map<string, seq<uint8>>,
    hardLinkId: seq<uint8>,
    hardLinkCounter: int32)

  /** Replace the entry stored at `directory`/`entry.name`. */
  datatype UpdateEntryRequest = UpdateEntryRequest(directory: string, entry: Entry, signatures: seq<int32>)

  /** Create a new entry at `directory`/`entry.name`. */
  datatype CreateEntryRequest = CreateEntryRequest(directory: string, entry: Entry, signatures: seq<int32>)
}
