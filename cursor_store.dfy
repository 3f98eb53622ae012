/** The persisted cursor: two files (`last_page`, `last_post`), each holding a
    32-bit unsigned integer as 4 little-endian bytes. Opening and creating
    the files is left to the caller; what a file holds is a value here. */
module CursorStore {
  import opened Types

  /** What opening a state file yields: no such file, another I/O error, or
      the bytes a read would see. */
  datatype StoredFile = Missing | OpenFailed | Present(bytes: seq<Byte>)

  /** The two state files. */
  datatype Store = Store(lastPage: StoredFile, lastPost: StoredFile)

  /** `write_u32`'s `write_u32::<LittleEndian>`: least significant byte first. */
  function EncodeU32(v: U32): (b: seq<Byte>)
    ensures |b| == 4
  {
    [v % 0x100, (v / 0x100) % 0x100, (v / 0x1_0000) % 0x100, v / 0x100_0000]
  }

  /** `read_u32::<LittleEndian>` on a buffer of at least 4 bytes. */
  function DecodeU32(b: seq<Byte>): U32
    requires |b| >= 4
  {
    b[0] as int + b[1] as int * 0x100 + b[2] as int * 0x1_0000 + b[3] as int * 0x100_0000
  }

  /** `try_read_u32`: a missing file reads as unset; any other failure to open
      is an I/O error; a file too short for 4 bytes reads as unset (the read
      error is discarded by `.ok()`); bytes after the fourth are never read. */
  function TryReadU32(f: StoredFile): (r: Result<Option<U32>>)
    ensures r.Err? <==> f.OpenFailed?
    ensures r.Err? ==> r.error == Io
    ensures r == Ok(None) <==> (f.Missing? || (f.Present? && |f.bytes| < 4))
  {
    match f
    case Missing => Ok(None)
    case OpenFailed => Err(Io)
    case Present(bytes) => if |bytes| >= 4 then Ok(Some(DecodeU32(bytes))) else Ok(None)
  }

  /** `write_u32`: `File::create` truncates, so the file then holds exactly
      the 4 bytes written. */
  function WriteU32(v: U32): (f: StoredFile)
    ensures f.Present? && |f.bytes| == 4
  {
    Present(EncodeU32(v))
  }

  /** Encoding then decoding gives the value back. */
  lemma DecodeEncode(v: U32)
    ensures DecodeU32(EncodeU32(v)) == v
  {
    var b := EncodeU32(v);
    var q1 := v / 0x100;
    var q2 := q1 / 0x100;
    assert v == b[0] + q1 * 0x100;
    assert q1 == b[1] + q2 * 0x100;
    assert q2 == b[2] as int + b[3] as int * 0x100;
  }

  /** Decoding then encoding gives the first four bytes back. */
  lemma EncodeDecode(b: seq<Byte>)
    requires |b| >= 4
    ensures EncodeU32(DecodeU32(b)) == b[..4]
  {
    var v := DecodeU32(b);
    var q1: int := b[1] as int + b[2] as int * 0x100 + b[3] as int * 0x1_0000;
    var q2: int := b[2] as int + b[3] as int * 0x100;
    assert v == b[0] as int + q1 * 0x100;
    assert v % 0x100 == b[0] && v / 0x100 == q1;
    assert q1 % 0x100 == b[1] && q1 / 0x100 == q2;
    assert (v / 0x1_0000) == q2 by {
      assert v / 0x1_0000 == (v / 0x100) / 0x100;
    }
    assert q2 % 0x100 == b[2] && q2 / 0x100 == b[3];
    assert v / 0x100_0000 == q2 / 0x100 by {
      assert v / 0x100_0000 == (v / 0x1_0000) / 0x100;
    }
  }

  /** Reading back a written file gives the value written. */
  lemma ReadAfterWrite(v: U32)
    ensures TryReadU32(WriteU32(v)) == Ok(Some(v))
  {
    DecodeEncode(v);
  }

  /** Only the first four bytes of a file are read. */
  lemma ReadIgnoresTrailingBytes(b: seq<Byte>, extra: seq<Byte>)
    requires |b| == 4
    ensures TryReadU32(Present(b + extra)) == TryReadU32(Present(b))
  {
    assert (b + extra)[..4] == b;
  }

  /** `get_last_page`: unset when `last_page` is missing or too short, an
      I/O error when it cannot be opened. */
  function GetLastPage(s: Store): (r: Result<Option<U32>>)
    ensures r.Err? <==> s.lastPage.OpenFailed?
    ensures r == Ok(None) <==> (s.lastPage.Missing? || (s.lastPage.Present? && |s.lastPage.bytes| < 4))
  {
    TryReadU32(s.lastPage)
  }

  /** `get_last_sent_post`: the same for `last_post`. */
  function GetLastSentPost(s: Store): (r: Result<Option<U32>>)
    ensures r.Err? <==> s.lastPost.OpenFailed?
    ensures r == Ok(None) <==> (s.lastPost.Missing? || (s.lastPost.Present? && |s.lastPost.bytes| < 4))
  {
    TryReadU32(s.lastPost)
  }

  /** `set_last_page` followed by `set_last_sent_post` (src/main.rs:289-290). */
  function SetCursor(s: Store, page: U32, lastId: U32): (t: Store)
    ensures GetLastPage(t) == Ok(Some(page)) && GetLastSentPost(t) == Ok(Some(lastId))
  {
    ReadAfterWrite(page);
    ReadAfterWrite(lastId);
    Store(WriteU32(page), WriteU32(lastId))
  }
}
