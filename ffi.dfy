/**
 * The C-string conversions the safety layer relies on: `CString::new`,
 * `CStr::to_str` / `into_string`, and the two buffer decoders of the crate,
 * `String::from_cstring_buffer` (src/ffi.rs) and `String::from_string_buf`
 * (src/api/ffi.rs). Strings are UTF-8 byte sequences, as Rust stores them.
 */
module Ffi {
  import opened CTypes
  import opened Wrappers

  const NUL: Byte := 0

  /** The bytes of `s` before its first NUL; all of `s` when it has none. */
  function BeforeNul(s: seq<Byte>): (r: seq<Byte>)
    ensures |r| <= |s| && r == s[..|r|]
    ensures NUL !in r
    ensures |r| < |s| ==> s[|r|] == NUL
  {
    if s == [] || s[0] == NUL then [] else [s[0]] + BeforeNul(s[1..])
  }

  /** A C string's content followed by its terminator decodes back to that content. */
  lemma {:induction false} BeforeNulOfTerminated(content: seq<Byte>, rest: seq<Byte>)
    requires NUL !in content
    ensures BeforeNul(content + [NUL] + rest) == content
  {
    if content != [] {
      assert (content + [NUL] + rest)[1..] == content[1..] + [NUL] + rest;
      BeforeNulOfTerminated(content[1..], rest);
    }
  }

  /** A sequence without NUL is taken whole. */
  lemma {:induction false} BeforeNulOfNulFree(s: seq<Byte>)
    requires NUL !in s
    ensures BeforeNul(s) == s
  {
    if s != [] {
      BeforeNulOfNulFree(s[1..]);
    }
  }

  // ---------------------------------------------------------------- UTF-8

  predicate IsContinuation(b: Byte) { 0x80 <= b <= 0xBF }

  /**
   * Length of the well-formed UTF-8 sequence that starts `s` (the table of
   * well-formed byte sequences in section 3.9 of the Unicode Standard), or 0
   * when `s` does not start with one.
   */
  function SequenceLength(s: seq<Byte>): (n: nat)
    ensures n <= |s|
    ensures |s| > 0 && s[0] <= 0x7F ==> n == 1
    ensures n > 0 ==> |s| > 0 && (s[0] <= 0x7F <==> n == 1)
  {
    if |s| == 0 then 0
    else if s[0] <= 0x7F then 1
    else if 0xC2 <= s[0] <= 0xDF then
      if |s| >= 2 && IsContinuation(s[1]) then 2 else 0
    else if s[0] == 0xE0 then
      if |s| >= 3 && 0xA0 <= s[1] <= 0xBF && IsContinuation(s[2]) then 3 else 0
    else if 0xE1 <= s[0] <= 0xEC || 0xEE <= s[0] <= 0xEF then
      if |s| >= 3 && IsContinuation(s[1]) && IsContinuation(s[2]) then 3 else 0
    else if s[0] == 0xED then
      if |s| >= 3 && 0x80 <= s[1] <= 0x9F && IsContinuation(s[2]) then 3 else 0
    else if s[0] == 0xF0 then
      if |s| >= 4 && 0x90 <= s[1] <= 0xBF && IsContinuation(s[2]) && IsContinuation(s[3]) then 4 else 0
    else if 0xF1 <= s[0] <= 0xF3 then
      if |s| >= 4 && IsContinuation(s[1]) && IsContinuation(s[2]) && IsContinuation(s[3]) then 4 else 0
    else if s[0] == 0xF4 then
      if |s| >= 4 && 0x80 <= s[1] <= 0x8F && IsContinuation(s[2]) && IsContinuation(s[3]) then 4 else 0
    else 0
  }

  /** `s` is a concatenation of well-formed UTF-8 sequences. */
  predicate ValidUtf8(s: seq<Byte>)
    decreases |s|
  {
    s == [] || (SequenceLength(s) > 0 && ValidUtf8(s[SequenceLength(s)..]))
  }

  /** Every ASCII byte string is valid UTF-8. */
  lemma {:induction false} AsciiIsUtf8(s: seq<Byte>)
    requires forall i :: 0 <= i < |s| ==> s[i] <= 0x7F
    ensures ValidUtf8(s)
  {
    if s != [] {
      AsciiIsUtf8(s[1..]);
    }
  }

  /** A Rust `String` / `&str`: bytes that are valid UTF-8. */
  type RString = s: seq<Byte> | ValidUtf8(s) witness []

  /** `std::string::FromUtf8Error`: gives the rejected bytes back. */
  datatype FromUtf8Error = FromUtf8Error(bytes: seq<Byte>)

  /** `std::ffi::IntoStringError`: gives the rejected C string back. */
  datatype IntoStringError = IntoStringError(bytes: seq<Byte>)

  /** `std::str::Utf8Error`. */
  datatype Utf8Error = Utf8Error(bytes: seq<Byte>)

  /** `String::from_utf8`. */
  function FromUtf8(bytes: seq<Byte>): (r: Result<RString, FromUtf8Error>)
    ensures r.Ok? <==> ValidUtf8(bytes)
    ensures r.Ok? ==> r.value == bytes
    ensures r.Err? ==> r.error.bytes == bytes
  {
    if ValidUtf8(bytes) then Ok(bytes) else Err(FromUtf8Error(bytes))
  }

  // -------------------------------------------------------------- C strings

  /** Content of a C string: the bytes before its terminator. */
  type CStr = s: seq<Byte> | NUL !in s

  /** `std::ffi::NulError`: where the first NUL is, and the rejected bytes. */
  datatype NulError = NulError(position: nat, bytes: seq<Byte>)

  /** `CString::new`: accepts exactly the byte strings without a NUL. */
  function CStringNew(bytes: seq<Byte>): (r: Result<CStr, NulError>)
    ensures r.Ok? <==> NUL !in bytes
    ensures r.Ok? ==> r.value == bytes
    ensures r.Err? ==>
              && r.error.bytes == bytes
              && r.error.position < |bytes|
              && bytes[r.error.position] == NUL
              && NUL !in bytes[..r.error.position]
  {
    var position := |BeforeNul(bytes)|;
    if position == |bytes| then Ok(bytes) else Err(NulError(position, bytes))
  }

  /** `CStr::to_str` on a C string the host handed over. */
  function CStrToStr(s: CStr): (r: Result<RString, Utf8Error>)
    ensures r.Ok? <==> ValidUtf8(s)
    ensures r.Ok? ==> r.value == s
  {
    if ValidUtf8(s) then Ok(s) else Err(Utf8Error(s))
  }

  /**
   * `String::from_cstring_buffer` (src/ffi.rs): `CStr::from_ptr` on the
   * buffer's first byte, then `into_string`. `CStr::from_ptr` reads until it
   * meets a NUL and has no length bound, so the buffer must hold one.
   */
  function FromCStringBuffer(buf: seq<Byte>): (r: Result<RString, IntoStringError>)
    requires NUL in buf
    ensures r.Ok? <==> ValidUtf8(BeforeNul(buf))
    ensures r.Ok? ==> r.value == BeforeNul(buf) && |r.value| < |buf|
    ensures r.Err? ==> r.error.bytes == BeforeNul(buf)
    ensures buf[0] == NUL ==> r == Ok([])
  {
    var content := BeforeNul(buf);
    if ValidUtf8(content) then Ok(content) else Err(IntoStringError(content))
  }

  /** The `c as u8` view of a buffer of C `char`s. */
  function AsBytes(buf: seq<I8>): (r: seq<Byte>)
    ensures |r| == |buf|
    ensures forall i :: 0 <= i < |buf| ==> r[i] == I8AsU8(buf[i])
  {
    seq(|buf|, i requires 0 <= i < |buf| => I8AsU8(buf[i]))
  }

  /**
   * `String::from_string_buf` (src/api/ffi.rs): reinterpret each `i8` as a
   * `u8`, keep the bytes before the first NUL, decode them as UTF-8. The read
   * never leaves the buffer.
   */
  function FromStringBuf(buf: seq<I8>): (r: Result<RString, FromUtf8Error>)
    ensures r.Ok? <==> ValidUtf8(BeforeNul(AsBytes(buf)))
    ensures r.Ok? ==> |r.value| <= |buf| && NUL !in r.value && r.value == AsBytes(buf)[..|r.value|]
    ensures r.Ok? && |r.value| < |buf| ==> buf[|r.value|] == 0
    ensures r.Err? ==> r.error.bytes == BeforeNul(AsBytes(buf))
  {
    FromUtf8(BeforeNul(AsBytes(buf)))
  }

  /** The Unicode scalar value encoded by the first sequence of a non-empty valid string. */
  function FirstChar(s: RString): (c: nat)
    requires |s| > 0
    ensures s[0] <= 0x7F ==> c == s[0]
    ensures s[0] > 0x7F ==> c > 0x7F
  {
    var n := SequenceLength(s);
    var b0: int := s[0];
    var b1: int := if n > 1 then s[1] else 0;
    var b2: int := if n > 2 then s[2] else 0;
    var b3: int := if n > 3 then s[3] else 0;
    if n == 1 then b0
    else if n == 2 then (b0 % 32) * 64 + b1 % 64
    else if n == 3 then (b0 % 16) * 4096 + (b1 % 64) * 64 + b2 % 64
    else (b0 % 8) * 262144 + (b1 % 64) * 4096 + (b2 % 64) * 64 + b3 % 64
  }
}
