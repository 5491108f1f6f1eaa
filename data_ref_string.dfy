/**
 * String data refs (src/api/data_access/data_ref/string.rs): a byte array
 * data ref read through a `SIZE`-byte buffer and decoded as a NUL-terminated
 * UTF-8 string.
 */
module DataRefStrings {
  import opened Wrappers
  import opened CTypes
  import opened Ffi
  import opened DataTypes
  import opened DataRefs
  import opened DataAccessErrors
  import DataAccess
  import DataRefArrays
  import DataRefTyped
  import Xplm

  /** `DataRefString<SIZE, ReadOnly>`: a u8 array and the buffer size. */
  datatype DataRefString = DataRefString(inner: DataRefArrays.DataRefArray, size: nat)

  /** The string wrapper around an array check's outcome; its error passes on. */
  function OfArray(a: Result<DataRefArrays.DataRefArray, DataAccessError>, size: nat): Result<DataRefString, DataAccessError> {
    match a
    case Err(e) => Err(e)
    case Ok(v) => Ok(DataRefString(v, size))
  }

  /**
   * `TryFrom<DataRef>` as written: the `DataRefArray` in scope is the one
   * data_ref_typed.rs exports, whose type check has no arm for u8.
   */
  function TryFromAsWritten(host: Xplm.Host, inner: DataRef, size: nat): (r: Result<DataRefString, DataAccessError>)
    reads host
    ensures r.Err? <==> DataRefTyped.ArrayTryFrom(host, inner, U8).Err?
    ensures r.Err? ==> r.error == DataRefTyped.ArrayTryFrom(host, inner, U8).error
  {
    OfArray(DataRefTyped.ArrayTryFrom(host, inner, U8), size)
  }

  /**
   * As written, no string data ref can be built: an orphaned handle is
   * `OrphanedDataRef` and every good one, even one holding `Data`, is
   * `InvalidType`.
   */
  lemma TryFromAsWrittenNeverSucceeds(host: Xplm.Host, inner: DataRef, size: nat)
    ensures TryFromAsWritten(host, inner, size).Err?
    ensures DataAccess.IsDataRefGood(host, inner) ==> TryFromAsWritten(host, inner, size) == Err(InvalidType)
  {
    DataRefTyped.U8ArrayNeverConstructed(host, inner);
  }

  /** `find` as written: the lookup, then the check of data_ref_typed.rs. */
  method FindAsWritten(host: Xplm.Host, name: seq<Byte>, size: nat) returns (r: Result<DataRefString, DataAccessError>)
    modifies host
    ensures r.Err?
    ensures r == match DataAccess.FindDataRefResult(old(host.state.dataRefNames), name)
                 case Err(e) => Err(e)
                 case Ok(d) => TryFromAsWritten(host, d, size)
    ensures host.state == old(host.state)
    ensures NUL in name ==> host.calls == old(host.calls)
    ensures NUL !in name ==> host.calls == old(host.calls) + [Xplm.HostCall.FindDataRef(name)]
  {
    var found := DataAccess.FindDataRef(host, name);
    match found
    case Err(e) =>
      r := Err(e);
    case Ok(d) =>
      r := TryFromAsWritten(host, d, size);
      TryFromAsWrittenNeverSucceeds(host, d, size);
  }

  /**
   * `TryFrom<DataRef>` with the evidently intended check: the u8 array check
   * of array.rs, where u8 needs `Data`, its error passed on.
   */
  function TryFrom(host: Xplm.Host, inner: DataRef, size: nat): (r: Result<DataRefString, DataAccessError>)
    reads host
    ensures r.Err? <==> DataRefArrays.TryFrom(host, inner, U8).Err?
    ensures r.Err? ==> r.error == DataRefArrays.TryFrom(host, inner, U8).error
    ensures r.Ok? ==> r.value == DataRefString(DataRefArrays.DataRefArray(inner, U8, ReadOnly), size)
  {
    OfArray(DataRefArrays.TryFrom(host, inner, U8), size)
  }

  /** With the intended check a good byte-array data ref does become a string data ref. */
  lemma TryFromAcceptsData(host: Xplm.Host, inner: DataRef, size: nat)
    requires DataAccess.IsDataRefGood(host, inner)
    requires Contains(DataAccess.GetDataRefTypes(host, inner), Data)
    ensures TryFrom(host, inner, size) == Ok(DataRefString(DataRefArrays.DataRefArray(inner, U8, ReadOnly), size))
    ensures TryFromAsWritten(host, inner, size) == Err(InvalidType)
  {
    TryFromAsWrittenNeverSucceeds(host, inner, size);
  }

  /** `find` with the intended check: looked up and checked as a u8 array. */
  method Find(host: Xplm.Host, name: seq<Byte>, size: nat) returns (r: Result<DataRefString, DataAccessError>)
    modifies host
    ensures r == match DataAccess.FindDataRefResult(old(host.state.dataRefNames), name)
                 case Err(e) => Err(e)
                 case Ok(d) => TryFrom(host, d, size)
    ensures host.state == old(host.state)
    ensures NUL in name ==> host.calls == old(host.calls)
    ensures NUL !in name ==> host.calls == old(host.calls) + [Xplm.HostCall.FindDataRef(name)]
  {
    var a :- DataRefArrays.Find(host, name, U8);
    r := Ok(DataRefString(a, size));
  }

  /** A raw element of a byte array data ref as the u8 it is. */
  function AsByte(v: Xplm.Value): (b: Byte)
    ensures 0 <= v < 256 ==> b == v
  {
    v % 256
  }

  /**
   * The zero-initialised `size`-byte buffer after the host copied the data
   * ref's bytes into it from index 0.
   */
  function ReadBuffer(bytes: seq<Xplm.Value>, size: nat): (b: seq<Byte>)
    ensures |b| == size
    ensures forall i :: 0 <= i < size ==> b[i] == if i < |bytes| then AsByte(bytes[i]) else 0
  {
    seq(size, i requires 0 <= i < size => if i < |bytes| then AsByte(bytes[i]) else 0)
  }

  /**
   * The buffer holds a NUL exactly when the host had fewer than `size` bytes
   * to give or one of the first `size` bytes is zero.
   */
  lemma ReadBufferHasNul(bytes: seq<Xplm.Value>, size: nat)
    ensures NUL in ReadBuffer(bytes, size) <==>
      (|bytes| < size || exists i :: 0 <= i < size && AsByte(bytes[i]) == NUL)
  {
    var b := ReadBuffer(bytes, size);
    if |bytes| < size {
      assert b[|bytes|] == NUL;
    }
    if NUL in b {
      var i :| 0 <= i < size && b[i] == NUL;
      if |bytes| >= size {
        assert AsByte(bytes[i]) == NUL;
      }
    }
  }

  /**
   * `try_read` as written: the buffer goes to a decoder that scans for a
   * NUL without a bound. When the buffer holds none the scan runs past its
   * end; that outcome is `None`.
   */
  function TryReadAsWritten(bytes: seq<Xplm.Value>, size: nat): (r: Option<Result<RString, DataAccessError>>)
    ensures r.None? <==> NUL !in ReadBuffer(bytes, size)
  {
    var buf := ReadBuffer(bytes, size);
    if NUL in buf then Some(FromCStringBuffer(buf).MapError(_ => InvalidValueString)) else None
  }

  /**
   * A one-byte buffer over a data ref holding "A": the buffer is full, has
   * no terminator, and the decoder reads past it.
   */
  lemma ReadBufferCanLackNul()
    ensures ReadBuffer([65], 1) == [65]
    ensures TryReadAsWritten([65], 1).None?
  {
    assert ReadBuffer([65], 1)[0] == 65;
  }

  /** The buffer decoded up to its first NUL or its end, whichever comes first. */
  function DecodeBuffer(buf: seq<Byte>): (r: Result<RString, DataAccessError>)
    ensures r.Ok? <==> ValidUtf8(BeforeNul(buf))
    ensures r.Ok? ==> r.value == BeforeNul(buf) && |r.value| <= |buf| && NUL !in r.value
    ensures r.Err? ==> r.error == InvalidValueString
  {
    FromUtf8(BeforeNul(buf)).MapError(_ => InvalidValueString)
  }

  /** `try_read` with the scan bounded by the buffer. */
  function TryReadResult(bytes: seq<Xplm.Value>, size: nat): (r: Result<RString, DataAccessError>)
    ensures r.Ok? ==> |r.value| <= size && NUL !in r.value
    ensures r.Ok? ==> r.value == ReadBuffer(bytes, size)[..|r.value|]
    ensures r.Err? ==> r.error == InvalidValueString
  {
    DecodeBuffer(ReadBuffer(bytes, size))
  }

  /** Whenever the buffer holds a NUL the bounded decode answers what the code as written answers. */
  lemma TryReadAgreesWhenTerminated(bytes: seq<Xplm.Value>, size: nat)
    requires NUL in ReadBuffer(bytes, size)
    ensures TryReadAsWritten(bytes, size) == Some(TryReadResult(bytes, size))
  {
  }

  /**
   * A string shorter than the buffer, followed in the data ref by a NUL or
   * by nothing, reads back as itself.
   */
  lemma {:induction false} TryReadShortString(content: RString, tail: seq<Xplm.Value>, size: nat)
    requires NUL !in content && |content| < size
    requires tail == [] || tail[0] == NUL
    ensures TryReadResult(content + tail, size) == Ok(content)
  {
    var bytes: seq<Xplm.Value> := content + tail;
    var buf := ReadBuffer(bytes, size);
    var n := |content|;
    assert buf[..n] == content by {
      forall i | 0 <= i < n ensures buf[i] == content[i] {
        assert bytes[i] == content[i];
      }
    }
    assert buf[n] == NUL by {
      if n < |bytes| {
        assert bytes[n] == tail[0];
      }
    }
    assert buf == content + [NUL] + buf[n + 1..];
    BeforeNulOfTerminated(content, buf[n + 1..]);
  }

  /**
   * `try_read`, with the decode bounded by the buffer: one read of `size`
   * bytes from index 0 into a zeroed buffer.
   */
  method TryRead(host: Xplm.Host, s: DataRefString) returns (r: Result<RString, DataAccessError>)
    requires s.inner.t == U8
    modifies host
    ensures r == TryReadResult(host.state.DataRef(s.inner.inner.raw).bytes, s.size)
    ensures host.state == old(host.state)
    ensures host.calls == old(host.calls) + [Xplm.HostCall.GetArray(Xplm.ByteValues, s.inner.inner.raw, 0, s.size)]
  {
    var buffer := new Xplm.Value[s.size](_ => 0);
    var n := DataRefArrays.Read(host, s.inner, buffer);
    ghost var bytes := host.state.DataRef(s.inner.inner.raw).bytes;
    var buf := seq(s.size, i requires 0 <= i < s.size reads buffer => AsByte(buffer[i]));
    assert buf == ReadBuffer(bytes, s.size) by {
      forall i | 0 <= i < s.size ensures buf[i] == ReadBuffer(bytes, s.size)[i] {
        if i < n {
          assert buffer[..n][i] == bytes[..n][i];
        } else {
          assert buffer[n..][i - n] == 0;
        }
      }
    }
    r := DecodeBuffer(buf);
  }

  /** `DataRead::read`: a string that does not decode reads as the empty string. */
  method Read(host: Xplm.Host, s: DataRefString) returns (v: RString)
    requires s.inner.t == U8
    modifies host
    ensures var r := TryReadResult(host.state.DataRef(s.inner.inner.raw).bytes, s.size);
      v == if r.Ok? then r.value else []
    ensures host.state == old(host.state)
    ensures host.calls == old(host.calls) + [Xplm.HostCall.GetArray(Xplm.ByteValues, s.inner.inner.raw, 0, s.size)]
  {
    var r := TryRead(host, s);
    v := if r.Ok? then r.value else [];
  }
}
