/** The runtime plugin's resource compiler (engine/engine_plugin.cpp:371-391):
    the compiled form of a resource is its source bytes preceded by their
    length as a 32-bit unsigned integer, in the little-endian byte order of the
    targets the plugin is built for. */
module ResourceCompiler {
  import opened Common

  newtype byte = x: int | 0 <= x < 256

  const SIZE_OF_UNSIGNED: nat := 4
  const U32_LIMIT: nat := 0x1_0000_0000

  /** The four bytes `memcpy` copies out of an `unsigned`, lowest first. */
  function EncodeU32(n: nat): (b: seq<byte>)
    requires n < U32_LIMIT
    ensures |b| == SIZE_OF_UNSIGNED
  {
    [(n % 0x100) as byte, (n / 0x100 % 0x100) as byte,
     (n / 0x1_0000 % 0x100) as byte, (n / 0x100_0000 % 0x100) as byte]
  }

  /** The `unsigned` four bytes hold. */
  function DecodeU32(b: seq<byte>): (n: nat)
    requires |b| == SIZE_OF_UNSIGNED
    ensures n < U32_LIMIT
  {
    b[0] as nat + 0x100 * (b[1] as nat) + 0x1_0000 * (b[2] as nat) + 0x100_0000 * (b[3] as nat)
  }

  /** Reading the length back gives the length written. */
  lemma DecodeEncode(n: nat)
    requires n < U32_LIMIT
    ensures DecodeU32(EncodeU32(n)) == n
  {
    var b0, r0 := n % 0x100, n / 0x100;
    var b1, r1 := r0 % 0x100, r0 / 0x100;
    var b2, b3 := r1 % 0x100, r1 / 0x100;
    assert n / 0x1_0000 == r1;
    assert n / 0x100_0000 == b3;
    assert n == b0 + 0x100 * (b1 + 0x100 * (b2 + 0x100 * b3));
  }

  /** Every four bytes are the encoding of the number they hold: the header
      format has no redundant or invalid values. */
  lemma EncodeDecode(b: seq<byte>)
    requires |b| == SIZE_OF_UNSIGNED
    ensures EncodeU32(DecodeU32(b)) == b
  {
    var n := DecodeU32(b);
    var x0, x1, x2, x3 := b[0] as nat, b[1] as nat, b[2] as nat, b[3] as nat;
    assert n == x0 + 0x100 * (x1 + 0x100 * (x2 + 0x100 * x3));
    assert n % 0x100 == x0 && n / 0x100 == x1 + 0x100 * (x2 + 0x100 * x3);
    assert n / 0x1_0000 == (n / 0x100) / 0x100;
    assert n / 0x100_0000 == (n / 0x1_0000) / 0x100;
  }

  /** How a reader of the compiled resource gets the source back: the first
      four bytes give the length of the rest. */
  function Unpack(data: seq<byte>): (r: Option<seq<byte>>)
    ensures r.Some? ==> |r.value| + SIZE_OF_UNSIGNED == |data|
  {
    if |data| < SIZE_OF_UNSIGNED then None
    else if DecodeU32(data[..SIZE_OF_UNSIGNED]) != |data| - SIZE_OF_UNSIGNED then None
    else Some(data[SIZE_OF_UNSIGNED..])
  }

  /** pack_source_data_with_size (engine_plugin.cpp:371-380): a new buffer of
      the length plus four bytes, the length first, then the source. */
  method PackSourceDataWithSize(source: array<byte>) returns (result: array<byte>)
    requires source.Length + SIZE_OF_UNSIGNED < U32_LIMIT
    ensures fresh(result)
    ensures result[..] == EncodeU32(source.Length) + source[..]
  {
    var lengthWithDataSize := source.Length + SIZE_OF_UNSIGNED;
    result := new byte[lengthWithDataSize];
    var header := EncodeU32(source.Length);
    var i := 0;
    while i < SIZE_OF_UNSIGNED
      invariant 0 <= i <= SIZE_OF_UNSIGNED
      invariant result[..i] == header[..i]
    {
      result[i] := header[i];
      i := i + 1;
    }
    var j := 0;
    while j < source.Length
      invariant 0 <= j <= source.Length
      invariant result[..SIZE_OF_UNSIGNED] == header
      invariant result[SIZE_OF_UNSIGNED..SIZE_OF_UNSIGNED + j] == source[..j]
    {
      result[SIZE_OF_UNSIGNED + j] := source[j];
      j := j + 1;
    }
    assert result[..] == result[..SIZE_OF_UNSIGNED] + result[SIZE_OF_UNSIGNED..SIZE_OF_UNSIGNED + j];
  }

  /** The result of compiling a resource: an error text, or the data. */
  datatype DataCompileResult = DataCompileResult(error: Option<string>, data: seq<byte>)

  /** my_resource_compiler (engine_plugin.cpp:385-391): a failed read is passed
      on as it is; otherwise the source data is packed with its size. */
  method MyResourceCompiler(read: DataCompileResult) returns (r: DataCompileResult)
    requires read.error.None? ==> |read.data| + SIZE_OF_UNSIGNED < U32_LIMIT
    ensures read.error.Some? ==> r == read
    ensures read.error.None? ==> r.error.None? && Unpack(r.data) == Some(read.data)
    ensures read.error.None? ==> r.data == EncodeU32(|read.data|) + read.data
  {
    if read.error.Some? {
      return read;
    }
    var source := new byte[|read.data|](i requires 0 <= i < |read.data| => read.data[i]);
    assert source[..] == read.data;
    var packed := PackSourceDataWithSize(source);
    r := DataCompileResult(None, packed[..]);
    UnpackPack(read.data);
  }

  /** Unpacking a packed source gives the source back. */
  lemma UnpackPack(source: seq<byte>)
    requires |source| + SIZE_OF_UNSIGNED < U32_LIMIT
    ensures Unpack(EncodeU32(|source|) + source) == Some(source)
  {
    var data := EncodeU32(|source|) + source;
    assert data[..SIZE_OF_UNSIGNED] == EncodeU32(|source|);
    DecodeEncode(|source|);
    assert data[SIZE_OF_UNSIGNED..] == source;
  }

  /** A reader accepts exactly the packed buffers: whatever it unpacks is the
      packing of what it returns. */
  lemma PackUnpack(data: seq<byte>)
    requires Unpack(data).Some?
    ensures EncodeU32(|Unpack(data).value|) + Unpack(data).value == data
  {
    var rest := data[SIZE_OF_UNSIGNED..];
    EncodeDecode(data[..SIZE_OF_UNSIGNED]);
    assert data == data[..SIZE_OF_UNSIGNED] + rest;
  }
}
