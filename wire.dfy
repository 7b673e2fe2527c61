/** Byte streams, the Python values that travel over them, and the serializer
    (pickle) that both ends of a TCPickle connection agree on. */
module Wire {

  newtype byte = x: int | 0 <= x < 0x100

  /** A Python `bytes` object. */
  type Bytes = seq<byte>

  datatype Option<T> = None | Some(value: T)

  /** A Python object, distinguished only as far as the protocol looks at it.
      `bool` is kept apart from `int` because Python treats it as an `int`
      subclass. A float is a finite binary number `mantissa * 2^exponent`. */
  datatype Value =
    | IntValue(n: int)
    | BoolValue(b: bool)
    | FloatValue(mantissa: int, exponent: int)
    | StrValue(s: string)
    | ListValue(items: seq<Value>)
    | NoneValue

  /** `pickle.dumps` and `pickle.loads`: a foreign library, taken as a pair of
      functions. `loads` answers `None` where pickle raises. */
  datatype Codec = Codec(dumps: Value -> Bytes, loads: Bytes -> Option<Value>)

  /** What both ends rely on: loading what was dumped gives the value back,
      a dump is never empty (pickle always writes at least a STOP opcode), and
      loading no bytes at all fails (`pickle.loads(b'')` raises `EOFError`). */
  ghost predicate Faithful(codec: Codec) {
    (forall v :: codec.loads(codec.dumps(v)) == Some(v) && codec.dumps(v) != []) &&
    codec.loads([]) == None
  }

  /** `b''.join(chunks)`: empty exactly when every chunk is, and starting with
      the first chunk. */
  function Join(chunks: seq<Bytes>): (r: Bytes)
    ensures r == [] <==> forall j :: 0 <= j < |chunks| ==> chunks[j] == []
    ensures chunks != [] ==> |chunks[0]| <= |r| && r[..|chunks[0]|] == chunks[0]
  {
    if chunks == [] then [] else chunks[0] + Join(chunks[1..])
  }

  /** The index of the first empty chunk, or the number of chunks when there is
      none: how many chunks a "read until an empty read" loop keeps. */
  function FirstEmpty(chunks: seq<Bytes>): (k: nat)
    ensures k <= |chunks|
    ensures forall j :: 0 <= j < k ==> chunks[j] != []
    ensures k < |chunks| ==> chunks[k] == []
  {
    if chunks == [] || chunks[0] == [] then 0 else 1 + FirstEmpty(chunks[1..])
  }

  /** A reliable byte stream hands the reader `payload` as a series of
      non-empty reads; an empty read happens only once the peer has closed. */
  ghost predicate Delivers(chunks: seq<Bytes>, payload: Bytes) {
    (forall j :: 0 <= j < |chunks| ==> chunks[j] != []) && Join(chunks) == payload
  }

  /** The reads of `size` bytes each that see `payload` when it is already
      complete in the receive buffer. */
  function Split(payload: Bytes, size: nat): (chunks: seq<Bytes>)
    requires size > 0
    ensures forall j :: 0 <= j < |chunks| ==> 0 < |chunks[j]| <= size
    decreases |payload|
  {
    if |payload| <= size then
      (if payload == [] then [] else [payload])
    else
      [payload[..size]] + Split(payload[size..], size)
  }

  lemma {:induction false} SplitDelivers(payload: Bytes, size: nat)
    requires size > 0
    ensures Delivers(Split(payload, size), payload)
    decreases |payload|
  {
    var chunks := Split(payload, size);
    if |payload| <= size {
      if payload != [] {
        assert Join(chunks) == payload + Join([]);
      }
    } else {
      SplitDelivers(payload[size..], size);
      assert chunks[1..] == Split(payload[size..], size);
      assert Join(chunks) == payload[..size] + payload[size..];
      assert payload[..size] + payload[size..] == payload;
    }
  }

  /** `[x] * n` */
  function Repeat<T>(x: T, n: nat): (r: seq<T>)
    ensures |r| == n
    ensures forall j :: 0 <= j < n ==> r[j] == x
  {
    if n == 0 then [] else Repeat(x, n - 1) + [x]
  }
}
