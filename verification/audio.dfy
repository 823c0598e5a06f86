/** The byte side of internal/audio/player.go: packing mixed samples as
    32-bit little-endian floats, and the reader the audio device pulls bytes
    from, which refills its buffer by calling the mix function whenever it
    runs dry.

    `math.Float32bits(float32(x))` is an `Encoder` supplied by the caller (the
    float32 rounding and the IEEE-754 layout are not modelled). The mix
    function is an oracle: `MixBlocks(k)` is what its k-th call returns. */
module Audio {
  import opened Common

  type Encoder = real -> bv32

  /** The samples returned by the k-th call of the mix function. */
  type MixBlocks = nat -> seq<real>

  /** `byte(bits)`, `byte(bits >> 8)`, `byte(bits >> 16)`, `byte(bits >> 24)`:
      the four bytes of a word, least significant first. */
  function LittleEndian(bits: bv32): (b: seq<bv8>)
    ensures |b| == 4
  {
    [(bits & 0xFF) as bv8, ((bits >> 8) & 0xFF) as bv8, ((bits >> 16) & 0xFF) as bv8, ((bits >> 24) & 0xFF) as bv8]
  }

  /** The word four little-endian bytes stand for: how a consumer of the
      stream reads a sample back. */
  function FromLittleEndian(b: seq<bv8>): bv32
    requires |b| == 4
  {
    (b[0] as bv32) | ((b[1] as bv32) << 8) | ((b[2] as bv32) << 16) | ((b[3] as bv32) << 24)
  }

  /** The byte layout loses nothing: reading the bytes back gives the word. */
  lemma LittleEndianRoundTrip(bits: bv32)
    ensures FromLittleEndian(LittleEndian(bits)) == bits
  {
  }

  /** ... and every four bytes are the layout of the word they stand for. */
  lemma FromLittleEndianRoundTrip(b: seq<bv8>)
    requires |b| == 4
    ensures LittleEndian(FromLittleEndian(b)) == b
  {
    WordBytes(b[0], b[1], b[2], b[3]);
  }

  lemma WordBytes(b0: bv8, b1: bv8, b2: bv8, b3: bv8)
    ensures var w := (b0 as bv32) | ((b1 as bv32) << 8) | ((b2 as bv32) << 16) | ((b3 as bv32) << 24);
            && (w & 0xFF) as bv8 == b0 && ((w >> 8) & 0xFF) as bv8 == b1
            && ((w >> 16) & 0xFF) as bv8 == b2 && ((w >> 24) & 0xFF) as bv8 == b3
  {
  }

  /** One sample on the wire: clamped to [-1, 1], encoded, laid out. */
  function EncodeSample(enc: Encoder, x: real): (b: seq<bv8>)
    ensures |b| == 4
    ensures FromLittleEndian(b) == enc(Clamp(x, -1.0, 1.0))
  {
    LittleEndianRoundTrip(enc(Clamp(x, -1.0, 1.0)));
    LittleEndian(enc(Clamp(x, -1.0, 1.0)))
  }

  /** The encoder only ever sees values in [-1, 1]: anything louder is sent
      as full scale. */
  lemma EncodeSampleClips(enc: Encoder, x: real)
    ensures x >= 1.0 ==> EncodeSample(enc, x) == EncodeSample(enc, 1.0)
    ensures x <= -1.0 ==> EncodeSample(enc, x) == EncodeSample(enc, -1.0)
    ensures -1.0 <= x <= 1.0 ==> FromLittleEndian(EncodeSample(enc, x)) == enc(x)
  {
  }

  /** The reference encoding of a whole block, sample after sample. */
  function EncodeAll(enc: Encoder, samples: seq<real>): (b: seq<bv8>)
    ensures |b| == 4 * |samples|
    decreases |samples|
  {
    if |samples| == 0 then []
    else EncodeAll(enc, samples[..|samples| - 1]) + EncodeSample(enc, samples[|samples| - 1])
  }

  /** Bytes 4i .. 4i+3 of a block encode sample i. */
  lemma {:induction false} EncodeAllAt(enc: Encoder, samples: seq<real>, i: nat)
    requires i < |samples|
    ensures EncodeAll(enc, samples)[4 * i .. 4 * i + 4] == EncodeSample(enc, samples[i])
    decreases |samples|
  {
    var n := |samples| - 1;
    var prefix := EncodeAll(enc, samples[..n]);
    assert EncodeAll(enc, samples) == prefix + EncodeSample(enc, samples[n]);
    if i < n {
      EncodeAllAt(enc, samples[..n], i);
      assert samples[..n][i] == samples[i];
    }
  }

  /** Every four bytes of an encoded block read back as the clamped,
      encoded sample at that place. */
  lemma EncodeAllLayout(enc: Encoder, samples: seq<real>)
    ensures forall i :: 0 <= i < |samples| ==>
              FromLittleEndian(EncodeAll(enc, samples)[4 * i .. 4 * i + 4]) == enc(Clamp(samples[i], -1.0, 1.0))
  {
    forall i | 0 <= i < |samples|
      ensures FromLittleEndian(EncodeAll(enc, samples)[4 * i .. 4 * i + 4]) == enc(Clamp(samples[i], -1.0, 1.0))
    {
      EncodeAllAt(enc, samples, i);
    }
  }

  /** float64ToBytes: four bytes per sample, in order. */
  method Float64ToBytes(enc: Encoder, samples: seq<real>) returns (result: seq<bv8>)
    ensures result == EncodeAll(enc, samples)
    ensures |result| == 4 * |samples|
    ensures forall i :: 0 <= i < |samples| ==> FromLittleEndian(result[4 * i .. 4 * i + 4]) == enc(Clamp(samples[i], -1.0, 1.0))
  {
    result := [];
    var i := 0;
    while i < |samples|
      invariant 0 <= i <= |samples|
      invariant result == EncodeAll(enc, samples[..i])
    {
      var bits := enc(Clamp(samples[i], -1.0, 1.0));
      var bytes := LittleEndian(bits);
      assert bytes == EncodeSample(enc, samples[i]);
      assert samples[..i + 1][..i] == samples[..i];
      result := result + bytes;
      i := i + 1;
    }
    assert samples[..i] == samples;
    EncodeAllLayout(enc, samples);
  }

  /** mixReader: the current encoded block and the read position in it.
      `calls` counts the mix calls made so far; the Go reader does not keep
      it, it names which oracle block the buffer holds. */
  datatype Reader = Reader(buffer: seq<bv8>, bufPos: nat, calls: nat)

  /** All bytes the first `k` mix calls produced, in order. */
  function Produced(enc: Encoder, blocks: MixBlocks, k: nat): (b: seq<bv8>)
    decreases k
  {
    if k == 0 then [] else Produced(enc, blocks, k - 1) + EncodeAll(enc, blocks(k - 1))
  }

  /** The reader's buffer is the encoding of the last block it fetched (empty
      before the first), and the position is inside it. */
  predicate ReaderValid(r: Reader, enc: Encoder, blocks: MixBlocks)
  {
    && r.bufPos <= |r.buffer|
    && (r.calls == 0 ==> r.buffer == [])
    && (r.calls > 0 ==> r.buffer == EncodeAll(enc, blocks(r.calls - 1)))
  }

  /** The bytes handed to the device so far: everything produced except the
      unread rest of the buffer. */
  function Delivered(r: Reader, enc: Encoder, blocks: MixBlocks): (d: seq<bv8>)
    requires ReaderValid(r, enc, blocks)
  {
    var all := Produced(enc, blocks, r.calls);
    all[..|all| - (|r.buffer| - r.bufPos)]
  }

  /** A new reader has no buffer and has delivered nothing. */
  function NewReader(): (r: Reader)
    ensures forall enc, blocks :: ReaderValid(r, enc, blocks) && Delivered(r, enc, blocks) == []
  {
    Reader([], 0, 0)
  }

  /** Read fills `n` bytes of the device's buffer. Whenever its own buffer is
      used up it first looks at the stop signal: if set, it returns what it
      has so far; otherwise it fetches and encodes the next mix block.
      `stopped` is the state of the stop signal for the whole call. */
  method Read(r: Reader, n: nat, stopped: bool, enc: Encoder, blocks: MixBlocks) returns (data: seq<bv8>, r': Reader)
    requires ReaderValid(r, enc, blocks)
    requires forall k :: |blocks(k)| > 0
    ensures |data| <= n
    ensures !stopped ==> |data| == n
    ensures ReaderValid(r', enc, blocks)
    ensures Delivered(r', enc, blocks) == Delivered(r, enc, blocks) + data
    ensures stopped ==> r'.calls == r.calls
    ensures stopped ==> |data| == (if n <= |r.buffer| - r.bufPos then n else |r.buffer| - r.bufPos)
  {
    data := [];
    r' := r;
    while |data| < n
      invariant |data| <= n
      invariant ReaderValid(r', enc, blocks)
      invariant Delivered(r', enc, blocks) == Delivered(r, enc, blocks) + data
      invariant stopped ==> r'.calls == r.calls && r'.buffer == r.buffer
      invariant stopped ==> r'.bufPos == r.bufPos + |data|
      decreases n - |data|
    {
      if r'.bufPos >= |r'.buffer| {
        if stopped {
          return;
        }
        r' := Refill(r', enc, blocks);
      }
      var chunk;
      chunk, r' := Copy(r', n - |data|, enc, blocks);
      Associative(Delivered(r, enc, blocks), data, chunk);
      data := data + chunk;
    }
  }

  /** The refill step of Read: fetch the next mix block and encode it. */
  method Refill(r: Reader, enc: Encoder, blocks: MixBlocks) returns (r': Reader)
    requires ReaderValid(r, enc, blocks) && r.bufPos >= |r.buffer|
    requires |blocks(r.calls)| > 0
    ensures ReaderValid(r', enc, blocks)
    ensures r'.calls == r.calls + 1 && r'.bufPos == 0 && |r'.buffer| > 0
    ensures Delivered(r', enc, blocks) == Delivered(r, enc, blocks)
  {
    var bytes := Float64ToBytes(enc, blocks(r.calls));
    RefillKeepsDelivered(r, enc, blocks, bytes);
    r' := Reader(bytes, 0, r.calls + 1);
  }

  /** The copy step of Read: as many unread bytes as are wanted and left. */
  method Copy(r: Reader, want: nat, enc: Encoder, blocks: MixBlocks) returns (chunk: seq<bv8>, r': Reader)
    requires ReaderValid(r, enc, blocks)
    ensures |chunk| == (if want <= |r.buffer| - r.bufPos then want else |r.buffer| - r.bufPos)
    ensures r' == r.(bufPos := r.bufPos + |chunk|)
    ensures chunk == r.buffer[r.bufPos..r'.bufPos]
    ensures ReaderValid(r', enc, blocks)
    ensures Delivered(r', enc, blocks) == Delivered(r, enc, blocks) + chunk
  {
    var k := if want <= |r.buffer| - r.bufPos then want else |r.buffer| - r.bufPos;
    chunk := r.buffer[r.bufPos..r.bufPos + k];
    CopyDelivers(r, enc, blocks, k);
    r' := r.(bufPos := r.bufPos + k);
  }

  lemma Associative(a: seq<bv8>, b: seq<bv8>, c: seq<bv8>)
    ensures a + b + c == a + (b + c)
  {
  }

  /** Fetching the next block when the buffer is used up delivers nothing. */
  lemma RefillKeepsDelivered(r: Reader, enc: Encoder, blocks: MixBlocks, bytes: seq<bv8>)
    requires ReaderValid(r, enc, blocks) && r.bufPos >= |r.buffer|
    requires bytes == EncodeAll(enc, blocks(r.calls))
    ensures ReaderValid(Reader(bytes, 0, r.calls + 1), enc, blocks)
    ensures Delivered(Reader(bytes, 0, r.calls + 1), enc, blocks) == Delivered(r, enc, blocks)
  {
    var all := Produced(enc, blocks, r.calls);
    assert |r.buffer| - r.bufPos == 0;
    assert all[..|all|] == all;
    assert Produced(enc, blocks, r.calls + 1) == all + bytes;
    assert (all + bytes)[..|all|] == all;
  }

  /** Copying `k` unread bytes delivers exactly those bytes. */
  lemma CopyDelivers(r: Reader, enc: Encoder, blocks: MixBlocks, k: nat)
    requires ReaderValid(r, enc, blocks) && r.bufPos + k <= |r.buffer|
    ensures ReaderValid(r.(bufPos := r.bufPos + k), enc, blocks)
    ensures Delivered(r.(bufPos := r.bufPos + k), enc, blocks)
            == Delivered(r, enc, blocks) + r.buffer[r.bufPos..r.bufPos + k]
  {
    if r.calls > 0 {
      var before := Produced(enc, blocks, r.calls - 1);
      var all := Produced(enc, blocks, r.calls);
      assert all == before + r.buffer;
      var d := |all| - (|r.buffer| - r.bufPos);
      assert all[..d] == before + r.buffer[..r.bufPos];
      assert all[..d + k] == before + r.buffer[..r.bufPos + k];
      assert r.buffer[..r.bufPos + k] == r.buffer[..r.bufPos] + r.buffer[r.bufPos..r.bufPos + k];
    }
  }
}
