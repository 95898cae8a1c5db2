/** Save-state packing: a byte vector is stored as its length and a vector
    of 64-bit words, eight bytes to a word, the last word holding the
    remainder in its low bytes. The source converts whole chunks with the
    host's native byte order; the model fixes a little-endian host, on
    which a whole chunk and a remainder are packed alike. */
module BitPacked {
  import opened Bits

  /** `CHUNK_SIZE`: the bytes in one word. */
  const ChunkSize := 8

  /** 256 to the power `n`. */
  function Pow256(n: nat): (r: nat)
    ensures r >= 1
  {
    if n == 0 then 1 else 256 * Pow256(n - 1)
  }

  /** The largest power a word reaches: eight bytes make 64 bits. */
  lemma {:induction false} Pow256UpToEight(n: nat)
    requires n <= ChunkSize
    ensures Pow256(n) <= 0x1_0000_0000_0000_0000
    decreases ChunkSize - n
  {
    if n < ChunkSize {
      Pow256UpToEight(n + 1);
    } else {
      assert Pow256(1) == 0x100;
      assert Pow256(2) == 0x1_0000;
      assert Pow256(4) == 0x1_0000_0000 by {
        assert Pow256(3) == 0x100_0000;
      }
      assert Pow256(6) == 0x1_0000_0000_0000 by {
        assert Pow256(5) == 0x100_0000_0000;
      }
      assert Pow256(7) == 0x100_0000_0000_0000;
    }
  }

  /** A 64-bit word. */
  type Word = x: int | 0 <= x < 0x1_0000_0000_0000_0000

  /** A byte of the state, as a number. */
  type Byte = x: int | 0 <= x < 256

  /** The word holding `bs` in its low bytes, first byte lowest
      (`from_ne_bytes` on a little-endian host, and the remainder loop's
      `pack |= byte << (i * 8)`). */
  function WordOf(bs: seq<Byte>): (w: nat)
    ensures w < Pow256(|bs|)
  {
    if |bs| == 0 then 0 else bs[0] + 256 * WordOf(bs[1..])
  }

  /** Byte `i` of a word, lowest first: `(w >> (i * 8)) as u8`. */
  function ByteAt(w: nat, i: nat): (b: Byte)
  {
    if i == 0 then w % 256 else ByteAt(w / 256, i - 1)
  }

  /** The bytes of a word one at a time: the low `n + 1` bytes are the low
      `n` followed by byte `n`. */
  lemma BytesOfSnoc(w: nat, n: nat)
    ensures BytesOf(w, n + 1) == BytesOf(w, n) + [ByteAt(w, n)]
  {
  }

  /** The low `n` bytes of a word, lowest first (`to_ne_bytes` on a
      little-endian host when `n` is 8). */
  function BytesOf(w: nat, n: nat): (bs: seq<Byte>)
    ensures |bs| == n
  {
    seq(n, i requires 0 <= i < n => ByteAt(w, i))
  }

  /** Taking a word's bytes apart gives back the bytes it was built from. */
  lemma {:induction false} ByteAtWordOf(bs: seq<Byte>, i: nat)
    requires i < |bs|
    ensures ByteAt(WordOf(bs), i) == bs[i]
  {
    if i > 0 {
      ByteAtWordOf(bs[1..], i - 1);
      assert WordOf(bs) / 256 == WordOf(bs[1..]);
    }
  }

  lemma BytesOfWordOf(bs: seq<Byte>)
    ensures BytesOf(WordOf(bs), |bs|) == bs
  {
    forall i | 0 <= i < |bs|
      ensures BytesOf(WordOf(bs), |bs|)[i] == bs[i]
    {
      ByteAtWordOf(bs, i);
    }
  }

  /** The packed form: the byte count and the words. */
  datatype BitPackedState = BitPackedState(bytes: nat, data: seq<Word>)

  /** The words of `state`: one per whole chunk of eight bytes, in order,
      and one more for a non-empty remainder. */
  function Words(state: seq<Byte>): (ws: seq<Word>)
    ensures |ws| == (|state| + 7) / 8
    decreases |state|
  {
    if |state| == 0 then []
    else
      var n := if |state| < ChunkSize then |state| else ChunkSize;
      Pow256UpToEight(n);
      [WordOf(state[..n]) as Word] + Words(state[n..])
  }

  /** `pack`: the byte count and `ceil(len / 8)` words. */
  function Pack(state: seq<Byte>): (p: BitPackedState)
    ensures p.bytes == |state|
    ensures |p.data| == (|state| + 7) / 8
  {
    BitPackedState(|state|, Words(state))
  }

  /** The bytes of whole words, in order. */
  function Flat(ws: seq<Word>): (bs: seq<Byte>)
    ensures |bs| == ChunkSize * |ws|
  {
    if |ws| == 0 then [] else Flat(ws[..|ws| - 1]) + BytesOf(ws[|ws| - 1], ChunkSize)
  }

  lemma {:induction false} FlatAppend(a: seq<Word>, b: seq<Word>)
    ensures Flat(a + b) == Flat(a) + Flat(b)
    decreases |b|
  {
    if |b| > 0 {
      FlatAppend(a, b[..|b| - 1]);
      assert (a + b)[..|a + b| - 1] == a + b[..|b| - 1];
      assert (a + b)[|a + b| - 1] == b[|b| - 1];
      calc {
        Flat(a + b);
        Flat(a + b[..|b| - 1]) + BytesOf(b[|b| - 1], ChunkSize);
        Flat(a) + Flat(b[..|b| - 1]) + BytesOf(b[|b| - 1], ChunkSize);
        Flat(a) + (Flat(b[..|b| - 1]) + BytesOf(b[|b| - 1], ChunkSize));
      }
    } else {
      assert a + b == a;
    }
  }

  /** `unpack`: the first words, all but the last if the byte count leaves
      a remainder, give eight bytes each; the last word then gives the
      remainder's bytes. A remainder with no words at all underflows the
      source's `data.len() - 1`. */
  function Unpacked(p: BitPackedState): (r: Result<seq<Byte>>)
    ensures r.Panic? <==> p.bytes % ChunkSize != 0 && |p.data| == 0
  {
    var remainder := p.bytes % ChunkSize;
    if remainder != 0 && |p.data| == 0 then Panic
    else
      var take := |p.data| - (if remainder != 0 then 1 else 0);
      Ok(Flat(p.data[..take]) + (if remainder != 0 then BytesOf(p.data[|p.data| - 1], remainder) else []))
  }

  /** A state of at least one whole chunk packs as that chunk's word
      followed by the words of the rest. */
  lemma FirstChunk(state: seq<Byte>)
    requires |state| >= ChunkSize
    ensures Words(state)[0] == WordOf(state[..8])
    ensures Words(state)[1..] == Words(state[8..])
    ensures |state| / 8 == |state[8..]| / 8 + 1 && |state| % 8 == |state[8..]| % 8
  {
  }

  /** The byte layout of the whole chunks of a state of at least one whole
      chunk: its first chunk, then the rest's. */
  lemma FirstChunkFlat(state: seq<Byte>)
    requires |state| >= ChunkSize
    requires Flat(Words(state[8..])[..|state[8..]| / 8]) == state[8..][..8 * (|state[8..]| / 8)]
    ensures Flat(Words(state)[..|state| / 8]) == state[..8 * (|state| / 8)]
  {
    var rest := state[8..];
    FirstChunk(state);
    var ws := Words(state);
    var q := |rest| / 8;
    var tail := Words(rest)[..q];
    assert ws[..q + 1] == [ws[0]] + tail;
    FlatAppend([ws[0]], tail);
    FlatSingle(ws[0]);
    BytesOfWordOf(state[..8]);
    PrefixSplit(state, q);
  }

  lemma FlatSingle(w: Word)
    ensures Flat([w]) == BytesOf(w, ChunkSize)
  {
    assert [w][..0] == [];
  }

  lemma PrefixSplit(state: seq<Byte>, q: nat)
    requires 8 + 8 * q <= |state|
    ensures state[..8 * (q + 1)] == state[..8] + state[8..][..8 * q]
  {
    assert 8 * (q + 1) == 8 + 8 * q;
  }

  /** Packing in words: the whole chunks are the leading words, and a
      remainder is the last word's low bytes. */
  lemma {:induction false} WordsLayout(state: seq<Byte>)
    ensures Flat(Words(state)[..|state| / 8]) == state[..8 * (|state| / 8)]
    ensures |state| % 8 != 0 ==>
      BytesOf(Words(state)[|Words(state)| - 1], |state| % 8) == state[8 * (|state| / 8)..]
    decreases |state|
  {
    var ws := Words(state);
    if |state| == 0 {
    } else if |state| < ChunkSize {
      assert state[..|state|] == state;
      assert state[|state|..] == [];
      assert ws == [ws[0]] && ws[0] == WordOf(state);
      BytesOfWordOf(state);
    } else {
      var rest := state[8..];
      WordsLayout(rest);
      FirstChunk(state);
      FirstChunkFlat(state);
      if |state| % 8 != 0 {
        assert ws[|ws| - 1] == Words(rest)[|Words(rest)| - 1];
        assert state[8 * (|state| / 8)..] == rest[8 * (|rest| / 8)..];
      }
    }
  }

  /** `unpack(pack(x)) == x`, with and without a remainder. */
  lemma UnpackPack(state: seq<Byte>)
    ensures Unpacked(Pack(state)) == Ok(state)
  {
    WordsLayout(state);
    if |state| % 8 == 0 {
      UnpackWholeChunks(state);
    } else {
      UnpackWithRemainder(state);
    }
  }

  /** A state of whole chunks unpacks from all its words. */
  lemma UnpackWholeChunks(state: seq<Byte>)
    requires |state| % 8 == 0
    requires Flat(Words(state)[..|state| / 8]) == state[..8 * (|state| / 8)]
    ensures Unpacked(Pack(state)) == Ok(state)
  {
    var p := Pack(state);
    var ws := Words(state);
    var q := |state| / 8;
    WholeChunkCount(|state|);
    assert p.data == ws;
    WholePrefix(ws, q);
    WholePrefix(state, 8 * q);
    UnpackAll(p);
  }

  lemma WholePrefix<T>(s: seq<T>, k: nat)
    requires k == |s|
    ensures s[..k] == s
  {
  }

  /** `unpack` of a byte count with no remainder: every word's bytes. */
  lemma UnpackAll(p: BitPackedState)
    requires p.bytes % 8 == 0
    ensures Unpacked(p) == Ok(Flat(p.data))
  {
    assert p.data[..|p.data|] == p.data;
    assert Flat(p.data) + [] == Flat(p.data);
  }

  lemma WholeChunkCount(n: nat)
    requires n % 8 == 0
    ensures (n + 7) / 8 == n / 8 && 8 * (n / 8) == n
  {
  }

  /** A state with a remainder unpacks its whole chunks from the leading
      words and the remainder from the last. */
  lemma UnpackWithRemainder(state: seq<Byte>)
    requires |state| % 8 != 0
    requires Flat(Words(state)[..|state| / 8]) == state[..8 * (|state| / 8)]
    requires BytesOf(Words(state)[|Words(state)| - 1], |state| % 8) == state[8 * (|state| / 8)..]
    ensures Unpacked(Pack(state)) == Ok(state)
  {
    var p := Pack(state);
    var q := |state| / 8;
    var ws := Words(state);
    PartialChunkCount(|state|);
    assert p.data == ws && |ws| - 1 == q;
    assert ws[..|ws| - 1] == ws[..q];
    UnpackSplit(p, state[..8 * q], state[8 * q..]);
    SplitJoin(state, 8 * q);
  }

  /** `unpack` of a byte count with a remainder and at least one word: the
      leading words' bytes, then the remainder's from the last word. */
  lemma UnpackSplit(p: BitPackedState, whole: seq<Byte>, rest: seq<Byte>)
    requires p.bytes % 8 != 0 && |p.data| > 0
    requires Flat(p.data[..|p.data| - 1]) == whole
    requires BytesOf(p.data[|p.data| - 1], p.bytes % 8) == rest
    ensures Unpacked(p) == Ok(whole + rest)
  {
  }

  lemma SplitJoin(s: seq<Byte>, k: nat)
    requires k <= |s|
    ensures s[..k] + s[k..] == s
  {
  }

  lemma PartialChunkCount(n: nat)
    requires n % 8 != 0
    ensures (n + 7) / 8 - 1 == n / 8 && 8 * (n / 8) < n
  {
  }

  /** `unpack`, as the source runs it: the leading words' bytes, then a
      loop over the remainder's bytes of the last word. */
  method Unpack(p: BitPackedState) returns (r: Result<seq<Byte>>)
    ensures r == Unpacked(p)
  {
    var remainder := p.bytes % ChunkSize;
    var remaining := remainder != 0;
    if remaining && |p.data| == 0 {
      return Panic;
    }
    var take := |p.data| - (if remaining then 1 else 0);
    var unpacked: seq<Byte> := [];
    var i := 0;
    assert p.data[..0] == [];
    while i < take
      invariant 0 <= i <= take
      invariant unpacked == Flat(p.data[..i])
    {
      assert p.data[..i + 1][..i] == p.data[..i];
      unpacked := unpacked + BytesOf(p.data[i], ChunkSize);
      i := i + 1;
    }
    if remaining {
      var rest: seq<Byte> := [];
      var packed := p.data[|p.data| - 1];
      for j := 0 to remainder
        invariant rest == BytesOf(packed, j)
      {
        BytesOfSnoc(packed, j);
        rest := rest + [ByteAt(packed, j)];
      }
      unpacked := unpacked + rest;
    } else {
      assert unpacked + [] == unpacked;
    }
    r := Ok(unpacked);
  }
}
