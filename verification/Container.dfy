/** Where an image container ends (internal/attachment/attachment.go, exactContainerEnd). */
module Container {

  newtype byte = x: int | 0 <= x < 256

  datatype Media = Jpeg | Webp | Png | OtherMedia

  // ----- big-endian lengths -----

  const LIMIT: int := 0x1_0000_0000

  function Big(b: seq<byte>): (n: int)
    requires |b| == 4
    ensures 0 <= n < LIMIT
  {
    ((b[0] as int * 256 + b[1] as int) * 256 + b[2] as int) * 256 + b[3] as int
  }

  function Encoded(n: int): (b: seq<byte>)
    requires 0 <= n < LIMIT
    ensures |b| == 4 && Big(b) == n
  {
    var high, low := n / 0x1_0000, n % 0x1_0000;
    assert high < 0x1_0000;
    [(high / 256) as byte, (high % 256) as byte, (low / 256) as byte, (low % 256) as byte]
  }

  lemma LastDigit(a: int, x: byte, b: int, y: byte)
    requires a * 256 + x as int == b * 256 + y as int
    ensures a == b && x == y
  {
  }

  lemma BigIsInjective(a: seq<byte>, b: seq<byte>)
    requires |a| == 4 && |b| == 4 && Big(a) == Big(b)
    ensures a == b
  {
    LastDigit((a[0] as int * 256 + a[1] as int) * 256 + a[2] as int, a[3], (b[0] as int * 256 + b[1] as int) * 256 + b[2] as int, b[3]);
    LastDigit(a[0] as int * 256 + a[1] as int, a[2], b[0] as int * 256 + b[1] as int, b[2]);
    LastDigit(a[0] as int, a[1], b[0] as int, b[1]);
  }

  // ----- chunk lists (section 3.2 and section 4.1.4 of RFC 2083) -----

  datatype Layout = Layout(kind: seq<byte>, data: seq<byte>, crc: seq<byte>) {
    predicate Valid() {
      |kind| == 4 && |crc| == 4 && |data| < LIMIT
    }
  }

  type Chunk = c: Layout | c.Valid() witness Layout([0, 0, 0, 0], [], [0, 0, 0, 0])

  const IEND: seq<byte> := [73, 69, 78, 68]
  const SIGNATURE: int := 8

  function Laid(c: Chunk): (r: seq<byte>)
    ensures |r| == 12 + |c.data|
  {
    Encoded(|c.data|) + c.kind + c.data + c.crc
  }

  function Serialized(cs: seq<Chunk>): seq<byte> {
    if cs == [] then [] else Laid(cs[0]) + Serialized(cs[1..])
  }

  /** The only IEND is the last chunk, and it is empty. */
  predicate Ended(cs: seq<Chunk>) {
    && cs != []
    && (forall i | 0 <= i < |cs| - 1 :: cs[i].kind != IEND)
    && cs[|cs| - 1].kind == IEND && cs[|cs| - 1].data == []
  }

  // ----- the walk -----

  /** What the loop decides from `position` on; a header beyond the end of the bytes fails. */
  predicate Walk(data: seq<byte>, size: int, position: int)
    requires 0 <= position
    decreases size - position
  {
    if position + 12 > size || position + 8 > |data| then false
    else
      var length := Big(data[position..position + 4]);
      var next := position + 12 + length;
      if next > size then false
      else if data[position + 4..position + 8] == IEND then length == 0 && next == size
      else Walk(data, size, next)
  }

  /** exactContainerEnd: `data` is what the reader holds, `size` the announced length. */
  method ExactContainerEnd(data: seq<byte>, size: int, media: Media) returns (ok: bool)
    ensures media == Png ==> ok == Walk(data, size, SIGNATURE)
    ensures media == Jpeg ==> (ok <==> size >= 2 && |data| >= 2 && data[|data| - 2..] == [0xff, 0xd9])
    ensures media == Webp ==>
              (ok <==> size >= 12 && |data| >= 8 && Big([data[7], data[6], data[5], data[4]]) + 8 == size)
    ensures media == OtherMedia ==> !ok
  {
    match media
    case Jpeg =>
      if size < 2 || |data| < 2 { return false; }
      return data[|data| - 2..] == [0xff, 0xd9];
    case Webp =>
      if size < 12 || |data| < 8 { return false; }
      return Big([data[7], data[6], data[5], data[4]]) + 8 == size;
    case Png =>
      var position := 8;
      var reader := 8;
      while position + 12 <= size
        invariant 8 <= position == reader
        invariant Walk(data, size, position) == Walk(data, size, SIGNATURE)
        decreases size - position
      {
        if reader + 8 > |data| { return false; }
        var header := data[reader..reader + 8];
        reader := reader + 8;
        var length := Big(header[..4]);
        assert header[..4] == data[position..position + 4] && header[4..8] == data[position + 4..position + 8];
        position := position + 12 + length;
        if length < 0 || position > size { return false; }
        reader := reader + length + 4;
        if header[4..8] == IEND { return length == 0 && position == size; }
      }
      return false;
    case OtherMedia =>
      return false;
  }

  // ----- the walk accepts exactly the ended chunk lists -----

  /** The chunk at `position`. */
  function ChunkAt(data: seq<byte>, position: int): (c: Chunk)
    requires 0 <= position && position + 12 <= |data|
    requires position + 12 + Big(data[position..position + 4]) <= |data|
    ensures |c.data| == Big(data[position..position + 4]) && c.kind == data[position + 4..position + 8]
  {
    var length := Big(data[position..position + 4]);
    Layout(data[position + 4..position + 8], data[position + 8..position + 8 + length], data[position + 8 + length..position + 12 + length])
  }

  lemma LaidAt(data: seq<byte>, position: int)
    requires 0 <= position && position + 12 <= |data|
    requires position + 12 + Big(data[position..position + 4]) <= |data|
    ensures Laid(ChunkAt(data, position)) == data[position..position + 12 + Big(data[position..position + 4])]
  {
    var length := Big(data[position..position + 4]);
    var c := ChunkAt(data, position);
    BigIsInjective(Encoded(|c.data|), data[position..position + 4]);
    assert data[position..position + 12 + length] ==
           data[position..position + 4] + data[position + 4..position + 8] + data[position + 8..position + 8 + length]
           + data[position + 8 + length..position + 12 + length];
  }

  lemma {:induction false} WalkParses(data: seq<byte>, size: int, position: int) returns (cs: seq<Chunk>)
    requires 0 <= position && size <= |data| && Walk(data, size, position)
    ensures Ended(cs) && position <= size && Serialized(cs) == data[position..size]
    decreases size - position
  {
    var length := Big(data[position..position + 4]);
    var next := position + 12 + length;
    var c := ChunkAt(data, position);
    LaidAt(data, position);
    if c.kind == IEND {
      cs := [c];
      assert Serialized(cs) == Laid(c) + Serialized(cs[1..]);
    } else {
      var rest := WalkParses(data, size, next);
      cs := [c] + rest;
      assert cs[1..] == rest;
      assert forall i | 1 <= i < |cs| :: cs[i] == rest[i - 1];
      assert data[position..size] == data[position..next] + data[next..size];
    }
  }

  lemma HeadOf(data: seq<byte>, position: int, c: Chunk, after: seq<byte>)
    requires 0 <= position <= |data| && data[position..] == Laid(c) + after
    ensures var next := position + 12 + |c.data|;
      && next <= |data| && data[next..] == after
      && Big(data[position..position + 4]) == |c.data| && data[position + 4..position + 8] == c.kind
  {
    var laid := Laid(c);
    assert data[position..position + 4] == data[position..][..4] == laid[..4] == Encoded(|c.data|);
    assert data[position + 4..position + 8] == data[position..][4..8] == laid[4..8] == c.kind;
    assert data[position + |laid|..] == data[position..][|laid|..] == after;
  }

  lemma EndedTail(cs: seq<Chunk>)
    requires Ended(cs)
    ensures Serialized(cs) == Laid(cs[0]) + Serialized(cs[1..])
    ensures if |cs| == 1 then cs[0].kind == IEND && cs[0].data == [] && Serialized(cs[1..]) == [] else cs[0].kind != IEND && Ended(cs[1..])
  {
  }

  lemma WalkStep(data: seq<byte>, size: int, position: int, length: int, kind: seq<byte>)
    requires 0 <= position && size <= |data| && 0 <= length && position + 12 + length <= size
    requires Big(data[position..position + 4]) == length && data[position + 4..position + 8] == kind
    ensures Walk(data, size, position) ==
              if kind == IEND then length == 0 && position + 12 + length == size else Walk(data, size, position + 12 + length)
  {
  }

  lemma WalkHead(data: seq<byte>, position: int, c: Chunk, after: seq<byte>)
    requires 0 <= position <= |data| && data[position..] == Laid(c) + after
    ensures var next := position + 12 + |c.data|;
      && next <= |data| && data[next..] == after
      && Walk(data, |data|, position) == if c.kind == IEND then c.data == [] && after == [] else Walk(data, |data|, next)
  {
    HeadOf(data, position, c, after);
    WalkStep(data, |data|, position, |c.data|, c.kind);
    hide Laid, Walk, Big;
  }

  /** On a chunk list followed by `trailer` the walk says yes exactly when nothing follows. */
  lemma {:induction false} WalkOfSerialized(data: seq<byte>, position: int, cs: seq<Chunk>, trailer: seq<byte>)
    requires Ended(cs) && 0 <= position <= |data| && data[position..] == Serialized(cs) + trailer
    ensures Walk(data, |data|, position) <==> trailer == []
    decreases |cs|
  {
    hide Laid, Walk, Serialized;
    assert cs != [];
    hide Ended;
    var c, rest := cs[0], Serialized(cs[1..]);
    EndedTail(cs);
    Associates(Laid(c), rest, trailer);
    WalkHead(data, position, c, rest + trailer);
    if |cs| > 1 { WalkOfSerialized(data, position + 12 + |c.data|, cs[1..], trailer); } else { Associates([], [], trailer); }
  }

  lemma Associates(a: seq<byte>, b: seq<byte>, c: seq<byte>)
    ensures (a + b) + c == a + (b + c) && [] + c == c
  {
  }

  lemma HeldIsAChunkList(data: seq<byte>, size: int)
    requires size <= |data|
    ensures Walk(data, size, SIGNATURE) <==>
              size >= SIGNATURE && exists cs :: Ended(cs) && Serialized(cs) == data[SIGNATURE..size]
  {
    if Walk(data, size, SIGNATURE) {
      var cs := WalkParses(data, size, SIGNATURE);
    }
    if size >= SIGNATURE && exists cs :: Ended(cs) && Serialized(cs) == data[SIGNATURE..size] {
      var cs :| Ended(cs) && Serialized(cs) == data[SIGNATURE..size];
      var exact := data[..size];
      assert exact[SIGNATURE..] == Serialized(cs) + [];
      WalkOfSerialized(exact, SIGNATURE, cs, []);
      WalkSees(data, size, SIGNATURE);
    }
  }

  /** The walk never looks beyond the announced size. */
  lemma {:induction false} WalkSees(data: seq<byte>, size: int, position: int)
    requires 0 <= position && 0 <= size <= |data|
    ensures Walk(data, size, position) == Walk(data[..size], size, position)
    decreases size - position
  {
    if position + 12 <= size {
      assert data[..size][position..position + 4] == data[position..position + 4];
      assert data[..size][position + 4..position + 8] == data[position + 4..position + 8];
      WalkSees(data, size, position + 12 + Big(data[position..position + 4]));
    }
  }

  /** The bytes filled up to the announced size; the walk skips what it does not hold. */
  function Padded(data: seq<byte>, size: int): (r: seq<byte>)
    ensures size <= |r|
  {
    if size <= |data| then data else data + seq(size - |data|, _ => 0)
  }

  /** Of the announced bytes only the checksum of the last chunk may be missing. */
  lemma {:induction false} WalkOfPadded(data: seq<byte>, size: int, position: int)
    requires 0 <= position
    ensures Walk(data, size, position) <==> size - |data| <= 4 && Walk(Padded(data, size), size, position)
    decreases size - position
  {
    if position + 12 <= size && position + 8 <= |data| {
      var padded := Padded(data, size);
      assert padded[position..position + 4] == data[position..position + 4];
      assert padded[position + 4..position + 8] == data[position + 4..position + 8];
      WalkOfPadded(data, size, position + 12 + Big(data[position..position + 4]));
    }
  }

  /** A PNG is accepted exactly when the bytes between its signature and the announced size
      are a chunk list whose only IEND is last and empty, and at most the checksum of that
      IEND is missing. */
  lemma PngIsAChunkList(data: seq<byte>, size: int)
    ensures Walk(data, size, SIGNATURE) <==>
              && SIGNATURE <= size <= |data| + 4
              && exists cs :: Ended(cs) && Serialized(cs) == Padded(data, size)[SIGNATURE..size]
  {
    WalkOfPadded(data, size, SIGNATURE);
    HeldIsAChunkList(Padded(data, size), size);
  }

  /** Serialising any ended chunk list is accepted, and no non-empty trailer survives. */
  lemma TrailersAreRejected(signature: seq<byte>, cs: seq<Chunk>, trailer: seq<byte>)
    requires |signature| == SIGNATURE && Ended(cs)
    ensures var file := signature + Serialized(cs) + trailer;
      Walk(file, |file|, SIGNATURE) <==> trailer == []
  {
    var file := signature + Serialized(cs) + trailer;
    assert file[SIGNATURE..] == Serialized(cs) + trailer;
    WalkOfSerialized(file, SIGNATURE, cs, trailer);
  }
}
