/**
 How the socket tracer cuts a system call's data into perf events: a plain buffer into chunks
 (`submit_data_event`), an iovec list into slices (`submit_data_event_iovecs`).
 */
module DataEvents {
  import opened Common

  const MAX_MSG_SIZE: nat := 30720
  const CHUNK_LIMIT: nat := 84
  const LOOP_LIMIT: nat := 882
  const READ_LIMIT: nat := 0x7fff_ffff

  /** User memory: the readable addresses and what they hold. */
  type Memory = map<int, bv8>

  function Peek(mem: Memory, addr: int): bv8 { if addr in mem then mem[addr] else 0 }

  predicate Readable(mem: Memory, addr: nat, n: nat) { forall a :: addr <= a < addr + n ==> a in mem }

  function Bytes(mem: Memory, addr: nat, n: nat): seq<bv8> { seq(n, i => Peek(mem, addr + i)) }

  function Min(a: nat, b: nat): nat { if a <= b then a else b }

  /** One perf event: `position`, `msg_size`, `msg_buf_size` and that many bytes of `msg`. */
  datatype Emitted = Emitted(position: nat, msgSize: nat, msgBufSize: nat, payload: seq<bv8>)

  function EventFor(mem: Memory, addr: nat, n: nat, position: nat): Emitted {
    Emitted(position, n, Min(n, MAX_MSG_SIZE), Bytes(mem, addr, Min(n, MAX_MSG_SIZE)))
  }

  /** Whether a piece of this size becomes an event: empty and oversized pieces do not. */
  predicate Fits(n: nat) { 0 < n <= READ_LIMIT }

  function Piece(mem: Memory, addr: nat, n: nat, position: nat): seq<Emitted> {
    if Fits(n) then [EventFor(mem, addr, n, position)] else []
  }

  predicate PieceReadable(mem: Memory, addr: nat, n: nat) { Fits(n) ==> Readable(mem, addr, Min(n, MAX_MSG_SIZE)) }

  // ---------------------------------------------------------------------------
  // A plain buffer

  /** Where chunk `k` starts; the literal, equal to `MAX_MSG_SIZE`, keeps the arithmetic linear. */
  function Offset(k: nat): nat { k * 30720 }

  /** The number of chunks a buffer is cut into. */
  function ChunkCount(n: nat): nat { if n == 0 then 0 else Min(CHUNK_LIMIT, (n - 1) / 30720 + 1) }

  /** There is a chunk `k` when it starts inside the buffer. */
  lemma {:induction false} ChunkStarts(n: nat, k: nat)
    ensures k < ChunkCount(n) <==> k < CHUNK_LIMIT && Offset(k) < n
  {
    if n > 0 && Offset(k) < n {
      assert Offset(k) <= n - 1;
      assert k <= (n - 1) / 30720;
    }
  }

  /** The size of chunk `k`; the last one takes whatever is left. */
  function ChunkSize(n: nat, k: nat): nat
    requires Offset(k) < n
  {
    if k == CHUNK_LIMIT - 1 then n - Offset(k) else Min(MAX_MSG_SIZE, n - Offset(k))
  }

  function ChunkEvent(mem: Memory, addr: nat, n: nat, position: nat, k: nat): Emitted
    requires Offset(k) < n
  {
    EventFor(mem, addr + Offset(k), ChunkSize(n, k), position)
  }

  /** Buffers longer than this lose their last chunk. */
  const CHUNK_REACH: nat := 83 * 30720 + 0x7fff_ffff

  /** Chunk `k` becomes an event. */
  predicate Emits(n: nat, k: nat) {
    k < CHUNK_LIMIT && Offset(k) < n && (k == CHUNK_LIMIT - 1 ==> n <= CHUNK_REACH)
  }

  /** The events of the chunks from `k` on. */
  function ChunksFrom(mem: Memory, addr: nat, n: nat, position: nat, k: nat): seq<Emitted>
    decreases n - Offset(k)
  {
    if Emits(n, k) then [ChunkEvent(mem, addr, n, position, k)] + ChunksFrom(mem, addr, n, position, k + 1) else []
  }

  /** The events of a buffer of `n` bytes at `addr`. */
  function Chunks(mem: Memory, addr: nat, n: nat, position: nat): seq<Emitted> { ChunksFrom(mem, addr, n, position, 0) }

  /** The bytes those events carry. */
  function CopiedBytes(n: nat): nat {
    if n <= CHUNK_REACH then Min(n, Offset(CHUNK_LIMIT)) else Offset(CHUNK_LIMIT - 1)
  }

  function TotalSize(es: seq<Emitted>): nat { if es == [] then 0 else es[0].msgSize + TotalSize(es[1..]) }

  function Payloads(es: seq<Emitted>): seq<bv8> { if es == [] then [] else es[0].payload + Payloads(es[1..]) }

  lemma {:induction false} Cons(e: Emitted, es: seq<Emitted>)
    ensures TotalSize([e] + es) == e.msgSize + TotalSize(es)
    ensures Payloads([e] + es) == e.payload + Payloads(es)
  {
    assert ([e] + es)[1..] == es;
  }

  /** How much of `whole` is left at chunk `k`. */
  function Left(whole: nat, k: nat): nat { if Offset(k) <= whole then whole - Offset(k) else 0 }

  /** The bytes announced from chunk `k` on. */
  function SizeLeft(n: nat, k: nat): nat {
    if k >= CHUNK_LIMIT then 0 else if n <= CHUNK_REACH then Left(n, k) else Left(Offset(CHUNK_LIMIT - 1), k)
  }

  lemma {:induction false} SizesAddUp(mem: Memory, addr: nat, n: nat, position: nat, k: nat)
    ensures TotalSize(ChunksFrom(mem, addr, n, position, k)) == SizeLeft(n, k)
    decreases CHUNK_LIMIT - k
  {
    if !Emits(n, k) {
    } else {
      Cons(ChunkEvent(mem, addr, n, position, k), ChunksFrom(mem, addr, n, position, k + 1));
      SizesAddUp(mem, addr, n, position, k + 1);
      assert SizeLeft(n, k) == ChunkSize(n, k) + SizeLeft(n, k + 1);
    }
  }

  lemma {:induction false} CountsAddUp(mem: Memory, addr: nat, n: nat, position: nat, k: nat)
    ensures |ChunksFrom(mem, addr, n, position, k)| ==
            Min(CHUNK_LIMIT - if n <= CHUNK_REACH then 0 else 1, ChunkCount(n)) - k ||
            ChunksFrom(mem, addr, n, position, k) == []
    ensures ChunksFrom(mem, addr, n, position, k) == [] <==> !Emits(n, k)
    decreases CHUNK_LIMIT - k
  {
    if !Emits(n, k) {
    } else {
      CountsAddUp(mem, addr, n, position, k + 1);
      ChunkStarts(n, k);
      ChunkStarts(n, k + 1);
    }
  }

  lemma {:induction false} BytesJoin(mem: Memory, addr: nat, a: nat, b: nat)
    ensures Bytes(mem, addr, a) + Bytes(mem, addr + a, b) == Bytes(mem, addr, a + b)
  {
  }

  /** The payloads from chunk `k` on are the bytes from its offset on. */
  lemma {:induction false} PayloadsAddUp(mem: Memory, addr: nat, n: nat, position: nat, k: nat)
    ensures Payloads(ChunksFrom(mem, addr, n, position, k)) == Bytes(mem, addr + Offset(k), Left(CopiedBytes(n), k))
    decreases CHUNK_LIMIT - k
  {
    if !Emits(n, k) {
    } else {
      var copied := Min(ChunkSize(n, k), MAX_MSG_SIZE);
      Cons(ChunkEvent(mem, addr, n, position, k), ChunksFrom(mem, addr, n, position, k + 1));
      PayloadsAddUp(mem, addr, n, position, k + 1);
      assert Left(CopiedBytes(n), k) == copied + Left(CopiedBytes(n), k + 1);
      assert copied == MAX_MSG_SIZE || Left(CopiedBytes(n), k + 1) == 0;
      BytesJoin(mem, addr + Offset(k), copied, Left(CopiedBytes(n), k + 1));
    }
  }

  lemma {:induction false} ChunksBounded(mem: Memory, addr: nat, n: nat, position: nat, k: nat)
    ensures forall e :: e in ChunksFrom(mem, addr, n, position, k) ==>
              0 < |e.payload| == e.msgBufSize <= MAX_MSG_SIZE && e.position == position
    decreases CHUNK_LIMIT - k
  {
    if !Emits(n, k) {
    } else {
      ChunksBounded(mem, addr, n, position, k + 1);
    }
  }

  /**
   Chunking: for every buffer size, the events are min(84, ceil(n / 30720)) in number with sizes
   adding up to the whole if and only if the buffer does not exceed `CHUNK_REACH`, which covers
   everything a system call can return. No payload exceeds 30720 bytes, and the payloads
   concatenate to the leading bytes of the buffer.
   */
  lemma {:induction false} Chunking(mem: Memory, addr: nat, n: nat, position: nat)
    ensures var es := Chunks(mem, addr, n, position);
            && (|es| == ChunkCount(n) <==> n <= CHUNK_REACH)
            && (TotalSize(es) == n <==> n <= CHUNK_REACH)
            && Payloads(es) == Bytes(mem, addr, CopiedBytes(n))
            && (forall e :: e in es ==> 0 < |e.payload| == e.msgBufSize <= 30720)
            && (n <= 0x7fff_ffff ==>
                  && |es| == Min(84, (n + 30719) / 30720) && TotalSize(es) == n
                  && Payloads(es) == Bytes(mem, addr, Min(n, 84 * 30720)))
  {
    SizesAddUp(mem, addr, n, position, 0);
    PayloadsAddUp(mem, addr, n, position, 0);
    CountsAddUp(mem, addr, n, position, 0);
    ChunksBounded(mem, addr, n, position, 0);
    ChunkStarts(n, 0);
    ChunkStarts(n, CHUNK_LIMIT - 1);
  }

  /** One turn of the chunk loop, from `sent` bytes on: it submits chunk `i`, or a piece that emits nothing. */
  lemma {:induction false} ChunkTurn(n: nat, i: nat, sent: nat, size: nat)
    requires i < CHUNK_LIMIT && sent == Min(n, Offset(i))
    requires size == if n - sent > MAX_MSG_SIZE && i != CHUNK_LIMIT - 1 then MAX_MSG_SIZE else n - sent
    ensures if Emits(n, i) then sent == Offset(i) && size == ChunkSize(n, i) && Fits(size) else !Fits(size)
    ensures sent + size == if i + 1 == CHUNK_LIMIT then n else Min(n, Offset(i + 1))
  {
  }

  lemma {:induction false} ReadableTurn(mem: Memory, addr: nat, n: nat, i: nat)
    requires i < CHUNK_LIMIT
    ensures Emits(n, i) ==>
              (Readable(mem, addr, Min(CopiedBytes(n), Offset(i + 1))) <==>
               && Readable(mem, addr, Min(CopiedBytes(n), Offset(i)))
               && PieceReadable(mem, addr + Offset(i), ChunkSize(n, i)))
    ensures !Emits(n, i) ==> Min(CopiedBytes(n), Offset(i)) == CopiedBytes(n)
  {
  }

  /** Chunk `i` is the next event; the rest follow. */
  lemma {:induction false} ChunkNext(
    out: seq<Emitted>, mem: Memory, addr: nat, n: nat, position: nat, i: nat, size: nat)
    requires if Emits(n, i) then size == ChunkSize(n, i) && Fits(size) else !Fits(size)
    ensures out + ChunksFrom(mem, addr, n, position, i) ==
            (out + Piece(mem, addr + Offset(i), size, position)) + ChunksFrom(mem, addr, n, position, i + 1)
  {
    if !Emits(n, i) { assert !Emits(n, i + 1); }
  }

  /** One `submit_data_event` call: the memory it reads, its buffer, the position it announces, and the ring before. */
  datatype Buffer = Buffer(mem: Memory, addr: nat, n: nat, position: nat, before: seq<Emitted>) {
    ghost predicate AllReadable() { Readable(mem, addr, CopiedBytes(n)) }

    /** The ring with all events of the buffer. */
    function Filled(): seq<Emitted> { before + Chunks(mem, addr, n, position) }

    ghost predicate Placed(i: nat, sent: nat) { sent == if i == CHUNK_LIMIT then n else Min(n, Offset(i)) }

    ghost predicate OutputSoFar(i: nat, ring: seq<Emitted>) {
      before <= ring && Filled() == ring + ChunksFrom(mem, addr, n, position, i)
    }

    ghost predicate ReadSoFar(i: nat) { Readable(mem, addr, Min(CopiedBytes(n), Offset(i))) }

    /** After `i` turns and `sent` bytes, the ring has the leading part of the events, and their data was readable. */
    ghost predicate SoFar(i: nat, sent: nat, ring: seq<Emitted>) {
      Placed(i, sent) && OutputSoFar(i, ring) && ReadSoFar(i)
    }

    lemma {:induction false} Begin()
      ensures SoFar(0, 0, before)
    {
    }

    lemma {:induction false} Advance(i: nat, sent: nat, ring: seq<Emitted>, size: nat, ring': seq<Emitted>)
      requires i < CHUNK_LIMIT && SoFar(i, sent, ring)
      requires size == TurnSize(n, i, sent) && PieceReadable(mem, addr + sent, size)
      requires ring' == ring + Piece(mem, addr + sent, size, position)
      ensures sent + size <= n && SoFar(i + 1, sent + size, ring')
    {
      ChunkTurn(n, i, sent, size);
      ReadableTurn(mem, addr, n, i);
      ChunkNext(ring, mem, addr, n, position, i, size);
    }

    lemma {:induction false} Fail(i: nat, sent: nat, ring: seq<Emitted>, size: nat)
      requires i < CHUNK_LIMIT && SoFar(i, sent, ring)
      requires size == TurnSize(n, i, sent) && !PieceReadable(mem, addr + sent, size)
      ensures !AllReadable() && before <= ring <= Filled()
    {
      ChunkTurn(n, i, sent, size);
      ReadableTurn(mem, addr, n, i);
    }

    lemma {:induction false} Finish(sent: nat, ring: seq<Emitted>)
      requires SoFar(CHUNK_LIMIT, sent, ring)
      ensures AllReadable() && ring == Filled()
    {
    }
  }

  /** The size the loop hands on in turn `i`. */
  function TurnSize(n: nat, i: nat, sent: nat): nat
    requires sent <= n
  {
    if n - sent > MAX_MSG_SIZE && i != CHUNK_LIMIT - 1 then MAX_MSG_SIZE else n - sent
  }

  // ---------------------------------------------------------------------------
  // Positions

  /** The intervals [position, position + msg_size) of the events cover [from, to) without gap or overlap, in order. */
  ghost predicate Tiles(es: seq<Emitted>, from: nat, to: nat) {
    if es == [] then from == to
    else es[0].position == from && es[0].msgSize > 0 && Tiles(es[1..], from + es[0].msgSize, to)
  }

  lemma {:induction false} TilesCons(e: Emitted, rest: seq<Emitted>, from: nat, to: nat)
    ensures Tiles([e] + rest, from, to) <==> e.position == from && e.msgSize > 0 && Tiles(rest, from + e.msgSize, to)
  {
    assert ([e] + rest)[1..] == rest;
  }

  /** The chunks of a plain buffer all carry the same position, so they tile the data only when there is at most one. */
  lemma {:induction false} PlainPositions(mem: Memory, addr: nat, n: nat, position: nat)
    ensures Tiles(Chunks(mem, addr, n, position), position, position + n) <==> n <= 30720
  {
    var rest := ChunksFrom(mem, addr, n, position, 1);
    ChunksBounded(mem, addr, n, position, 1);
    assert Emits(n, 1) <==> n > MAX_MSG_SIZE;
    if n > 0 {
      assert Chunks(mem, addr, n, position) == [ChunkEvent(mem, addr, n, position, 0)] + rest;
      TilesCons(ChunkEvent(mem, addr, n, position, 0), rest, position, position + n);
      if n > MAX_MSG_SIZE { assert rest[0] in rest; }
    }
  }

  // ---------------------------------------------------------------------------
  // An iovec list

  datatype IoVec = IoVec(base: nat, len: nat)

  /** At most `limit` leading iovecs. */
  function Leading(iovs: seq<IoVec>, limit: nat): seq<IoVec> { iovs[..Min(limit, |iovs|)] }

  function Lengths(iovs: seq<IoVec>): nat { if iovs == [] then 0 else iovs[0].len + Lengths(iovs[1..]) }

  /** The data the iovecs describe, one after the other. */
  function Stream(mem: Memory, iovs: seq<IoVec>): seq<bv8> {
    if iovs == [] then [] else Bytes(mem, iovs[0].base, iovs[0].len) + Stream(mem, iovs[1..])
  }

  /** The events of the remaining iovecs when `room` bytes are still to be sent. */
  function Gather(mem: Memory, iovs: seq<IoVec>, room: nat, position: nat): seq<Emitted> {
    if iovs == [] || room == 0 then []
    else
      var size := Min(room, iovs[0].len);
      Piece(mem, iovs[0].base, size, position) + Gather(mem, iovs[1..], room - size, position + size)
  }

  /** No slice is longer than one read may be. */
  predicate NoOversize(iovs: seq<IoVec>, room: nat) {
    if iovs == [] || room == 0 then true
    else Min(room, iovs[0].len) <= READ_LIMIT && NoOversize(iovs[1..], room - Min(room, iovs[0].len))
  }

  lemma {:induction false} SmallTotalFits(iovs: seq<IoVec>, room: nat)
    requires room <= 0x7fff_ffff
    ensures NoOversize(iovs, room)
  {
    if iovs == [] || room == 0 {
    } else {
      SmallTotalFits(iovs[1..], room - Min(room, iovs[0].len));
    }
  }

  lemma {:induction false} GatherAhead(mem: Memory, iovs: seq<IoVec>, room: nat, position: nat)
    ensures forall e :: e in Gather(mem, iovs, room, position) ==> e.position >= position
  {
    if iovs == [] || room == 0 {
    } else {
      var size := Min(room, iovs[0].len);
      GatherAhead(mem, iovs[1..], room - size, position + size);
    }
  }

  /** A piece before events further on tiles exactly when it is not left out; leaving it out leaves a gap. */
  lemma {:induction false} TilesPiece(mem: Memory, addr: nat, size: nat, position: nat, rest: seq<Emitted>, end: nat)
    requires position + size <= end
    requires forall e :: e in rest ==> e.position >= position + size
    ensures Tiles(Piece(mem, addr, size, position) + rest, position, end) <==>
            size <= READ_LIMIT && Tiles(rest, position + size, end)
  {
    if Fits(size) {
      TilesCons(EventFor(mem, addr, size, position), rest, position, end);
    } else {
      assert Piece(mem, addr, size, position) + rest == rest;
      if size > 0 && rest != [] { assert rest[0] in rest; }
    }
  }

  lemma {:induction false} TilesFirst(mem: Memory, iovs: seq<IoVec>, room: nat, position: nat, end: nat)
    requires iovs != [] && room > 0 && position + Min(room, iovs[0].len) <= end
    ensures var size := Min(room, iovs[0].len);
            Tiles(Gather(mem, iovs, room, position), position, end) <==>
            size <= READ_LIMIT && Tiles(Gather(mem, iovs[1..], room - size, position + size), position + size, end)
  {
    var size := Min(room, iovs[0].len);
    GatherAhead(mem, iovs[1..], room - size, position + size);
    TilesPiece(mem, iovs[0].base, size, position, Gather(mem, iovs[1..], room - size, position + size), end);
  }

  /** The events of the call tile the interval up to `end`. */
  ghost predicate TilesTo(mem: Memory, iovs: seq<IoVec>, room: nat, position: nat, end: nat) {
    Tiles(Gather(mem, iovs, room, position), position, end)
  }

  lemma {:induction false} TilesStep(mem: Memory, iovs: seq<IoVec>, room: nat, position: nat, end: nat)
    requires end == position + Min(room, Lengths(iovs))
    ensures if iovs == [] || room == 0 then TilesTo(mem, iovs, room, position, end)
            else
              var size := Min(room, iovs[0].len);
              && end == position + size + Min(room - size, Lengths(iovs[1..]))
              && (TilesTo(mem, iovs, room, position, end) <==>
                  size <= READ_LIMIT && TilesTo(mem, iovs[1..], room - size, position + size, end))
  {
    if iovs != [] && room > 0 { TilesFirst(mem, iovs, room, position, end); }
  }

  /** By the step, slice after slice. */
  lemma {:induction false} TilesAll(mem: Memory, iovs: seq<IoVec>, room: nat, position: nat, end: nat)
    requires end == position + Min(room, Lengths(iovs))
    ensures TilesTo(mem, iovs, room, position, end) <==> NoOversize(iovs, room)
    decreases |iovs|
  {
    TilesStep(mem, iovs, room, position, end);
    if iovs == [] || room == 0 {
    } else {
      var size := Min(room, iovs[0].len);
      TilesAll(mem, iovs[1..], room - size, position + size, end);
    }
  }

  /**
   Gather tiling: for every iovec list and every total, the events tile the interval the call
   transferred, as far as the iovecs hold it, if and only if no slice is longer than 0x7fffffff.
   */
  lemma {:induction false} GatherTiles(mem: Memory, iovs: seq<IoVec>, room: nat, position: nat)
    ensures Tiles(Gather(mem, iovs, room, position), position, position + Min(room, Lengths(iovs))) <==>
            NoOversize(iovs, room)
  {
    TilesAll(mem, iovs, room, position, position + Min(room, Lengths(iovs)));
  }

  /** An event carries the first bytes, up to 30720, of its own slice of the data. */
  ghost predicate CarriesSlice(e: Emitted, data: seq<bv8>, start: nat) {
    && start <= e.position
    && e.position - start + e.msgSize <= |data|
    && e.msgBufSize == Min(e.msgSize, 30720)
    && e.payload == data[e.position - start..e.position - start + e.msgBufSize]
  }

  lemma {:induction false} SliceOfTail(head: seq<bv8>, tail: seq<bv8>, at: nat, n: nat)
    requires at + n <= |tail|
    ensures (head + tail)[|head| + at..|head| + at + n] == tail[at..at + n]
  {
    var left, right := (head + tail)[|head| + at..|head| + at + n], tail[at..at + n];
    forall k | 0 <= k < n ensures left[k] == right[k] {
      assert (head + tail)[|head| + at + k] == tail[at + k];
    }
  }

  lemma {:induction false} SliceAfter(e: Emitted, head: seq<bv8>, tail: seq<bv8>, start: nat)
    requires CarriesSlice(e, tail, start + |head|)
    ensures CarriesSlice(e, head + tail, start)
  {
    SliceOfTail(head, tail, e.position - start - |head|, e.msgBufSize);
  }

  lemma {:induction false} SliceFirst(mem: Memory, iov: IoVec, size: nat, tail: seq<bv8>, start: nat)
    requires size <= iov.len
    ensures CarriesSlice(EventFor(mem, iov.base, size, start), Bytes(mem, iov.base, iov.len) + tail, start)
  {
    var data := Bytes(mem, iov.base, iov.len) + tail;
    assert Bytes(mem, iov.base, Min(size, MAX_MSG_SIZE)) == data[..Min(size, MAX_MSG_SIZE)];
  }

  /** Events that carry their slices of the tail carry their slices of the whole. */
  lemma {:induction false} SlicesAfter(es: seq<Emitted>, head: seq<bv8>, tail: seq<bv8>, start: nat)
    requires forall e :: e in es ==> CarriesSlice(e, tail, start + |head|)
    ensures forall e :: e in es ==> CarriesSlice(e, head + tail, start)
  {
    forall e | e in es ensures CarriesSlice(e, head + tail, start) { SliceAfter(e, head, tail, start); }
  }

  /** The events after the first iovec: if the iovec is not used up there are none. */
  lemma {:induction false} RestCarries(
    mem: Memory, iov: IoVec, tail: seq<bv8>, rest: seq<Emitted>, size: nat, start: nat)
    requires size <= iov.len && (size < iov.len ==> rest == [])
    requires forall e :: e in rest ==> CarriesSlice(e, tail, start + size)
    ensures forall e :: e in rest ==> CarriesSlice(e, Bytes(mem, iov.base, iov.len) + tail, start)
  {
    if size == iov.len { SlicesAfter(rest, Bytes(mem, iov.base, iov.len), tail, start); }
  }

  /** Each event's payload is the first min(msg_size, 30720) bytes of its slice of the concatenated data. */
  lemma {:induction false} GatherPayloads(mem: Memory, iovs: seq<IoVec>, room: nat, position: nat)
    ensures forall e :: e in Gather(mem, iovs, room, position) ==> CarriesSlice(e, Stream(mem, iovs), position)
  {
    if iovs == [] || room == 0 {
    } else {
      var size := Min(room, iovs[0].len);
      var rest := Gather(mem, iovs[1..], room - size, position + size);
      assert Gather(mem, iovs, room, position) == Piece(mem, iovs[0].base, size, position) + rest;
      GatherPayloads(mem, iovs[1..], room - size, position + size);
      SliceFirst(mem, iovs[0], size, Stream(mem, iovs[1..]), position);
      RestCarries(mem, iovs[0], Stream(mem, iovs[1..]), rest, size, position);
    }
  }

  /**
   What one call emits, for every iovec list and every total up to 0x7fffffff: the events tile the
   transferred interval, as far as the iovecs hold it, and each carries the first bytes of its own
   slice of their data. Of a list with more than 882 iovecs, the first 882 count.
   */
  lemma {:induction false} Gathering(mem: Memory, iovs: seq<IoVec>, total: nat, base: nat)
    requires total <= 0x7fff_ffff
    ensures var es := Gather(mem, Leading(iovs, 882), total, base);
            var used := if |iovs| <= 882 then iovs else iovs[..882];
            && Tiles(es, base, base + Min(total, Lengths(used)))
            && forall e :: e in es ==> CarriesSlice(e, Stream(mem, used), base)
  {
    var used := if |iovs| <= 882 then iovs else iovs[..882];
    assert Leading(iovs, 882) == used;
    SmallTotalFits(used, total);
    GatherTiles(mem, used, total, base);
    GatherPayloads(mem, used, total, base);
  }

  // ---------------------------------------------------------------------------
  // The program

  /** From iovec `i` on, every iovec the loop reaches can be read, and so can its data; those in `faulty` cannot. */
  ghost predicate GatherReadable(mem: Memory, iovs: seq<IoVec>, faulty: set<nat>, i: nat, room: nat)
    decreases |iovs| - i
  {
    i >= |iovs| || room == 0 ||
    var size := Min(room, iovs[i].len);
    i !in faulty && PieceReadable(mem, iovs[i].base, size) && GatherReadable(mem, iovs, faulty, i + 1, room - size)
  }

  /** One `submit_data_event_iovecs` call: what it reads, how much it sends, where it starts, and the ring before. */
  datatype Call = Call(
    mem: Memory, iovs: seq<IoVec>, faulty: set<nat>, total: nat, start: nat, before: seq<Emitted>)
  {
    ghost predicate AllReadable() { GatherReadable(mem, iovs, faulty, 0, total) }

    /** The ring with all events of the call. */
    function Filled(): seq<Emitted> { before + Gather(mem, iovs, total, start) }

    /** After `i` iovecs and `sent` bytes, what is left of the total and of the lengths fits what there was. */
    ghost predicate Placed(i: nat, sent: nat) {
      && i <= |iovs| && sent <= total
      && sent + Min(total - sent, Lengths(iovs[i..])) == Min(total, Lengths(iovs))
    }

    ghost predicate OutputSoFar(i: nat, sent: nat, ring: seq<Emitted>)
      requires Placed(i, sent)
    {
      before <= ring && Filled() == ring + Gather(mem, iovs[i..], total - sent, start + sent)
    }

    ghost predicate ReadSoFar(i: nat, sent: nat)
      requires Placed(i, sent)
    {
      AllReadable() <==> GatherReadable(mem, iovs, faulty, i, total - sent)
    }

    /** After `i` iovecs and `sent` bytes, the ring has the leading part of what there is to emit. */
    ghost predicate SoFar(i: nat, sent: nat, ring: seq<Emitted>) {
      Placed(i, sent) && OutputSoFar(i, sent, ring) && ReadSoFar(i, sent)
    }

    lemma {:induction false} Begin()
      ensures SoFar(0, 0, before)
    {
      assert iovs[0..] == iovs;
    }

    lemma {:induction false} Advance(i: nat, sent: nat, ring: seq<Emitted>, sent': nat, ring': seq<Emitted>)
      requires SoFar(i, sent, ring)
      requires i < |iovs| && sent < total && sent' == sent + Min(total - sent, iovs[i].len)
      requires i !in faulty && PieceReadable(mem, iovs[i].base, sent' - sent)
      requires ring' == ring + Piece(mem, iovs[i].base, sent' - sent, start + sent)
      ensures SoFar(i + 1, sent', ring')
    {
      assert iovs[i..][1..] == iovs[i + 1..];
      var piece := Piece(mem, iovs[i].base, sent' - sent, start + sent);
      var rest := Gather(mem, iovs[i + 1..], total - sent', start + sent');
      assert Gather(mem, iovs[i..], total - sent, start + sent) == piece + rest;
      assert ring + (piece + rest) == (ring + piece) + rest;
    }

    lemma {:induction false} Fail(i: nat, sent: nat, ring: seq<Emitted>)
      requires SoFar(i, sent, ring)
      requires i < |iovs| && sent < total
      requires i in faulty || !PieceReadable(mem, iovs[i].base, Min(total - sent, iovs[i].len))
      ensures !AllReadable() && before <= ring <= Filled()
    {
    }

    lemma {:induction false} Finish(i: nat, sent: nat, ring: seq<Emitted>)
      requires SoFar(i, sent, ring)
      requires i == |iovs| || sent == total
      ensures AllReadable() && ring == Filled() && sent == Min(total, Lengths(iovs))
    {
    }
  }

  /** The per-CPU event buffer together with the perf ring it is output to. */
  class Submitter {
    var position: nat
    var msgSize: nat
    var msgBufSize: nat
    const msg: array<bv8>
    var ring: seq<Emitted>

    ghost predicate Valid() { msg.Length == MAX_MSG_SIZE }

    constructor (position: nat)
      ensures Valid() && fresh(msg) && this.position == position && ring == []
    {
      this.position := position;
      msgSize, msgBufSize := 0, 0;
      msg := new bv8[MAX_MSG_SIZE];
      ring := [];
    }

    /** Outputs one piece, or nothing when it is empty or oversized. `msg_size` is 32 bits wide. */
    method PerfSubmitBuf(mem: Memory, addr: nat, bufSize: nat) returns (r: Result<int>)
      requires Valid()
      modifies this`msgSize, this`msgBufSize, this`ring, msg
      ensures r.Ok? <==> PieceReadable(mem, addr, bufSize)
      ensures r.Ok? ==> ring == old(ring) + Piece(mem, addr, bufSize, position)
      ensures r.Err? ==> ring == old(ring)
      ensures msgSize == bufSize % TWO_32
    {
      msgSize := bufSize % TWO_32;
      if bufSize == 0 { return Ok(0); }
      var amountCopied := 0;
      if bufSize - 1 < MAX_MSG_SIZE {
        if !Readable(mem, addr, bufSize) { return Err; }
        forall i | 0 <= i < bufSize { msg[i] := Peek(mem, addr + i); }
        amountCopied := bufSize;
      } else if bufSize - 1 < READ_LIMIT {
        if !Readable(mem, addr, MAX_MSG_SIZE) { return Err; }
        forall i | 0 <= i < MAX_MSG_SIZE { msg[i] := Peek(mem, addr + i); }
        amountCopied := MAX_MSG_SIZE;
      }
      if amountCopied > 0 {
        msgBufSize := amountCopied;
        assert msg[..amountCopied] == Bytes(mem, addr, amountCopied);
        ring := ring + [Emitted(position, msgSize, msgBufSize, msg[..amountCopied])];
      }
      return Ok(0);
    }

    /** A plain buffer. With readable data the ring gains exactly `Chunks`, otherwise a leading part of them. */
    method SubmitDataEvent(mem: Memory, buf: nat, bufSize: nat) returns (r: Result<int>)
      requires Valid()
      modifies this`msgSize, this`msgBufSize, this`ring, msg
      ensures r.Ok? <==> Readable(mem, buf, CopiedBytes(bufSize))
      ensures r.Ok? ==> ring == old(ring) + Chunks(mem, buf, bufSize, position)
      ensures r.Err? ==> old(ring) <= ring <= old(ring) + Chunks(mem, buf, bufSize, position)
    {
      var bytesSubmitted: nat := 0;
      ghost var whole := Buffer(mem, buf, bufSize, position, ring);
      whole.Begin();
      for i := 0 to CHUNK_LIMIT
        invariant bytesSubmitted <= bufSize && whole.SoFar(i, bytesSubmitted, ring)
      {
        var bytesRemaining := bufSize - bytesSubmitted;
        var currentSize :=
          if bytesRemaining > MAX_MSG_SIZE && i != CHUNK_LIMIT - 1 then MAX_MSG_SIZE else bytesRemaining;
        ghost var ringBefore := ring;
        var s := PerfSubmitBuf(mem, buf + bytesSubmitted, currentSize);
        if s.Err? {
          whole.Fail(i, bytesSubmitted, ring, currentSize);
          return Err;
        }
        whole.Advance(i, bytesSubmitted, ringBefore, currentSize, ring);
        bytesSubmitted := bytesSubmitted + currentSize;
      }
      whole.Finish(bytesSubmitted, ring);
      return Ok(0);
    }

    /**
     An iovec list. With readable data the ring gains exactly `Gather` of the first 882 iovecs and
     the position ends behind it; otherwise the ring gains a leading part of that.
     */
    method SubmitDataEventIovecs(mem: Memory, iovs: seq<IoVec>, faulty: set<nat>, totalSize: nat)
      returns (r: Result<int>)
      requires Valid()
      modifies this`position, this`msgSize, this`msgBufSize, this`ring, msg
      ensures r.Ok? <==> GatherReadable(mem, Leading(iovs, 882), faulty, 0, totalSize)
      ensures r.Ok? ==>
                && ring == old(ring) + Gather(mem, Leading(iovs, 882), totalSize, old(position))
                && position == old(position) + Min(totalSize, Lengths(Leading(iovs, 882)))
      ensures r.Err? ==> old(ring) <= ring <= old(ring) + Gather(mem, Leading(iovs, 882), totalSize, old(position))
    {
      ghost var call := Call(mem, Leading(iovs, 882), faulty, totalSize, position, ring);
      var bytesSent: nat := 0;
      call.Begin();
      for i := 0 to LOOP_LIMIT
        invariant position == old(position) + bytesSent && call.SoFar(i, bytesSent, ring)
      {
        if i >= |iovs| || bytesSent >= totalSize {
          call.Finish(i, bytesSent, ring);
          return Ok(0);
        }
        if i in faulty {
          call.Fail(i, bytesSent, ring);
          return Err;
        }
        var bytesRemaining := totalSize - bytesSent;
        var iovSize := Min(bytesRemaining, iovs[i].len);
        ghost var ringBefore := ring;
        var s := PerfSubmitBuf(mem, iovs[i].base, iovSize);
        if s.Err? {
          call.Fail(i, bytesSent, ring);
          return Err;
        }
        call.Advance(i, bytesSent, ringBefore, bytesSent + iovSize, ring);
        bytesSent := bytesSent + iovSize;
        position := position + iovSize;
      }
      call.Finish(LOOP_LIMIT, bytesSent, ring);
      return Ok(0);
    }
  }
}
