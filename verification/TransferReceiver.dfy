/** The receiver of a file alone (core/src/files.rs, `handle_chunk` and `complete_incoming`), when the
    link may lose, repeat and reorder chunks. */
module TransferReceiver {
  import opened Bytes
  import opened TransferTable

  /** The arrival of the sender's chunk `index`; `diskOk` is whether it can be written. */
  datatype Arrival = Arrival(index: nat, diskOk: bool)

  function Joined(chunks: seq<seq<byte>>): seq<byte> {
    if chunks == [] then [] else Joined(chunks[..|chunks| - 1]) + chunks[|chunks| - 1]
  }

  /** The open entry after the arrivals; None once a problem has removed it. */
  function After(o: Offer, chunks: seq<seq<byte>>, arrivals: seq<Arrival>): Option<Active>
    requires Arriving(chunks, arrivals)
  {
    if arrivals == [] then Some(Begin(o)) else
    var last := arrivals[|arrivals| - 1];
    match After(o, chunks, arrivals[..|arrivals| - 1])
    case None => None
    case Some(a) => (
      match TakeChunk(a, last.index % U32, chunks[last.index], last.diskOk)
      case Stored(a') => Some(a')
      case Problem => None)
  }

  predicate Arriving(chunks: seq<seq<byte>>, arrivals: seq<Arrival>) {
    forall k | 0 <= k < |arrivals| :: arrivals[k].index < |chunks|
  }

  /** At most 2^32 chunks, none empty, each with room below 2^64. */
  predicate Chunked(o: Offer, chunks: seq<seq<byte>>) {
    && |chunks| <= U32
    && (forall i | 0 <= i < |chunks| :: chunks[i] != [] && o.size + |chunks[i]| < U64)
    && o.size < U64
  }

  /** When the numbers wrap round at all, the first chunk does not fit into the budget again. */
  predicate NoRoomAgain(o: Offer, chunks: seq<seq<byte>>) {
    |chunks| == U32 ==> o.size < |Joined(chunks)| + |chunks[0]|
  }

  predicate Sendable(o: Offer, chunks: seq<seq<byte>>) { Chunked(o, chunks) && NoRoomAgain(o, chunks) }

  lemma {:induction false} JoinedPrefix(chunks: seq<seq<byte>>, k: nat)
    requires k <= |chunks|
    ensures Joined(chunks[..k]) <= Joined(chunks)
    ensures k < |chunks| && chunks[k] != [] ==> |Joined(chunks[..k])| < |Joined(chunks)|
    decreases |chunks|
  {
    if k < |chunks| {
      var front := chunks[..|chunks| - 1];
      assert front[..k] == chunks[..k];
      if k < |front| { JoinedPrefix(front, k); } else { assert chunks[..k] == front; }
    } else {
      assert chunks[..k] == chunks;
    }
  }

  /** Under any loss, repetition and reordering, and any disk failures: what is on disk is exactly the
      first `taken` chunks, within the budget, and the running hash has been fed just that. */
  lemma {:induction false} AlwaysAPrefix(o: Offer, chunks: seq<seq<byte>>, arrivals: seq<Arrival>)
    requires Sendable(o, chunks)
    requires Arriving(chunks, arrivals)
    ensures var r := After(o, chunks, arrivals);
            r.Some? ==> && Sane(r.value) && r.value.size == o.size && r.value.sha == o.sha
                        && r.value.taken <= |chunks| && r.value.written == Joined(chunks[..r.value.taken])
                        && r.value.written <= Joined(chunks)
  {
    if arrivals == [] {
      assert Joined([]) == [];
    } else {
      var front, last := arrivals[..|arrivals| - 1], arrivals[|arrivals| - 1];
      AlwaysAPrefix(o, chunks, front);
      var r := After(o, chunks, front);
      if r.Some? && TakeChunk(r.value, last.index % U32, chunks[last.index], last.diskOk).Stored? {
        ArrivalKeeps(o, chunks, r.value, last);
      }
    }
  }

  lemma ArrivalKeeps(o: Offer, chunks: seq<seq<byte>>, a: Active, last: Arrival)
    requires Sendable(o, chunks) && last.index < |chunks|
    requires Sane(a) && a.size == o.size && a.taken <= |chunks| && a.written == Joined(chunks[..a.taken])
    requires TakeChunk(a, last.index % U32, chunks[last.index], last.diskOk).Stored?
    ensures var a' := TakeChunk(a, last.index % U32, chunks[last.index], last.diskOk).a;
            && Sane(a') && a'.size == a.size && a'.sha == a.sha
            && a'.taken <= |chunks| && a'.written == Joined(chunks[..a'.taken]) && a'.written <= Joined(chunks)
  {
    var d, i := chunks[last.index], last.index % U32;
    RoomFor(o, chunks, a, last.index);
    StoredSaneIff(a, i, d, last.diskOk);
    StoredFields(a, i, d, last.diskOk);
    hide TakeChunk, Joined, Sane, Sendable;
    NextIndex(o, chunks, a, last.index, |d|);
    JoinedNext(chunks, a.taken);
  }

  lemma RoomFor(o: Offer, chunks: seq<seq<byte>>, a: Active, index: nat)
    requires Sendable(o, chunks) && index < |chunks| && Sane(a) && a.size == o.size
    ensures a.got == |a.written| && |chunks[index]| > 0 && a.got + |chunks[index]| < U64
  {}

  /** A chunk that fits is the next one: its number could only belong to an earlier chunk once the
      numbers have wrapped round, and then the budget is used up. */
  lemma NextIndex(o: Offer, chunks: seq<seq<byte>>, a: Active, index: nat, n: nat)
    requires Sendable(o, chunks) && index < |chunks| && n > 0
    requires a.got == |a.written| && a.taken <= |chunks| && a.written == Joined(chunks[..a.taken])
    requires n == |chunks[index]| && index % U32 == a.taken % U32 && a.got + n <= o.size
    ensures a.taken == index
  {
    assert chunks[..|chunks|] == chunks;
    hide Joined;
    if a.taken < U32 { SameNumber(a.taken, index); } else { FirstAgain(index); }
  }

  lemma FirstAgain(index: nat)
    requires index < U32 && index % U32 == U32 % U32
    ensures index == 0
  {}

  lemma SameNumber(taken: nat, index: nat)
    requires taken < U32 && index < U32 && taken % U32 == index % U32
    ensures taken == index
  {}

  lemma StoredFields(a: Active, seqNo: nat, data: seq<byte>, diskOk: bool)
    requires Sane(a) && TakeChunk(a, seqNo, data, diskOk).Stored?
    ensures var a' := TakeChunk(a, seqNo, data, diskOk).a;
            && a'.written == a.written + data && a'.taken == a.taken + 1 && a'.size == a.size && a'.sha == a.sha
    ensures seqNo == a.taken % U32
    ensures a.got + |data| < U64 ==> a.got + |data| <= a.size
  {
    var sum := a.got + |data|;
    assert sum < U64 ==> sum % U64 == sum;
  }

  lemma JoinedNext(chunks: seq<seq<byte>>, k: nat)
    requires k < |chunks|
    ensures Joined(chunks[..k + 1]) == Joined(chunks[..k]) + chunks[k] <= Joined(chunks)
  {
    assert chunks[..k + 1][..k] == chunks[..k];
    JoinedPrefix(chunks, k + 1);
  }

  /** Success is reported only when length and digest both match the offer; for an offer of just these
      chunks, exactly when the whole file is on disk (and never for part of it, whatever the hash). */
  lemma ReportsExactly(hash: Hash, o: Offer, chunks: seq<seq<byte>>, arrivals: seq<Arrival>)
    requires Sendable(o, chunks)
    requires Arriving(chunks, arrivals)
    requires After(o, chunks, arrivals).Some?
    ensures var a := After(o, chunks, arrivals).value;
            && (Complete(hash, a) <==> |a.written| == o.size && hash(a.written) == o.sha)
            && (o.size == |Joined(chunks)| && o.sha == hash(Joined(chunks)) ==> (Complete(hash, a) <==> a.written == Joined(chunks)))
  {
    AlwaysAPrefix(o, chunks, arrivals);
  }

  // ----- when the condition fails -----

  function InOrder(n: nat): seq<Arrival> { seq(n, i requires 0 <= i < n => Arrival(i, true)) }

  /** Chunks that arrive in order are all taken, any number of them, as long as they fit. */
  lemma {:induction false} InOrderTaken(o: Offer, chunks: seq<seq<byte>>, n: nat)
    requires n <= |chunks| && |Joined(chunks[..n])| <= o.size < U64
    ensures var r := After(o, chunks, InOrder(n));
            r.Some? && Sane(r.value) && r.value.size == o.size && r.value.taken == n && r.value.written == Joined(chunks[..n])
  {
    if n == 0 {
      assert chunks[..0] == [];
    } else {
      assert InOrder(n)[..n - 1] == InOrder(n - 1);
      assert chunks[..n][..n - 1] == chunks[..n - 1];
      InOrderTaken(o, chunks, n - 1);
      var a := After(o, chunks, InOrder(n - 1)).value;
      NextTaken(a, chunks[n - 1]);
    }
  }

  lemma NextTaken(a: Active, data: seq<byte>)
    requires Sane(a) && a.got + |data| <= a.size
    ensures var v := TakeChunk(a, a.taken % U32, data, true);
            v.Stored? && Sane(v.a) && v.a.taken == a.taken + 1 && v.a.written == a.written + data && v.a.size == a.size
  {
    var sum := a.got + |data|;
    assert sum % U64 == sum;
    NextSeq(a.taken);
  }

  /** What is on disk is a prefix of the sender's stream after every sequence of arrivals if and only if
      the numbers do not wrap round, or the first chunk would not fit again once they have. */
  lemma AlwaysAPrefixIff(o: Offer, chunks: seq<seq<byte>>)
    requires Chunked(o, chunks)
    ensures (forall arrivals | Arriving(chunks, arrivals) && After(o, chunks, arrivals).Some? ::
               After(o, chunks, arrivals).value.written <= Joined(chunks))
            <==> NoRoomAgain(o, chunks)
  {
    if NoRoomAgain(o, chunks) {
      forall arrivals | Arriving(chunks, arrivals) && After(o, chunks, arrivals).Some?
        ensures After(o, chunks, arrivals).value.written <= Joined(chunks)
      {
        AlwaysAPrefix(o, chunks, arrivals);
      }
    } else {
      FirstTakenAgain(o, chunks);
    }
  }

  /** All 2^32 chunks in order, and then the first one again. */
  lemma FirstTakenAgain(o: Offer, chunks: seq<seq<byte>>)
    requires Chunked(o, chunks) && !NoRoomAgain(o, chunks)
    ensures var arrivals := InOrder(U32) + [Arrival(0, true)];
            && Arriving(chunks, arrivals) && After(o, chunks, arrivals).Some?
            && |After(o, chunks, arrivals).value.written| > |Joined(chunks)|
  {
    var arrivals := InOrder(U32) + [Arrival(0, true)];
    assert chunks[..U32] == chunks;
    InOrderTaken(o, chunks, U32);
    assert arrivals[..|arrivals| - 1] == InOrder(U32);
    var a := After(o, chunks, InOrder(U32)).value;
    NextTaken(a, chunks[0]);
  }

  function Ones(n: nat): (chunks: seq<seq<byte>>)
    ensures |chunks| == n && forall i | 0 <= i < n :: chunks[i] == [1]
  {
    seq(n, i => [1])
  }

  lemma {:induction false} OnesLength(n: nat)
    ensures |Joined(Ones(n))| == n
  {
    if n > 0 {
      assert Ones(n)[..n - 1] == Ones(n - 1);
      OnesLength(n - 1);
    }
  }

  predicate AtMost(chunks: seq<seq<byte>>, most: nat) { forall i | 0 <= i < |chunks| :: |chunks[i]| <= most }

  /** With room for one more chunk below 2^64 the counters are right after any arrivals at all. */
  lemma {:induction false} StaysSane(o: Offer, most: nat, chunks: seq<seq<byte>>, arrivals: seq<Arrival>)
    requires AtMost(chunks, most) && Arriving(chunks, arrivals) && o.size + most < U64
    ensures var r := After(o, chunks, arrivals); r.Some? ==> Sane(r.value) && r.value.size == o.size
  {
    if arrivals != [] {
      var front, last := arrivals[..|arrivals| - 1], arrivals[|arrivals| - 1];
      StaysSane(o, most, chunks, front);
      var r := After(o, chunks, front);
      if r.Some? && TakeChunk(r.value, last.index % U32, chunks[last.index], last.diskOk).Stored? {
        StoredSaneIff(r.value, last.index % U32, chunks[last.index], last.diskOk);
      }
    }
  }

  /** The offer filled byte by byte, and a last chunk. */
  function Overfull(o: Offer, most: nat): seq<seq<byte>> { Ones(o.size) + [seq(most, i => 1)] }

  /** Without that room the offer can be filled byte by byte, and a last chunk is taken beyond it. */
  lemma BudgetOverrun(o: Offer, most: nat)
    requires o.size < U64 <= o.size + most && most < U64
    ensures var r := After(o, Overfull(o, most), InOrder(o.size + 1));
            r.Some? && |r.value.written| == o.size + most && r.value.got == o.size + most - U64
  {
    var n, chunks := o.size, Overfull(o, most);
    assert chunks[..n] == Ones(n);
    OnesLength(n);
    InOrderTaken(o, chunks, n);
    assert InOrder(n + 1)[..n] == InOrder(n);
    assert (n + most) % U64 == n + most - U64;
  }

  /** Under every sequence of arrivals of chunks of at most `most` bytes the file stays within the offered
      size, if and only if the offer leaves room for one such chunk below 2^64. */
  lemma BudgetIff(o: Offer, most: nat)
    requires o.size < U64 && 0 < most < U64
    ensures (forall chunks, arrivals | AtMost(chunks, most) && Arriving(chunks, arrivals) && After(o, chunks, arrivals).Some? ::
               |After(o, chunks, arrivals).value.written| <= o.size)
            <==> o.size + most < U64
  {
    if o.size + most < U64 {
      forall chunks, arrivals | AtMost(chunks, most) && Arriving(chunks, arrivals) && After(o, chunks, arrivals).Some?
        ensures |After(o, chunks, arrivals).value.written| <= o.size
      {
        StaysSane(o, most, chunks, arrivals);
      }
    } else {
      BudgetOverrun(o, most);
      assert AtMost(Overfull(o, most), most) && Arriving(Overfull(o, most), InOrder(o.size + 1));
    }
  }
}
