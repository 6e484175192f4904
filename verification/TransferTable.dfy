/** One node's transfer bookkeeping (core/src/files.rs): the four maps behind the `transfers` lock,
    each critical section a method, and the rules for one incoming chunk. */
module TransferTable {
  import opened Bytes

  type Id = seq<byte>
  type PeerId = string
  type Hash = seq<byte> -> string

  const CHUNK_SIZE := 32768

  datatype Decision = Accept | Decline

  datatype Offer = Offer(peer: PeerId, size: nat, sha: string)

  /** An accepted incoming transfer. `written` is the file, `fed` what the running hash has been given;
      `taken` is history: how many chunks were stored. */
  datatype Active = Active(
    peer: PeerId, size: nat, sha: string, got: nat, nextSeq: nat, written: seq<byte>, fed: seq<byte>, taken: nat)

  function Begin(o: Offer): Active { Active(o.peer, o.size, o.sha, 0, 0, [], [], 0) }

  datatype Verdict = Stored(a: Active) | Problem

  /** One chunk from the transfer's own peer; `diskOk` is whether the write succeeds. */
  function TakeChunk(a: Active, seqNo: nat, data: seq<byte>, diskOk: bool): Verdict {
    if seqNo != a.nextSeq then Problem
    else if (a.got + |data|) % U64 > a.size then Problem
    else if !diskOk then Problem
    else Stored(a.(written := a.written + data, fed := a.fed + data, got := (a.got + |data|) % U64,
                   nextSeq := (a.nextSeq + 1) % U32, taken := a.taken + 1))
  }

  /** What the receiver reports when the sender says it is done. */
  predicate Complete(hash: Hash, a: Active) { a.got == a.size && hash(a.fed) == a.sha }

  /** The counters say what is on disk. */
  predicate Sane(a: Active) {
    a.got == |a.written| <= a.size < U64 && a.fed == a.written && a.nextSeq == a.taken % U32
  }

  /** A stored chunk keeps the counters right exactly when the byte count does not wrap: for a budget
      within one chunk of 2^64 the check `got + len > size` can be passed by wrapping round. */
  lemma StoredSaneIff(a: Active, seqNo: nat, data: seq<byte>, diskOk: bool)
    requires Sane(a) && TakeChunk(a, seqNo, data, diskOk).Stored?
    ensures Sane(TakeChunk(a, seqNo, data, diskOk).a) <==> a.got + |data| < U64
  {
    var sum := a.got + |data|;
    if sum < U64 {
      assert sum % U64 == sum;
      NextSeq(a.taken);
    } else {
      assert sum % U64 < U64 <= |a.written + data|;
    }
  }

  lemma NextSeq(n: nat)
    ensures (n % U32 + 1) % U32 == (n + 1) % U32
  {}

  function Without<V>(m: map<Id, V>, ids: set<Id>): map<Id, V> { map i | i in m && i !in ids :: m[i] }

  /** What `cancel_transfers_with` removes. */
  function ActiveOf(active: map<Id, Active>, peer: PeerId): set<Id> { set i | i in active && active[i].peer == peer }

  function OffersOf(offers: map<Id, Offer>, peer: PeerId): set<Id> { set i | i in offers && offers[i].peer == peer }

  function OutgoingTo(outPeer: map<Id, PeerId>, peer: PeerId): set<Id> { set i | i in outPeer && outPeer[i] == peer }

  lemma WithoutMore<V>(m: map<Id, V>, ids: set<Id>, k: Id)
    ensures Without(Without(m, ids), {k}) == Without(m, ids + {k})
  {}

  function Channel(channels: map<Id, seq<Decision>>, id: Id): seq<Decision> {
    if id in channels then channels[id] else []
  }

  /** The channels after one Decline to each of `ids`. */
  ghost predicate Told(before: map<Id, seq<Decision>>, after: map<Id, seq<Decision>>, ids: set<Id>) {
    forall i :: Channel(after, i) == Channel(before, i) + if i in ids then [Decline] else []
  }

  lemma ToldMore(before: map<Id, seq<Decision>>, after: map<Id, seq<Decision>>, ids: set<Id>, k: Id)
    requires Told(before, after, ids) && k !in ids
    ensures Told(before, after[k := Channel(after, k) + [Decline]], ids + {k})
  {
    var next := after[k := Channel(after, k) + [Decline]];
    forall i ensures Channel(next, i) == Channel(before, i) + if i in ids + {k} then [Decline] else [] {
      assert Channel(after, i) == Channel(before, i) + if i in ids then [Decline] else [];
    }
  }

  /** A `waiters` entry is the sending end of its thread's decision channel; `channels` is what has
      been put into the channels, whoever still listens. */
  class Transfers {
    var waiters: set<Id>
    var outPeer: map<Id, PeerId>
    var offers: map<Id, Offer>
    var active: map<Id, Active>
    var channels: map<Id, seq<Decision>>

    /** Holds whenever the lock is free. */
    predicate Valid()
      reads this
    {
      waiters == outPeer.Keys
    }

    constructor ()
      ensures Valid() && waiters == {} && outPeer == map[] && offers == map[] && active == map[] && channels == map[]
    {
      waiters, outPeer, offers, active, channels := {}, map[], map[], map[], map[];
    }

    /** The first section of `send_file_to`. */
    method Register(id: Id, peer: PeerId)
      requires Valid()
      modifies this`waiters, this`outPeer
      ensures Valid() && waiters == old(waiters) + {id} && outPeer == old(outPeer)[id := peer]
    {
      waiters := waiters + {id};
      outPeer := outPeer[id := peer];
    }

    /** The section of `finish_out`. */
    method FinishOut(id: Id)
      requires Valid()
      modifies this`waiters, this`outPeer
      ensures Valid() && waiters == old(waiters) - {id} && outPeer == Without(old(outPeer), {id})
    {
      waiters := waiters - {id};
      outPeer := Without(outPeer, {id});
    }

    /** FileAccept or FileDecline: the answer goes to whoever waits for it, if anybody. */
    method Answer(id: Id, d: Decision)
      requires Valid()
      modifies this`channels
      ensures channels == if id in waiters then old(channels)[id := Channel(old(channels), id) + [d]] else old(channels)
    {
      if id in waiters { channels := channels[id := Channel(channels, id) + [d]]; }
    }

    /** FileOffer. */
    method AddOffer(id: Id, o: Offer)
      requires Valid()
      modifies this`offers
      ensures offers == old(offers)[id := o]
    {
      offers := offers[id := o];
    }

    /** The first section of `respond_offer`: each offer is answered by one call only. */
    method TakeOffer(id: Id) returns (o: Option<Offer>)
      requires Valid()
      modifies this`offers
      ensures o == if id in old(offers) then Some(old(offers)[id]) else None
      ensures offers == Without(old(offers), {id})
    {
      o := if id in offers then Some(offers[id]) else None;
      offers := Without(offers, {id});
    }

    /** The second section of `respond_offer`. */
    method Activate(id: Id, o: Offer)
      requires Valid()
      modifies this`active
      ensures active == old(active)[id := Begin(o)]
    {
      active := active[id := Begin(o)];
    }

    /** The first section of `handle_chunk`; None when the chunk is ignored. */
    method HandleChunk(peer: PeerId, id: Id, seqNo: nat, data: seq<byte>, diskOk: bool) returns (v: Option<Verdict>)
      requires Valid()
      modifies this`active
      ensures v == if id in old(active) && old(active)[id].peer == peer
                   then Some(TakeChunk(old(active)[id], seqNo, data, diskOk)) else None
      ensures active == if v.Some? && v.value.Stored? then old(active)[id := v.value.a] else old(active)
    {
      if id !in active { return None; }
      var a := active[id];
      if a.peer != peer { return None; }
      if seqNo != a.nextSeq { return Some(Problem); }
      if (a.got + |data|) % U64 > a.size { return Some(Problem); }
      if !diskOk { return Some(Problem); }
      a := a.(written := a.written + data);
      a := a.(fed := a.fed + data);
      a := a.(got := (a.got + |data|) % U64);
      a := a.(nextSeq := (a.nextSeq + 1) % U32, taken := a.taken + 1);
      active := active[id := a];
      return Some(Stored(a));
    }

    /** The section of `complete_incoming`, and the second one of `handle_chunk`. */
    method TakeActive(id: Id) returns (a: Option<Active>)
      requires Valid()
      modifies this`active
      ensures a == if id in old(active) then Some(old(active)[id]) else None
      ensures active == Without(old(active), {id})
    {
      a := if id in active then Some(active[id]) else None;
      active := Without(active, {id});
    }

    /** FileAbort. */
    method AbortIncoming(id: Id) returns (was: bool)
      requires Valid()
      modifies this`offers, this`active
      ensures was <==> id in old(active)
      ensures offers == Without(old(offers), {id}) && active == Without(old(active), {id})
    {
      was := id in active;
      offers := Without(offers, {id});
      active := Without(active, {id});
    }

    /** `cancel_transfers_with`: nothing names the peer any more, every outgoing transfer to it is
        told, everything else is as it was. */
    method CancelWith(peer: PeerId) returns (finished: seq<Id>)
      requires Valid()
      modifies this
      ensures Valid()
      ensures forall i :: i in finished <==> i in ActiveOf(old(active), peer)
      ensures forall i, j | 0 <= i < j < |finished| :: finished[i] != finished[j]
      ensures active == Without(old(active), ActiveOf(old(active), peer))
      ensures offers == Without(old(offers), OffersOf(old(offers), peer))
      ensures outPeer == Without(old(outPeer), OutgoingTo(old(outPeer), peer))
      ensures forall i :: i in finished <==> i in old(active) && old(active)[i].peer == peer
      ensures forall i :: i in active <==> i in old(active) && old(active)[i].peer != peer
      ensures forall i :: i in offers <==> i in old(offers) && old(offers)[i].peer != peer
      ensures forall i :: i in outPeer <==> i in old(outPeer) && old(outPeer)[i] != peer
      ensures forall i ::
                Channel(channels, i) == Channel(old(channels), i) + if i in old(outPeer) && old(outPeer)[i] == peer then [Decline] else []
      ensures Told(old(channels), channels, OutgoingTo(old(outPeer), peer))
    {
      finished := RemoveActive(peer);
      offers := Without(offers, OffersOf(offers, peer));
      RemoveOutgoing(peer);
    }

    method RemoveActive(peer: PeerId) returns (finished: seq<Id>)
      modifies this`active
      ensures forall i :: i in finished <==> i in ActiveOf(old(active), peer)
      ensures forall i, j | 0 <= i < j < |finished| :: finished[i] != finished[j]
      ensures active == Without(old(active), ActiveOf(old(active), peer))
    {
      ghost var all := ActiveOf(active, peer);
      var dead := ActiveOf(active, peer);
      finished := [];
      while dead != {}
        invariant dead <= all && (forall i :: i in finished <==> i in all - dead)
        invariant forall i, j | 0 <= i < j < |finished| :: finished[i] != finished[j]
        invariant active == Without(old(active), all - dead)
      {
        var k :| k in dead;
        dead := dead - {k};
        active := Without(active, {k});
        finished := finished + [k];
      }
    }

    method RemoveOutgoing(peer: PeerId)
      requires Valid()
      modifies this`waiters, this`outPeer, this`channels
      ensures Valid()
      ensures outPeer == Without(old(outPeer), OutgoingTo(old(outPeer), peer))
      ensures Told(old(channels), channels, OutgoingTo(old(outPeer), peer))
    {
      ghost var all := OutgoingTo(outPeer, peer);
      var dead := OutgoingTo(outPeer, peer);
      while dead != {}
        invariant dead <= all && outPeer == Without(old(outPeer), all - dead)
        invariant Valid()
        invariant Told(old(channels), channels, all - dead)
      {
        hide Told;
        var k :| k in dead;
        ghost var gone := all - dead;
        dead := dead - {k};
        assert all - dead == gone + {k};
        if k in waiters {
          ToldMore(old(channels), channels, gone, k);
          channels := channels[k := Channel(channels, k) + [Decline]];
          waiters := waiters - {k};
        }
        WithoutMore(old(outPeer), gone, k);
        outPeer := Without(outPeer, {k});
      }
    }
  }
}
