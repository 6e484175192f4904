/** The sections of the transfer table, looked at through one id, are the sections of the two-party
    protocol: each method below runs one section of a node's table and ends where the step of the
    protocol ends. */
module TransferSections {
  import opened Bytes
  import opened TransferTable
  import opened Transfer

  function At<V>(m: map<Id, V>, id: Id): Option<V> { if id in m then Some(m[id]) else None }

  /** A node's table holds, under `id`, what the sender of the protocol holds; `read` decisions have been
      taken out of the channel. */
  ghost predicate Sending(t: Transfers, id: Id, to: PeerId, read: nat, s: Sender)
    reads t
  {
    && t.Valid()
    && (s.waiter <==> id in t.waiters) && (s.target <==> At(t.outPeer, id) == Some(to)) && (id in t.outPeer ==> t.outPeer[id] == to)
    && read <= |Channel(t.channels, id)| && s.channel == Channel(t.channels, id)[read..]
  }

  /** A node's table holds, under `id`, what the receiver of the protocol holds. */
  ghost predicate Receiving(t: Transfers, id: Id, r: Receiver)
    reads t
  {
    t.Valid() && At(t.offers, id) == r.offer && At(t.active, id) == r.active
  }

  // ----- the sending node -----

  method Begins(t: Transfers, id: Id, to: PeerId, ghost read: nat, ghost st: State)
    requires Sending(t, id, to, read, st.s) && SenderEnabled(st, Action.Register)
    modifies t
    ensures Sending(t, id, to, read, SenderApply(st, Action.Register).s)
  {
    t.Register(id, to);
  }

  method Finishes(t: Transfers, id: Id, to: PeerId, ghost read: nat, ghost st: State)
    requires Sending(t, id, to, read, st.s) && SenderEnabled(st, Action.FinishOut)
    modifies t
    ensures Sending(t, id, to, read, SenderApply(st, Action.FinishOut).s)
  {
    t.FinishOut(id);
  }

  /** FileAccept and FileDecline reach the waiting thread; the receiver's FileAbort finds nothing. */
  method HearsUp(t: Transfers, id: Id, to: PeerId, ghost read: nat, ghost c: Config, ghost st: State, m: Up)
    requires Sending(t, id, to, read, st.s) && st.up != [] && st.up[0] == m
    modifies t
    ensures Sending(t, id, to, read, LinkApply(c, st, HearUp).s)
  {
    if m.StopMsg? {
      var _ := t.AbortIncoming(id);
    } else {
      t.Answer(id, if m.AcceptMsg? then Accept else Decline);
    }
  }

  /** The receiver departs: whoever still waits is told. */
  method LosesReceiver(t: Transfers, id: Id, to: PeerId, ghost read: nat, ghost c: Config, ghost st: State)
    requires Sending(t, id, to, read, st.s) && LinkEnabled(st, CancelOut)
    modifies t
    ensures Sending(t, id, to, read, LinkApply(c, st, CancelOut).s)
  {
    ghost var before := t.channels;
    var _ := t.CancelWith(to);
    assert Channel(t.channels, id) == Channel(before, id) + if st.s.target then [Decline] else [];
  }

  // ----- the receiving node -----

  /** The section a message from the sender runs: FileOffer, a chunk, FileDone, FileAbort. */
  method HearsDown(t: Transfers, id: Id, ghost c: Config, ghost st: State, o: Offer, peer: PeerId, m: Down, ok: bool)
    returns (chunk: Option<Verdict>, was: bool)
    requires Receiving(t, id, st.r) && LinkEnabled(st, HearDown(ok)) && st.down[0] == m
    requires o == Offer(c.peer, c.size, c.sha) && peer == c.peer && (st.r.active.Some? ==> st.r.active.value.peer == c.peer)
    modifies t
    ensures Receiving(t, id, LinkApply(c, st, HearDown(ok)).r)
    ensures var r := LinkApply(c, st, HearDown(ok)).r;
            && (m.ChunkMsg? ==> (chunk == Some(Problem) <==> r.reader.Rejecting?))
            && (m.DoneMsg? || m.AbortMsg? ==> (was <==> r.reader.Telling?))
  {
    chunk, was := None, false;
    match m
    case OfferMsg => t.AddOffer(id, o);
    case ChunkMsg(seqNo, data) => chunk := t.HandleChunk(peer, id, seqNo, data, ok);
    case DoneMsg =>
      var a := t.TakeActive(id);
      was := a.Some?;
    case AbortMsg => was := t.AbortIncoming(id);
  }

  /** A rejected chunk takes the entry out. */
  method Drops(t: Transfers, id: Id, ghost st: State)
    requires Receiving(t, id, st.r) && ReceiverEnabled(st, DropActive)
    modifies t
    ensures Receiving(t, id, ReceiverApply(st, DropActive).r)
  {
    var _ := t.TakeActive(id);
  }

  method Responds(t: Transfers, id: Id, ghost st: State, accept: bool) returns (o: Option<Offer>)
    requires Receiving(t, id, st.r) && ReceiverEnabled(st, Respond(accept))
    modifies t
    ensures Receiving(t, id, ReceiverApply(st, Respond(accept)).r)
    ensures o.Some? && ReceiverApply(st, Respond(accept)).r.pc == Taken(accept, o.value)
  {
    o := t.TakeOffer(id);
  }

  method Inserts(t: Transfers, id: Id, ghost st: State, o: Offer)
    requires Receiving(t, id, st.r) && ReceiverEnabled(st, Insert) && st.r.pc.o == o
    modifies t
    ensures Receiving(t, id, ReceiverApply(st, Insert).r)
  {
    t.Activate(id, o);
  }

  /** The sender departs: offer and entry go, and an entry that was there is reported. */
  method LosesSender(t: Transfers, id: Id, ghost c: Config, ghost st: State, peer: PeerId) returns (finished: seq<Id>)
    requires Receiving(t, id, st.r) && ReceiverEnabled(st, CancelIn) && peer == c.peer
    requires (st.r.offer.Some? ==> st.r.offer.value.peer == peer) && (st.r.active.Some? ==> st.r.active.value.peer == peer)
    modifies t
    ensures Receiving(t, id, ReceiverApply(st, CancelIn).r)
    ensures id in finished <==> ReceiverApply(st, CancelIn).r.reader.Telling?
  {
    finished := t.CancelWith(peer);
  }
}
