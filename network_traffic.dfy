/**
 * The packet buffer of the network traffic collector
 * (collectors/network_traffic.py): every IP packet the sniffer hands over
 * is recorded; when the buffer reaches `max_packets` and a callback is
 * set, the whole buffer is handed to the callback and emptied, and put
 * back when the callback refuses it.
 *
 * The callback's answers are an oracle, `verdict(k)` being the answer to
 * its k-th call. The collector's lock serialises the calls, so each
 * method here is one atomic step. The source puts a refused batch back
 * while taking the same non-reentrant lock a second time: as written the
 * sniffing thread blocks for good and the batch is lost
 * (`ReceiveAsWritten`, `RefusedBatchIsLost`). The collector class follows
 * the intended put-back (`Receive`).
 */
module NetworkTraffic {
  import opened Wrappers

  datatype Protocol = Tcp | Udp | Other
  {
    function Name(): string {
      match this
      case Tcp => "TCP"
      case Udp => "UDP"
      case Other => "Other"
    }
  }

  /** A layer's source and destination port. */
  datatype Ports = Ports(sport: int, dport: int)

  /** What the collector looks at in a sniffed packet: the IP addresses, the TCP and UDP layers, and the length. */
  datatype Packet = Packet(ip: Option<(string, string)>, tcp: Option<Ports>, udp: Option<Ports>, size: nat)

  /** The dictionary stored per packet. */
  datatype PacketRecord = PacketRecord(
    from: string,
    to: string,
    srcPort: Option<int>,
    dstPort: Option<int>,
    protocol: Protocol,
    size: nat,
    timestamp: string)

  /** The record of a packet, `None` for a packet without an IP layer. */
  function RecordOf(p: Packet, now: string): (r: Option<PacketRecord>)
    ensures r.None? <==> p.ip.None?
    ensures r.Some? ==> r.value.from == p.ip.value.0 && r.value.to == p.ip.value.1
    ensures r.Some? ==> r.value.size == p.size && r.value.timestamp == now
    ensures r.Some? ==> (r.value.protocol == Tcp <==> p.tcp.Some?)
    ensures r.Some? ==> (r.value.protocol == Udp <==> p.tcp.None? && p.udp.Some?)
    ensures r.Some? && p.tcp.Some? ==> r.value.srcPort == Some(p.tcp.value.sport) && r.value.dstPort == Some(p.tcp.value.dport)
    ensures r.Some? && p.tcp.None? && p.udp.Some? ==> r.value.srcPort == Some(p.udp.value.sport) && r.value.dstPort == Some(p.udp.value.dport)
    ensures r.Some? && r.value.protocol == Other ==> r.value.srcPort == None && r.value.dstPort == None
  {
    match p.ip
    case None => None
    case Some(addresses) =>
      var (protocol, src, dst) :=
        if p.tcp.Some? then (Tcp, Some(p.tcp.value.sport), Some(p.tcp.value.dport))
        else if p.udp.Some? then (Udp, Some(p.udp.value.sport), Some(p.udp.value.dport))
        else (Other, None, None);
      Some(PacketRecord(addresses.0, addresses.1, src, dst, protocol, p.size, now))
  }

  /** The buffer reached its limit and there is a callback to flush to. */
  predicate FlushDue(grown: seq<PacketRecord>, maxPackets: int, hasCallback: bool) {
    |grown| >= maxPackets && hasCallback
  }

  /**
   * One recorded packet, as written: append; on a due flush hand the whole
   * buffer over and empty it; a refusal leaves the buffer empty and the
   * thread blocked. The result is the new buffer, the batch handed over,
   * and whether the thread is now blocked.
   */
  function ReceiveAsWritten(buffer: seq<PacketRecord>, rec: PacketRecord, maxPackets: int, hasCallback: bool, accepted: bool)
    : (r: (seq<PacketRecord>, Option<seq<PacketRecord>>, bool))
    ensures r.1.Some? <==> FlushDue(buffer + [rec], maxPackets, hasCallback)
    ensures r.1.Some? ==> r.0 == [] && r.1.value == buffer + [rec] && (r.2 <==> !accepted)
    ensures r.1.None? ==> r.0 == buffer + [rec] && !r.2
  {
    var grown := buffer + [rec];
    if FlushDue(grown, maxPackets, hasCallback) then ([], Some(grown), !accepted)
    else (grown, None, false)
  }

  /**
   * One recorded packet, with the put-back the source intends: a refused
   * batch goes back ahead of whatever arrived since, which under the lock
   * is nothing.
   */
  function Receive(buffer: seq<PacketRecord>, rec: PacketRecord, maxPackets: int, hasCallback: bool, accepted: bool)
    : (r: (seq<PacketRecord>, Option<seq<PacketRecord>>))
  {
    var grown := buffer + [rec];
    if FlushDue(grown, maxPackets, hasCallback) then
      var packetsToSend := grown;
      var cleared: seq<PacketRecord> := [];
      (if accepted then cleared else packetsToSend + cleared, Some(packetsToSend))
    else (grown, None)
  }

  /** With the intended put-back nothing is lost and the order is kept: the buffer is either emptied into an accepted batch, or holds every record in arrival order. */
  lemma PutBackKeepsEverything(buffer: seq<PacketRecord>, rec: PacketRecord, maxPackets: int, hasCallback: bool, accepted: bool)
    ensures var (after, handed) := Receive(buffer, rec, maxPackets, hasCallback, accepted);
      && (handed.Some? <==> FlushDue(buffer + [rec], maxPackets, hasCallback))
      && (handed.Some? ==> handed.value == buffer + [rec])
      && (handed.Some? && accepted ==> after == [])
      && (handed.None? || !accepted ==> after == buffer + [rec])
  {
    assert buffer + [rec] + [] == buffer + [rec];
  }

  /** As written, a refused batch is lost: afterwards the buffer is empty and the sniffing thread is blocked. */
  lemma RefusedBatchIsLost(buffer: seq<PacketRecord>, rec: PacketRecord, maxPackets: int)
    requires |buffer| + 1 >= maxPackets
    ensures ReceiveAsWritten(buffer, rec, maxPackets, true, false) == ([], Some(buffer + [rec]), true)
    ensures Receive(buffer, rec, maxPackets, true, false).0 == buffer + [rec]
  {
    PutBackKeepsEverything(buffer, rec, maxPackets, true, false);
  }

  /** The buffer after a run of records, with the intended put-back; `verdicts[i]` is the answer to a flush at the i-th record. */
  function ReceiveAll(buffer: seq<PacketRecord>, recs: seq<PacketRecord>, maxPackets: int, hasCallback: bool, verdicts: seq<bool>): seq<PacketRecord>
    requires |verdicts| == |recs|
  {
    if recs == [] then buffer
    else
      var n := |recs| - 1;
      Receive(ReceiveAll(buffer, recs[..n], maxPackets, hasCallback, verdicts[..n]), recs[n], maxPackets, hasCallback, verdicts[n]).0
  }

  /** With a callback that accepts every batch, the buffer stays below `max_packets` after every packet. */
  lemma {:induction false} AcceptingCallbackKeepsBufferBelowMax(buffer: seq<PacketRecord>, recs: seq<PacketRecord>, maxPackets: int, verdicts: seq<bool>)
    requires |buffer| < maxPackets
    requires |verdicts| == |recs|
    requires forall i :: 0 <= i < |verdicts| ==> verdicts[i]
    ensures |ReceiveAll(buffer, recs, maxPackets, true, verdicts)| < maxPackets
  {
    if recs != [] {
      var n := |recs| - 1;
      AcceptingCallbackKeepsBufferBelowMax(buffer, recs[..n], maxPackets, verdicts[..n]);
      PutBackKeepsEverything(ReceiveAll(buffer, recs[..n], maxPackets, true, verdicts[..n]), recs[n], maxPackets, true, verdicts[n]);
    }
  }

  /** Without a callback the buffer is never flushed: it holds every record in arrival order. */
  lemma {:induction false} NoCallbackKeepsEverything(buffer: seq<PacketRecord>, recs: seq<PacketRecord>, maxPackets: int, verdicts: seq<bool>)
    requires |verdicts| == |recs|
    ensures ReceiveAll(buffer, recs, maxPackets, false, verdicts) == buffer + recs
  {
    if recs != [] {
      var n := |recs| - 1;
      NoCallbackKeepsEverything(buffer, recs[..n], maxPackets, verdicts[..n]);
      assert buffer + recs[..n] + [recs[n]] == buffer + recs;
    }
  }

  class NetworkTrafficCollector {
    const maxPackets: int
    const hasCallback: bool
    /** The answer of the k-th call of the callback. */
    const verdict: nat -> bool

    var packets: seq<PacketRecord>
    /** The batches handed to the callback, in order. */
    var handedOver: seq<seq<PacketRecord>>
    /** The `stop_sniffing` event. */
    var stopped: bool

    /** The default limit is 100 packets. */
    constructor (hasCallback: bool, verdict: nat -> bool, maxPackets: int := 100)
      ensures this.maxPackets == maxPackets && this.hasCallback == hasCallback && this.verdict == verdict
      ensures packets == [] && handedOver == [] && !stopped
    {
      this.maxPackets := maxPackets;
      this.hasCallback := hasCallback;
      this.verdict := verdict;
      packets := [];
      handedOver := [];
      stopped := false;
    }

    /** `start`: clear the stop event (the sniffing thread itself is not modelled). */
    method Start()
      modifies this
      ensures !stopped
      ensures packets == old(packets) && handedOver == old(handedOver)
    {
      stopped := false;
    }

    /** `stop`: set the stop event. */
    method Stop()
      modifies this
      ensures stopped
      ensures packets == old(packets) && handedOver == old(handedOver)
    {
      stopped := true;
    }

    /**
     * `_packet_callback`: after a stop or for a packet without an IP layer
     * nothing changes; otherwise the record is appended, and a due flush
     * hands the buffer to the callback, which the buffer gets back when
     * the callback refuses it.
     */
    method PacketCallback(p: Packet, now: string)
      modifies this
      ensures stopped == old(stopped)
      ensures old(stopped) || p.ip.None? ==> packets == old(packets) && handedOver == old(handedOver)
      ensures !old(stopped) && p.ip.Some? ==>
        var (after, handed) := Receive(old(packets), RecordOf(p, now).value, maxPackets, hasCallback, verdict(|old(handedOver)|));
        && packets == after
        && handedOver == old(handedOver) + (if handed.Some? then [handed.value] else [])
    {
      if stopped {
        return;
      }
      var rec := RecordOf(p, now);
      if rec.Some? {
        packets := packets + [rec.value];
        if |packets| >= maxPackets && hasCallback {
          var packetsToSend := packets;
          packets := [];
          var accepted := verdict(|handedOver|);
          handedOver := handedOver + [packetsToSend];
          if !accepted {
            packets := packetsToSend + packets;
          }
        }
      }
    }

    /** `get_collected_packets`: a copy of the buffer. */
    method GetCollectedPackets() returns (copy: seq<PacketRecord>)
      ensures copy == packets
    {
      copy := packets;
    }

    /** `clear_packets`: empty the buffer. */
    method ClearPackets()
      modifies this
      ensures packets == []
      ensures handedOver == old(handedOver) && stopped == old(stopped)
    {
      packets := [];
    }
  }
}
