/**
 * The test receiver (test.py): a 4-byte big-endian length header, then
 * exactly that many payload bytes read in chunks of at most 1024, and a
 * per-client loop that turns each decoded message into log lines.
 *
 * A client socket is the byte stream still to arrive plus an oracle
 * `grant(k)` for how many bytes the k-th `recv` hands back (at least one
 * while bytes remain, never more than asked for or available). Unpickling
 * is a given function; `None` stands for an exception. The shutdown flag is
 * an oracle `shutdown(k)`, read before the k-th round.
 */
module FrameServer {
  import opened Wrappers

  newtype byte = x: int | 0 <= x < 256

  function Min(a: int, b: int): int {
    if a <= b then a else b
  }

  /** The number of bytes `recv(n)` returns on `stream` when the oracle offers `g`. */
  function Granted(stream: seq<byte>, g: nat, n: nat): (r: nat)
    ensures r <= n && r <= |stream|
    ensures n > 0 && stream != [] ==> r >= 1
    ensures n == 0 || stream == [] ==> r == 0
  {
    if n == 0 || stream == [] then 0
    else if g < 1 then 1
    else Min(g, Min(n, |stream|))
  }

  /** `struct.unpack('!I', h)[0]`. */
  function BigEndian32(h: seq<byte>): (n: nat)
    requires |h| == 4
    ensures n < 0x1_0000_0000
  {
    ((h[0] as int * 256 + h[1] as int) * 256 + h[2] as int) * 256 + h[3] as int
  }

  /** `struct.pack('!I', n)`. */
  function EncodeBigEndian32(n: nat): (h: seq<byte>)
    requires n < 0x1_0000_0000
    ensures |h| == 4
  {
    [(n / 0x100_0000) as byte, (n / 0x1_0000 % 256) as byte, (n / 256 % 256) as byte, (n % 256) as byte]
  }

  /** Decoding the packed header gives back the length. */
  lemma HeaderRoundTrip(n: nat)
    requires n < 0x1_0000_0000
    ensures BigEndian32(EncodeBigEndian32(n)) == n
  {
    var h := EncodeBigEndian32(n);
    assert (n / 0x100_0000) * 256 + n / 0x1_0000 % 256 == n / 0x1_0000;
    assert (n / 0x1_0000) * 256 + n / 256 % 256 == n / 256;
    assert (n / 256) * 256 + n % 256 == n;
  }

  /** Encoding a decoded header gives back the header. */
  lemma HeaderRoundTripBytes(h: seq<byte>)
    requires |h| == 4
    ensures EncodeBigEndian32(BigEndian32(h)) == h
  {
    var n := BigEndian32(h);
    assert n / 0x100_0000 == h[0] as int;
    assert n / 0x1_0000 % 256 == h[1] as int;
    assert n / 256 % 256 == h[2] as int;
    assert n % 256 == h[3] as int;
  }

  class ClientSocket {
    const grant: nat -> nat
    /** The bytes still to arrive. */
    var stream: seq<byte>
    var recvCount: nat
    /** The sizes every `recv` asked for, in order. */
    var requested: seq<nat>
    var closed: bool

    constructor (stream: seq<byte>, grant: nat -> nat)
      ensures this.stream == stream && this.grant == grant
      ensures recvCount == 0 && requested == [] && !closed
    {
      this.stream := stream;
      this.grant := grant;
      recvCount := 0;
      requested := [];
      closed := false;
    }

    /** `recv(n)`: the next bytes of the stream, as many as the oracle grants. */
    method Recv(n: nat) returns (chunk: seq<byte>)
      modifies this
      ensures chunk == old(stream)[..Granted(old(stream), grant(old(recvCount)), n)]
      ensures stream == old(stream)[|chunk|..]
      ensures recvCount == old(recvCount) + 1 && requested == old(requested) + [n] && closed == old(closed)
    {
      var m := Granted(stream, grant(recvCount), n);
      chunk := stream[..m];
      stream := stream[m..];
      recvCount := recvCount + 1;
      requested := requested + [n];
    }

    method Close()
      modifies this
      ensures closed
      ensures stream == old(stream) && recvCount == old(recvCount) && requested == old(requested)
    {
      closed := true;
    }
  }

  /** The header read gets all four bytes. */
  predicate FullHeader(stream: seq<byte>, g: nat) {
    Granted(stream, g, 4) == 4
  }

  /** Where a framed read ends: the frame (`None` for every failure), the bytes left unread, and the read counter after it. */
  datatype Read = Read(frame: Option<seq<byte>>, rest: seq<byte>, next: nat)

  /**
   * The counter after the payload loop, with `remaining` bytes still
   * wanted from `s`, starting at read number `rc`: one read per chunk, and
   * one more, empty, read when the stream runs dry.
   */
  function PayloadReads(s: seq<byte>, grant: nat -> nat, rc: nat, remaining: nat): (r: nat)
    ensures r >= rc
    decreases remaining
  {
    if remaining == 0 then rc
    else
      var k := Granted(s, grant(rc), Min(1024, remaining));
      if k == 0 then rc + 1 else PayloadReads(s[k..], grant, rc + 1, remaining - k)
  }

  /** What `receive_data` does to a stream `s` whose next read is number `rc`. */
  function ReceiveSpec(s: seq<byte>, grant: nat -> nat, rc: nat): (r: Read)
    ensures |r.rest| <= |s| && r.next > rc
  {
    var h := Granted(s, grant(rc), 4);
    if h == 0 then Read(None, s, rc + 1)
    else if h != 4 then Read(None, s[h..], rc + 1)
    else
      var n := BigEndian32(s[..4]);
      var next := PayloadReads(s[4..], grant, rc + 1, n);
      if |s| >= 4 + n then Read(Some(s[4..4 + n]), s[4 + n..], next)
      else Read(None, [], next)
  }

  /** One chunk of the payload loop. */
  lemma PayloadStep(s: seq<byte>, j: nat, n: nat, grant: nat -> nat, rc: nat)
    requires j <= |s| && j < n
    ensures var k := Granted(s[j..], grant(rc), Min(1024, n - j));
      && (k == 0 ==> PayloadReads(s[j..], grant, rc, n - j) == rc + 1)
      && (k > 0 ==> PayloadReads(s[j..], grant, rc, n - j) == PayloadReads(s[j + k..], grant, rc + 1, n - (j + k)))
  {
    var k := Granted(s[j..], grant(rc), Min(1024, n - j));
    assert s[j..][k..] == s[j + k..];
  }

  /** The payload loop stops at the wanted length, or at the end of the stream when that is shorter. */
  lemma {:induction false} PayloadConsumes(s: seq<byte>, grant: nat -> nat, rc: nat, remaining: nat)
    ensures PayloadReads(s, grant, rc, remaining) - rc <= remaining + 1
    ensures remaining > 0 ==> PayloadReads(s, grant, rc, remaining) > rc
    decreases remaining
  {
    if remaining > 0 {
      var k := Granted(s, grant(rc), Min(1024, remaining));
      if k > 0 {
        PayloadConsumes(s[k..], grant, rc + 1, remaining - k);
      }
    }
  }

  /**
   * What `receive_data` returns: `None` for an empty or short header (the
   * second makes `struct.unpack` raise) and for a stream that ends before
   * the payload; otherwise exactly the payload, the rest left unread.
   */
  lemma ReceiveSpecFrame(s: seq<byte>, grant: nat -> nat, rc: nat)
    ensures var r := ReceiveSpec(s, grant, rc);
      && (s == [] ==> r.frame == None)
      && (r.frame.Some? <==> FullHeader(s, grant(rc)) && |s| >= 4 + BigEndian32(s[..4]))
      && (r.frame.Some? ==>
            var n := BigEndian32(s[..4]);
            r.frame.value == s[4..4 + n] && r.rest == s[4 + n..])
  {
  }

  /** `receive_data`, read by read: a four-byte header request, then chunks of at most 1024 bytes. */
  method ReceiveData(sock: ClientSocket) returns (frame: Option<seq<byte>>)
    modifies sock
    ensures Read(frame, sock.stream, sock.recvCount) == ReceiveSpec(old(sock.stream), sock.grant, old(sock.recvCount))
    ensures sock.closed == old(sock.closed)
    ensures |sock.requested| > |old(sock.requested)| && sock.requested[|old(sock.requested)|] == 4
    ensures forall i :: |old(sock.requested)| < i < |sock.requested| ==> sock.requested[i] <= 1024
  {
    ghost var s0 := sock.stream;
    var rawLength := sock.Recv(4);
    if rawLength == [] {
      return None;
    }
    if |rawLength| != 4 {
      return None;
    }
    assert rawLength == s0[..4];
    var dataLength := BigEndian32(rawLength);
    frame := ReceivePayload(sock, dataLength);
    if frame.Some? {
      assert s0[4..][..dataLength] == s0[4..4 + dataLength] && s0[4..][dataLength..] == s0[4 + dataLength..];
    }
  }

  /** The payload loop of `receive_data`: `n` bytes, or `None` once a read comes back empty. */
  method ReceivePayload(sock: ClientSocket, n: nat) returns (frame: Option<seq<byte>>)
    modifies sock
    ensures frame.Some? <==> |old(sock.stream)| >= n
    ensures frame.Some? ==> frame.value == old(sock.stream)[..n] && sock.stream == old(sock.stream)[n..]
    ensures frame.None? ==> sock.stream == []
    ensures sock.recvCount == PayloadReads(old(sock.stream), sock.grant, old(sock.recvCount), n)
    ensures sock.closed == old(sock.closed)
    ensures |sock.requested| >= |old(sock.requested)|
    ensures forall i :: 0 <= i < |old(sock.requested)| ==> sock.requested[i] == old(sock.requested)[i]
    ensures forall i :: |old(sock.requested)| <= i < |sock.requested| ==> sock.requested[i] <= 1024
  {
    ghost var s0 := sock.stream;
    ghost var log0 := sock.requested;
    ghost var total := PayloadReads(s0, sock.grant, sock.recvCount, n);
    var receivedData: seq<byte> := [];
    var pos := 0;
    while |receivedData| < n
      invariant pos == |receivedData| && pos <= n && pos <= |s0|
      invariant receivedData == s0[..pos]
      invariant sock.stream == s0[pos..]
      invariant PayloadReads(s0[pos..], sock.grant, sock.recvCount, n - pos) == total
      invariant sock.closed == old(sock.closed)
      invariant |sock.requested| >= |log0|
      invariant forall i :: 0 <= i < |log0| ==> sock.requested[i] == log0[i]
      invariant forall i :: |log0| <= i < |sock.requested| ==> sock.requested[i] <= 1024
      decreases n - |receivedData|
    {
      var chunk := ReadChunk(sock, s0, pos, n);
      if chunk == [] {
        return None;
      }
      SliceSplit(s0, 0, pos, pos + |chunk|);
      receivedData := receivedData + chunk;
      pos := pos + |chunk|;
    }
    return Some(receivedData);
  }

  /** One `recv(min(1024, n - pos))` of the payload loop, the first `pos` bytes of `s0` being in already. */
  method ReadChunk(sock: ClientSocket, ghost s0: seq<byte>, pos: nat, n: nat) returns (chunk: seq<byte>)
    requires pos <= |s0| && pos < n && sock.stream == s0[pos..]
    modifies sock
    ensures pos + |chunk| <= |s0| && pos + |chunk| <= n && chunk == s0[pos..pos + |chunk|] && sock.stream == s0[pos + |chunk|..]
    ensures chunk == [] ==> sock.stream == [] && PayloadReads(s0[pos..], sock.grant, old(sock.recvCount), n - pos) == sock.recvCount
    ensures chunk != [] ==>
      PayloadReads(s0[pos..], sock.grant, old(sock.recvCount), n - pos) ==
      PayloadReads(s0[pos + |chunk|..], sock.grant, sock.recvCount, n - (pos + |chunk|))
    ensures sock.requested == old(sock.requested) + [Min(1024, n - pos)] && sock.closed == old(sock.closed)
  {
    PayloadStep(s0, pos, n, sock.grant, sock.recvCount);
    chunk := sock.Recv(Min(1024, n - pos));
    assert s0[pos..][..|chunk|] == s0[pos..pos + |chunk|];
    assert s0[pos..][|chunk|..] == s0[pos + |chunk|..];
  }

  lemma SliceSplit(s: seq<byte>, i: nat, j: nat, k: nat)
    requires i <= j <= k <= |s|
    ensures s[i..k] == s[i..j] + s[j..k]
  {
  }

  /** A message's `data` entry: a dictionary (its entries in insertion order, values as text) or a list of packets. */
  datatype Content = Fields(entries: seq<(string, string)>) | Packets(items: seq<string>)

  /** What unpickling yields: the `type` entry and the `data` entry, each `None` when missing. */
  datatype Decoded = Decoded(dataType: Option<string>, data: Option<Content>)

  /** `dict.get(key, default)`, for a dictionary given by its entries. */
  function Lookup(entries: seq<(string, string)>, key: string, default: string): (v: string)
    ensures (forall i :: 0 <= i < |entries| ==> entries[i].0 != key) ==> v == default
    ensures (exists i :: 0 <= i < |entries| && entries[i].0 == key) ==> exists i :: 0 <= i < |entries| && entries[i] == (key, v)
  {
    if entries == [] then default
    else if entries[0].0 == key then entries[0].1
    else
      var v := Lookup(entries[1..], key, default);
      assert forall i :: 0 <= i < |entries| - 1 ==> entries[1..][i] == entries[i + 1];
      v
  }

  /** Iterating a dictionary yields its keys. */
  function Keys(entries: seq<(string, string)>): (ks: seq<string>)
    ensures |ks| == |entries| && forall i :: 0 <= i < |entries| ==> ks[i] == entries[i].0
  {
    if entries == [] then [] else [entries[0].0] + Keys(entries[1..])
  }

  const NoneGet := "Error deserializing data: 'NoneType' object has no attribute 'get'"
  const ListGet := "Error deserializing data: 'list' object has no attribute 'get'"
  const NoneIter := "Error deserializing data: 'NoneType' object is not iterable"

  /** The error `.get` raises on a `data` entry that is not a dictionary. */
  function GetError(data: Option<Content>): string
    requires !(data.Some? && data.value.Fields?)
  {
    if data.None? then NoneGet else ListGet
  }

  /** The log lines one received message adds (`None` is a failed receive, on which `.get` raises). */
  function Dispatch(received: Option<Decoded>): seq<string> {
    match received
    case None => [NoneGet]
    case Some(d) =>
      if d.dataType == Some("resource") then
        ["Received Resource Metrics:"] +
          match d.data
          case Some(Fields(e)) =>
            ["CPU: " + Lookup(e, "cpu", "{}"), "RAM: " + Lookup(e, "ram", "{}"),
             "ROM: " + Lookup(e, "rom", "{}"), "Network: " + Lookup(e, "network", "{}")]
          case _ => [GetError(d.data)]
      else if d.dataType == Some("traffic") then
        ["Received Traffic Packets:"] +
          match d.data
          case None => [NoneIter]
          case Some(Packets(ps)) => ps
          case Some(Fields(e)) => Keys(e)
      else if d.dataType == Some("user_activity") then
        ["Received User Activity Data:"] +
          match d.data
          case Some(Fields(e)) =>
            ["Logged-in Users: " + Lookup(e, "logged_in_users", "[]"),
             "Running Processes: " + Lookup(e, "running_processes", "[]")]
          case _ => [GetError(d.data)]
      else ["Unknown data type received."]
  }

  /** A failed receive logs the error `.get` raises on `None`; a message of any other type logs one line. */
  lemma DispatchOtherLines(received: Option<Decoded>)
    ensures received.None? ==> Dispatch(received) == [NoneGet]
    ensures received.Some? && received.value.dataType !in {Some("resource"), Some("traffic"), Some("user_activity")} ==>
      Dispatch(received) == ["Unknown data type received."]
  {
  }

  /**
   * A resource message logs its header, then its CPU, RAM, ROM and network
   * values (`{}` for an absent one), or the error `.get` raises on a
   * missing or list `data`.
   */
  lemma DispatchResourceLines(d: Decoded)
    requires d.dataType == Some("resource")
    ensures d.data.None? ==> Dispatch(Some(d)) == ["Received Resource Metrics:", NoneGet]
    ensures d.data.Some? && d.data.value.Packets? ==> Dispatch(Some(d)) == ["Received Resource Metrics:", ListGet]
    ensures d.data.Some? && d.data.value.Fields? ==>
      var e := d.data.value.entries;
      Dispatch(Some(d)) == ["Received Resource Metrics:", "CPU: " + Lookup(e, "cpu", "{}"), "RAM: " + Lookup(e, "ram", "{}"),
                            "ROM: " + Lookup(e, "rom", "{}"), "Network: " + Lookup(e, "network", "{}")]
  {
  }

  /** A traffic message logs its header, then one line per packet (per key of a dictionary), or the iteration error on a missing `data`. */
  lemma DispatchTrafficLines(d: Decoded)
    requires d.dataType == Some("traffic")
    ensures d.data.None? ==> Dispatch(Some(d)) == ["Received Traffic Packets:", NoneIter]
    ensures d.data.Some? && d.data.value.Packets? ==> Dispatch(Some(d)) == ["Received Traffic Packets:"] + d.data.value.items
    ensures d.data.Some? && d.data.value.Fields? ==> Dispatch(Some(d)) == ["Received Traffic Packets:"] + Keys(d.data.value.entries)
  {
  }

  /**
   * A user activity message logs its header, then its logged-in users and
   * running processes (`[]` for an absent one), or the error `.get` raises
   * on a missing or list `data`.
   */
  lemma DispatchUserActivityLines(d: Decoded)
    requires d.dataType == Some("user_activity")
    ensures d.data.None? ==> Dispatch(Some(d)) == ["Received User Activity Data:", NoneGet]
    ensures d.data.Some? && d.data.value.Packets? ==> Dispatch(Some(d)) == ["Received User Activity Data:", ListGet]
    ensures d.data.Some? && d.data.value.Fields? ==>
      var e := d.data.value.entries;
      Dispatch(Some(d)) == ["Received User Activity Data:", "Logged-in Users: " + Lookup(e, "logged_in_users", "[]"),
                            "Running Processes: " + Lookup(e, "running_processes", "[]")]
  {
  }

  function DispatchAll(received: seq<Option<Decoded>>): seq<string> {
    if received == [] then []
    else DispatchAll(received[..|received| - 1]) + Dispatch(received[|received| - 1])
  }

  /** The message a framed read hands to the dispatcher. */
  function Message(frame: Option<seq<byte>>, unpickle: seq<byte> -> Option<Decoded>): Option<Decoded> {
    if frame.Some? then unpickle(frame.value) else None
  }

  /**
   * The messages `handle_client` receives from stream `s`, from round
   * `round` on, the next read being number `rc`: each round that is not
   * shut down and whose leading `recv(4096)` gets bytes drops those bytes
   * and reads one framed message from what follows.
   */
  function Serve(s: seq<byte>, grant: nat -> nat, rc: nat, round: nat,
                 unpickle: seq<byte> -> Option<Decoded>, shutdown: nat -> bool): (r: seq<Option<Decoded>>)
    decreases |s|
  {
    if shutdown(round) then []
    else
      var k := Granted(s, grant(rc), 4096);
      if k == 0 then []
      else
        var read := ReceiveSpec(s[k..], grant, rc + 1);
        [Message(read.frame, unpickle)] + Serve(read.rest, grant, read.next, round + 1, unpickle, shutdown)
  }

  /** Every round consumes at least one byte, so a client gets at most as many rounds as it sent bytes. */
  lemma {:induction false} ServeBounded(s: seq<byte>, grant: nat -> nat, rc: nat, round: nat,
                                        unpickle: seq<byte> -> Option<Decoded>, shutdown: nat -> bool)
    ensures |Serve(s, grant, rc, round, unpickle, shutdown)| <= |s|
    decreases |s|
  {
    if !shutdown(round) {
      var k := Granted(s, grant(rc), 4096);
      if k > 0 {
        var read := ReceiveSpec(s[k..], grant, rc + 1);
        ServeBounded(read.rest, grant, read.next, round + 1, unpickle, shutdown);
      }
    }
  }

  /** The whole log of one connection. */
  function Session(address: string, s: seq<byte>, grant: nat -> nat, rc: nat,
                   unpickle: seq<byte> -> Option<Decoded>, shutdown: nat -> bool): seq<string> {
    ["Connection established with " + address] + DispatchAll(Serve(s, grant, rc, 0, unpickle, shutdown)) + ["Closing connection with " + address]
  }

  /**
   * `handle_client`: while no shutdown is signalled, read up to 4096 bytes
   * and stop if none came, then receive one framed message and log it; the
   * connection is always closed. The bytes of the first read are dropped.
   */
  method HandleClient(sock: ClientSocket, address: string, unpickle: seq<byte> -> Option<Decoded>, shutdown: nat -> bool)
    returns (queue: seq<string>)
    modifies sock
    ensures queue == Session(address, old(sock.stream), sock.grant, old(sock.recvCount), unpickle, shutdown)
    ensures sock.closed
  {
    var opening := "Connection established with " + address;
    queue := [opening];
    ghost var received: seq<Option<Decoded>> := [];
    ghost var all := Serve(sock.stream, sock.grant, sock.recvCount, 0, unpickle, shutdown);
    var round := 0;
    while !shutdown(round)
      invariant queue == [opening] + DispatchAll(received)
      invariant received + Serve(sock.stream, sock.grant, sock.recvCount, round, unpickle, shutdown) == all
      decreases |sock.stream|
    {
      ghost var s1, rc1 := sock.stream, sock.recvCount;
      var more, message := ReceiveRound(sock, unpickle);
      if !more {
        assert Serve(s1, sock.grant, rc1, round, unpickle, shutdown) == [];
        MessagesNil(received);
        break;
      }
      ServeStep(s1, sock.grant, rc1, round, unpickle, shutdown);
      MessagesAssoc(received, message, Serve(sock.stream, sock.grant, sock.recvCount, round + 1, unpickle, shutdown));
      DispatchAllSnoc(received, message);
      AppendAssoc([opening], DispatchAll(received), Dispatch(message));
      received := received + [message];
      queue := queue + Dispatch(message);
      round := round + 1;
    }
    MessagesNil(received);
    assert received == all;
    queue := queue + ["Closing connection with " + address];
    sock.Close();
  }

  /** A round that is not shut down and gets bytes contributes one message, and the session goes on from where its framed read stopped. */
  lemma ServeStep(s: seq<byte>, grant: nat -> nat, rc: nat, round: nat,
                  unpickle: seq<byte> -> Option<Decoded>, shutdown: nat -> bool)
    requires !shutdown(round) && Granted(s, grant(rc), 4096) > 0
    ensures var read := ReceiveSpec(s[Granted(s, grant(rc), 4096)..], grant, rc + 1);
      Serve(s, grant, rc, round, unpickle, shutdown) ==
        [Message(read.frame, unpickle)] + Serve(read.rest, grant, read.next, round + 1, unpickle, shutdown)
  {
  }

  /** One round of `handle_client`: the leading read, and when it got bytes, one framed message, unpickled. */
  method ReceiveRound(sock: ClientSocket, unpickle: seq<byte> -> Option<Decoded>) returns (more: bool, message: Option<Decoded>)
    modifies sock
    ensures var k := Granted(old(sock.stream), sock.grant(old(sock.recvCount)), 4096);
      && (more <==> k > 0)
      && (more ==>
            var read := ReceiveSpec(old(sock.stream)[k..], sock.grant, old(sock.recvCount) + 1);
            && message == Message(read.frame, unpickle)
            && sock.stream == read.rest && sock.recvCount == read.next)
    ensures sock.closed == old(sock.closed)
  {
    var data := sock.Recv(4096);
    if data == [] {
      return false, None;
    }
    var frame := ReceiveData(sock);
    message := if frame.Some? then unpickle(frame.value) else None;
    more := true;
  }

  lemma AppendAssoc(a: seq<string>, b: seq<string>, c: seq<string>)
    ensures (a + b) + c == a + (b + c)
  {
  }

  lemma MessagesNil(a: seq<Option<Decoded>>)
    ensures a + [] == a
  {
  }

  lemma MessagesAssoc(a: seq<Option<Decoded>>, m: Option<Decoded>, b: seq<Option<Decoded>>)
    ensures (a + [m]) + b == a + ([m] + b)
  {
  }

  lemma DispatchAllSnoc(received: seq<Option<Decoded>>, message: Option<Decoded>)
    ensures DispatchAll(received + [message]) == DispatchAll(received) + Dispatch(message)
  {
    assert (received + [message])[..|received|] == received;
  }

  /**
   * The leading `recv(4096)` eats the start of the stream: a client that
   * sends one whole frame, read at once by that first call, has its frame
   * dropped; the framed read that follows finds nothing, and the `.get` on
   * its `None` result is the one line logged between greeting and closing.
   */
  lemma LeadingReadSwallowsFrame(address: string, payload: seq<byte>, grant: nat -> nat, rc: nat,
                                 unpickle: seq<byte> -> Option<Decoded>, shutdown: nat -> bool)
    requires |payload| + 4 <= 4096 && grant(rc) >= |payload| + 4 && !shutdown(0)
    ensures Session(address, EncodeBigEndian32(|payload|) + payload, grant, rc, unpickle, shutdown) ==
      ["Connection established with " + address, NoneGet, "Closing connection with " + address]
  {
    var frame := EncodeBigEndian32(|payload|) + payload;
    assert Granted(frame, grant(rc), 4096) == |frame|;
    assert frame[|frame|..] == [];
    var read := ReceiveSpec([], grant, rc + 1);
    assert read == Read(None, [], rc + 2);
    assert Serve([], grant, rc + 2, 1, unpickle, shutdown) == [];
    assert Serve(frame, grant, rc, 0, unpickle, shutdown) == [None];
    var one: seq<Option<Decoded>> := [None];
    assert one[..0] == [];
    assert DispatchAll(one) == [NoneGet];
  }
}
