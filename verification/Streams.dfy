/** Packages over a byte stream: the partial-transfer loops and the framing of shared/src/sockets.c, and
    the PCB messages of shared/src/process.c on top of them. A channel is the bytes sent and not yet
    received, in order; each transfer moves any positive number of bytes up to what was asked. Error and
    disconnect results are not part of this model. */
module Streams {
  import opened Collections
  import opened Process
  import opened Codec
  import opened Buffers

  datatype Package = Package(header: Byte, payload: seq<Byte>)

  // ---------- The bytes of a package ----------

  function Frame(p: Package): seq<Byte>
    requires |p.payload| < WORD_LIMIT
  {
    [p.header] + (WordBytes(|p.payload|) + p.payload)
  }

  predicate AllFit(ps: seq<Package>) { forall i :: 0 <= i < |ps| ==> |ps[i].payload| < WORD_LIMIT }

  function Wire(ps: seq<Package>): seq<Byte>
    requires AllFit(ps)
  {
    if ps == [] then [] else Frame(ps[0]) + Wire(ps[1..])
  }

  /** One byte of header, the length of the payload as a word, and the payload. */
  lemma FrameLayout(p: Package)
    requires |p.payload| < WORD_LIMIT
    ensures Frame(p) != [] && Frame(p)[0] == p.header
    ensures TakeWord(Frame(p), 1) == Some(Taken(|p.payload|, 5))
    ensures |Frame(p)| == 5 + |p.payload| && Frame(p)[5..] == p.payload
  {
    assert Frame(p)[1..5] == WordBytes(|p.payload|);
    WordAt(Frame(p), 1, |p.payload|);
  }

  /** The first frame of a stream can be read in one way only. */
  lemma FrameUnambiguous(p: Package, q: Package, a: seq<Byte>, b: seq<Byte>)
    requires |p.payload| < WORD_LIMIT && |q.payload| < WORD_LIMIT
    requires Frame(p) + a == Frame(q) + b
    ensures p == q && a == b
  {
    var s := Frame(p) + a;
    assert s[0] == p.header && s[0] == q.header;
    assert s[1..5] == WordBytes(|p.payload|) && s[1..5] == WordBytes(|q.payload|);
    WordRoundTrip(|p.payload|);
    WordRoundTrip(|q.payload|);
    var n := |p.payload|;
    assert s[5..5 + n] == p.payload && s[5..5 + n] == q.payload;
    assert s[5 + n..] == a && s[5 + n..] == b;
  }

  /** Two lists of packages with the same bytes are the same list. */
  lemma {:induction false} WireUnambiguous(ps: seq<Package>, qs: seq<Package>)
    requires AllFit(ps) && AllFit(qs) && Wire(ps) == Wire(qs)
    ensures ps == qs
  {
    if ps == [] || qs == [] {
    } else {
      FrameUnambiguous(ps[0], qs[0], Wire(ps[1..]), Wire(qs[1..]));
      WireUnambiguous(ps[1..], qs[1..]);
      assert ps == [ps[0]] + ps[1..] && qs == [qs[0]] + qs[1..];
    }
  }

  // ---------- The channel ----------

  class Channel {
    var bytes: seq<Byte>

    constructor ()
      ensures bytes == []
    {
      bytes := [];
    }

    /** send: any positive part of the data goes out. */
    method Send(data: seq<Byte>) returns (sent: nat)
      requires data != []
      modifies this
      ensures 1 <= sent <= |data| && bytes == old(bytes) + data[..sent]
    {
      sent :| 1 <= sent <= |data|;
      bytes := bytes + data[..sent];
    }

    /** recv: any positive part of what is there, up to `size`, comes in. */
    method Recv(size: nat) returns (received: seq<Byte>)
      requires size > 0 && bytes != []
      modifies this
      ensures 1 <= |received| <= size && old(bytes) == received + bytes
    {
      var n :| 1 <= n <= |bytes| && n <= size;
      received := bytes[..n];
      bytes := bytes[n..];
    }

    // ---------- sockets.c ----------

    method SendAll(buffer: seq<Byte>)
      modifies this
      ensures bytes == old(bytes) + buffer
    {
      var rest := buffer;
      while |rest| > 0
        invariant bytes + rest == old(bytes) + buffer
        decreases |rest|
      {
        ghost var before := bytes;
        var sent := Send(rest);
        assert before + rest == before + rest[..sent] + rest[sent..];
        rest := rest[sent..];
      }
      assert bytes + rest == bytes;
    }

    /** recv_all, which waits until everything asked for has arrived. */
    method RecvAll(size: nat) returns (destination: seq<Byte>)
      requires size <= |bytes|
      modifies this
      ensures |destination| == size && old(bytes) == destination + bytes
    {
      destination := [];
      var left := size;
      while left > 0
        invariant old(bytes) == destination + bytes
        invariant 0 <= left && |destination| + left == size <= |old(bytes)|
        decreases left
      {
        var received := Recv(left);
        destination := destination + received;
        left := left - |received|;
      }
    }

    /** send_package: header, offset as a 32-bit length, and that many bytes of the stream. */
    method SendPackage(header: Byte, payload: Buffer)
      requires payload.Valid() && payload.offset < WORD_LIMIT
      modifies this
      ensures bytes == old(bytes) + Frame(Package(header, payload.Written()))
    {
      SendAll([header]);
      SendAll(WordBytes(payload.offset));
      SendAll(payload.stream[..payload.offset]);
      assert bytes == old(bytes) + Frame(Package(header, payload.Written()));
    }

    method ReceiveHeader() returns (header: Byte)
      requires bytes != []
      modifies this
      ensures old(bytes) == [header] + bytes
    {
      var got := RecvAll(1);
      header := got[0];
      assert got == [header];
    }

    /** receive_payload: the length, then a buffer of exactly that size, to be read from its start. `payload` names
        what the sender framed. */
    method ReceivePayload(ghost payload: seq<Byte>, ghost rest: seq<Byte>) returns (buffer: Buffer)
      requires |payload| < WORD_LIMIT && bytes == WordBytes(|payload|) + payload + rest
      modifies this
      ensures fresh(buffer) && fresh(buffer.stream) && buffer.Valid()
      ensures buffer.offset == 0 && buffer.stream[..] == payload && bytes == rest
    {
      ghost var all := bytes;
      var size := RecvAll(4);
      assert size == all[..4] && all[..4] == WordBytes(|payload|);
      assert bytes == all[4..] && all[4..] == payload + rest;
      WordRoundTrip(|payload|);
      var n := WordOf(size);
      buffer := new Buffer(n);
      ghost var behind := bytes;
      if n != 0 {
        var content := RecvAll(n);
        assert content == behind[..n] && behind[..n] == payload;
        assert bytes == behind[n..] && behind[n..] == rest;
        forall i | 0 <= i < n { buffer.stream[i] := content[i]; }
      }
      assert buffer.stream[..] == payload;
    }

    // ---------- Lists of packages ----------

    /** One package, loaded into a buffer and sent. */
    method SendOne(p: Package)
      requires |p.payload| < WORD_LIMIT
      modifies this
      ensures bytes == old(bytes) + Frame(p)
    {
      var buffer := new Buffer(|p.payload|);
      buffer.AddToBuffer(p.payload);
      SendPackage(p.header, buffer);
      assert buffer.Written() == p.payload;
    }

    method SendPackages(ps: seq<Package>)
      requires AllFit(ps)
      modifies this
      ensures bytes == old(bytes) + Wire(ps)
    {
      hide Frame;
      var i := 0;
      assert ps[0..] == ps;
      while i < |ps|
        invariant i <= |ps|
        invariant bytes + Wire(ps[i..]) == old(bytes) + Wire(ps)
      {
        ghost var before, rest := bytes, Wire(ps[i + 1..]);
        assert ps[i..][1..] == ps[i + 1..];
        assert before + (Frame(ps[i]) + rest) == (before + Frame(ps[i])) + rest;
        SendOne(ps[i]);
        i := i + 1;
      }
      assert bytes + [] == bytes;
    }

    /** Header, length and payload read back, package by package, are the packages sent, and nothing is left over
        or taken from what follows. */
    method ReceivePackages(ghost ps: seq<Package>, count: nat, ghost rest: seq<Byte>) returns (got: seq<Package>)
      requires AllFit(ps) && count == |ps| && bytes == Wire(ps) + rest
      modifies this
      ensures got == ps && bytes == rest
    {
      got := [];
      for i := 0 to count
        invariant got == ps[..i] && bytes == Wire(ps[i..]) + rest
      {
        ghost var p, behind := ps[i], Wire(ps[i + 1..]) + rest;
        assert ps[i..][1..] == ps[i + 1..];
        assert bytes == [p.header] + (WordBytes(|p.payload|) + p.payload + behind);
        ghost var all := bytes;
        var header := ReceiveHeader();
        assert header == all[0] && bytes == all[1..];
        assert bytes == WordBytes(|p.payload|) + p.payload + behind;
        var buffer := ReceivePayload(p.payload, behind);
        got := got + [Package(header, buffer.stream[..])];
      }
      assert bytes == rest;
    }

    // ---------- process.c ----------

    /** send_pcb_and_resource; `size` is the initial buffer size, whatever it is. */
    method SendPcbAndResource(header: Byte, pcb: Pcb, resource: Name, size: nat)
      requires Sendable(pcb) && Short(resource) && |PcbBytes(pcb)| + |StringBytes(resource)| < WORD_LIMIT
      modifies this
      ensures bytes == old(bytes) + Frame(Package(header, PcbBytes(pcb) + StringBytes(resource)))
    {
      hide PcbBytes, StringBytes, Frame;
      var payload := new Buffer(size);
      payload.AddPcb(pcb);
      payload.AddString(resource);
      assert payload.Written() == PcbBytes(pcb) + StringBytes(resource);
      SendPackage(header, payload);
    }

    /** The receiving side of WAIT_REQUEST and SIGNAL_REQUEST (kernel/src/handle_connection.c:151-170): the PCB and the
        resource that were sent come out, and the channel is where the next package starts. */
    method ReceivePcbAndResource(ghost header: Byte, ghost pcb: Pcb, ghost resource: Name, ghost rest: seq<Byte>)
        returns (gotHeader: Byte, gotPcb: Pcb, gotResource: Name)
      requires Sendable(pcb) && Short(resource) && |PcbBytes(pcb)| + |StringBytes(resource)| < WORD_LIMIT
      requires bytes == Frame(Package(header, PcbBytes(pcb) + StringBytes(resource))) + rest
      modifies this
      ensures gotHeader == header && gotPcb == pcb && gotResource == resource && bytes == rest
    {
      hide PcbBytes, StringBytes, TakePcb, TakeString;
      ghost var payload := PcbBytes(pcb) + StringBytes(resource);
      ghost var all := bytes;
      assert all == [header] + (WordBytes(|payload|) + payload + rest);
      gotHeader := ReceiveHeader();
      assert gotHeader == all[0] && bytes == all[1..];
      var buffer := ReceivePayload(payload, rest);
      PcbAndResource([], pcb, resource, []);
      assert [] + PcbBytes(pcb) + StringBytes(resource) + [] == buffer.stream[..];
      gotPcb := buffer.TakePcbFromBuffer();
      gotResource := buffer.TakeName();
    }

    /** send_sleep. */
    method SendSleep(header: Byte, pcb: Pcb, sleepTime: Int32, size: nat)
      requires Sendable(pcb) && |PcbBytes(pcb)| + 4 < WORD_LIMIT
      modifies this
      ensures bytes == old(bytes) + Frame(Package(header, PcbBytes(pcb) + IntBytes(sleepTime)))
    {
      hide PcbBytes, IntBytes, Frame;
      var payload := new Buffer(size);
      payload.AddPcb(pcb);
      payload.AddInt32(sleepTime);
      assert payload.Written() == PcbBytes(pcb) + IntBytes(sleepTime);
      SendPackage(header, payload);
    }

    /** The receiving side of SLEEP_REQUEST (kernel/src/handle_connection.c:171-181). */
    method ReceiveSleep(ghost header: Byte, ghost pcb: Pcb, ghost sleepTime: Int32, ghost rest: seq<Byte>)
        returns (gotHeader: Byte, gotPcb: Pcb, gotTime: Int32)
      requires Sendable(pcb) && |PcbBytes(pcb)| + 4 < WORD_LIMIT
      requires bytes == Frame(Package(header, PcbBytes(pcb) + IntBytes(sleepTime))) + rest
      modifies this
      ensures gotHeader == header && gotPcb == pcb && gotTime == sleepTime && bytes == rest
    {
      hide PcbBytes, IntBytes, TakePcb, TakeInt32;
      ghost var payload := PcbBytes(pcb) + IntBytes(sleepTime);
      ghost var all := bytes;
      assert all == [header] + (WordBytes(|payload|) + payload + rest);
      gotHeader := ReceiveHeader();
      assert gotHeader == all[0] && bytes == all[1..];
      var buffer := ReceivePayload(payload, rest);
      PcbAndSleepTime([], pcb, sleepTime, []);
      assert [] + PcbBytes(pcb) + IntBytes(sleepTime) + [] == buffer.stream[..];
      gotPcb := buffer.TakePcbFromBuffer();
      gotTime := buffer.TakeInt();
    }
  }
}
