/** The daemon's bridge between one guest VM and the hub: it reads one line, checks
    that the guest registers as itself, and only then copies bytes to the hub. */
module GuestBridge {
  import opened Common
  import opened HubIds
  import opened Registry
  import opened Hub
  import HubRpc

  const NEWLINE: byte := 10
  const MAX_REGISTER_LINE: nat := 64 * 1024
  const BUFFER: nat := 4096

  /** What both the bridge and the hub decode a line into. */
  datatype Opening = Opening(source: Id, destination: Id, command: string, payload: Payload)

  datatype Payload = NotAMap | NoKey | BadKey | Key

  /** JSON decoding, shared by both ends: a line decodes to a message or not at all. */
  type Parser = seq<byte> -> Option<Opening>

  // --------------------------------------------------------- reading one line

  /** A buffered reader on the guest connection. `data` is all the guest ever sends
      before the connection ends, `limit` how much of it comes before the read deadline;
      the bytes in [r, w) sit in the buffer. */
  class GuestReader {
    const data: seq<byte>
    var r: nat
    var w: nat
    var limit: nat

    ghost predicate Valid()
      reads this
    {
      r <= w <= limit <= |data|
    }

    constructor (stream: seq<byte>, inTime: nat)
      ensures Valid() && data == stream && r == 0 && data[..limit] == Take(stream, inTime)
    {
      data := stream;
      r, w, limit := 0, 0, if inTime < |stream| then inTime else |stream|;
    }

    /** Refills the buffer with as much as the network happens to have. */
    method ReadByte() returns (b: Option<byte>)
      requires Valid()
      modifies this
      ensures Valid() && limit == old(limit)
      ensures old(r) < limit ==> b == Some(data[old(r)]) && r == old(r) + 1
      ensures old(r) == limit ==> b == None && r == old(r)
    {
      if r == w && w < limit {
        var n :| 1 <= n <= BUFFER;
        w := if w + n < limit then w + n else limit;
      }
      if r == w { return None; }
      b := Some(data[r]);
      r := r + 1;
    }

    /** The deadline is lifted: from now on everything arrives. */
    method ClearDeadline()
      requires Valid()
      modifies this
      ensures Valid() && limit == |data| && r == old(r)
    {
      limit := |data|;
    }

    /** What io.Copy takes from this reader: the buffered bytes first, then the rest
        of the connection. */
    method Drain() returns (rest: seq<byte>)
      requires Valid() && limit == |data|
      modifies this
      ensures Valid() && r == |data| && rest == data[old(r)..]
    {
      rest := data[r..w] + data[w..];
      r, w := |data|, |data|;
    }
  }

  datatype Line = Line(bytes: seq<byte>) | TooLong | Cut

  /** Ends in a newline and has no other. */
  predicate IsLine(s: seq<byte>) {
    s != [] && s[|s| - 1] == NEWLINE && NEWLINE !in s[..|s| - 1]
  }

  /** A stream has one first line. */
  lemma FirstLineIsUnique(data: seq<byte>, a: seq<byte>, b: seq<byte>)
    requires a <= data && b <= data && IsLine(a) && IsLine(b)
    ensures a == b
  {
  }

  /** Where the first newline is, or the length if there is none. */
  function NewlineAt(data: seq<byte>): (i: nat)
    ensures i <= |data| && NEWLINE !in data[..i] && (i < |data| ==> data[i] == NEWLINE)
  {
    if data == [] || data[0] == NEWLINE then 0
    else
      var i := 1 + NewlineAt(data[1..]);
      assert data[..i] == [data[0]] + data[1..][..i - 1];
      i
  }

  /** The verdict on a stream: its first line if that fits, else too long once `max`
      bytes have come, else cut short. */
  function FirstLine(data: seq<byte>, max: nat): (line: Line)
    ensures line.Line? ==> IsLine(line.bytes) && line.bytes <= data && |line.bytes| <= max
    ensures line.TooLong? <==> max <= |data| && NEWLINE !in data[..max]
    ensures line.Cut? <==> |data| < max && NEWLINE !in data
  {
    var i := NewlineAt(data);
    if i < |data| && i < max then assert max <= |data| ==> data[..max][i] == NEWLINE; Line(data[..i + 1])
    else if max <= |data| then assert data[..max] == data[..i][..max]; TooLong
    else Cut
  }

  /** Stops as soon as the cap is reached, without waiting for a full buffer, and
      consumes exactly the line it returns. */
  method ReadLimitedLine(g: GuestReader, max: nat) returns (line: Line)
    requires g.Valid()
    modifies g
    ensures g.Valid() && g.limit == old(g.limit) && line == FirstLine(g.data[old(g.r)..g.limit], max)
    ensures line.Line? ==> g.r == old(g.r) + |line.bytes|
  {
    ghost var rest := g.data[g.r..g.limit];
    var out: seq<byte> := [];
    while true
      invariant g.Valid() && g.limit == old(g.limit) && g.r == old(g.r) + |out|
      invariant out <= rest && |out| <= max && NEWLINE !in out
      decreases max - |out|
    {
      if |out| >= max {
        assert rest[..max] == out;
        return TooLong;
      }
      var b := g.ReadByte();
      if b.None? {
        assert rest == out;
        return Cut;
      }
      assert rest[|out|] == b.value;
      out := out + [b.value];
      if b.value == NEWLINE {
        assert out[..|out| - 1] == rest[..|out| - 1];
        return Line(out);
      }
    }
  }

  // ------------------------------------------------------------- the bridge

  datatype Verdict = Allowed | EmptySource | HostOnlyId | EmptyVm | NotItself

  /** Who a guest on the bridge for `vmId` may register as. */
  function RegisterAllowed(vmId: Id, source: Id): (v: Verdict)
    ensures v == Allowed <==> source == vmId && vmId != "" && !HostOnly(vmId)
  {
    if source == "" then EmptySource
    else if HostOnly(source) then HostOnlyId
    else if vmId == "" then EmptyVm
    else if source != vmId then NotItself
    else Allowed
  }

  /** The bytes that came in time open with a well-formed register line in the guest's
      own name. */
  predicate Admits(parse: Parser, vmId: Id, early: seq<byte>) {
    var line := FirstLine(early, MAX_REGISTER_LINE);
    line.Line? &&
    var msg := parse(line.bytes);
    msg.Some? && msg.value.destination == "hub" && msg.value.command == "register" &&
    RegisterAllowed(vmId, msg.value.source) == Allowed
  }

  /** Spelled out: a complete line of at most 64 KiB, a registration with the hub, in the
      name of the VM, which has one that is not a host's. */
  lemma AdmitsExactly(parse: Parser, vmId: Id, early: seq<byte>)
    ensures Admits(parse, vmId, early) <==>
            && vmId != "" && !HostOnly(vmId)
            && exists line :: IsLine(line) && line <= early && |line| <= 65536 && NamesItself(parse, vmId, line)
  {
    var first := FirstLine(early, MAX_REGISTER_LINE);
    if first.Line? {
      forall line | IsLine(line) && line <= early ensures line == first.bytes {
        FirstLineIsUnique(early, line, first.bytes);
      }
      assert first.bytes <= early;
    } else {
      forall line | IsLine(line) && line <= early ensures |line| > 65536 { LongLine(early, line); }
    }
  }

  predicate NamesItself(parse: Parser, vmId: Id, line: seq<byte>) {
    var msg := parse(line);
    msg.Some? && msg.value.source == vmId && msg.value.destination == "hub" && msg.value.command == "register"
  }

  lemma LongLine(early: seq<byte>, line: seq<byte>)
    requires IsLine(line) && line <= early && !FirstLine(early, MAX_REGISTER_LINE).Line?
    ensures |line| > 65536
  {
    assert early[|line| - 1] == NEWLINE && NEWLINE in early;
  }

  /** The deadline on the register line: whether it can be set, how many bytes come
      before it strikes, and whether it can be lifted again. */
  datatype Deadline = Deadline(sets: bool, inTime: nat, clears: bool)

  /** The hub end of the bridge. `room` is how many bytes the hub takes before its
      side of the connection fails. */
  datatype Dialer = NoDialer | DialFails | Connects(room: nat)

  datatype Outcome = Refused | ClearError | DialError | WriteError | Relayed

  /** One bridged connection. Whatever happens, the hub has received a prefix of the
      guest's own bytes, none lost, repeated or reordered; nothing at all unless the
      first line came in time and was admitted; and everything unless an end failed. */
  method BridgeGuestConn(parse: Parser, vmId: Id, stream: seq<byte>, deadline: Deadline, dialer: Dialer)
    returns (outcome: Outcome, hubGot: seq<byte>)
    ensures outcome == Refused <==>
            dialer.NoDialer? || !deadline.sets || !Admits(parse, vmId, Take(stream, deadline.inTime))
    ensures hubGot ==
            if outcome == Refused || !deadline.clears || !dialer.Connects? then [] else Take(stream, dialer.room)
    ensures outcome != Refused ==>
              var line := FirstLine(Take(stream, deadline.inTime), MAX_REGISTER_LINE).bytes;
              && (outcome == ClearError <==> !deadline.clears)
              && (outcome == DialError <==> deadline.clears && dialer.DialFails?)
              && (outcome == WriteError <==> deadline.clears && dialer.Connects? && dialer.room < |line|)
              && (outcome == Relayed ==> line <= hubGot)
  {
    hubGot := [];
    if dialer.NoDialer? || !deadline.sets { return Refused, hubGot; }
    var guest := new GuestReader(stream, deadline.inTime);
    assert guest.data[guest.r..guest.limit] == Take(stream, deadline.inTime);
    var line := ReadLimitedLine(guest, MAX_REGISTER_LINE);
    if !line.Line? { return Refused, hubGot; }
    var msg := parse(line.bytes);
    if msg.None? || msg.value.destination != "hub" || msg.value.command != "register" { return Refused, hubGot; }
    if RegisterAllowed(vmId, msg.value.source) != Allowed { return Refused, hubGot; }
    if !deadline.clears { return ClearError, hubGot; }
    guest.ClearDeadline();
    if dialer.DialFails? { return DialError, hubGot; }
    if dialer.room < |line.bytes| {
      return WriteError, line.bytes[..dialer.room];
    }
    hubGot := line.bytes;
    var rest := guest.Drain();
    assert stream == line.bytes + rest;
    hubGot := hubGot + Take(rest, dialer.room - |line.bytes|);
    return Relayed, hubGot;
  }

  // ----------------------------------------------------------- the hub's side

  datatype Handshake = Closed | Rejected | GitClient | Registers(source: Id)

  /** The opening of handleConnection on the bytes a connection delivers. */
  function HubHandshake(parse: Parser, received: seq<byte>): (h: Handshake)
    ensures h.Registers? ==> Registrable(h.source)
  {
    var i := NewlineAt(received);
    if i == |received| then Closed
    else
      var msg := parse(received[..i + 1]);
      if msg.None? || msg.value.destination != "hub" || msg.value.command != "register" then Rejected
      else if Reserved(msg.value.source) || msg.value.payload != Key then Rejected
      else if msg.value.source == "git-remote-hub" then GitClient
      else Registers(msg.value.source)
  }

  /** The bytes open with a complete line that decodes to a registration under `id`. */
  ghost predicate OpensAs(parse: Parser, received: seq<byte>, id: Id) {
    exists line :: IsLine(line) && line <= received &&
      parse(line) == Some(Opening(id, "hub", "register", Key)) && Registrable(id)
  }

  /** Exactly such openings register, and under exactly that id; a connection without a
      complete line is closed, and the git client is served apart. */
  lemma HandshakeRegisters(parse: Parser, received: seq<byte>, id: Id)
    ensures HubHandshake(parse, received) == Registers(id) <==> OpensAs(parse, received, id)
    ensures HubHandshake(parse, received) == Closed <==> NEWLINE !in received
    ensures HubHandshake(parse, received) == GitClient <==>
            exists line :: IsLine(line) && line <= received &&
              parse(line) == Some(Opening("git-remote-hub", "hub", "register", Key))
  {
    GitClientIsNotReserved();
    var i := NewlineAt(received);
    if i < |received| {
      var first := received[..i + 1];
      assert first[..i] == received[..i] && IsLine(first);
      forall line | IsLine(line) && line <= received ensures line == first {
        FirstLineIsUnique(received, line, first);
      }
      assert first <= received;
    } else {
      assert received[..i] == received;
    }
  }

  lemma GitClientIsNotReserved()
    ensures !Reserved("git-remote-hub")
  {
    ReservedIds("git-remote-hub");
    assert "git-remote-hub"[0] == 'g' && "hub-perm-fetch-"[0] == 'h' && "channel-facilitator"[0] == 'c';
    assert "daemon-internal"[0] == 'd' && "daemon-temp"[0] == 'd';
    assert "aegis-daemon-temp"[0] == 'a' && "aegis-cli-internal"[0] == 'a';
  }

  /** Both ends read the same first line, so the hub registers nobody but the VM. */
  lemma HandshakeNamesTheVm(parse: Parser, vmId: Id, stream: seq<byte>, early: seq<byte>, hubGot: seq<byte>)
    requires early <= stream && hubGot <= stream
    requires Admits(parse, vmId, early) && HubHandshake(parse, hubGot).Registers?
    ensures HubHandshake(parse, hubGot).source == vmId && !HostOnly(vmId)
  {
    var id := HubHandshake(parse, hubGot).source;
    HandshakeRegisters(parse, hubGot, id);
    var line :| IsLine(line) && line <= hubGot && parse(line) == Some(Opening(id, "hub", "register", Key));
    FirstLineIsUnique(stream, line, FirstLine(early, MAX_REGISTER_LINE).bytes);
  }

  /** A connection that asked for any id but "daemon" speaks under that id only. */
  lemma PeerSpeaksUnderItsId(s: State, c: ConnId)
    requires Reachable(s) && c in s.tables.peers && s.tables.peers[c].source != "daemon"
    ensures s.tables.peers[c].id == s.tables.peers[c].source
    ensures forall i :: 0 <= i < |s.sent| && s.sent[i].msg.from == c ==>
              s.sent[i].msg.source == s.tables.peers[c].source
  {
    ReachableTables(s);
    assert OwnId(s.tables.peers[c], s.tables.counter);
    forall i | 0 <= i < |s.sent| && s.sent[i].msg.from == c ensures s.sent[i].msg.source == s.tables.peers[c].id {
      HubRpc.ForwardedFramesAreHonest(s, i);
    }
  }

  /** End to end: whatever bytes the guest of `vmId` sends, the hub either turns the
      connection away or registers it as `vmId`, and from then on every frame the hub
      forwards from that connection, in any run, names `vmId` as its source. */
  lemma BridgedGuestKeepsItsName(parse: Parser, vmId: Id, stream: seq<byte>, early: seq<byte>, hubGot: seq<byte>,
                                 s: State, c: ConnId)
    requires early <= stream && hubGot <= stream
    requires Admits(parse, vmId, early) && HubHandshake(parse, hubGot).Registers?
    requires Reachable(s) && c in s.tables.peers && s.tables.peers[c].source == HubHandshake(parse, hubGot).source
    ensures s.tables.peers[c].id == vmId && !IsEphemeralClient(vmId)
    ensures forall i :: 0 <= i < |s.sent| && s.sent[i].msg.from == c ==> s.sent[i].msg.source == vmId
  {
    HandshakeNamesTheVm(parse, vmId, stream, early, hubGot);
    GuestIdsExcludeHostClients(vmId, 0);
    PeerSpeaksUnderItsId(s, c);
  }
}
