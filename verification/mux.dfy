/** Many streams over one pair of pipes: the host end (internal/hostservice/chrome_windows_wsl_linux.go)
    and the Windows end (internal/windowsbridge/execute_windows.go) of the framed multiplexer. */
module Mux {
  import opened Options
  import opened FrameCodec

  type StreamId = uint32

  /** What has become of a stream's connection at one end; a stream not listed was never opened there. */
  datatype Stage = Open | Over

  /** The goroutine that reads one connection and writes frames. */
  datatype Pump = Reading | Holding(chunk: seq<byte>) | Ending | Finished

  /** One end. `read`, `sent` and `delivered` are history variables: the bytes read from a connection, those
      of them that were put into frames, and the bytes written to it. */
  datatype End = End(
    stage: map<StreamId, Stage>,
    pumps: map<StreamId, Pump>,
    read: map<StreamId, seq<byte>>,
    sent: map<StreamId, seq<byte>>,
    delivered: map<StreamId, seq<byte>>)

  /** `announcing`: accepted, and its Open frame not written yet. `dead`: relayFrames has returned. */
  datatype Bridge = Bridge(
    host: End, windows: End,
    toWindows: seq<Frame>, toHost: seq<Frame>,
    nextID: StreamId, announcing: Option<StreamId>, dead: bool)

  function Of(m: map<StreamId, seq<byte>>, id: StreamId): seq<byte> {
    if id in m then m[id] else []
  }

  function Add(m: map<StreamId, seq<byte>>, id: StreamId, bytes: seq<byte>): map<StreamId, seq<byte>> {
    m[id := Of(m, id) + bytes]
  }

  // ---------- Steps ----------

  datatype Event =
    | Accept
    | Announce(works: bool)
    | ReadChunk(atHost: bool, id: StreamId, chunk: seq<byte>)
    | SendChunk(atHost: bool, id: StreamId, works: bool)
    | ReadEnds(atHost: bool, id: StreamId)
    | SendClose(atHost: bool, id: StreamId, works: bool)
    | HostReceives(written: nat)
    | WindowsReceives(dials: bool, written: nat, raced: bool)
    | HostStops
    | WindowsStops

  /** The buffer a pump reads into. */
  const BUFFER := 0x8000

  function EndAt(m: Bridge, atHost: bool): End {
    if atHost then m.host else m.windows
  }

  function WithEnd(m: Bridge, atHost: bool, e: End): Bridge {
    if atHost then m.(host := e) else m.(windows := e)
  }

  function WithFrame(m: Bridge, atHost: bool, f: Frame): Bridge {
    if atHost then m.(toWindows := m.toWindows + [f]) else m.(toHost := m.toHost + [f])
  }

  /** `closeStream`. */
  function Shut(e: End, id: StreamId): End {
    if id in e.stage then e.(stage := e.stage[id := Over]) else e
  }

  /** An event can happen now. Fewer than 2^32 streams are accepted. */
  predicate Enabled(m: Bridge, event: Event) {
    match event
    case Accept => m.announcing.None? && m.nextID + 1 < 0x1_0000_0000
    case Announce(_) => m.announcing.Some?
    case ReadChunk(atHost, id, chunk) =>
      var e := EndAt(m, atHost);
      id in e.pumps && e.pumps[id] == Reading && 0 < |chunk| <= BUFFER
    case SendChunk(atHost, id, _) => id in EndAt(m, atHost).pumps && EndAt(m, atHost).pumps[id].Holding?
    case ReadEnds(atHost, id) => id in EndAt(m, atHost).pumps && EndAt(m, atHost).pumps[id] == Reading
    case SendClose(atHost, id, _) => id in EndAt(m, atHost).pumps && EndAt(m, atHost).pumps[id] == Ending
    case HostReceives(_) => m.toHost != []
    case WindowsReceives(_, _, _) => m.toWindows != [] && !m.dead
    case HostStops => true
    case WindowsStops => true
  }

  /** The accept loop takes a connection and puts it into the map. */
  function Accepted(m: Bridge): Bridge
    requires m.nextID + 1 < 0x1_0000_0000
  {
    var id := m.nextID + 1;
    m.(nextID := id, announcing := Some(id), host := m.host.(stage := m.host.stage[id := Open]))
  }

  /** It writes the Open frame and starts the pump; or closes the stream when the write fails. */
  function Announced(m: Bridge, works: bool): Bridge
    requires m.announcing.Some?
  {
    var id := m.announcing.value;
    if works then
      m.(toWindows := m.toWindows + [Frame(id, OPEN, [])], announcing := None,
         host := m.host.(pumps := m.host.pumps[id := Reading]))
    else
      m.(announcing := None, host := Shut(m.host, id))
  }

  function ChunkRead(e: End, id: StreamId, chunk: seq<byte>): End {
    e.(read := Add(e.read, id, chunk), pumps := e.pumps[id := Holding(chunk)])
  }

  function ChunkSent(e: End, id: StreamId): End
    requires id in e.pumps && e.pumps[id].Holding?
  {
    e.(sent := Add(e.sent, id, e.pumps[id].chunk), pumps := e.pumps[id := Reading])
  }

  function Ended(e: End, id: StreamId, pump: Pump): End {
    Shut(e, id).(pumps := e.pumps[id := pump])
  }

  /** The bytes of a Data frame are written to the connection; when only part of them is, it is closed. */
  function Received(e: End, id: StreamId, payload: seq<byte>, written: nat): End {
    if written >= |payload| then e.(delivered := Add(e.delivered, id, payload))
    else Shut(e.(delivered := Add(e.delivered, id, payload[..written])), id)
  }

  predicate IsNew(e: End, id: StreamId) {
    id !in e.stage
  }

  predicate IsOpen(e: End, id: StreamId) {
    id in e.stage && e.stage[id] == Open
  }

  /** The host's reader: frames for a stream it does not have are skipped. */
  function HostReceived(m: Bridge, written: nat): Bridge
    requires m.toHost != []
  {
    var f := m.toHost[0];
    var after := m.(toHost := m.toHost[1..]);
    if !IsOpen(m.host, f.streamID) then after
    else if f.kind == DATA then after.(host := Received(m.host, f.streamID, f.payload, written))
    else if f.kind == CLOSE then after.(host := Shut(m.host, f.streamID))
    else after
  }

  /** The host's reader ends, or the lease is closed: every connection is closed. */
  function HostStopped(m: Bridge): Bridge {
    m.(host := m.host.(stage := map id | id in m.host.stage :: Over))
  }

  /** relayFrames returns: its deferred function closes every connection. */
  function Died(m: Bridge): Bridge {
    m.(dead := true, windows := m.windows.(stage := map id | id in m.windows.stage :: Over))
  }

  /** A connection that was dialled goes into the map, and its pump starts. */
  function Opened(e: End, id: StreamId): End {
    e.(stage := e.stage[id := Open], pumps := e.pumps[id := Reading])
  }

  /** No connection: the stream is over at this end before it began. */
  function Refused(e: End, id: StreamId): End {
    e.(stage := e.stage[id := Over])
  }

  /** relayFrames: Open dials, an Open for a stream it has is an error, and so is Data for one it does
      not have, unless that one was closed between the lookup and the write (`raced`). */
  function WindowsReceived(m: Bridge, dials: bool, written: nat, raced: bool): Bridge
    requires m.toWindows != []
  {
    var f := m.toWindows[0];
    var id := f.streamID;
    var after := m.(toWindows := m.toWindows[1..]);
    if f.kind == OPEN then
      if !dials then
        after.(toHost := m.toHost + [Frame(id, CLOSE, [])], windows := Refused(m.windows, id))
      else if IsOpen(m.windows, id) then
        Died(after)
      else
        after.(windows := Opened(m.windows, id))
    else if f.kind == DATA then
      if IsOpen(m.windows, id) then after.(windows := Received(m.windows, id, f.payload, written))
      else if raced then after
      else Died(after)
    else
      after.(windows := Shut(m.windows, id))
  }

  // ---------- What a pipe carries of one stream ----------

  function Payloads(pipe: seq<Frame>, id: StreamId): seq<byte> {
    if pipe == [] then []
    else (if pipe[0].streamID == id then pipe[0].payload else []) + Payloads(pipe[1..], id)
  }

  predicate Mentioned(pipe: seq<Frame>, id: StreamId) {
    exists i :: 0 <= i < |pipe| && pipe[i].streamID == id
  }

  /** A stream that is new at the other end starts with its one Open frame; any other has none. */
  predicate Orderly(pipe: seq<Frame>, id: StreamId, isNew: bool) {
    pipe == [] ||
    if pipe[0].streamID != id then Orderly(pipe[1..], id, isNew)
    else (pipe[0].kind == OPEN <==> isNew) && Orderly(pipe[1..], id, false)
  }

  lemma {:induction false} PayloadsAppend(pipe: seq<Frame>, f: Frame, id: StreamId)
    ensures Payloads(pipe + [f], id) == Payloads(pipe, id) + (if f.streamID == id then f.payload else [])
  {
    if pipe == [] {
      assert (pipe + [f])[1..] == [];
    } else {
      assert (pipe + [f])[1..] == pipe[1..] + [f];
      PayloadsAppend(pipe[1..], f, id);
    }
  }

  lemma {:induction false} OrderlyAppend(pipe: seq<Frame>, f: Frame, id: StreamId, isNew: bool)
    requires Orderly(pipe, id, isNew)
    requires f.streamID == id ==> (f.kind == OPEN <==> isNew && !Mentioned(pipe, id))
    ensures Orderly(pipe + [f], id, isNew)
    ensures Mentioned(pipe + [f], id) <==> Mentioned(pipe, id) || f.streamID == id
  {
    assert (pipe + [f])[|pipe|] == f;
    MentionedAppend(pipe, f, id);
    if pipe == [] {
      assert (pipe + [f])[1..] == [];
    } else {
      assert (pipe + [f])[1..] == pipe[1..] + [f];
      if pipe[0].streamID != id {
        MentionedTail(pipe, id);
        OrderlyAppend(pipe[1..], f, id, isNew);
      } else {
        OrderlyAppend(pipe[1..], f, id, false);
      }
    }
  }

  lemma MentionedAppend(pipe: seq<Frame>, f: Frame, id: StreamId)
    ensures Mentioned(pipe + [f], id) <==> Mentioned(pipe, id) || f.streamID == id
  {
    if Mentioned(pipe, id) {
      var i :| 0 <= i < |pipe| && pipe[i].streamID == id;
      assert (pipe + [f])[i] == pipe[i];
    }
    assert (pipe + [f])[|pipe|] == f;
  }

  lemma MentionedTail(pipe: seq<Frame>, id: StreamId)
    requires pipe != []
    ensures Mentioned(pipe, id) <==> pipe[0].streamID == id || Mentioned(pipe[1..], id)
  {
    if Mentioned(pipe, id) && pipe[0].streamID != id {
      var i :| 0 <= i < |pipe| && pipe[i].streamID == id;
      assert pipe[1..][i - 1] == pipe[i];
    }
    if Mentioned(pipe[1..], id) {
      var i :| 0 <= i < |pipe[1..]| && pipe[1..][i].streamID == id;
      assert pipe[i + 1].streamID == id;
    }
  }

  // ---------- The invariant ----------

  /** One direction of one stream: what the sender put into frames is what was delivered and what is
      still on the wire, in this order, as long as the receiver has not given the stream up. */
  ghost predicate Link(sent: seq<byte>, wire: seq<byte>, receiver: End, id: StreamId) {
    var delivered := Of(receiver.delivered, id);
    if id !in receiver.stage then delivered == [] && wire == sent
    else if receiver.stage[id] == Open then delivered + wire == sent
    else delivered <= sent
  }

  /** What a pump has read is what it has sent and what it holds. */
  ghost predicate Pumped(e: End, id: StreamId) {
    var read, sent := Of(e.read, id), Of(e.sent, id);
    if id !in e.pumps then read == [] && sent == []
    else
      match e.pumps[id]
      case Holding(chunk) => sent + chunk == read && 0 < |chunk| <= BUFFER
      case Finished => sent <= read
      case _ => sent == read
  }

  ghost predicate Counted(m: Bridge, id: StreamId) {
    && (id in m.host.stage ==> 1 <= id <= m.nextID)
    && (id in m.host.pumps ==> id in m.host.stage && m.announcing != Some(id))
    && (m.announcing == Some(id) ==> id in m.host.stage)
    && (id in m.windows.pumps ==> id in m.windows.stage)
    && (id in m.windows.stage ==> id in m.host.pumps)
  }

  ghost predicate Announceable(m: Bridge, id: StreamId) {
    && Orderly(m.toWindows, id, IsNew(m.windows, id))
    && (id in m.host.pumps <==> id in m.windows.stage || Mentioned(m.toWindows, id))
  }

  ghost predicate InvOf(m: Bridge, id: StreamId) {
    && Counted(m, id) && Announceable(m, id)
    && Link(Of(m.host.sent, id), Payloads(m.toWindows, id), m.windows, id)
    && Link(Of(m.windows.sent, id), Payloads(m.toHost, id), m.host, id)
    && Pumped(m.host, id) && Pumped(m.windows, id)
  }

  ghost predicate Inv(m: Bridge) {
    && AllValid(m.toWindows) && AllValid(m.toHost)
    && forall id: StreamId :: InvOf(m, id)
  }

  // ---------- Every step keeps it ----------

  function Next(m: Bridge, event: Event): Bridge
    requires Enabled(m, event)
  {
    match event
    case Accept => Accepted(m)
    case Announce(works) => Announced(m, works)
    case ReadChunk(atHost, id, chunk) => WithEnd(m, atHost, ChunkRead(EndAt(m, atHost), id, chunk))
    case SendChunk(atHost, id, works) => ChunkSentOn(m, atHost, id, works)
    case ReadEnds(atHost, id) => WithEnd(m, atHost, Ended(EndAt(m, atHost), id, Ending))
    case SendClose(atHost, id, works) => CloseSentOn(m, atHost, id, works)
    case HostReceives(written) => HostReceived(m, written)
    case WindowsReceives(dials, written, raced) => WindowsReceived(m, dials, written, raced)
    case HostStops => HostStopped(m)
    case WindowsStops => Died(m)
  }

  /** A pump writes the chunk it holds; when that fails it closes the stream and ends. */
  function ChunkSentOn(m: Bridge, atHost: bool, id: StreamId, works: bool): Bridge
    requires id in EndAt(m, atHost).pumps && EndAt(m, atHost).pumps[id].Holding?
  {
    var e := EndAt(m, atHost);
    if works then WithFrame(WithEnd(m, atHost, ChunkSent(e, id)), atHost, Frame(id, DATA, e.pumps[id].chunk))
    else WithEnd(m, atHost, Ended(e, id, Finished))
  }

  /** A pump whose connection has ended says so to the other end. */
  function CloseSentOn(m: Bridge, atHost: bool, id: StreamId, works: bool): Bridge
    requires id in EndAt(m, atHost).pumps
  {
    var e := EndAt(m, atHost);
    var after := WithEnd(m, atHost, e.(pumps := e.pumps[id := Finished]));
    if works then WithFrame(after, atHost, Frame(id, CLOSE, [])) else after
  }

  lemma ValidAppend(frames: seq<Frame>, f: Frame)
    requires AllValid(frames) && ValidFrame(f)
    ensures AllValid(frames + [f])
  {
  }

  lemma AcceptKeeps(m: Bridge)
    requires Inv(m) && Enabled(m, Accept)
    ensures Inv(Accepted(m))
  {
    forall id ensures InvOf(Accepted(m), id) {
      assert InvOf(m, id);
    }
  }

  lemma AnnounceKeeps(m: Bridge, works: bool)
    requires Inv(m) && m.announcing.Some?
    ensures Inv(Announced(m, works))
  {
    var f := Frame(m.announcing.value, OPEN, []);
    assert InvOf(m, f.streamID);
    ValidAppend(m.toWindows, f);
    hide InvOf, Announced;
    forall id ensures InvOf(Announced(m, works), id) {
      AnnounceKeepsOf(m, works, id);
    }
    AnnouncedFrames(m, works);
  }

  lemma AnnouncedFrames(m: Bridge, works: bool)
    requires m.announcing.Some?
    ensures var after := Announced(m, works);
      after.toHost == m.toHost && after.toWindows in {m.toWindows, m.toWindows + [Frame(m.announcing.value, OPEN, [])]}
  {
  }

  lemma AnnounceKeepsOf(m: Bridge, works: bool, id: StreamId)
    requires InvOf(m, id) && m.announcing.Some? && InvOf(m, m.announcing.value)
    ensures InvOf(Announced(m, works), id)
  {
    hide Payloads, Orderly, Mentioned;
    var f := Frame(m.announcing.value, OPEN, []);
    PayloadsAppend(m.toWindows, f, id);
    OrderlyAppend(m.toWindows, f, id, IsNew(m.windows, id));
  }

  lemma ReadChunkKeeps(m: Bridge, atHost: bool, id: StreamId, chunk: seq<byte>)
    requires Inv(m) && Enabled(m, ReadChunk(atHost, id, chunk))
    ensures Inv(Next(m, ReadChunk(atHost, id, chunk)))
  {
    forall j ensures InvOf(Next(m, ReadChunk(atHost, id, chunk)), j) {
      assert InvOf(m, j);
    }
  }

  /** Giving a stream up leaves what was delivered a prefix of what was sent. */
  lemma ShutLink(sent: seq<byte>, wire: seq<byte>, e: End, k: StreamId, id: StreamId)
    requires Link(sent, wire, e, id)
    ensures Link(sent, wire, Shut(e, k), id)
  {
  }

  /** What a pump does to its own side is no concern of the link it receives on. */
  lemma SameLink(sent: seq<byte>, wire: seq<byte>, e: End, after: End, id: StreamId)
    requires Link(sent, wire, e, id) && after.stage == e.stage && after.delivered == e.delivered
    ensures Link(sent, wire, after, id)
  {
  }

  lemma ReadEndsKeeps(m: Bridge, atHost: bool, id: StreamId)
    requires Inv(m) && Enabled(m, ReadEnds(atHost, id))
    ensures Inv(Next(m, ReadEnds(atHost, id)))
  {
    forall j ensures InvOf(Next(m, ReadEnds(atHost, id)), j) {
      assert InvOf(m, j);
      PumpStops(m, atHost, id, Ending, j);
    }
  }

  lemma PumpStops(m: Bridge, atHost: bool, id: StreamId, pump: Pump, j: StreamId)
    requires InvOf(m, j) && id in EndAt(m, atHost).pumps
    requires Stops(EndAt(m, atHost).pumps[id], pump)
    ensures InvOf(WithEnd(m, atHost, Ended(EndAt(m, atHost), id, pump)), j)
  {
    var e := EndAt(m, atHost);
    StopPumped(e, id, pump, j);
    if atHost {
      ShutLink(Of(m.windows.sent, j), Payloads(m.toHost, j), e, id, j);
      SameLink(Of(m.windows.sent, j), Payloads(m.toHost, j), Shut(e, id), Ended(e, id, pump), j);
      hide Link, Pumped, Orderly, Mentioned, Payloads;
      assert InvOf(m.(host := Ended(m.host, id, pump)), j);
    } else {
      ShutLink(Of(m.host.sent, j), Payloads(m.toWindows, j), e, id, j);
      SameLink(Of(m.host.sent, j), Payloads(m.toWindows, j), Shut(e, id), Ended(e, id, pump), j);
      hide Link, Pumped, Orderly, Mentioned, Payloads;
      assert InvOf(m.(windows := Ended(m.windows, id, pump)), j);
    }
  }

  predicate Stops(before: Pump, after: Pump) {
    (after == Ending && before == Reading) || (after == Finished && before.Holding?)
  }

  lemma StopPumped(e: End, id: StreamId, pump: Pump, j: StreamId)
    requires Pumped(e, j) && id in e.pumps && Stops(e.pumps[id], pump)
    ensures Pumped(Ended(e, id, pump), j)
  {
  }

  /** A frame other than Open, of a stream that was announced, does not disturb the order. */
  lemma FrameKeepsOrder(m: Bridge, f: Frame, id: StreamId)
    requires InvOf(m, id) && f.kind != OPEN && (f.streamID == id ==> id in m.host.pumps)
    ensures Orderly(m.toWindows + [f], id, IsNew(m.windows, id))
    ensures Mentioned(m.toWindows + [f], id) || id in m.windows.stage <==> Mentioned(m.toWindows, id) || id in m.windows.stage
  {
    OrderlyAppend(m.toWindows, f, id, IsNew(m.windows, id));
  }

  /** More was sent, and it is on the wire. */
  lemma SentLink(sent: seq<byte>, wire: seq<byte>, more: seq<byte>, receiver: End, id: StreamId)
    requires Link(sent, wire, receiver, id)
    ensures Link(sent + more, wire + more, receiver, id)
  {
    var delivered := Of(receiver.delivered, id);
    assert delivered + (wire + more) == (delivered + wire) + more;
  }

  lemma SendChunkKeeps(m: Bridge, atHost: bool, id: StreamId, works: bool)
    requires Inv(m) && Enabled(m, SendChunk(atHost, id, works))
    ensures Inv(ChunkSentOn(m, atHost, id, works))
  {
    assert InvOf(m, id);
    ValidAppend(if atHost then m.toWindows else m.toHost, Frame(id, DATA, EndAt(m, atHost).pumps[id].chunk));
    forall j ensures InvOf(ChunkSentOn(m, atHost, id, works), j) {
      assert InvOf(m, j) && InvOf(m, id);
      if !works {
        PumpStops(m, atHost, id, Finished, j);
      } else if atHost {
        HostSends(m, id, j);
      } else {
        WindowsSends(m, id, j);
      }
    }
  }

  lemma HostSends(m: Bridge, id: StreamId, j: StreamId)
    requires InvOf(m, j) && InvOf(m, id) && id in m.host.pumps && m.host.pumps[id].Holding?
    ensures InvOf(ChunkSentOn(m, true, id, true), j)
  {
    var chunk := m.host.pumps[id].chunk;
    var f := Frame(id, DATA, chunk);
    PayloadsAppend(m.toWindows, f, j);
    FrameKeepsOrder(m, f, j);
    SentLink(Of(m.host.sent, id), Payloads(m.toWindows, id), chunk, m.windows, id);
    SameLink(Of(m.windows.sent, j), Payloads(m.toHost, j), m.host, ChunkSent(m.host, id), j);
    hide Link, Orderly, Mentioned, Payloads;
  }

  lemma WindowsSends(m: Bridge, id: StreamId, j: StreamId)
    requires InvOf(m, j) && InvOf(m, id) && id in m.windows.pumps && m.windows.pumps[id].Holding?
    ensures InvOf(ChunkSentOn(m, false, id, true), j)
  {
    hide Orderly, Mentioned, Payloads;
    var chunk := m.windows.pumps[id].chunk;
    var f := Frame(id, DATA, chunk);
    PayloadsAppend(m.toHost, f, j);
    SentLink(Of(m.windows.sent, id), Payloads(m.toHost, id), chunk, m.host, id);
    SameLink(Of(m.host.sent, j), Payloads(m.toWindows, j), m.windows, ChunkSent(m.windows, id), j);
    hide Link;
  }

  lemma SendCloseKeeps(m: Bridge, atHost: bool, id: StreamId, works: bool)
    requires Inv(m) && Enabled(m, SendClose(atHost, id, works))
    ensures Inv(CloseSentOn(m, atHost, id, works))
  {
    assert InvOf(m, id);
    ValidAppend(if atHost then m.toWindows else m.toHost, Frame(id, CLOSE, []));
    forall j ensures InvOf(CloseSentOn(m, atHost, id, works), j) {
      assert InvOf(m, j);
      CloseSent(m, atHost, id, works, j);
    }
  }

  lemma CloseSent(m: Bridge, atHost: bool, id: StreamId, works: bool, j: StreamId)
    requires InvOf(m, j) && InvOf(m, id) && Enabled(m, SendClose(atHost, id, works))
    ensures InvOf(CloseSentOn(m, atHost, id, works), j)
  {
    var f := Frame(id, CLOSE, []);
    var e := EndAt(m, atHost);
    var after := e.(pumps := e.pumps[id := Finished]);
    FinishPumped(e, id, j);
    if atHost {
      PayloadsAppend(m.toWindows, f, j);
      FrameKeepsOrder(m, f, j);
      SameLink(Of(m.windows.sent, j), Payloads(m.toHost, j), m.host, after, j);
      hide Link, Pumped, Orderly, Mentioned, Payloads;
      assert CloseSentOn(m, true, id, works) ==
        m.(host := after, toWindows := if works then m.toWindows + [f] else m.toWindows);
    } else {
      PayloadsAppend(m.toHost, f, j);
      SameLink(Of(m.host.sent, j), Payloads(m.toWindows, j), m.windows, after, j);
      hide Link, Pumped, Orderly, Mentioned, Payloads;
      assert CloseSentOn(m, false, id, works) ==
        m.(windows := after, toHost := if works then m.toHost + [f] else m.toHost);
    }
  }

  lemma FinishPumped(e: End, id: StreamId, j: StreamId)
    requires Pumped(e, j) && id in e.pumps && e.pumps[id] == Ending
    ensures Pumped(e.(pumps := e.pumps[id := Finished]), j)
  {
  }

  /** The first frame comes off the wire: it is delivered, wholly or in part, or the stream is over. */
  lemma DeliveredLink(sent: seq<byte>, pipe: seq<Frame>, e: End, id: StreamId, written: nat)
    requires pipe != [] && IsOpen(e, pipe[0].streamID) && Link(sent, Payloads(pipe, id), e, id)
    ensures Link(sent, Payloads(pipe[1..], id), Received(e, pipe[0].streamID, pipe[0].payload, written), id)
  {
    var f, rest := pipe[0], Payloads(pipe[1..], id);
    if f.streamID != id {
      assert Payloads(pipe, id) == rest;
      hide Payloads;
    } else {
      assert Payloads(pipe, id) == f.payload + rest;
      hide Payloads;
      if written >= |f.payload| {
        WhollyDelivered(Of(e.delivered, id), f.payload, rest);
      } else {
        PartlyDelivered(Of(e.delivered, id), f.payload, rest, written);
      }
    }
  }

  lemma WhollyDelivered(delivered: seq<byte>, payload: seq<byte>, rest: seq<byte>)
    ensures delivered + (payload + rest) == (delivered + payload) + rest
  {
  }

  lemma PartlyDelivered(delivered: seq<byte>, payload: seq<byte>, rest: seq<byte>, written: nat)
    requires written < |payload|
    ensures delivered + payload[..written] <= delivered + (payload + rest)
  {
  }

  /** A frame that carries nothing for this stream, or for one that is over, can be taken off. */
  lemma SkippedLink(sent: seq<byte>, pipe: seq<Frame>, e: End, id: StreamId)
    requires pipe != [] && Link(sent, Payloads(pipe, id), e, id)
    requires pipe[0].streamID == id && pipe[0].payload != [] ==> id in e.stage && e.stage[id] == Over
    ensures Link(sent, Payloads(pipe[1..], id), e, id)
  {
    if pipe[0].streamID != id || pipe[0].payload == [] {
      assert Payloads(pipe, id) == Payloads(pipe[1..], id);
    } else {
      hide Payloads;
    }
  }

  lemma NothingSent(m: Bridge, id: StreamId)
    requires InvOf(m, id) && id !in m.host.stage
    ensures Payloads(m.toHost, id) == []
  {
  }

  lemma HostReceivesKeeps(m: Bridge, written: nat)
    requires Inv(m) && m.toHost != []
    ensures Inv(HostReceived(m, written))
  {
    forall id ensures InvOf(HostReceived(m, written), id) {
      assert InvOf(m, id) && InvOf(m, m.toHost[0].streamID);
      HostReceivesOf(m, written, id);
    }
  }

  lemma HostReceivesOf(m: Bridge, written: nat, id: StreamId)
    requires InvOf(m, id) && m.toHost != [] && ValidFrame(m.toHost[0])
    ensures InvOf(HostReceived(m, written), id)
  {
    var f := m.toHost[0];
    var sent := Of(m.windows.sent, id);
    ReceivedPumped(m.host, f.streamID, f.payload, written, id);
    if !IsOpen(m.host, f.streamID) {
      if id !in m.host.stage {
        NothingSent(m, id);
      }
      SkippedLink(sent, m.toHost, m.host, id);
    } else if f.kind == DATA {
      DeliveredLink(sent, m.toHost, m.host, id, written);
    } else {
      SkippedLink(sent, m.toHost, m.host, id);
      ShutLink(sent, Payloads(m.toHost[1..], id), m.host, f.streamID, id);
    }
    hide Link, Pumped, Orderly, Mentioned, Payloads;
  }

  lemma WindowsReceivesKeeps(m: Bridge, dials: bool, written: nat, raced: bool)
    requires Inv(m) && m.toWindows != []
    ensures Inv(WindowsReceived(m, dials, written, raced))
  {
    var f := m.toWindows[0];
    forall id ensures InvOf(WindowsReceived(m, dials, written, raced), id) {
      assert InvOf(m, id) && InvOf(m, f.streamID);
      if f.kind == OPEN {
        OpenArrives(m, dials, id);
      } else if f.kind == DATA {
        DataArrives(m, written, raced, id);
      } else {
        CloseArrives(m, id);
      }
    }
    assert InvOf(m, f.streamID);
  }

  /** What the first frame of the pipe tells about its stream. */
  lemma HeadOrder(m: Bridge, id: StreamId)
    requires InvOf(m, id) && m.toWindows != []
    ensures m.toWindows[0].streamID == id ==>
      && (m.toWindows[0].kind == OPEN <==> id !in m.windows.stage) && id in m.host.pumps
      && Orderly(m.toWindows[1..], id, false)
    ensures m.toWindows[0].streamID != id ==>
      && Orderly(m.toWindows[1..], id, IsNew(m.windows, id))
      && (Mentioned(m.toWindows[1..], id) <==> Mentioned(m.toWindows, id))
  {
    MentionedTail(m.toWindows, id);
  }

  lemma OpenArrives(m: Bridge, dials: bool, id: StreamId)
    requires m.toWindows != [] && m.toWindows[0].kind == OPEN && ValidFrame(m.toWindows[0])
    requires InvOf(m, id) && InvOf(m, m.toWindows[0].streamID)
    ensures InvOf(WindowsReceived(m, dials, 0, false), id)
  {
    var f := m.toWindows[0];
    HeadOrder(m, id);
    HeadOrder(m, f.streamID);
    SkippedLink(Of(m.host.sent, id), m.toWindows, m.windows, id);
    var wire := Payloads(m.toWindows[1..], id);
    if dials {
      OpenedLink(Of(m.host.sent, id), wire, m.windows, f.streamID, id);
      hide Link, Pumped, Orderly, Mentioned, Payloads;
      assert WindowsReceived(m, true, 0, false) == m.(toWindows := m.toWindows[1..], windows := Opened(m.windows, f.streamID));
    } else {
      RefusedLink(Of(m.host.sent, id), wire, m.windows, f.streamID, id);
      PayloadsAppend(m.toHost, Frame(f.streamID, CLOSE, []), id);
      hide Link, Pumped, Orderly, Mentioned, Payloads;
      assert WindowsReceived(m, false, 0, false) == m.(toWindows := m.toWindows[1..], windows := Refused(m.windows, f.streamID),
        toHost := m.toHost + [Frame(f.streamID, CLOSE, [])]);
    }
  }

  /** A stream that opens has its whole content still before it; and its pump has read nothing. */
  lemma OpenedLink(sent: seq<byte>, wire: seq<byte>, e: End, k: StreamId, id: StreamId)
    requires Link(sent, wire, e, id) && k !in e.stage && k !in e.pumps && Pumped(e, id)
    ensures Link(sent, wire, Opened(e, k), id) && Pumped(Opened(e, k), id)
  {
  }

  lemma RefusedLink(sent: seq<byte>, wire: seq<byte>, e: End, k: StreamId, id: StreamId)
    requires Link(sent, wire, e, id) && k !in e.stage && Pumped(e, id)
    ensures Link(sent, wire, Refused(e, k), id) && Pumped(Refused(e, k), id)
  {
  }

  lemma CloseArrives(m: Bridge, id: StreamId)
    requires m.toWindows != [] && m.toWindows[0].kind == CLOSE && ValidFrame(m.toWindows[0])
    requires InvOf(m, id) && InvOf(m, m.toWindows[0].streamID)
    ensures InvOf(WindowsReceived(m, true, 0, false), id)
  {
    var f := m.toWindows[0];
    HeadOrder(m, id);
    HeadOrder(m, f.streamID);
    SkippedLink(Of(m.host.sent, id), m.toWindows, m.windows, id);
    ShutLink(Of(m.host.sent, id), Payloads(m.toWindows[1..], id), m.windows, f.streamID, id);
    hide Link, Orderly, Mentioned, Payloads;
  }

  lemma DataArrives(m: Bridge, written: nat, raced: bool, id: StreamId)
    requires m.toWindows != [] && m.toWindows[0].kind == DATA && ValidFrame(m.toWindows[0])
    requires InvOf(m, id) && InvOf(m, m.toWindows[0].streamID)
    ensures InvOf(WindowsReceived(m, true, written, raced), id)
  {
    var f := m.toWindows[0];
    var sent := Of(m.host.sent, id);
    HeadOrder(m, id);
    HeadOrder(m, f.streamID);
    if IsOpen(m.windows, f.streamID) {
      DeliveredLink(sent, m.toWindows, m.windows, id, written);
      ReceivedPumped(m.windows, f.streamID, f.payload, written, id);
    } else {
      SkippedLink(sent, m.toWindows, m.windows, id);
      DeadLink(sent, Payloads(m.toWindows[1..], id), m, id);
    }
    hide Link, Pumped, Orderly, Mentioned, Payloads;
  }

  lemma ReceivedPumped(e: End, k: StreamId, payload: seq<byte>, written: nat, id: StreamId)
    requires Pumped(e, id)
    ensures Pumped(Received(e, k, payload, written), id) && Pumped(Shut(e, k), id)
  {
  }

  lemma DeadLink(sent: seq<byte>, wire: seq<byte>, m: Bridge, id: StreamId)
    requires Link(sent, wire, m.windows, id)
    ensures Link(sent, wire, Died(m).windows, id)
    ensures Pumped(m.windows, id) ==> Pumped(Died(m).windows, id)
  {
  }

  // ---------- Every run ----------

  function Initial(): Bridge {
    var none := End(map[], map[], map[], map[], map[]);
    Bridge(none, none, [], [], 0, None, false)
  }

  /** What a sequence of events leads to; one that cannot happen when its turn comes is left out. */
  function After(m: Bridge, events: seq<Event>): Bridge
    decreases |events|
  {
    if events == [] then m
    else After(if Enabled(m, events[0]) then Next(m, events[0]) else m, events[1..])
  }

  lemma NextKeeps(m: Bridge, event: Event)
    requires Inv(m) && Enabled(m, event)
    ensures Inv(Next(m, event))
  {
    hide Inv;
    if event.Accept? {
      AcceptKeeps(m);
    } else if event.Announce? {
      AnnounceKeeps(m, event.works);
    } else if event.ReadChunk? {
      ReadChunkKeeps(m, event.atHost, event.id, event.chunk);
    } else if event.SendChunk? {
      SendChunkKeeps(m, event.atHost, event.id, event.works);
    } else if event.ReadEnds? {
      ReadEndsKeeps(m, event.atHost, event.id);
    } else if event.SendClose? {
      SendCloseKeeps(m, event.atHost, event.id, event.works);
    } else if event.HostReceives? {
      HostReceivesKeeps(m, event.written);
    } else if event.WindowsReceives? {
      WindowsReceivesKeeps(m, event.dials, event.written, event.raced);
    } else {
      StopKeeps(m);
    }
  }

  lemma StopKeeps(m: Bridge)
    requires Inv(m)
    ensures Inv(HostStopped(m)) && Inv(Died(m))
  {
    forall id ensures InvOf(HostStopped(m), id) && InvOf(Died(m), id) {
      assert InvOf(m, id);
    }
  }

  lemma {:induction false} AfterKeeps(m: Bridge, events: seq<Event>)
    requires Inv(m)
    ensures Inv(After(m, events))
    decreases |events|
  {
    if events != [] {
      hide Inv;
      if Enabled(m, events[0]) {
        NextKeeps(m, events[0]);
      }
      AfterKeeps(if Enabled(m, events[0]) then Next(m, events[0]) else m, events[1..]);
    }
  }

  lemma InitialHolds()
    ensures Inv(Initial())
  {
    forall id ensures InvOf(Initial(), id) {
    }
  }

  /** For every interleaving of fewer than 2^32 streams, in each direction: the bytes delivered on a
      stream are a prefix of the bytes read from its peer connection, so none crosses to another
      stream; and while the receiver has the stream open, what is missing is on the wire. */
  lemma DeliveredIsPrefix(events: seq<Event>, id: StreamId)
    ensures var m := After(Initial(), events);
      && Of(m.windows.delivered, id) <= Of(m.host.read, id)
      && Of(m.host.delivered, id) <= Of(m.windows.read, id)
      && (IsOpen(m.windows, id) ==> Of(m.windows.delivered, id) + Payloads(m.toWindows, id) == Of(m.host.sent, id))
      && (IsOpen(m.host, id) ==> Of(m.host.delivered, id) + Payloads(m.toHost, id) == Of(m.windows.sent, id))
  {
    InitialHolds();
    AfterKeeps(Initial(), events);
    var m := After(Initial(), events);
    assert InvOf(m, id);
    SentIsRead(m.host, id);
    SentIsRead(m.windows, id);
    hide Pumped, Payloads;
  }

  lemma SentIsRead(e: End, id: StreamId)
    requires Pumped(e, id)
    ensures Of(e.sent, id) <= Of(e.read, id)
  {
  }

  /** Every frame that is written is one that `Write` accepts. */
  lemma OnlyValidFrames(events: seq<Event>)
    ensures AllValid(After(Initial(), events).toWindows) && AllValid(After(Initial(), events).toHost)
  {
    InitialHolds();
    AfterKeeps(Initial(), events);
  }

  /** An Open frame always names a stream that the Windows end has never had, so the error for a
      duplicate stream ID is unreachable. */
  lemma DuplicateUnreachable(events: seq<Event>)
    ensures var m := After(Initial(), events);
      m.toWindows != [] && m.toWindows[0].kind == OPEN ==>
        m.toWindows[0].streamID !in m.windows.stage && !IsOpen(m.windows, m.toWindows[0].streamID)
  {
    InitialHolds();
    AfterKeeps(Initial(), events);
    var m := After(Initial(), events);
    if m.toWindows != [] {
      assert InvOf(m, m.toWindows[0].streamID);
      HeadOrder(m, m.toWindows[0].streamID);
    }
  }

  /** The error for data of an unknown stream ends the relay, and with it every stream. It happens
      exactly when the stream was opened at the Windows end and is over there: its connection ended,
      or could not be dialled, while data for it was under way. */
  lemma UnknownDataIff(events: seq<Event>, dials: bool, written: nat)
    requires var m := After(Initial(), events);
      m.toWindows != [] && !m.dead && m.toWindows[0].kind == DATA
    ensures var m := After(Initial(), events);
      var id := m.toWindows[0].streamID;
      && id in m.windows.stage
      && (WindowsReceived(m, dials, written, false).dead <==> m.windows.stage[id] == Over)
  {
    InitialHolds();
    AfterKeeps(Initial(), events);
    var m := After(Initial(), events);
    assert InvOf(m, m.toWindows[0].streamID);
    HeadOrder(m, m.toWindows[0].streamID);
  }

  // ---------- What is sent arrives ----------

  /** In any state, a Data frame for an open stream that is written wholly adds exactly its bytes to what was
      delivered there, leaves the stream open, and touches no other stream; at the host end. */
  lemma HostDelivers(m: Bridge, written: nat)
    requires m.toHost != [] && m.toHost[0].kind == DATA && IsOpen(m.host, m.toHost[0].streamID)
    requires written >= |m.toHost[0].payload|
    ensures var f, after := m.toHost[0], HostReceived(m, written);
      && Of(after.host.delivered, f.streamID) == Of(m.host.delivered, f.streamID) + f.payload
      && IsOpen(after.host, f.streamID) && after.host.stage == m.host.stage && after.toHost == m.toHost[1..]
      && (forall id :: id != f.streamID ==> Of(after.host.delivered, id) == Of(m.host.delivered, id))
      && after.windows == m.windows && after.toWindows == m.toWindows
  {
  }

  /** And at the Windows end. */
  lemma WindowsDelivers(m: Bridge, dials: bool, written: nat, raced: bool)
    requires m.toWindows != [] && m.toWindows[0].kind == DATA && IsOpen(m.windows, m.toWindows[0].streamID)
    requires written >= |m.toWindows[0].payload|
    ensures var f, after := m.toWindows[0], WindowsReceived(m, dials, written, raced);
      && Of(after.windows.delivered, f.streamID) == Of(m.windows.delivered, f.streamID) + f.payload
      && IsOpen(after.windows, f.streamID) && after.windows.stage == m.windows.stage && after.toWindows == m.toWindows[1..]
      && (forall id :: id != f.streamID ==> Of(after.windows.delivered, id) == Of(m.windows.delivered, id))
      && after.host == m.host && after.toHost == m.toHost && after.dead == m.dead
  {
  }

  /** Nothing goes wrong in this event: no connection ends, nothing stops, and every dial and every write
      works, wholly. */
  predicate Works(m: Bridge, event: Event) {
    match event
    case Accept => true
    case Announce(works) => works
    case ReadChunk(_, _, _) => true
    case SendChunk(_, _, works) => works
    case ReadEnds(_, _) => false
    case SendClose(_, _, _) => false
    case HostReceives(written) => m.toHost != [] ==> written >= |m.toHost[0].payload|
    case WindowsReceives(dials, written, _) => dials && (m.toWindows != [] ==> written >= |m.toWindows[0].payload|)
    case HostStops => false
    case WindowsStops => false
  }

  predicate AllWork(m: Bridge, events: seq<Event>)
    decreases |events|
  {
    events == [] ||
    (Works(m, events[0]) && AllWork(if Enabled(m, events[0]) then Next(m, events[0]) else m, events[1..]))
  }

  predicate NoClose(pipe: seq<Frame>) {
    forall i :: 0 <= i < |pipe| ==> pipe[i].kind != CLOSE
  }

  /** No stream is over and none is on its way there. */
  ghost predicate AllOpen(m: Bridge) {
    && !m.dead && NoClose(m.toWindows) && NoClose(m.toHost)
    && (forall id :: id in m.host.stage ==> m.host.stage[id] == Open)
    && (forall id :: id in m.windows.stage ==> m.windows.stage[id] == Open)
    && (forall id :: id in m.host.pumps ==> m.host.pumps[id] == Reading || m.host.pumps[id].Holding?)
    && (forall id :: id in m.windows.pumps ==> m.windows.pumps[id] == Reading || m.windows.pumps[id].Holding?)
  }

  lemma WorkKeepsOpen(m: Bridge, event: Event)
    requires Inv(m) && AllOpen(m) && Enabled(m, event) && Works(m, event)
    ensures AllOpen(Next(m, event))
  {
    if event.WindowsReceives? {
      assert InvOf(m, m.toWindows[0].streamID);
      HeadOrder(m, m.toWindows[0].streamID);
    }
    hide Inv, InvOf;
  }

  lemma {:induction false} RunKeepsOpen(m: Bridge, events: seq<Event>)
    requires Inv(m) && AllOpen(m) && AllWork(m, events)
    ensures AllOpen(After(m, events))
    decreases |events|
  {
    if events != [] {
      hide Inv, AllOpen;
      if Enabled(m, events[0]) {
        WorkKeepsOpen(m, events[0]);
        NextKeeps(m, events[0]);
      }
      RunKeepsOpen(if Enabled(m, events[0]) then Next(m, events[0]) else m, events[1..]);
    }
  }

  /** All that was put on the wire has arrived, and no pump holds a chunk. */
  predicate Drained(m: Bridge) {
    && m.toWindows == [] && m.toHost == []
    && (forall id :: id in m.host.pumps ==> m.host.pumps[id] == Reading)
    && (forall id :: id in m.windows.pumps ==> m.windows.pumps[id] == Reading)
  }

  /** In every run in which nothing goes wrong, a stream that the host end has is open there, and at the
      Windows end once its Open frame was taken off the pipe; and whenever the pipes are empty and the pumps
      hold nothing, every byte read at one end of a stream has been delivered at the other, each way. */
  lemma AllIsDelivered(events: seq<Event>, id: StreamId)
    requires AllWork(Initial(), events)
    ensures var m := After(Initial(), events);
      && !m.dead
      && (id in m.host.stage ==> IsOpen(m.host, id))
      && (id in m.host.pumps && !Mentioned(m.toWindows, id) ==> IsOpen(m.windows, id))
      && (Drained(m) ==>
            && Of(m.windows.delivered, id) == Of(m.host.read, id)
            && Of(m.host.delivered, id) == Of(m.windows.read, id))
  {
    InitialHolds();
    AfterKeeps(Initial(), events);
    RunKeepsOpen(Initial(), events);
    var m := After(Initial(), events);
    assert InvOf(m, id);
    hide Orderly;
  }

  /** And it does happen: the remote end closes one stream while a chunk for it is on the wire. */
  lemma RelayDies()
    ensures exists events :: HostStops !in events && WindowsStops !in events && After(Initial(), events).dead
  {
    var m := Opening();
    Racing(m.1);
    AfterConcat(Initial(), m.0, Race());
    assert HostStops !in m.0 + Race() && WindowsStops !in m.0 + Race();
    assert After(Initial(), m.0 + Race()).dead;
  }

  lemma {:induction false} AfterConcat(m: Bridge, a: seq<Event>, b: seq<Event>)
    ensures After(m, a + b) == After(After(m, a), b)
    decreases |a|
  {
    if a == [] {
      assert a + b == b;
    } else {
      assert (a + b)[1..] == a[1..] + b;
      AfterConcat(if Enabled(m, a[0]) then Next(m, a[0]) else m, a[1..], b);
    }
  }

  lemma AfterOne(m: Bridge, event: Event, rest: seq<Event>)
    requires Enabled(m, event)
    ensures After(m, [event] + rest) == After(Next(m, event), rest)
  {
    assert ([event] + rest)[1..] == rest;
  }

  function Race(): seq<Event> {
    [ReadChunk(true, 1, [7])] + ([SendChunk(true, 1, true)] + ([ReadEnds(false, 1)] + ([WindowsReceives(true, 0, false)] + [])))
  }

  /** One stream is open at both ends. */
  predicate OneStream(m: Bridge) {
    && m.toWindows == [] && !m.dead && IsOpen(m.windows, 1)
    && 1 in m.windows.pumps && m.windows.pumps[1] == Reading
    && 1 in m.host.pumps && m.host.pumps[1] == Reading
  }

  lemma Opening() returns (run: (seq<Event>, Bridge))
    ensures run.1 == After(Initial(), run.0) && OneStream(run.1)
    ensures HostStops !in run.0 && WindowsStops !in run.0
  {
    var a := Accepted(Initial());
    var b := Announced(a, true);
    var c := WindowsReceived(b, true, 0, false);
    assert b.toWindows == [Frame(1, OPEN, [])] && b.toWindows[1..] == [];
    AfterOne(Initial(), Accept, [Announce(true)] + ([WindowsReceives(true, 0, false)] + []));
    AfterOne(a, Announce(true), [WindowsReceives(true, 0, false)] + []);
    AfterOne(b, WindowsReceives(true, 0, false), []);
    run := ([Accept] + ([Announce(true)] + ([WindowsReceives(true, 0, false)] + [])), c);
  }

  lemma Racing(m: Bridge)
    requires OneStream(m)
    ensures After(m, Race()).dead
  {
    var a := Next(m, ReadChunk(true, 1, [7]));
    var b := Next(a, SendChunk(true, 1, true));
    var c := Next(b, ReadEnds(false, 1));
    assert c.toWindows == [Frame(1, DATA, [7])] && !IsOpen(c.windows, 1);
    AfterOne(m, ReadChunk(true, 1, [7]), Race()[1..]);
    AfterOne(a, SendChunk(true, 1, true), [ReadEnds(false, 1)] + ([WindowsReceives(true, 0, false)] + []));
    AfterOne(b, ReadEnds(false, 1), [WindowsReceives(true, 0, false)] + []);
    AfterOne(c, WindowsReceives(true, 0, false), []);
  }
}
