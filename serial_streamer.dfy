/** The serial protocol engine without the port itself: a FIFO queue of
    lines awaiting the device's acknowledgement, matched to replies in
    order, with per-line timeouts, write errors and the port closing as
    explicit events; a single-flight `busy` flag around each batch. */
module Serial {
  import opened Js

  datatype Failure =
    | NotConnected            // "serial not connected"
    | Busy                    // "serial streamer busy"
    | Timeout                 // "timeout waiting for ok"
    | WriteError              // the port's write callback reported an error
    | DeviceError(text: string) // an `error...` reply, trimmed
    | ConnectionClosed        // "serial connection closed"
    | PortError               // opening or closing the port failed

  /** How a pending line's promise was settled. Pending entries are named by
      a number given out in sending order. */
  datatype Settlement = Resolved(id: nat) | Rejected(id: nat, reason: Failure)

  /** What can happen while a line waits: a line from the device, the
      line's own write failing, the line's timer firing, the port closing.
      The device's text arrives as `DeviceEvent<string>`; the engine reacts
      to its reading of that text, a `DeviceEvent<ReplyKind>`. */
  datatype DeviceEvent<R> = Reply(reply: R) | WriteFailed | TimerFired | PortClosed

  /** How `handleLine` reads a device line. */
  datatype ReplyKind = Blank | Ack | ErrorReply(text: string) | Other

  /** `handleLine`'s reading of a device line: blank exactly when it is all
      white space; an error reply carries the trimmed, non-empty text. */
  function Classify(line: string): (r: ReplyKind)
    ensures r == Blank <==> forall i :: 0 <= i < |line| ==> IsWhitespace(line[i])
    ensures r.ErrorReply? ==> r.text == Trim(line) && r.text != []
  {
    TrimEmptyIffBlank(line);
    var trimmed := Trim(line);
    if trimmed == [] then Blank
    else
      var lower := Lower(trimmed);
      if StartsWith(lower, "ok") then Ack
      else if StartsWith(lower, "error") then ErrorReply(trimmed)
      else Other
  }

  /** A reply that is not blank is read by its trimmed text: an `ok` prefix
      (in any letter case) wins over an `error` prefix. */
  lemma ClassifyMeaning(line: string)
    ensures Classify(line) == Ack <==> Trim(line) != [] && StartsWith(Lower(Trim(line)), "ok")
    ensures Classify(line).ErrorReply? <==>
      Trim(line) != [] && !StartsWith(Lower(Trim(line)), "ok") && StartsWith(Lower(Trim(line)), "error")
  {
  }

  /** Acknowledgements are recognised whatever their letter case and
      surrounding white space. */
  lemma OkVariantsAreAcks()
    ensures Classify("ok") == Ack
  {
    assert !IsWhitespace('o') && !IsWhitespace('k');
    assert TrimStart("ok") == "ok";
    assert TrimEnd("ok") == "ok";
    assert Lower("ok") == "ok";
  }

  /** Marlin's replies end in a carriage return and may be upper case. */
  lemma UpperCaseAckWithReturn()
    ensures Classify("OK\r") == Ack
  {
    TrimsToOK();
    assert Lower("OK") == "ok";
  }

  lemma TrimsToOK()
    ensures Trim("OK\r") == "OK"
  {
    assert TrimStart("OK\r") == "OK\r" by {
      assert !IsWhitespace('O');
    }
    assert TrimEnd("OK\r") == "OK" by {
      assert IsWhitespace('\r') && !IsWhitespace('K');
      assert "OK\r"[..2] == "OK";
      assert TrimEnd("OK") == "OK";
    }
  }

  function Hear(e: DeviceEvent<string>): DeviceEvent<ReplyKind> {
    match e
    case Reply(text) => Reply(Classify(text))
    case WriteFailed => WriteFailed
    case TimerFired => TimerFired
    case PortClosed => PortClosed
  }

  function HearAll(events: seq<DeviceEvent<string>>): (r: seq<DeviceEvent<ReplyKind>>)
    ensures |r| == |events|
    ensures forall i :: 0 <= i < |events| ==> r[i] == Hear(events[i])
  {
    seq(|events|, i requires 0 <= i < |events| => Hear(events[i]))
  }

  /** The engine's observable value: whether the port is open, the ids
      awaiting a reply (oldest first), the busy flag, the next id to give
      out, every line handed to the port, and every settlement so far. */
  datatype Link<L> = Link(
    portOpen: bool,
    pending: seq<nat>,
    busy: bool,
    nextId: nat,
    written: seq<L>,
    settled: seq<Settlement>)

  /** `removePending`: drop the first entry with this id, keep the others in
      order; nothing happens if there is none. */
  function RemoveFirst(s: seq<nat>, id: nat): (r: seq<nat>)
    ensures id !in s ==> r == s
    decreases |s|
  {
    if s == [] then []
    else if s[0] == id then s[1..]
    else [s[0]] + RemoveFirst(s[1..], id)
  }

  /** Removing an entry cuts the queue at its first occurrence `i`. */
  lemma {:induction false} RemoveFirstAt(s: seq<nat>, id: nat, i: nat)
    requires i < |s| && s[i] == id && id !in s[..i]
    ensures RemoveFirst(s, id) == s[..i] + s[i + 1..]
    decreases i
  {
    if i > 0 {
      assert s[0] in s[..i];
      assert s[1..][..i - 1] == s[..i][1..];
      RemoveFirstAt(s[1..], id, i - 1);
      assert s[1..][i..] == s[i + 1..];
    }
  }

  /** One rejection per id, in queue order. */
  function Rejections(ids: seq<nat>, reason: Failure): (r: seq<Settlement>)
    ensures |r| == |ids|
    ensures forall i :: 0 <= i < |ids| ==> r[i] == Rejected(ids[i], reason)
  {
    seq(|ids|, i requires 0 <= i < |ids| => Rejected(ids[i], reason))
  }

  /** One resolution per id, in queue order. */
  function Resolutions(ids: seq<nat>): (r: seq<Settlement>)
    ensures |r| == |ids|
  {
    if ids == [] then [] else [Resolved(ids[0])] + Resolutions(ids[1..])
  }

  /** Does this reply settle the oldest entry? */
  predicate Settles(c: ReplyKind) {
    c == Ack || c.ErrorReply?
  }

  /** `handleLine`: an `ok...` reply resolves the oldest entry, an
      `error...` reply rejects it; anything else leaves the queue alone. */
  function HandleReply<L>(k: Link<L>, c: ReplyKind): (r: Link<L>)
    ensures r == k.(pending := r.pending, settled := r.settled)
    ensures !(Settles(c) && k.pending != []) ==> r == k
    ensures k.pending != [] && c == Ack ==>
      r.pending == k.pending[1..] && r.settled == k.settled + [Resolved(k.pending[0])]
    ensures k.pending != [] && c.ErrorReply? ==>
      r.pending == k.pending[1..] && r.settled == k.settled + [Rejected(k.pending[0], DeviceError(c.text))]
  {
    match c
    case Ack =>
      if k.pending == [] then k
      else k.(pending := k.pending[1..], settled := k.settled + [Resolved(k.pending[0])])
    case ErrorReply(t) =>
      if k.pending == [] then k
      else k.(pending := k.pending[1..], settled := k.settled + [Rejected(k.pending[0], DeviceError(t))])
    case _ => k
  }

  /** The timeout or write-error path of `sendLine`: the entry leaves the
      queue and its promise is rejected. */
  function ExpireSpec<L>(k: Link<L>, id: nat, reason: Failure): Link<L> {
    k.(pending := RemoveFirst(k.pending, id), settled := k.settled + [Rejected(id, reason)])
  }

  /** `rejectAll`: every waiting entry is rejected, oldest first, and the
      queue is empty. */
  function RejectAllSpec<L>(k: Link<L>, reason: Failure): Link<L> {
    k.(pending := [], settled := k.settled + Rejections(k.pending, reason))
  }

  /** The port's `close` event. */
  function CloseSpec<L>(k: Link<L>): Link<L> {
    RejectAllSpec(k, ConnectionClosed).(portOpen := false)
  }

  datatype LineOutcome = LineOk | LineFailed(reason: Failure)

  /** A reply that does not settle entry `id` leaves it waiting. */
  lemma StillPending<L>(k: Link<L>, c: ReplyKind, id: nat)
    requires id in k.pending && !(Settles(c) && k.pending[0] == id)
    ensures id in HandleReply(k, c).pending
  {
    if Settles(c) {
      assert k.pending == [k.pending[0]] + k.pending[1..];
    }
  }

  /** Waiting for the reply to the line with id `id`: events are taken in
      order until that entry is settled. If the events run out first, the
      line's timer fires. */
  function Await<L>(k: Link<L>, id: nat, events: seq<DeviceEvent<ReplyKind>>): (res: (Link<L>, LineOutcome, seq<DeviceEvent<ReplyKind>>))
    requires id in k.pending
    decreases |events|
  {
    if events == [] then (ExpireSpec(k, id, Timeout), LineFailed(Timeout), [])
    else match events[0]
      case Reply(c) =>
        if Settles(c) && k.pending[0] == id then
          (HandleReply(k, c), if c == Ack then LineOk else LineFailed(DeviceError(c.text)), events[1..])
        else
          StillPending(k, c, id);
          Await(HandleReply(k, c), id, events[1..])
      case TimerFired => (ExpireSpec(k, id, Timeout), LineFailed(Timeout), events[1..])
      case WriteFailed => (ExpireSpec(k, id, WriteError), LineFailed(WriteError), events[1..])
      case PortClosed => (CloseSpec(k), LineFailed(ConnectionClosed), events[1..])
  }

  /** `sendLine`: a new entry joins the queue, the line is written, and the
      line waits. */
  function Enqueue<L>(k: Link<L>, line: L): Link<L> {
    k.(pending := k.pending + [k.nextId], nextId := k.nextId + 1, written := k.written + [line])
  }

  datatype SendResult = Done | Failed(reason: Failure)

  /** The loop of `sendLines`: lines go one after another; the batch stops at
      the first line that is not acknowledged. */
  function SendAll<L>(k: Link<L>, lines: seq<L>, events: seq<DeviceEvent<ReplyKind>>): (res: (Link<L>, SendResult, seq<DeviceEvent<ReplyKind>>))
    decreases |lines|
  {
    if lines == [] then (k, Done, events)
    else
      var a := Await(Enqueue(k, lines[0]), k.nextId, events);
      if a.1.LineOk? then SendAll(a.0, lines[1..], a.2) else (a.0, Failed(a.1.reason), a.2)
  }

  /** `sendLines`: in dry-run nothing happens and the send succeeds; a
      closed port or a batch already in flight fails at once; otherwise the
      batch runs with `busy` set and `busy` is cleared afterwards. */
  function SendLinesSpec<L>(k: Link<L>, dryRun: bool, lines: seq<L>, events: seq<DeviceEvent<ReplyKind>>): (r: (Link<L>, SendResult))
    ensures r.0.busy == k.busy
  {
    if dryRun then (k, Done)
    else if !k.portOpen then (k, Failed(NotConnected))
    else if k.busy then (k, Failed(Busy))
    else
      var a := SendAll(k.(busy := true), lines, events);
      (a.0.(busy := false), a.1)
  }

  /* ---------- Properties of the ack engine ---------- */

  /** `handleLine` applied to each reply in turn. */
  function HandleAll<L>(k: Link<L>, replies: seq<ReplyKind>): Link<L>
    decreases |replies|
  {
    if replies == [] then k else HandleAll(HandleReply(k, replies[0]), replies[1..])
  }

  /** `n` acknowledgements in a row resolve the `n` oldest entries, in the
      order they were sent, and touch nothing else. */
  lemma {:induction false} AcksResolveInOrder<L>(k: Link<L>, replies: seq<ReplyKind>)
    requires |replies| <= |k.pending|
    requires forall i :: 0 <= i < |replies| ==> replies[i] == Ack
    ensures HandleAll(k, replies)
         == k.(pending := k.pending[|replies|..], settled := k.settled + Resolutions(k.pending[..|replies|]))
    decreases |replies|
  {
    if replies != [] {
      var n := |replies|;
      var tail := replies[1..];
      var k1 := HandleReply(k, Ack);
      assert replies[0] == Ack;
      forall i | 0 <= i < |tail| ensures tail[i] == Ack {
        assert tail[i] == replies[i + 1];
      }
      AcksResolveInOrder(k1, tail);
      assert k1.pending[n - 1..] == k.pending[n..];
      assert k.pending[..n][1..] == k1.pending[..n - 1];
    }
  }

  /** Blank and unrecognised replies settle nothing, however many arrive. */
  lemma {:induction false} NoiseSettlesNothing<L>(k: Link<L>, replies: seq<ReplyKind>)
    requires forall i :: 0 <= i < |replies| ==> !Settles(replies[i])
    ensures HandleAll(k, replies) == k
    decreases |replies|
  {
    if replies != [] {
      NoiseSettlesNothing(k, replies[1..]);
    }
  }

  /** Waiting keeps the lines written, the busy flag and the id counter, and
      consumes events. */
  lemma {:induction false} AwaitKeeps<L>(k: Link<L>, id: nat, events: seq<DeviceEvent<ReplyKind>>)
    requires id in k.pending
    ensures var r := Await(k, id, events);
      r.0.written == k.written && r.0.busy == k.busy && r.0.nextId == k.nextId && |r.2| <= |events|
    decreases |events|
  {
    if events != [] && events[0].Reply? {
      var c := events[0].reply;
      if !(Settles(c) && k.pending[0] == id) {
        StillPending(k, c, id);
        AwaitKeeps(HandleReply(k, c), id, events[1..]);
      }
    }
  }

  /** When only the awaited line is pending, it leaves the queue whatever
      happens, and it is acknowledged only by being resolved. */
  lemma {:induction false} AwaitEmptiesQueue<L>(k: Link<L>, id: nat, events: seq<DeviceEvent<ReplyKind>>)
    requires k.pending == [id]
    ensures Await(k, id, events).0.pending == []
    ensures Await(k, id, events).1.LineOk? ==> Await(k, id, events).0.settled == k.settled + [Resolved(id)]
    ensures Await(k, id, events).1.LineFailed? ==>
      Await(k, id, events).0.settled == k.settled + [Rejected(id, Await(k, id, events).1.reason)]
    decreases |events|
  {
    if events != [] && events[0].Reply? {
      var c := events[0].reply;
      if !(Settles(c) && k.pending[0] == id) {
        AwaitEmptiesQueue(HandleReply(k, c), id, events[1..]);
      }
    }
  }

  /** An `error` reply to the line being waited for rejects that line with
      the device's text, and the wait ends there. */
  lemma AwaitErrorRejects<L>(k: Link<L>, id: nat, text: string, rest: seq<DeviceEvent<ReplyKind>>)
    requires k.pending != [] && k.pending[0] == id
    ensures Await(k, id, [Reply(ErrorReply(text))] + rest)
         == (k.(pending := k.pending[1..], settled := k.settled + [Rejected(id, DeviceError(text))]),
             LineFailed(DeviceError(text)), rest)
  {
  }

  /** A batch writes a prefix of its lines, in order and none twice: all of
      them when it succeeds, at least one when it fails. Each line written
      takes one id. */
  lemma {:induction false} SendAllWritesInOrder<L>(k: Link<L>, lines: seq<L>, events: seq<DeviceEvent<ReplyKind>>)
    ensures var a := SendAll(k, lines, events);
      && |k.written| <= |a.0.written| <= |k.written| + |lines|
      && a.0.written == k.written + lines[..|a.0.written| - |k.written|]
      && (a.1.Done? ==> |a.0.written| == |k.written| + |lines|)
      && (a.1.Failed? ==> |a.0.written| > |k.written|)
      && a.0.nextId == k.nextId + (|a.0.written| - |k.written|)
    decreases |lines|
  {
    if lines != [] {
      var k1 := Enqueue(k, lines[0]);
      AwaitKeeps(k1, k.nextId, events);
      var a := Await(k1, k.nextId, events);
      if a.1.LineOk? {
        SendAllWritesInOrder(a.0, lines[1..], a.2);
        var m := |SendAll(a.0, lines[1..], a.2).0.written| - |a.0.written|;
        assert lines[..m + 1] == [lines[0]] + lines[1..][..m];
      } else {
        assert lines[..1] == [lines[0]];
      }
    }
  }

  /** The ids a batch of `n` lines is given, starting at `first`. */
  function Ids(first: nat, n: nat): (r: seq<nat>)
    ensures |r| == n && forall i :: 0 <= i < n ==> r[i] == first + i
  {
    seq(n, i requires 0 <= i < n => first + i)
  }

  /** Starting from an empty queue, a batch leaves the queue empty again; a
      successful one resolved exactly its own lines, one each, in the order
      they were sent. */
  lemma {:induction false} SendAllSettlesOwnLines<L>(k: Link<L>, lines: seq<L>, events: seq<DeviceEvent<ReplyKind>>)
    requires k.pending == []
    ensures SendAll(k, lines, events).0.pending == []
    ensures SendAll(k, lines, events).1.Done? ==>
      SendAll(k, lines, events).0.settled == k.settled + Resolutions(Ids(k.nextId, |lines|))
    decreases |lines|
  {
    if lines != [] {
      var k1 := Enqueue(k, lines[0]);
      AwaitEmptiesQueue(k1, k.nextId, events);
      AwaitKeeps(k1, k.nextId, events);
      var a := Await(k1, k.nextId, events);
      if a.1.LineOk? {
        SendAllSettlesOwnLines(a.0, lines[1..], a.2);
        assert Ids(k.nextId, |lines|) == [k.nextId] + Ids(a.0.nextId, |lines| - 1);
        assert Resolutions(Ids(k.nextId, |lines|)) == [Resolved(k.nextId)] + Resolutions(Ids(a.0.nextId, |lines| - 1));
      }
    }
  }

  lemma AppendAssoc<T>(x: seq<T>, y: seq<T>, z: seq<T>)
    ensures (x + y) + z == x + (y + z)
  {
  }

  /** Resolving a run of consecutive ids resolves the first, then the rest. */
  lemma ResolutionsStep(first: nat, n: nat)
    ensures Resolutions(Ids(first, n + 1)) == [Resolved(first)] + Resolutions(Ids(first + 1, n))
  {
    assert Ids(first, n + 1)[1..] == Ids(first + 1, n);
  }

  /** What a failed batch leaves behind, from settlement log `settled` and
      first id `first`: the line that failed got the last id given out and
      is the one rejected, with the batch's reason, and every line before it
      was resolved in order. */
  predicate StopsAtFirstFailure<L>(settled: seq<Settlement>, first: nat, out: Link<L>, res: SendResult) {
    res.Failed? ==>
      && out.nextId > first
      && out.settled == settled + Resolutions(Ids(first, out.nextId - 1 - first)) + [Rejected(out.nextId - 1, res.reason)]
  }

  /** A resolved line in front of a batch that failed joins its run of
      resolutions. */
  lemma FailureAfterResolved<L>(settled: seq<Settlement>, id: nat, out: Link<L>, res: SendResult)
    requires StopsAtFirstFailure(settled + [Resolved(id)], id + 1, out, res)
    ensures StopsAtFirstFailure(settled, id, out, res)
  {
    if res.Failed? {
      AppendAssoc(settled, [Resolved(id)], Resolutions(Ids(id + 1, out.nextId - 1 - (id + 1))));
      ResolutionsStep(id, out.nextId - 1 - (id + 1));
    }
  }

  /** Starting from an empty queue, a batch that fails stops at the first
      line that is not acknowledged (`StopsAtFirstFailure`). */
  lemma {:induction false} SendAllStopsAtFirstFailure<L>(k: Link<L>, lines: seq<L>, events: seq<DeviceEvent<ReplyKind>>)
    requires k.pending == []
    ensures StopsAtFirstFailure(k.settled, k.nextId, SendAll(k, lines, events).0, SendAll(k, lines, events).1)
    decreases |lines|
  {
    if lines != [] {
      var k1 := Enqueue(k, lines[0]);
      AwaitEmptiesQueue(k1, k.nextId, events);
      AwaitKeeps(k1, k.nextId, events);
      var a := Await(k1, k.nextId, events);
      if a.1.LineOk? {
        SendAllStopsAtFirstFailure(a.0, lines[1..], a.2);
        var b := SendAll(a.0, lines[1..], a.2);
        FailureAfterResolved(k.settled, k.nextId, b.0, b.1);
      } else {
        assert Ids(k.nextId, 0) == [];
      }
    }
  }

  /** `sendLines` short-circuits: in dry-run, with the port closed, or while
      another batch is in flight, nothing changes; otherwise `busy` is clear
      again when the call returns. */
  lemma SendLinesFlags<L>(k: Link<L>, dryRun: bool, lines: seq<L>, events: seq<DeviceEvent<ReplyKind>>)
    ensures dryRun ==> SendLinesSpec(k, dryRun, lines, events) == (k, Done)
    ensures !dryRun && !k.portOpen ==> SendLinesSpec(k, dryRun, lines, events) == (k, Failed(NotConnected))
    ensures !dryRun && k.portOpen && k.busy ==> SendLinesSpec(k, dryRun, lines, events) == (k, Failed(Busy))
    ensures !dryRun && k.portOpen && !k.busy ==> !SendLinesSpec(k, dryRun, lines, events).0.busy
  {
    if !dryRun && k.portOpen && !k.busy {
      SendAllWritesInOrder(k.(busy := true), lines, events);
    }
  }

  /** The fragility of matching replies by order alone: an `ok` that arrives
      after its line timed out is taken as the acknowledgement of the next
      batch's line, which then counts as sent although the device has not
      answered it. */
  lemma StaleAckResolvesNextLine<L>(k: Link<L>, a: L, b: L)
    requires k.portOpen && !k.busy && k.pending == []
    ensures SendLinesSpec(k, false, [a], [TimerFired]).1 == Failed(Timeout)
    ensures var k1 := SendLinesSpec(k, false, [a], [TimerFired]).0;
      && SendLinesSpec(k1, false, [b], [Reply(Ack)]).1 == Done
      && SendLinesSpec(k1, false, [b], [Reply(Ack)]).0.settled == k1.settled + [Resolved(k.nextId + 1)]
  {
    var q := Enqueue(k.(busy := true), a);
    assert q.pending == [k.nextId];
    var k1 := SendLinesSpec(k, false, [a], [TimerFired]).0;
    assert k1 == ExpireSpec(q, k.nextId, Timeout).(busy := false);
    assert RemoveFirst([k.nextId], k.nextId) == [];
    assert k1.pending == [] && k1.portOpen && !k1.busy && k1.nextId == k.nextId + 1;
    var q2 := Enqueue(k1.(busy := true), b);
    assert q2.pending == [k.nextId + 1];
    var evs: seq<DeviceEvent<ReplyKind>> := [Reply(Ack)];
    assert evs[0] == Reply(Ack) && evs[1..] == [];
    assert Await(q2, k.nextId + 1, evs) == (HandleReply(q2, Ack), LineOk, []);
    assert SendAll(k1.(busy := true), [b], evs) == (HandleReply(q2, Ack), Done, []);
  }

  /* ---------- The engine object ---------- */

  class SerialStreamer<L> {
    const dryRun: bool
    var portOpen: bool
    var pending: seq<nat>
    var busy: bool
    var nextId: nat
    var written: seq<L>
    var settled: seq<Settlement>

    function Abs(): Link<L>
      reads this
    {
      Link(portOpen, pending, busy, nextId, written, settled)
    }

    constructor (dryRun: bool)
      ensures this.dryRun == dryRun
      ensures Abs() == Link(false, [], false, 0, [], [])
    {
      this.dryRun := dryRun;
      portOpen, pending, busy, nextId, written, settled := false, [], false, 0, [], [];
    }

    /** `isConnected`. */
    function IsConnected(): (r: bool)
      reads this
      ensures r == Abs().portOpen
    {
      portOpen
    }

    /** `connect`: skipped in dry-run and when already open; otherwise the
      port opens or the open error is returned. */
    method Connect(opens: bool) returns (r: SendResult)
      modifies this`portOpen
      ensures dryRun || old(portOpen) ==> portOpen == old(portOpen) && r == Done
      ensures !dryRun && !old(portOpen) ==> portOpen == opens && r == (if opens then Done else Failed(PortError))
    {
      if dryRun || portOpen {
        return Done;
      }
      portOpen := opens;
      r := if opens then Done else Failed(PortError);
    }

    /** `disconnect`: skipped in dry-run and when already closed; a
      successful close fires the port's `close` event, which rejects every
      waiting line. */
    method Disconnect(closes: bool) returns (r: SendResult)
      modifies this
      ensures dryRun || !old(portOpen) ==> Abs() == old(Abs()) && r == Done
      ensures !dryRun && old(portOpen) && closes ==> Abs() == CloseSpec(old(Abs())) && r == Done
      ensures !dryRun && old(portOpen) && !closes ==> Abs() == old(Abs()) && r == Failed(PortError)
    {
      if dryRun || !portOpen {
        return Done;
      }
      if closes {
        PortClose();
        r := Done;
      } else {
        r := Failed(PortError);
      }
    }

    /** The port's `close` handler. */
    method PortClose()
      modifies this
      ensures Abs() == CloseSpec(old(Abs()))
    {
      RejectAll(ConnectionClosed);
      portOpen := false;
    }

    /** `handleLine`. */
    method HandleLine(text: string)
      modifies this
      ensures Abs() == HandleReply(old(Abs()), Classify(text))
    {
      var trimmed := Trim(text);
      if trimmed == [] {
        return;
      }
      var lower := Lower(trimmed);
      if StartsWith(lower, "ok") {
        if pending != [] {
          var head := pending[0];
          pending := pending[1..];
          settled := settled + [Resolved(head)];
        }
        return;
      }
      if StartsWith(lower, "error") {
        if pending != [] {
          var head := pending[0];
          pending := pending[1..];
          settled := settled + [Rejected(head, DeviceError(trimmed))];
        }
        return;
      }
    }

    /** `findIndex` over the queue: the first position holding `id`, or -1. */
    static method FindIndex(s: seq<nat>, id: nat) returns (index: int)
      ensures -1 <= index < |s|
      ensures index == -1 <==> id !in s
      ensures index >= 0 ==> s[index] == id && id !in s[..index]
    {
      index := 0;
      while index < |s|
        invariant 0 <= index <= |s|
        invariant id !in s[..index]
      {
        if s[index] == id {
          return;
        }
        assert s[..index + 1] == s[..index] + [s[index]];
        index := index + 1;
      }
      assert s[..index] == s;
      index := -1;
    }

    /** `removePending`. */
    method RemovePending(id: nat)
      modifies this`pending
      ensures pending == RemoveFirst(old(pending), id)
    {
      var index := FindIndex(pending, id);
      if index >= 0 {
        RemoveFirstAt(pending, id, index);
        pending := pending[..index] + pending[index + 1..];
      }
    }

    /** `rejectAll`: empty the queue, then reject what was in it in order. */
    method RejectAll(reason: Failure)
      modifies this
      ensures Abs() == RejectAllSpec(old(Abs()), reason)
    {
      var batch := pending;
      pending := [];
      var i := 0;
      while i < |batch|
        invariant 0 <= i <= |batch|
        invariant Abs() == old(Abs()).(pending := [], settled := old(settled) + Rejections(batch[..i], reason))
      {
        assert Rejections(batch[..i + 1], reason) == Rejections(batch[..i], reason) + [Rejected(batch[i], reason)];
        settled := settled + [Rejected(batch[i], reason)];
        i := i + 1;
      }
      assert batch[..i] == batch;
    }

    /** The timer or write-error callback of a waiting line. */
    method Expire(id: nat, reason: Failure)
      modifies this
      ensures Abs() == ExpireSpec(old(Abs()), id, reason)
    {
      RemovePending(id);
      settled := settled + [Rejected(id, reason)];
    }

    /** The promise of `sendLine` for the line with id `id`, driven by the
      events that arrive while it waits. */
    method AwaitLine(id: nat, events: seq<DeviceEvent<string>>) returns (out: LineOutcome, rest: seq<DeviceEvent<string>>)
      requires id in pending
      modifies this
      ensures var a := Await(old(Abs()), id, HearAll(events));
        Abs() == a.0 && out == a.1 && HearAll(rest) == a.2
    {
      rest := events;
      while true
        invariant id in pending
        invariant Await(old(Abs()), id, HearAll(events)) == Await(Abs(), id, HearAll(rest))
        decreases |rest|
      {
        if rest == [] {
          Expire(id, Timeout);
          return LineFailed(Timeout), [];
        }
        var e := rest[0];
        ghost var heard := HearAll(rest);
        assert heard[0] == Hear(e) && heard[1..] == HearAll(rest[1..]);
        rest := rest[1..];
        match e {
          case Reply(t) =>
            var c := Classify(t);
            ghost var k := Abs();
            var head := pending[0];
            HandleLine(t);
            assert Abs() == HandleReply(k, c);
            if Settles(c) && head == id {
              out := if c == Ack then LineOk else LineFailed(DeviceError(c.text));
              return;
            }
            StillPending(k, c, id);
            assert Await(k, id, heard) == Await(Abs(), id, HearAll(rest));
          case TimerFired =>
            Expire(id, Timeout);
            return LineFailed(Timeout), rest;
          case WriteFailed =>
            Expire(id, WriteError);
            return LineFailed(WriteError), rest;
          case PortClosed =>
            PortClose();
            return LineFailed(ConnectionClosed), rest;
        }
      }
    }

    /** `sendLine`: queue a new entry, write the line, wait for its reply. */
    method SendLine(line: L, events: seq<DeviceEvent<string>>) returns (out: LineOutcome, rest: seq<DeviceEvent<string>>)
      modifies this
      ensures var a := Await(Enqueue(old(Abs()), line), old(nextId), HearAll(events));
        Abs() == a.0 && out == a.1 && HearAll(rest) == a.2
      ensures busy == old(busy)
    {
      var id := nextId;
      ghost var k := Enqueue(Abs(), line);
      pending, nextId, written := pending + [id], nextId + 1, written + [line];
      assert Abs() == k && id in k.pending;
      AwaitKeeps(k, id, HearAll(events));
      out, rest := AwaitLine(id, events);
    }

    /** `sendLines`. */
    method SendLines(lines: seq<L>, events: seq<DeviceEvent<string>>) returns (r: SendResult)
      modifies this
      ensures (Abs(), r) == SendLinesSpec(old(Abs()), dryRun, lines, HearAll(events))
    {
      if dryRun {
        return Done;
      }
      if !portOpen {
        return Failed(NotConnected);
      }
      if busy {
        return Failed(Busy);
      }
      busy := true;
      ghost var start := Abs();
      var i := 0;
      var rest := events;
      r := Done;
      while i < |lines|
        invariant 0 <= i <= |lines| && busy
        invariant SendAll(start, lines, HearAll(events)) == SendAll(Abs(), lines[i..], HearAll(rest))
      {
        assert lines[i..][1..] == lines[i + 1..];
        var out;
        out, rest := SendLine(lines[i], rest);
        if out.LineFailed? {
          r := Failed(out.reason);
          break;
        }
        i := i + 1;
      }
      busy := false;
    }
  }
}
