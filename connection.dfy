/**
 * One connection of the note-editing client: the `ws.on('open')`,
 * `ws.on('message')` and `ws.on('error')` handlers. The override and append
 * calls run the same handler code apart from the `doc` branch, so the model has
 * one handler parameterised by the mode. The socket is an append-only log of
 * sent frames plus a `closed` flag; the call's promise is an outcome that the
 * first settlement fixes. `HandleMessage` and `Step` are the specification;
 * the class `Client` runs the same handlers statement by statement and is
 * proved to follow them.
 */
module Connection {
  import opened Wrappers
  import opened JsValues
  import opened SocketIo
  import opened TextOperation
  import opened Frames

  /** Milliseconds after the connection starts beyond which any message fails the call. */
  const TimeoutMs: int := 15000

  /** What a call fixes before it connects: the mode, the note, the new text, and `JSON.parse`. */
  datatype Config = Config(mode: Mode, noteId: string, content: string, parse: string -> Option<JsValue>)

  datatype Reason =
    | Timeout                      // a message arrived after the deadline
    | ServerError(payload: JsValue) // the server sent an `error` event
    | HandshakeFailed              // the Engine.IO open packet could not be used
    | TransportError               // the socket reported an error

  /** The call's promise: once settled it keeps its first value. */
  datatype Outcome = Pending | Resolved | Rejected(reason: Reason)

  datatype ConnState = ConnState(
    sent: seq<Frame>,
    closed: bool,
    operationSent: bool,
    closeScheduled: bool,
    pingIntervals: seq<JsValue>,  // pingInterval values the keepalive loop was started with (it is given value / 1000)
    outcome: Outcome)

  /** What the socket and the handlers observe. `elapsedMs` is `Date.now() - startTime`. */
  datatype SocketEvent =
    | Opened
    | Received(message: string, elapsedMs: int)
    | Errored
    | GraceElapsed                 // the one-second timer set after the edit frames

  function Initial(): ConnState
  {
    ConnState([], false, false, false, [], Pending)
  }

  /** `ws.send`: a frame given to a socket that is closing is not sent. */
  function Transmit(st: ConnState, f: Frame): ConnState
  {
    if st.closed then st else st.(sent := st.sent + [f])
  }

  function TransmitAll(st: ConnState, fs: seq<Frame>): ConnState
  {
    if st.closed then st else st.(sent := st.sent + fs)
  }

  function Settle(st: ConnState, o: Outcome): ConnState
  {
    if st.outcome.Pending? then st.(outcome := o) else st
  }

  function Close(st: ConnState): ConnState
  {
    st.(closed := true)
  }

  /**
   * The `doc` snapshot `messageData[0]` when it is an object whose `str` is a
   * string and whose `revision` is a number; `None` otherwise.
   */
  function SnapshotOf(args: JsValue): (r: Option<Snapshot>)
    ensures r.Some? ==> args.Arr? && args.items != [] && args.items[0].Obj?
    ensures r.Some? ==> "str" in args.items[0].fields && args.items[0].fields["str"] == Str(r.value.str)
    ensures r.Some? ==> "revision" in args.items[0].fields && args.items[0].fields["revision"] == Num(r.value.revision)
    ensures (&& args.Arr? && args.items != [] && args.items[0].Obj?
             && "str" in args.items[0].fields && args.items[0].fields["str"].Str?
             && "revision" in args.items[0].fields && args.items[0].fields["revision"].Num?)
            ==> r.Some?
  {
    if args.Arr? && args.items != [] && args.items[0].Obj? then
      var fields := args.items[0].fields;
      if "str" in fields && fields["str"].Str? && "revision" in fields && fields["revision"].Num? then
        Some(Snapshot(fields["str"].s, fields["revision"].n))
      else None
    else None
  }

  /** An event frame is neither a connect acknowledgement nor an open packet. */
  lemma EventPrefixExclusive(message: string)
    ensures StartsWith(message, EventPrefix) ==> !StartsWith(message, "40") && !StartsWith(message, "0")
  {
    if StartsWith(message, EventPrefix) {
      assert message[0] == '4' && message[1] == '2';
    }
  }

  /** The Engine.IO open packet `0<json>`: probe, maybe start the keepalive loop, join the note. */
  function HandleOpenPacket(cfg: Config, st: ConnState, body: string): (r: ConnState)
    ensures r.closed == st.closed && r.operationSent == st.operationSent && r.closeScheduled == st.closeScheduled
    ensures st.closed ==> r.sent == st.sent
    ensures !st.closed ==>
              match cfg.parse(body)
              case None => r.sent == st.sent
              case Some(h) => r.sent == st.sent + (if h.Null? || h.Undefined? then [Probe] else [Probe, Join(cfg.noteId)])
    ensures st.sent <= r.sent && Edits(r.sent) == Edits(st.sent)
    ensures !st.outcome.Pending? ==> r.outcome == st.outcome
    // An open packet that does not parse, or parses to null, rejects the call; a usable one leaves it pending.
    ensures st.outcome.Pending? ==>
              r.outcome == (if cfg.parse(body).None? || cfg.parse(body).value.Null? || cfg.parse(body).value.Undefined?
                            then Rejected(HandshakeFailed) else Pending)
    // The keepalive loop starts only for an object packet with a truthy `pingInterval`, with that value.
    ensures r.pingIntervals == st.pingIntervals +
              match cfg.parse(body)
              case None => []
              case Some(h) =>
                if !h.Null? && !h.Undefined? && Truthy(Prop(h, "pingInterval")) then [Prop(h, "pingInterval")] else []
  {
    match cfg.parse(body)
    case None => Settle(st, Rejected(HandshakeFailed))
    case Some(handshake) =>
      var probed := Transmit(st, Probe);
      EditsAppend(st.sent, [Probe]);
      if handshake.Null? || handshake.Undefined? then
        // Reading `pingInterval` of null throws after the probe went out.
        Settle(probed, Rejected(HandshakeFailed))
      else
        var interval := Prop(handshake, "pingInterval");
        var pinging := if Truthy(interval) then probed.(pingIntervals := probed.pingIntervals + [interval]) else probed;
        EditsAppend(st.sent, [Probe, Join(cfg.noteId)]);
        assert Edits([Probe, Join(cfg.noteId)]) == [] by {
          assert [Probe, Join(cfg.noteId)][1..] == [Join(cfg.noteId)];
        }
        Transmit(pinging, Join(cfg.noteId))
  }

  /** A decoded event: `error` fails the call; the first `doc` sends the edit sequence. */
  function HandleEvent(cfg: Config, st: ConnState, d: Decoded): (r: ConnState)
    ensures d.Ignored? ==> r == st
    ensures d.Event? && d.name == Str("error") ==>
              r == st.(closed := true,
                       outcome := if st.outcome.Pending? then Rejected(ServerError(d.args)) else st.outcome)
    ensures !st.operationSent && d.Event? && d.name == Str("doc") && SnapshotOf(d.args).Some? ==>
              && r.operationSent && r.closeScheduled && r.closed == st.closed && r.outcome == st.outcome
              && r.sent == (if st.closed then st.sent
                            else st.sent + EditSequence(cfg.mode, SnapshotOf(d.args).value, cfg.content))
    ensures st.operationSent && d.Event? && d.name == Str("doc") ==> r == st
    ensures d.Event? && d.name != Str("error") && d.name != Str("doc") ==> r == st
    // A `doc` whose snapshot cannot be read sets the flag and sends nothing.
    ensures !st.operationSent && d.Event? && d.name == Str("doc") && Truthy(d.args) && SnapshotOf(d.args).None? ==>
              r == st.(operationSent := true)
    ensures st.operationSent ==> r.operationSent
    ensures !st.operationSent && r.operationSent ==> d.Event? && d.name == Str("doc")
    ensures st.sent <= r.sent
    ensures st.closed ==> r.sent == st.sent && r.closed
    ensures r.operationSent == st.operationSent ==> r.sent == st.sent
    ensures !st.outcome.Pending? ==> r.outcome == st.outcome
    ensures r.pingIntervals == st.pingIntervals
  {
    if d.Event? && d.name == Str("error") then
      Settle(Close(st), Rejected(ServerError(d.args)))
    else if d.Event? && d.name == Str("doc") && Truthy(d.args) && !st.operationSent then
      var flagged := st.(operationSent := true);
      match SnapshotOf(d.args)
      case None => flagged   // reading the snapshot throws once the flag is set
      case Some(snap) => TransmitAll(flagged, EditSequence(cfg.mode, snap, cfg.content)).(closeScheduled := true)
    else
      st
  }

  /** The `ws.on('message')` handler. */
  function HandleMessage(cfg: Config, st: ConnState, message: string, elapsedMs: int): (r: ConnState)
    // The deadline comes first: close, reject, send nothing.
    ensures elapsedMs > TimeoutMs ==>
              r == st.(closed := true, outcome := if st.outcome.Pending? then Rejected(Timeout) else st.outcome)
    // A connect acknowledgement changes nothing.
    ensures elapsedMs <= TimeoutMs && StartsWith(message, "40") ==> r == st
    // The open packet sends the probe, then the join, and nothing else.
    ensures elapsedMs <= TimeoutMs && !StartsWith(message, "40") && StartsWith(message, "0") && !st.closed ==>
              match cfg.parse(message[1..])
              case None => r.sent == st.sent
              case Some(h) => r.sent == st.sent + (if h.Null? || h.Undefined? then [Probe] else [Probe, Join(cfg.noteId)])
    ensures elapsedMs <= TimeoutMs && !StartsWith(message, "40") && StartsWith(message, "0") ==>
              r == HandleOpenPacket(cfg, st, message[1..])
    // Every other frame is handled as its decoded event; (null, null) changes nothing.
    ensures elapsedMs <= TimeoutMs && !StartsWith(message, "0") ==>
              r == HandleEvent(cfg, st, Decode(message, cfg.parse))
    ensures elapsedMs <= TimeoutMs && !StartsWith(message, "0") && Decode(message, cfg.parse).Ignored? ==> r == st
    // Only a `doc` event sets the flag, and nothing clears it.
    ensures st.operationSent ==> r.operationSent
    ensures !st.operationSent && r.operationSent ==>
              elapsedMs <= TimeoutMs && Decode(message, cfg.parse).Event? && Decode(message, cfg.parse).name == Str("doc")
    // The log only grows, not at all once closed, and never by an edit frame except with the flag.
    ensures st.sent <= r.sent
    ensures st.closed ==> r.sent == st.sent && r.closed
    ensures r.operationSent == st.operationSent ==> Edits(r.sent) == Edits(st.sent)
    ensures !st.outcome.Pending? ==> r.outcome == st.outcome
  {
    EventPrefixExclusive(message);
    if elapsedMs > TimeoutMs then
      Settle(Close(st), Rejected(Timeout))
    else if StartsWith(message, "40") then
      st
    else if StartsWith(message, "0") then
      HandleOpenPacket(cfg, st, message[1..])
    else
      HandleEvent(cfg, st, Decode(message, cfg.parse))
  }

  /** Every `doc` event after the flag is set leaves the log as it is, on time or late. */
  lemma LaterDocLeavesLog(cfg: Config, st: ConnState, message: string, elapsedMs: int)
    requires st.operationSent
    requires Decode(message, cfg.parse).Event? && Decode(message, cfg.parse).name == Str("doc")
    ensures HandleMessage(cfg, st, message, elapsedMs).sent == st.sent
    ensures HandleMessage(cfg, st, message, elapsedMs).operationSent
  {
    EventPrefixExclusive(message);
  }

  /** One event on the connection. */
  function Step(cfg: Config, st: ConnState, ev: SocketEvent): (r: ConnState)
    ensures st.sent <= r.sent
    ensures st.closed ==> r.sent == st.sent && r.closed
    ensures st.operationSent ==> r.operationSent
    ensures r.operationSent == st.operationSent ==> Edits(r.sent) == Edits(st.sent)
    ensures !st.outcome.Pending? ==> r.outcome == st.outcome
    ensures !st.closeScheduled && r.outcome != st.outcome ==> r.outcome.Rejected?
    // Opening the socket sends `40` and nothing else.
    ensures ev.Opened? ==> r == (if st.closed then st else st.(sent := st.sent + [Connect]))
    // A socket error rejects a pending call; the client itself neither sends nor closes.
    ensures ev.Errored? ==>
              r == st.(outcome := if st.outcome.Pending? then Rejected(TransportError) else st.outcome)
    // The grace timer closes the socket and resolves a pending call.
    ensures ev.GraceElapsed? && st.closeScheduled ==>
              r == st.(closed := true, closeScheduled := false,
                       outcome := if st.outcome.Pending? then Resolved else st.outcome)
  {
    match ev
    case Opened =>
      var r := Transmit(st, Connect);
      EditsAppend(st.sent, [Connect]);
      r
    case Received(message, elapsedMs) => HandleMessage(cfg, st, message, elapsedMs)
    case Errored => Settle(st, Rejected(TransportError))
    case GraceElapsed =>
      if st.closeScheduled then Settle(Close(st), Resolved).(closeScheduled := false) else st
  }

  /** A sequence of events, from first to last. */
  function Run(cfg: Config, st: ConnState, evs: seq<SocketEvent>): ConnState
    decreases |evs|
  {
    if evs == [] then st else Run(cfg, Step(cfg, st, evs[0]), evs[1..])
  }

  // ---- At most one edit sequence per connection ----

  /** The edit frames in the log are none, or exactly one edit sequence; none before the flag. */
  ghost predicate OneEditSequence(cfg: Config, st: ConnState)
  {
    && (!st.operationSent ==> Edits(st.sent) == [])
    && (Edits(st.sent) == [] || exists snap :: Edits(st.sent) == EditSequence(cfg.mode, snap, cfg.content))
  }

  lemma EditsOfEditSequence(mode: Mode, snap: Snapshot, content: string)
    ensures Edits(EditSequence(mode, snap, content)) == EditSequence(mode, snap, content)
  {
    var fs := EditSequence(mode, snap, content);
    if |fs| == 4 {
      assert fs[3..][1..] == [];
      assert Edits(fs[3..]) == [fs[3]];
      assert fs[2..][1..] == fs[3..];
      assert Edits(fs[2..]) == [fs[2], fs[3]];
      assert fs[1..][1..] == fs[2..];
      assert Edits(fs[1..]) == [fs[1], fs[2], fs[3]];
    } else {
      assert fs[1..] == [];
    }
  }

  lemma StepKeepsOneEditSequence(cfg: Config, st: ConnState, ev: SocketEvent)
    requires OneEditSequence(cfg, st)
    ensures OneEditSequence(cfg, Step(cfg, st, ev))
  {
    var r := Step(cfg, st, ev);
    if !st.operationSent && r.operationSent {
      var message, elapsedMs := ev.message, ev.elapsedMs;
      var d := Decode(message, cfg.parse);
      EventPrefixExclusive(message);
      assert r == HandleEvent(cfg, st, d);
      var snap := SnapshotOf(d.args);
      if snap.Some? && !st.closed {
        var fs := EditSequence(cfg.mode, snap.value, cfg.content);
        assert r.sent == st.sent + fs;
        EditsAppend(st.sent, fs);
        EditsOfEditSequence(cfg.mode, snap.value, cfg.content);
        assert Edits(r.sent) == EditSequence(cfg.mode, snap.value, cfg.content);
      }
    }
  }

  lemma {:induction false} RunKeepsOneEditSequence(cfg: Config, st: ConnState, evs: seq<SocketEvent>)
    requires OneEditSequence(cfg, st)
    ensures OneEditSequence(cfg, Run(cfg, st, evs))
    decreases |evs|
  {
    if evs != [] {
      StepKeepsOneEditSequence(cfg, st, evs[0]);
      RunKeepsOneEditSequence(cfg, Step(cfg, st, evs[0]), evs[1..]);
    }
  }

  lemma {:induction false} OperationsOfEdits(fs: seq<Frame>)
    ensures Operations(Edits(fs)) == Operations(fs)
    decreases |fs|
  {
    if fs != [] {
      OperationsOfEdits(fs[1..]);
      var head := if IsEdit(fs[0]) then [fs[0]] else [];
      assert Edits(fs) == head + Edits(fs[1..]);
      if IsEdit(fs[0]) {
        var e := head + Edits(fs[1..]);
        assert e[0] == fs[0] && e[1..] == Edits(fs[1..]);
        assert Operations(e) == (if fs[0].Operation? then [fs[0]] else []) + Operations(Edits(fs[1..]));
      } else {
        assert Edits(fs) == Edits(fs[1..]);
      }
    }
  }

  /**
   * Whatever the server sends, one connection sends at most one edit
   * sequence: at most two operations for override, at most one for append.
   */
  lemma AtMostOneOperationSequence(cfg: Config, evs: seq<SocketEvent>)
    ensures OneEditSequence(cfg, Run(cfg, Initial(), evs))
    ensures |Operations(Run(cfg, Initial(), evs).sent)| <= (if cfg.mode.Override? then 2 else 1)
  {
    RunKeepsOneEditSequence(cfg, Initial(), evs);
    var sent := Run(cfg, Initial(), evs).sent;
    OperationsOfEdits(sent);
    if Edits(sent) != [] {
      var snap :| Edits(sent) == EditSequence(cfg.mode, snap, cfg.content);
      EditSequenceBaseLengths(cfg.mode, snap, cfg.content);
    }
  }

  /** Frames that arrive after the flag is set never add an edit frame. */
  lemma {:induction false} LaterDocsAddNothing(cfg: Config, st: ConnState, evs: seq<SocketEvent>)
    requires st.operationSent
    ensures Run(cfg, st, evs).operationSent
    ensures Edits(Run(cfg, st, evs).sent) == Edits(st.sent)
    decreases |evs|
  {
    if evs != [] {
      LaterDocsAddNothing(cfg, Step(cfg, st, evs[0]), evs[1..]);
    }
  }

  /** After the socket is closed nothing more is sent, and it stays closed. */
  lemma {:induction false} ClosedSendsNothing(cfg: Config, st: ConnState, evs: seq<SocketEvent>)
    requires st.closed
    ensures Run(cfg, st, evs).closed
    ensures Run(cfg, st, evs).sent == st.sent
    decreases |evs|
  {
    if evs != [] {
      ClosedSendsNothing(cfg, Step(cfg, st, evs[0]), evs[1..]);
    }
  }

  /** The call settles at most once: a settled outcome never changes. */
  lemma {:induction false} SettledOnce(cfg: Config, st: ConnState, evs: seq<SocketEvent>)
    requires !st.outcome.Pending?
    ensures Run(cfg, st, evs).outcome == st.outcome
    decreases |evs|
  {
    if evs != [] {
      SettledOnce(cfg, Step(cfg, st, evs[0]), evs[1..]);
    }
  }

  // ---- The deadline ----

  predicate AllLate(evs: seq<SocketEvent>)
  {
    forall i :: 0 <= i < |evs| && evs[i].Received? ==> evs[i].elapsedMs > TimeoutMs
  }

  predicate SomeMessage(evs: seq<SocketEvent>)
  {
    exists i :: 0 <= i < |evs| && evs[i].Received?
  }

  /** Nothing has been edited yet and the call has not succeeded. */
  ghost predicate NoEditYet(st: ConnState)
  {
    && !st.operationSent && Edits(st.sent) == [] && !st.closeScheduled
    && st.outcome in {Pending, Rejected(Timeout), Rejected(TransportError)}
  }

  lemma {:induction false} LateRunEditsNothing(cfg: Config, st: ConnState, evs: seq<SocketEvent>)
    requires NoEditYet(st)
    requires AllLate(evs)
    requires st.outcome != Pending ==> st.closed || st.outcome == Rejected(TransportError)
    requires st.closed ==> st.outcome != Pending
    ensures var r := Run(cfg, st, evs);
            && NoEditYet(r)
            && (SomeMessage(evs) ==> r.closed && r.outcome in {Rejected(Timeout), Rejected(TransportError)})
            && (r.outcome != Pending ==> r.closed || r.outcome == Rejected(TransportError))
            && (r.closed ==> r.outcome != Pending)
    decreases |evs|
  {
    if evs != [] {
      var next := Step(cfg, st, evs[0]);
      if evs[0].Opened? {
        EditsAppend(st.sent, [Connect]);
      }
      assert AllLate(evs[1..]) by {
        forall i | 0 <= i < |evs[1..]| && evs[1..][i].Received? ensures evs[1..][i].elapsedMs > TimeoutMs {
          assert evs[1..][i] == evs[i + 1];
        }
      }
      LateRunEditsNothing(cfg, next, evs[1..]);
      var r := Run(cfg, next, evs[1..]);
      if SomeMessage(evs) && !evs[0].Received? {
        var i :| 0 <= i < |evs| && evs[i].Received?;
        assert evs[1..][i - 1].Received?;
      }
      if evs[0].Received? {
        assert next.closed;
        ClosedSendsNothing(cfg, next, evs[1..]);
      }
    }
  }

  /**
   * A connection on which every message arrives after the deadline sends no
   * edit frame; once any message has arrived the socket is closed and the call
   * has failed, by the timeout or by an earlier socket error.
   */
  lemma DeadlineMissedSendsNothing(cfg: Config, evs: seq<SocketEvent>)
    requires AllLate(evs)
    ensures var r := Run(cfg, Initial(), evs);
            && !r.operationSent && Edits(r.sent) == [] && Operations(r.sent) == []
            && (SomeMessage(evs) ==> r.closed && r.outcome in {Rejected(Timeout), Rejected(TransportError)})
  {
    LateRunEditsNothing(cfg, Initial(), evs);
    OperationsOfEdits(Run(cfg, Initial(), evs).sent);
  }

  /** A `doc` event that arrives before the deadline. */
  predicate OnTimeDoc(cfg: Config, ev: SocketEvent)
  {
    && ev.Received? && ev.elapsedMs <= TimeoutMs
    && Decode(ev.message, cfg.parse).Event? && Decode(ev.message, cfg.parse).name == Str("doc")
  }

  /**
   * Whatever else arrives, on time or late (acknowledgements, open packets,
   * other events, socket errors), a connection that gets no `doc` before the
   * deadline never sets the flag and sends no edit frame and no operation.
   */
  lemma {:induction false} NoTimelyDocSendsNothing(cfg: Config, st: ConnState, evs: seq<SocketEvent>)
    requires !st.operationSent && Edits(st.sent) == []
    requires forall i :: 0 <= i < |evs| ==> !OnTimeDoc(cfg, evs[i])
    ensures var r := Run(cfg, st, evs);
            !r.operationSent && Edits(r.sent) == [] && Operations(r.sent) == []
    decreases |evs|
  {
    if evs == [] {
      OperationsOfEdits(st.sent);
    } else {
      assert !OnTimeDoc(cfg, evs[0]);
      NoTimelyDocSendsNothing(cfg, Step(cfg, st, evs[0]), evs[1..]);
    }
  }

  // ---- Whole conversations ----

  /**
   * The conversation of a successful call: connect, probe and join on the open
   * packet, the edit sequence on the first `doc`, then close and resolve when
   * the grace period ends.
   */
  lemma SuccessfulCall(cfg: Config, openBody: string, docBody: string, snap: Snapshot, t1: int, t2: int)
    requires t1 <= TimeoutMs && t2 <= TimeoutMs
    requires cfg.parse(openBody).Some? && !cfg.parse(openBody).value.Null? && !cfg.parse(openBody).value.Undefined?
    requires Decode(EventPrefix + docBody, cfg.parse).Event?
    requires Decode(EventPrefix + docBody, cfg.parse).name == Str("doc")
    requires SnapshotOf(Decode(EventPrefix + docBody, cfg.parse).args) == Some(snap)
    ensures var r := Run(cfg, Initial(), [Opened, Received("0" + openBody, t1), Received(EventPrefix + docBody, t2), GraceElapsed]);
            && r.sent == [Connect, Probe, Join(cfg.noteId)] + EditSequence(cfg.mode, snap, cfg.content)
            && r.closed && r.operationSent && r.outcome == Resolved
  {
    var evs := [Opened, Received("0" + openBody, t1), Received(EventPrefix + docBody, t2), GraceElapsed];
    var s1 := Step(cfg, Initial(), Opened);
    assert s1.sent == [Connect];
    var open := "0" + openBody;
    assert !StartsWith(open, "40") && StartsWith(open, "0") && open[1..] == openBody by {
      assert open[0] == '0';
    }
    var s2 := Step(cfg, s1, Received(open, t1));
    assert s2.sent == [Connect, Probe, Join(cfg.noteId)] && !s2.closed && !s2.operationSent && s2.outcome == Pending;
    var s3 := Step(cfg, s2, Received(EventPrefix + docBody, t2));
    assert s3.sent == [Connect, Probe, Join(cfg.noteId)] + EditSequence(cfg.mode, snap, cfg.content);
    var s4 := Step(cfg, s3, GraceElapsed);
    assert Run(cfg, s4, evs[4..]) == s4;
    assert Run(cfg, s3, evs[3..]) == Run(cfg, s4, evs[4..]) by { assert evs[3..][0] == evs[3] && evs[3..][1..] == evs[4..]; }
    assert Run(cfg, s2, evs[2..]) == Run(cfg, s3, evs[3..]) by { assert evs[2..][0] == evs[2] && evs[2..][1..] == evs[3..]; }
    assert Run(cfg, s1, evs[1..]) == Run(cfg, s2, evs[2..]) by { assert evs[1..][0] == evs[1] && evs[1..][1..] == evs[2..]; }
  }

  /** An `error` event before the snapshot fails the call, and a later `doc` edits nothing. */
  lemma ErrorBeforeDoc(cfg: Config, errorBody: string, docBody: string, t1: int, t2: int, payload: JsValue)
    requires t1 <= TimeoutMs
    requires Decode(EventPrefix + errorBody, cfg.parse) == Event(Str("error"), payload)
    ensures var r := Run(cfg, Initial(), [Opened, Received(EventPrefix + errorBody, t1), Received(EventPrefix + docBody, t2)]);
            && r.sent == [Connect] && r.closed && r.outcome == Rejected(ServerError(payload))
  {
    var evs := [Opened, Received(EventPrefix + errorBody, t1), Received(EventPrefix + docBody, t2)];
    var s1 := Step(cfg, Initial(), Opened);
    assert s1.sent == [Connect] && !s1.closed && s1.outcome == Pending;
    EventPrefixExclusive(EventPrefix + errorBody);
    var s2 := Step(cfg, s1, evs[1]);
    assert s2.sent == [Connect] && s2.closed && s2.outcome == Rejected(ServerError(payload));
    ClosedSendsNothing(cfg, s2, evs[2..]);
    SettledOnce(cfg, s2, evs[2..]);
    assert Run(cfg, s1, evs[1..]) == Run(cfg, s2, evs[2..]) by { assert evs[1..][0] == evs[1] && evs[1..][1..] == evs[2..]; }
  }

  // ---- The handlers, run in place ----

  class Client {
    const config: Config
    var sent: seq<Frame>
    var closed: bool
    var operationSent: bool
    var closeScheduled: bool
    var pingIntervals: seq<JsValue>
    var outcome: Outcome

    function State(): ConnState
      reads this
    {
      ConnState(sent, closed, operationSent, closeScheduled, pingIntervals, outcome)
    }

    constructor (config: Config)
      ensures this.config == config && State() == Initial()
    {
      this.config := config;
      sent, closed, operationSent, closeScheduled, pingIntervals, outcome := [], false, false, false, [], Pending;
    }

    /** `ws.send(f)`: an open socket appends the frame; a closed one drops it. */
    method Send(f: Frame)
      modifies this
      ensures State() == Transmit(old(State()), f)
      ensures sent == (if old(closed) then old(sent) else old(sent) + [f])
    {
      if !closed {
        sent := sent + [f];
      }
    }

    /** `resolve()` or `reject(e)`: only the first settlement takes effect. */
    method SettleWith(o: Outcome)
      modifies this
      ensures State() == Settle(old(State()), o)
      ensures outcome == (if old(outcome).Pending? then o else old(outcome))
    {
      if outcome.Pending? {
        outcome := o;
      }
    }

    /** `ws.on('open')`: start the Socket.IO handshake. */
    method OnOpen()
      modifies this
      ensures State() == Step(config, old(State()), Opened)
    {
      Send(Connect);
    }

    /** `ws.on('error')`. */
    method OnError()
      modifies this
      ensures State() == Step(config, old(State()), Errored)
    {
      SettleWith(Rejected(TransportError));
    }

    /** The grace timer set after the edit frames: close, then resolve. */
    method OnGraceElapsed()
      requires closeScheduled
      modifies this
      ensures State() == Step(config, old(State()), GraceElapsed)
    {
      closed := true;
      SettleWith(Resolved);
      closeScheduled := false;
    }

    /** `ws.on('message')`. */
    method OnMessage(message: string, elapsedMs: int)
      modifies this
      ensures State() == Step(config, old(State()), Received(message, elapsedMs))
    {
      if elapsedMs > TimeoutMs {
        closed := true;
        SettleWith(Rejected(Timeout));
        return;
      }
      if StartsWith(message, "40") {
        // Connect acknowledgement.
      } else if StartsWith(message, "0") {
        var handshake := config.parse(message[1..]);
        if handshake.None? {
          SettleWith(Rejected(HandshakeFailed));
        } else {
          Send(Probe);
          var h := handshake.value;
          if h.Null? || h.Undefined? {
            SettleWith(Rejected(HandshakeFailed));
          } else {
            var interval := Prop(h, "pingInterval");
            if Truthy(interval) {
              pingIntervals := pingIntervals + [interval];
            }
            Send(Join(config.noteId));
          }
        }
      } else {
        ghost var before := State();
        var decoded := Decode(message, config.parse);
        if decoded.Event? && decoded.name == Str("error") {
          closed := true;
          SettleWith(Rejected(ServerError(decoded.args)));
          return;
        }
        if decoded.Event? && decoded.name == Str("doc") && Truthy(decoded.args) && !operationSent {
          operationSent := true;
          var doc := SnapshotOf(decoded.args);
          if doc.Some? {
            SendEdits(doc.value);
            closeScheduled := true;
          }
        }
        assert State() == HandleEvent(config, before, decoded);
      }
    }

    /** The frames sent for the snapshot, one `ws.send` at a time. */
    method SendEdits(snap: Snapshot)
      modifies this
      ensures State() == TransmitAll(old(State()), EditSequence(config.mode, snap, config.content))
    {
      var len, revision, content := |snap.str|, snap.revision, config.content;
      match config.mode
      case Override =>
        if len > 0 {
          Send(Selection(0, len));
          Send(CursorActivity(0, len));
          Send(Operation(revision, [Count(-len)], 0, 0));
          Send(Operation(revision + 1, [Insert(content)], |content|, |content|));
        } else {
          Send(Operation(revision, [Insert(content)], |content|, |content|));
        }
      case Append =>
        if len == 0 {
          Send(Operation(revision, [Insert(content)], |content|, |content|));
        } else {
          Send(Operation(revision, [Count(len), Insert(content)], len + |content|, len + |content|));
        }
    }
  }
}
