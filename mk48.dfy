/**
 * The game-server client: `send` wraps a message in its tagged envelope and
 * writes it as one text frame, `New` dials and requests a session, `Close`
 * closes the connections, and `Listen` reads, decodes and dispatches frames.
 * The websocket itself is abstract: what the network answers is given as
 * parameters (the outcome of a dial, a write or a close, the frames a read
 * returns), and every operation performed is appended to a `World` log.
 */
module Mk48 {
  import opened Wrappers
  import opened Json
  import opened Wire
  import opened Sequences

  /** The game id of the session request sent on connect. */
  const GameId: string := "Mk48"

  /** Appended to the endpoint to form the dialled URL. */
  const DialSuffix: string := "/?format=json"

  /** `websocket.StatusGoingAway`, the status both connections are closed with. */
  const StatusGoingAway: int := 1001

  /** Identity of an open websocket connection. */
  type ConnId = nat

  /** An operation performed on the outside world. */
  datatype Effect =
    | Dial(url: string)
    | Write(conn: ConnId, text: string)
    | Read(conn: ConnId)
    | Close(conn: ConnId, status: int, reason: string)
    | Handled(update: LeaderboardUpdate)   // the registered `LeaderboardUpdate` handler was called

  datatype Error =
    | Transport                            // an error returned by the websocket library
    | Syntax                               // a frame that is not JSON text
    | Decode(failure: DecodeError)         // JSON that does not fit `Event`
    | NilEvent                             // a `null` frame leaves `e` nil, and `e.LeaderboardUpdate` dereferences it
    | Wrapped(context: string, cause: Error)

  /** A frame's payload: JSON text, or bytes that are not JSON. */
  datatype Raw = Malformed | Text(value: Value)

  /** What one read returns. */
  datatype Received = ReadFailed | Frame(raw: Raw)

  /** Why `Listen` is no longer in its loop: blocked in a read, or panicked. */
  datatype Stop = Waiting | Panicked(err: Error)

  /** The effects of a run of `Listen` and where it ended. */
  datatype Trace = Trace(effects: seq<Effect>, stop: Stop)

  /** The log of everything done to the outside world. */
  class World {
    var log: seq<Effect>

    constructor ()
      ensures log == []
    {
      log := [];
    }
  }

  // ---------------------------------------------------------------- send

  /** `send`: write `{data.Name(): data}` as one text frame and return the write's error. */
  method Send(w: World, conn: ConnId, data: Message, writeOk: bool) returns (err: Option<Error>)
    modifies w
    ensures w.log == old(w.log) + [Write(conn, Serialize(Envelope(data)))]
    ensures err == if writeOk then None else Some(Transport)
  {
    var m := Serialize(Envelope(data));
    w.log := w.log + [Write(conn, m)];
    err := if writeOk then None else Some(Transport);
  }

  // ---------------------------------------------------------------- recv and dispatch

  /** `recv` on a frame: the read's error, or the outcome of unmarshalling the frame into a nil `*Event`. */
  function Recv(r: Received): (e: Result<Option<Event>, Error>)
    ensures r.ReadFailed? ==> e == Err(Transport)
    ensures r == Frame(Malformed) ==> e == Err(Syntax)
    ensures r.Frame? && r.raw.Text? ==> (e.Ok? <==> DecodeEvent(r.raw.value).Ok?)
    ensures r.Frame? && r.raw.Text? && e.Ok? ==> e.value == DecodeEvent(r.raw.value).value
  {
    match r
    case ReadFailed => Err(Transport)
    case Frame(Malformed) => Err(Syntax)
    case Frame(Text(v)) =>
      match DecodeEvent(v)
      case Ok(e) => Ok(e)
      case Err(d) => Err(Decode(d))
  }

  /** The event one loop iteration dispatches, or the error it panics with. */
  function Receive(r: Received): (e: Result<Event, Error>)
    ensures e.Ok? <==> Recv(r).Ok? && Recv(r).value.Some?
    ensures e.Ok? ==> Recv(r).value == Some(e.value)
  {
    match Recv(r)
    case Err(err) => Err(err)
    case Ok(None) => Err(NilEvent)
    case Ok(Some(ev)) => Ok(ev)
  }

  /** The handler call an event causes: one call with its update when both it and the handler are there. */
  function Dispatch(ev: Event, handler: bool): (r: seq<Effect>)
    ensures |r| <= 1
    ensures |r| == 1 <==> handler && ev.leaderboardUpdate.Some?
    ensures |r| == 1 ==> r[0] == Handled(ev.leaderboardUpdate.value)
  {
    if ev.leaderboardUpdate.Some? && handler then [Handled(ev.leaderboardUpdate.value)] else []
  }

  /** The run of `Listen` over the frames the connection delivers, in arrival order. */
  function Run(ws: ConnId, handler: bool, frames: seq<Received>): Trace
    decreases |frames|
  {
    if |frames| == 0 then Trace([], Waiting)
    else
      match Receive(frames[0])
      case Err(e) => Trace([Read(ws)], Panicked(e))
      case Ok(ev) =>
        var rest := Run(ws, handler, frames[1..]);
        Trace([Read(ws)] + Dispatch(ev, handler) + rest.effects, rest.stop)
  }

  /** Frames are handled one by one: a run over `a + b` is the run over `a`, continued over `b` unless it stopped. */
  lemma {:induction false} RunAppend(ws: ConnId, handler: bool, a: seq<Received>, b: seq<Received>)
    ensures var ra := Run(ws, handler, a);
      Run(ws, handler, a + b) ==
        if ra.stop == Waiting then Trace(ra.effects + Run(ws, handler, b).effects, Run(ws, handler, b).stop)
        else ra
    decreases |a|
  {
    if |a| > 0 {
      assert (a + b)[0] == a[0];
      assert (a + b)[1..] == a[1..] + b;
      RunAppend(ws, handler, a[1..], b);
    } else {
      assert a + b == b;
    }
  }

  /** One more frame after a prefix that left the loop waiting: the run continues with that frame's one-frame run. */
  lemma RunSnoc(ws: ConnId, handler: bool, a: seq<Received>, r: Received)
    requires Run(ws, handler, a).stop == Waiting
    ensures Run(ws, handler, a + [r])
      == Trace(Run(ws, handler, a).effects + Run(ws, handler, [r]).effects, Run(ws, handler, [r]).stop)
  {
    RunAppend(ws, handler, a, [r]);
  }

  /** One loop iteration on a frame: read it, then panic on an error or a nil event, or dispatch the event. */
  lemma RunOne(ws: ConnId, handler: bool, r: Received)
    ensures Recv(r).Err? ==> Run(ws, handler, [r]) == Trace([Read(ws)], Panicked(Recv(r).error))
    ensures Recv(r) == Ok(None) ==> Run(ws, handler, [r]) == Trace([Read(ws)], Panicked(NilEvent))
    ensures Recv(r).Ok? && Recv(r).value.Some? ==>
      Run(ws, handler, [r]) == Trace([Read(ws)] + Dispatch(Recv(r).value.value, handler), Waiting)
  {
    assert [r][1..] == [];
    if Recv(r).Ok? && Recv(r).value.Some? {
      assert [Read(ws)] + Dispatch(Recv(r).value.value, handler) + [] == [Read(ws)] + Dispatch(Recv(r).value.value, handler);
    }
  }

  /** Once a prefix has stopped the loop, later frames are never read. */
  lemma RunStopped(ws: ConnId, handler: bool, frames: seq<Received>, k: nat)
    requires k <= |frames| && Run(ws, handler, frames[..k]).stop != Waiting
    ensures Run(ws, handler, frames) == Run(ws, handler, frames[..k])
  {
    RunAppend(ws, handler, frames[..k], frames[k..]);
    assert frames[..k] + frames[k..] == frames;
  }

  // ---------------------------------------------------------------- reference view of a run

  /** The events decoded before the first frame that makes the loop panic. */
  function Decoded(frames: seq<Received>): seq<Event>
    decreases |frames|
  {
    if |frames| == 0 || Receive(frames[0]).Err? then [] else [Receive(frames[0]).value] + Decoded(frames[1..])
  }

  /** The leaderboard updates carried by a sequence of events, in order. */
  function Updates(events: seq<Event>): seq<LeaderboardUpdate>
    decreases |events|
  {
    if |events| == 0 then []
    else (if events[0].leaderboardUpdate.Some? then [events[0].leaderboardUpdate.value] else [])
         + Updates(events[1..])
  }

  /** The updates the handler was called with, in order. */
  function HandledUpdates(effects: seq<Effect>): seq<LeaderboardUpdate>
    decreases |effects|
  {
    if |effects| == 0 then []
    else (if effects[0].Handled? then [effects[0].update] else []) + HandledUpdates(effects[1..])
  }

  /** How many reads were made. */
  function Reads(effects: seq<Effect>): nat
    decreases |effects|
  {
    if |effects| == 0 then 0 else (if effects[0].Read? then 1 else 0) + Reads(effects[1..])
  }

  lemma {:induction false} HandledUpdatesAppend(a: seq<Effect>, b: seq<Effect>)
    ensures HandledUpdates(a + b) == HandledUpdates(a) + HandledUpdates(b)
    ensures Reads(a + b) == Reads(a) + Reads(b)
    decreases |a|
  {
    if |a| > 0 {
      assert (a + b)[0] == a[0];
      assert (a + b)[1..] == a[1..] + b;
      HandledUpdatesAppend(a[1..], b);
    } else {
      assert a + b == b;
    }
  }

  /**
   * The handler is called exactly with the leaderboard updates of the frames
   * decoded before the loop stops, once each and in arrival order, and never
   * when no handler is registered.
   */
  lemma {:induction false} ListenDelivers(ws: ConnId, handler: bool, frames: seq<Received>)
    ensures HandledUpdates(Run(ws, handler, frames).effects) == if handler then Updates(Decoded(frames)) else []
    decreases |frames|
  {
    if |frames| > 0 && Receive(frames[0]).Ok? {
      var ev := Receive(frames[0]).value;
      var rest := Run(ws, handler, frames[1..]);
      ListenDelivers(ws, handler, frames[1..]);
      HandledUpdatesAppend([Read(ws)] + Dispatch(ev, handler), rest.effects);
      HandledUpdatesAppend([Read(ws)], Dispatch(ev, handler));
      assert Decoded(frames) == [ev] + Decoded(frames[1..]);
    }
  }

  /**
   * The loop stops at the first frame that fails to read or decode, or
   * decodes to `null`: it panics with that frame's error and has read no
   * frame after it. If no frame fails, it is still waiting for the next one.
   */
  lemma {:induction false} ListenStopsAtFirstFailure(ws: ConnId, handler: bool, frames: seq<Received>, i: nat)
    requires i < |frames| && Receive(frames[i]).Err?
    requires forall j | 0 <= j < i :: Receive(frames[j]).Ok?
    ensures Run(ws, handler, frames).stop == Panicked(Receive(frames[i]).error)
    ensures Reads(Run(ws, handler, frames).effects) == i + 1
    ensures |Decoded(frames)| == i
    decreases i
  {
    if i == 0 {
      assert Run(ws, handler, frames).effects == [Read(ws)];
    } else {
      var ev := Receive(frames[0]).value;
      var rest := Run(ws, handler, frames[1..]);
      ListenStopsAtFirstFailure(ws, handler, frames[1..], i - 1);
      HandledUpdatesAppend([Read(ws)] + Dispatch(ev, handler), rest.effects);
      HandledUpdatesAppend([Read(ws)], Dispatch(ev, handler));
    }
  }

  lemma {:induction false} ListenWaitsWithoutFailure(ws: ConnId, handler: bool, frames: seq<Received>)
    requires forall j | 0 <= j < |frames| :: Receive(frames[j]).Ok?
    ensures Run(ws, handler, frames).stop == Waiting
    ensures Reads(Run(ws, handler, frames).effects) == |frames|
    ensures |Decoded(frames)| == |frames|
    decreases |frames|
  {
    if |frames| > 0 {
      var ev := Receive(frames[0]).value;
      var rest := Run(ws, handler, frames[1..]);
      ListenWaitsWithoutFailure(ws, handler, frames[1..]);
      HandledUpdatesAppend([Read(ws)] + Dispatch(ev, handler), rest.effects);
      HandledUpdatesAppend([Read(ws)], Dispatch(ev, handler));
    }
  }

  // ---------------------------------------------------------------- the client

  class API {
    var ws: ConnId
    /** Never assigned by this package, so always `None`, but `Close` checks it. */
    var session: Option<ConnId>
    /** Whether `Handlers.LeaderboardUpdate` is set (non-nil). */
    var leaderboardHandler: bool

    constructor (ws: ConnId)
      ensures this.ws == ws && session == None && !leaderboardHandler
    {
      this.ws := ws;
      session := None;
      leaderboardHandler := false;
    }

    /** Setting `Handlers.LeaderboardUpdate` to a non-nil function. */
    method SetLeaderboardHandler()
      modifies this
      ensures leaderboardHandler
      ensures ws == old(ws) && session == old(session)
    {
      leaderboardHandler := true;
    }

    /**
     * `Listen`, fed the outcomes of its successive reads. Each iteration reads
     * one frame, panics on a read or decode error or a `null` frame, and calls
     * the handler when the event carries a leaderboard update and a handler is set.
     */
    method Listen(w: World, frames: seq<Received>) returns (stop: Stop)
      modifies w
      ensures w.log == old(w.log) + Run(ws, leaderboardHandler, frames).effects
      ensures stop == Run(ws, leaderboardHandler, frames).stop
    {
      var c, h := ws, leaderboardHandler;
      var i := 0;
      while i < |frames|
        invariant 0 <= i <= |frames|
        invariant Run(c, h, frames[..i]).stop == Waiting
        invariant w.log == old(w.log) + Run(c, h, frames[..i]).effects
      {
        ghost var logged := w.log;
        ghost var one := Run(c, h, [frames[i]]);
        RunSnoc(c, h, frames[..i], frames[i]);
        RunOne(c, h, frames[i]);
        assert frames[..i] + [frames[i]] == frames[..i + 1];
        Assoc(old(w.log), Run(c, h, frames[..i]).effects, one.effects);
        w.log := w.log + [Read(c)];
        var e := Recv(frames[i]);
        if e.Err? {
          stop := Panicked(e.error);
          RunStopped(c, h, frames, i + 1);
          return;
        }
        if e.value.None? {
          stop := Panicked(NilEvent);
          RunStopped(c, h, frames, i + 1);
          return;
        }
        var ev := e.value.value;
        if ev.leaderboardUpdate.Some? {
          if h {
            w.log := w.log + [Handled(ev.leaderboardUpdate.value)];
          }
        }
        assert w.log == logged + ([Read(c)] + Dispatch(ev, h)) by {
          Assoc(logged, [Read(c)], Dispatch(ev, h));
        }
        i := i + 1;
      }
      assert frames[..i] == frames;
      stop := Waiting;
    }

    /**
     * `Close`: close the session connection first if there is one, and stop
     * there if that fails; then close `ws` and return its error.
     */
    method Close(w: World, sessionCloseOk: bool, wsCloseOk: bool) returns (err: Option<Error>)
      modifies w
      ensures session.None? ==>
        w.log == old(w.log) + [Effect.Close(ws, StatusGoingAway, "")]
        && err == (if wsCloseOk then None else Some(Transport))
      ensures session.Some? && !sessionCloseOk ==>
        w.log == old(w.log) + [Effect.Close(session.value, StatusGoingAway, "")]
        && err == Some(Transport)
      ensures session.Some? && sessionCloseOk ==>
        w.log == old(w.log) + [Effect.Close(session.value, StatusGoingAway, ""), Effect.Close(ws, StatusGoingAway, "")]
        && err == (if wsCloseOk then None else Some(Transport))
    {
      if session.Some? {
        w.log := w.log + [Effect.Close(session.value, StatusGoingAway, "")];
        if !sessionCloseOk {
          return Some(Transport);
        }
      }
      w.log := w.log + [Effect.Close(ws, StatusGoingAway, "")];
      err := if wsCloseOk then None else Some(Transport);
    }
  }

  /**
   * `New`: dial `endpoint + "/?format=json"`, then send the session request.
   * `dialed` is the connection the dial opens, or `None` when it fails;
   * `writeOk` is whether the write succeeds. No reply is read.
   */
  method New(w: World, endpoint: string, dialed: Option<ConnId>, writeOk: bool) returns (api: API?, err: Option<Error>)
    modifies w
    ensures dialed.None? ==>
      api == null && err == Some(Wrapped("failed to connect to the websocket", Transport))
      && w.log == old(w.log) + [Dial(endpoint + DialSuffix)]
    ensures dialed.Some? ==>
      w.log == old(w.log) + [Dial(endpoint + DialSuffix),
                             Write(dialed.value, Serialize(Envelope(CreateSessionMessage(CreateSession(GameId)))))]
    ensures dialed.Some? && !writeOk ==>
      api == null && err == Some(Wrapped("failed to create a session", Transport))
    ensures dialed.Some? && writeOk ==>
      err.None? && api != null && fresh(api)
      && api.ws == dialed.value && api.session.None? && !api.leaderboardHandler
  {
    w.log := w.log + [Dial(endpoint + DialSuffix)];
    if dialed.None? {
      return null, Some(Wrapped("failed to connect to the websocket", Transport));
    }
    var ws := dialed.value;
    var sendErr := Send(w, ws, CreateSessionMessage(CreateSession(GameId)), writeOk);
    if sendErr.Some? {
      return null, Some(Wrapped("failed to create a session", sendErr.value));
    }
    api := new API(ws);
    err := None;
  }

  // ---------------------------------------------------------------- the session request on the wire

  lemma SessionRequestShape()
    ensures Serialize(Envelope(CreateSessionMessage(CreateSession(GameId))))
         == "{\"" + "CreateSession" + "\":" + ("{\"" + "game_id" + "\":" + ("\"" + GameId + "\"") + "}") + "}"
  {
    EnvelopeText(CreateSessionMessage(CreateSession(GameId)));
    QuotePlain(GameId);
    SerializePlainMember("game_id", JString(GameId));
  }

  /** The one frame `New` writes is exactly `{"CreateSession":{"game_id":"Mk48"}}`. */
  lemma SessionRequestText()
    ensures Serialize(Envelope(CreateSessionMessage(CreateSession(GameId))))
         == "{\"CreateSession\":{\"game_id\":\"Mk48\"}}"
  {
    SessionRequestShape();
    SessionRequestSpelled();
  }

  lemma SessionRequestSpelled()
    ensures "{\"" + "CreateSession" + "\":" + ("{\"" + "game_id" + "\":" + ("\"" + GameId + "\"") + "}") + "}"
         == "{\"CreateSession\":{\"game_id\":\"Mk48\"}}"
  {
  }
}
