/** The session glue: one player for good, one client per question, one socket per client, and
    browser callbacks that may fire late. Only the latest question's socket is ever heard. */
module Sockets {
  import opened Protocol
  import opened Playback
  import opened Wakeup
  import opened DebatePlayers

  /** A browser socket, reduced to whether its handlers are set and what was sent on it; `client` and
      `question`, the message to ask with, are what its handlers close over. */
  class Socket {
    const client: WsClient
    const question: string
    var attached: bool
    var sent: seq<string>

    constructor (client: WsClient, question: string)
      ensures this.client == client && this.question == question && attached && sent == []
    {
      this.client := client;
      this.question := question;
      attached := true;
      sent := [];
    }
  }

  class WsClient {
    var socket: Socket?

    constructor ()
      ensures socket == null
    {
      socket := null;
    }
  }

  /** What the client makes of a question: a message to send, or the reason it refuses. */
  datatype Built = Message(text: string) | Refused(reason: string)

  /** What the parser makes of a text frame. */
  datatype Parsed = Valid(event: Event) | Invalid(error: string)

  datatype Frame = Binary | Textual(length: nat, parsed: Parsed)

  const MAX_FRAME_CHARS: nat := 256 * 1024

  const NOT_TEXT := "received a non-text frame"

  const TOO_LARGE := "frame too large"

  /** An event for the player, or a fault to report. */
  datatype Heard = Delivered(event: Event) | Faulty(error: string)

  /** Only a text frame of at most 262144 units that parses is an event; every other frame is a fault,
      reported for what it is. */
  function HeardIn(frame: Frame): (heard: Heard)
    ensures forall e: Event ::
      heard == Delivered(e) <==> frame.Textual? && frame.length <= 262144 && frame.parsed == Valid(e)
    ensures frame.Binary? ==> heard == Faulty("received a non-text frame")
    ensures frame.Textual? && frame.length > 262144 ==> heard == Faulty("frame too large")
    ensures forall error: string ::
      frame.Textual? && frame.length <= 262144 && frame.parsed == Invalid(error) ==> heard == Faulty(error)
  {
    match frame
    case Binary => Faulty(NOT_TEXT)
    case Textual(length, parsed) =>
      if length > MAX_FRAME_CHARS then Faulty(TOO_LARGE)
      else if parsed.Valid? then Delivered(parsed.event) else Faulty(parsed.error)
  }

  lemma ResetHasNothingToSkip(s: Player)
    ensures Act(Playback.Reset(s), Action.SkipToLive) == Effect(Playback.Reset(s), [])
  {
    var drained := Drain(Playback.Reset(s).(timer := None, draining := true));
    assert drained.out == [];
  }

  lemma ConnectingResets(s: Player, t: Player)
    requires t == Playback.Reset(s)
    ensures AtRest(t) && Playback.Reset(t) == t
    ensures Act(t, Action.FeedStatus(Connecting)) == Effect(t, [Status(Connecting)])
  {
  }

  class UseDebate {
    const player: DebatePlayer
    var client: WsClient?
    /** Every socket opened so far, the latest question's last. */
    ghost var sockets: seq<Socket>

    /** At most one socket has handlers: the current client's, opened by the latest question. */
    ghost predicate Valid()
      reads this, player, sockets, client
    {
      && AtRest(player.Model())
      && (client != null && client.socket != null ==>
            sockets != [] && client.socket == sockets[|sockets| - 1] && client.socket.client == client)
      && (forall s <- sockets :: s.attached <==> client != null && client.socket == s)
    }

    /** Nobody is listening and nothing is scheduled or recorded. */
    ghost predicate Silent()
      reads this, player, sockets, client
    {
      && (forall s <- sockets :: !s.attached)
      && player.Model() == Playback.Reset(player.Model())
    }

    constructor (reducedMotion: bool)
      ensures Valid() && Silent() && fresh(player) && player.dispatched == [] && sockets == []
    {
      player := new DebatePlayer(reducedMotion);
      client := null;
      sockets := [];
    }

    /** Detach all handlers first, so that a late close reaches nobody. */
    method Dispose()
      requires Valid()
      modifies client, sockets
      ensures Valid() && (forall s <- sockets :: !s.attached)
      ensures client != null ==> client.socket == null
      ensures fresh(set s <- sockets | s !in old(sockets))
    {
      if client != null && client.socket != null {
        var dead := client.socket;
        client.socket := null;
        dead.attached := false;
      }
    }

    method Ask(built: Built)
      requires Valid()
      modifies this`client, this`sockets, player, client, sockets
      ensures Valid()
      ensures player.Model() == Playback.Reset(old(player.Model()))
      ensures built.Message? ==>
        && |sockets| == |old(sockets)| + 1 && sockets[..|old(sockets)|] == old(sockets)
        && fresh(sockets[|old(sockets)|]) && sockets[|old(sockets)|].attached
        && sockets[|old(sockets)|].question == built.text && sockets[|old(sockets)|].sent == []
        && player.dispatched == old(player.dispatched) + [Status(Connecting)]
      ensures built.Refused? ==>
        Silent() && sockets == old(sockets) && player.dispatched == old(player.dispatched) + [Transport(built.reason)]
      ensures forall s <- old(sockets) :: !s.attached
    {
      Dispose();
      player.Reset();
      ConnectingResets(old(player.Model()), player.Model());
      client := new WsClient();
      if built.Refused? {
        player.FeedTransport(built.reason);
        return;
      }
      player.FeedStatus(Connecting);
      Connect(built.text);
    }

    /** Opens the current client's socket. */
    method Connect(question: string)
      requires Valid() && client != null && client.socket == null && forall s <- sockets :: !s.attached
      modifies this`sockets, client
      ensures Valid()
      ensures |sockets| == |old(sockets)| + 1 && sockets[..|old(sockets)|] == old(sockets)
      ensures fresh(sockets[|old(sockets)|]) && sockets[|old(sockets)|].attached
      ensures sockets[|old(sockets)|].question == question && sockets[|old(sockets)|].sent == []
    {
      var socket := new Socket(client, question);
      client.socket := socket;
      sockets := sockets + [socket];
    }

    /** After a stop nothing is heard or dispatched until the next question. */
    method Stop()
      requires Valid()
      modifies this`client, player, client, sockets
      ensures Valid() && Silent() && client == null && sockets == old(sockets)
      ensures player.dispatched == old(player.dispatched) + [Cancel]
    {
      player.Reset();
      player.Dispatch(Cancel);
      Dispose();
      client := null;
    }

    method Unmount()
      requires Valid()
      modifies player, client, sockets
      ensures Valid() && Silent() && player.dispatched == old(player.dispatched)
    {
      player.Reset();
      Dispose();
    }

    /** Skipping ahead dispatches nothing while nobody is listening and nothing is recorded. */
    method GoToLive()
      requires Valid()
      modifies player
      ensures Valid() && player.timer == None
      ensures player.Model() == Act(old(player.Model()), Action.SkipToLive).player
      ensures player.dispatched == old(player.dispatched) + Act(old(player.Model()), Action.SkipToLive).out
      ensures old(Silent()) ==> Silent() && player.dispatched == old(player.dispatched)
    {
      ResetHasNothingToSkip(player.Model());
      player.SkipToLive();
    }

    /** The player's timer goes off; it never does while the session is silent. */
    method OnTimer()
      requires Valid() && player.timer != None
      modifies player
      ensures Valid() && !old(Silent())
      ensures player.Model() == Act(old(player.Model()), TimerFires).player
      ensures player.dispatched == old(player.dispatched) + Act(old(player.Model()), TimerFires).out
    {
      player.OnTimer();
    }

    /** A change of speed keeps a silent session silent. */
    method SetRate(multiplier: real)
      requires Valid()
      modifies player
      ensures Valid() && player.dispatched == old(player.dispatched)
      ensures player.Model() == Act(old(player.Model()), Action.SetRate(multiplier)).player
      ensures old(Silent()) ==> Silent()
    {
      player.SetRate(multiplier);
    }

    // ----- Browser callbacks, which fire only on handlers still set

    /** The question goes out on the socket that opened, if anyone still waits for it. */
    method OnOpen(s: Socket)
      requires Valid() && s in sockets
      modifies player, s`sent
      ensures Valid() && (old(Silent()) ==> Silent() && player.dispatched == old(player.dispatched))
      ensures s.attached ==> s == sockets[|sockets| - 1]
      ensures s.sent == old(s.sent) + if s.attached then [s.question] else []
      ensures player.Model() == old(player.Model())
      ensures player.dispatched == old(player.dispatched) + if s.attached then [Status(Open)] else []
    {
      if s.attached {
        player.FeedStatus(Open);
        if s.client.socket != null {
          s.client.socket.sent := s.client.socket.sent + [s.question];
        }
      }
    }

    method OnMessage(s: Socket, frame: Frame)
      requires Valid() && s in sockets
      modifies player
      ensures Valid() && (old(Silent()) ==> Silent() && player.dispatched == old(player.dispatched))
      ensures s.attached ==> s == sockets[|sockets| - 1]
      ensures !s.attached ==> player.Model() == old(player.Model()) && player.dispatched == old(player.dispatched)
      ensures s.attached && HeardIn(frame).Delivered? ==>
        var e := Act(old(player.Model()), Action.Feed(HeardIn(frame).event));
        player.Model() == e.player && player.dispatched == old(player.dispatched) + e.out
      ensures s.attached && HeardIn(frame).Faulty? ==>
        && player.Model() == old(player.Model())
        && player.dispatched == old(player.dispatched) + [Transport(HeardIn(frame).error)]
    {
      if s.attached {
        if frame.Binary? {
          player.FeedTransport(NOT_TEXT);
          return;
        }
        if frame.length > MAX_FRAME_CHARS {
          player.FeedTransport(TOO_LARGE);
          return;
        }
        if frame.parsed.Invalid? {
          player.FeedTransport(frame.parsed.error);
          return;
        }
        player.Feed(frame.parsed.event);
      }
    }

    method OnError(s: Socket)
      requires Valid() && s in sockets
      modifies player
      ensures Valid() && (old(Silent()) ==> Silent() && player.dispatched == old(player.dispatched))
      ensures s.attached ==> s == sockets[|sockets| - 1]
      ensures player.Model() == old(player.Model())
      ensures player.dispatched == old(player.dispatched) + if s.attached then [Status(Broken)] else []
    {
      if s.attached {
        player.FeedStatus(Broken);
      }
    }

    /** A close is heard once: it detaches the socket it came from. */
    method OnClose(s: Socket)
      requires Valid() && s in sockets
      modifies player, client, sockets
      ensures Valid() && (old(Silent()) ==> Silent() && player.dispatched == old(player.dispatched))
      ensures !old(s.attached) ==>
        && player.Model() == old(player.Model()) && player.dispatched == old(player.dispatched)
        && forall t <- sockets :: t.attached == old(t.attached)
      ensures old(s.attached) ==>
        && s == sockets[|sockets| - 1] && (forall t <- sockets :: !t.attached)
        && player.Model() == Act(old(player.Model()), Action.FeedStatus(Closed)).player
        && player.dispatched == old(player.dispatched) + Act(old(player.Model()), Action.FeedStatus(Closed)).out
    {
      if s.attached {
        player.FeedStatus(Closed);
        if s.client.socket != null {
          s.client.socket.attached := false;
        }
        s.client.socket := null;
      }
    }
  }
}
