/** The player as a transition system: what one call of each method does to the recording and
    the schedule, and what it dispatches. Class `DebatePlayer` is proved to take these steps. */
module Playback {
  import opened Protocol
  import TextReveal

  const TICK_MS: real := 300.0
  const TURN_GAP_MS: real := 550.0
  const MIN_RATE: real := 0.5
  const MAX_RATE: real := 4.0

  type Rate = r: real | 0.5 <= r <= 4.0 witness 1.0

  datatype Cursor = AtPanelist(round: nat, index: nat) | AtModerator | Finished

  datatype ActiveTurn = ActiveTurn(
    persona: PersonaId, round: nat, index: int, text: Text, pos: nat, isModerator: bool)

  /** Everything fed so far except the per-persona failures, which playback consumes. */
  datatype Recording = Recording(
    text: map<Cell, Text>,
    roundComplete: set<nat>,
    verdict: Option<Text>,
    sessionError: Option<Failure>,
    closed: bool,
    moderatorRound: Option<nat>)

  /** A turn that was put on stage, with the text snapshot it was given. */
  datatype Turn = Turn(cell: Cell, text: Text)

  /** The player's fields, and `turns`, a history of every turn opened since the last reset. */
  datatype Player = Player(
    reducedMotion: bool,
    rate: Rate,
    timer: Option<real>,
    draining: bool,
    rec: Recording,
    personaErrors: map<PersonaId, Failure>,
    cursor: Cursor,
    active: Option<ActiveTurn>,
    pendingDone: Option<Cell>,
    pendingRoundComplete: Option<nat>,
    pendingErrors: seq<Failure>,
    turns: seq<Turn>)

  /** A step's verdict on scheduling: wait for data, stop for good, or continue after a delay. */
  datatype Delay = Park | Stop | After(ms: real)

  datatype Outcome = Outcome(player: Player, out: seq<Input>, delay: Delay)

  datatype Effect = Effect(player: Player, out: seq<Input>)

  const BLANK := Recording(map[], {}, None, None, false, None)

  function Fresh(reducedMotion: bool, rate: Rate): Player {
    Player(reducedMotion, rate, None, false, BLANK, map[], AtPanelist(1, 0), None, None, None, [], [])
  }

  function Reset(s: Player): Player {
    Fresh(s.reducedMotion, s.rate)
  }

  // ----- Recording

  function TextOf(rec: Recording, cell: Cell): Text {
    if cell in rec.text then rec.text[cell] else []
  }

  function AppendText(rec: Recording, cell: Cell, delta: Text): Recording {
    rec.(text := rec.text[cell := Capped(TextOf(rec, cell) + delta)])
  }

  /** What one wire event adds to the recording. */
  function Record(rec: Recording, event: Event): Recording {
    match event
    case Token(persona, round, delta) =>
      var r := AppendText(rec, Cell(persona, round), delta);
      if persona == Moderator then r.(moderatorRound := Some(round)) else r
    case PersonaDone(_, _) => rec
    case RoundComplete(round) => rec.(roundComplete := rec.roundComplete + {round})
    case Verdict(verdict) => rec.(verdict := Some(verdict))
    case Error(failure) => if failure.Terminal() then rec.(sessionError := Some(failure)) else rec
  }

  function RecordFailure(errors: map<PersonaId, Failure>, event: Event): map<PersonaId, Failure> {
    match event
    case Error(failure) => if failure.Terminal() then errors else errors[failure.persona.value := failure]
    case _ => errors
  }

  predicate TerminalKnown(rec: Recording) {
    rec.verdict != None || rec.sessionError != None || rec.closed
  }

  predicate IsMax(rounds: set<nat>, m: nat) {
    m in rounds && forall r <- rounds :: r <= m
  }

  /** The largest completed round, 0 if there is none. */
  function MaxRound(rounds: set<nat>): (max: nat)
    ensures if rounds == {} then max == 0 else IsMax(rounds, max)
  {
    if rounds == {} then 0
    else
      MaxExists(rounds);
      var m: nat :| IsMax(rounds, m);
      m
  }

  lemma {:induction false} MaxExists(rounds: set<nat>)
    requires rounds != {}
    ensures exists m: nat :: IsMax(rounds, m)
  {
    var x :| x in rounds;
    var rest := rounds - {x};
    if rest == {} {
      assert rounds == {x};
      assert IsMax(rounds, x);
    } else {
      MaxExists(rest);
      var m: nat :| IsMax(rest, m);
      assert forall r <- rounds :: r == x || r in rest;
      assert IsMax(rounds, if x > m then x else m);
    }
  }

  /** Where the moderator's synthesis is recorded. */
  function SynthesisCell(rec: Recording): Cell {
    Cell(Moderator, if rec.moderatorRound.Some? then rec.moderatorRound.value else MaxRound(rec.roundComplete) + 1)
  }

  // ----- Schedule

  predicate HasBufferedTurn(rec: Recording, c: Cursor) {
    match c
    case AtPanelist(round, _) => round in rec.roundComplete
    case AtModerator => rec.verdict.Some?
    case Finished => true
  }

  predicate HasReadyWork(s: Player) {
    if s.active.Some? then true
    else if s.cursor.Finished? then false
    else HasBufferedTurn(s.rec, s.cursor) || TerminalKnown(s.rec)
  }

  /** The schedule's own consistency; true of every state the methods can reach. */
  ghost predicate Sane(s: Player) {
    && (s.cursor.AtPanelist? ==> s.cursor.round >= 1 && s.cursor.index < SEATS)
    && (s.cursor.AtModerator? ==> s.active.Some?)
    && (s.active.Some? ==>
          var a := s.active.value;
          && a.pos <= |a.text|
          && s.pendingDone.None? && s.pendingRoundComplete.None? && s.pendingErrors == []
          && (a.isModerator ==>
                a.persona == Moderator && s.cursor.AtModerator? && s.rec.verdict.Some?)
          && (!a.isModerator ==>
                && s.cursor.AtPanelist? && s.cursor.round == a.round && s.cursor.index == a.index
                && a.persona == PANELISTS[a.index] && a.round in s.rec.roundComplete))
  }

  function ErrorInputs(failures: seq<Failure>): seq<Input> {
    seq(|failures|, i requires 0 <= i < |failures| => Wire(Error(failures[i])))
  }

  function PendingInputs(s: Player): seq<Input> {
    (if s.pendingDone.Some? then [Wire(PersonaDone(s.pendingDone.value.persona, s.pendingDone.value.round))] else [])
    + (if s.pendingRoundComplete.Some? then [Wire(RoundComplete(s.pendingRoundComplete.value))] else [])
    + ErrorInputs(s.pendingErrors)
  }

  function Flushed(s: Player): Player {
    s.(pendingDone := None, pendingRoundComplete := None, pendingErrors := [])
  }

  function TerminalInput(rec: Recording): seq<Input> {
    if rec.sessionError.Some? then [Wire(Error(rec.sessionError.value))]
    else if rec.closed then [Status(Closed)]
    else []
  }

  function Opened(s: Player, persona: PersonaId, round: nat, index: int): Player {
    var text := TextOf(s.rec, Cell(persona, round));
    Flushed(s).(active := Some(ActiveTurn(persona, round, index, text, 0, index == -1)),
                turns := s.turns + [Turn(Cell(persona, round), text)])
  }

  /** Advances to the next playable turn; a delay of `After` means a turn is now active. */
  function PrepareNextTurn(s: Player): Outcome
    requires Sane(s) && s.active.None?
    decreases s.cursor.AtPanelist?
  {
    match s.cursor
    case Finished => Outcome(s, [], Stop)
    case AtPanelist(round, index) =>
      if !HasBufferedTurn(s.rec, s.cursor) then
        if TerminalKnown(s.rec) then PrepareModerator(s) else Outcome(s, [], Park)
      else
        Outcome(Opened(s, PANELISTS[index], round, index), PendingInputs(s), After(0.0))
    case AtModerator => PrepareModerator(s)
  }

  /** The moderator's branch: synthesis, bare verdict, or the recorded terminal signal. */
  function PrepareModerator(s: Player): Outcome
  {
    if s.rec.verdict.None? then
      if s.rec.sessionError.Some? || s.rec.closed then
        Outcome(Flushed(s).(cursor := Finished), PendingInputs(s) + TerminalInput(s.rec), Stop)
      else
        Outcome(s.(cursor := AtModerator), [], Park)
    else
      var cell := SynthesisCell(s.rec);
      if TextOf(s.rec, cell) == [] then
        Outcome(Flushed(s).(cursor := Finished), PendingInputs(s) + [Wire(Verdict(s.rec.verdict.value))], Stop)
      else
        Outcome(Opened(s.(cursor := AtModerator), Moderator, cell.round, -1), PendingInputs(s), After(0.0))
  }

  function NextSeat(round: nat, index: nat): Cursor {
    if index < SEATS - 1 then AtPanelist(round, index + 1) else AtPanelist(round + 1, 0)
  }

  function RevealEnd(s: Player, a: ActiveTurn): (end: nat)
    requires a.pos < |a.text|
    ensures a.pos < end <= |a.text|
  {
    if s.reducedMotion || s.draining then |a.text| else TextReveal.ChunkEnd(a.text, a.pos)
  }

  /** Reveals one chunk of the active turn, or closes it once it is fully revealed. */
  function RevealStep(s: Player): Outcome
    requires Sane(s) && s.active.Some?
  {
    var a := s.active.value;
    if a.pos >= |a.text| then
      if a.isModerator then
        Outcome(s.(active := None, cursor := Finished), [Wire(Verdict(s.rec.verdict.value))], Stop)
      else
        var held := a.persona in s.personaErrors;
        Outcome(
          s.(pendingDone := Some(Cell(a.persona, a.round)),
             pendingErrors := s.pendingErrors + if held then [s.personaErrors[a.persona]] else [],
             personaErrors := s.personaErrors - {a.persona},
             pendingRoundComplete := if a.index == SEATS - 1 then Some(a.round) else s.pendingRoundComplete,
             cursor := NextSeat(a.round, a.index),
             active := None),
          [], After(TURN_GAP_MS / s.rate))
    else
      var end := RevealEnd(s, a);
      Outcome(s.(active := Some(a.(pos := end))),
              [Wire(Token(a.persona, a.round, a.text[a.pos..end]))],
              After(TICK_MS / s.rate))
  }

  /** One unit of work: open a turn if none is active, then reveal. */
  function Step(s: Player): Outcome
    requires Sane(s)
  {
    if s.active.None? then
      PrepareSane(s);
      var p := PrepareNextTurn(s);
      if p.delay.After? then
        var r := RevealStep(p.player);
        Outcome(r.player, p.out + r.out, r.delay)
      else p
    else RevealStep(s)
  }

  /** Kicks the scheduler unless a timer is armed. */
  function Pump(s: Player): Effect
    requires Sane(s)
  {
    if s.timer.Some? then Effect(s, [])
    else
      var o := Step(s);
      Effect(if o.delay.After? then o.player.(timer := Some(o.delay.ms)) else o.player, o.out)
  }

  /** The fields a step leaves alone. */
  ghost predicate SameSettings(s: Player, t: Player) {
    && t.rec == s.rec && t.timer == s.timer && t.draining == s.draining
    && t.rate == s.rate && t.reducedMotion == s.reducedMotion
  }

  lemma PrepareSane(s: Player)
    requires Sane(s) && s.active.None?
    ensures var o := PrepareNextTurn(s);
      Sane(o.player) && SameSettings(s, o.player) && (o.delay.After? <==> o.player.active.Some?)
  {
  }

  lemma RevealSane(s: Player)
    requires Sane(s) && s.active.Some?
    ensures Sane(RevealStep(s).player) && SameSettings(s, RevealStep(s).player)
  {
  }

  lemma StepSane(s: Player)
    requires Sane(s)
    ensures Sane(Step(s).player) && SameSettings(s, Step(s).player)
  {
    if s.active.None? {
      PrepareSane(s);
      var p := PrepareNextTurn(s);
      if p.delay.After? {
        RevealSane(p.player);
      }
    } else {
      RevealSane(s);
    }
  }

  // ----- Draining

  function RoundsLeft(s: Player): set<nat> {
    if s.cursor.AtPanelist? then set r | r in s.rec.roundComplete && s.cursor.round <= r else {}
  }

  function SeatsLeft(s: Player): nat {
    if s.cursor.AtPanelist? && s.cursor.index < SEATS then SEATS - s.cursor.index else 0
  }

  function CursorRank(s: Player): nat {
    match s.cursor
    case AtPanelist(_, _) => 2
    case AtModerator => 1
    case Finished => 0
  }

  function TextLeft(s: Player): nat {
    if s.active.Some? && s.active.value.pos <= |s.active.value.text|
    then |s.active.value.text| - s.active.value.pos else 0
  }

  /** Work always shrinks: stage, completed rounds ahead, seats ahead, turn unopened, text left. */
  lemma StepProgress(s: Player)
    requires Sane(s) && Step(s).delay.After?
    ensures var t := Step(s).player;
      || CursorRank(t) < CursorRank(s)
      || (CursorRank(t) == CursorRank(s) && RoundsLeft(t) < RoundsLeft(s))
      || (CursorRank(t) == CursorRank(s) && RoundsLeft(t) == RoundsLeft(s) &&
           (|| SeatsLeft(t) < SeatsLeft(s)
            || (SeatsLeft(t) == SeatsLeft(s) && s.active.None? && t.active.Some?)
            || (SeatsLeft(t) == SeatsLeft(s) && s.active.Some? && t.active.Some? && TextLeft(t) < TextLeft(s))))
  {
    var t := Step(s).player;
    if s.cursor.AtPanelist? && t.cursor.AtPanelist? && t.cursor.round != s.cursor.round {
      assert s.cursor.round in RoundsLeft(s) && s.cursor.round !in RoundsLeft(t);
    }
  }

  /** Steps until nothing is ready, ignoring the delays between. */
  function Drain(s: Player): Effect
    requires Sane(s)
    decreases CursorRank(s), RoundsLeft(s), SeatsLeft(s), s.active.None?, TextLeft(s)
  {
    var o := Step(s);
    StepSane(s);
    if o.delay.After? then
      StepProgress(s);
      var d := Drain(o.player);
      Effect(d.player, o.out + d.out)
    else
      Effect(o.player, o.out)
  }

  // ----- Public calls

  datatype Action =
    | Feed(event: Event)
    | FeedStatus(status: WsStatus)
    | FeedTransport(message: string)
    | TimerFires
    | SkipToLive
    | SetRate(multiplier: real)

  /** The multiplier itself from 0.5 to 4, else the nearer of the two. */
  function ClampRate(multiplier: real): (rate: Rate)
    ensures 0.5 <= multiplier <= 4.0 ==> rate == multiplier
    ensures multiplier < 0.5 ==> rate == 0.5
    ensures multiplier > 4.0 ==> rate == 4.0
  {
    if multiplier < MIN_RATE then MIN_RATE else if multiplier > MAX_RATE then MAX_RATE else multiplier
  }

  /** The effect of one call, or of the armed timer going off, on a player at rest between calls. */
  function Act(s: Player, action: Action): Effect
    requires Sane(s)
  {
    match action
    case Feed(event) =>
      var fed := s.(rec := Record(s.rec, event), personaErrors := RecordFailure(s.personaErrors, event));
      Pump(fed)
    case FeedStatus(status) =>
      if status == Connecting then Effect(Reset(s), [Status(Connecting)])
      else if status == Closed then Pump(s.(rec := s.rec.(closed := true)))
      else Effect(s, [Status(status)])
    case FeedTransport(message) => Effect(s, [Transport(message)])
    case TimerFires => if s.timer.Some? then Pump(s.(timer := None)) else Effect(s, [])
    case SkipToLive =>
      var d := Drain(s.(timer := None, draining := true));
      Effect(d.player.(draining := false), d.out)
    case SetRate(multiplier) => Effect(s.(rate := ClampRate(multiplier)), [])
  }
}
