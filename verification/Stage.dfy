/** The views the 3D stage derives from the display: which robot talks, what the camera frames. */
module Stage {
  import opened Protocol
  import opened Reducer
  import opened Playback
  import opened Wakeup
  import opened Replay
  import opened Sessions
  import opened Display
  import opened Voice

  datatype RobotStatus = Resting | Thinking | Talking | Settled

  datatype Robot = Robot(id: PersonaId, status: RobotStatus, speaking: bool, dimmed: bool, round: nat)

  const PERSONA_IDS: seq<PersonaId> := PANELISTS + [Moderator]

  predicate VerdictPhase(phase: Phase) {
    phase == Moderating || phase == Done
  }

  predicate HasSpokenIn(state: DebateState, id: PersonaId, round: nat) {
    Cell(id, round) in state.transcript
  }

  predicate HasSpokenEver(state: DebateState, id: PersonaId) {
    exists c <- state.transcript :: c.persona == id
  }

  function PanelistStatus(state: DebateState, id: PersonaId): RobotStatus {
    match state.phase
    case IdlePhase | ConnectingPhase => Resting
    case Debating =>
      if id in state.activeSpeakers then Talking
      else if HasSpokenIn(state, id, state.currentRound) then Settled else Thinking
    case Moderating | Done | Stopped | Failed =>
      if HasSpokenEver(state, id) then Settled else Resting
  }

  function ModeratorStatus(state: DebateState): RobotStatus {
    if state.phase == Moderating then Talking
    else if state.phase == Done then Settled
    else if state.phase == Stopped || state.phase == Failed then
      if HasSpokenEver(state, Moderator) then Settled else Resting
    else Resting
  }

  function RobotOf(state: DebateState, id: PersonaId): Robot {
    var status := if id == Moderator then ModeratorStatus(state) else PanelistStatus(state, id);
    Robot(id, status, status == Talking, VerdictPhase(state.phase) && id != Moderator, state.currentRound)
  }

  function RobotVisualState(state: DebateState): seq<Robot> {
    seq(|PERSONA_IDS|, i requires 0 <= i < |PERSONA_IDS| => RobotOf(state, PERSONA_IDS[i]))
  }

  /** What the camera frames; seat coordinates are left out. */
  datatype CameraTarget = Seat(id: PersonaId) | Council

  function CameraTargetFor(state: DebateState): CameraTarget {
    if VerdictPhase(state.phase) then Seat(Moderator)
    else if state.phase == Debating && |state.activeSpeakers| == 1 then Seat(state.activeSpeakers[0])
    else Council
  }

  /** On any floor the views agree with it: exactly its holder talks and is framed; with nobody
      holding it nobody talks, and the camera stays wide unless the verdict is in. */
  lemma ViewsAgree(v: DebateState, f: Floor, id: PersonaId)
    requires Voices(v, f) && f != Disorder
    ensures RobotOf(v, id).speaking <==> f == Holds(id)
    ensures f.Holds? ==> CameraTargetFor(v) == Seat(f.persona)
    ensures f == Nobody ==> CameraTargetFor(v) == Council
    ensures f == Over ==> CameraTargetFor(v) == if v.phase == Done then Seat(Moderator) else Council
    ensures RobotOf(v, id).dimmed ==> !RobotOf(v, id).speaking
  {
  }

  /** On a floor held by someone with a seat, exactly one robot on the stage talks; else none does. */
  lemma OneRobotTalks(v: DebateState, f: Floor)
    requires Voices(v, f) && f != Disorder && (f.Holds? ==> f.persona in PERSONA_IDS)
    ensures forall i | 0 <= i < |PERSONA_IDS| :: RobotVisualState(v)[i].speaking <==> f == Holds(PERSONA_IDS[i])
    ensures (exists i | 0 <= i < |PERSONA_IDS| :: RobotVisualState(v)[i].speaking) <==> f.Holds?
    ensures forall i, j | 0 <= i < j < |PERSONA_IDS| ::
      !(RobotVisualState(v)[i].speaking && RobotVisualState(v)[j].speaking)
  {
    forall i | 0 <= i < |PERSONA_IDS|
      ensures RobotVisualState(v)[i].speaking <==> f == Holds(PERSONA_IDS[i])
    {
      ViewsAgree(v, f, PERSONA_IDS[i]);
    }
    if f.Holds? {
      var i :| 0 <= i < |PERSONA_IDS| && PERSONA_IDS[i] == f.persona;
      assert RobotVisualState(v)[i].speaking;
    }
  }

  lemma SpeakerIsSeated(s: Player, log: seq<Input>)
    requires Core(s, log) && FloorIn(s).Holds?
    ensures FloorIn(s).persona in PERSONA_IDS
  {
    if s.active.Some? {
      if !s.active.value.isModerator {
        assert PERSONA_IDS[s.active.value.index] == PANELISTS[s.active.value.index];
      } else {
        assert PERSONA_IDS[SEATS] == Moderator;
      }
    } else {
      PendingShape(s, log);
      var k := |s.turns| - 1;
      assert s.turns[k].cell == SeatCell(k);
      assert PERSONA_IDS[k % SEATS] == PANELISTS[k % SEATS];
    }
  }

  lemma SpeakerHoldsFloor(s: Player, log: seq<Input>)
    requires Core(s, log) && s.active.Some? && s.active.value.pos > 0
    ensures FloorIn(s) == Holds(s.active.value.persona)
  {
  }

  /** What a log's fold looks like on the stage is what the player's fields say. */
  lemma FoldOnStage(v0: DebateState, s: Player, log: seq<Input>, v: DebateState)
    requires Voices(v0, Nobody) && v == Fold(v0, log) && FloorAfter(Nobody, log) == FloorIn(s)
    ensures Voices(v, FloorIn(s)) && FloorIn(s) != Disorder
  {
    FoldVoices(v0, Nobody, log);
  }

  lemma SessionOnStage(before: DebateState, reducedMotion: bool, rate: Rate, actions: seq<Action>, e: Effect)
    requires WithinSession(actions) && AtRest(Fresh(reducedMotion, rate)) && e == Run(Fresh(reducedMotion, rate), actions)
    ensures Core(e.player, e.out)
    ensures Voices(View(before, reducedMotion, rate, actions), FloorIn(e.player)) && FloorIn(e.player) != Disorder
  {
    RunInv(reducedMotion, rate, actions);
    RunFloor(reducedMotion, rate, actions);
    FoldOnStage(Reduce(before, Status(Connecting)), e.player, e.out, View(before, reducedMotion, rate, actions));
  }

  /** At every point of every session: at most one robot talks, it is the one the camera frames, and
      at rest between calls it is the one whose turn the player has on stage. */
  lemma StageFollowsPlayer(before: DebateState, reducedMotion: bool, rate: Rate, actions: seq<Action>, id: PersonaId)
    requires WithinSession(actions)
    ensures var v := View(before, reducedMotion, rate, actions);
      var s := Run(Fresh(reducedMotion, rate), actions).player;
      && (RobotOf(v, id).speaking <==> FloorIn(s) == Holds(id))
      && (RobotOf(v, id).speaking ==> CameraTargetFor(v) == Seat(id))
      && (s.active.Some? && s.active.value.pos > 0 ==> (RobotOf(v, id).speaking <==> id == s.active.value.persona))
  {
    FreshAtRest(reducedMotion, rate);
    var e := Run(Fresh(reducedMotion, rate), actions);
    SessionOnStage(before, reducedMotion, rate, actions, e);
    ViewsAgree(View(before, reducedMotion, rate, actions), FloorIn(e.player), id);
    if e.player.active.Some? && e.player.active.value.pos > 0 {
      SpeakerHoldsFloor(e.player, e.out);
    }
  }

  /** The whole stage of a session: one robot talks if the player has a speaker, and none otherwise. */
  lemma StageHasOneVoice(before: DebateState, reducedMotion: bool, rate: Rate, actions: seq<Action>)
    requires WithinSession(actions)
    ensures var v := View(before, reducedMotion, rate, actions);
      var s := Run(Fresh(reducedMotion, rate), actions).player;
      && (forall i | 0 <= i < |PERSONA_IDS| :: RobotVisualState(v)[i].speaking <==> FloorIn(s) == Holds(PERSONA_IDS[i]))
      && ((exists i | 0 <= i < |PERSONA_IDS| :: RobotVisualState(v)[i].speaking) <==> FloorIn(s).Holds?)
  {
    FreshAtRest(reducedMotion, rate);
    var e := Run(Fresh(reducedMotion, rate), actions);
    SessionOnStage(before, reducedMotion, rate, actions, e);
    if FloorIn(e.player).Holds? {
      SpeakerIsSeated(e.player, e.out);
    }
    OneRobotTalks(View(before, reducedMotion, rate, actions), FloorIn(e.player));
  }

  // ----- Robots that do not talk

  /** Whether any round shows text of a persona. */
  ghost predicate HasShown(v: DebateState, id: PersonaId) {
    exists round: nat :: Shown(v, Cell(id, round)) != []
  }

  ghost predicate ShowsWhatIsPresent(v: DebateState) {
    forall c: Cell :: c in v.transcript <==> Shown(v, c) != []
  }

  lemma EverIsShown(v: DebateState, id: PersonaId)
    requires ShowsWhatIsPresent(v)
    ensures HasSpokenEver(v, id) <==> HasShown(v, id)
  {
    if HasSpokenEver(v, id) {
      var c :| c in v.transcript && c.persona == id;
      assert Shown(v, Cell(id, c.round)) != [];
    }
    if HasShown(v, id) {
      var round: nat :| Shown(v, Cell(id, round)) != [];
      assert Cell(id, round) in v.transcript;
    }
  }

  /** A silent panelist rests before the debate, during it waits or has said its part of the round
      on display, and afterwards tells whether it was ever heard. */
  ghost predicate PanelistWaits(v: DebateState, id: PersonaId) {
    RobotOf(v, id).status ==
    match v.phase
    case IdlePhase | ConnectingPhase => Resting
    case Debating => if Shown(v, Cell(id, v.currentRound)) != [] then Settled else Thinking
    case Moderating | Done | Stopped | Failed => if HasShown(v, id) then Settled else Resting
  }

  /** A silent moderator has settled once it gave its verdict or was cut off in giving it. */
  ghost predicate ModeratorWaits(v: DebateState) {
    RobotOf(v, Moderator).status ==
    if v.phase == Done || ((v.phase == Stopped || v.phase == Failed) && HasShown(v, Moderator)) then Settled else Resting
  }

  lemma SilentRobot(v: DebateState, id: PersonaId)
    requires ShowsWhatIsPresent(v) && !RobotOf(v, id).speaking
    ensures if id == Moderator then ModeratorWaits(v) else PanelistWaits(v, id)
  {
    EverIsShown(v, id);
  }

  lemma SessionShowsPresent(before: DebateState, reducedMotion: bool, rate: Rate, actions: seq<Action>)
    requires WithinSession(actions)
    ensures ShowsWhatIsPresent(View(before, reducedMotion, rate, actions))
  {
    forall c: Cell
      ensures c in View(before, reducedMotion, rate, actions).transcript
         <==> Shown(View(before, reducedMotion, rate, actions), c) != []
    {
      PresentIffShown(before, reducedMotion, rate, actions, c);
    }
  }

  /** At every point of every session, of the robots that do not talk: each carries the round last
      heard of; panelists are dimmed exactly while the verdict is given and after it; and the status
      says what of the robot's own text is on display. */
  lemma SilentRobots(before: DebateState, reducedMotion: bool, rate: Rate, actions: seq<Action>, id: PersonaId)
    requires WithinSession(actions) && AtRest(Fresh(reducedMotion, rate))
    ensures var v := View(before, reducedMotion, rate, actions);
      && RobotOf(v, id).round == LastRound(0, Run(Fresh(reducedMotion, rate), actions).out)
      && (RobotOf(v, id).dimmed <==> id != Moderator && (v.phase == Moderating || v.phase == Done))
      && (!RobotOf(v, id).speaking ==> if id == Moderator then ModeratorWaits(v) else PanelistWaits(v, id))
  {
    SessionShowsPresent(before, reducedMotion, rate, actions);
    var v := View(before, reducedMotion, rate, actions);
    if !RobotOf(v, id).speaking {
      SilentRobot(v, id);
    }
    RunPlayerInputs(Fresh(reducedMotion, rate), actions);
    FoldFollowsRounds(Reduce(before, Status(Connecting)), Run(Fresh(reducedMotion, rate), actions).out);
  }
}
