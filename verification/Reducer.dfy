/** The pure state machine that folds dispatched inputs into what the interface shows. */
module Reducer {
  import opened Protocol

  datatype Phase = IdlePhase | ConnectingPhase | Debating | Moderating | Done | Stopped | Failed {
    predicate Terminal() {
      this == Done || this == Stopped || this == Failed
    }
  }

  datatype DebateState = DebateState(
    phase: Phase,
    currentRound: nat,
    transcript: map<Cell, Text>,
    activeSpeakers: seq<PersonaId>,
    verdict: Text,
    errors: seq<Failure>)

  const MAX_ERRORS: nat := 50

  const INITIAL := DebateState(IdlePhase, 0, map[], [], [], [])

  const CLOSED_EARLY := Failure(None, "connection closed before a verdict")

  function WithActive(active: seq<PersonaId>, persona: PersonaId): seq<PersonaId> {
    if persona in active then active else active + [persona]
  }

  function WithoutActive(active: seq<PersonaId>, persona: PersonaId): seq<PersonaId> {
    if active == [] then []
    else (if active[0] != persona then [active[0]] else []) + WithoutActive(active[1..], persona)
  }

  function WithError(errors: seq<Failure>, err: Failure): seq<Failure> {
    var next := errors + [err];
    if |next| > MAX_ERRORS then next[|next| - MAX_ERRORS..] else next
  }

  /** Displayed text of a cell; an absent cell shows nothing. */
  function Shown(state: DebateState, cell: Cell): Text {
    if cell in state.transcript then state.transcript[cell] else []
  }

  function ReduceStatus(state: DebateState, status: WsStatus): DebateState {
    match status
    case Connecting => INITIAL.(phase := ConnectingPhase)
    case Closed =>
      if state.phase.Terminal() then state
      else state.(phase := Failed, activeSpeakers := [], errors := WithError(state.errors, CLOSED_EARLY))
    case Idle | Open | Broken => state
  }

  function ReduceEvent(state: DebateState, event: Event): DebateState {
    match event
    case Token(persona, round, delta) =>
      var cell := Cell(persona, round);
      state.(phase := if persona == Moderator then Moderating else Debating,
             currentRound := round,
             transcript := state.transcript[cell := Capped(Shown(state, cell) + delta)],
             activeSpeakers := WithActive(state.activeSpeakers, persona))
    case PersonaDone(persona, _) =>
      state.(activeSpeakers := WithoutActive(state.activeSpeakers, persona))
    case RoundComplete(round) =>
      state.(currentRound := round)
    case Verdict(verdict) =>
      state.(phase := Done, verdict := verdict,
             activeSpeakers := WithoutActive(state.activeSpeakers, Moderator))
    case Error(failure) =>
      var shownError := failure.(message := if failure.message == "" then "an error occurred" else failure.message);
      state.(phase := if failure.Terminal() then Failed else state.phase,
             activeSpeakers := if failure.Terminal() then []
                               else WithoutActive(state.activeSpeakers, failure.persona.value),
             errors := WithError(state.errors, shownError))
  }

  function Reduce(state: DebateState, input: Input): DebateState {
    match input
    case Transport(message) => state.(errors := WithError(state.errors, Failure(None, message)))
    case Cancel => if state.phase.Terminal() then state else state.(phase := Stopped, activeSpeakers := [])
    case Status(status) => ReduceStatus(state, status)
    case Wire(event) => ReduceEvent(state, event)
  }

  function Fold(state: DebateState, log: seq<Input>): DebateState {
    if log == [] then state else Reduce(Fold(state, log[..|log| - 1]), log[|log| - 1])
  }

  lemma {:induction false} FoldConcat(state: DebateState, a: seq<Input>, b: seq<Input>)
    ensures Fold(state, a + b) == Fold(Fold(state, a), b)
  {
    if b == [] {
      assert a + b == a;
    } else {
      var n := |b| - 1;
      assert (a + b)[..|a + b| - 1] == a + b[..n];
      FoldConcat(state, a, b[..n]);
    }
  }

  /** The round of the last text or announcement in a log, `before` if there is none. */
  function LastRound(before: nat, log: seq<Input>): nat {
    if log == [] then before
    else
      match log[|log| - 1]
      case Wire(Token(_, round, _)) => round
      case Wire(RoundComplete(round)) => round
      case _ => LastRound(before, log[..|log| - 1])
  }

  /** The round on display is the one last heard of. */
  lemma {:induction false} FoldFollowsRounds(state: DebateState, log: seq<Input>)
    requires Status(Connecting) !in log
    ensures Fold(state, log).currentRound == LastRound(state.currentRound, log)
  {
    if log != [] {
      var init, last := log[..|log| - 1], log[|log| - 1];
      assert last in log && Status(Connecting) !in init;
      FoldFollowsRounds(state, init);
    }
  }

  /** A turn revealed in two pieces shows the same as in one: any chunking of a text folds alike. */
  lemma TokensMerge(state: DebateState, persona: PersonaId, round: nat, a: Text, b: Text)
    ensures Reduce(Reduce(state, Wire(Token(persona, round, a))), Wire(Token(persona, round, b)))
         == Reduce(state, Wire(Token(persona, round, a + b)))
  {
    var cell := Cell(persona, round);
    var shown := Shown(state, cell);
    CapAbsorbs(shown + a, b);
    assert shown + a + b == shown + (a + b);
    var m := state.transcript;
    assert m[cell := Capped(shown + a)][cell := Capped(shown + (a + b))] == m[cell := Capped(shown + (a + b))];
  }

  function TokensOf(cell: Cell, parts: seq<Text>): seq<Input> {
    seq(|parts|, i requires 0 <= i < |parts| => Wire(Token(cell.persona, cell.round, parts[i])))
  }

  /** However a text is cut into tokens, even past the cap, folding them gives what one token would. */
  lemma {:induction false} ChunkingIsInvisible(state: DebateState, cell: Cell, parts: seq<Text>)
    requires parts != []
    ensures Fold(state, TokensOf(cell, parts)) == Reduce(state, Wire(Token(cell.persona, cell.round, Concat(parts))))
  {
    var n := |parts| - 1;
    var init, last := parts[..n], Wire(Token(cell.persona, cell.round, parts[n]));
    assert TokensOf(cell, parts)[..n] == TokensOf(cell, init);
    if n == 0 {
      assert Concat(init) + parts[n] == parts[n];
    } else {
      ChunkingIsInvisible(state, cell, init);
      TokensMerge(state, cell.persona, cell.round, Concat(init), parts[n]);
    }
  }
}
