/** How long a session takes: each chunk costs a tick, each panelist turn a gap, and nothing else
    is ever waited for. */
module Pacing {
  import opened Protocol
  import opened Sequences
  import TextReveal
  import opened Playback
  import opened Wakeup
  import opened Replay
  import opened Sessions
  import opened Faithful
  import opened Skipping

  /** Reveal chunks from `pos` on; under reduced motion the rest is a single one. */
  function ChunksLeft(reducedMotion: bool, text: Text, pos: nat): nat
    requires pos <= |text|
  {
    if reducedMotion then if pos < |text| then 1 else 0 else |TextReveal.Chunks(text, pos)|
  }

  function Gaps(cell: Cell): nat {
    if cell.persona == Moderator then 0 else 1
  }

  function Price(chunks: nat, gaps: nat): real {
    300.0 * chunks as real + 550.0 * gaps as real
  }

  function TurnPrice(reducedMotion: bool, t: Turn): real {
    Price(ChunksLeft(reducedMotion, t.text, 0), Gaps(t.cell))
  }

  /** The price of some turns at normal speed, in milliseconds. */
  function TurnsPrice(reducedMotion: bool, turns: seq<Turn>): real {
    if turns == [] then 0.0
    else TurnsPrice(reducedMotion, turns[..|turns| - 1]) + TurnPrice(reducedMotion, turns[|turns| - 1])
  }

  function ChunkTotal(reducedMotion: bool, turns: seq<Turn>): nat {
    if turns == [] then 0
    else ChunkTotal(reducedMotion, turns[..|turns| - 1]) + ChunksLeft(reducedMotion, turns[|turns| - 1].text, 0)
  }

  function GapTotal(turns: seq<Turn>): nat {
    if turns == [] then 0 else GapTotal(turns[..|turns| - 1]) + Gaps(turns[|turns| - 1].cell)
  }

  lemma {:induction false} PriceIsChunksAndGaps(reducedMotion: bool, turns: seq<Turn>)
    ensures TurnsPrice(reducedMotion, turns)
         == Price(ChunkTotal(reducedMotion, turns), GapTotal(turns))
  {
    if turns != [] {
      PriceIsChunksAndGaps(reducedMotion, turns[..|turns| - 1]);
    }
  }

  /** What the active turn still costs. */
  function ActivePrice(s: Player): real
    requires Sane(s)
  {
    if s.active.None? then 0.0
    else
      var a := s.active.value;
      Price(ChunksLeft(s.reducedMotion, a.text, a.pos), if a.isModerator then 0 else 1)
  }

  /** What has been played so far, in milliseconds at normal speed. */
  function Paid(s: Player): real
    requires Sane(s)
  {
    TurnsPrice(s.reducedMotion, s.turns) - ActivePrice(s)
  }

  lemma TurnsPriceSnoc(reducedMotion: bool, turns: seq<Turn>, t: Turn)
    ensures TurnsPrice(reducedMotion, turns + [t]) == TurnsPrice(reducedMotion, turns) + TurnPrice(reducedMotion, t)
  {
    assert (turns + [t])[..|turns|] == turns;
  }

  lemma OpenPaid(s: Player)
    requires Sane(s) && s.active.None? && PrepareNextTurn(s).delay.After?
    ensures Sane(PrepareNextTurn(s).player) && Paid(PrepareNextTurn(s).player) == Paid(s)
  {
    PrepareSane(s);
    var turn := OpenShape(s, PrepareNextTurn(s));
    OpenedPaid(s, turn, PrepareNextTurn(s).player);
  }

  lemma OpenedPaid(s: Player, turn: Turn, t: Player)
    requires Sane(s) && Sane(t) && s.active.None? && t.active.Some? && t.active.value.pos == 0
    requires t.turns == s.turns + [turn] && t.reducedMotion == s.reducedMotion
    requires turn == Turn(ActiveCell(t), t.active.value.text)
    requires t.active.value.isModerator <==> turn.cell.persona == Moderator
    ensures Paid(t) == Paid(s)
  {
    TurnsPriceSnoc(s.reducedMotion, s.turns, turn);
  }

  lemma StayPaid(s: Player)
    requires Sane(s) && s.active.None? && !PrepareNextTurn(s).delay.After?
    ensures Sane(PrepareNextTurn(s).player) && Paid(PrepareNextTurn(s).player) == Paid(s)
  {
    PrepareSane(s);
    var t := PrepareNextTurn(s).player;
    assert t.turns == s.turns && t.active == None;
  }

  /** What a step's delay amounts to at normal speed. */
  function Charge(s: Player): real
    requires s.active.Some?
  {
    var a := s.active.value;
    if a.pos < |a.text| then 300.0 else if a.isModerator then 0.0 else 550.0
  }

  lemma RevealPaid(s: Player)
    requires Sane(s) && s.active.Some?
    ensures Sane(RevealStep(s).player)
    ensures Paid(RevealStep(s).player) >= Paid(s) + Charge(s)
    ensures !s.draining ==> Paid(RevealStep(s).player) == Paid(s) + Charge(s)
    ensures RevealStep(s).delay == if Charge(s) == 0.0 then Stop else After(Charge(s) / s.rate)
  {
    RevealSane(s);
    var a, t := s.active.value, RevealStep(s).player;
    assert t.turns == s.turns;
    if a.pos < |a.text| {
      var end := RevealEnd(s, a);
      assert s.reducedMotion ==> end == |a.text|;
      ChunkByChunk(a.text, a.pos);
      assert t.active.value.text == a.text && t.active.value.pos == end;
    }
  }

  lemma ChunkByChunk(text: Text, pos: nat)
    requires pos < |text|
    ensures |TextReveal.Chunks(text, pos)| == 1 + |TextReveal.Chunks(text, TextReveal.ChunkEnd(text, pos))|
    ensures TextReveal.Chunks(text, |text|) == []
  {
  }

  function StepCharge(s: Player): real
    requires Sane(s)
  {
    if s.active.Some? then Charge(s)
    else
      PrepareSane(s);
      if PrepareNextTurn(s).delay.After? then Charge(PrepareNextTurn(s).player) else 0.0
  }

  lemma StepOfOpen(s: Player)
    requires Sane(s) && s.active.None? && PrepareNextTurn(s).delay.After?
    ensures Sane(PrepareNextTurn(s).player) && PrepareNextTurn(s).player.active.Some?
    ensures Step(s).player == RevealStep(PrepareNextTurn(s).player).player
    ensures Step(s).delay == RevealStep(PrepareNextTurn(s).player).delay
    ensures PrepareNextTurn(s).player.rate == s.rate && PrepareNextTurn(s).player.draining == s.draining
  {
    PrepareSane(s);
  }

  /** A step either waits exactly for what it played, or waits for nothing and played nothing. */
  lemma StepPaid(s: Player)
    requires Sane(s)
    ensures Sane(Step(s).player) && Paid(Step(s).player) >= Paid(s) + StepCharge(s) >= Paid(s)
    ensures !s.draining ==> Paid(Step(s).player) == Paid(s) + StepCharge(s)
    ensures Step(s).delay.After? ==> Step(s).delay.ms == StepCharge(s) / s.rate
    ensures !Step(s).delay.After? ==> StepCharge(s) == 0.0
  {
    if s.active.None? {
      if PrepareNextTurn(s).delay.After? {
        OpenPaid(s);
        StepOfOpen(s);
        RevealPaid(PrepareNextTurn(s).player);
      } else {
        StayPaid(s);
      }
    } else {
      RevealPaid(s);
    }
  }

  /** The price played depends on turns and position only. */
  lemma SamePaid(s: Player, t: Player)
    requires Sane(s) && Sane(t) && t.turns == s.turns && t.active == s.active && t.reducedMotion == s.reducedMotion
    ensures Paid(t) == Paid(s)
  {
  }

  lemma {:induction false} DrainPaid(s: Player)
    requires Sane(s)
    ensures Sane(Drain(s).player) && Paid(Drain(s).player) >= Paid(s)
    decreases CursorRank(s), RoundsLeft(s), SeatsLeft(s), s.active.None?, TextLeft(s)
  {
    StepSane(s);
    StepPaid(s);
    if Step(s).delay.After? {
      StepProgress(s);
      DrainPaid(Step(s).player);
    }
  }

  /** The price of the whole session a recording calls for. */
  function SessionPrice(reducedMotion: bool, rec: Recording): real {
    TurnsPrice(reducedMotion, Turns(rec))
  }

  /** Nothing beyond the session's price is ever played, and all of it by the end. */
  lemma PaidWithinPrice(s: Player, log: seq<Input>)
    requires Core(s, log) && Exact(s, log) && TerminalKnown(s.rec)
    ensures Paid(s) <= SessionPrice(s.reducedMotion, s.rec)
    ensures s.cursor.Finished? ==> Paid(s) == SessionPrice(s.reducedMotion, s.rec)
  {
    DrainPaid(s);
    DrainCore(s, log);
    DrainExact(s, log);
    DrainAtLive(s);
  }

  // ----- At once, at a constant rate

  /** How long the armed timers take to run dry. */
  function DryTime(s: Player): real
    requires AtRest(s)
    decreases CursorRank(s), RoundsLeft(s), SeatsLeft(s), s.active.None?, TextLeft(s), s.timer.Some?
  {
    if s.timer.None? then 0.0
    else
      ActAtRest(s, TimerFires);
      RunDryProgress(s);
      s.timer.value + DryTime(Act(s, TimerFires).player)
  }

  lemma FirePaid(s: Player)
    requires AtRest(s) && s.timer.Some?
    ensures var t := Act(s, TimerFires).player;
      var charge := StepCharge(s.(timer := None));
      Sane(t) && SameSettings(s.(timer := t.timer), t)
      && Paid(t) == Paid(s) + charge
      && (if t.timer.Some? then Lasts(t.timer.value, charge, t.rate) else charge == 0.0)
  {
    var s0 := s.(timer := None);
    SamePaid(s, s0);
    StepPaid(s0);
    StepSane(s0);
    SamePaid(Step(s0).player, Act(s, TimerFires).player);
    if Step(s0).delay.After? {
      WaitLasts(Step(s0).delay.ms, StepCharge(s0), s.rate);
    }
  }

  /** So long does `ms` of normal time last at a rate. */
  ghost predicate Lasts(time: real, ms: real, r: Rate) {
    time * r == ms
  }

  lemma WaitLasts(time: real, ms: real, r: Rate)
    requires time == ms / r
    ensures Lasts(time, ms, r)
  {
  }

  lemma LastsIs(time: real, ms: real, r: Rate)
    requires Lasts(time, ms, r)
    ensures time == ms / r
  {
  }

  lemma TimeAddsUp(total: real, first: real, rest: real, charge: real, left: real, r: Rate)
    requires total == first + rest && Lasts(first, charge, r) && Lasts(rest, left, r)
    ensures Lasts(total, charge + left, r)
  {
  }

  lemma NothingLasts(charge: real, r: Rate)
    requires charge == 0.0
    ensures Lasts(0.0, charge + 0.0, r)
  {
  }

  /** What is still to be played, firing by firing, at normal speed. */
  function DryCharge(s: Player): real
    requires AtRest(s)
    decreases CursorRank(s), RoundsLeft(s), SeatsLeft(s), s.active.None?, TextLeft(s), s.timer.Some?
  {
    if s.timer.None? then 0.0
    else
      ActAtRest(s, TimerFires);
      RunDryProgress(s);
      StepCharge(s.(timer := None)) + DryCharge(Act(s, TimerFires).player)
  }

  lemma FireWaits(s: Player, t: Player, next: real)
    requires AtRest(s) && s.timer.Some? && t == Act(s, TimerFires).player && next == StepCharge(s.(timer := None))
    ensures if t.timer.Some? then Lasts(t.timer.value, next, t.rate) else next == 0.0
    ensures t.rate == s.rate
    ensures AtRest(t) && DryTime(s) == s.timer.value + DryTime(t) && DryCharge(s) == next + DryCharge(t)
  {
    FirePaid(s);
    ActAtRest(s, TimerFires);
    RunDryProgress(s);
  }

  /** `charge` is what the armed timer waits for. */
  lemma {:induction false} DryTimeCharged(s: Player, charge: real)
    requires AtRest(s) && if s.timer.Some? then Lasts(s.timer.value, charge, s.rate) else charge == 0.0
    ensures Lasts(DryTime(s), charge + DryCharge(s), s.rate)
    decreases CursorRank(s), RoundsLeft(s), SeatsLeft(s), s.active.None?, TextLeft(s), s.timer.Some?
  {
    if s.timer.Some? {
      var t, next := Act(s, TimerFires).player, StepCharge(s.(timer := None));
      FireWaits(s, t, next);
      RunDryProgress(s);
      DryTimeCharged(t, next);
      TimeAddsUp(DryTime(s), s.timer.value, DryTime(t), charge, next + DryCharge(t), s.rate);
    } else {
      NothingLasts(charge, s.rate);
    }
  }

  lemma {:induction false} DryChargePaid(s: Player)
    requires AtRest(s)
    ensures Sane(RunDry(s).player) && RunDry(s).player.reducedMotion == s.reducedMotion
    ensures DryCharge(s) == Paid(RunDry(s).player) - Paid(s)
    decreases CursorRank(s), RoundsLeft(s), SeatsLeft(s), s.active.None?, TextLeft(s), s.timer.Some?
  {
    if s.timer.Some? {
      FirePaid(s);
      ActAtRest(s, TimerFires);
      RunDryProgress(s);
      DryChargePaid(Act(s, TimerFires).player);
    }
  }

  /** Only deliveries: everything arrives at one instant. */
  predicate OnlyArrivals(actions: seq<Action>) {
    forall a <- actions :: a.Feed? || a == FeedStatus(Closed)
  }

  /** An armed timer accounts for everything played. */
  ghost predicate Accounted(s: Player) {
    Sane(s) && if s.timer.Some? then Lasts(s.timer.value, Paid(s), s.rate) else Paid(s) == 0.0
  }

  lemma PumpAccounted(s: Player)
    requires Accounted(s) && !s.draining
    ensures Accounted(Pump(s).player)
  {
    if s.timer.None? {
      StepPaid(s);
      StepSane(s);
      SamePaid(Step(s).player, Pump(s).player);
      if Step(s).delay.After? {
        WaitLasts(Step(s).delay.ms, StepCharge(s), s.rate);
      }
    }
  }

  lemma SameAccounted(s: Player, t: Player)
    requires Accounted(s) && Sane(t)
    requires t == s.(rec := t.rec, personaErrors := t.personaErrors)
    ensures Accounted(t)
  {
    SamePaid(s, t);
  }

  lemma ArrivalAccounted(s: Player, action: Action)
    requires AtRest(s) && Accounted(s) && (action.Feed? || action == FeedStatus(Closed))
    ensures Accounted(Act(s, action).player)
  {
    match action
    case Feed(event) =>
      SameAccounted(s, Fed(s, event));
      PumpAccounted(Fed(s, event));
    case FeedStatus(_) =>
      SameAccounted(s, s.(rec := s.rec.(closed := true)));
      PumpAccounted(s.(rec := s.rec.(closed := true)));
  }

  lemma ArrivalSettings(s: Player, action: Action)
    requires AtRest(s) && (action.Feed? || action == FeedStatus(Closed))
    ensures Act(s, action).player.rate == s.rate && Act(s, action).player.reducedMotion == s.reducedMotion
  {
    match action
    case Feed(event) => StepSane(Fed(s, event));
    case FeedStatus(_) => StepSane(s.(rec := s.rec.(closed := true)));
  }

  lemma {:induction false} ArrivalsAccounted(s: Player, actions: seq<Action>)
    requires AtRest(s) && Accounted(s) && OnlyArrivals(actions)
    ensures Accounted(Run(s, actions).player)
    ensures Run(s, actions).player.rate == s.rate && Run(s, actions).player.reducedMotion == s.reducedMotion
    decreases |actions|
  {
    if actions != [] {
      var init, last := actions[..|actions| - 1], actions[|actions| - 1];
      assert last in actions && forall a <- init :: a in actions;
      ArrivalsAccounted(s, init);
      ArrivalAccounted(Run(s, init).player, last);
      ArrivalSettings(Run(s, init).player, last);
    }
  }

  /** Running dry is a run of timer firings. */
  lemma {:induction false} RunDryInStep(s: Player, log: seq<Input>, rec: Recording)
    requires InStep(s, log, rec)
    ensures InStep(RunDry(s).player, log + RunDry(s).out, rec)
    decreases CursorRank(s), RoundsLeft(s), SeatsLeft(s), s.active.None?, TextLeft(s), s.timer.Some?
  {
    if s.timer.None? {
      assert log + [] == log;
    } else {
      ActAtRest(s, TimerFires);
      RunDryProgress(s);
      ActInStep(s, log, rec, TimerFires);
      var e := Act(s, TimerFires);
      RunDryInStep(e.player, log + e.out, rec);
      Assoc(log, e.out, RunDry(e.player).out);
    }
  }

  lemma DryEnds(s: Player, log: seq<Input>, rec: Recording)
    requires InStep(s, log, rec) && s.timer.None? && TerminalKnown(rec)
    ensures s.cursor.Finished? && Paid(s) == SessionPrice(s.reducedMotion, rec)
  {
    AtLiveReplays(s, log, rec);
    PaidWithinPrice(s, log);
  }

  lemma {:induction false} RunDryStops(s: Player)
    requires AtRest(s)
    ensures RunDry(s).player.timer.None?
    decreases CursorRank(s), RoundsLeft(s), SeatsLeft(s), s.active.None?, TextLeft(s), s.timer.Some?
  {
    if s.timer.Some? {
      ActAtRest(s, TimerFires);
      RunDryProgress(s);
      RunDryStops(Act(s, TimerFires).player);
    }
  }

  lemma DryFinishes(s: Player, log: seq<Input>, rec: Recording)
    requires InStep(s, log, rec) && TerminalKnown(rec)
    ensures RunDry(s).player.cursor.Finished? && Sane(RunDry(s).player)
    ensures Paid(RunDry(s).player) == SessionPrice(RunDry(s).player.reducedMotion, rec)
  {
    RunDryInStep(s, log, rec);
    RunDryStops(s);
    DryEnds(RunDry(s).player, log + RunDry(s).out, rec);
  }

  lemma DryRest(s: Player, log: seq<Input>, rec: Recording)
    requires InStep(s, log, rec) && TerminalKnown(rec)
    ensures RunDry(s).player.cursor.Finished?
    ensures Paid(s) + DryCharge(s) == SessionPrice(s.reducedMotion, rec)
  {
    DryFinishes(s, log, rec);
    DryChargePaid(s);
  }

  /** From a state whose armed timer accounts for everything played, the rest takes what is left. */
  lemma DryFromHere(s: Player, log: seq<Input>, rec: Recording, price: real)
    requires InStep(s, log, rec) && Accounted(s) && TerminalKnown(rec) && price == SessionPrice(s.reducedMotion, rec)
    ensures RunDry(s).player.cursor.Finished?
    ensures Lasts(DryTime(s), price, s.rate)
  {
    DryRest(s, log, rec);
    DryTimeCharged(s, Paid(s));
  }

  lemma FreshAccounted(reducedMotion: bool, rate: Rate)
    ensures AtRest(Fresh(reducedMotion, rate)) && Accounted(Fresh(reducedMotion, rate))
  {
  }

  /** Ready to run dry: in step with a terminated feed, the timer accounting for all that was played. */
  ghost predicate AllIn(s: Player, log: seq<Input>, rec: Recording, reducedMotion: bool, rate: Rate) {
    InStep(s, log, rec) && Accounted(s) && TerminalKnown(rec) && s.reducedMotion == reducedMotion && s.rate == rate
  }

  lemma InstantFeedIsAllIn(reducedMotion: bool, rate: Rate, actions: seq<Action>)
    requires OnlyArrivals(actions) && Settled(FeedOf(actions)) && TerminalKnown(Recorded(FeedOf(actions)))
    ensures AllIn(Run(Fresh(reducedMotion, rate), actions).player, Run(Fresh(reducedMotion, rate), actions).out,
                  Recorded(FeedOf(actions)), reducedMotion, rate)
  {
    RunExact(reducedMotion, rate, actions);
    FreshAccounted(reducedMotion, rate);
    ArrivalsAccounted(Fresh(reducedMotion, rate), actions);
  }

  /** The time the session a recording calls for takes at a constant rate. */
  function SessionTime(reducedMotion: bool, rate: Rate, rec: Recording): real {
    Price(ChunkTotal(reducedMotion, Turns(rec)), GapTotal(Turns(rec))) / rate
  }

  lemma AllInTakesItsPrice(s: Player, log: seq<Input>, rec: Recording, reducedMotion: bool, rate: Rate)
    requires AllIn(s, log, rec, reducedMotion, rate)
    ensures RunDry(s).player.cursor.Finished? && DryTime(s) == SessionTime(reducedMotion, rate, rec)
  {
    var price := Price(ChunkTotal(reducedMotion, Turns(rec)), GapTotal(Turns(rec)));
    PriceIsChunksAndGaps(reducedMotion, Turns(rec));
    DryFromHere(s, log, rec, price);
    LastsIs(DryTime(s), price, rate);
  }

  /** If a settled, terminated feed arrives at one instant and the rate stays put, the session plays
      to its end in exactly 300 ms per chunk and 550 ms per panelist turn, divided by the rate. */
  lemma InstantFeedTakesItsPrice(reducedMotion: bool, rate: Rate, actions: seq<Action>)
    requires OnlyArrivals(actions) && Settled(FeedOf(actions)) && TerminalKnown(Recorded(FeedOf(actions)))
    ensures RunDry(Run(Fresh(reducedMotion, rate), actions).player).player.cursor.Finished?
    ensures DryTime(Run(Fresh(reducedMotion, rate), actions).player)
         == SessionTime(reducedMotion, rate, Recorded(FeedOf(actions)))
  {
    InstantFeedIsAllIn(reducedMotion, rate, actions);
    var e := Run(Fresh(reducedMotion, rate), actions);
    AllInTakesItsPrice(e.player, e.out, Recorded(FeedOf(actions)), reducedMotion, rate);
  }

  // ----- Any arrivals, any rates: punctual runs in exact virtual time

  /** A call, or the armed timer, at an instant. */
  datatype Moment = Moment(at: real, action: Action)

  /** The player between moments; `due` is when the armed timer goes off, if one is. */
  datatype Clocked = Clocked(player: Player, due: real)

  /** Timers go off exactly when due: nothing happens past it before they do. */
  predicate OnTime(k: Clocked, now: real, m: Moment) {
    && now <= m.at
    && (k.player.timer.Some? ==> m.at <= k.due)
    && (m.action == TimerFires ==> k.player.timer.Some? && m.at == k.due)
  }

  function Tick(k: Clocked, m: Moment): Clocked
    requires AtRest(k.player)
  {
    var t := Act(k.player, m.action).player;
    var armed := t.timer.Some? && (k.player.timer.None? || m.action == TimerFires);
    Clocked(t, if armed then m.at + t.timer.value else k.due)
  }

  /** By the time `since`, everything that was armed so far is paid for at half speed at worst. */
  ghost predicate Prompt(k: Clocked, since: real) {
    && Sane(k.player) && Paid(k.player) >= 0.0
    && (k.player.timer.Some? ==> k.due <= since + 2.0 * Paid(k.player))
  }

  lemma SlowestRate(charge: real, rate: Rate)
    requires charge >= 0.0
    ensures charge / rate <= 2.0 * charge
  {
    var q := charge / rate;
    assert q * rate == charge;
    assert q >= 0.0;
    assert q * (rate - 0.5) >= 0.0;
  }

  lemma PumpPrompt(s: Player, at: real, since: real)
    requires Sane(s) && s.timer.None? && Paid(s) >= 0.0 && at <= since + 2.0 * Paid(s)
    ensures var t := Pump(s).player;
      Sane(t) && Paid(t) >= Paid(s) && (t.timer.Some? ==> at + t.timer.value <= since + 2.0 * Paid(t))
  {
    StepPaid(s);
    StepSane(s);
    SamePaid(Step(s).player, Pump(s).player);
    SlowestRate(StepCharge(s), s.rate);
  }

  lemma PumpKeeps(s: Player, k: Clocked, at: real, since: real)
    requires Sane(s) && Sane(k.player) && Paid(s) == Paid(k.player) && s.timer == k.player.timer
    requires Prompt(k, since) && at <= since + 2.0 * Paid(s)
    ensures Sane(Pump(s).player) && Paid(Pump(s).player) >= Paid(k.player)
    ensures s.timer.None? && Pump(s).player.timer.Some? ==> at + Pump(s).player.timer.value <= since + 2.0 * Paid(Pump(s).player)
    ensures s.timer.Some? ==> Pump(s).player == s
  {
    if s.timer.None? {
      PumpPrompt(s, at, since);
    }
  }

  /** What a moment other than a firing does to the bound, for arrivals at or before `since`. */
  lemma ArrivalPrompt(k: Clocked, m: Moment, since: real)
    requires AtRest(k.player) && Prompt(k, since) && m.at <= since
    requires m.action.Feed? || m.action == FeedStatus(Closed)
    ensures Prompt(Tick(k, m), since)
  {
    var s := if m.action.Feed? then Fed(k.player, m.action.event) else k.player.(rec := k.player.rec.(closed := true));
    SamePaid(k.player, s);
    PumpKeeps(s, k, m.at, since);
  }

  lemma FirePrompt(k: Clocked, m: Moment, since: real)
    requires AtRest(k.player) && Prompt(k, since)
    requires m.action == TimerFires && k.player.timer.Some? && m.at == k.due
    ensures Prompt(Tick(k, m), since)
  {
    var s := k.player.(timer := None);
    SamePaid(k.player, s);
    PumpPrompt(s, m.at, since);
  }

  lemma SkipPrompt(k: Clocked, m: Moment, since: real)
    requires AtRest(k.player) && Prompt(k, since) && m.action == SkipToLive
    ensures Prompt(Tick(k, m), since)
  {
    var d := k.player.(timer := None, draining := true);
    SamePaid(k.player, d);
    DrainPaid(d);
    ActAtRest(k.player, SkipToLive);
    SamePaid(Drain(d).player, Act(k.player, SkipToLive).player);
  }

  lemma IdlePrompt(k: Clocked, m: Moment, since: real)
    requires AtRest(k.player) && Prompt(k, since)
    requires m.action.SetRate? || m.action.FeedTransport? || (m.action.FeedStatus? && m.action.status != Closed)
    requires InSession(m.action)
    ensures Prompt(Tick(k, m), since)
  {
    SamePaid(k.player, Act(k.player, m.action).player);
  }

  predicate Arrives(action: Action) {
    DeliveryOf(action) != []
  }

  lemma TickPrompt(k: Clocked, now: real, m: Moment, since: real)
    requires AtRest(k.player) && Prompt(k, since) && OnTime(k, now, m) && InSession(m.action)
    requires Arrives(m.action) ==> m.at <= since
    ensures Prompt(Tick(k, m), since)
  {
    if m.action == TimerFires {
      FirePrompt(k, m, since);
    } else if Arrives(m.action) {
      ArrivalPrompt(k, m, since);
    } else if m.action == SkipToLive {
      SkipPrompt(k, m, since);
    } else {
      IdlePrompt(k, m, since);
    }
  }

  function ActionsOf(moments: seq<Moment>): seq<Action> {
    if moments == [] then [] else ActionsOf(moments[..|moments| - 1]) + [moments[|moments| - 1].action]
  }

  /** The clocked run of a session that opens at time 0. */
  function ClockedRun(s: Player, moments: seq<Moment>): (k: Clocked)
    requires AtRest(s)
    ensures AtRest(k.player)
  {
    if moments == [] then Clocked(s, 0.0)
    else
      var m := moments[|moments| - 1];
      var k := ClockedRun(s, moments[..|moments| - 1]);
      ActAtRest(k.player, m.action);
      Tick(k, m)
  }

  ghost predicate Punctual(s: Player, moments: seq<Moment>)
    requires AtRest(s)
  {
    moments == [] ||
    (var init, m := moments[..|moments| - 1], moments[|moments| - 1];
     Punctual(s, init) && OnTime(ClockedRun(s, init), if init == [] then 0.0 else init[|init| - 1].at, m))
  }

  lemma {:induction false} ClockedIsRun(s: Player, moments: seq<Moment>)
    requires AtRest(s)
    ensures ClockedRun(s, moments).player == Run(s, ActionsOf(moments)).player
  {
    if moments != [] {
      var init := moments[..|moments| - 1];
      ClockedIsRun(s, init);
      assert ActionsOf(moments)[..|ActionsOf(moments)| - 1] == ActionsOf(init);
    }
  }

  lemma {:induction false} RunPrompt(s: Player, moments: seq<Moment>, since: real)
    requires AtRest(s) && Paid(s) == 0.0 && s.timer.None? && Punctual(s, moments)
    requires forall m <- moments :: InSession(m.action) && (Arrives(m.action) ==> m.at <= since)
    ensures Prompt(ClockedRun(s, moments), since)
  {
    if moments != [] {
      var init, m := moments[..|moments| - 1], moments[|moments| - 1];
      assert m in moments && forall x <- init :: x in moments;
      RunPrompt(s, init, since);
      TickPrompt(ClockedRun(s, init), if init == [] then 0.0 else init[|init| - 1].at, m, since);
    }
  }

  lemma {:induction false} ActionsInSession(moments: seq<Moment>)
    requires forall m <- moments :: InSession(m.action)
    ensures WithinSession(ActionsOf(moments))
  {
    if moments != [] {
      var init := moments[..|moments| - 1];
      assert moments[|moments| - 1] in moments && forall x <- init :: x in moments;
      ActionsInSession(init);
    }
  }

  /** Whatever the arrivals, the skips and the rates, once the feed is settled and terminated a
      session that is not over has a timer armed, due no later than twice its price after the last
      arrival: so that is when it ends at the latest, for nothing happens past a due timer. */
  lemma EndsWithinTwiceItsPrice(reducedMotion: bool, rate: Rate, moments: seq<Moment>, since: real)
    requires AtRest(Fresh(reducedMotion, rate)) && Punctual(Fresh(reducedMotion, rate), moments)
    requires forall m <- moments :: InSession(m.action) && (Arrives(m.action) ==> m.at <= since)
    requires Settled(FeedOf(ActionsOf(moments))) && TerminalKnown(Recorded(FeedOf(ActionsOf(moments))))
    ensures var k := ClockedRun(Fresh(reducedMotion, rate), moments);
      || k.player.cursor.Finished?
      || (k.player.timer.Some?
          && k.due <= since + 2.0 * SessionPrice(k.player.reducedMotion, Recorded(FeedOf(ActionsOf(moments)))))
  {
    var s := Fresh(reducedMotion, rate);
    FreshAccounted(reducedMotion, rate);
    RunPrompt(s, moments, since);
    ClockedIsRun(s, moments);
    ActionsInSession(moments);
    RunExact(reducedMotion, rate, ActionsOf(moments));
    var e := Run(s, ActionsOf(moments));
    DueWithinPrice(ClockedRun(s, moments), e.out, Recorded(FeedOf(ActionsOf(moments))), since);
  }

  lemma DueWithinPrice(k: Clocked, log: seq<Input>, rec: Recording, since: real)
    requires InStep(k.player, log, rec) && TerminalKnown(rec) && Prompt(k, since)
    ensures k.player.cursor.Finished? || (k.player.timer.Some? && k.due <= since + 2.0 * SessionPrice(k.player.reducedMotion, rec))
  {
    PaidWithinPrice(k.player, log);
    if k.player.timer.None? {
      AtLiveReplays(k.player, log, rec);
    }
  }

  lemma PunctualLast(s: Player, moments: seq<Moment>, init: seq<Moment>, last: Moment)
    requires AtRest(s) && moments == init + [last] && Punctual(s, moments)
    ensures Punctual(s, init)
    ensures ClockedRun(s, init).player.timer.Some? ==> last.at <= ClockedRun(s, init).due
  {
    assert moments[..|moments| - 1] == init;
  }

  lemma ArrivesLast(init: seq<Moment>, last: Moment)
    ensures ActionsOf(init + [last]) == ActionsOf(init) + [last.action]
    ensures !Arrives(last.action) ==> FeedOf(ActionsOf(init + [last])) == FeedOf(ActionsOf(init))
  {
    assert (init + [last])[..|init|] == init;
    ExpandSnoc(DeliveryOf, ActionsOf(init), last.action);
    if !Arrives(last.action) {
      assert FeedOf(ActionsOf(init)) + [] == FeedOf(ActionsOf(init));
    }
  }

  lemma {:induction false} ClockedSettings(s: Player, moments: seq<Moment>)
    requires AtRest(s) && forall m <- moments :: InSession(m.action)
    ensures ClockedRun(s, moments).player.reducedMotion == s.reducedMotion
  {
    if moments != [] {
      var init, last := moments[..|moments| - 1], moments[|moments| - 1];
      assert last in moments && forall m <- init :: m in moments;
      ClockedSettings(s, init);
      ActKeepsMotion(ClockedRun(s, init).player, last.action);
    }
  }

  lemma ActKeepsMotion(s: Player, action: Action)
    requires AtRest(s) && InSession(action)
    ensures Act(s, action).player.reducedMotion == s.reducedMotion
  {
    match action
    case Feed(event) => StepSane(Fed(s, event));
    case FeedStatus(_) => StepSane(s.(rec := s.rec.(closed := true)));
    case TimerFires => StepSane(s.(timer := None));
    case SkipToLive => DrainAtLive(s.(timer := None, draining := true));
    case _ =>
  }

  /** When a session ends: at the last arrival, or within twice its price after it, whatever the
      arrivals, the skips and the rates. `last` is the moment that finishes it. */
  lemma EndsInTime(reducedMotion: bool, rate: Rate, init: seq<Moment>, last: Moment, since: real)
    requires AtRest(Fresh(reducedMotion, rate)) && Punctual(Fresh(reducedMotion, rate), init + [last])
    requires forall m <- init + [last] :: InSession(m.action) && (Arrives(m.action) ==> m.at <= since)
    requires Settled(FeedOf(ActionsOf(init + [last]))) && TerminalKnown(Recorded(FeedOf(ActionsOf(init + [last]))))
    requires ClockedRun(Fresh(reducedMotion, rate), init + [last]).player.cursor.Finished?
    requires !ClockedRun(Fresh(reducedMotion, rate), init).player.cursor.Finished?
    ensures last.at <= since
         || last.at <= since + 2.0 * SessionPrice(reducedMotion, Recorded(FeedOf(ActionsOf(init + [last]))))
  {
    if !Arrives(last.action) {
      var s := Fresh(reducedMotion, rate);
      assert forall m <- init :: m in init + [last];
      assert last in init + [last];
      PunctualLast(s, init + [last], init, last);
      ArrivesLast(init, last);
      EndsWithinTwiceItsPrice(reducedMotion, rate, init, since);
      ClockedSettings(s, init);
    }
  }
}
