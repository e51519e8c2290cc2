/** Skipping to live loses nothing: it leaves the player and the display exactly as letting the
    armed timers run dry would. */
module Skipping {
  import opened Protocol
  import opened Sequences
  import opened Reducer
  import opened Playback
  import opened Wakeup

  function Fast(s: Player): Player {
    s.(draining := true)
  }

  /** The active turn revealed up to `pos`. */
  function At(s: Player, pos: nat): Player
    requires s.active.Some?
  {
    s.(active := Some(s.active.value.(pos := pos)))
  }

  /** The token that reveals the active turn from its position up to `end`. */
  function Reveal(s: Player, end: nat): Input
    requires s.active.Some? && s.active.value.pos <= end <= |s.active.value.text|
  {
    var a := s.active.value;
    Wire(Token(a.persona, a.round, a.text[a.pos..end]))
  }

  /** Opening a turn and revealing its first chunk can be told apart. */
  lemma DrainOpen(s: Player)
    requires Sane(s) && s.active.None? && PrepareNextTurn(s).delay.After?
    ensures var p := PrepareNextTurn(s);
      Sane(p.player) && Drain(s) == Effect(Drain(p.player).player, p.out + Drain(p.player).out)
  {
    PrepareSane(s);
    var p := PrepareNextTurn(s);
    var r := RevealStep(p.player);
    assert Step(p.player) == r;
    StepSane(s);
    StepSane(p.player);
    if r.delay.After? {
      Assoc(p.out, r.out, Drain(r.player).out);
    }
  }

  lemma DrainReveal(s: Player, end: nat)
    requires Sane(s) && s.active.Some? && s.active.value.pos < |s.active.value.text|
    requires end == RevealEnd(s, s.active.value)
    ensures Sane(At(s, end)) && Drain(s) == Effect(Drain(At(s, end)).player, [Reveal(s, end)] + Drain(At(s, end)).out)
  {
    StepSane(s);
  }

  lemma FoldOne(v: DebateState, input: Input, rest: seq<Input>)
    ensures Fold(v, [input] + rest) == Fold(Reduce(v, input), rest)
  {
    FoldConcat(v, [input], rest);
    assert [input][..0] == [];
    assert Fold(v, []) == v;
  }

  lemma SliceSplit(text: Text, i: nat, j: nat, k: nat)
    requires i <= j <= k <= |text|
    ensures text[i..j] + text[j..k] == text[i..k]
  {
  }

  lemma RevealTwice(v: DebateState, s: Player, end: nat, len: nat)
    requires s.active.Some? && s.active.value.pos <= end <= len <= |s.active.value.text|
    ensures Reduce(Reduce(v, Reveal(s, end)), Reveal(At(s, end), len)) == Reduce(v, Reveal(s, len))
  {
    var a := s.active.value;
    TokensMerge(v, a.persona, a.round, a.text[a.pos..end], a.text[end..len]);
    SliceSplit(a.text, a.pos, end, len);
  }

  /** Two effects on two views that come to the same. */
  ghost predicate SameEffect(v: DebateState, e: Effect, w: DebateState, f: Effect) {
    e.player == f.player && Fold(v, e.out) == Fold(w, f.out)
  }

  lemma FastWhole(v: DebateState, s: Player, end: nat, d: Effect, rest: Effect)
    requires s.active.Some? && s.active.value.pos <= end <= |s.active.value.text|
    requires d == Effect(rest.player, [Reveal(s, end)] + rest.out)
    ensures SameEffect(v, d, Reduce(v, Reveal(s, end)), rest)
  {
    FoldOne(v, Reveal(s, end), rest.out);
  }

  lemma FastRest(v: DebateState, s: Player, end: nat, s1: Player, full: Player, d: Effect)
    requires Sane(s) && !s.draining && s.active.Some? && s.active.value.pos < end < |s.active.value.text|
    requires s1 == Fast(At(s, end)) && full == At(Fast(s), |s.active.value.text|)
    requires Sane(s1) && Sane(full)
    requires d == Effect(Drain(full).player, [Reveal(s, |s.active.value.text|)] + Drain(full).out)
    ensures SameEffect(v, d, Reduce(v, Reveal(s, end)), Drain(s1))
  {
    var len := |s.active.value.text|;
    FoldOne(v, Reveal(s, len), Drain(full).out);
    DrainReveal(s1, len);
    assert At(s1, len) == full;
    FoldOne(Reduce(v, Reveal(s, end)), Reveal(s1, len), Drain(full).out);
    RevealTwice(v, s, end, len);
  }

  /** The rest of a turn shown at once or chunk by chunk: same view, same player. */
  lemma FastReveal(v: DebateState, s: Player, end: nat)
    requires Sane(s) && !s.draining && s.active.Some? && s.active.value.pos < |s.active.value.text|
    requires end == RevealEnd(s, s.active.value)
    ensures Sane(Fast(At(s, end))) && SameEffect(v, Drain(Fast(s)), Reduce(v, Reveal(s, end)), Drain(Fast(At(s, end))))
  {
    var len := |s.active.value.text|;
    var full := At(Fast(s), len);
    DrainReveal(Fast(s), len);
    if end < len {
      FastRest(v, s, end, Fast(At(s, end)), full, Drain(Fast(s)));
    } else {
      FastWhole(v, s, end, Drain(Fast(s)), Drain(full));
    }
  }

  /** Where a step only opens or closes a turn, draining makes no difference. */
  lemma SameClose(s: Player)
    requires Sane(s) && s.active.Some? && s.active.value.pos == |s.active.value.text|
    ensures RevealStep(Fast(s)) == RevealStep(s).(player := Fast(RevealStep(s).player))
  {
  }

  lemma SameModerator(s: Player)
    ensures PrepareModerator(Fast(s)) == PrepareModerator(s).(player := Fast(PrepareModerator(s).player))
  {
  }

  lemma SameOpen(s: Player)
    requires Sane(s) && s.active.None?
    ensures PrepareNextTurn(Fast(s)) == PrepareNextTurn(s).(player := Fast(PrepareNextTurn(s).player))
  {
    SameModerator(s);
  }

  lemma DrainStop(s: Player)
    requires Sane(s) && s.active.None? && !PrepareNextTurn(s).delay.After?
    ensures Drain(s) == Effect(PrepareNextTurn(s).player, PrepareNextTurn(s).out)
  {
  }

  lemma OpenProgress(s: Player)
    requires Sane(s) && s.active.None? && PrepareNextTurn(s).delay.After?
    ensures var t := PrepareNextTurn(s).player;
      (CursorRank(s), RoundsLeft(s), SeatsLeft(s), s.active.None?
        decreases to CursorRank(t), RoundsLeft(t), SeatsLeft(t), t.active.None?)
  {
  }

  lemma {:induction false} DrainFastOrSlow(v: DebateState, s: Player)
    requires Sane(s) && !s.draining
    ensures Alike(v, s)
    decreases CursorRank(s), RoundsLeft(s), SeatsLeft(s), s.active.None?, TextLeft(s)
  {
    if s.active.None? {
      FastOrSlowIdle(v, s);
    } else if s.active.value.pos < |s.active.value.text| {
      var end := RevealEnd(s, s.active.value);
      DrainReveal(s, end);
      DrainFastOrSlow(Reduce(v, Reveal(s, end)), At(s, end));
      FastReveal(v, s, end);
      FoldOne(v, Reveal(s, end), Drain(At(s, end)).out);
    } else {
      FastOrSlowClose(v, s);
    }
  }

  /** The player and the view a drain leaves are the same with and without the drain flag. */
  ghost predicate Alike(v: DebateState, s: Player)
    requires Sane(s)
  {
    && Drain(Fast(s)).player == Fast(Drain(s).player)
    && Fold(v, Drain(Fast(s)).out) == Fold(v, Drain(s).out)
  }

  lemma AlikeOpen(v: DebateState, s: Player, p: Outcome)
    requires Sane(s) && s.active.None? && p == PrepareNextTurn(s) && p.delay.After? && Sane(p.player)
    requires Alike(Fold(v, p.out), p.player)
    ensures Alike(v, s)
  {
    SameOpen(s);
    DrainOpen(s);
    DrainOpen(Fast(s));
    FoldConcat(v, p.out, Drain(p.player).out);
    FoldConcat(v, p.out, Drain(Fast(p.player)).out);
  }

  lemma {:induction false} FastOrSlowIdle(v: DebateState, s: Player)
    requires Sane(s) && !s.draining && s.active.None?
    ensures Alike(v, s)
    decreases CursorRank(s), RoundsLeft(s), SeatsLeft(s), s.active.None?, TextLeft(s), 0
  {
    var p := PrepareNextTurn(s);
    if p.delay.After? {
      PrepareSane(s);
      OpenProgress(s);
      DrainFastOrSlow(Fold(v, p.out), p.player);
      AlikeOpen(v, s, p);
    } else {
      SameOpen(s);
      DrainStop(s);
      DrainStop(Fast(s));
    }
  }

  lemma {:induction false} FastOrSlowClose(v: DebateState, s: Player)
    requires Sane(s) && !s.draining && s.active.Some? && s.active.value.pos == |s.active.value.text|
    ensures Alike(v, s)
    decreases CursorRank(s), RoundsLeft(s), SeatsLeft(s), s.active.None?, TextLeft(s), 0
  {
    var r := RevealStep(s);
    SameClose(s);
    RevealSane(s);
    if r.delay.After? {
      StepProgress(s);
      FoldConcat(v, r.out, Drain(r.player).out);
      FoldConcat(v, r.out, Drain(Fast(r.player)).out);
      DrainFastOrSlow(Fold(v, r.out), r.player);
    }
  }

  /** Letting armed timers go off one after another until none is armed. */
  function RunDry(s: Player): Effect
    requires AtRest(s)
    decreases CursorRank(s), RoundsLeft(s), SeatsLeft(s), s.active.None?, TextLeft(s), s.timer.Some?
  {
    if s.timer.None? then Effect(s, [])
    else
      ActAtRest(s, TimerFires);
      RunDryProgress(s);
      var e := Act(s, TimerFires);
      var rest := RunDry(e.player);
      Effect(rest.player, e.out + rest.out)
  }

  lemma RunDryProgress(s: Player)
    requires AtRest(s) && s.timer.Some?
    ensures var t := Act(s, TimerFires).player;
      (CursorRank(s), RoundsLeft(s), SeatsLeft(s), s.active.None?, TextLeft(s), s.timer.Some?
        decreases to CursorRank(t), RoundsLeft(t), SeatsLeft(t), t.active.None?, TextLeft(t), t.timer.Some?)
  {
    var s0 := s.(timer := None);
    StepSane(s0);
    ReadyIffStepWorks(s0);
    if Step(s0).delay.After? {
      StepProgress(s0);
    }
  }

  lemma {:induction false} RunDryIsDrain(s: Player)
    requires AtRest(s)
    ensures RunDry(s) == Drain(s.(timer := None))
    decreases CursorRank(s), RoundsLeft(s), SeatsLeft(s), s.active.None?, TextLeft(s), s.timer.Some?
  {
    var s0 := s.(timer := None);
    StepSane(s0);
    ReadyIffStepWorks(s0);
    var o := Step(s0);
    if s.timer.Some? {
      ActAtRest(s, TimerFires);
      RunDryProgress(s);
      var t := Act(s, TimerFires).player;
      RunDryIsDrain(t);
      assert t.(timer := None) == o.player;
    }
  }

  /** `skipToLive` from any state at rest: it ends at live with no timer, in the same player state
      and with the same folded display as the timers would, had nothing else been fed. */
  lemma SkipMatchesTimers(v: DebateState, s: Player)
    requires AtRest(s)
    ensures Act(s, SkipToLive).player == RunDry(s).player
    ensures Fold(v, Act(s, SkipToLive).out) == Fold(v, RunDry(s).out)
    ensures RunDry(s).player.timer.None? && !HasReadyWork(RunDry(s).player)
  {
    var s0 := s.(timer := None);
    RunDryIsDrain(s);
    DrainFastOrSlow(v, s0);
    DrainAtLive(s0);
    assert Fast(s0) == s.(timer := None, draining := true);
  }
}
