/** What the backend's stream records when it is fed, event by event, over a lossless ordered wire. */
module Feeding {
  import opened Protocol
  import opened Sequences
  import opened Playback
  import opened Faithful
  import opened Streams
  import opened Orchestrator
  import opened Grammar
  import opened Independence

  /** The panel the interface seats: its four panelists, in order. */
  ghost predicate Seated(c: Council) {
    && Proper(c)
    && |c.panel| == SEATS
    && forall i | 0 <= i < SEATS :: c.panel[i].id == PANELISTS[i]
  }

  function Arrivals(events: seq<Event>): seq<Delivery> {
    seq(|events|, i requires 0 <= i < |events| => Arrival(events[i]))
  }

  // ----- What a stream of events records

  function DeltaIn(cell: Cell): Event -> Text {
    (e: Event) => if e.Token? && Cell(e.persona, e.round) == cell then e.delta else []
  }

  /** All the text a stream carries for one cell. */
  function SaidIn(events: seq<Event>, cell: Cell): Text {
    Expand(DeltaIn(cell), events)
  }

  lemma ArrivalsSnoc(events: seq<Event>, e: Event)
    ensures Arrivals(events + [e]) == Arrivals(events) + [Arrival(e)]
    ensures Recorded(Arrivals(events + [e])) == Record(Recorded(Arrivals(events)), e)
    ensures Settled(Arrivals(events)) && Admits(Recorded(Arrivals(events)), e) ==> Settled(Arrivals(events + [e]))
  {
    var feed := Arrivals(events);
    assert (feed + [Arrival(e)])[..|feed|] == feed;
    assert Arrivals(events + [e]) == feed + [Arrival(e)];
  }

  lemma {:induction false} RecordedText(events: seq<Event>, cell: Cell)
    ensures TextOf(Recorded(Arrivals(events)), cell) == Capped(SaidIn(events, cell))
  {
    if events != [] {
      var init, last := events[..|events| - 1], events[|events| - 1];
      assert events == init + [last];
      RecordedText(init, cell);
      ArrivalsSnoc(init, last);
      RecordText(Recorded(Arrivals(init)), last, cell);
      CapAbsorbs(SaidIn(init, cell), DeltaIn(cell)(last));
    }
  }

  lemma RecordText(rec: Recording, e: Event, cell: Cell)
    requires |TextOf(rec, cell)| <= MAX_CELL_CHARS
    ensures TextOf(Record(rec, e), cell) == Capped(TextOf(rec, cell) + DeltaIn(cell)(e))
  {
    assert TextOf(rec, cell) + [] == TextOf(rec, cell);
  }

  // ----- Feeding the rounds, then the moderator

  function RoundsUpTo(n: nat): (rounds: set<nat>)
    ensures forall r :: r in rounds <==> 1 <= r <= n
  {
    if n == 0 then {} else RoundsUpTo(n - 1) + {n}
  }

  /** After `n` full rounds, and perhaps some of the next. */
  ghost predicate AfterRounds(events: seq<Event>, n: nat) {
    var rec := Recorded(Arrivals(events));
    && Settled(Arrivals(events))
    && rec.roundComplete == RoundsUpTo(n) && !TerminalKnown(rec) && rec.moderatorRound == None
  }

  lemma FeedPanelist(c: Council, events: seq<Event>, n: nat, e: Event)
    requires Proper(c) && AfterRounds(events, n) && InRound(e, n + 1) && BySomePanelist(c, e)
    ensures AfterRounds(events + [e], n)
  {
    ArrivalsSnoc(events, e);
  }

  lemma {:induction false} FeedBlock(c: Council, events: seq<Event>, n: nat, block: seq<Event>)
    requires Proper(c) && AfterRounds(events, n)
    requires forall e <- block :: InRound(e, n + 1) && BySomePanelist(c, e)
    ensures AfterRounds(events + block, n)
  {
    if block == [] {
      assert events + block == events;
    } else {
      var init, last := block[..|block| - 1], block[|block| - 1];
      assert last in block && forall e <- init :: e in block;
      FeedBlock(c, events, n, init);
      FeedPanelist(c, events + init, n, last);
      assert events + block == events + init + [last];
    }
  }

  lemma FeedAnnouncement(events: seq<Event>, n: nat)
    requires AfterRounds(events, n)
    ensures AfterRounds(events + [RoundComplete(n + 1)], n + 1)
  {
    ArrivalsSnoc(events, RoundComplete(n + 1));
    assert RoundsUpTo(n) + {n + 1} == RoundsUpTo(n + 1);
  }

  lemma {:induction false} FeedPast(c: Council, blocks: seq<seq<Event>>)
    requires Proper(c) && forall k | 0 <= k < |blocks| :: RoundBlock(c, blocks[k], k + 1)
    ensures AfterRounds(Past(blocks), |blocks|)
  {
    if blocks == [] {
      assert Arrivals([]) == [];
      assert RoundsUpTo(0) == {};
    } else {
      var n := |blocks| - 1;
      FeedPast(c, blocks[..n]);
      FeedBlock(c, Past(blocks[..n]), n, blocks[n]);
      FeedAnnouncement(Past(blocks[..n]) + blocks[n], n);
    }
  }

  /** With some synthesis in, or none yet. */
  ghost predicate Synthesizing(events: seq<Event>, n: nat) {
    var rec := Recorded(Arrivals(events));
    && Settled(Arrivals(events))
    && rec.roundComplete == RoundsUpTo(n) && !TerminalKnown(rec)
    && (rec.moderatorRound == None || rec.moderatorRound == Some(n + 1))
  }

  lemma FeedToken(events: seq<Event>, n: nat, delta: Text)
    requires Synthesizing(events, n)
    ensures Synthesizing(events + [Token(Moderator, n + 1, delta)], n)
  {
    ArrivalsSnoc(events, Token(Moderator, n + 1, delta));
  }

  lemma FeedTokenAfter(events: seq<Event>, said: seq<Event>, n: nat, delta: Text, spoken: seq<Event>)
    requires Synthesizing(events + said, n) && spoken == said + [Token(Moderator, n + 1, delta)]
    ensures Synthesizing(events + spoken, n)
  {
    FeedToken(events + said, n, delta);
    Assoc(events, said, [Token(Moderator, n + 1, delta)]);
  }

  lemma {:induction false} FeedSynthesis(events: seq<Event>, n: nat, p: Part, deltas: seq<Text>)
    requires Synthesizing(events, n) && p == Part(Moderator, n + 1, true)
    ensures Synthesizing(events + Tokens(p, deltas), n)
  {
    if deltas == [] {
      assert events + Tokens(p, deltas) == events;
    } else {
      var init, last := deltas[..|deltas| - 1], deltas[|deltas| - 1];
      FeedSynthesis(events, n, p, init);
      assert deltas == init + [last];
      TokensSnoc(p, init, last);
      FeedTokenAfter(events, Tokens(p, init), n, last, Tokens(p, deltas));
    }
  }

  lemma TokensSnoc(p: Part, deltas: seq<Text>, last: Text)
    ensures Tokens(p, deltas + [last]) == Tokens(p, deltas) + [Token(p.id, p.round, last)]
  {
  }

  /** Exactly `n` rounds complete, and the synthesis, if any of it came, where it belongs. */
  ghost predicate RoundsRecorded(rec: Recording, n: nat) {
    rec.roundComplete == RoundsUpTo(n) && (rec.moderatorRound == None || rec.moderatorRound == Some(n + 1))
  }

  /** How the recording of `n` rounds and the moderator's answer ends up. */
  ghost predicate RecordedWith(rec: Recording, n: nat, script: Script) {
    && RoundsRecorded(rec, n)
    && match script
       case Stream(deltas, false) => rec.verdict == Some(Concat(deltas))
       case _ => rec.verdict == None && rec.sessionError == Some(Failure(Some(Moderator), STREAM_FAILED))
  }

  ghost predicate FullyRecorded(c: Council, rec: Recording) {
    RecordedWith(rec, c.rounds, IdealScript(c, c.rounds + 1, 0))
  }

  lemma FeedEnd(events: seq<Event>, n: nat, e: Event)
    requires Synthesizing(events, n) && (e.Verdict? || (e.Error? && e.failure.Terminal()))
    ensures Settled(Arrivals(events + [e]))
    ensures Recorded(Arrivals(events + [e])) == Record(Recorded(Arrivals(events)), e)
    ensures Recorded(Arrivals(events)).verdict == None
  {
    ArrivalsSnoc(events, e);
  }

  lemma SpeechShape(p: Part, script: Script) returns (end: Event)
    ensures FullSpeech(p, script) == Tokens(p, DeltasOf(script)) + [end]
    ensures end == if script.Stream? && !script.fails then Terminator(p, Concat(script.deltas)) else Apology(p)
  {
    end := FullSpeech(p, script)[|FullSpeech(p, script)| - 1];
    assert script.Refused? ==> Tokens(p, DeltasOf(script)) == [];
  }

  lemma FeedDebate(c: Council, blocks: seq<seq<Event>>, block: seq<Event>)
    requires Proper(c) && |blocks| == c.rounds
    requires forall k | 0 <= k < |blocks| :: RoundBlock(c, blocks[k], k + 1)
    requires block == FullSpeech(PartAt(c, c.rounds + 1, 0), IdealScript(c, c.rounds + 1, 0))
    ensures Settled(Arrivals(Past(blocks) + block))
    ensures FullyRecorded(c, Recorded(Arrivals(Past(blocks) + block)))
  {
    FeedPast(c, blocks);
    FeedModerator(Past(blocks), c.rounds, PartAt(c, c.rounds + 1, 0), IdealScript(c, c.rounds + 1, 0));
  }

  lemma FeedModerator(past: seq<Event>, n: nat, p: Part, script: Script)
    requires AfterRounds(past, n) && p == Part(Moderator, n + 1, true)
    ensures Settled(Arrivals(past + FullSpeech(p, script)))
    ensures RecordedWith(Recorded(Arrivals(past + FullSpeech(p, script))), n, script)
  {
    var end := SpeechShape(p, script);
    FeedSynthesis(past, n, p, DeltasOf(script));
    FeedEnd(past + Tokens(p, DeltasOf(script)), n, end);
    Assoc(past, Tokens(p, DeltasOf(script)), [end]);
  }

  // ----- Which text each cell gets

  lemma {:induction false} SaidInTokens(p: Part, deltas: seq<Text>, cell: Cell)
    ensures SaidIn(Tokens(p, deltas), cell) == if cell == Cell(p.id, p.round) then Concat(deltas) else []
  {
    if deltas != [] {
      var init, last := deltas[..|deltas| - 1], deltas[|deltas| - 1];
      SaidInTokens(p, init, cell);
      var e := Token(p.id, p.round, last);
      assert Tokens(p, deltas) == Tokens(p, init) + [e];
      ExpandSnoc(DeltaIn(cell), Tokens(p, init), e);
    }
  }

  lemma SaidInSpeech(p: Part, script: Script, cell: Cell)
    ensures SaidIn(FullSpeech(p, script), cell) == if cell == Cell(p.id, p.round) then Concat(DeltasOf(script)) else []
  {
    var deltas := DeltasOf(script);
    var end := FullSpeech(p, script)[|FullSpeech(p, script)| - 1];
    SaidInTokens(p, deltas, cell);
    assert FullSpeech(p, script) == Tokens(p, deltas) + [end];
    ExpandSnoc(DeltaIn(cell), Tokens(p, deltas), end);
  }

  /** Other speakers' events carry nothing for a cell. */
  lemma {:induction false} SaidInOwnSpeech(events: seq<Event>, cell: Cell)
    ensures SaidIn(events, cell) == SaidIn(SpeechOf(events, cell.persona), cell)
  {
    if events != [] {
      var init, last := events[..|events| - 1], events[|events| - 1];
      SaidInOwnSpeech(init, cell);
      var own := SpeechOf(init, cell.persona);
      if SpeakerOf(last) == Some(cell.persona) {
        assert SpeechOf(events, cell.persona) == own + [last];
        ExpandSnoc(DeltaIn(cell), own, last);
      } else {
        assert SpeechOf(events, cell.persona) == own + [] == own;
        assert DeltaIn(cell)(last) == [];
      }
    }
  }

  lemma {:induction false} SaidInNone(events: seq<Event>, cell: Cell)
    requires forall e <- events :: DeltaIn(cell)(e) == []
    ensures SaidIn(events, cell) == []
  {
    if events != [] {
      assert events[|events| - 1] in events;
      assert forall e <- events[..|events| - 1] :: e in events;
      SaidInNone(events[..|events| - 1], cell);
    }
  }

  lemma SaidInNextRound(past: seq<Event>, block: seq<Event>, n: nat, cell: Cell)
    ensures SaidIn(past + block + [RoundComplete(n)], cell) == SaidIn(past, cell) + SaidIn(block, cell)
  {
    ExpandConcat(DeltaIn(cell), past, block);
    ExpandSnoc(DeltaIn(cell), past + block, RoundComplete(n));
  }

  lemma SaidInOtherRound(c: Council, block: seq<Event>, round: nat, cell: Cell)
    requires RoundBlock(c, block, round) && cell.round != round
    ensures SaidIn(block, cell) == []
  {
    SaidInNone(block, cell);
  }

  lemma SaidInNextBlock(c: Council, past: seq<Event>, block: seq<Event>, n: nat, cell: Cell)
    requires RoundBlock(c, block, n)
    ensures SaidIn(past + block + [RoundComplete(n)], cell)
         == SaidIn(past, cell) + if cell.round == n then SaidIn(block, cell) else []
  {
    SaidInNextRound(past, block, n, cell);
    if cell.round != n {
      SaidInOtherRound(c, block, n, cell);
    }
  }

  lemma {:induction false} SaidInPast(c: Council, blocks: seq<seq<Event>>, cell: Cell)
    requires forall k | 0 <= k < |blocks| :: RoundBlock(c, blocks[k], k + 1)
    ensures SaidIn(Past(blocks), cell) == if 1 <= cell.round <= |blocks| then SaidIn(blocks[cell.round - 1], cell) else []
  {
    if blocks != [] {
      var n := |blocks| - 1;
      SaidInPast(c, blocks[..n], cell);
      SaidInNextBlock(c, Past(blocks[..n]), blocks[n], n + 1, cell);
    }
  }

  /** The text a panelist produces in a round, by the ideal run. */
  function PanelProduced(c: Council, cell: Cell): Text {
    if 1 <= cell.round <= c.rounds && cell.persona in PANELISTS then
      Concat(DeltasOf(IdealScript(c, cell.round, SeatOf(cell.persona))))
    else []
  }

  /** The text a debate produces for a cell, by the ideal run. */
  function Produced(c: Council, cell: Cell): Text {
    if cell == Cell(Moderator, c.rounds + 1) then Concat(DeltasOf(IdealScript(c, c.rounds + 1, 0)))
    else PanelProduced(c, cell)
  }

  lemma SaidBySpeaker(block: seq<Event>, p: Part, script: Script, cell: Cell)
    requires SpeechOf(block, p.id) == FullSpeech(p, script) && cell == Cell(p.id, p.round)
    ensures SaidIn(block, cell) == Concat(DeltasOf(script))
  {
    SaidInOwnSpeech(block, cell);
    SaidInSpeech(p, script, cell);
  }

  lemma SaidInRound(c: Council, block: seq<Event>, cell: Cell, script: Script)
    requires Seated(c) && 1 <= cell.round <= c.rounds && cell.persona in PANELISTS
    requires FullBlock(c, block, cell.round) && script == IdealScript(c, cell.round, SeatOf(cell.persona))
    ensures SaidIn(block, cell) == Concat(DeltasOf(script))
  {
    var i := SeatOf(cell.persona);
    SpeechInBlock(c, block, cell.round, i, script);
    SaidBySpeaker(block, PartAt(c, cell.round, i), script, cell);
  }

  lemma PanelistId(c: Council, e: Event)
    requires Seated(c) && BySomePanelist(c, e)
    ensures SpeakerOf(e).Some? && SpeakerOf(e).value in PANELISTS
  {
    var m :| m in c.panel && SpeakerOf(e) == Some(m.id);
    var i :| 0 <= i < |c.panel| && c.panel[i] == m;
    assert PANELISTS[i] in PANELISTS;
  }

  /** Nobody outside the panel says anything in a round. */
  lemma SaidByOthers(c: Council, block: seq<Event>, round: nat, cell: Cell)
    requires Seated(c) && RoundBlock(c, block, round) && cell.persona !in PANELISTS
    ensures SaidIn(block, cell) == []
  {
    forall e <- block
      ensures DeltaIn(cell)(e) == []
    {
      PanelistId(c, e);
    }
    SaidInNone(block, cell);
  }

  lemma SaidInItsRound(c: Council, block: seq<Event>, cell: Cell)
    requires Seated(c) && 1 <= cell.round <= c.rounds
    requires RoundBlock(c, block, cell.round) && FullBlock(c, block, cell.round)
    ensures SaidIn(block, cell) == PanelProduced(c, cell)
  {
    if cell.persona in PANELISTS {
      SaidInRound(c, block, cell, IdealScript(c, cell.round, SeatOf(cell.persona)));
    } else {
      SaidByOthers(c, block, cell.round, cell);
    }
  }

  lemma SaidInRounds(c: Council, blocks: seq<seq<Event>>, cell: Cell, said: Text)
    requires Seated(c) && |blocks| == c.rounds && BlocksFull(c, blocks) && said == PanelProduced(c, cell)
    requires forall k | 0 <= k < |blocks| :: RoundBlock(c, blocks[k], k + 1)
    ensures SaidIn(Past(blocks), cell) == said
  {
    SaidInPast(c, blocks, cell);
    if 1 <= cell.round <= c.rounds {
      var k := cell.round - 1;
      assert RoundBlock(c, blocks[k], k + 1) && FullBlock(c, blocks[k], k + 1);
      SaidInItsRound(c, blocks[k], cell);
    }
  }

  lemma SaidAtLast(past: seq<Event>, block: seq<Event>, p: Part, script: Script, cell: Cell, panel: Text)
    requires SaidIn(past, cell) == panel && block == FullSpeech(p, script) && p.id == Moderator
    requires cell.persona == Moderator ==> panel == []
    ensures SaidIn(past + block, cell) == if cell == Cell(Moderator, p.round) then Concat(DeltasOf(script)) else panel
  {
    ExpandConcat(DeltaIn(cell), past, block);
    SaidInSpeech(p, script, cell);
  }

  lemma ProducedBy(c: Council, cell: Cell, panel: Text, script: Script)
    requires panel == PanelProduced(c, cell) && script == IdealScript(c, c.rounds + 1, 0)
    ensures Produced(c, cell) == if cell == Cell(Moderator, c.rounds + 1) then Concat(DeltasOf(script)) else panel
  {
  }

  lemma ModeratorIsNoPanelist(c: Council, cell: Cell)
    requires cell.persona == Moderator
    ensures PanelProduced(c, cell) == []
  {
    assert SeatOf(cell.persona) == SEATS;
  }

  lemma SaidInDebate(c: Council, blocks: seq<seq<Event>>, block: seq<Event>, cell: Cell)
    requires Seated(c) && |blocks| == c.rounds && BlocksFull(c, blocks)
    requires forall k | 0 <= k < |blocks| :: RoundBlock(c, blocks[k], k + 1)
    requires block == FullSpeech(PartAt(c, c.rounds + 1, 0), IdealScript(c, c.rounds + 1, 0))
    ensures SaidIn(Past(blocks) + block, cell) == Produced(c, cell)
  {
    ProducedBy(c, cell, PanelProduced(c, cell), IdealScript(c, c.rounds + 1, 0));
    if cell.persona == Moderator {
      ModeratorIsNoPanelist(c, cell);
    }
    SaidInRounds(c, blocks, cell, PanelProduced(c, cell));
    SaidAtLast(Past(blocks), block, PartAt(c, c.rounds + 1, 0), IdealScript(c, c.rounds + 1, 0), cell,
               PanelProduced(c, cell));
  }
}
