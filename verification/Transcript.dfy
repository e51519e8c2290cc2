/** What each round, and the moderator, get to read of the debate so far. */
module Transcripts {
  import opened Protocol
  import opened Sequences

  datatype Answer = Answer(personaId: PersonaId, name: Text, text: Text)

  datatype Round = Round(number: nat, answers: seq<Answer>)

  /** Rounds in order; appending copies, it never changes an earlier transcript. */
  type Transcript = seq<Round>

  /** Constant prompt text; every constant the backend inserts is ASCII. */
  function Ascii(s: string): Text {
    seq(|s|, i requires 0 <= i < |s| => if s[i] <= '~' then s[i] as int as CodeUnit else 63)
  }

  function Latest(t: Transcript): seq<Answer> {
    if t == [] then [] else t[|t| - 1].answers
  }

  function ByOthers(personaId: PersonaId): Answer -> seq<Answer> {
    (a: Answer) => if a.personaId == personaId then [] else [a]
  }

  function OthersFor(t: Transcript, personaId: PersonaId): seq<Answer> {
    Expand(ByOthers(personaId), Latest(t))
  }

  function FirstBy(answers: seq<Answer>, personaId: PersonaId): Option<Answer> {
    if answers == [] then None
    else if answers[0].personaId == personaId then Some(answers[0])
    else FirstBy(answers[1..], personaId)
  }

  function OwnLatest(t: Transcript, personaId: PersonaId): Option<Answer> {
    FirstBy(Latest(t), personaId)
  }

  function RenderAnswer(a: Answer): Text {
    if a.text == [] then [] else Ascii("[") + a.name + Ascii("]: ") + a.text + Ascii("\n\n")
  }

  function RenderAnswers(answers: seq<Answer>): Text {
    Expand(RenderAnswer, answers)
  }

  function RenderRound(round: Round): Text {
    RenderAnswers(round.answers)
  }

  function Render(t: Transcript): Text {
    Expand(RenderRound, t)
  }

  // ----- The loops that compute them

  method SelectOthers(t: Transcript, personaId: PersonaId) returns (others: seq<Answer>)
    ensures others == OthersFor(t, personaId)
  {
    others := [];
    if |t| == 0 {
      return;
    }
    var latest := t[|t| - 1].answers;
    for i := 0 to |latest|
      invariant others == Expand(ByOthers(personaId), latest[..i])
    {
      ExpandSnoc(ByOthers(personaId), latest[..i], latest[i]);
      assert latest[..i + 1] == latest[..i] + [latest[i]];
      if latest[i].personaId == personaId {
        continue;
      }
      others := others + [latest[i]];
    }
    assert latest[..|latest|] == latest;
  }

  method FindOwn(t: Transcript, personaId: PersonaId) returns (own: Option<Answer>)
    ensures own == OwnLatest(t, personaId)
  {
    if |t| == 0 {
      return None;
    }
    var latest := t[|t| - 1].answers;
    for i := 0 to |latest|
      invariant FirstBy(latest, personaId) == FirstBy(latest[i..], personaId)
    {
      if latest[i].personaId == personaId {
        return Some(latest[i]);
      }
    }
    return None;
  }

  method WriteTranscript(t: Transcript) returns (text: Text)
    ensures text == Render(t)
  {
    text := [];
    for i := 0 to |t|
      invariant text == Expand(RenderRound, t[..i])
    {
      ExpandSnoc(RenderRound, t[..i], t[i]);
      assert t[..i + 1] == t[..i] + [t[i]];
      var written := WriteAnswers(t[i].answers);
      text := text + written;
    }
    assert t[..|t|] == t;
  }

  method WriteAnswers(answers: seq<Answer>) returns (text: Text)
    ensures text == RenderAnswers(answers)
  {
    text := [];
    for i := 0 to |answers|
      invariant text == Expand(RenderAnswer, answers[..i])
    {
      ExpandSnoc(RenderAnswer, answers[..i], answers[i]);
      assert answers[..i + 1] == answers[..i] + [answers[i]];
      if answers[i].text == [] {
        continue;
      }
      text := text + (Ascii("[") + answers[i].name + Ascii("]: ") + answers[i].text + Ascii("\n\n"));
    }
    assert answers[..|answers|] == answers;
  }

  // ----- What they guarantee

  ghost predicate DistinctIds(answers: seq<Answer>) {
    forall i, j | 0 <= i < j < |answers| :: answers[i].personaId != answers[j].personaId
  }

  /** Nothing is left out for this reader. */
  ghost predicate AllOthers(answers: seq<Answer>, personaId: PersonaId) {
    Expand(ByOthers(personaId), answers) == answers
  }

  lemma OthersKeep(answers: seq<Answer>, init: seq<Answer>, last: Answer, personaId: PersonaId)
    requires AllOthers(init, personaId) && last.personaId != personaId && answers == init + [last]
    ensures AllOthers(answers, personaId)
  {
    ExpandSnoc(ByOthers(personaId), init, last);
  }

  ghost predicate NoneBy(answers: seq<Answer>, personaId: PersonaId) {
    forall a <- answers :: a.personaId != personaId
  }

  lemma NoneBefore(answers: seq<Answer>, init: seq<Answer>, last: Answer, personaId: PersonaId)
    requires NoneBy(answers, personaId) && answers == init + [last]
    ensures NoneBy(init, personaId) && last.personaId != personaId
  {
    assert last in answers && forall a <- init :: a in answers;
  }

  lemma {:induction false} OthersAll(answers: seq<Answer>, personaId: PersonaId)
    requires NoneBy(answers, personaId)
    ensures AllOthers(answers, personaId)
  {
    if answers != [] {
      var init, last := answers[..|answers| - 1], answers[|answers| - 1];
      assert answers == init + [last];
      NoneBefore(answers, init, last, personaId);
      OthersAll(init, personaId);
      OthersKeep(answers, init, last, personaId);
    }
  }

  lemma {:induction false} FirstByNone(answers: seq<Answer>, personaId: PersonaId)
    requires NoneBy(answers, personaId)
    ensures FirstBy(answers, personaId) == None
  {
    if answers != [] {
      FirstByNone(answers[1..], personaId);
    }
  }

  lemma {:induction false} FirstByAt(answers: seq<Answer>, k: nat)
    requires DistinctIds(answers) && k < |answers|
    ensures FirstBy(answers, answers[k].personaId) == Some(answers[k])
  {
    if k > 0 {
      FirstByAt(answers[1..], k - 1);
    }
  }

  lemma OthersAround(before: seq<Answer>, own: Answer, after: seq<Answer>)
    requires NoneBy(before, own.personaId) && NoneBy(after, own.personaId)
    ensures Expand(ByOthers(own.personaId), before + ([own] + after)) == before + after
  {
    var f := ByOthers(own.personaId);
    ExpandConcat(f, before, [own] + after);
    ExpandConcat(f, [own], after);
    ExpandOne(f, own);
    OthersAll(before, own.personaId);
    OthersAll(after, own.personaId);
    assert [] + after == after;
  }

  /** With distinct ids, a panelist's own answer and the others' split the latest round in two, the
      others in seat order. */
  lemma OwnAndOthersPartition(t: Transcript, k: nat)
    requires DistinctIds(Latest(t)) && k < |Latest(t)|
    ensures OwnLatest(t, Latest(t)[k].personaId) == Some(Latest(t)[k])
    ensures OthersFor(t, Latest(t)[k].personaId) == Latest(t)[..k] + Latest(t)[k + 1..]
  {
    var answers := Latest(t);
    FirstByAt(answers, k);
    assert answers == answers[..k] + ([answers[k]] + answers[k + 1..]);
    OthersAround(answers[..k], answers[k], answers[k + 1..]);
  }

  /** An outsider is shown the whole latest round and has nothing of its own. */
  lemma OutsiderSeesAll(t: Transcript, personaId: PersonaId)
    requires NoneBy(Latest(t), personaId)
    ensures OwnLatest(t, personaId) == None && OthersFor(t, personaId) == Latest(t)
  {
    OthersAll(Latest(t), personaId);
    FirstByNone(Latest(t), personaId);
  }

  // ----- The latest round is the last one appended

  /** Of a transcript just grown by a round, a panelist reads that round: its own answer, and the
      others' around it in seat order. */
  lemma LatestRoundIsRead(t: Transcript, n: nat, answers: seq<Answer>, k: nat)
    requires DistinctIds(answers) && k < |answers|
    ensures OwnLatest(t + [Round(n, answers)], answers[k].personaId) == Some(answers[k])
    ensures OthersFor(t + [Round(n, answers)], answers[k].personaId) == answers[..k] + answers[k + 1..]
  {
    var grown := t + [Round(n, answers)];
    assert Latest(grown) == answers;
    OwnAndOthersPartition(grown, k);
  }

  /** Whoever did not speak in it reads all of it, whatever was said before. */
  lemma OutsiderReadsLatestRound(t: Transcript, n: nat, answers: seq<Answer>, personaId: PersonaId)
    requires NoneBy(answers, personaId)
    ensures OwnLatest(t + [Round(n, answers)], personaId) == None
    ensures OthersFor(t + [Round(n, answers)], personaId) == answers
  {
    assert Latest(t + [Round(n, answers)]) == answers;
    OutsiderSeesAll(t + [Round(n, answers)], personaId);
  }

  /** Even with an id that speaks twice in a round, its own answer is the first, and no answer of its
      own is among the others'. */
  lemma {:induction false} FirstOwnAnswer(t: Transcript, n: nat, answers: seq<Answer>, k: nat)
    requires k < |answers| && NoneBy(answers[..k], answers[k].personaId)
    ensures OwnLatest(t + [Round(n, answers)], answers[k].personaId) == Some(answers[k])
    ensures NoneBy(OthersFor(t + [Round(n, answers)], answers[k].personaId), answers[k].personaId)
  {
    assert Latest(t + [Round(n, answers)]) == answers;
    FirstAfterNone(answers, k);
    OthersAreOthers(answers, answers[k].personaId);
  }

  lemma {:induction false} FirstAfterNone(answers: seq<Answer>, k: nat)
    requires k < |answers| && NoneBy(answers[..k], answers[k].personaId)
    ensures FirstBy(answers, answers[k].personaId) == Some(answers[k])
  {
    if k > 0 {
      assert answers[0] in answers[..k] && forall a <- answers[1..][..k - 1] :: a in answers[..k];
      FirstAfterNone(answers[1..], k - 1);
    }
  }

  lemma {:induction false} OthersAreOthers(answers: seq<Answer>, personaId: PersonaId)
    ensures NoneBy(Expand(ByOthers(personaId), answers), personaId)
  {
    if answers != [] {
      OthersAreOthers(answers[..|answers| - 1], personaId);
    }
  }

  // ----- What is written

  /** A spoken answer reads "[name]: text" and an empty line; in code units 91, 93 58 32 and 10 10. */
  lemma SpokenAnswerReads(a: Answer)
    requires a.text != []
    ensures RenderAnswers([a]) == [91] + a.name + [93, 58, 32] + a.text + [10, 10]
  {
    ExpandOne(RenderAnswer, a);
    assert Ascii("[") == [91] && Ascii("]: ") == [93, 58, 32] && Ascii("\n\n") == [10, 10];
  }

  /** An answer without text leaves no trace. */
  lemma SilentAnswerReads(a: Answer)
    requires a.text == []
    ensures RenderAnswers([a]) == []
  {
    ExpandOne(RenderAnswer, a);
  }

  lemma AnswersReadInOrder(a: seq<Answer>, b: seq<Answer>)
    ensures RenderAnswers(a + b) == RenderAnswers(a) + RenderAnswers(b)
  {
    ExpandConcat(RenderAnswer, a, b);
  }

  /** The whole transcript reads as its rounds one after another, without a header. */
  lemma RoundsReadInOrder(t: Transcript, n: nat, answers: seq<Answer>)
    ensures Render([]) == []
    ensures Render(t + [Round(n, answers)]) == Render(t) + RenderAnswers(answers)
  {
    ExpandSnoc(RenderRound, t, Round(n, answers));
  }
}
