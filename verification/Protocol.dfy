/** The vocabulary shared by both ends of the wire: who speaks, what an event carries,
    and how much text one (persona, round) cell may hold. */
module Protocol {

  /** One UTF-16 code unit, the element a JavaScript string is indexed and sliced by. */
  newtype CodeUnit = u: int | 0 <= u < 0x1_0000

  type Text = seq<CodeUnit>

  datatype Option<+T> = None | Some(value: T)

  /** The five identities the interface knows, and every other string a backend panel may use. */
  datatype PersonaId = Skeptic | Optimist | Expert | Contrarian | Moderator | Other(name: string)

  /** Panelists in seating order. */
  const PANELISTS: seq<PersonaId> := [Skeptic, Optimist, Expert, Contrarian]

  const SEATS: nat := 4

  datatype Cell = Cell(persona: PersonaId, round: nat)

  /** An error, on the wire or on display; a session-level one names nobody. */
  datatype Failure = Failure(persona: Option<PersonaId>, message: string) {
    predicate Terminal() {
      persona == None || persona == Some(Moderator)
    }
  }

  datatype Event =
    | Token(persona: PersonaId, round: nat, delta: Text)
    | PersonaDone(persona: PersonaId, round: nat)
    | RoundComplete(round: nat)
    | Verdict(verdict: Text)
    | Error(failure: Failure)

  datatype WsStatus = Idle | Connecting | Open | Closed | Broken

  /** What the reducer consumes: a wire event, a transport signal, or a user's stop. */
  datatype Input =
    | Wire(event: Event)
    | Status(status: WsStatus)
    | Transport(message: string)
    | Cancel

  const MAX_CELL_CHARS: nat := 200_000

  /** As much of a text as a cell holds. */
  function Capped(t: Text): (capped: Text)
    ensures capped <= t && |capped| == if |t| > 200_000 then 200_000 else |t|
  {
    if |t| > MAX_CELL_CHARS then t[..MAX_CELL_CHARS] else t
  }

  /** Capping after every append is the same as capping once at the end. */
  lemma CapAbsorbs(x: Text, y: Text)
    ensures Capped(Capped(x) + y) == Capped(x + y)
  {
    if |x| > MAX_CELL_CHARS {
      assert (Capped(x) + y)[..MAX_CELL_CHARS] == x[..MAX_CELL_CHARS];
      assert (x + y)[..MAX_CELL_CHARS] == x[..MAX_CELL_CHARS];
    }
  }

  function Concat(parts: seq<Text>): Text {
    if parts == [] then [] else Concat(parts[..|parts| - 1]) + parts[|parts| - 1]
  }

  lemma ConcatSnoc(parts: seq<Text>, last: Text)
    ensures Concat(parts + [last]) == Concat(parts) + last
  {
    assert (parts + [last])[..|parts|] == parts;
  }

  /** A panelist's place in the speaking order; past the last seat for anyone else. */
  function SeatOf(p: PersonaId): (seat: nat)
    ensures seat < SEATS ==> PANELISTS[seat] == p
    ensures seat < SEATS <==> p in PANELISTS
  {
    match p
    case Skeptic => 0
    case Optimist => 1
    case Expert => 2
    case Contrarian => 3
    case _ => 4
  }
}
