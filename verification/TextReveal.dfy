/** The word-by-word chunking rule. */
module TextReveal {
  import opened Protocol

  predicate IsSpace(ch: CodeUnit) {
    ch == 32 || ch == 10 || ch == 9 || ch == 13
  }

  /** First index at or after `pos` whose unit's spacing is not `spacing`, or the length. */
  function RunEnd(text: Text, pos: nat, spacing: bool): (end: nat)
    requires pos <= |text|
    ensures pos <= end <= |text|
    ensures forall k :: pos <= k < end ==> IsSpace(text[k]) == spacing
    ensures end < |text| ==> IsSpace(text[end]) != spacing
    decreases |text| - pos
  {
    if pos < |text| && IsSpace(text[pos]) == spacing then RunEnd(text, pos + 1, spacing) else pos
  }

  /** `text[pos..word]` is one word and `text[word..end]` the spaces that trail it. */
  ghost predicate WordThenSpaces(text: Text, pos: nat, word: nat, end: nat) {
    && pos <= word <= end <= |text|
    && (forall k :: pos <= k < word ==> !IsSpace(text[k]))
    && (forall k :: word <= k < end ==> IsSpace(text[k]))
    && (end < |text| ==> word < end && !IsSpace(text[end]))
  }

  /** End of the chunk that starts at `pos`: the longest word, then the longest run of spaces. */
  function ChunkEnd(text: Text, pos: nat): (end: nat)
    requires pos <= |text|
    ensures end <= |text|
    ensures pos < |text| ==> pos < end
    ensures exists word: nat :: WordThenSpaces(text, pos, word, end)
  {
    var word := RunEnd(text, pos, false);
    var end := RunEnd(text, word, true);
    assert WordThenSpaces(text, pos, word, end);
    end
  }

  /** The two scanning loops compute `ChunkEnd`; the guard after them never matters in range. */
  method NextChunkEnd(text: Text, pos: nat) returns (end: int)
    requires pos <= |text|
    ensures end == ChunkEnd(text, pos)
  {
    var i := pos;
    while i < |text| && !IsSpace(text[i])
      invariant pos <= i <= |text|
      invariant RunEnd(text, i, false) == RunEnd(text, pos, false)
    {
      i := i + 1;
    }
    while i < |text| && IsSpace(text[i])
      invariant pos <= i <= |text|
      invariant RunEnd(text, i, true) == ChunkEnd(text, pos)
    {
      i := i + 1;
    }
    end := if i > pos then i else if |text| < pos + 1 then |text| else pos + 1;
  }

  /** Every chunk of a text, from `pos` on. */
  function Chunks(text: Text, pos: nat): seq<Text>
    requires pos <= |text|
    decreases |text| - pos
  {
    if pos == |text| then []
    else [text[pos..ChunkEnd(text, pos)]] + Chunks(text, ChunkEnd(text, pos))
  }

  /** Chunks laid end to end, front first. */
  function Joined(parts: seq<Text>): Text {
    if parts == [] then [] else parts[0] + Joined(parts[1..])
  }

  /** Chunking loses nothing, repeats nothing and never stalls. */
  lemma {:induction false} ChunksPartition(text: Text, pos: nat)
    requires pos <= |text|
    ensures Joined(Chunks(text, pos)) == text[pos..]
    ensures forall c <- Chunks(text, pos) :: c != []
    decreases |text| - pos
  {
    if pos < |text| {
      var end := ChunkEnd(text, pos);
      ChunksPartition(text, end);
      assert Chunks(text, pos)[1..] == Chunks(text, end);
      assert text[pos..] == text[pos..end] + text[end..];
    }
  }
}
