/** Splitting text into requirement chunks (sqlite-store.ts, canonical-backlog.ts). */
module Chunks {
  import opened Texts

  const CHUNK_UNITS := 4_000

  predicate HighSurrogate(u: CodeUnit) { 0xD800 <= u <= 0xDBFF }
  predicate LowSurrogate(u: CodeUnit) { 0xDC00 <= u <= 0xDFFF }

  /** Where the chunk starting at an offset ends: a full chunk, one unit less before a split pair. */
  function ChunkEnd(text: Text, offset: nat): (end: nat)
    requires offset < |text|
    ensures offset < end <= |text| && end - offset <= CHUNK_UNITS
  {
    var end := if offset + CHUNK_UNITS <= |text| then offset + CHUNK_UNITS else |text|;
    if end < |text| && end > offset && HighSurrogate(text[end - 1]) then end - 1 else end
  }

  function ChunksFrom(text: Text, offset: nat): seq<Text>
    requires offset <= |text|
    decreases |text| - offset
  {
    if offset == |text| then []
    else [text[offset..ChunkEnd(text, offset)]] + ChunksFrom(text, ChunkEnd(text, offset))
  }

  /** The requirements a registry request is split into. */
  method RequestRequirements(text: Text) returns (requirements: seq<Text>)
    ensures requirements == ChunksFrom(text, 0)
  {
    requirements := [];
    var offset := 0;
    while offset < |text|
      invariant offset <= |text|
      invariant requirements + ChunksFrom(text, offset) == ChunksFrom(text, 0)
    {
      var end := if offset + CHUNK_UNITS <= |text| then offset + CHUNK_UNITS else |text|;
      if end < |text| && end > offset && HighSurrogate(text[end - 1]) {
        end := end - 1;
      }
      assert end == ChunkEnd(text, offset);
      requirements := requirements + [text[offset..end]];
      offset := end;
    }
    assert requirements + [] == requirements;
  }

  function Concat(parts: seq<Text>): Text {
    if parts == [] then [] else parts[0] + Concat(parts[1..])
  }

  /** Two neighbouring chunks split no surrogate pair (the Unicode Standard, section 3.9). */
  predicate SplitsNoPair(left: Text, right: Text) {
    left == [] || right == [] || !(HighSurrogate(left[|left| - 1]) && LowSurrogate(right[0]))
  }

  /** For every text, well-formed or not: the chunks concatenate to it, none is empty or too long,
      and no boundary falls inside a surrogate pair. */
  lemma {:induction false} ChunksPartition(text: Text, offset: nat)
    requires offset <= |text|
    ensures var chunks := ChunksFrom(text, offset);
            && Concat(chunks) == text[offset..]
            && (forall i :: 0 <= i < |chunks| ==> 1 <= |chunks[i]| <= CHUNK_UNITS)
            && (forall i :: 0 < i < |chunks| ==> SplitsNoPair(chunks[i - 1], chunks[i]))
    decreases |text| - offset
  {
    if offset < |text| {
      var end := ChunkEnd(text, offset);
      var head, tail := text[offset..end], ChunksFrom(text, end);
      ChunksPartition(text, end);
      assert ([head] + tail)[1..] == tail;
      assert head + text[end..] == text[offset..];
      if end < |text| {
        assert tail[0][0] == text[end];
        assert head[|head| - 1] == text[end - 1];
      }
    }
  }

  /** Every chunk but the last is full, but for one unit where the next chunk starts with a high surrogate. */
  lemma {:induction false} ChunksAreFull(text: Text, offset: nat, i: nat)
    requires offset <= |text| && i + 1 < |ChunksFrom(text, offset)|
    ensures var chunks := ChunksFrom(text, offset);
            |chunks[i]| == 4_000 || (|chunks[i]| == 3_999 && chunks[i + 1] != [] && HighSurrogate(chunks[i + 1][0]))
    decreases |text| - offset
  {
    var end := ChunkEnd(text, offset);
    if i > 0 {
      ChunksAreFull(text, end, i - 1);
    } else {
      assert ChunksFrom(text, end)[0] == text[end..ChunkEnd(text, end)];
    }
  }

  // ----- requirements from canonical backlog text: blank chunks are dropped, a cap empties the result -----

  predicate Blank(t: Text) { Trim(t) == [] }

  function NonBlank(parts: seq<Text>): seq<Text> {
    if parts == [] then [] else (if Blank(parts[0]) then [] else [parts[0]]) + NonBlank(parts[1..])
  }

  function Remaining(text: Text, offset: nat): seq<Text>
    requires offset <= |text|
  {
    NonBlank(ChunksFrom(text, offset))
  }

  lemma RemainingStep(text: Text, offset: nat)
    requires offset < |text|
    ensures var end := ChunkEnd(text, offset);
            Remaining(text, offset)
            == (if Blank(text[offset..end]) then [] else [text[offset..end]]) + Remaining(text, end)
  {
    hide Blank;
    var end := ChunkEnd(text, offset);
    assert ([text[offset..end]] + ChunksFrom(text, end))[1..] == ChunksFrom(text, end);
  }

  lemma NothingRemains(text: Text)
    ensures Remaining(text, |text|) == []
  {
  }

  /** The canonical source's requirements: the non-blank chunks of control-free text, or nothing over the cap. */
  method BacklogRequirementsFromText(text: Text, maximum: nat) returns (requirements: seq<Text>)
    ensures requirements ==
            if HasUnsafeControl(text) || |Remaining(text, 0)| > maximum then [] else Remaining(text, 0)
  {
    hide ChunksFrom, NonBlank, Remaining, Blank, ChunkEnd;
    if HasUnsafeControl(text) { return []; }
    requirements := [];
    var offset := 0;
    while offset < |text|
      invariant offset <= |text| && |requirements| <= maximum
      invariant requirements + Remaining(text, offset) == Remaining(text, 0)
    {
      RemainingStep(text, offset);
      var end := EndOfChunk(text, offset);
      var requirement := text[offset..end];
      if !Blank(requirement) {
        if |requirements| == maximum {
          return [];
        }
        requirements := requirements + [requirement];
      }
      offset := end;
    }
    NothingRemains(text);
  }

  method EndOfChunk(text: Text, offset: nat) returns (end: nat)
    requires offset < |text|
    ensures end == ChunkEnd(text, offset)
  {
    end := if offset + CHUNK_UNITS <= |text| then offset + CHUNK_UNITS else |text|;
    if end < |text| && HighSurrogate(text[end - 1]) {
      end := end - 1;
    }
  }
}
