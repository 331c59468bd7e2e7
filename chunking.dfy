/**
 * How `handle_message` hands a reply to the chat transport: a reply longer
 * than 4000 characters goes out as consecutive 4000-character slices,
 * anything shorter as a single message.
 */
module Chunking {
  import opened Text

  const ChunkSize: nat := 4000

  /** `len(range(0, n, 4000))`: how many slices a reply of length `n` makes. */
  function ChunkCount(n: nat): nat
  {
    (n + ChunkSize - 1) / ChunkSize
  }

  /** `[response[i:i+4000] for i in range(0, len(response), 4000)]`. */
  function Chunks(s: string): (cs: seq<string>)
    ensures |cs| == ChunkCount(|s|)
    ensures forall i :: 0 <= i < |cs| ==> 0 < |cs[i]| <= ChunkSize
    ensures forall i :: 0 <= i < |cs| - 1 ==> |cs[i]| == ChunkSize
  {
    seq(ChunkCount(|s|), i requires 0 <= i < ChunkCount(|s|) =>
      s[i * ChunkSize .. Min((i + 1) * ChunkSize, |s|)])
  }

  /** A reply longer than one slice is its first slice followed by the
      slices of the rest. */
  lemma ChunksUnfold(s: string)
    requires |s| > ChunkSize
    ensures Chunks(s) == [s[..ChunkSize]] + Chunks(s[ChunkSize..])
  {
    var cs, rest := Chunks(s), Chunks(s[ChunkSize..]);
    assert |cs| == 1 + |rest|;
    forall i | 1 <= i < |cs|
      ensures cs[i] == rest[i - 1]
    {
      var lo, hi := i * ChunkSize, Min((i + 1) * ChunkSize, |s|);
      assert (i - 1) * ChunkSize == lo - ChunkSize;
      assert Min(i * ChunkSize, |s| - ChunkSize) == hi - ChunkSize;
      assert rest[i - 1] == s[ChunkSize..][lo - ChunkSize .. hi - ChunkSize];
      assert s[ChunkSize..][lo - ChunkSize .. hi - ChunkSize] == s[lo..hi];
    }
  }

  /** Joining the slices gives back the reply exactly. */
  lemma {:induction false} ChunksConcat(s: string)
    ensures Concat(Chunks(s)) == s
    decreases |s|
  {
    if |s| > ChunkSize {
      ChunksUnfold(s);
      ChunksConcat(s[ChunkSize..]);
      assert [s[..ChunkSize]] + Chunks(s[ChunkSize..]) != [];
    } else if s != [] {
      assert ChunkCount(|s|) == 1;
      assert Chunks(s)[0] == s[0..|s|] == s;
      assert Chunks(s) == [s];
    } else {
      assert Chunks(s) == [];
    }
  }

  /** The messages sent for one reply (bot.py and bot_gemini_free.py both
      branch on `len(response) > 4000`). */
  function Replies(response: string): (sends: seq<string>)
    ensures 1 <= |sends|
    ensures forall i :: 0 <= i < |sends| ==> |sends[i]| <= ChunkSize
    ensures Concat(sends) == response
    ensures |response| <= ChunkSize ==> sends == [response]
    ensures |response| > ChunkSize ==> forall i :: 0 <= i < |sends| - 1 ==> |sends[i]| == ChunkSize
  {
    if |response| > ChunkSize then
      ChunksConcat(response);
      Chunks(response)
    else
      assert Concat([response]) == response + Concat([]);
      [response]
  }

  /** The length test only matters for the empty reply: every non-empty
      reply is sent as exactly its slices. */
  lemma RepliesAreChunks(response: string)
    requires response != ""
    ensures Replies(response) == Chunks(response)
  {
    if |response| <= ChunkSize {
      assert ChunkCount(|response|) == 1;
      assert Chunks(response)[0] == response[0..|response|];
    }
  }
}
