/**
 * Splitting a completion response into messages the chat transport accepts
 * (index.js:150-158).
 *
 * A JavaScript string is a sequence of UTF-16 code units and `length`
 * counts code units. The regular expression `/.{1,4000}/gs` has the `s`
 * flag, so `.` also matches line terminators, and no `u` flag, so `.`
 * matches exactly one code unit (half of a surrogate pair on its own).
 * Matching it globally is greedy: each match takes the next 4000 code
 * units, or all that remain when fewer are left.
 */
module Chunking {

  /** One UTF-16 code unit. */
  newtype CodeUnit = x: int | 0 <= x < 0x1_0000

  /** A JavaScript string, as the program measures and slices it. */
  type Text = seq<CodeUnit>

  /** The per-message size limit the handler splits at. */
  const ChunkLimit: nat := 4000

  /** The pieces that `text.match(/.{1,4000}/gs)` returns, in order; no
      pieces for the empty string (where `match` returns null). */
  function Chunks(s: Text): seq<Text>
    decreases |s|
  {
    if |s| == 0 then []
    else if |s| <= ChunkLimit then [s]
    else [s[..ChunkLimit]] + Chunks(s[ChunkLimit..])
  }

  /** The pieces joined back together. */
  function Concat(parts: seq<Text>): Text
  {
    if parts == [] then [] else parts[0] + Concat(parts[1..])
  }

  /** The number of messages a text of length n needs: ceil(n / 4000). */
  function PieceCount(n: nat): nat
  {
    (n + ChunkLimit - 1) / ChunkLimit
  }

  /** Every piece is non-empty and at most one message long. */
  ghost predicate PiecesBounded(parts: seq<Text>)
  {
    forall i :: 0 <= i < |parts| ==> 0 < |parts[i]| <= ChunkLimit
  }

  /** Every piece but the last is exactly one message long. */
  ghost predicate FullExceptLast(parts: seq<Text>)
  {
    forall i :: 0 <= i < |parts| - 1 ==> |parts[i]| == ChunkLimit
  }

  /** The replies the handler sends for a successful response: the response
      itself when it fits one message, its pieces otherwise (index.js:151-158). */
  function ResponseMessages(response: Text): seq<Text>
  {
    if |response| > ChunkLimit then Chunks(response) else [response]
  }

  /** Joining the pieces gives back the response exactly. */
  lemma {:induction false} ChunksConcat(s: Text)
    ensures Concat(Chunks(s)) == s
    decreases |s|
  {
    if |s| > ChunkLimit {
      var rest := Chunks(s[ChunkLimit..]);
      ChunksConcat(s[ChunkLimit..]);
      assert Chunks(s) == [s[..ChunkLimit]] + rest;
      assert ([s[..ChunkLimit]] + rest)[1..] == rest;
      assert s[..ChunkLimit] + s[ChunkLimit..] == s;
    }
  }

  /** Every piece is non-empty and at most 4000 units; all but the last are
      exactly 4000 units. */
  lemma {:induction false} ChunksShape(s: Text)
    ensures PiecesBounded(Chunks(s))
    ensures FullExceptLast(Chunks(s))
    decreases |s|
  {
    if |s| > ChunkLimit {
      ChunksShape(s[ChunkLimit..]);
      var rest := Chunks(s[ChunkLimit..]);
      assert Chunks(s) == [s[..ChunkLimit]] + rest;
      assert |rest| > 0 by { assert 0 < |s[ChunkLimit..]|; }
      forall i | 0 < i < |Chunks(s)|
        ensures Chunks(s)[i] == rest[i - 1]
      {
      }
    }
  }

  /** There are ceil(L / 4000) pieces for a text of length L. */
  lemma {:induction false} ChunksCount(s: Text)
    ensures |Chunks(s)| == PieceCount(|s|)
    decreases |s|
  {
    if |s| > ChunkLimit {
      ChunksCount(s[ChunkLimit..]);
      assert PieceCount(|s|) == PieceCount(|s| - ChunkLimit) + 1;
    }
  }

  /** Piece i is the slice of the text from 4000 * i, 4000 units long or
      up to the end of the text. */
  lemma {:induction false} ChunkAt(s: Text, i: nat)
    requires i < |Chunks(s)|
    ensures ChunkLimit * i < |s|
    ensures Chunks(s)[i] == s[ChunkLimit * i .. Min(ChunkLimit * (i + 1), |s|)]
    decreases |s|
  {
    if |s| > ChunkLimit && i > 0 {
      var t := s[ChunkLimit..];
      assert Chunks(s)[i] == Chunks(t)[i - 1];
      ChunkAt(t, i - 1);
      var lo, hi := ChunkLimit * (i - 1), Min(ChunkLimit * i, |t|);
      assert Chunks(t)[i - 1] == t[lo..hi];
      assert ChunkLimit * i == ChunkLimit + lo;
      assert Min(ChunkLimit * (i + 1), |s|) == ChunkLimit + hi;
      assert t[lo..hi] == s[ChunkLimit + lo .. ChunkLimit + hi];
    }
  }

  function Min(a: int, b: int): int { if a <= b then a else b }

  /** The split is the only one with the law's shape: any sequence of
      non-empty pieces of at most 4000 units, all but the last full, that
      joins back to `s` is `Chunks(s)`. */
  lemma {:induction false} ChunksUnique(s: Text, parts: seq<Text>)
    requires Concat(parts) == s
    requires PiecesBounded(parts)
    requires FullExceptLast(parts)
    ensures parts == Chunks(s)
    decreases |parts|
  {
    if parts != [] {
      var rest := parts[1..];
      assert PiecesBounded(rest) by {
        forall i | 0 <= i < |rest| ensures 0 < |rest[i]| <= ChunkLimit { assert rest[i] == parts[i + 1]; }
      }
      assert FullExceptLast(rest) by {
        forall i | 0 <= i < |rest| - 1 ensures |rest[i]| == ChunkLimit { assert rest[i] == parts[i + 1]; }
      }
      assert s == parts[0] + Concat(rest);
      if rest == [] {
        assert Concat(rest) == [];
        assert s == parts[0];
      } else {
        assert |parts[0]| == ChunkLimit;
        ConcatNonEmpty(rest);
        assert s[..ChunkLimit] == parts[0];
        assert s[ChunkLimit..] == Concat(rest);
        ChunksUnique(s[ChunkLimit..], rest);
      }
    }
  }

  /** Non-empty pieces join to a non-empty text. */
  lemma ConcatNonEmpty(parts: seq<Text>)
    requires parts != []
    requires PiecesBounded(parts)
    ensures |Concat(parts)| > 0
  {
  }

  /** The messages sent for a successful response: one message equal to the
      response when it fits, otherwise the 4000-unit pieces; in both cases
      they join back to the response and each one fits a message. */
  lemma ResponseMessagesLaw(response: Text)
    ensures Concat(ResponseMessages(response)) == response
    ensures forall i :: 0 <= i < |ResponseMessages(response)| ==> |ResponseMessages(response)[i]| <= ChunkLimit
    ensures |response| <= ChunkLimit ==> ResponseMessages(response) == [response]
    ensures |response| > ChunkLimit ==>
      && |ResponseMessages(response)| == PieceCount(|response|) >= 2
      && PiecesBounded(ResponseMessages(response))
      && FullExceptLast(ResponseMessages(response))
  {
    if |response| > ChunkLimit {
      ChunksConcat(response);
      ChunksShape(response);
      ChunksCount(response);
    } else {
      assert Concat([response]) == response + Concat([]);
    }
  }

  /** The split ignores code-point boundaries: a surrogate pair that
      straddles unit 4000 ends up in two different messages. */
  lemma SurrogatePairCanBeSplit()
    ensures exists s: Text ::
      && |s| == ChunkLimit + 1
      && |Chunks(s)| == 2
      && Chunks(s)[0][ChunkLimit - 1] == 0xD83D
      && Chunks(s)[1] == [0xDE00]
  {
    var s: Text := seq(ChunkLimit + 1, (i: int) => if i == ChunkLimit - 1 then 0xD83D else if i == ChunkLimit then 0xDE00 else 0x61);
    assert Chunks(s) == [s[..ChunkLimit]] + Chunks(s[ChunkLimit..]);
    assert s[ChunkLimit..] == [0xDE00];
    assert Chunks(s) == [s[..ChunkLimit], [0xDE00]];
  }
}
