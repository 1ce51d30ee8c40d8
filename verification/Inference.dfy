/** inference_complete: tokenizing, the context budget, the prompt batches, the loop. */
module Inference {
  import opened Basics
  import opened StopWindow
  import opened Generation
  import opened Params

  /** What the two tokenizer calls return: the size, then the count and the tokens. */
  datatype Tokenizer = Tokenizer(sized: int, count: int, tokens: seq<int>)

  /** The second call returns at most the number of tokens the first one asked for. */
  predicate Honest(t: Tokenizer) {
    && Int32(t.sized) && t.sized != -INT_MAX - 1
    && (t.count < 0 || (t.count == |t.tokens| && t.count <= Abs(t.sized)))
  }

  function Abs(v: int): (r: nat)
    ensures r == v || r == -v
  {
    if v < 0 then -v else v
  }

  datatype Outcome = Outcome(rc: int, reason: Text, promptTokens: int, completionTokens: int)

  /** The decoder, for the prompt: the number of the call and the chunk. It rejects
      a chunk without tokens. */
  type PromptDecoder = (nat, seq<int>) -> int

  ghost predicate RejectsEmpty(d: PromptDecoder) { forall n :: d(n, []) != 0 }

  function Flatten(chunks: seq<seq<int>>): seq<int> {
    if chunks == [] then [] else Flatten(chunks[..|chunks| - 1]) + chunks[|chunks| - 1]
  }

  /** Every chunk but the last is full, and the last is not empty. */
  predicate Batched(chunks: seq<seq<int>>, nBatch: int) {
    && (forall i :: 0 <= i < |chunks| ==> 0 < |chunks[i]| <= nBatch)
    && (forall i :: 0 <= i < |chunks| - 1 ==> |chunks[i]| == nBatch)
  }

  /** What becomes of the tokens that are left when the decoder was called n times: its
      verdict and the chunks it is given. */
  function Feeding(tokens: seq<int>, nBatch: int, decode: PromptDecoder, n: nat): (int, seq<seq<int>>)
    decreases |tokens|
  {
    if tokens == [] then (0, [])
    else if nBatch < 1 then (decode(n, []), [[]])
    else
      var k := if nBatch < |tokens| then nBatch else |tokens|;
      var rc := decode(n, tokens[..k]);
      if rc != 0 then (rc, [tokens[..k]])
      else
        var (last, rest) := Feeding(tokens[k..], nBatch, decode, n + 1);
        (last, [tokens[..k]] + rest)
  }

  /** The decoder has accepted the chunks `fed`, which hold the first `done` tokens. */
  ghost predicate Underway(tokens: seq<int>, nBatch: int, decode: PromptDecoder, fed: seq<seq<int>>, done: nat)
    requires done <= |tokens|
  {
    var (rc, rest) := Feeding(tokens[done..], nBatch, decode, |fed|);
    Feeding(tokens, nBatch, decode, 0) == (rc, fed + rest)
  }

  lemma Begun(tokens: seq<int>, nBatch: int, decode: PromptDecoder)
    ensures Underway(tokens, nBatch, decode, [], 0)
  {
    var (_, all) := Feeding(tokens, nBatch, decode, 0);
    assert tokens[0..] == tokens && [] + all == all;
  }

  /** How many tokens the next batch holds, and which. */
  function Next(left: int, nBatch: int): int { if left > nBatch then nBatch else left }

  function Part(tokens: seq<int>, done: nat, chunk: int): seq<int>
    requires done <= |tokens| && done + chunk <= |tokens|
  {
    if chunk > 0 then tokens[done..done + chunk] else []
  }

  lemma Advance(tokens: seq<int>, nBatch: int, decode: PromptDecoder, fed: seq<seq<int>>, done: nat)
    requires RejectsEmpty(decode) && done < |tokens| && Underway(tokens, nBatch, decode, fed, done)
    ensures var chunk := Next(|tokens| - done, nBatch);
            var part := Part(tokens, done, chunk);
            var rc := decode(|fed|, part);
            if rc == 0 then chunk > 0 && Underway(tokens, nBatch, decode, fed + [part], done + chunk)
            else Feeding(tokens, nBatch, decode, 0) == (rc, fed + [part])
  {
    var left := tokens[done..];
    var chunk := Next(|left|, nBatch);
    var part := Part(tokens, done, chunk);
    if nBatch >= 1 {
      assert part == left[..chunk] && left[chunk..] == tokens[done + chunk..];
      if decode(|fed|, part) == 0 {
        var (_, rest) := Feeding(left[chunk..], nBatch, decode, |fed| + 1);
        assert fed + ([part] + rest) == (fed + [part]) + rest;
      }
    }
  }

  lemma Finish(tokens: seq<int>, nBatch: int, decode: PromptDecoder, fed: seq<seq<int>>, done: nat)
    requires done == |tokens| && Underway(tokens, nBatch, decode, fed, done)
    ensures Feeding(tokens, nBatch, decode, 0) == (0, fed)
  {
    assert tokens[done..] == [] && fed + [] == fed;
  }

  lemma {:induction false} FlattenFront(c: seq<int>, chunks: seq<seq<int>>)
    ensures Flatten([c] + chunks) == c + Flatten(chunks)
  {
    var all := [c] + chunks;
    if chunks == [] {
      assert all[..0] == [] && Flatten([]) == [];
    } else {
      var n := |chunks| - 1;
      assert all[..n + 1] == [c] + chunks[..n] && all[n + 1] == chunks[n];
      FlattenFront(c, chunks[..n]);
      assert (c + Flatten(chunks[..n])) + chunks[n] == c + (Flatten(chunks[..n]) + chunks[n]);
    }
  }

  /** What feeding achieves: all the tokens in order, in full chunks but for the last, or
      the first chunks up to the one that the decoder rejected. */
  ghost predicate Fed(tokens: seq<int>, nBatch: int, decode: PromptDecoder, n: nat,
                      rc: int, fed: seq<seq<int>>) {
    && (rc == 0 ==> Flatten(fed) == tokens && Batched(fed, nBatch))
    && (rc != 0 ==> fed != [] && decode(n + |fed| - 1, fed[|fed| - 1]) == rc && Flatten(fed) <= tokens)
    && (forall i :: 0 <= i < |fed| ==> decode(n + i, fed[i]) == 0 || (rc != 0 && i == |fed| - 1))
    && (nBatch < 1 && tokens != [] ==> rc != 0)
  }

  lemma {:induction false} FeedingMeans(tokens: seq<int>, nBatch: int, decode: PromptDecoder, n: nat)
    requires RejectsEmpty(decode)
    ensures var (rc, fed) := Feeding(tokens, nBatch, decode, n); Fed(tokens, nBatch, decode, n, rc, fed)
    decreases |tokens|
  {
    if tokens != [] {
      if nBatch < 1 {
        FlattenFront([], []);
      } else {
        var k := if nBatch < |tokens| then nBatch else |tokens|;
        var part := tokens[..k];
        FlattenFront(part, []);
        if decode(n, part) == 0 {
          FeedingMeans(tokens[k..], nBatch, decode, n + 1);
          FedMore(tokens, k, nBatch, decode, n, Feeding(tokens[k..], nBatch, decode, n + 1).0,
                  Feeding(tokens[k..], nBatch, decode, n + 1).1);
        }
      }
    }
  }

  lemma FedMore(tokens: seq<int>, k: nat, nBatch: int, decode: PromptDecoder, n: nat,
                rc: int, rest: seq<seq<int>>)
    requires 0 < k <= nBatch && k <= |tokens| && (k < |tokens| ==> k == nBatch)
    requires decode(n, tokens[..k]) == 0 && Fed(tokens[k..], nBatch, decode, n + 1, rc, rest)
    ensures Fed(tokens, nBatch, decode, n, rc, [tokens[..k]] + rest)
  {
    var fed := [tokens[..k]] + rest;
    FlattenFront(tokens[..k], rest);
    assert tokens == tokens[..k] + tokens[k..];
    forall i | 0 <= i < |fed|
      ensures decode(n + i, fed[i]) == 0 || (rc != 0 && i == |fed| - 1)
    {
      if i > 0 {
        assert fed[i] == rest[i - 1] && n + i == n + 1 + (i - 1);
      }
    }
    if rc == 0 {
      FlattenNothing(rest);
      assert forall i :: 0 < i < |fed| ==> fed[i] == rest[i - 1];
    } else {
      assert fed[|fed| - 1] == rest[|rest| - 1] && n + |fed| - 1 == n + 1 + |rest| - 1;
    }
  }

  /** Without tokens there are no chunks that the decoder could accept. */
  lemma FlattenNothing(chunks: seq<seq<int>>)
    ensures chunks != [] && Flatten(chunks) == [] ==> chunks[|chunks| - 1] == []
  {
  }

  /** The loop that feeds the prompt in batches; `fed` is what decode was given. */
  method FeedPrompt(tokens: seq<int>, nBatch: int, decode: PromptDecoder)
    returns (rc: int, fed: seq<seq<int>>)
    requires RejectsEmpty(decode)
    ensures (rc, fed) == Feeding(tokens, nBatch, decode, 0)
    ensures Fed(tokens, nBatch, decode, 0, rc, fed)
  {
    var processed := 0;
    fed := [];
    Begun(tokens, nBatch, decode);
    while processed < |tokens|
      invariant 0 <= processed <= |tokens|
      invariant Underway(tokens, nBatch, decode, fed, processed)
    {
      var chunk := |tokens| - processed;
      if chunk > nBatch {
        chunk := nBatch;
      }
      Advance(tokens, nBatch, decode, fed, processed);
      var part := Part(tokens, processed, chunk);
      rc := decode(|fed|, part);
      fed := fed + [part];
      if rc != 0 {
        FeedingMeans(tokens, nBatch, decode, 0);
        return;
      }
      processed := processed + chunk;
    }
    Finish(tokens, nBatch, decode, fed, processed);
    FeedingMeans(tokens, nBatch, decode, 0);
    rc := 0;
  }

  /** The number of chunks is the rounded-up quotient: one fewer would not do. */
  lemma {:induction false} ChunkCount(chunks: seq<seq<int>>, nBatch: int)
    requires nBatch >= 1 && Batched(chunks, nBatch)
    ensures |Flatten(chunks)| <= nBatch * |chunks|
    ensures chunks != [] ==> nBatch * (|chunks| - 1) < |Flatten(chunks)|
  {
    if chunks != [] {
      FullChunks(chunks[..|chunks| - 1], nBatch);
      assert nBatch * |chunks| == nBatch * (|chunks| - 1) + nBatch;
    }
  }

  lemma {:induction false} FullChunks(chunks: seq<seq<int>>, nBatch: int)
    requires forall i :: 0 <= i < |chunks| ==> |chunks[i]| == nBatch
    ensures |Flatten(chunks)| == nBatch * |chunks|
  {
    if chunks != [] {
      FullChunks(chunks[..|chunks| - 1], nBatch);
      assert nBatch * |chunks| == nBatch * (|chunks| - 1) + nBatch;
    }
  }

  /** The prompt became tokens that leave room in the context. */
  predicate Tokenized(nCtx: int, t: Tokenizer, allocates: bool) {
    t.sized != 0 && Abs(t.sized) < nCtx && allocates && t.count >= 0
  }

  /** inference_complete. The flags say whether the two allocations succeed. */
  method Complete(nCtx: int, nBatch: int, t: Tokenizer, allocates: bool, decode: PromptDecoder,
                  sampler: bool, w: World, cb: Callback, maxTokens: int)
    returns (o: Outcome, fed: seq<seq<int>>, delivered: seq<Text>)
    requires RejectsEmpty(decode) && ValidStops(w.stops) && Honest(t)
    requires ValidConfig(nCtx, maxTokens)
    ensures o.rc == 0 || o.rc == -1
    ensures fed == if Tokenized(nCtx, t, allocates) then Feeding(t.tokens, nBatch, decode, 0).1 else []
    ensures o.rc == 0 <==>
      Tokenized(nCtx, t, allocates) && Feeding(t.tokens, nBatch, decode, 0).0 == 0 && sampler
    ensures o.promptTokens == if Tokenized(nCtx, t, allocates) then t.count else 0
    // success: the whole prompt was fed and the loop ran to its first event
    ensures o.rc == 0 ==>
      && t.sized != 0 && Abs(t.sized) < nCtx && allocates && t.count >= 0 && sampler
      && o.promptTokens == t.count && Flatten(fed) == t.tokens && Batched(fed, nBatch)
      && 1 <= MaxGen(t.count, maxTokens, nCtx)
      && exists k, x :: EndsAt(w, cb, MaxGen(t.count, maxTokens, nCtx), k, x)
                        && o.completionTokens == Generated(k, x) && o.reason == Reason(x)
                        && delivered == Delivered(w, Accepted(k, x))
                        && Course(w, cb, MaxGen(t.count, maxTokens, nCtx), k, x)
                        && Told(w, cb, MaxGen(t.count, maxTokens, nCtx), k, o.reason)
    ensures o.rc == -1 ==>
      || t.sized == 0 || Abs(t.sized) >= nCtx || !allocates || t.count < 0 || !sampler
      || (fed != [] && decode(|fed| - 1, fed[|fed| - 1]) != 0)
    // failure: nothing was generated, and the reason says why
    ensures o.rc == -1 ==>
      && o.completionTokens == 0 && delivered == []
      && (o.reason == "context_overflow" || o.reason == "backend_error")
      && (o.reason == "context_overflow" <==>
           t.sized != 0 && (Abs(t.sized) >= nCtx
                            || (fed != [] && decode(|fed| - 1, fed[|fed| - 1]) == 1)))
    // the budget
    ensures 0 <= o.promptTokens && 0 <= o.completionTokens && |Flatten(fed)| <= o.promptTokens
    ensures Int32(t.count + maxTokens) ==> o.promptTokens + o.completionTokens <= nCtx
    // the total reported to the client is the exact sum
    ensures Int32(t.count + maxTokens) ==>
      Wrap32(o.promptTokens + o.completionTokens) == o.promptTokens + o.completionTokens
  {
    fed, delivered := [], [];
    if t.sized == 0 {
      o := Outcome(-1, "backend_error", 0, 0);
      return;
    }
    var nTokens := Abs(t.sized);
    if nTokens >= nCtx {
      o := Outcome(-1, "context_overflow", 0, 0);
      return;
    }
    if !allocates {
      o := Outcome(-1, "backend_error", 0, 0);
      return;
    }
    var nPrompt := t.count;
    if nPrompt < 0 {
      o := Outcome(-1, "backend_error", 0, 0);
      return;
    }
    var maxGen := MaxGen(nPrompt, maxTokens, nCtx);
    if maxGen <= 0 {
      assert false;  // the second overflow exit is dead
    }
    var rc;
    rc, fed := FeedPrompt(t.tokens, nBatch, decode);
    if rc != 0 {
      o := Outcome(-1, if rc == 1 then "context_overflow" else "backend_error", nPrompt, 0);
      return;
    }
    if !sampler {
      o := Outcome(-1, "backend_error", nPrompt, 0);
      return;
    }
    var x, k, completion;
    x, k, completion, delivered := Generate(w, cb, maxGen);
    TokenAccounting(w, cb, maxGen, k, x);
    ReasonMeans(w, cb, maxGen, k, x);
    o := Outcome(0, Reason(x), nPrompt, completion);
  }
}
