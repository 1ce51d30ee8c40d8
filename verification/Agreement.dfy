/** When streaming and non-streaming requests over the same oracles give the same answer. */
module Agreement {
  import opened Basics
  import opened StopWindow
  import opened Generation
  import opened ResponseBuffer
  import opened Protocol
  import opened ProtocolTheorems
  import opened Driven
  import opened Params
  import opened Inference
  import DrivenRuns

  /** The streaming callback of a job that is not cancelled refuses nothing. */
  const STREAMING: Callback := history => true

  /** The collecting callback of a job that is not cancelled, with realloc succeeding,
      refuses the token that would bring the text to 64 KiB. */
  const COLLECTING: Callback := history => |Concat(history)| < CONTENT_MAX

  /** Until the run ends, no event comes from the callback: the same as with one that
      accepts everything. */
  lemma SameEvents(w: World, n: nat, i: nat)
    requires i < n && |Concat(Delivered(w, n))| < CONTENT_MAX
    ensures EventAt(w, COLLECTING, i) == EventAt(w, STREAMING, i)
  {
    assert Delivered(w, i + 1) == Delivered(w, n)[..i + 1];
    ConcatPrefix(Delivered(w, n), i + 1);
  }

  /** Both runs end at the same token for the same reason, and count the same tokens, if
      and only if the text that the streaming run delivers fits a response. */
  lemma SameEnd(w: World, maxGen: nat, k: nat, x: Exit)
    requires EndsAt(w, STREAMING, maxGen, k, x)
    ensures EndsAt(w, COLLECTING, maxGen, k, x) <==> COLLECTING(Delivered(w, Accepted(k, x)))
  {
    var n := Accepted(k, x);
    if COLLECTING(Delivered(w, n)) {
      forall i | 0 <= i < k ensures EventAt(w, COLLECTING, i) == None {
        SameEvents(w, n, i);
      }
      if k < n {
        SameEvents(w, n, k);
      }
    } else {
      TooMuch(w, maxGen, k, x);
    }
  }

  /** What the collecting run delivers always fits. */
  lemma ReplyFits(w: World, maxGen: nat, k: nat, x: Exit)
    requires EndsAt(w, COLLECTING, maxGen, k, x)
    ensures COLLECTING(Delivered(w, Accepted(k, x)))
  {
    var n := Accepted(k, x);
    if n > 0 {
      assert EventAt(w, COLLECTING, n - 1) == None || EventAt(w, COLLECTING, n - 1) == Some(DecodeFailed);
    } else {
      assert Delivered(w, 0) == [];
    }
  }

  lemma TooMuch(w: World, maxGen: nat, k: nat, x: Exit)
    requires EndsAt(w, STREAMING, maxGen, k, x)
    requires |Concat(Delivered(w, Accepted(k, x)))| >= CONTENT_MAX
    ensures !EndsAt(w, COLLECTING, maxGen, k, x)
  {
    var n := Accepted(k, x);
    assert n > 0 by { assert Delivered(w, 0) == []; }
    assert !COLLECTING(Delivered(w, n));
    assert EventAt(w, STREAMING, n - 1) == None || EventAt(w, STREAMING, n - 1) == Some(DecodeFailed);
    assert EventAt(w, COLLECTING, n - 1) == Some(Refused);
  }

  predicate AllShort(ts: seq<Text>) { forall i :: 0 <= i < |ts| ==> |ts[i]| < TEXT_MAX }

  /** The frames of a stream carry each text cut to 127 bytes; together they are the
      delivered text exactly if no delivered piece is longer. */
  lemma FramesAreText(ts: seq<Text>)
    ensures Concat(CutAll(ts)) == Concat(ts) <==> AllShort(ts)
  {
    CutLength(ts);
    if AllShort(ts) {
      assert CutAll(ts) == ts;
    }
  }

  lemma {:induction false} CutLength(ts: seq<Text>)
    ensures |Concat(CutAll(ts))| <= |Concat(ts)|
    ensures |Concat(CutAll(ts))| == |Concat(ts)| ==> AllShort(ts)
  {
    if ts != [] {
      var n := |ts| - 1;
      CutLength(ts[..n]);
      assert CutAll(ts)[..n] == CutAll(ts[..n]);
      assert forall i :: 0 <= i < n ==> ts[..n][i] == ts[i];
    }
  }

  /** The two runs agree, in the token and the reason they end with and in that the frames
      add up to the reply, if and only if no delivered text is longer than 127 bytes and
      all of them together fit a response. */
  lemma StreamEqualsReply(w: World, maxGen: nat, k: nat, x: Exit, k': nat, x': Exit)
    requires EndsAt(w, STREAMING, maxGen, k, x) && EndsAt(w, COLLECTING, maxGen, k', x')
    ensures var (ts, ts') := (Delivered(w, Accepted(k, x)), Delivered(w, Accepted(k', x')));
            && (k == k' && x == x' <==> COLLECTING(ts))
            && (ts == ts' <==> COLLECTING(ts))
            && (k == k' && x == x' && Concat(CutAll(ts)) == Concat(ts') <==> AllShort(ts) && COLLECTING(ts))
  {
    SameEnd(w, maxGen, k, x);
    ReplyFits(w, maxGen, k', x');
    if COLLECTING(Delivered(w, Accepted(k, x))) {
      EndUnique(w, COLLECTING, maxGen, k, x, k', x');
    }
    FramesAreText(Delivered(w, Accepted(k, x)));
  }

  /** The same through the protocol: two jobs of any two runs that get their tokens from
      the same generation loop, one streaming and finalised by the test under the ring's
      lock, one answered in one piece. Both were given the same if and only if what the
      stream was given fits a response, and then the loop ended alike for both; and then
      the chunks add up to the reply if and only if no text is longer than 127 bytes. */
  lemma AnswersAgree(run: seq<State>, i: JobId, run': seq<State>, j: JobId, w: World, maxGen: nat,
                     k: nat, x: Exit)
    requires Streamed(run, i, w, maxGen) && Replied(run', j, w, maxGen)
    requires EndsAt(w, STREAMING, maxGen, k, x)
    ensures var (b, b') := (run[|run| - 1].jobs[i], run'[|run'| - 1].jobs[j]);
            && b.given == Delivered(w, Accepted(k, x))
            && b.out == [Headers] + Deltas(b.framed) + [FinalChunk, DoneMark] && b'.out == [Reply(b'.given)]
            && (b.given == b'.given <==> COLLECTING(b.given))
            && (EndsAt(w, COLLECTING, maxGen, k, x) <==> COLLECTING(b.given))
            && (COLLECTING(b.given) ==> (Concat(b.framed) == Concat(b'.given) <==> AllShort(b.given)))
  {
    AnsweredInFull(run, i, w, STREAMING, maxGen);
    AnsweredInFull(run', j, w, COLLECTING, maxGen);
    var (s, t) := (run[|run| - 1], run'[|run'| - 1]);
    DeliversThis(s.jobs[i].given, w, STREAMING, maxGen, k, x);
    var k', x' :| EndsAt(w, COLLECTING, maxGen, k', x') && t.jobs[j].given == Delivered(w, Accepted(k', x'));
    StreamEqualsReply(w, maxGen, k, x, k', x');
    SameEnd(w, maxGen, k, x);
    assert Reachable(s) && Reachable(t);
    FullStream(s, i);
    ReplyComplete(t, j);
    FramesAreText(s.jobs[i].given);
  }

  /** The run ends with a stream that was finalised by the test under the ring's lock. */
  ghost predicate Streamed(run: seq<State>, i: JobId, w: World, maxGen: nat) {
    && IsRun(run) && DrivenBy(run, i, w, STREAMING, maxGen)
    && var s := run[|run| - 1];
       i in s.jobs && s.jobs[i].stream && s.jobs[i].answers > 0 && s.jobs[i].viaDone
  }

  /** The run ends with an answer in one piece. */
  ghost predicate Replied(run: seq<State>, j: JobId, w: World, maxGen: nat) {
    && IsRun(run) && DrivenBy(run, j, w, COLLECTING, maxGen)
    && var t := run[|run| - 1];
       j in t.jobs && !t.jobs[j].stream && t.jobs[j].answers > 0
  }

  /** For every generation there are such runs. */
  lemma AnswersExist(w: World, maxGen: nat)
    ensures exists run: seq<State>, run': seq<State> :: Streamed(run, 0, w, maxGen) && Replied(run', 0, w, maxGen)
  {
    var k, x := EndExists(w, STREAMING, maxGen);
    var k', x' := EndExists(w, COLLECTING, maxGen);
    var (p, p') := (DrivenRuns.Plan(w, STREAMING, maxGen), DrivenRuns.Plan(w, COLLECTING, maxGen));
    DrivenRuns.StreamExists(p, k, x);
    DrivenRuns.ReplyExists(p', k', x');
    var s :| DrivenRuns.Guided(s, p) && DrivenRuns.Answered(s, true, p, k, x);
    var t :| DrivenRuns.Guided(t, p') && DrivenRuns.Answered(t, false, p', k', x');
    var run: seq<State> :| IsRun(run) && run[|run| - 1] == s && DrivenBy(run, 0, w, STREAMING, maxGen);
    var run': seq<State> :| IsRun(run') && run'[|run'| - 1] == t && DrivenBy(run', 0, w, COLLECTING, maxGen);
    assert Streamed(run, 0, w, maxGen) && Replied(run', 0, w, maxGen);
  }

  lemma DeliversThis(given: seq<Text>, w: World, cb: Callback, maxGen: nat, k: nat, x: Exit)
    requires AllDelivered(given, w, cb, maxGen) && EndsAt(w, cb, maxGen, k, x)
    ensures given == Delivered(w, Accepted(k, x))
  {
    var k', x' :| EndsAt(w, cb, maxGen, k', x') && given == Delivered(w, Accepted(k', x'));
    EndUnique(w, cb, maxGen, k, x, k', x');
  }

  lemma FullStream(s: State, i: JobId)
    requires Reachable(s) && i in s.jobs && s.jobs[i].stream && s.jobs[i].answers > 0 && s.jobs[i].viaDone
    ensures s.jobs[i].framed == CutAll(s.jobs[i].given)
    ensures s.jobs[i].out == [Headers] + Deltas(s.jobs[i].framed) + [FinalChunk, DoneMark]
  {
    StreamConserved(s, i);
    StreamEnding(s, i);
    assert s.jobs[i].given[..s.jobs[i].seen] == s.jobs[i].given;
  }

  /** inference_complete on the same prompt with either callback: the same result and the
      same prompt tokens. If it succeeds, both deliver the same texts if and only if those
      of the stream fit a response, and then the reason and the completion tokens are the
      same, too; and then the frames add up to the reply if and only if no text is longer
      than 127 bytes. */
  method BothWays(nCtx: int, nBatch: int, t: Tokenizer, allocates: bool, decode: PromptDecoder,
                  sampler: bool, w: World, maxTokens: int)
    returns (stream: Outcome, streamed: seq<Text>, reply: Outcome, collected: seq<Text>)
    requires RejectsEmpty(decode) && ValidStops(w.stops) && Honest(t)
    requires ValidConfig(nCtx, maxTokens)
    ensures stream.rc == reply.rc && stream.promptTokens == reply.promptTokens
    ensures stream.rc != 0 ==> stream == reply && streamed == collected == []
    ensures streamed == collected <==> COLLECTING(streamed)
    ensures COLLECTING(streamed) ==>
      stream == reply && (Concat(CutAll(streamed)) == Concat(collected) <==> AllShort(streamed))
  {
    var fed;
    stream, fed, streamed := Complete(nCtx, nBatch, t, allocates, decode, sampler, w, STREAMING, maxTokens);
    reply, fed, collected := Complete(nCtx, nBatch, t, allocates, decode, sampler, w, COLLECTING, maxTokens);
    if stream.rc == 0 {
      SameOutcome(w, MaxGen(t.count, maxTokens, nCtx), stream, streamed, reply, collected);
    }
    FramesAreText(streamed);
  }

  ghost predicate Ended(w: World, cb: Callback, maxGen: nat, o: Outcome, delivered: seq<Text>) {
    exists k, x :: EndsAt(w, cb, maxGen, k, x) && o.completionTokens == Generated(k, x)
                   && o.reason == Reason(x) && delivered == Delivered(w, Accepted(k, x))
  }

  lemma SameOutcome(w: World, maxGen: nat, o: Outcome, ts: seq<Text>, o': Outcome, ts': seq<Text>)
    requires Ended(w, STREAMING, maxGen, o, ts) && Ended(w, COLLECTING, maxGen, o', ts')
    ensures ts == ts' <==> COLLECTING(ts)
    ensures COLLECTING(ts) ==> o.reason == o'.reason && o.completionTokens == o'.completionTokens
  {
    var k, x :| EndsAt(w, STREAMING, maxGen, k, x) && o.completionTokens == Generated(k, x)
                && o.reason == Reason(x) && ts == Delivered(w, Accepted(k, x));
    var k', x' :| EndsAt(w, COLLECTING, maxGen, k', x') && o'.completionTokens == Generated(k', x')
                  && o'.reason == Reason(x') && ts' == Delivered(w, Accepted(k', x'));
    StreamEqualsReply(w, maxGen, k, x, k', x');
  }
}
