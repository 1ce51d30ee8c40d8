/**
 The generation loop. Sampler, vocabulary, decoder, clock and the two flags are
 oracles indexed by the iteration; the callback sees the texts delivered so far.
 */
module Generation {
  import opened Basics
  import opened StopWindow

  datatype World = World(
    shutdown: nat -> bool, cancelled: nat -> bool,
    elapsed: nat -> real, limit: real,
    sample: nat -> int, eos: int,
    piece: nat -> Text,      // the bytes of the token's text
    decode: nat -> int,
    stops: seq<Text>)

  /** Does the callback accept the last of these texts, having accepted the others? */
  type Callback = seq<Text> -> bool

  datatype Exit = Shutdown | Cancelled | TimeLimit | Eos | StopMatch | Refused | DecodeFailed | Length

  function Reason(x: Exit): Text {
    match x
    case Shutdown => "abort"
    case Cancelled => "abort"
    case TimeLimit => "time_limit"
    case Eos => "stop"
    case StopMatch => "stop"
    case Refused => "abort"
    case DecodeFailed => "backend_error"
    case Length => "length"
  }

  /** A piece as the callback sees it: up to the first NUL. */
  function CString(t: Text): (r: Text)
    ensures r <= t && '\0' !in r && (|r| < |t| ==> t[|r|] == '\0')
    ensures '\0' !in t ==> r == t
  {
    if t == "" || t[0] == '\0' then "" else [t[0]] + CString(t[1..])
  }

  /** The first n pieces, as bytes and as delivered. */
  function Pieces(w: World, n: nat): (r: seq<Text>)
    ensures |r| == n && forall i :: 0 <= i < n ==> r[i] == w.piece(i)
  {
    seq(n, i requires 0 <= i < n => w.piece(i))
  }

  function Delivered(w: World, n: nat): (r: seq<Text>)
    ensures |r| == n && forall i :: 0 <= i < n ==> r[i] == CString(w.piece(i))
  {
    seq(n, i requires 0 <= i < n => CString(w.piece(i)))
  }

  function Output(w: World, n: nat): Text { Concat(Pieces(w, n)) }

  lemma OutputStep(w: World, n: nat)
    ensures Output(w, n + 1) == Output(w, n) + w.piece(n)
    ensures Delivered(w, n + 1) == Delivered(w, n) + [CString(w.piece(n))]
  {
    assert Pieces(w, n + 1)[..n] == Pieces(w, n);
  }

  /** What ends iteration i, most urgent first, if the iterations before it ended nothing. */
  function EventAt(w: World, cb: Callback, i: nat): Option<Exit> {
    if w.shutdown(i) then Some(Shutdown)
    else if w.cancelled(i) then Some(Cancelled)
    else if i % 32 == 0 && w.elapsed(i) > w.limit then Some(TimeLimit)
    else if w.sample(i) == w.eos then Some(Eos)
    else if Stopped(Output(w, i + 1), w.stops) then Some(StopMatch)
    else if !cb(Delivered(w, i + 1)) then Some(Refused)
    else if w.decode(i) != 0 then Some(DecodeFailed)
    else None
  }

  /** Nothing ends the first k iterations. */
  ghost predicate Quiet(w: World, cb: Callback, k: nat) {
    forall i :: 0 <= i < k ==> EventAt(w, cb, i) == None
  }

  /** The run ends in iteration k with x: the earliest event, or the token limit. */
  ghost predicate EndsAt(w: World, cb: Callback, maxGen: nat, k: nat, x: Exit) {
    && k <= maxGen && Quiet(w, cb, k)
    && (if k < maxGen then EventAt(w, cb, k) == Some(x) else x == Length)
  }

  // ----- the same in terms of the oracles -----

  /** Nobody ends the run before iteration i samples a token. */
  predicate Admitted(w: World, i: nat) {
    !w.shutdown(i) && !w.cancelled(i) && (i % 32 == 0 ==> w.elapsed(i) <= w.limit)
  }

  /** The token of iteration i is text, and its text is due for delivery. */
  predicate Due(w: World, i: nat) {
    Admitted(w, i) && w.sample(i) != w.eos && !Stopped(Output(w, i + 1), w.stops)
  }

  /** Iteration i goes through: its text is accepted and its token decoded. */
  predicate Passes(w: World, cb: Callback, i: nat) {
    Due(w, i) && cb(Delivered(w, i + 1)) && w.decode(i) == 0
  }

  /** k iterations go through, and x says what keeps the next one from it. */
  ghost predicate Course(w: World, cb: Callback, maxGen: nat, k: nat, x: Exit) {
    && k <= maxGen
    && (forall i :: 0 <= i < k ==> Passes(w, cb, i))
    && (k < maxGen ==> !Passes(w, cb, k))
    && (x == Length <==> k == maxGen)
    && (x == Shutdown <==> k < maxGen && w.shutdown(k))
    && (x == Cancelled <==> k < maxGen && !w.shutdown(k) && w.cancelled(k))
    && (x == TimeLimit <==> k < maxGen && !w.shutdown(k) && !w.cancelled(k) && k % 32 == 0 && w.elapsed(k) > w.limit)
    && (x == Eos <==> k < maxGen && Admitted(w, k) && w.sample(k) == w.eos)
    && (x == StopMatch <==>
         k < maxGen && Admitted(w, k) && w.sample(k) != w.eos && Stopped(Output(w, k + 1), w.stops))
    && (x == Refused <==> k < maxGen && Due(w, k) && !cb(Delivered(w, k + 1)))
    && (x == DecodeFailed <==> k < maxGen && Due(w, k) && cb(Delivered(w, k + 1)) && w.decode(k) != 0)
  }

  lemma EventMeans(w: World, cb: Callback, i: nat)
    ensures var e := EventAt(w, cb, i);
            && (e == None <==> Passes(w, cb, i))
            && (e == Some(Shutdown) <==> w.shutdown(i))
            && (e == Some(Cancelled) <==> !w.shutdown(i) && w.cancelled(i))
            && (e == Some(TimeLimit) <==>
                 !w.shutdown(i) && !w.cancelled(i) && i % 32 == 0 && w.elapsed(i) > w.limit)
            && (e == Some(Eos) <==> Admitted(w, i) && w.sample(i) == w.eos)
            && (e == Some(StopMatch) <==>
                 Admitted(w, i) && w.sample(i) != w.eos && Stopped(Output(w, i + 1), w.stops))
            && (e == Some(Refused) <==> Due(w, i) && !cb(Delivered(w, i + 1)))
            && (e == Some(DecodeFailed) <==> Due(w, i) && cb(Delivered(w, i + 1)) && w.decode(i) != 0)
            && e != Some(Length)
  {
  }

  /** The earliest event and its kind, read off the oracles. */
  lemma CourseMeans(w: World, cb: Callback, maxGen: nat, k: nat, x: Exit)
    ensures EndsAt(w, cb, maxGen, k, x) <==> Course(w, cb, maxGen, k, x)
  {
    forall i | 0 <= i < k ensures EventAt(w, cb, i) == None <==> Passes(w, cb, i) {
      EventMeans(w, cb, i);
    }
    if k < maxGen {
      EventMeans(w, cb, k);
    }
  }

  /** The finish reason that the client is told, read off the oracles. */
  ghost predicate Told(w: World, cb: Callback, maxGen: nat, k: nat, reason: Text) {
    && (reason == "length" <==> k == maxGen)
    && (reason == "stop" <==>
         k < maxGen && Admitted(w, k) && (w.sample(k) == w.eos || Stopped(Output(w, k + 1), w.stops)))
    && (reason == "time_limit" <==>
         k < maxGen && !w.shutdown(k) && !w.cancelled(k) && k % 32 == 0 && w.elapsed(k) > w.limit)
    && (reason == "abort" <==>
         k < maxGen && (w.shutdown(k) || w.cancelled(k) || (Due(w, k) && !cb(Delivered(w, k + 1)))))
    && (reason == "backend_error" <==>
         k < maxGen && Due(w, k) && cb(Delivered(w, k + 1)) && w.decode(k) != 0)
  }

  lemma ReasonMeans(w: World, cb: Callback, maxGen: nat, k: nat, x: Exit)
    requires Course(w, cb, maxGen, k, x)
    ensures Told(w, cb, maxGen, k, Reason(x))
  {
    ReasonsDiffer(x);
  }

  lemma ReasonsDiffer(x: Exit)
    ensures Reason(x) == "length" <==> x == Length
    ensures Reason(x) == "stop" <==> x == Eos || x == StopMatch
    ensures Reason(x) == "time_limit" <==> x == TimeLimit
    ensures Reason(x) == "abort" <==> x == Shutdown || x == Cancelled || x == Refused
    ensures Reason(x) == "backend_error" <==> x == DecodeFailed
  {
    assert |"length"| == 6 && |"stop"| == 4 && |"time_limit"| == 10 && |"abort"| == 5 && |"backend_error"| == 13;
  }

  /** A token counts as generated once it has a text. */
  function Generated(k: nat, x: Exit): nat {
    if x == StopMatch || x == Refused || x == DecodeFailed then k + 1 else k
  }

  /** A token counts as delivered once the callback has accepted it. */
  function Accepted(k: nat, x: Exit): nat {
    if x == DecodeFailed then k + 1 else k
  }

  /** The piece enters the window, and the stop strings are compared with its end;
      this decides whether the whole output ends with one. */
  method Observe(window: array<char>, len: nat, ghost output: Text, piece: Text, stops: seq<Text>)
    returns (len': nat, hit: bool)
    requires window.Length == STOP_LEN + 1 && len <= STOP_LEN && ValidStops(stops)
    requires window[..len] == Tail(output)
    modifies window
    ensures len' <= STOP_LEN && window[..len'] == Tail(output + piece)
    ensures hit <==> Stopped(output + piece, stops)
  {
    TailStep(output, piece);
    len' := Push(window, len, piece);
    hit := Matches(window, len', stops);
    TailStops(output + piece, stops);
  }

  /** One iteration of the loop. */
  method Iterate(w: World, cb: Callback, window: array<char>, len: nat, k: nat, delivered: seq<Text>)
    returns (event: Option<Exit>, len': nat, counted: nat, delivered': seq<Text>)
    requires ValidStops(w.stops)
    requires window.Length == STOP_LEN + 1 && len <= STOP_LEN
    requires |w.stops| > 0 ==> window[..len] == Tail(Output(w, k))
    requires delivered == Delivered(w, k)
    modifies window
    ensures event == EventAt(w, cb, k)
    ensures len' <= STOP_LEN
    ensures event == None && |w.stops| > 0 ==> window[..len'] == Tail(Output(w, k + 1))
    ensures counted == if event == None then 1 else Generated(0, event.value)
    ensures delivered' == Delivered(w, if event == None || event.value == DecodeFailed then k + 1 else k)
  {
    len', counted, delivered' := len, 0, delivered;
    if w.shutdown(k) {
      event := Some(Shutdown);
      return;
    }
    if w.cancelled(k) {
      event := Some(Cancelled);
      return;
    }
    if k % 32 == 0 && w.elapsed(k) > w.limit {
      event := Some(TimeLimit);
      return;
    }
    if w.sample(k) == w.eos {
      event := Some(Eos);
      return;
    }
    var piece := w.piece(k);
    counted := 1;
    OutputStep(w, k);
    if |w.stops| > 0 {
      var hit;
      len', hit := Observe(window, len, Output(w, k), piece, w.stops);
      if hit {
        event := Some(StopMatch);
        return;
      }
    }
    if !cb(delivered + [CString(piece)]) {
      event := Some(Refused);
      return;
    }
    delivered' := delivered + [CString(piece)];
    event := if w.decode(k) != 0 then Some(DecodeFailed) else None;
  }

  method Generate(w: World, cb: Callback, maxGen: nat)
    returns (x: Exit, k: nat, completion: nat, delivered: seq<Text>)
    requires ValidStops(w.stops)
    ensures EndsAt(w, cb, maxGen, k, x) && Course(w, cb, maxGen, k, x)
    ensures completion == Generated(k, x)
    ensures completion == if x == StopMatch || x == Refused || x == DecodeFailed then k + 1 else k
    ensures delivered == Delivered(w, Accepted(k, x))
    ensures |delivered| == if x == DecodeFailed then k + 1 else k
    ensures forall i :: 0 <= i < |delivered| ==> delivered[i] == CString(w.piece(i))
  {
    var window := new char[STOP_LEN + 1](_ => '\0');
    var len: nat := 0;
    k, completion, delivered := 0, 0, [];
    x := Length;
    while k < maxGen
      invariant k <= maxGen && completion == k && delivered == Delivered(w, k) && x == Length
      invariant Quiet(w, cb, k)
      invariant fresh(window) && window.Length == STOP_LEN + 1 && len <= STOP_LEN
      invariant |w.stops| > 0 ==> window[..len] == Tail(Output(w, k))
    {
      var event, counted;
      event, len, counted, delivered := Iterate(w, cb, window, len, k, delivered);
      completion := completion + counted;
      if event.Some? {
        Ended(w, cb, maxGen, k);
        CourseMeans(w, cb, maxGen, k, event.value);
        return event.value, k, completion, delivered;
      }
      QuietStep(w, cb, k);
      k := k + 1;
    }
    CourseMeans(w, cb, maxGen, k, x);
  }

  lemma QuietStep(w: World, cb: Callback, k: nat)
    requires Quiet(w, cb, k) && EventAt(w, cb, k) == None
    ensures Quiet(w, cb, k + 1)
  {
  }

  /** The first event of a run ends it. */
  lemma Ended(w: World, cb: Callback, maxGen: nat, k: nat)
    requires k < maxGen && EventAt(w, cb, k).Some?
    requires Quiet(w, cb, k)
    ensures EndsAt(w, cb, maxGen, k, EventAt(w, cb, k).value) && EventAt(w, cb, k).value != Length
  {
  }

  // ----- what the outcome means -----

  /** The outcome of a run is determined by its oracles. */
  lemma EndUnique(w: World, cb: Callback, maxGen: nat, k1: nat, x1: Exit, k2: nat, x2: Exit)
    requires EndsAt(w, cb, maxGen, k1, x1) && EndsAt(w, cb, maxGen, k2, x2)
    ensures k1 == k2 && x1 == x2
  {
  }

  /** Every run has an outcome. */
  lemma {:induction false} EndExists(w: World, cb: Callback, maxGen: nat) returns (k: nat, x: Exit)
    ensures EndsAt(w, cb, maxGen, k, x)
  {
    k := 0;
    while k < maxGen && EventAt(w, cb, k) == None
      invariant k <= maxGen && Quiet(w, cb, k)
    {
      k := k + 1;
    }
    x := if k < maxGen then EventAt(w, cb, k).value else Length;
  }

  /** completion_tokens is one more than the callbacks that accepted exactly when
      the run ended with a stop string or a refusal, and never exceeds the limit. */
  lemma TokenAccounting(w: World, cb: Callback, maxGen: nat, k: nat, x: Exit)
    requires EndsAt(w, cb, maxGen, k, x)
    ensures Generated(k, x) <= maxGen
    ensures Generated(k, x) == |Delivered(w, Accepted(k, x))| + (if x == StopMatch || x == Refused then 1 else 0)
    ensures x == Length ==> Generated(k, x) == maxGen
  {
    if k < maxGen { assert EventAt(w, cb, k).value != Length; }
  }

  /** A stop string ends the run at the first token after which the whole output
      ends with one; no text delivered before ended with one. */
  lemma StopsAtFirstMatch(w: World, cb: Callback, maxGen: nat, k: nat, x: Exit, i: nat)
    requires EndsAt(w, cb, maxGen, k, x) && i < maxGen
    requires Stopped(Output(w, i + 1), w.stops)
    ensures k <= i
    ensures x == StopMatch ==> Stopped(Output(w, k + 1), w.stops)
    ensures forall m :: 0 < m <= k ==> !Stopped(Output(w, m), w.stops)
  {
    assert EventAt(w, cb, i).Some?;
    forall m | 0 < m <= k ensures !Stopped(Output(w, m), w.stops) {
      assert EventAt(w, cb, m - 1) == None;
    }
  }

  /** The clock is read every 32 iterations, so once the limit has passed before
      iteration t at most 31 more tokens are generated, 32 with the one under way. */
  lemma DeadlineBound(w: World, cb: Callback, maxGen: nat, k: nat, x: Exit, t: nat)
    requires EndsAt(w, cb, maxGen, k, x)
    requires forall i, j :: 0 <= i <= j ==> w.elapsed(i) <= w.elapsed(j)
    requires w.elapsed(t) > w.limit
    ensures Generated(k, x) <= t + 31
  {
    var check := (t + 31) / 32 * 32;
    assert t <= check <= t + 31 && check % 32 == 0;
    assert w.elapsed(check) > w.limit;
    assert EventAt(w, cb, check).Some?;
    assert k <= check;
  }
}
