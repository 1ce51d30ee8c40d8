/** The rolling window of the generation loop: the last 64 bytes of the whole output. */
module StopWindow {
  import opened Basics

  /** PROF_STOP_MAX and PROF_STOP_LEN. The window can hold PROF_STOP_LEN bytes. */
  const STOP_MAX: nat := 4
  const STOP_LEN: nat := 64

  /** The last 64 bytes of a text, or all of it. */
  function Tail(t: Text): (r: Text)
    ensures |r| <= STOP_LEN && |r| <= |t|
    ensures |t| <= STOP_LEN ==> r == t
  {
    if |t| <= STOP_LEN then t else t[|t| - STOP_LEN..]
  }

  predicate EndsWith(t: Text, suffix: Text) {
    |suffix| <= |t| && t[|t| - |suffix|..] == suffix
  }

  /** The output ends with one of the stop strings; an empty one never matches. */
  predicate Stopped(t: Text, stops: seq<Text>) {
    exists i :: 0 <= i < |stops| && stops[i] != "" && EndsWith(t, stops[i])
  }

  /** In other words: the output is something followed by a stop string that is not empty. */
  lemma StoppedMeans(t: Text, stops: seq<Text>)
    ensures Stopped(t, stops) <==> exists s, before: Text :: s in stops && s != "" && t == before + s
  {
    if Stopped(t, stops) {
      var i :| 0 <= i < |stops| && stops[i] != "" && EndsWith(t, stops[i]);
      assert t == t[..|t| - |stops[i]|] + stops[i];
    }
    if s, before: Text :| s in stops && s != "" && t == before + s {
      var i :| 0 <= i < |stops| && stops[i] == s;
      assert t[|t| - |s|..] == s;
    }
  }

  /** What a request can bring: at most 4 stop strings that fit their arrays. */
  predicate ValidStops(stops: seq<Text>) {
    |stops| <= STOP_MAX && forall s :: s in stops ==> |s| < STOP_LEN
  }

  /** The window can be maintained from the window alone. */
  lemma TailStep(t: Text, piece: Text)
    ensures Tail(Tail(t) + piece) == Tail(t + piece)
  {
    if |t| > STOP_LEN {
      var d := |t| - STOP_LEN;
      assert t == t[..d] + Tail(t);
      assert t + piece == t[..d] + (Tail(t) + piece);
    }
  }

  /** A stop string that fits the window ends the output iff it ends the window. */
  lemma TailStops(t: Text, stops: seq<Text>)
    requires ValidStops(stops)
    ensures Stopped(Tail(t), stops) <==> Stopped(t, stops)
  {
    forall s | s in stops ensures EndsWith(Tail(t), s) <==> EndsWith(t, s) {
      if |t| > STOP_LEN {
        var w := Tail(t);
        assert t[|t| - |s|..] == w[|w| - |s|..];
      }
    }
    forall i | 0 <= i < |stops| ensures EndsWith(Tail(t), stops[i]) <==> EndsWith(t, stops[i]) {
      assert stops[i] in stops;
    }
  }

  /** memmove to the front: the first `shift` bytes leave the window. */
  method ShiftOut(window: array<char>, len: nat, shift: nat)
    requires shift <= len <= window.Length
    modifies window
    ensures window[..len - shift] == old(window[shift..len])
  {
    forall i | 0 <= i < len - shift {
      window[i] := window[shift + i];
    }
  }

  /** memcpy to the end: the piece is appended. */
  method CopyIn(window: array<char>, len: nat, piece: Text)
    requires len + |piece| < window.Length
    modifies window
    ensures window[..len + |piece|] == old(window[..len]) + piece
    ensures window[len + |piece|] == '\0'
  {
    forall i | 0 <= i < |piece| {
      window[len + i] := piece[i];
    }
    window[len + |piece|] := '\0';
  }

  /** One piece enters the window, in place: shifted in, or cut to its own tail. */
  method Push(window: array<char>, len: nat, piece: Text) returns (len': nat)
    requires window.Length == STOP_LEN + 1 && len <= STOP_LEN
    modifies window
    ensures len' <= STOP_LEN && window[..len'] == Tail(old(window[..len]) + piece)
  {
    ghost var was := window[..len];
    len' := len;
    var last := piece;
    if |piece| > STOP_LEN {
      len' := 0;
      last := piece[|piece| - STOP_LEN..];
      assert Tail(was + piece) == last;
    } else if len + |piece| > STOP_LEN {
      var shift := len + |piece| - STOP_LEN;
      ShiftOut(window, len, shift);
      len' := len - shift;
      assert window[..len'] == was[shift..];
      assert Tail(was + piece) == was[shift..] + piece;
    }
    ghost var kept := window[..len'];
    CopyIn(window, len', last);
    len' := len' + |last|;
    assert kept + last == Tail(was + piece);
  }

  /** The suffix comparisons of the loop over the stop strings. */
  method Matches(window: array<char>, len: nat, stops: seq<Text>) returns (hit: bool)
    requires len <= window.Length
    ensures hit <==> Stopped(window[..len], stops)
  {
    var i := 0;
    while i < |stops|
      invariant i <= |stops|
      invariant forall k :: 0 <= k < i ==> stops[k] == "" || !EndsWith(window[..len], stops[k])
    {
      var n := |stops[i]|;
      if n > 0 && n <= len && window[len - n..len] == stops[i] {
        assert window[..len][len - n..] == window[len - n..len];
        return true;
      }
      if n <= len {
        assert window[..len][len - n..] == window[len - n..len];
      }
      i := i + 1;
    }
    return false;
  }
}
