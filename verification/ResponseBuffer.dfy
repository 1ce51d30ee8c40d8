/** The buffer that collects the text of a non-streaming response. */
module ResponseBuffer {
  import opened Basics

  /** PROF_CONTENT_MAX and the smallest initial capacity. */
  const CONTENT_MAX: nat := 65536
  const MIN_CAP: nat := 8192

  /** The capacity the worker starts with. */
  function InitialCap(maxTokens: int): (cap: nat)
    ensures 8192 <= cap <= 65536
    ensures 8192 <= 16 * maxTokens <= 65536 ==> cap == 16 * maxTokens
    ensures 16 * maxTokens < 8192 ==> cap == 8192
    ensures 16 * maxTokens > 65536 ==> cap == 65536
  {
    var cap := if maxTokens > 0 then maxTokens * 16 else MIN_CAP;
    if cap < MIN_CAP then MIN_CAP else if cap > CONTENT_MAX then CONTENT_MAX else cap
  }

  /** The capacity that accum_token_cb asks for when n more bytes do not fit. */
  function GrownCap(cap: nat, len: nat, n: nat): (r: nat)
    ensures r <= 65536
    ensures r == 2 * cap || r == len + n + 1 || r == 65536
    ensures r < 65536 ==> r >= 2 * cap && r >= len + n + 1
    ensures r == len + n + 1 || r == 65536 || len + n + 1 < 2 * cap
  {
    var doubled := if cap * 2 < len + n + 1 then len + n + 1 else cap * 2;
    if doubled > CONTENT_MAX then CONTENT_MAX else doubled
  }

  class Buffer {
    var buf: array<char>
    var len: nat
    ghost var reallocs: nat   // how often the buffer was reallocated

    /** Each reallocation doubles the capacity or reaches the limit for good. */
    ghost predicate Valid()
      reads this, buf
    {
      && len < buf.Length <= CONTENT_MAX && MIN_CAP <= buf.Length
      && buf[len] == '\0'
      && AtMostThree(buf.Length, reallocs)
    }

    ghost function Contents(): Text
      requires len <= buf.Length
      reads this, buf
    {
      buf[..len]
    }

    constructor (maxTokens: int)
      ensures Valid() && fresh(buf) && Contents() == "" && reallocs == 0
      ensures buf.Length == InitialCap(maxTokens)
    {
      buf := new char[InitialCap(maxTokens)](_ => '\0');
      len, reallocs := 0, 0;
    }

    /** accum_token_cb. `allocates` says whether realloc would succeed. */
    method Append(t: Text, cancelled: bool, allocates: bool) returns (rc: int)
      requires Valid()
      modifies this, buf
      ensures Valid() && (buf == old(buf) || fresh(buf))
      ensures rc == 0 || rc == -1
      ensures rc == 0 ==> Contents() == old(Contents()) + t
      ensures rc == -1 ==> Contents() == old(Contents()) && buf == old(buf) && reallocs == old(reallocs)
      ensures rc == 0 <==> !cancelled && old(len) + |t| <= 65535
                           && (old(len) + |t| < old(buf.Length) || allocates)
      ensures reallocs == old(reallocs) + (if buf == old(buf) then 0 else 1)
      ensures buf == old(buf) <==> rc == -1 || old(len) + |t| < old(buf.Length)
      ensures buf != old(buf) ==> buf.Length == GrownCap(old(buf.Length), old(len), |t|)
    {
      if cancelled {
        return -1;
      }
      ghost var text := Contents();
      if len + |t| >= buf.Length {
        var cap := GrownCap(buf.Length, len, |t|);
        if len + |t| >= cap {
          return -1;
        }
        if !allocates {
          return -1;
        }
        var previous, used := buf, len;
        buf := new char[cap](i requires 0 <= i < cap reads previous =>
                               if i < used && i < previous.Length then previous[i] else '\0');
        reallocs := reallocs + 1;
      }
      assert buf[..len] == text;
      forall i | 0 <= i < |t| {
        buf[len + i] := t[i];
      }
      len := len + |t|;
      buf[len] := '\0';
      assert buf[..len] == text + t;
      return 0;
    }
  }

  /** Three doublings lead from 8 KiB to the limit, where no more growth is possible. */
  ghost predicate AtMostThree(cap: nat, reallocs: nat) {
    && reallocs <= 3
    && (reallocs == 1 ==> cap >= 2 * MIN_CAP)
    && (reallocs == 2 ==> cap >= 4 * MIN_CAP)
    && (reallocs == 3 ==> cap == CONTENT_MAX)
  }

  /** The copy of the buffer into the response truncates nothing. */
  lemma ReplyNotCut(b: Buffer)
    requires b.Valid()
    ensures Fitted(b.Contents(), CONTENT_MAX) == b.Contents()
  {
  }

  /** The callback offered a sequence of tokens, with realloc always succeeding: the
      text is what came before the first token that would have reached 64 KiB. */
  method Collect(tokens: seq<Text>, maxTokens: int) returns (text: Text, n: nat)
    ensures n <= |tokens| && text == Concat(tokens[..n]) && |text| <= 65535
    ensures n < |tokens| ==> |Concat(tokens[..n + 1])| > 65535
  {
    var b := new Buffer(maxTokens);
    n := 0;
    while n < |tokens|
      invariant n <= |tokens| && fresh(b) && fresh(b.buf) && b.Valid()
      invariant b.Contents() == Concat(tokens[..n])
    {
      assert tokens[..n + 1][..n] == tokens[..n];
      var rc := b.Append(tokens[n], false, true);
      if rc != 0 {
        break;
      }
      n := n + 1;
    }
    text := b.buf[..b.len];
  }
}
