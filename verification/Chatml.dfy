/** The ChatML prompt: what it looks like, how it is built, and that it can be read back. */
module Chatml {
  import opened Basics

  datatype Message = Message(role: Text, content: Text)

  const START: Text := "<|im_start|>"
  const END: Text := "<|im_end|>"
  const OPENING: Text := "<|im_start|>assistant\n"

  /** valid_role */
  predicate ValidRole(role: Text) {
    role == "system" || role == "user" || role == "assistant"
  }

  function One(m: Message): Text {
    START + m.role + "\n" + m.content + END + "\n"
  }

  function Render(ms: seq<Message>): Text {
    if ms == [] then OPENING else One(ms[0]) + Render(ms[1..])
  }

  /** The prompt, spelled out. */
  lemma RenderSpelled(m: Message, rest: seq<Message>)
    ensures Render([]) == "<|im_start|>assistant\n"
    ensures Render([m] + rest)
         == "<|im_start|>" + m.role + "\n" + m.content + "<|im_end|>\n" + Render(rest)
  {
    assert ([m] + rest)[1..] == rest;
    assert END + "\n" == "<|im_end|>\n";
    assert One(m) == START + m.role + "\n" + m.content + (END + "\n");
  }

  // ----- the two passes -----

  /** The size pass. */
  function Needed(ms: seq<Message>): nat {
    if ms == [] then 24
    else Needed(ms[..|ms| - 1]) + 13 + |ms[|ms| - 1].role| + 1 + |ms[|ms| - 1].content| + 12 + 1
  }

  /** The messages rendered so far, without the opening of the answer. */
  function Body(ms: seq<Message>): Text {
    if ms == [] then "" else Body(ms[..|ms| - 1]) + One(ms[|ms| - 1])
  }

  lemma {:induction false} BodyRender(ms: seq<Message>)
    ensures Render(ms) == Body(ms) + OPENING
  {
    if ms != [] {
      BodyRender(ms[1..]);
      BodyFront(ms);
      Associate(One(ms[0]), Body(ms[1..]), OPENING);
    }
  }

  lemma Associate(a: Text, b: Text, c: Text)
    ensures a + (b + c) == (a + b) + c
  {
  }

  lemma {:induction false} BodyFront(ms: seq<Message>)
    requires ms != []
    ensures Body(ms) == One(ms[0]) + Body(ms[1..])
  {
    var n := |ms| - 1;
    if n > 0 {
      BodyFront(ms[..n]);
      assert ms[..n][1..] == ms[1..][..n - 1];
      assert ms[1..][n - 1] == ms[n];
    } else {
      assert ms[..0] == [] && ms[1..] == [];
    }
  }

  /** The sizes add up, with 3 bytes to spare for each message and 2 for the opening. */
  lemma {:induction false} NeededExceeds(ms: seq<Message>)
    ensures Needed(ms) == |Body(ms)| + |OPENING| + 3 * |ms| + 2
  {
    if ms != [] {
      NeededExceeds(ms[..|ms| - 1]);
    }
  }

  /** snprintf at an offset: what fits in `room` bytes and a terminator; the length
      of the whole text is returned in any case. */
  method PrintAt(buf: array<char>, pos: nat, room: nat, t: Text) returns (w: nat)
    requires room > 0 && pos + room <= buf.Length
    modifies buf
    ensures w == |t|
    ensures buf[..pos] == old(buf[..pos])
    ensures |t| < room ==> buf[..pos + |t|] == old(buf[..pos]) + t && buf[pos + |t|] == '\0'
  {
    var n := if |t| < room then |t| else room - 1;
    forall i | 0 <= i < n {
      buf[pos + i] := t[i];
    }
    buf[pos + n] := '\0';
    w := |t|;
  }

  method SizePass(ms: seq<Message>) returns (needed: nat)
    ensures needed == Needed(ms)
  {
    needed := 0;
    var i := 0;
    while i < |ms|
      invariant i <= |ms| && needed + 24 == Needed(ms[..i])
    {
      assert ms[..i + 1][..i] == ms[..i];
      needed := needed + 13 + |ms[i].role| + 1 + |ms[i].content| + 12 + 1;
      i := i + 1;
    }
    assert ms[..i] == ms;
    needed := needed + 24;
  }

  /** build_chatml_prompt: no write is cut, and the length is exact. */
  method Build(ms: seq<Message>) returns (buf: array<char>, pos: nat, needed: nat)
    ensures fresh(buf) && buf.Length == needed + 1
    ensures pos < buf.Length && buf[..pos] == Render(ms) && buf[pos] == '\0'
    ensures needed == pos + 3 * |ms| + 2
  {
    needed := SizePass(ms);
    NeededExceeds(ms);
    buf := new char[needed + 1];
    pos := 0;
    var i := 0;
    while i < |ms|
      invariant i <= |ms| && pos == |Body(ms[..i])| && pos + 22 <= needed
      invariant fresh(buf) && buf.Length == needed + 1 && buf[..pos] == Body(ms[..i])
    {
      Prefix(ms, i);
      var w := PrintAt(buf, pos, needed + 1 - pos, One(ms[i]));
      pos := pos + w;
      i := i + 1;
    }
    assert ms[..i] == ms;
    BodyRender(ms);
    var w := PrintAt(buf, pos, needed + 1 - pos, OPENING);
    pos := pos + w;
  }

  lemma Prefix(ms: seq<Message>, k: nat)
    requires k < |ms|
    ensures Body(ms[..k + 1]) == Body(ms[..k]) + One(ms[k])
    ensures |Body(ms[..k + 1])| + 22 <= Needed(ms)
  {
    assert ms[..k + 1][..k] == ms[..k];
    NeededExceeds(ms);
    BodyMonotone(ms, k + 1);
  }

  lemma {:induction false} BodyMonotone(ms: seq<Message>, k: nat)
    requires k <= |ms|
    ensures |Body(ms[..k])| <= |Body(ms)|
  {
    if k < |ms| {
      BodyMonotone(ms[..|ms| - 1], k);
      assert ms[..|ms| - 1][..k] == ms[..k];
    } else {
      assert ms[..k] == ms;
    }
  }

  // ----- the size limit -----

  /** PROF_MAX_PROMPT_BYTES */
  const PROMPT_MAX: nat := 262144

  datatype Formatted = Prompt(text: Text) | Rejected(reason: Text)

  /** How inference_chat gets its prompt: by ChatML when the model has no template, by
      the model's template, or by ChatML again when the template yields nothing. `sized`,
      `rendered` and `actual` are what the template calls return; `room` and `space` say
      whether the copies of the messages and the prompt can be allocated. */
  method Format(ms: seq<Message>, noTemplate: bool, sized: int, actual: int, rendered: Text,
                room: bool, space: bool)
    returns (f: Formatted)
    requires actual <= |rendered|
    ensures f.Prompt? && (noTemplate || sized > 0) ==> |f.text| <= 262144
    ensures f.Prompt? ==>
              if noTemplate || sized <= 0 then f.text == Render(ms)
              else 0 < actual <= sized && f.text == rendered[..actual]
    ensures f.Prompt? || f == Rejected("context_overflow") || f == Rejected("backend_error")
    ensures f == Rejected("context_overflow") <==>
              if noTemplate then space && |Render(ms)| > 262144
              else room && sized > 262144
    ensures f == Rejected("backend_error") <==>
              if noTemplate then !space
              else !room || (sized <= 262144 && (!space || (sized > 0 && !(0 < actual <= sized))))
    ensures f.Prompt? && |f.text| > 262144
            <==> !noTemplate && sized <= 0 && room && space && |Render(ms)| > 262144
  {
    if !noTemplate && !room {
      return Rejected("backend_error");
    }
    if noTemplate || sized <= 0 {
      if !space {
        return Rejected("backend_error");
      }
      var buf, flen, _ := Build(ms);
      if noTemplate && flen > PROMPT_MAX {
        return Rejected("context_overflow");
      }
      return Prompt(buf[..flen]);
    }
    if sized > PROMPT_MAX {
      return Rejected("context_overflow");
    }
    if !space || actual <= 0 || actual > sized {
      return Rejected("backend_error");
    }
    return Prompt(rendered[..actual]);
  }

  function Big(n: nat): (ms: seq<Message>)
    ensures |ms| == n
  {
    seq(n, _ => Message("user", seq(65535, _ => 'a')))
  }

  lemma {:induction false} BigBody(n: nat)
    ensures |Body(Big(n))| >= 65559 * n
  {
    if n > 0 {
      BigBody(n - 1);
      assert Big(n)[..n - 1] == Big(n - 1);
    }
  }

  /** The second ChatML branch has no size check: four messages of the largest size
      that a request can hold go through, although they exceed the limit. */
  method LimitMissed() returns (ms: seq<Message>, f: Formatted)
    ensures forall m :: m in ms ==> ValidRole(m.role) && |m.content| < 65536
    ensures f == Prompt(Render(ms)) && |f.text| > 262144
  {
    ms := Big(4);
    TooBig(4);
    f := Format(ms, false, 0, 0, "", true, true);
  }

  lemma TooBig(n: nat)
    requires n >= 4
    ensures |Render(Big(n))| > PROMPT_MAX
  {
    BigBody(n);
    BodyRender(Big(n));
  }

  // ----- reading back -----

  predicate At(t: Text, x: Text, i: nat) { i + |x| <= |t| && t[i..i + |x|] == x }

  ghost predicate Contains(t: Text, x: Text) { exists i: nat :: At(t, x, i) }

  /** What stands between the content of a message and the content of the next one. */
  function Border(role: Text): Text { END + "\n" + START + role + "\n" }

  /** The content imitates the border to a message of some role. */
  ghost predicate Forged(content: Text) {
    exists role :: ValidRole(role) && Contains(content, Border(role))
  }

  predicate ValidRoles(ms: seq<Message>) {
    forall i :: 0 <= i < |ms| ==> ValidRole(ms[i].role)
  }

  ghost predicate AnyForged(ms: seq<Message>) {
    exists i :: 0 <= i < |ms| && Forged(ms[i].content)
  }

  /** The role and the text of the first message, or of the answer to come. */
  function FirstRole(ms: seq<Message>): Text { if ms == [] then "assistant" else ms[0].role }

  function FirstText(ms: seq<Message>): Text {
    if ms == [] then "" else ms[0].content + END + "\n" + Render(ms[1..])
  }

  lemma RenderShape(ms: seq<Message>)
    ensures Render(ms) == START + FirstRole(ms) + "\n" + FirstText(ms)
  {
    if ms != [] {
      var m := ms[0];
      assert START + m.role + "\n" + m.content + END + "\n" + Render(ms[1..])
          == START + m.role + "\n" + (m.content + END + "\n" + Render(ms[1..]));
    }
  }

  /** Behind the content of the first message comes a border, even behind the last one. */
  lemma TextShape(ms: seq<Message>)
    requires ms != []
    ensures FirstText(ms) == ms[0].content + Border(FirstRole(ms[1..])) + FirstText(ms[1..])
  {
    RenderShape(ms[1..]);
  }

  lemma FirstRoleValid(ms: seq<Message>)
    requires ValidRoles(ms)
    ensures ValidRole(FirstRole(ms))
  {
  }

  /** Roles have no newline, so the first line of a prompt tells the role. */
  lemma HeadsAgree(ms: seq<Message>, ns: seq<Message>)
    requires ValidRoles(ms) && ValidRoles(ns) && Render(ms) == Render(ns)
    ensures FirstRole(ms) == FirstRole(ns) && FirstText(ms) == FirstText(ns)
  {
    RenderShape(ms);
    RenderShape(ns);
    var (p, q) := (FirstRole(ms), FirstRole(ns));
    FirstRoleValid(ms);
    FirstRoleValid(ns);
    SameLine(p, q, FirstText(ms), FirstText(ns), Render(ms));
  }

  lemma SameLine(p: Text, q: Text, x: Text, y: Text, t: Text)
    requires ValidRole(p) && ValidRole(q)
    requires t == START + p + "\n" + x && t == START + q + "\n" + y
    ensures p == q && x == y
  {
    assert forall k :: 12 <= k < 12 + |p| ==> t[k] != '\n';
    assert forall k :: 12 <= k < 12 + |q| ==> t[k] != '\n';
    assert t[12 + |p|] == '\n' && t[12 + |q|] == '\n';
    assert t[12..12 + |p|] == p && t[12..12 + |q|] == q;
    assert t[13 + |p|..] == x && t[13 + |q|..] == y;
  }

  /** Borders do not overlap. */
  lemma Apart(t: Text, p: Text, m: nat, q: Text, n: nat)
    requires ValidRole(p) && ValidRole(q) && m < n
    requires At(t, Border(p), m) && At(t, Border(q), n)
    ensures m + |Border(p)| <= n
  {
    var (b, b') := (t[m..m + |Border(p)|], t[n..n + |Border(q)|]);
    assert b == Border(p) && b' == Border(q);
    assert b'[0] == '<' && b'[5] == 'e';
    assert t[n] == '<' && t[n + 5] == 'e';
    BorderMarks(p);
    assert t[m + 16] == b[16];
    assert forall k :: m < k < m + |Border(p)| && k != m + 11 ==> t[k] != '<' by {
      assert forall k :: m < k < m + |Border(p)| ==> t[k] == b[k - m];
    }
  }

  /** A border holds two opening brackets, and what follows the second is not the end marker. */
  lemma BorderMarks(p: Text)
    requires ValidRole(p)
    ensures Border(p)[16] == 's'
    ensures forall i :: 0 < i < |Border(p)| && i != 11 ==> Border(p)[i] != '<'
  {
    assert forall i :: 0 <= i < |p| ==> p[i] != '<';
    assert Border(p) == (END + "\n" + START) + (p + "\n");
  }

  /** If two contents are each followed by a border in the same text, the longer one
      holds the border of the shorter one. */
  lemma Inside(c: Text, p: Text, x: Text, c': Text, q: Text, y: Text)
    requires ValidRole(p) && ValidRole(q)
    requires c + Border(p) + x == c' + Border(q) + y && |c| < |c'|
    ensures |c| + |Border(p)| <= |c'|
    ensures c' == c + Border(p) + c'[|c| + |Border(p)|..]
    ensures x == c'[|c| + |Border(p)|..] + Border(q) + y
  {
    var t := c + Border(p) + x;
    Placed(c, Border(p), x);
    Placed(c', Border(q), y);
    Apart(t, p, |c|, q, |c'|);
    Recut(c, Border(p), x, c', Border(q), y);
  }

  lemma Placed(a: Text, b: Text, x: Text)
    ensures At(a + b + x, b, |a|)
  {
  }

  lemma Recut(a: Text, b: Text, x: Text, a': Text, b': Text, y: Text)
    requires a + b + x == a' + b' + y && |a| + |b| <= |a'|
    ensures var rest := a'[|a| + |b|..]; a' == a + b + rest && x == rest + b' + y
  {
    var (t, n) := (a + b + x, |a| + |b|);
    assert t[..n] == a + b && t[n..] == x;
    assert t == a' + (b' + y) && a'[..n] == t[..n];
    assert t[n..] == a'[n..] + (b' + y);
  }

  /** Of all conversations with the same prompt, one without forged contents has the
      most messages, and no other has as many. */
  lemma {:induction false} MostMessages(ms: seq<Message>, ns: seq<Message>)
    requires ValidRoles(ms) && ValidRoles(ns) && !AnyForged(ms) && Render(ms) == Render(ns)
    ensures ns == ms || |ns| < |ms|
    decreases |ms|
  {
    HeadsAgree(ms, ns);
    if ns != [] && ms != [] {
      TextShape(ms);
      TextShape(ns);
      var (c, p, x) := (ms[0].content, FirstRole(ms[1..]), FirstText(ms[1..]));
      var (c', q, y) := (ns[0].content, FirstRole(ns[1..]), FirstText(ns[1..]));
      FirstRoleValid(ms[1..]);
      FirstRoleValid(ns[1..]);
      NoneForged(ms);
      if |c'| < |c| {
        Inside(c', q, y, c, p, x);
        assert At(c, Border(q), |c'|);
        assert Contains(c, Border(q));
        assert false;
      } else if |c'| == |c| {
        SameContent(ms, ns);
        MostMessages(ms[1..], ns[1..]);
        assert ms == [ms[0]] + ms[1..] && ns == [ns[0]] + ns[1..];
      } else {
        Inside(c, p, x, c', q, y);
        var rest := c'[|c| + |Border(p)|..];
        Resumed(ms, ns, p, rest);
        MostMessages(ms[1..], [Message(p, rest)] + ns[1..]);
      }
    }
  }

  lemma NoneForged(ms: seq<Message>)
    requires ms != [] && !AnyForged(ms)
    ensures !Forged(ms[0].content) && !AnyForged(ms[1..])
  {
    forall i | 0 <= i < |ms| - 1 ensures !Forged(ms[1..][i].content) {
      assert !Forged(ms[i + 1].content);
    }
  }

  lemma SameContent(ms: seq<Message>, ns: seq<Message>)
    requires ms != [] && ns != [] && FirstText(ms) == FirstText(ns)
    requires |ms[0].content| == |ns[0].content|
    ensures ms[0].content == ns[0].content && Render(ms[1..]) == Render(ns[1..])
  {
    var (t, n) := (FirstText(ms), |ms[0].content|);
    assert t[..n] == ms[0].content && t[..n] == ns[0].content;
    assert t[n + 11..] == Render(ms[1..]) && t[n + 11..] == Render(ns[1..]);
  }

  /** The rest of a longer content, read as a message of its own. */
  lemma Resumed(ms: seq<Message>, ns: seq<Message>, p: Text, rest: Text)
    requires ms != [] && ns != [] && p == FirstRole(ms[1..])
    requires FirstText(ms[1..]) == rest + Border(FirstRole(ns[1..])) + FirstText(ns[1..])
    ensures Render([Message(p, rest)] + ns[1..]) == Render(ms[1..])
  {
    var one := [Message(p, rest)] + ns[1..];
    assert one[1..] == ns[1..];
    TextShape(one);
    RenderShape(one);
    RenderShape(ms[1..]);
  }

  /** Conversations without forged contents have different prompts if they differ. */
  lemma RenderInjective(ms: seq<Message>, ns: seq<Message>)
    requires ValidRoles(ms) && ValidRoles(ns) && !AnyForged(ms) && !AnyForged(ns)
    requires Render(ms) == Render(ns)
    ensures ms == ns
  {
    MostMessages(ms, ns);
    MostMessages(ns, ms);
  }

  /** In particular those of which no content holds an end marker. */
  lemma NoEndMarker(content: Text)
    requires !Contains(content, END)
    ensures !Forged(content)
  {
    forall role | ValidRole(role) ensures !Contains(content, Border(role)) {
      forall i: nat ensures !At(content, Border(role), i) {
        if At(content, Border(role), i) {
          assert content[i..i + |END|] == Border(role)[..|END|] == END;
          assert At(content, END, i);
        }
      }
    }
  }

  // ----- when a prompt can be misread -----

  /** Some conversation of more messages has the same prompt. */
  ghost predicate Misread(ms: seq<Message>) {
    exists ns :: ValidRoles(ns) && |ns| > |ms| && Render(ns) == Render(ms)
  }

  lemma {:induction false} RenderConcat(xs: seq<Message>, ys: seq<Message>)
    ensures Render(xs + ys) == Body(xs) + Render(ys)
  {
    if xs == [] {
      assert xs + ys == ys;
    } else {
      assert (xs + ys)[1..] == xs[1..] + ys;
      RenderConcat(xs[1..], ys);
      BodyFront(xs);
      Associate(One(xs[0]), Body(xs[1..]), Render(ys));
    }
  }

  /** A forged border splits its message in two. */
  lemma OneIsTwo(role: Text, a: Text, next: Text, b: Text)
    ensures One(Message(role, a + Border(next) + b)) == One(Message(role, a)) + One(Message(next, b))
  {
    var head := START + role + "\n" + a;
    var second := START + next + "\n" + b + END + "\n";
    assert One(Message(role, a)) == head + (END + "\n");
    assert One(Message(next, b)) == second;
    assert Border(next) + (b + (END + "\n")) == (END + "\n") + second;
    assert One(Message(role, a + Border(next) + b)) == head + (Border(next) + (b + (END + "\n")));
  }

  lemma TwoRendered(m: Message, n: Message, rest: seq<Message>)
    ensures Render([m, n] + rest) == One(m) + One(n) + Render(rest)
  {
    var two := [m, n] + rest;
    assert two[1..] == [n] + rest && two[1..][1..] == rest;
    Associate(One(m), One(n), Render(rest));
  }

  lemma Cleft(c: Text, x: Text, k: nat)
    requires At(c, x, k)
    ensures c == c[..k] + x + c[k + |x|..]
  {
  }

  /** The messages with m1 and m2 in the place of message i. */
  function InPlace(ms: seq<Message>, i: nat, m1: Message, m2: Message): seq<Message>
    requires i < |ms|
  {
    ms[..i] + ([m1, m2] + ms[i + 1..])
  }

  lemma Around(ms: seq<Message>, i: nat)
    requires i < |ms|
    ensures ms == ms[..i] + ([ms[i]] + ms[i + 1..])
  {
  }

  lemma OneRendered(m: Message, rest: seq<Message>)
    ensures Render([m] + rest) == One(m) + Render(rest)
  {
    assert ([m] + rest)[1..] == rest;
  }

  lemma SameRender(before: seq<Message>, m: Message, m1: Message, m2: Message, after: seq<Message>)
    requires One(m) == One(m1) + One(m2)
    ensures Render(before + ([m] + after)) == Render(before + ([m1, m2] + after))
  {
    RenderConcat(before, [m] + after);
    RenderConcat(before, [m1, m2] + after);
    OneRendered(m, after);
    TwoRendered(m1, m2, after);
  }

  lemma StillValid(ms: seq<Message>, i: nat, m1: Message, m2: Message)
    requires ValidRoles(ms) && i < |ms| && ValidRole(m1.role) && ValidRole(m2.role)
    ensures ValidRoles(InPlace(ms, i, m1, m2)) && |InPlace(ms, i, m1, m2)| == |ms| + 1
  {
  }

  lemma Splits(ms: seq<Message>, i: nat)
    requires ValidRoles(ms) && i < |ms| && Forged(ms[i].content)
    ensures Misread(ms)
  {
    var m := ms[i];
    var next :| ValidRole(next) && Contains(m.content, Border(next));
    var k: nat :| At(m.content, Border(next), k);
    Cleft(m.content, Border(next), k);
    var m1 := Message(m.role, m.content[..k]);
    var m2 := Message(next, m.content[k + |Border(next)|..]);
    OneIsTwo(m.role, m1.content, next, m2.content);
    Around(ms, i);
    SameRender(ms[..i], m, m1, m2, ms[i + 1..]);
    StillValid(ms, i, m1, m2);
  }

  /** A prompt can be misread as one of more messages exactly if some content holds a
      border: end marker, newline, start marker, a valid role, newline. */
  lemma MisreadIff(ms: seq<Message>)
    requires ValidRoles(ms)
    ensures Misread(ms) <==> AnyForged(ms)
  {
    if AnyForged(ms) {
      var i :| 0 <= i < |ms| && Forged(ms[i].content);
      Splits(ms, i);
    } else if Misread(ms) {
      var ns :| ValidRoles(ns) && |ns| > |ms| && Render(ns) == Render(ms);
      MostMessages(ms, ns);
    }
  }

  /** The prompt is one of another conversation, too. */
  ghost predicate Ambiguous(ms: seq<Message>) {
    exists ns :: ValidRoles(ns) && ns != ms && Render(ns) == Render(ms)
  }

  /** The first two messages, read as one. */
  function Fused(ms: seq<Message>): Message
    requires |ms| >= 2
  {
    Message(ms[0].role, ms[0].content + Border(ms[1].role) + ms[1].content)
  }

  lemma FusedRender(ms: seq<Message>)
    requires |ms| >= 2
    ensures Render([Fused(ms)] + ms[2..]) == Render(ms)
  {
    var (m1, m2, rest) := (ms[0], ms[1], ms[2..]);
    OneIsTwo(m1.role, m1.content, m2.role, m2.content);
    OneRendered(Fused(ms), rest);
    TwoRendered(m1, m2, rest);
    assert ms == [m1, m2] + rest;
  }

  /** A prompt is ambiguous exactly if it has at least two messages, which can be read as
      one, or a forged border, where one message can be read as two. */
  lemma AmbiguousIff(ms: seq<Message>)
    requires ValidRoles(ms)
    ensures Ambiguous(ms) <==> |ms| >= 2 || AnyForged(ms)
  {
    MisreadIff(ms);
    if |ms| >= 2 {
      FusedRender(ms);
      var ns := [Fused(ms)] + ms[2..];
      assert ValidRoles(ns) && |ns| < |ms|;
    } else if !AnyForged(ms) && Ambiguous(ms) {
      NothingLess(ms);
      var ns :| ValidRoles(ns) && ns != ms && Render(ns) == Render(ms);
      MostMessages(ms, ns);
    }
  }

  /** A single message renders to more than none. */
  lemma NothingLess(ms: seq<Message>)
    ensures |ms| == 1 ==> |Render(ms)| > |Render([])|
  {
    if |ms| == 1 {
      assert ms[1..] == [];
    }
  }
}
