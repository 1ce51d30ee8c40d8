/** The connection counter of the event loop and the connections that it stands for. */
module Connections {
  type ConnId = nat
  type Address = string

  /** PROF_MAX_CONNECTIONS */
  const MAX_CONNECTIONS: nat := 32

  /** A connection arrives, and the allow list admits it or not; or one goes away. */
  datatype Event = Arrives(c: ConnId, listed: bool) | Leaves(c: ConnId)

  // ----- the allow list -----

  const MAPPED: Address := "::ffff:"

  /** An address without the prefix of a mapped IPv4 address. */
  function Plain(a: Address): Address { if MAPPED <= a then a[|MAPPED|..] else a }

  /** Without a list everybody is welcome. */
  predicate Listed(ip: Address, acl: seq<Address>) {
    acl == [] || exists i :: 0 <= i < |acl| && Plain(acl[i]) == Plain(ip)
  }

  /** How the address is written does not matter, neither on the wire nor in the list. */
  lemma MappedSame(ip: Address, acl: seq<Address>, i: nat)
    requires !(MAPPED <= ip) && i < |acl| && !(MAPPED <= acl[i])
    ensures Listed(MAPPED + ip, acl) <==> Listed(ip, acl)
    ensures Listed(ip, acl[i := MAPPED + acl[i]]) <==> Listed(ip, acl)
  {
    assert Plain(MAPPED + ip) == Plain(ip);
    assert Plain(MAPPED + acl[i]) == Plain(acl[i]);
    var mapped := acl[i := MAPPED + acl[i]];
    assert forall k :: 0 <= k < |acl| ==> Plain(mapped[k]) == Plain(acl[k]);
  }

  /** The same address, or one of them is the mapped form of the other, plain one. */
  predicate Same(a: Address, b: Address) {
    || a == b
    || (a == "::ffff:" + b && !("::ffff:" <= b))
    || ("::ffff:" + a == b && !("::ffff:" <= a))
  }

  lemma PlainSame(a: Address, b: Address)
    ensures Plain(a) == Plain(b) <==> Same(a, b)
  {
    if MAPPED <= a { assert a == "::ffff:" + a[7..]; }
    if MAPPED <= b { assert b == "::ffff:" + b[7..]; }
    assert "::ffff:" <= "::ffff:" + a && ("::ffff:" + a)[7..] == a;
    assert "::ffff:" <= "::ffff:" + b && ("::ffff:" + b)[7..] == b;
  }

  /** Who is let in: everybody if there is no list, else those of which an entry is the
      address or its mapped form; in particular, among plain addresses, those in the list. */
  lemma ListedMeans(ip: Address, acl: seq<Address>)
    ensures Listed(ip, acl) <==> acl == [] || exists a :: a in acl && Same(a, ip)
    ensures !("::ffff:" <= ip) && (forall a :: a in acl ==> !("::ffff:" <= a)) ==>
      (Listed(ip, acl) <==> acl == [] || ip in acl)
  {
    forall i | 0 <= i < |acl| ensures Plain(acl[i]) == Plain(ip) <==> Same(acl[i], ip) {
      PlainSame(acl[i], ip);
    }
  }

  method CheckList(ip: Address, acl: seq<Address>) returns (allowed: bool)
    ensures allowed <==> Listed(ip, acl)
    ensures allowed <==> acl == [] || exists a :: a in acl && Same(a, ip)
  {
    ListedMeans(ip, acl);
    if |acl| == 0 {
      return true;
    }
    allowed := false;
    var i := 0;
    while i < |acl|
      invariant i <= |acl|
      invariant forall k :: 0 <= k < i ==> Plain(acl[k]) != Plain(ip)
    {
      if Plain(acl[i]) == Plain(ip) {
        return true;
      }
      i := i + 1;
    }
  }

  // ----- the counter -----

  class Counter {
    var active: nat

    constructor ()
      ensures active == 0
    {
      active := 0;
    }

    /** MG_EV_ACCEPT; the result says whether the connection is closed at once. */
    method Accept(ip: Address, acl: seq<Address>) returns (closing: bool)
      modifies this
      ensures active == Count(old(active), Arrives(0, Listed(ip, acl)))
      ensures active == old(active) + (if Listed(ip, acl) then 1 else 0)
      ensures closing <==> !Listed(ip, acl) || old(active) >= 32
      ensures active > old(active) <==> acl == [] || exists a :: a in acl && Same(a, ip)
    {
      var listed := CheckList(ip, acl);
      if !listed {
        return true;
      }
      active := active + 1;
      closing := active > MAX_CONNECTIONS;
    }

    /** MG_EV_CLOSE */
    method Close()
      modifies this
      ensures active == Count(old(active), Leaves(0))
      ensures active == if old(active) == 0 then 0 else old(active) - 1
    {
      if active > 0 {
        active := active - 1;
      }
    }
  }

  /** What one event does to the counter. */
  function Count(active: nat, ev: Event): nat {
    match ev
    case Arrives(_, listed) => if listed then active + 1 else active
    case Leaves(_) => if active > 0 then active - 1 else 0
  }

  function Counted(evs: seq<Event>): nat {
    if evs == [] then 0 else Count(Counted(evs[..|evs| - 1]), evs[|evs| - 1])
  }

  /** The open connections, and those of them that the allow list admitted. */
  function Open(evs: seq<Event>): map<ConnId, bool> {
    if evs == [] then map[]
    else
      var (before, ev) := (Open(evs[..|evs| - 1]), evs[|evs| - 1]);
      match ev
      case Arrives(c, listed) => before[c := listed]
      case Leaves(c) => before - {c}
  }

  function Admitted(open: map<ConnId, bool>): set<ConnId> {
    set c | c in open && open[c]
  }

  /** Connections arrive once and leave after they arrived. */
  ghost predicate WellFormed(evs: seq<Event>) {
    evs == [] ||
    (var before := evs[..|evs| - 1];
     && WellFormed(before)
     && match evs[|evs| - 1]
        case Arrives(c, _) => c !in Open(before)
        case Leaves(c) => c in Open(before))
  }

  /** The last event is the close of a connection that the allow list dropped, while
      the counter is not zero. */
  predicate Miscounts(evs: seq<Event>) {
    evs != [] &&
    var (before, ev) := (evs[..|evs| - 1], evs[|evs| - 1]);
    ev.Leaves? && ev.c in Open(before) && !Open(before)[ev.c] && Counted(before) > 0
  }

  lemma OpenStep(open: map<ConnId, bool>, ev: Event)
    requires if ev.Arrives? then ev.c !in open else ev.c in open
    ensures ev.Arrives? ==>
      |Admitted(open[ev.c := ev.listed])| == |Admitted(open)| + (if ev.listed then 1 else 0)
    ensures ev.Leaves? ==>
      |Admitted(open - {ev.c})| == |Admitted(open)| - (if open[ev.c] then 1 else 0)
  {
    if ev.Arrives? {
      if ev.listed {
        assert Admitted(open[ev.c := ev.listed]) == Admitted(open) + {ev.c};
      } else {
        assert Admitted(open[ev.c := ev.listed]) == Admitted(open);
      }
    } else if open[ev.c] {
      assert Admitted(open) == Admitted(open - {ev.c}) + {ev.c};
    } else {
      assert Admitted(open - {ev.c}) == Admitted(open);
    }
  }

  /** The counter never exceeds the number of admitted connections that are open. */
  lemma {:induction false} NeverTooMany(evs: seq<Event>)
    requires WellFormed(evs)
    ensures Counted(evs) <= |Admitted(Open(evs))|
  {
    if evs != [] {
      var before := evs[..|evs| - 1];
      NeverTooMany(before);
      OpenStep(Open(before), evs[|evs| - 1]);
      if evs[|evs| - 1].Leaves? && Open(before)[evs[|evs| - 1].c] {
        assert evs[|evs| - 1].c in Admitted(Open(before));
      }
    }
  }

  predicate Exact(evs: seq<Event>) { Counted(evs) == |Admitted(Open(evs))| }

  /** A counter that was exact stays exact unless the event miscounts. */
  lemma ExactStep(evs: seq<Event>)
    requires WellFormed(evs) && evs != [] && Exact(evs[..|evs| - 1])
    ensures Exact(evs) <==> !Miscounts(evs)
  {
    var (before, ev) := (evs[..|evs| - 1], evs[|evs| - 1]);
    OpenStep(Open(before), ev);
    if ev.Leaves? && Open(before)[ev.c] {
      assert ev.c in Admitted(Open(before));
    }
  }

  /** It is exact throughout a run if and only if no close of a connection that the
      allow list dropped is counted. */
  lemma {:induction false} ExactThroughout(evs: seq<Event>)
    requires WellFormed(evs)
    ensures (forall n :: 0 <= n <= |evs| ==> Exact(evs[..n]))
            <==> (forall n :: 0 <= n <= |evs| ==> !Miscounts(evs[..n]))
  {
    if evs == [] {
      assert evs[..0] == [];
      assert Exact([]);
    } else {
      var before := evs[..|evs| - 1];
      ExactThroughout(before);
      assert evs[..|evs|] == evs;
      assert forall n :: 0 <= n < |evs| ==> evs[..n] == before[..n];
      assert before[..|before|] == before;
      if Exact(before) {
        ExactStep(evs);
      }
    }
  }

  // ----- the limit -----

  /** The open connections that were not closed at once when they arrived. */
  function Kept(evs: seq<Event>): set<ConnId> {
    if evs == [] then {}
    else
      var (before, ev) := (evs[..|evs| - 1], evs[|evs| - 1]);
      match ev
      case Arrives(c, listed) =>
        if listed && Counted(before) < MAX_CONNECTIONS then Kept(before) + {c} else Kept(before)
      case Leaves(c) => Kept(before) - {c}
  }

  /** How many closes were counted for connections that the allow list dropped. */
  function Misses(evs: seq<Event>): nat {
    if evs == [] then 0
    else Misses(evs[..|evs| - 1]) + (if Miscounts(evs) then 1 else 0)
  }

  /** Each such close makes the counter miss one connection at most. */
  lemma {:induction false} MissedAtMost(evs: seq<Event>)
    requires WellFormed(evs)
    ensures |Admitted(Open(evs))| <= Counted(evs) + Misses(evs)
    ensures Kept(evs) <= Admitted(Open(evs))
  {
    if evs != [] {
      var before := evs[..|evs| - 1];
      MissedAtMost(before);
      OpenStep(Open(before), evs[|evs| - 1]);
    }
  }

  /** The limit: of the connections that were not closed at once at most 32 are open,
      and one more for each close that was counted although its arrival was not. */
  lemma {:induction false} LimitHolds(evs: seq<Event>)
    requires WellFormed(evs)
    ensures |Kept(evs)| <= MAX_CONNECTIONS + Misses(evs)
  {
    if evs != [] {
      var before := evs[..|evs| - 1];
      LimitHolds(before);
      var ev := evs[|evs| - 1];
      if ev.Arrives? && ev.listed && Counted(before) < MAX_CONNECTIONS {
        MissedAtMost(before);
        Smaller(Kept(before), Admitted(Open(before)));
      } else {
        Smaller(Kept(evs), Kept(before));
      }
    }
  }

  lemma Smaller(a: set<ConnId>, b: set<ConnId>)
    requires a <= b
    ensures |a| <= |b|
  {
    assert b == a + (b - a);
  }

  /** An unlisted connection arrives and leaves, and a listed one arrives. */
  function Round(evs: seq<Event>, c: ConnId): seq<Event> {
    evs + [Arrives(c, false)] + [Leaves(c)] + [Arrives(c + 1, true)]
  }

  /** n listed connections arrive, and then come m such rounds. */
  function Overrun(n: nat, m: nat): seq<Event> {
    if m > 0 then Round(Overrun(n, m - 1), n + 2 * m)
    else if n > 0 then Overrun(n - 1, 0) + [Arrives(n - 1, true)]
    else []
  }

  /** What the run so far leaves behind. */
  ghost predicate Left(evs: seq<Event>, active: nat, kept: nat, misses: nat, below: nat) {
    && WellFormed(evs) && Counted(evs) == active && |Kept(evs)| == kept && Misses(evs) == misses
    && forall c :: c in Open(evs) || c in Kept(evs) ==> c < below
  }

  lemma ArrivesListed(evs: seq<Event>, c: ConnId, active: nat, kept: nat, misses: nat)
    requires Left(evs, active, kept, misses, c) && active < MAX_CONNECTIONS
    ensures Left(evs + [Arrives(c, true)], active + 1, kept + 1, misses, c + 1)
  {
    assert (evs + [Arrives(c, true)])[..|evs|] == evs;
  }

  lemma ComesAndGoes(evs: seq<Event>, c: ConnId, active: nat, kept: nat, misses: nat)
    requires Left(evs, active, kept, misses, c) && active > 0
    ensures Left(evs + [Arrives(c, false)] + [Leaves(c)], active - 1, kept, misses + 1, c + 1)
  {
    var came := evs + [Arrives(c, false)];
    assert came[..|evs|] == evs && (came + [Leaves(c)])[..|came|] == came;
    assert Counted(came) == active && Misses(came) == misses && Kept(came) == Kept(evs);
    assert Open(came) == Open(evs)[c := false] && WellFormed(came);
    assert Kept(came + [Leaves(c)]) == Kept(evs);
    assert Misses(came + [Leaves(c)]) == misses + 1;
  }

  lemma RoundLeaves(evs: seq<Event>, c: ConnId, active: nat, kept: nat, misses: nat)
    requires Left(evs, active, kept, misses, c) && 0 < active <= MAX_CONNECTIONS
    ensures Left(Round(evs, c), active, kept + 1, misses + 1, c + 2)
  {
    var gone := evs + [Arrives(c, false)] + [Leaves(c)];
    ComesAndGoes(evs, c, active, kept, misses);
    ArrivesListed(gone, c + 1, active - 1, kept, misses + 1);
  }

  lemma {:induction false} Overruns(n: nat, m: nat)
    requires 0 < n <= MAX_CONNECTIONS
    ensures Left(Overrun(n, m), n, n + m, m, n + 2 * m + 2)
  {
    if m == 0 {
      Filled(n);
    } else {
      Overruns(n, m - 1);
      RoundLeaves(Overrun(n, m - 1), n + 2 * m, n, n + m - 1, m - 1);
    }
  }

  lemma {:induction false} Filled(n: nat)
    requires n <= MAX_CONNECTIONS
    ensures Left(Overrun(n, 0), n, n, 0, n)
  {
    if n > 0 {
      Filled(n - 1);
      ArrivesListed(Overrun(n - 1, 0), n - 1, n - 1, n - 1, 0);
    }
  }

  /** The bound is met: there is a run with any number of such closes in which as many
      connections above 32 are open. */
  lemma LimitPassed(m: nat)
    ensures exists evs :: WellFormed(evs) && Misses(evs) == m && |Kept(evs)| == MAX_CONNECTIONS + m
  {
    Overruns(MAX_CONNECTIONS, m);
  }
}
