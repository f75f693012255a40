/** The endpoint list every retry loop of the client walks: seeds first, leader hints moved to the
    front, one endpoint per attempt in turn. */
module Endpoints {
  import opened Options

  datatype Endpoint = Endpoint(uri: string)

  // A 64-bit usize, which index.wrapping_add(1) wraps.
  const USIZE: nat := 0x1_0000_0000_0000_0000

  ghost predicate NoDuplicates(list: seq<Endpoint>)
  {
    forall i, j :: 0 <= i < j < |list| ==> list[i] != list[j]
  }

  /** The members of the list outside a set, in order. */
  ghost function Without(list: seq<Endpoint>, gone: set<Endpoint>): seq<Endpoint>
  {
    if list == [] then []
    else Without(list[..|list| - 1], gone) + (if list[|list| - 1] in gone then [] else [list[|list| - 1]])
  }

  function Position(list: seq<Endpoint>, e: Endpoint): (p: Option<nat>)
    ensures p.Some? ==> p.value < |list| && list[p.value] == e
    ensures p.None? <==> e !in list
  {
    if list == [] then None
    else if list[0] == e then Some(0)
    else match Position(list[1..], e)
      case None => None
      case Some(p) => Some(p + 1)
  }

  /** The list add_hint leaves behind. */
  function Hinted(list: seq<Endpoint>, hint: Endpoint): (r: seq<Endpoint>)
    ensures r != [] && r[0] == hint
  {
    match Position(list, hint)
    case Some(p) => [hint] + list[..p] + list[p + 1..]
    case None => [hint] + list
  }

  // Looking one place further, past an endpoint that is not the hint.
  lemma PositionFurther(list: seq<Endpoint>, from: nat, e: Endpoint)
    requires from < |list| && list[from] != e
    ensures Position(list[from..], e) == match Position(list[from + 1..], e)
                                         case None => None
                                         case Some(p) => Some(p + 1)
  {
    assert list[from..][0] == list[from] && list[from..][1..] == list[from + 1..];
  }

  method AddHint(endpoints: seq<Endpoint>, hint: Endpoint) returns (updated: seq<Endpoint>, index: nat)
    ensures updated == Hinted(endpoints, hint) && index == 0
  {
    var position := 0;
    while position < |endpoints| && endpoints[position] != hint
      invariant position <= |endpoints|
      invariant Position(endpoints, hint) == match Position(endpoints[position..], hint)
                                             case None => None
                                             case Some(p) => Some(position + p)
    {
      hide Position;
      PositionFurther(endpoints, position, hint);
      position := position + 1;
    }
    if position < |endpoints| {
      assert Position(endpoints, hint) == Some(position) by { assert endpoints[position..][0] == hint; }
      updated := endpoints[..position] + endpoints[position + 1..];
      updated := [hint] + updated;
      assert updated == [hint] + endpoints[..position] + endpoints[position + 1..];
    } else {
      assert endpoints[position..] == [];
      updated := [hint] + endpoints;
    }
    index := 0;
  }

  lemma {:induction false} WithoutJoin(a: seq<Endpoint>, b: seq<Endpoint>, gone: set<Endpoint>)
    ensures Without(a + b, gone) == Without(a, gone) + Without(b, gone)
  {
    if b == [] {
      assert a + b == a;
    } else {
      var front := b[..|b| - 1];
      assert (a + b)[..|a + b| - 1] == a + front;
      WithoutJoin(a, front, gone);
    }
  }

  lemma WithoutSingle(e: Endpoint, gone: set<Endpoint>)
    ensures Without([e], gone) == if e in gone then [] else [e]
  {
    assert [e][..0] == [];
  }

  // Moving an element to the front keeps a list free of duplicates.
  lemma MovedFirst(front: seq<Endpoint>, e: Endpoint, back: seq<Endpoint>)
    requires NoDuplicates(front + [e] + back)
    ensures NoDuplicates([e] + front + back)
  {
    var list, moved, p := front + [e] + back, [e] + front + back, |front|;
    forall i, j | 0 <= i < j < |moved|
      ensures moved[i] != moved[j]
    {
      var i', j' := if i == 0 then p else if i <= p then i - 1 else i, if j <= p then j - 1 else j;
      assert moved[i] == list[i'] && moved[j] == list[j'];
    }
  }

  lemma HintMembers(list: seq<Endpoint>, hint: Endpoint)
    requires NoDuplicates(list)
    ensures NoDuplicates(Hinted(list, hint))
    ensures forall e :: e in Hinted(list, hint) <==> e in list || e == hint
  {
    hide NoDuplicates, Position;
    if hint in list {
      var p := Position(list, hint).value;
      assert list == list[..p] + [hint] + list[p + 1..];
      MovedFirst(list[..p], hint, list[p + 1..]);
    } else {
      assert NoDuplicates([hint] + list) by { PutFirst(list, hint); }
    }
  }

  lemma PutFirst(list: seq<Endpoint>, e: Endpoint)
    requires NoDuplicates(list) && e !in list
    ensures NoDuplicates([e] + list)
  {
  }

  lemma WithoutThree(front: seq<Endpoint>, e: Endpoint, back: seq<Endpoint>, gone: set<Endpoint>)
    requires e in gone
    ensures Without(front + [e] + back, gone) == Without(front, gone) + Without(back, gone)
    ensures Without([e] + front + back, gone) == Without(front, gone) + Without(back, gone)
  {
    hide Without;
    WithoutSingle(e, gone);
    WithoutJoin(front, [e], gone);
    WithoutJoin(front + [e], back, gone);
    WithoutJoin([e], front, gone);
    WithoutJoin([e] + front, back, gone);
  }

  lemma HintOrder(list: seq<Endpoint>, hint: Endpoint, gone: set<Endpoint>)
    requires hint in gone
    ensures Without(Hinted(list, hint), gone) == Without(list, gone)
  {
    hide Without, Position;
    if hint in list {
      var p := Position(list, hint).value;
      assert list == list[..p] + [hint] + list[p + 1..];
      WithoutThree(list[..p], hint, list[p + 1..], gone);
    } else {
      WithoutSingle(hint, gone);
      WithoutJoin([hint], list, gone);
    }
  }

  // ---- Walking the list --------------------------------------------------------------------

  /** The list and the index of the next attempt. */
  datatype Ring = Ring(list: seq<Endpoint>, index: nat)

  function NewRing(seeds: seq<Endpoint>): Ring { Ring(seeds, 0) }

  function Hint(r: Ring, hint: Endpoint): Ring { Ring(Hinted(r.list, hint), 0) }

  function Led(r: Ring, leader: Option<Endpoint>): Ring
  {
    match leader case None => r case Some(hint) => Hint(r, hint)
  }

  function Current(r: Ring): Endpoint
    requires r.list != []
  {
    r.list[r.index % |r.list|]
  }

  // After an attempt the next one uses the next index, unless it learns of a leader.
  function Advance(r: Ring): Ring { r.(index := (r.index + 1) % USIZE) }

  /** One attempt of a loop: where it went, and the leader its outcome named, in the answer or in the
      route refresh the answer caused. */
  datatype Turn = Turn(endpoint: Endpoint, told: Option<Endpoint>)

  /** The ring after a history, computed from what the attempts were told; lead is the leader known at
      the start. */
  ghost function RingAfter(seeds: seq<Endpoint>, lead: Option<Endpoint>, turns: seq<Turn>): Ring
  {
    if turns == [] then Led(NewRing(seeds), lead)
    else Led(Advance(RingAfter(seeds, lead, turns[..|turns| - 1])), turns[|turns| - 1].told)
  }

  /** Every attempt went to the endpoint that the history before it selects. */
  ghost predicate InTurn(seeds: seq<Endpoint>, lead: Option<Endpoint>, turns: seq<Turn>)
  {
    forall i :: 0 <= i < |turns| ==>
      var r := RingAfter(seeds, lead, turns[..i]); r.list != [] && turns[i].endpoint == Current(r)
  }

  lemma TurnTaken(seeds: seq<Endpoint>, lead: Option<Endpoint>, turns: seq<Turn>, t: Turn)
    requires InTurn(seeds, lead, turns) && RingAfter(seeds, lead, turns).list != []
    requires t.endpoint == Current(RingAfter(seeds, lead, turns))
    ensures InTurn(seeds, lead, turns + [t])
    ensures RingAfter(seeds, lead, turns + [t]) == Led(Advance(RingAfter(seeds, lead, turns)), t.told)
  {
    hide Led, Current;
    var longer := turns + [t];
    assert longer[..|turns|] == turns;
    forall i | 0 <= i < |longer|
      ensures var r := RingAfter(seeds, lead, longer[..i]); r.list != [] && longer[i].endpoint == Current(r)
    {
      assert longer[..i] == turns[..i];
    }
  }

  lemma TurnTold(seeds: seq<Endpoint>, lead: Option<Endpoint>, turns: seq<Turn>, told: Option<Endpoint>)
    requires InTurn(seeds, lead, turns) && turns != [] && turns[|turns| - 1].told == None
    ensures var later := turns[|turns| - 1 := turns[|turns| - 1].(told := told)];
      InTurn(seeds, lead, later) && RingAfter(seeds, lead, later) == Led(RingAfter(seeds, lead, turns), told)
  {
    hide Hint, Current;
    var n := |turns| - 1;
    var later := turns[n := turns[n].(told := told)];
    assert later[..n] == turns[..n];
    forall i | 0 <= i < |later|
      ensures var r := RingAfter(seeds, lead, later[..i]); r.list != [] && later[i].endpoint == Current(r)
    {
      assert later[..i] == turns[..i];
    }
  }

  // ---- What a walk keeps -------------------------------------------------------------------

  /** The endpoints named as leaders so far. */
  ghost function Leaders(lead: Option<Endpoint>, turns: seq<Turn>): set<Endpoint>
  {
    if turns == [] then Named(lead)
    else Leaders(lead, turns[..|turns| - 1]) + Named(turns[|turns| - 1].told)
  }

  ghost function Named(leader: Option<Endpoint>): set<Endpoint>
  {
    match leader case None => {} case Some(hint) => {hint}
  }

  /** Nothing twice, every seed, nothing but seeds and leaders, and the endpoints that were never
      leaders in their seed order. */
  ghost predicate ListOk(seeds: seq<Endpoint>, leaders: set<Endpoint>, list: seq<Endpoint>)
  {
    && list != [] && NoDuplicates(list)
    && (forall e :: e in seeds ==> e in list)
    && (forall e :: e in list ==> e in seeds || e in leaders)
    && Without(list, leaders) == Without(seeds, leaders)
  }

  /** n attempts from here on that were told nothing before the last of them. */
  ghost predicate Quiet(turns: seq<Turn>, from: nat, n: nat)
  {
    from + n <= |turns| && forall i :: from <= i < from + n - 1 ==> turns[i].told.None?
  }

  ghost function Tried(turns: seq<Turn>): (t: seq<Endpoint>)
    ensures |t| == |turns|
  {
    seq(|turns|, i requires 0 <= i < |turns| => turns[i].endpoint)
  }

  /** As many quiet attempts as the list is long, from here on, try each endpoint of the list once. */
  ghost predicate CoversFrom(seeds: seq<Endpoint>, lead: Option<Endpoint>, turns: seq<Turn>, from: nat)
  {
    from <= |turns| && var list := RingAfter(seeds, lead, turns[..from]).list;
    Quiet(turns, from, |list|) ==> multiset(Tried(turns[from..from + |list|])) == multiset(list)
  }

  /** What a history of attempts in turn satisfies: the list it has come to is in order, a leader is
      the very next endpoint tried, and quiet windows cover the list (while the index does not wrap). */
  ghost predicate Orderly(seeds: seq<Endpoint>, lead: Option<Endpoint>, turns: seq<Turn>)
  {
    && (forall n: nat :: n <= |turns| ==> ListOk(seeds, Leaders(lead, turns[..n]), RingAfter(seeds, lead, turns[..n]).list))
    && (turns != [] && lead.Some? ==> turns[0].endpoint == lead.value)
    && (forall i :: 0 < i < |turns| && turns[i - 1].told.Some? ==> turns[i].endpoint == turns[i - 1].told.value)
    && (|turns| <= USIZE ==> forall from: nat :: from <= |turns| ==> CoversFrom(seeds, lead, turns, from))
  }

  lemma WithoutMore(a: seq<Endpoint>, b: seq<Endpoint>, gone: set<Endpoint>, e: Endpoint)
    requires Without(a, gone) == Without(b, gone)
    ensures Without(a, gone + {e}) == Without(b, gone + {e})
  {
    WithoutTwice(a, gone, e);
    WithoutTwice(b, gone, e);
  }

  lemma {:induction false} WithoutTwice(a: seq<Endpoint>, gone: set<Endpoint>, e: Endpoint)
    ensures Without(a, gone + {e}) == Without(Without(a, gone), {e})
  {
    if a != [] {
      var front, last := a[..|a| - 1], a[|a| - 1];
      WithoutTwice(front, gone, e);
      WithoutSingle(last, gone);
      WithoutSingle(last, {e});
      WithoutJoin(Without(front, gone), Without([last], gone), {e});
      assert Without(a, gone) == Without(front, gone) + Without([last], gone);
    }
  }

  lemma HintKeeps(seeds: seq<Endpoint>, leaders: set<Endpoint>, list: seq<Endpoint>, hint: Endpoint)
    requires ListOk(seeds, leaders, list)
    ensures ListOk(seeds, leaders + {hint}, Hinted(list, hint))
  {
    hide Hinted, Without, NoDuplicates;
    WithoutMore(list, seeds, leaders, hint);
    HintMembers(list, hint);
    HintOrder(list, hint, leaders + {hint});
  }

  // Obeying a hint keeps the list in order.
  lemma LedKeeps(seeds: seq<Endpoint>, leaders: set<Endpoint>, r: Ring, leader: Option<Endpoint>)
    requires ListOk(seeds, leaders, r.list)
    ensures ListOk(seeds, leaders + Named(leader), Led(r, leader).list)
    ensures leader.Some? ==> Led(r, leader).list != [] && Current(Led(r, leader)) == leader.value
  {
    hide Hinted, ListOk;
    if leader.Some? {
      HintKeeps(seeds, leaders, r.list, leader.value);
    } else {
      assert leaders + Named(leader) == leaders;
    }
  }

  lemma {:induction false} WalkKeepsList(seeds: seq<Endpoint>, lead: Option<Endpoint>, turns: seq<Turn>)
    requires seeds != [] && NoDuplicates(seeds)
    ensures ListOk(seeds, Leaders(lead, turns), RingAfter(seeds, lead, turns).list)
    ensures RingAfter(seeds, lead, turns).index <= |turns|
  {
    hide ListOk, Hinted;
    if turns == [] {
      SeedsOk(seeds);
      LedKeeps(seeds, {}, NewRing(seeds), lead);
      assert {} + Named(lead) == Named(lead);
    } else {
      var front := turns[..|turns| - 1];
      WalkKeepsList(seeds, lead, front);
      LedKeeps(seeds, Leaders(lead, front), Advance(RingAfter(seeds, lead, front)), turns[|turns| - 1].told);
    }
  }

  lemma SeedsOk(seeds: seq<Endpoint>)
    requires seeds != [] && NoDuplicates(seeds)
    ensures ListOk(seeds, {}, seeds)
  {
  }

  lemma ListIsNonempty(seeds: seq<Endpoint>, leaders: set<Endpoint>, list: seq<Endpoint>)
    requires ListOk(seeds, leaders, list)
    ensures list != []
  {
  }

  lemma RingUnfolds(seeds: seq<Endpoint>, lead: Option<Endpoint>, turns: seq<Turn>, n: nat)
    requires 0 < n <= |turns|
    ensures RingAfter(seeds, lead, turns[..n]) == Led(Advance(RingAfter(seeds, lead, turns[..n - 1])), turns[n - 1].told)
  {
    assert turns[..n][..n - 1] == turns[..n - 1];
  }

  /** A leader is the next endpoint tried. */
  lemma LeaderIsNext(seeds: seq<Endpoint>, lead: Option<Endpoint>, turns: seq<Turn>, i: nat)
    requires seeds != [] && NoDuplicates(seeds) && InTurn(seeds, lead, turns) && i < |turns|
    ensures var told := if i == 0 then lead else turns[i - 1].told;
      told.Some? ==> turns[i].endpoint == told.value
  {
    hide ListOk, Led, RingAfter, Leaders, NoDuplicates;
    if i == 0 {
      SeedsOk(seeds);
      LedKeeps(seeds, {}, NewRing(seeds), lead);
      RingStarts(seeds, lead, turns[..0]);
    } else {
      WalkKeepsList(seeds, lead, turns[..i - 1]);
      LedKeeps(seeds, Leaders(lead, turns[..i - 1]), Advance(RingAfter(seeds, lead, turns[..i - 1])), turns[i - 1].told);
      RingUnfolds(seeds, lead, turns, i);
    }
  }

  lemma RingStarts(seeds: seq<Endpoint>, lead: Option<Endpoint>, turns: seq<Turn>)
    requires turns == []
    ensures RingAfter(seeds, lead, turns) == Led(NewRing(seeds), lead)
  {
  }

  // ---- Coverage ----------------------------------------------------------------------------

  // Told nothing, and without the index wrapping, the walk keeps its list and moves on one by one.
  lemma {:induction false} QuietWalks(seeds: seq<Endpoint>, lead: Option<Endpoint>, turns: seq<Turn>, from: nat, n: nat, t: nat)
    requires Quiet(turns, from, n) && t < n
    requires RingAfter(seeds, lead, turns[..from]).index + t < USIZE
    ensures RingAfter(seeds, lead, turns[..from + t])
         == var r := RingAfter(seeds, lead, turns[..from]); Ring(r.list, r.index + t)
  {
    hide Hint, RingAfter;
    if t != 0 {
      QuietWalks(seeds, lead, turns, from, n, t - 1);
      RingUnfolds(seeds, lead, turns, from + t);
      assert turns[from + t - 1].told == None;
    }
  }

  lemma ModAdd(a: nat, t: nat, n: nat)
    requires 0 < n && t < n
    ensures (a + t) % n == if a % n + t < n then a % n + t else a % n + t - n
  {
    var q, m := a / n, a % n;
    assert a == q * n + m;
    if m + t < n {
      DivisionUnique(a + t, q, m + t, n);
    } else {
      assert (q + 1) * n == q * n + n;
      DivisionUnique(a + t, q + 1, m + t - n, n);
    }
  }

  lemma DivisionUnique(a: nat, q: nat, m: nat, n: nat)
    requires 0 < n && m < n && a == q * n + m
    ensures a % n == m
  {
    var d := a / n - q;
    assert a == a / n * n + a % n;
    assert d * n == m - a % n;
    assert d > 0 ==> d * n >= n;
    assert d < 0 ==> d * n <= -(n as int);
  }

  // Where a walk that is told nothing goes at its step t.
  lemma WalksTo(seeds: seq<Endpoint>, lead: Option<Endpoint>, turns: seq<Turn>, from: nat, n: nat, t: nat)
    requires InTurn(seeds, lead, turns) && Quiet(turns, from, n) && t < n
    requires var r := RingAfter(seeds, lead, turns[..from]); |r.list| == n && r.index + n <= USIZE
    ensures var r := RingAfter(seeds, lead, turns[..from]);
      from + t < |turns| && turns[from + t].endpoint == r.list[(r.index + t) % n]
  {
    hide RingAfter;
    QuietWalks(seeds, lead, turns, from, n, t);
    assert turns[from + t].endpoint == Current(RingAfter(seeds, lead, turns[..from + t]));
  }

  // A whole turn around a list from some place on.
  lemma AroundOnce(list: seq<Endpoint>, index: nat, walked: seq<Endpoint>)
    requires list != [] && |walked| == |list|
    requires forall t :: 0 <= t < |list| ==> walked[t] == list[(index + t) % |list|]
    ensures var start := index % |list|; walked == list[start..] + list[..start]
    ensures multiset(walked) == multiset(list)
  {
    var n, start := |list|, index % |list|;
    var round := list[start..] + list[..start];
    forall t | 0 <= t < n
      ensures walked[t] == round[t]
    {
      ModAdd(index, t, n);
    }
    assert walked == round;
    assert list == list[..start] + list[start..];
  }

  /** Any |list| consecutive attempts that are told of no leader try the endpoints of the list once each,
      in list order from where they start. */
  lemma WindowCovers(seeds: seq<Endpoint>, lead: Option<Endpoint>, turns: seq<Turn>, from: nat)
    requires InTurn(seeds, lead, turns) && from <= |turns|
    requires var r := RingAfter(seeds, lead, turns[..from]); r.list != [] && r.index + |r.list| <= USIZE && Quiet(turns, from, |r.list|)
    ensures var r := RingAfter(seeds, lead, turns[..from]); var start := r.index % |r.list|;
      from + |r.list| <= |turns| && Tried(turns[from..from + |r.list|]) == r.list[start..] + r.list[..start]
    ensures CoversFrom(seeds, lead, turns, from)
  {
    hide RingAfter, InTurn, Quiet;
    var r := RingAfter(seeds, lead, turns[..from]);
    var n := |r.list|;
    QuietEnds(turns, from, n);
    var tried := Tried(turns[from..from + n]);
    forall t | 0 <= t < n
      ensures tried[t] == r.list[(r.index + t) % n]
    {
      WalksTo(seeds, lead, turns, from, n, t);
    }
    AroundOnce(r.list, r.index, tried);
  }

  lemma QuietEnds(turns: seq<Turn>, from: nat, n: nat)
    requires Quiet(turns, from, n)
    ensures from + n <= |turns|
  {
  }

  /** Over any run of a loop that takes endpoints in turn: the list repeats nothing, keeps every seed and
      the order of every endpoint that was never a leader; a leader is the next endpoint tried; and a
      window told of no leader covers the list. */
  lemma InTurnIsOrderly(seeds: seq<Endpoint>, lead: Option<Endpoint>, turns: seq<Turn>)
    requires seeds != [] && NoDuplicates(seeds) && InTurn(seeds, lead, turns)
    ensures Orderly(seeds, lead, turns)
  {
    hide ListOk, CoversFrom, RingAfter, InTurn, Leaders;
    forall n: nat | n <= |turns|
      ensures ListOk(seeds, Leaders(lead, turns[..n]), RingAfter(seeds, lead, turns[..n]).list)
    {
      WalkKeepsList(seeds, lead, turns[..n]);
    }
    if turns != [] {
      LeaderIsNext(seeds, lead, turns, 0);
    }
    forall i | 0 < i < |turns|
      ensures turns[i - 1].told.Some? ==> turns[i].endpoint == turns[i - 1].told.value
    {
      LeaderIsNext(seeds, lead, turns, i);
    }
    if |turns| <= USIZE {
      forall from: nat | from <= |turns|
        ensures CoversFrom(seeds, lead, turns, from)
      {
        WalkCovers(seeds, lead, turns, from);
      }
    }
  }

  lemma WalkCovers(seeds: seq<Endpoint>, lead: Option<Endpoint>, turns: seq<Turn>, from: nat)
    requires seeds != [] && NoDuplicates(seeds) && InTurn(seeds, lead, turns) && from <= |turns| <= USIZE
    ensures CoversFrom(seeds, lead, turns, from)
  {
    hide RingAfter, InTurn, ListOk;
    WalkKeepsList(seeds, lead, turns[..from]);
    var r := RingAfter(seeds, lead, turns[..from]);
    ListIsNonempty(seeds, Leaders(lead, turns[..from]), r.list);
    if Quiet(turns, from, |r.list|) {
      WindowCovers(seeds, lead, turns, from);
    }
  }

  // ---- connect_with_security ---------------------------------------------------------------

  datatype Opened = Opened(seeds: seq<Endpoint>) | Rejected(endpoint: Endpoint)

  /** The first endpoint that one of the two checks rejects. */
  function FirstBad(list: seq<Endpoint>, valid: Endpoint -> bool, scheme: Endpoint -> bool): (bad: Option<Endpoint>)
    ensures bad.None? <==> forall e :: e in list ==> valid(e) && scheme(e)
  {
    if list == [] then None
    else if !valid(list[0]) || !scheme(list[0]) then Some(list[0])
    else FirstBad(list[1..], valid, scheme)
  }

  /** In the order in which they first occur. */
  ghost predicate InOrderOf(list: seq<Endpoint>, seeds: seq<Endpoint>)
  {
    && (forall e :: e in list ==> e in seeds)
    && (forall i, j :: 0 <= i < j < |list| ==> Position(seeds, list[i]).value < Position(seeds, list[j]).value)
  }

  lemma {:induction false} PositionStays(list: seq<Endpoint>, e: Endpoint, more: seq<Endpoint>)
    ensures Position(list + more, e) == match Position(list, e)
                                        case Some(p) => Some(p)
                                        case None => match Position(more, e) case None => None case Some(p) => Some(|list| + p)
  {
    if list == [] {
      assert list + more == more;
    } else {
      assert (list + more)[1..] == list[1..] + more;
      PositionStays(list[1..], e, more);
    }
  }

  // A seed not met before goes to the end.
  lemma OrderGrows(list: seq<Endpoint>, seeds: seq<Endpoint>, seed: Endpoint)
    requires InOrderOf(list, seeds)
    ensures InOrderOf(list, seeds + [seed])
    ensures seed !in seeds ==> InOrderOf(list + [seed], seeds + [seed])
  {
    hide Position;
    forall e
      ensures Position(seeds + [seed], e) == match Position(seeds, e)
        case Some(p) => Some(p)
        case None => match Position([seed], e) case None => None case Some(p) => Some(|seeds| + p)
    {
      PositionStays(seeds, e, [seed]);
    }
  }

  /** The configured endpoint first, then each other seed once, in order of first appearance. */
  ghost predicate Collected(all: seq<Endpoint>, endpoint: Endpoint, seeds: seq<Endpoint>)
  {
    && all != [] && all[0] == endpoint && NoDuplicates(all)
    && (forall e :: e in all <==> e == endpoint || e in seeds)
    && InOrderOf(all[1..], seeds)
  }

  lemma CollectedGrows(all: seq<Endpoint>, endpoint: Endpoint, seeds: seq<Endpoint>, seed: Endpoint)
    requires Collected(all, endpoint, seeds)
    ensures Collected(if seed in all then all else all + [seed], endpoint, seeds + [seed])
  {
    hide InOrderOf;
    OrderGrows(all[1..], seeds, seed);
    if seed !in all {
      assert (all + [seed])[1..] == all[1..] + [seed];
    }
  }

  lemma CollectedFirst(endpoint: Endpoint)
    ensures Collected([endpoint], endpoint, [])
  {
  }

  /** The seed list of a client, or the first endpoint found to be unusable. */
  method ConnectWithSecurity(endpoint: Endpoint, seeds: seq<Endpoint>, deadline: nat, valid: Endpoint -> bool, scheme: Endpoint -> bool)
      returns (r: Opened)
    ensures r.Opened? <==> deadline > 0 && forall e :: e == endpoint || e in seeds ==> valid(e) && scheme(e)
    ensures r.Opened? ==> Collected(r.seeds, endpoint, seeds)
    ensures r.Rejected? ==> r.endpoint == if deadline == 0 || !scheme(endpoint) then endpoint
                                          else match FirstBad(seeds, valid, scheme) case Some(bad) => bad case None => endpoint
  {
    hide Collected;
    if deadline == 0 || !scheme(endpoint) {
      return Rejected(endpoint);
    }
    var all := [endpoint];
    CollectedFirst(endpoint);
    assert seeds[..0] == [];
    for i := 0 to |seeds|
      invariant Collected(all, endpoint, seeds[..i])
      invariant FirstBad(seeds, valid, scheme) == FirstBad(seeds[i..], valid, scheme)
    {
      assert seeds[..i + 1] == seeds[..i] + [seeds[i]];
      assert seeds[i..][0] == seeds[i] && seeds[i..][1..] == seeds[i + 1..];
      if !valid(seeds[i]) || !scheme(seeds[i]) {
        return Rejected(seeds[i]);
      }
      CollectedGrows(all, endpoint, seeds[..i], seeds[i]);
      if seeds[i] !in all {
        all := all + [seeds[i]];
      }
    }
    assert seeds[..|seeds|] == seeds && seeds[|seeds|..] == [];
    if !valid(endpoint) {
      return Rejected(endpoint);
    }
    return Opened(all);
  }
}
