/**
 * The generation loop of `main`: the first generation of teams, `copy`
 * (a fresh team that takes over a winner's weights and mutates them), the
 * purge that doubles, shuffles and pairs the teams into games, the play
 * frames that update every game, and the selection that keeps the offenses
 * of the better half of the games and the defenses of the worse half.
 */
module Evolution {
  import opened NeuralNet
  import opened Players
  import opened Teams
  import opened Gridirons
  import opened Numerics

  /** `for i in range(350)`: teams per side in the first generation. */
  const FirstTeams: nat := 350

  /** A generation ends in the frame where `time > 600`. */
  const LastTime: int := 600

  // ---------------------------------------------------------------------
  // `random.shuffle`
  // ---------------------------------------------------------------------

  /** No element occurs twice. */
  predicate Unique<T(==)>(s: seq<T>)
  {
    forall i, j :: 0 <= i < j < |s| ==> s[i] != s[j]
  }

  /** `x[i], x[j] = x[j], x[i]` */
  function Swap<T(==)>(s: seq<T>, i: nat, j: nat): seq<T>
    requires i < |s| && j < |s|
  {
    s[i := s[j]][j := s[i]]
  }

  /** A swap exchanges two entries and leaves the rest, so it is a permutation. */
  lemma SwapPermutes<T>(s: seq<T>, i: nat, j: nat)
    requires i < |s| && j < |s|
    ensures var r := Swap(s, i, j);
            |r| == |s| && multiset(r) == multiset(s) &&
            r[i] == s[j] && r[j] == s[i] && forall k :: 0 <= k < |s| && k != i && k != j ==> r[k] == s[k]
  {
  }

  /** A swap moves elements without copying any. */
  lemma SwapUnique<T>(s: seq<T>, i: nat, j: nat)
    requires i < |s| && j < |s|
    ensures Unique(s) ==> Unique(Swap(s, i, j))
  {
    var r := Swap(s, i, j);
    SwapPermutes(s, i, j);
    forall a, b | 0 <= a < b < |r| && Unique(s)
      ensures r[a] != r[b]
    {
      var a0 := if a == i then j else if a == j then i else a;
      var b0 := if b == i then j else if b == j then i else b;
      assert r[a] == s[a0] && r[b] == s[b0] && a0 != b0;
    }
  }

  /**
   * `random.shuffle(x)`: for `i` from `n - 1` down to 1, swap `x[i]` with
   * `x[j]`, `j = randbelow(i + 1)`; `pick(i)` is that draw, reduced into
   * `[0, i]`. `Shuffled(s, pick, |s|)` is the whole shuffle.
   */
  function Shuffled<T(==)>(s: seq<T>, pick: nat -> nat, n: nat): seq<T>
    requires n <= |s|
    decreases n
  {
    if n <= 1 then s
    else Shuffled(Swap(s, n - 1, pick(n - 1) % n), pick, n - 1)
  }

  /** A shuffle is a permutation, and keeps its elements distinct when they were. */
  lemma {:induction false} ShuffledPermutes<T>(s: seq<T>, pick: nat -> nat, n: nat)
    requires n <= |s|
    ensures var r := Shuffled(s, pick, n);
            |r| == |s| && multiset(r) == multiset(s) && (Unique(s) ==> Unique(r))
    decreases n
  {
    if n > 1 {
      SwapPermutes(s, n - 1, pick(n - 1) % n);
      SwapUnique(s, n - 1, pick(n - 1) % n);
      ShuffledPermutes(Swap(s, n - 1, pick(n - 1) % n), pick, n - 1);
    }
  }

  /** A permutation has the same elements. */
  lemma SameElements<T>(s: seq<T>, r: seq<T>)
    requires multiset(r) == multiset(s)
    ensures forall x :: x in r <==> x in s
  {
    forall x
      ensures x in r <==> x in s
    {
      assert x in r <==> x in multiset(r);
      assert x in s <==> x in multiset(s);
    }
  }

  // ---------------------------------------------------------------------
  // `active_games.sort(key=lambda x: x.points, reverse=True)`
  // ---------------------------------------------------------------------

  /** Game `x` sorts before game `y`: more points, or as many and earlier. */
  predicate Before(x: nat, y: nat, pts: seq<int>)
    requires x < |pts| && y < |pts|
  {
    pts[x] > pts[y] || (pts[x] == pts[y] && x < y)
  }

  /** The order of a stable descending sort by points. */
  predicate RankOrder(order: seq<nat>, pts: seq<int>)
  {
    (forall k :: 0 <= k < |order| ==> order[k] < |pts|) &&
    forall a, b :: 0 <= a < b < |order| ==> Before(order[a], order[b], pts)
  }

  /** Game `x` sorts before every game of `order`. */
  predicate Leads(x: nat, order: seq<nat>, pts: seq<int>)
    requires x < |pts| && forall k :: 0 <= k < |order| ==> order[k] < |pts|
  {
    forall k :: 0 <= k < |order| ==> Before(x, order[k], pts)
  }

  /** A game that sorts before a whole rank order can go in front of it. */
  lemma ConsRanks(x: nat, order: seq<nat>, pts: seq<int>)
    requires x < |pts| && RankOrder(order, pts) && Leads(x, order, pts)
    ensures RankOrder([x] + order, pts)
  {
    var r := [x] + order;
    forall a, b | 0 <= a < b < |r|
      ensures Before(r[a], r[b], pts)
    {
      if a > 0 {
        assert r[a] == order[a - 1] && r[b] == order[b - 1];
      } else {
        assert r[b] == order[b - 1];
      }
    }
  }

  /** Insert game `i` after every game with at least its points, before the first with fewer. */
  function Insert(order: seq<nat>, pts: seq<int>, i: nat): (r: seq<nat>)
    requires i < |pts| && forall k :: 0 <= k < |order| ==> order[k] < |pts|
    ensures |r| == |order| + 1 && multiset(r) == multiset(order) + multiset{i}
    ensures forall k :: 0 <= k < |r| ==> r[k] < |pts|
  {
    if order == [] then [i]
    else if pts[order[0]] < pts[i] then [i] + order
    else
      assert order == [order[0]] + order[1..];
      [order[0]] + Insert(order[1..], pts, i)
  }

  /**
   * The order Python's stable sort puts the first `n` games in, by
   * insertion; `Ranking(pts, |pts|)` is the order of all of them.
   */
  function Ranking(pts: seq<int>, n: nat): (r: seq<nat>)
    requires n <= |pts|
    ensures |r| == n && forall k :: 0 <= k < n ==> r[k] < n
  {
    if n == 0 then []
    else
      var r := Insert(Ranking(pts, n - 1), pts, n - 1);
      assert forall k :: 0 <= k < n ==> r[k] in multiset(r);
      r
  }

  /** A game that sorts before every game of `order` and before `i` sorts before the insertion. */
  lemma {:induction false} InsertLed(order: seq<nat>, pts: seq<int>, i: nat, x: nat)
    requires i < |pts| && x < |pts| && forall k :: 0 <= k < |order| ==> order[k] < |pts|
    requires Leads(x, order, pts) && Before(x, i, pts)
    ensures Leads(x, Insert(order, pts, i), pts)
    decreases |order|
  {
    if order != [] && pts[order[0]] >= pts[i] {
      InsertLed(order[1..], pts, i, x);
      var r := Insert(order, pts, i);
      assert r == [order[0]] + Insert(order[1..], pts, i);
      forall k | 0 < k < |r|
        ensures Before(x, r[k], pts)
      {
        assert r[k] == Insert(order[1..], pts, i)[k - 1];
      }
    }
  }

  /** Inserting a game numbered after all that are already ordered keeps the rank order. */
  lemma {:induction false} InsertRanks(order: seq<nat>, pts: seq<int>, i: nat)
    requires i < |pts| && RankOrder(order, pts)
    requires forall k :: 0 <= k < |order| ==> order[k] < i
    ensures RankOrder(Insert(order, pts, i), pts)
    decreases |order|
  {
    if order == [] {
    } else if pts[order[0]] < pts[i] {
      forall k | 0 <= k < |order|
        ensures Before(i, order[k], pts)
      {
        if k > 0 {
          assert Before(order[0], order[k], pts);
        }
      }
      ConsRanks(i, order, pts);
    } else {
      var rest := order[1..];
      InsertRanks(rest, pts, i);
      forall k | 0 <= k < |rest|
        ensures Before(order[0], rest[k], pts)
      {
        assert rest[k] == order[k + 1];
      }
      InsertLed(rest, pts, i, order[0]);
      ConsRanks(order[0], Insert(rest, pts, i), pts);
      assert Insert(order, pts, i) == [order[0]] + Insert(rest, pts, i);
    }
  }

  /** The numbers `0` to `n - 1`, in order. */
  function Range(n: nat): (r: seq<nat>)
    ensures |r| == n && forall k :: 0 <= k < n ==> r[k] == k
  {
    if n == 0 then [] else Range(n - 1) + [n - 1]
  }

  /** `Ranking(pts, n)` holds the games `0` to `n - 1`, each once. */
  lemma {:induction false} RankingPermutes(pts: seq<int>, n: nat)
    requires n <= |pts|
    ensures multiset(Ranking(pts, n)) == multiset(Range(n))
  {
    if n > 0 {
      RankingPermutes(pts, n - 1);
      assert Range(n) == Range(n - 1) + [n - 1];
    }
  }

  /** `Ranking(pts, n)` is in rank order. */
  lemma {:induction false} RankingOrdered(pts: seq<int>, n: nat)
    requires n <= |pts|
    ensures RankOrder(Ranking(pts, n), pts)
  {
    if n > 0 {
      RankingOrdered(pts, n - 1);
      RankingStep(pts, n);
    }
  }

  /** `Ranking(pts, n)` inserts game `n - 1` into the ranking of the games before it, which keeps it in rank order. */
  lemma RankingStep(pts: seq<int>, n: nat)
    requires 0 < n <= |pts| && RankOrder(Ranking(pts, n - 1), pts)
    ensures RankOrder(Ranking(pts, n), pts)
  {
    var prev := Ranking(pts, n - 1);
    InsertRanks(prev, pts, n - 1);
    assert Ranking(pts, n) == Insert(prev, pts, n - 1);
  }

  /**
   * `Ranking(pts, n)` is the stable descending sort of games `0` to
   * `n - 1` by points: it holds each of them exactly once, more points
   * come first, and equal points keep the games' original order.
   */
  lemma RankingSorts(pts: seq<int>, n: nat)
    requires n <= |pts|
    ensures var r := Ranking(pts, n);
            multiset(r) == multiset(Range(n)) && RankOrder(r, pts) && Unique(r) &&
            forall i :: 0 <= i < n ==> i in r
  {
    var r := Ranking(pts, n);
    RankingPermutes(pts, n);
    RankingOrdered(pts, n);
    forall a, b | 0 <= a < b < |r|
      ensures r[a] != r[b]
    {
    }
    forall i | 0 <= i < n
      ensures i in r
    {
      assert Range(n)[i] == i;
      assert i in multiset(Range(n));
    }
  }

  /** `order` lists every one of the games `0` to `|pts| - 1` once, best first and ties in their original order. */
  ghost predicate StableSort(order: seq<nat>, pts: seq<int>)
  {
    |order| == |pts| && Unique(order) && RankOrder(order, pts)
  }

  /** The order `sort(key=..., reverse=True)` puts games with the points `pts` in: a stable sort. */
  method SortOrder(pts: seq<int>) returns (order: seq<nat>)
    ensures StableSort(order, pts)
  {
    order := Ranking(pts, |pts|);
    RankingSorts(pts, |pts|);
  }

  // ---------------------------------------------------------------------
  // The teams and games `main` holds
  // ---------------------------------------------------------------------

  /** The screen is 1200 by 700 pixels; the field spans its middle half. */
  const Width: real := 1200.0
  const Height: real := 700.0
  const Bounds: (real, real) := (Width / 4.0, Width * 3.0 / 4.0)

  /** Every object of the teams `ts`. */
  ghost function TeamsRepr(ts: seq<Team>): set<object>
  {
    set t, o | t in ts && o in t.Repr :: o
  }

  /** Appending a team adds its objects. */
  lemma TeamsReprAppend(ts: seq<Team>, t: Team)
    ensures TeamsRepr(ts + [t]) == TeamsRepr(ts) + t.Repr
  {
    assert forall u :: u in ts + [t] <==> u in ts || u == t;
  }

  /** Every object of the games `gs`. */
  ghost function GamesRepr(gs: seq<Gridiron>): set<object>
  {
    set g, o | g in gs && o in g.Repr() :: o
  }

  /** A team sharing no object with the teams `ts` keeps its networks outside theirs. */
  lemma Outside(t: Team, ts: seq<Team>)
    requires t.Distinct() && Stranger(t, ts)
    ensures t.Networks() !! TeamsRepr(ts)
  {
  }

  /** Valid teams of one side. */
  ghost predicate Sided(ts: seq<Team>, side: Side)
    reads TeamsRepr(ts)
  {
    forall t :: t in ts ==> t.side == side && t.Valid()
  }

  /** The teams `ts` are distinct and share no object. */
  ghost predicate Separate(ts: seq<Team>)
  {
    Unique(ts) && forall t, u :: t in ts && u in ts && t != u ==> t.Repr !! u.Repr
  }

  /** No offense is a defense, and no offense shares an object with a defense. */
  ghost predicate Opposed(os: seq<Team>, ds: seq<Team>)
  {
    forall t, u :: t in os && u in ds ==> t != u && t.Repr !! u.Repr
  }

  /** Team `t` is none of the teams `ts` and shares no object with any of them. */
  ghost predicate Stranger(t: Team, ts: seq<Team>)
  {
    t !in ts && forall u :: u in ts ==> u.Repr !! t.Repr
  }

  /** `append` of a team that shares no object with the others keeps the teams separate. */
  lemma SeparateAppend(ts: seq<Team>, t: Team)
    requires Separate(ts) && Stranger(t, ts)
    ensures Separate(ts + [t])
  {
    var r := ts + [t];
    forall a, b | 0 <= a < b < |r|
      ensures r[a] != r[b]
    {
      if b == |ts| {
        assert r[a] in ts;
      } else {
        assert r[a] == ts[a] && r[b] == ts[b];
      }
    }
  }

  /** Appending one new team to each side keeps the sides apart. */
  lemma OpposedAppend(os: seq<Team>, ds: seq<Team>, o: Team, d: Team)
    requires Opposed(os, ds) && Stranger(o, ds) && Stranger(d, os + [o])
    ensures Opposed(os + [o], ds + [d])
  {
    forall t, u | t in os + [o] && u in ds + [d]
      ensures t != u && t.Repr !! u.Repr
    {
      if u == d {
        assert t in os + [o];
      }
    }
  }

  /** The players and the network weights of one team at some moment. */
  datatype Shot = Shot(bodies: seq<Body>, nets: seq<seq<Matrix>>)

  ghost function ShotOf(t: Team): Shot
    reads t.players, t.Networks()
  {
    Shot(t.Bodies(), t.Nets())
  }

  /** A team's players and networks are its objects. */
  lemma TeamObjects(t: Team)
    requires t.Distinct()
    ensures forall p :: p in t.players ==> p in t.Repr && p.network in t.Repr
  {
    forall p | p in t.players
      ensures p in t.Repr && p.network in t.Repr
    {
      var i :| 0 <= i < |t.players| && t.players[i] == p;
    }
  }

  /** A valid team none of whose objects changed is as valid as before and has the same shot. */
  twostate lemma TeamKept(t: Team)
    requires old(t.Valid()) && unchanged(t.Repr)
    ensures t.Valid() && ShotOf(t) == old(ShotOf(t))
  {
    TeamObjects(t);
  }

  /** The shots of all the teams `ts`, in order. */
  ghost function Shots(ts: seq<Team>): (r: seq<Shot>)
    requires forall t :: t in ts ==> t.Distinct()
    reads TeamsRepr(ts)
    ensures |r| == |ts| && forall k :: 0 <= k < |ts| ==> r[k] == ShotOf(ts[k])
  {
    if ts == [] then []
    else
      var t := ts[|ts| - 1];
      assert t in ts && TeamsRepr(ts[..|ts| - 1]) <= TeamsRepr(ts);
      TeamObjects(t);
      Shots(ts[..|ts| - 1]) + [ShotOf(t)]
  }

  /** Each team `ts[k]` is valid, of `side`, and stands as `shots[k]` says. */
  ghost predicate Recorded(ts: seq<Team>, side: Side, shots: seq<Shot>)
    reads TeamsRepr(ts)
  {
    |shots| == |ts| &&
    forall k :: 0 <= k < |ts| ==> ts[k].side == side && ts[k].Valid() && ShotOf(ts[k]) == shots[k]
  }

  /** Valid teams of one side are recorded by their own shots. */
  lemma SidedRecorded(ts: seq<Team>, side: Side)
    requires Sided(ts, side)
    ensures (forall t :: t in ts ==> t.Distinct()) && Recorded(ts, side, Shots(ts))
  {
    forall k | 0 <= k < |ts|
      ensures ts[k].side == side && ts[k].Valid()
    {
      assert ts[k] in ts;
    }
  }

  /** Recorded teams are valid teams of their side. */
  lemma RecordedSided(ts: seq<Team>, side: Side, shots: seq<Shot>)
    requires Recorded(ts, side, shots)
    ensures Sided(ts, side)
  {
    forall t | t in ts
      ensures t.side == side && t.Valid()
    {
      var k :| 0 <= k < |ts| && ts[k] == t;
    }
  }

  /** Recording one more valid team of the side. */
  lemma RecordAdd(ts: seq<Team>, t: Team, side: Side, shots: seq<Shot>)
    requires Recorded(ts, side, shots) && t.side == side && t.Valid()
    ensures Recorded(ts + [t], side, shots + [ShotOf(t)])
  {
    var ts', shots' := ts + [t], shots + [ShotOf(t)];
    forall k | 0 <= k < |ts|
      ensures ts'[k].side == side && ts'[k].Valid() && ShotOf(ts'[k]) == shots'[k]
    {
      assert ts'[k] == ts[k] && shots'[k] == shots[k];
    }
  }

  // ---------------------------------------------------------------------
  // The first generation
  // ---------------------------------------------------------------------

  /** Team `t` as `Offense()` or `Defense()` leaves it, its networks drawn from `init`. */
  ghost predicate Newborn(t: Team, side: Side, init: (nat, nat, nat, nat) -> real)
    reads t.Repr
  {
    t.side == side && t.Valid() && Covered(Positions(side), StatsTable(side)) &&
    t.Bodies() == NewRoster(Positions(side), StatsTable(side)) &&
    forall k :: 0 <= k < |t.players| ==> Drawn(t.Nets()[k], init, k)
  }

  /** Shot `k` is that of a newborn team of `side` drawn from `init(k)`. */
  ghost predicate NewbornShots(side: Side, init: nat -> (nat, nat, nat, nat) -> real, shots: seq<Shot>)
  {
    Covered(Positions(side), StatsTable(side)) &&
    forall k :: 0 <= k < |shots| ==>
      shots[k].bodies == NewRoster(Positions(side), StatsTable(side)) && |shots[k].nets| == |shots[k].bodies| &&
      forall j :: 0 <= j < |shots[k].nets| ==> Drawn(shots[k].nets[j], init(k), j)
  }

  /** The shot of a newborn team extends newborn shots. */
  lemma NewbornShotsAppend(side: Side, init: nat -> (nat, nat, nat, nat) -> real, shots: seq<Shot>, shot: Shot)
    requires NewbornShots(side, init, shots)
    requires shot.bodies == NewRoster(Positions(side), StatsTable(side)) && |shot.nets| == |shot.bodies|
    requires forall j :: 0 <= j < |shot.nets| ==> Drawn(shot.nets[j], init(|shots|), j)
    ensures NewbornShots(side, init, shots + [shot])
  {
    forall k | 0 <= k < |shots|
      ensures (shots + [shot])[k] == shots[k]
    {
    }
  }

  /** A recorded team with a newborn shot is `Newborn`. */
  lemma RecordedNewborn(ts: seq<Team>, side: Side, init: nat -> (nat, nat, nat, nat) -> real, shots: seq<Shot>, k: nat)
    requires Recorded(ts, side, shots) && NewbornShots(side, init, shots) && k < |ts|
    ensures Newborn(ts[k], side, init(k))
  {
  }

  /**
   * `team.Offense()` or `team.Defense()` with the draws `init`: a new team,
   * sharing no object with the teams `ts` and `others` there already are,
   * which stay as recorded.
   */
  method Recruit(side: Side, init: (nat, nat, nat, nat) -> real,
                 ghost ts: seq<Team>, ghost shots: seq<Shot>, ghost others: seq<Team>, ghost otherSide: Side, ghost otherShots: seq<Shot>)
    returns (t: Team)
    requires Recorded(ts, side, shots) && Recorded(others, otherSide, otherShots)
    ensures fresh(t.Repr) && Newborn(t, side, init) && Stranger(t, ts) && Stranger(t, others)
    ensures Recorded(ts, side, shots) && Recorded(others, otherSide, otherShots)
  {
    t := new Team(side, init);
  }

  /** Recording one more newborn team. */
  lemma NewbornAppend(ts: seq<Team>, t: Team, side: Side, init: nat -> (nat, nat, nat, nat) -> real, shots: seq<Shot>)
    requires Recorded(ts, side, shots) && NewbornShots(side, init, shots) && Newborn(t, side, init(|ts|))
    ensures Recorded(ts + [t], side, shots + [ShotOf(t)]) && NewbornShots(side, init, shots + [ShotOf(t)])
  {
    RecordAdd(ts, t, side, shots);
    NewbornShotsAppend(side, init, shots, ShotOf(t));
  }

  /**
   * The first generation, `for i in range(350)`: one new offense and one
   * new defense per turn, `offenseInit(i)` and `defenseInit(i)` the draws
   * of team `i`'s networks.
   */
  method FirstGeneration(offenseInit: nat -> (nat, nat, nat, nat) -> real, defenseInit: nat -> (nat, nat, nat, nat) -> real)
    returns (os: seq<Team>, ds: seq<Team>)
    ensures |os| == |ds| == FirstTeams && Separate(os) && Separate(ds) && Opposed(os, ds)
    ensures Sided(os, OffenseSide) && Sided(ds, DefenseSide)
    ensures forall k :: 0 <= k < FirstTeams ==> Newborn(os[k], OffenseSide, offenseInit(k))
    ensures forall k :: 0 <= k < FirstTeams ==> Newborn(ds[k], DefenseSide, defenseInit(k))
  {
    os, ds := [], [];
    ghost var oShots, dShots := [], [];
    SideRosters();
    while |os| < FirstTeams
      invariant |os| == |ds| <= FirstTeams
      invariant Recorded(os, OffenseSide, oShots) && Recorded(ds, DefenseSide, dShots)
      invariant NewbornShots(OffenseSide, offenseInit, oShots) && NewbornShots(DefenseSide, defenseInit, dShots)
      invariant Separate(os) && Separate(ds) && Opposed(os, ds)
    {
      var o := Recruit(OffenseSide, offenseInit(|os|), os, oShots, ds, DefenseSide, dShots);
      SeparateAppend(os, o);
      NewbornAppend(os, o, OffenseSide, offenseInit, oShots);
      var d := Recruit(DefenseSide, defenseInit(|ds|), ds, dShots, os + [o], OffenseSide, oShots + [ShotOf(o)]);
      SeparateAppend(ds, d);
      NewbornAppend(ds, d, DefenseSide, defenseInit, dShots);
      OpposedAppend(os, ds, o, d);
      os, oShots := os + [o], oShots + [ShotOf(o)];
      ds, dShots := ds + [d], dShots + [ShotOf(d)];
    }
    RecordedSided(os, OffenseSide, oShots);
    RecordedSided(ds, DefenseSide, dShots);
    forall k | 0 <= k < FirstTeams
      ensures Newborn(os[k], OffenseSide, offenseInit(k)) && Newborn(ds[k], DefenseSide, defenseInit(k))
    {
      RecordedNewborn(os, OffenseSide, offenseInit, oShots, k);
      RecordedNewborn(ds, DefenseSide, defenseInit, dShots, k);
    }
  }

  // ---------------------------------------------------------------------
  // `copy`
  // ---------------------------------------------------------------------

  /**
   * The random draws of one `copy`: the initial networks of the two new
   * teams (overwritten at once) and the draws of their mutations.
   */
  datatype CopyDraws = CopyDraws(offenseInit: (nat, nat, nat, nat) -> real, defenseInit: (nat, nat, nat, nat) -> real,
                                 offenseCoin: (nat, nat, nat) -> int, offenseDelta: (nat, nat, nat) -> real,
                                 defenseCoin: (nat, nat, nat) -> int, defenseDelta: (nat, nat, nat) -> real)

  /** `child` are the networks `parent` has after `Team.mutate` with the draws `coin` and `delta`. */
  ghost predicate Offspring(child: seq<seq<Matrix>>, parent: seq<seq<Matrix>>,
                            coin: (nat, nat, nat) -> int, delta: (nat, nat, nat) -> real)
  {
    |child| == |parent| && forall i :: 0 <= i < |child| ==> MutatedFrom(child[i], parent[i], coin, delta, i)
  }

  /** Shot `child` is a new team of `side` that took over `parent`'s weights and mutated them. */
  ghost predicate Copied(child: Shot, parent: Shot, side: Side, coin: (nat, nat, nat) -> int, delta: (nat, nat, nat) -> real)
  {
    Covered(Positions(side), StatsTable(side)) &&
    child.bodies == NewRoster(Positions(side), StatsTable(side)) && Offspring(child.nets, parent.nets, coin, delta)
  }

  /** Copy `k` of each side (shots `oChildren[k]`, `dChildren[k]`) is the `copy` of the `k`-th pair of parents, with the draws `copies(k)`. */
  ghost predicate Bred(oChildren: seq<Shot>, dChildren: seq<Shot>, oParents: seq<Shot>, dParents: seq<Shot>, copies: nat -> CopyDraws)
  {
    |oChildren| == |dChildren| == |oParents| == |dParents| &&
    forall k :: 0 <= k < |oParents| ==>
      Copied(oChildren[k], oParents[k], OffenseSide, copies(k).offenseCoin, copies(k).offenseDelta) &&
      Copied(dChildren[k], dParents[k], DefenseSide, copies(k).defenseCoin, copies(k).defenseDelta)
  }

  /** `n.network.weights = deepcopy(o.network.weights)` for the zipped players of two teams of one side. */
  method CopyWeights(source: Team, target: Team)
    requires source.Valid() && target.Valid() && source.side == target.side && source.Repr !! target.Repr
    modifies target.Networks()
    ensures target.Valid() && target.Bodies() == old(target.Bodies())
    ensures target.Nets() == source.Nets()
  {
    ghost var bodies := target.Bodies();
    var k := 0;
    while k < |source.players| && k < |target.players|
      invariant 0 <= k <= |target.players| == |source.players|
      invariant forall j :: 0 <= j < |target.players| ==> target.players[j].Valid()
      invariant forall j :: 0 <= j < k ==> target.players[j].network.weights == source.players[j].network.weights
      invariant target.Bodies() == bodies
    {
      assert source.players[k].Valid();
      assert forall j :: 0 <= j < |target.players| && j != k ==> target.players[j].network != target.players[k].network;
      target.players[k].network.weights := source.players[k].network.weights;
      k := k + 1;
    }
  }

  /**
   * One half of `copy`: a new team of `parent`'s side with `parent`'s
   * weights, mutated; it shares no object with the teams `ts` and `others`.
   */
  method CopyTeam(parent: Team, init: (nat, nat, nat, nat) -> real, coin: (nat, nat, nat) -> int, delta: (nat, nat, nat) -> real,
                  ghost ts: seq<Team>, ghost others: seq<Team>)
    returns (child: Team)
    requires parent.Valid()
    ensures fresh(child.Repr) && child.side == parent.side && child.Valid()
    ensures Stranger(child, ts) && Stranger(child, others)
    ensures Copied(ShotOf(child), ShotOf(parent), parent.side, coin, delta)
  {
    child := new Team(parent.side, init);
    CopyWeights(parent, child);
    child.Mutate(coin, delta);
  }

  /**
   * `copy(old_offense, old_defense)`: two new teams that take over the old
   * teams' weights and then mutate, the old teams untouched; they share no
   * object with the offenses `os` and the defenses `ds`, nor with each other.
   */
  method Copy(oldOffense: Team, oldDefense: Team, draws: CopyDraws, ghost os: seq<Team>, ghost ds: seq<Team>)
    returns (newOffense: Team, newDefense: Team)
    requires oldOffense.Valid() && oldOffense.side == OffenseSide && oldDefense.Valid() && oldDefense.side == DefenseSide
    ensures fresh(newOffense.Repr) && fresh(newDefense.Repr)
    ensures newOffense.Valid() && newOffense.side == OffenseSide && newDefense.Valid() && newDefense.side == DefenseSide
    ensures Stranger(newOffense, os) && Stranger(newOffense, ds) && Stranger(newDefense, os + [newOffense]) && Stranger(newDefense, ds)
    ensures Copied(ShotOf(newOffense), ShotOf(oldOffense), OffenseSide, draws.offenseCoin, draws.offenseDelta)
    ensures Copied(ShotOf(newDefense), ShotOf(oldDefense), DefenseSide, draws.defenseCoin, draws.defenseDelta)
  {
    newOffense := CopyTeam(oldOffense, draws.offenseInit, draws.offenseCoin, draws.offenseDelta, os, ds);
    newDefense := CopyTeam(oldDefense, draws.defenseInit, draws.defenseCoin, draws.defenseDelta, ds, os + [newOffense]);
  }

  // ---------------------------------------------------------------------
  // The purge
  // ---------------------------------------------------------------------

  /** Every team of `ts` is one of `us`. */
  ghost predicate Within(ts: seq<Team>, us: seq<Team>)
  {
    forall t :: t in ts ==> t in us
  }

  /** Distinct teams drawn from separate teams are separate. */
  lemma SeparateWithin(ts: seq<Team>, us: seq<Team>)
    requires Separate(us) && Unique(ts) && Within(ts, us)
    ensures Separate(ts)
  {
  }

  /** A shuffle of distinct elements has distinct elements. */
  lemma ShuffledUnique<T>(s: seq<T>, pick: nat -> nat)
    requires Unique(s)
    ensures Unique(Shuffled(s, pick, |s|))
  {
    ShuffledPermutes(s, pick, |s|);
  }

  /** Teams drawn from sides that are apart are apart. */
  lemma OpposedWithin(os: seq<Team>, ds: seq<Team>, us: seq<Team>, vs: seq<Team>)
    requires Opposed(us, vs) && Within(os, us) && Within(ds, vs)
    ensures Opposed(os, ds)
  {
  }

  /** Teams drawn from other teams have no objects of their own. */
  lemma ReprWithin(ts: seq<Team>, us: seq<Team>)
    requires Within(ts, us)
    ensures TeamsRepr(ts) <= TeamsRepr(us)
  {
  }

  /** Games drawn from other games have no objects of their own. */
  lemma GamesWithin(gs: seq<Gridiron>, hs: seq<Gridiron>)
    requires forall k :: 0 <= k < |gs| ==> gs[k] in hs
    ensures GamesRepr(gs) <= GamesRepr(hs)
  {
  }

  /** Teams drawn from valid teams of one side are valid teams of that side. */
  lemma SidedWithin(ts: seq<Team>, us: seq<Team>, side: Side)
    requires Sided(us, side) && Within(ts, us)
    ensures Sided(ts, side)
  {
  }

  /**
   * After `i` turns of the doubling loop over the `n` pairs `os`, `ds`:
   * the originals lead, unchanged, followed by the copies of the first `i`
   * pairs, each copied with its own draws.
   */
  ghost predicate DoubledUpTo(os: seq<Team>, ds: seq<Team>, oShots: seq<Shot>, dShots: seq<Shot>, draws: nat -> CopyDraws, i: nat,
                              os': seq<Team>, ds': seq<Team>, oShots': seq<Shot>, dShots': seq<Shot>)
  {
    var n := |os|;
    |ds| == |oShots| == |dShots| == n && i <= n &&
    |os'| == |ds'| == |oShots'| == |dShots'| == n + i &&
    os'[..n] == os && ds'[..n] == ds && oShots'[..n] == oShots && dShots'[..n] == dShots &&
    forall k :: 0 <= k < i ==>
      Copied(oShots'[n + k], oShots[k], OffenseSide, draws(k).offenseCoin, draws(k).offenseDelta) &&
      Copied(dShots'[n + k], dShots[k], DefenseSide, draws(k).defenseCoin, draws(k).defenseDelta)
  }

  /** Appending the copies of pair `i` advances the doubling by one turn. */
  lemma DoubledStep(os: seq<Team>, ds: seq<Team>, oShots: seq<Shot>, dShots: seq<Shot>, draws: nat -> CopyDraws, i: nat,
                    os': seq<Team>, ds': seq<Team>, oShots': seq<Shot>, dShots': seq<Shot>, o: Team, d: Team, oShot: Shot, dShot: Shot)
    requires DoubledUpTo(os, ds, oShots, dShots, draws, i, os', ds', oShots', dShots') && i < |os|
    requires Copied(oShot, oShots[i], OffenseSide, draws(i).offenseCoin, draws(i).offenseDelta)
    requires Copied(dShot, dShots[i], DefenseSide, draws(i).defenseCoin, draws(i).defenseDelta)
    ensures DoubledUpTo(os, ds, oShots, dShots, draws, i + 1, os' + [o], ds' + [d], oShots' + [oShot], dShots' + [dShot])
  {
    var n := |os|;
    assert (os' + [o])[..n] == os'[..n] && (ds' + [d])[..n] == ds'[..n];
    assert (oShots' + [oShot])[..n] == oShots'[..n] && (dShots' + [dShot])[..n] == dShots'[..n];
    forall k | 0 <= k < i + 1
      ensures Copied((oShots' + [oShot])[n + k], oShots[k], OffenseSide, draws(k).offenseCoin, draws(k).offenseDelta)
      ensures Copied((dShots' + [dShot])[n + k], dShots[k], DefenseSide, draws(k).defenseCoin, draws(k).defenseDelta)
    {
      if k < i {
        assert (oShots' + [oShot])[n + k] == oShots'[n + k] && (dShots' + [dShot])[n + k] == dShots'[n + k];
      }
    }
  }

  /** One turn of the doubling loop: `copy(active_offense[i], active_defense[i])` and the two appends. */
  method DoubleTurn(os: seq<Team>, ds: seq<Team>, ghost oShots: seq<Shot>, ghost dShots: seq<Shot>, draws: nat -> CopyDraws, i: nat,
                    os': seq<Team>, ds': seq<Team>, ghost oShots': seq<Shot>, ghost dShots': seq<Shot>)
    returns (o: Team, d: Team)
    requires DoubledUpTo(os, ds, oShots, dShots, draws, i, os', ds', oShots', dShots') && i < |os|
    requires Recorded(os', OffenseSide, oShots') && Recorded(ds', DefenseSide, dShots')
    requires Separate(os') && Separate(ds') && Opposed(os', ds')
    ensures fresh(o.Repr) && fresh(d.Repr)
    ensures DoubledUpTo(os, ds, oShots, dShots, draws, i + 1, os' + [o], ds' + [d], oShots' + [ShotOf(o)], dShots' + [ShotOf(d)])
    ensures Recorded(os' + [o], OffenseSide, oShots' + [ShotOf(o)]) && Recorded(ds' + [d], DefenseSide, dShots' + [ShotOf(d)])
    ensures Separate(os' + [o]) && Separate(ds' + [d]) && Opposed(os' + [o], ds' + [d])
  {
    assert os'[i] == os[i] && ds'[i] == ds[i] && oShots'[i] == oShots[i] && dShots'[i] == dShots[i];
    assert os'[i] in os' && ds'[i] in ds';
    label before:
    o, d := Copy(os'[i], ds'[i], draws(i), os', ds');
    forall k | 0 <= k < |os'|
      ensures os'[k].Valid() && ShotOf(os'[k]) == oShots'[k]
    {
      TeamKept@before(os'[k]);
    }
    forall k | 0 <= k < |ds'|
      ensures ds'[k].Valid() && ShotOf(ds'[k]) == dShots'[k]
    {
      TeamKept@before(ds'[k]);
    }
    RecordAdd(os', o, OffenseSide, oShots');
    RecordAdd(ds', d, DefenseSide, dShots');
    SeparateAppend(os', o);
    SeparateAppend(ds', d);
    OpposedAppend(os', ds', o, d);
    assert (os' + [o])[i] == os'[i] && (ds' + [d])[i] == ds'[i];
    DoubledStep(os, ds, oShots, dShots, draws, i, os', ds', oShots', dShots', o, d, ShotOf(o), ShotOf(d));
  }

  /**
   * `for i in range(len(active_offense))` over `copy`: the bound is taken
   * once, so each of the `n` original pairs gives one pair of copies,
   * appended after the originals, which stay as they were; `draws(i)` are
   * the draws of the `i`-th `copy`.
   */
  method Doubled(os: seq<Team>, ds: seq<Team>, draws: nat -> CopyDraws, ghost oShots: seq<Shot>, ghost dShots: seq<Shot>)
    returns (os': seq<Team>, ds': seq<Team>, ghost oc: seq<Team>, ghost dc: seq<Team>, ghost oShots': seq<Shot>, ghost dShots': seq<Shot>)
    requires |os| == |ds| && Separate(os) && Separate(ds) && Opposed(os, ds)
    requires Recorded(os, OffenseSide, oShots) && Recorded(ds, DefenseSide, dShots)
    ensures DoubledUpTo(os, ds, oShots, dShots, draws, |os|, os', ds', oShots', dShots')
    ensures Separate(os') && Separate(ds') && Opposed(os', ds')
    ensures Recorded(os', OffenseSide, oShots') && Recorded(ds', DefenseSide, dShots')
    ensures os' == os + oc && ds' == ds + dc
    ensures fresh(TeamsRepr(oc)) && fresh(TeamsRepr(dc))
  {
    var n := |os|;
    os', ds', oShots', dShots' := os, ds, oShots, dShots;
    oc, dc := [], [];
    var i := 0;
    while i < n
      invariant DoubledUpTo(os, ds, oShots, dShots, draws, i, os', ds', oShots', dShots')
      invariant Recorded(os', OffenseSide, oShots') && Recorded(ds', DefenseSide, dShots')
      invariant Separate(os') && Separate(ds') && Opposed(os', ds')
      invariant os' == os + oc && ds' == ds + dc
      invariant fresh(TeamsRepr(oc)) && fresh(TeamsRepr(dc))
    {
      var o, d := DoubleTurn(os, ds, oShots, dShots, draws, i, os', ds', oShots', dShots');
      TeamsReprAppend(oc, o);
      TeamsReprAppend(dc, d);
      os', oShots', oc := os' + [o], oShots' + [ShotOf(o)], oc + [o];
      ds', dShots', dc := ds' + [d], dShots' + [ShotOf(d)], dc + [d];
      i := i + 1;
    }
  }

  /** The teams of `games` are `os` and `ds`, pair by pair, on the 1200 by 700 screen. */
  ghost predicate Staged(games: seq<Gridiron>, os: seq<Team>, ds: seq<Team>)
  {
    |games| <= |os| && |games| <= |ds| && Unique(games) &&
    (forall k :: 0 <= k < |games| ==>
       games[k].offense == os[k] && games[k].defense == ds[k] && games[k].bounds == Bounds && games[k].height == Height) &&
    forall g :: g in games ==> g !in TeamsRepr(os) && g !in TeamsRepr(ds)
  }

  /** Distinct games that share no object. */
  ghost predicate GamesApart(games: seq<Gridiron>)
  {
    Unique(games) && forall a, b :: 0 <= a < b < |games| ==> games[a].Repr() !! games[b].Repr()
  }

  /** The games pair the teams `os` and `ds`, position by position, and share no object. */
  ghost predicate Matched(games: seq<Gridiron>, os: seq<Team>, ds: seq<Team>)
  {
    |games| == |os| == |ds| && Staged(games, os, ds) && GamesApart(games)
  }

  /** Every game is valid. */
  ghost predicate AllValid(games: seq<Gridiron>)
    reads GamesRepr(games)
  {
    forall k :: 0 <= k < |games| ==> games[k].Valid()
  }

  /** Every game is out of play with no points. */
  ghost predicate Unplayed(games: seq<Gridiron>)
    reads games
  {
    forall k :: 0 <= k < |games| ==> !games[k].inPlay && games[k].points == 0
  }

  /** Games staged over separate teams share no object. */
  lemma StagedMatched(games: seq<Gridiron>, os: seq<Team>, ds: seq<Team>)
    requires Staged(games, os, ds) && |games| == |os| == |ds|
    requires Separate(os) && Separate(ds) && Opposed(os, ds)
    ensures Matched(games, os, ds)
  {
    forall a, b | 0 <= a < b < |games|
      ensures games[a].Repr() !! games[b].Repr()
    {
      assert os[a] in os && os[b] in os && ds[a] in ds && ds[b] in ds;
      assert games[a] in games && games[b] in games;
    }
  }

  /** The teams of matched valid games are valid teams of their sides. */
  lemma MatchedSided(games: seq<Gridiron>, os: seq<Team>, ds: seq<Team>)
    requires Matched(games, os, ds) && AllValid(games)
    ensures Sided(os, OffenseSide) && Sided(ds, DefenseSide)
  {
    forall t | t in os
      ensures t.side == OffenseSide && t.Valid()
    {
      var k :| 0 <= k < |os| && os[k] == t;
      assert games[k].Valid();
    }
    forall t | t in ds
      ensures t.side == DefenseSide && t.Valid()
    {
      var k :| 0 <= k < |ds| && ds[k] == t;
      assert games[k].Valid();
    }
  }

  /** `gridiron.Gridiron(o, d, field_bounds, screen)` for the `k`-th pair; the teams and earlier games stay as they were. */
  method Stage(k: nat, os: seq<Team>, ds: seq<Team>, ghost oShots: seq<Shot>, ghost dShots: seq<Shot>, ghost games: seq<Gridiron>)
    returns (g: Gridiron)
    requires k < |os| && k < |ds| && Opposed(os, ds)
    requires Recorded(os, OffenseSide, oShots) && Recorded(ds, DefenseSide, dShots)
    requires AllValid(games) && Unplayed(games)
    ensures fresh(g) && g.offense == os[k] && g.defense == ds[k] && g.bounds == Bounds && g.height == Height
    ensures g.Valid() && !g.inPlay && g.points == 0
    ensures g !in TeamsRepr(os) && g !in TeamsRepr(ds)
    ensures Recorded(os, OffenseSide, oShots) && Recorded(ds, DefenseSide, dShots)
    ensures AllValid(games) && Unplayed(games)
  {
    assert os[k] in os && ds[k] in ds;
    g := new Gridiron(os[k], ds[k], Bounds, Height);
  }

  /**
   * `for o, d in zip(active_offense, active_defense)`: one new game per
   * pair, out of play, with no points, its teams as they stand.
   */
  method PairGames(os: seq<Team>, ds: seq<Team>, ghost oShots: seq<Shot>, ghost dShots: seq<Shot>)
    returns (games: seq<Gridiron>)
    requires |os| == |ds| && Separate(os) && Separate(ds) && Opposed(os, ds)
    requires Recorded(os, OffenseSide, oShots) && Recorded(ds, DefenseSide, dShots)
    ensures Matched(games, os, ds) && AllValid(games)
    ensures forall k :: 0 <= k < |games| ==> fresh(games[k])
    ensures Unplayed(games)
    ensures Recorded(os, OffenseSide, oShots) && Recorded(ds, DefenseSide, dShots)
  {
    games := [];
    while |games| < |os|
      invariant Staged(games, os, ds) && AllValid(games) && Unplayed(games)
      invariant forall k :: 0 <= k < |games| ==> fresh(games[k])
      invariant Recorded(os, OffenseSide, oShots) && Recorded(ds, DefenseSide, dShots)
    {
      var g := Stage(|games|, os, ds, oShots, dShots, games);
      assert g !in games;
      StagedSnoc(games, g, os, ds);
      GamesSnoc(games, g);
      games := games + [g];
    }
    StagedMatched(games, os, ds);
  }

  /** One more game on the next pair keeps the games staged. */
  lemma StagedSnoc(games: seq<Gridiron>, g: Gridiron, os: seq<Team>, ds: seq<Team>)
    requires Staged(games, os, ds) && |games| < |os| && |games| < |ds| && g !in games
    requires g.offense == os[|games|] && g.defense == ds[|games|] && g.bounds == Bounds && g.height == Height
    requires g !in TeamsRepr(os) && g !in TeamsRepr(ds)
    ensures Staged(games + [g], os, ds)
  {
    var gs := games + [g];
    forall k | 0 <= k < |gs|
      ensures gs[k].offense == os[k] && gs[k].defense == ds[k] && gs[k].bounds == Bounds && gs[k].height == Height
    {
      if k < |games| {
        assert gs[k] == games[k];
      }
    }
  }

  /** A valid game out of play with no points can join valid unplayed games. */
  lemma GamesSnoc(games: seq<Gridiron>, g: Gridiron)
    requires AllValid(games) && Unplayed(games) && g.Valid() && !g.inPlay && g.points == 0
    ensures AllValid(games + [g]) && Unplayed(games + [g])
  {
    var gs := games + [g];
    forall k | 0 <= k < |gs|
      ensures gs[k].Valid() && !gs[k].inPlay && gs[k].points == 0
    {
      if k < |games| {
        assert gs[k] == games[k];
      }
    }
  }

  /** A valid game's players and the game itself are its objects. */
  lemma GameObjects(g: Gridiron)
    requires g.Valid()
    ensures g in g.Repr()
    ensures forall p :: p in g.offense.players ==> p in g.Repr() && p.network in g.Repr()
    ensures forall p :: p in g.defense.players ==> p in g.Repr() && p.network in g.Repr()
  {
    TeamObjects(g.offense);
    TeamObjects(g.defense);
  }

  // ---------------------------------------------------------------------
  // Play and selection
  // ---------------------------------------------------------------------

  /** `active_games[k].update()`; the other games stay as they were. */
  method PlayOne(games: seq<Gridiron>, k: nat, g: Gridiron, tick: TickInput, env: Env)
    requires k < |games| && g == games[k] && GamesApart(games) && AllValid(games)
    modifies g.offense.players, g.defense.players, g`inPlay, g`points
    ensures AllValid(games)
    ensures forall j :: 0 <= j < |games| ==>
              games[j].offense.Nets() == old(games[j].offense.Nets()) && games[j].defense.Nets() == old(games[j].defense.Nets())
    ensures forall j :: 0 <= j < |games| && j != k ==> games[j].State() == old(games[j].State())
    ensures Ticked(old(games[k].State()), games[k].State(), games[k].offense.Nets(), games[k].defense.Nets(), tick, games[k].Geo(), env)
  {
    GameObjects(g);
    forall j | 0 <= j < |games| && j != k
      ensures games[j].Repr() !! g.Repr()
    {
      if j < k {
        assert games[j].Repr() !! games[k].Repr();
      } else {
        assert games[k].Repr() !! games[j].Repr();
      }
    }
    g.Update(tick, env);
    forall j | 0 <= j < |games| && j != k
      ensures games[j].Valid() && games[j].State() == old(games[j].State())
      ensures games[j].offense.Nets() == old(games[j].offense.Nets()) && games[j].defense.Nets() == old(games[j].defense.Nets())
    {
      Untouched(games[j]);
    }
  }

  /** A game none of whose objects changed is as valid as before and in the same state. */
  twostate lemma Untouched(g: Gridiron)
    requires old(g.Valid()) && unchanged(g.Repr())
    ensures g.Valid() && g.State() == old(g.State())
    ensures g.offense.Nets() == old(g.offense.Nets()) && g.defense.Nets() == old(g.defense.Nets())
  {
    GameObjects(g);
  }

  /** `for i in range(len(active_games)): active_games[i].update()`, with `ticks(k)` the draws of game `k`. */
  method PlayGames(games: seq<Gridiron>, ticks: nat -> TickInput, env: Env)
    requires GamesApart(games) && AllValid(games)
    modifies GamesRepr(games)
    ensures AllValid(games)
    ensures forall k :: 0 <= k < |games| ==>
              games[k].offense.Nets() == old(games[k].offense.Nets()) && games[k].defense.Nets() == old(games[k].defense.Nets())
    ensures forall k :: 0 <= k < |games| ==>
              Ticked(old(games[k].State()), games[k].State(), games[k].offense.Nets(), games[k].defense.Nets(), ticks(k), games[k].Geo(), env)
  {
    var i := 0;
    while i < |games|
      invariant 0 <= i <= |games| && AllValid(games)
      invariant forall k :: 0 <= k < |games| ==>
                  games[k].offense.Nets() == old(games[k].offense.Nets()) && games[k].defense.Nets() == old(games[k].defense.Nets())
      invariant forall k :: i <= k < |games| ==> games[k].State() == old(games[k].State())
      invariant forall k :: 0 <= k < i ==>
                  Ticked(old(games[k].State()), games[k].State(), games[k].offense.Nets(), games[k].defense.Nets(), ticks(k), games[k].Geo(), env)
    {
      GameObjects(games[i]);
      assert games[i] in games;
      PlayOne(games, i, games[i], ticks(i), env);
      i := i + 1;
    }
  }

  /**
   * `for winner_idx in range(int(len(active_games) / 2))` and the loop
   * after it: the offenses of the first half of the sorted games and the
   * defenses of the second half.
   */
  method Winners(sorted: seq<Gridiron>) returns (ws: seq<Team>, ls: seq<Team>)
    ensures |ws| == |sorted| / 2 && |ls| == |sorted| - |sorted| / 2
    ensures forall k :: 0 <= k < |ws| ==> ws[k] == sorted[k].offense
    ensures forall k :: 0 <= k < |ls| ==> ls[k] == sorted[|sorted| / 2 + k].defense
  {
    var half := |sorted| / 2;
    ws, ls := [], [];
    var w := 0;
    while w < half
      invariant 0 <= w <= half && |ws| == w
      invariant forall k :: 0 <= k < w ==> ws[k] == sorted[k].offense
    {
      ws := ws + [sorted[w].offense];
      w := w + 1;
    }
    while w < |sorted|
      invariant half <= w <= |sorted| && |ls| == w - half
      invariant forall k :: 0 <= k < w - half ==> ls[k] == sorted[half + k].defense
    {
      ls := ls + [sorted[w].defense];
      w := w + 1;
    }
  }

  /** The winners and losers picked from matched games in a rank order are drawn from the two sides and stay separate. */
  lemma WinnersApart(os: seq<Team>, ds: seq<Team>, games: seq<Gridiron>, order: seq<nat>, sorted: seq<Gridiron>, ws: seq<Team>, ls: seq<Team>)
    requires Matched(games, os, ds) && Separate(os) && Separate(ds) && Opposed(os, ds)
    requires |order| == |os| && Unique(order) && forall k :: 0 <= k < |order| ==> order[k] < |os|
    requires |sorted| == |order| && forall k :: 0 <= k < |order| ==> sorted[k] == games[order[k]]
    requires |ws| == |sorted| / 2 && |ls| == |sorted| - |sorted| / 2
    requires forall k :: 0 <= k < |ws| ==> ws[k] == sorted[k].offense
    requires forall k :: 0 <= k < |ls| ==> ls[k] == sorted[|sorted| / 2 + k].defense
    ensures Within(ws, os) && Within(ls, ds)
    ensures Separate(ws) && Separate(ls) && Opposed(ws, ls)
  {
    WinnersPicked(os, ds, games, order, sorted, ws, ls);
    PicksApart(os, ds, order, ws, ls);
  }

  /** The winners are the teams of the ranked games, found at their original positions. */
  lemma WinnersPicked(os: seq<Team>, ds: seq<Team>, games: seq<Gridiron>, order: seq<nat>, sorted: seq<Gridiron>, ws: seq<Team>, ls: seq<Team>)
    requires Matched(games, os, ds)
    requires |order| == |os| && forall k :: 0 <= k < |order| ==> order[k] < |os|
    requires |sorted| == |order| && forall k :: 0 <= k < |order| ==> sorted[k] == games[order[k]]
    requires |ws| == |sorted| / 2 && |ls| == |sorted| - |sorted| / 2
    requires forall k :: 0 <= k < |ws| ==> ws[k] == sorted[k].offense
    requires forall k :: 0 <= k < |ls| ==> ls[k] == sorted[|sorted| / 2 + k].defense
    ensures forall k :: 0 <= k < |ws| ==> ws[k] == os[order[k]]
    ensures forall k :: 0 <= k < |ls| ==> ls[k] == ds[order[|ws| + k]]
  {
    forall k | 0 <= k < |ws|
      ensures ws[k] == os[order[k]]
    {
      assert sorted[k] == games[order[k]];
    }
    forall k | 0 <= k < |ls|
      ensures ls[k] == ds[order[|ws| + k]]
    {
      assert sorted[|ws| + k] == games[order[|ws| + k]];
    }
  }

  /** Teams picked at distinct positions: the first `|ws|` among `os`, the rest among `ds`. */
  lemma PicksApart(os: seq<Team>, ds: seq<Team>, order: seq<nat>, ws: seq<Team>, ls: seq<Team>)
    requires Separate(os) && Separate(ds) && Opposed(os, ds) && |os| == |ds|
    requires |order| == |os| == |ws| + |ls| && Unique(order) && forall k :: 0 <= k < |order| ==> order[k] < |os|
    requires forall k :: 0 <= k < |ws| ==> ws[k] == os[order[k]]
    requires forall k :: 0 <= k < |ls| ==> ls[k] == ds[order[|ws| + k]]
    ensures Within(ws, os) && Within(ls, ds)
    ensures Separate(ws) && Separate(ls) && Opposed(ws, ls)
  {
    var top: seq<nat>, bottom: seq<nat> := order[..|ws|], order[|ws|..];
    UniqueSlices(order, |ws|);
    assert forall k :: 0 <= k < |ws| ==> top[k] < |os| && ws[k] == os[top[k]];
    assert forall k :: 0 <= k < |ls| ==> bottom[k] < |ds| && ls[k] == ds[bottom[k]] by {
      forall k | 0 <= k < |ls|
        ensures bottom[k] < |ds| && ls[k] == ds[bottom[k]]
      {
        assert bottom[k] == order[|ws| + k];
      }
    }
    PickedApart(ws, os, top);
    PickedApart(ls, ds, bottom);
    OpposedWithin(ws, ls, os, ds);
  }

  /** Both parts of a sequence of distinct elements have distinct elements. */
  lemma UniqueSlices<T>(s: seq<T>, n: nat)
    requires Unique(s) && n <= |s|
    ensures Unique(s[..n]) && Unique(s[n..])
  {
    forall a, b | 0 <= a < b < |s| - n
      ensures s[n..][a] != s[n..][b]
    {
      assert s[n..][a] == s[n + a] && s[n..][b] == s[n + b];
    }
  }

  /** Teams picked at distinct positions of separate teams are separate teams among them. */
  lemma PickedApart(ts: seq<Team>, us: seq<Team>, at: seq<nat>)
    requires Separate(us) && |at| == |ts| && Unique(at)
    requires forall k :: 0 <= k < |ts| ==> at[k] < |us| && ts[k] == us[at[k]]
    ensures Within(ts, us) && Separate(ts)
  {
    forall a, b | 0 <= a < b < |ts|
      ensures ts[a] != ts[b]
    {
      assert at[a] != at[b];
    }
    forall t | t in ts
      ensures t in us
    {
      var k :| 0 <= k < |ts| && ts[k] == t;
      assert us[at[k]] in us;
    }
    SeparateWithin(ts, us);
  }

  /**
   * `active_games.sort(key=lambda x: x.points, reverse=True)` and the
   * two loops that collect the winners, over games that pair the teams
   * `os` and `ds`; nothing changes but the order.
   */
  method Rank(gs: seq<Gridiron>, ghost os: seq<Team>, ghost ds: seq<Team>)
    returns (sorted: seq<Gridiron>, ws: seq<Team>, ls: seq<Team>, ghost pts: seq<int>, ghost order: seq<nat>)
    requires Matched(gs, os, ds) && AllValid(gs) && |os| == 2 * FirstTeams
    requires Separate(os) && Separate(ds) && Opposed(os, ds)
    ensures Selected(gs, pts, order, sorted, ws, ls)
    ensures GamesRepr(sorted) <= GamesRepr(gs) && TeamsRepr(ws) <= TeamsRepr(os) && TeamsRepr(ls) <= TeamsRepr(ds)
    ensures Population(ws, ls, sorted, true)
  {
    MatchedSided(gs, os, ds);
    var keys := seq(|gs|, k requires 0 <= k < |gs| reads gs => gs[k].points);
    var rank := SortOrder(keys);
    sorted := seq(|rank|, k requires 0 <= k < |rank| => gs[rank[k]]);
    ws, ls := Winners(sorted);
    WinnersApart(os, ds, gs, rank, sorted, ws, ls);
    SidedWithin(ws, os, OffenseSide);
    SidedWithin(ls, ds, DefenseSide);
    ReprWithin(ws, os);
    ReprWithin(ls, ds);
    GamesWithin(sorted, gs);
    pts, order := keys, rank;
  }

  /**
   * The doubling of the purge: the `n` pairs `os`, `ds` followed by
   * their copies `oc`, `dc`, new teams that took over the originals'
   * weights and mutated them.
   */
  method Breed(os: seq<Team>, ds: seq<Team>, copies: nat -> CopyDraws)
    returns (os': seq<Team>, ds': seq<Team>, ghost oc: seq<Team>, ghost dc: seq<Team>)
    requires |os| == |ds| && Separate(os) && Separate(ds) && Opposed(os, ds)
    requires Sided(os, OffenseSide) && Sided(ds, DefenseSide)
    ensures |oc| == |dc| == |os| && os' == os + oc && ds' == ds + dc
    ensures Separate(os') && Separate(ds') && Opposed(os', ds')
    ensures Sided(os', OffenseSide) && Sided(ds', DefenseSide) && Sided(oc, OffenseSide) && Sided(dc, DefenseSide)
    ensures fresh(TeamsRepr(oc)) && fresh(TeamsRepr(dc))
    ensures Bred(Shots(oc), Shots(dc), old(Shots(os)), old(Shots(ds)), copies)
  {
    var n := |os|;
    SidedRecorded(os, OffenseSide);
    SidedRecorded(ds, DefenseSide);
    ghost var oShots0, dShots0 := Shots(os), Shots(ds);
    ghost var oShots, dShots;
    os', ds', oc, dc, oShots, dShots := Doubled(os, ds, copies, oShots0, dShots0);
    RecordedSided(os', OffenseSide, oShots);
    RecordedSided(ds', DefenseSide, dShots);
    RecordedSuffix(os, oc, OffenseSide, oShots);
    RecordedSuffix(ds, dc, DefenseSide, dShots);
    RecordedSided(oc, OffenseSide, oShots[n..]);
    RecordedSided(dc, DefenseSide, dShots[n..]);
    RecordedShots(oc, OffenseSide, oShots[n..]);
    RecordedShots(dc, DefenseSide, dShots[n..]);
    DoubledBred(os, ds, oShots0, dShots0, copies, os', ds', oShots, dShots);
  }

  /** Once the doubling is complete, the copies' shots are bred from the originals'. */
  lemma DoubledBred(os: seq<Team>, ds: seq<Team>, oShots: seq<Shot>, dShots: seq<Shot>, draws: nat -> CopyDraws,
                    os': seq<Team>, ds': seq<Team>, oShots': seq<Shot>, dShots': seq<Shot>)
    requires DoubledUpTo(os, ds, oShots, dShots, draws, |os|, os', ds', oShots', dShots')
    ensures Bred(oShots'[|os|..], dShots'[|os|..], oShots, dShots, draws)
  {
    var n := |os|;
    forall k | 0 <= k < n
      ensures oShots'[n..][k] == oShots'[n + k] && dShots'[n..][k] == dShots'[n + k]
    {
    }
  }

  /** The teams after the first `|ts|` are recorded by the shots after the first `|ts|`. */
  lemma RecordedSuffix(ts: seq<Team>, us: seq<Team>, side: Side, shots: seq<Shot>)
    requires Recorded(ts + us, side, shots)
    ensures Recorded(us, side, shots[|ts|..])
  {
    forall k | 0 <= k < |us|
      ensures us[k] == (ts + us)[|ts| + k] && shots[|ts|..][k] == shots[|ts| + k]
    {
    }
  }

  /** Recorded teams' shots are their records. */
  lemma RecordedShots(ts: seq<Team>, side: Side, shots: seq<Shot>)
    requires Recorded(ts, side, shots)
    ensures (forall t :: t in ts ==> t.Distinct()) && Shots(ts) == shots
  {
    RecordedSided(ts, side, shots);
  }

  /** Shuffles of separate, opposed sides are separate and opposed, and hold only teams of those sides. */
  lemma ShuffledApart(us: seq<Team>, vs: seq<Team>, oPick: nat -> nat, dPick: nat -> nat)
    requires Separate(us) && Separate(vs) && Opposed(us, vs)
    ensures var so, sd := Shuffled(us, oPick, |us|), Shuffled(vs, dPick, |vs|);
            Separate(so) && Separate(sd) && Opposed(so, sd) &&
            Within(so, us) && Within(sd, vs) && Within(us, so) && Within(vs, sd)
  {
    var so, sd := Shuffled(us, oPick, |us|), Shuffled(vs, dPick, |vs|);
    ShuffledPermutes(us, oPick, |us|);
    ShuffledPermutes(vs, dPick, |vs|);
    ShuffledUnique(us, oPick);
    ShuffledUnique(vs, dPick);
    SameElements(us, so);
    SameElements(vs, sd);
    assert Unique(so);
    assert Within(so, us);
    assert Separate(us);
    SeparateWithin(so, us);
    assert Unique(sd);
    assert Within(sd, vs);
    assert Separate(vs);
    SeparateWithin(sd, vs);
    OpposedWithin(so, sd, us, vs);
  }

  /** The doubling and the two shuffles of the purge: `so` and `sd` are the shuffled sides, `oc` and `dc` the copies. */
  method Reshuffle(os: seq<Team>, ds: seq<Team>, copies: nat -> CopyDraws, oPick: nat -> nat, dPick: nat -> nat)
    returns (so: seq<Team>, sd: seq<Team>, ghost oc: seq<Team>, ghost dc: seq<Team>)
    requires Population(os, ds, [], true)
    ensures |oc| == |dc| == |os|
    ensures so == Shuffled(os + oc, oPick, |os + oc|) && sd == Shuffled(ds + dc, dPick, |ds + dc|)
    ensures fresh(TeamsRepr(oc)) && fresh(TeamsRepr(dc))
    ensures Sided(oc, OffenseSide) && Sided(dc, DefenseSide)
    ensures Bred(Shots(oc), Shots(dc), old(Shots(os)), old(Shots(ds)), copies)
    ensures |so| == |sd| == 2 * FirstTeams && Separate(so) && Separate(sd) && Opposed(so, sd)
    ensures Sided(so, OffenseSide) && Sided(sd, DefenseSide) && Within(oc, so) && Within(dc, sd)
  {
    var os', ds';
    os', ds', oc, dc := Breed(os, ds, copies);
    so := Shuffled(os', oPick, |os'|);
    sd := Shuffled(ds', dPick, |ds'|);
    ShuffledPermutes(os', oPick, |os'|);
    ShuffledPermutes(ds', dPick, |ds'|);
    ShuffledApart(os', ds', oPick, dPick);
    SidedWithin(so, os', OffenseSide);
    SidedWithin(sd, ds', DefenseSide);
  }

  /**
   * The purge without its flags: double the teams, shuffle each side and
   * pair them into new games, all out of play with no points.
   */
  method Repopulate(os: seq<Team>, ds: seq<Team>, copies: nat -> CopyDraws, oPick: nat -> nat, dPick: nat -> nat)
    returns (so: seq<Team>, sd: seq<Team>, games: seq<Gridiron>, ghost oc: seq<Team>, ghost dc: seq<Team>,
                                                               ghost ocShots: seq<Shot>, ghost dcShots: seq<Shot>)
    requires Population(os, ds, [], true)
    ensures |oc| == |dc| == FirstTeams
    ensures so == Shuffled(os + oc, oPick, |os + oc|) && sd == Shuffled(ds + dc, dPick, |ds + dc|)
    ensures fresh(TeamsRepr(oc)) && fresh(TeamsRepr(dc))
    ensures Recorded(oc, OffenseSide, ocShots) && Recorded(dc, DefenseSide, dcShots)
    ensures Bred(ocShots, dcShots, old(Shots(os)), old(Shots(ds)), copies)
    ensures Population(so, sd, games, false)
    ensures forall k :: 0 <= k < |games| ==> fresh(games[k])
    ensures Unplayed(games)
  {
    so, sd, oc, dc := Reshuffle(os, ds, copies, oPick, dPick);
    SidedRecorded(so, OffenseSide);
    SidedRecorded(sd, DefenseSide);
    SidedRecorded(oc, OffenseSide);
    SidedRecorded(dc, DefenseSide);
    ghost var soShots, sdShots := Shots(so), Shots(sd);
    ocShots, dcShots := Shots(oc), Shots(dc);
    RecordedAgree(oc, so, OffenseSide, ocShots, soShots);
    RecordedAgree(dc, sd, DefenseSide, dcShots, sdShots);
    games := PairGames(so, sd, soShots, sdShots);
    AgreeRecorded(oc, so, OffenseSide, ocShots, soShots);
    AgreeRecorded(dc, sd, DefenseSide, dcShots, sdShots);
  }

  /** Teams `ts` found among the teams `us` are recorded as `us` are: shots agree wherever the teams do. */
  ghost predicate Agree(ts: seq<Team>, us: seq<Team>, tShots: seq<Shot>, uShots: seq<Shot>)
  {
    |tShots| == |ts| && |uShots| == |us| && Within(ts, us) &&
    forall k, i :: 0 <= k < |ts| && 0 <= i < |us| && ts[k] == us[i] ==> tShots[k] == uShots[i]
  }

  /** Recorded teams drawn from other recorded teams agree with them. */
  lemma RecordedAgree(ts: seq<Team>, us: seq<Team>, side: Side, tShots: seq<Shot>, uShots: seq<Shot>)
    requires Recorded(ts, side, tShots) && Recorded(us, side, uShots) && Within(ts, us)
    ensures Agree(ts, us, tShots, uShots)
  {
  }

  /** Teams drawn from recorded teams, with agreeing shots, are recorded by those shots. */
  lemma AgreeRecorded(ts: seq<Team>, us: seq<Team>, side: Side, tShots: seq<Shot>, uShots: seq<Shot>)
    requires Recorded(us, side, uShots) && Agree(ts, us, tShots, uShots)
    ensures Recorded(ts, side, tShots)
  {
    forall k | 0 <= k < |ts|
      ensures ts[k].side == side && ts[k].Valid() && ShotOf(ts[k]) == tShots[k]
    {
      assert ts[k] in ts;
      var i :| 0 <= i < |us| && us[i] == ts[k];
    }
  }

  /**
   * The active teams and games: as many offenses as defenses, no team
   * twice and no object shared; waiting for the purge, the 350 surviving
   * pairs of valid teams; playing, 700 pairs, each in its own valid game.
   */
  ghost predicate Population(os: seq<Team>, ds: seq<Team>, games: seq<Gridiron>, purge: bool)
    reads TeamsRepr(os), TeamsRepr(ds), GamesRepr(games)
  {
    |os| == |ds| && Separate(os) && Separate(ds) && Opposed(os, ds) &&
    (purge ==> |os| == FirstTeams && Sided(os, OffenseSide) && Sided(ds, DefenseSide)) &&
    (!purge ==> |os| == 2 * FirstTeams && Matched(games, os, ds) && AllValid(games))
  }

  /** The random draws of one frame of `main`. */
  datatype FrameDraws = FrameDraws(copies: nat -> CopyDraws, offensePick: nat -> nat, defensePick: nat -> nat, ticks: nat -> TickInput)

  /**
   * The globals of `main`: the two lists of teams, the active games, the
   * frame counter `time`, the generation counter `gen` and the `purge` flag.
   */
  datatype World = World(offenses: seq<Team>, defenses: seq<Team>, games: seq<Gridiron>,
                         time: int, gen: nat, purge: bool)

  /** The population is well formed, and a generation is at most 600 frames in. */
  ghost predicate Valid(w: World)
    reads TeamsRepr(w.offenses), TeamsRepr(w.defenses), GamesRepr(w.games)
  {
    Population(w.offenses, w.defenses, w.games, w.purge) && (!w.purge ==> 0 <= w.time <= LastTime)
  }

  /** The first generation and the initial globals: no games, `time = 0`, `gen = 0`, `purge = True`. */
  method Start(offenseInit: nat -> (nat, nat, nat, nat) -> real, defenseInit: nat -> (nat, nat, nat, nat) -> real)
    returns (w: World)
    ensures Valid(w) && w.purge && w.time == 0 && w.gen == 0 && w.games == []
    ensures |w.offenses| == |w.defenses| == FirstTeams
    ensures forall k :: 0 <= k < FirstTeams ==>
              Newborn(w.offenses[k], OffenseSide, offenseInit(k)) && Newborn(w.defenses[k], DefenseSide, defenseInit(k))
  {
    var os, ds := FirstGeneration(offenseInit, defenseInit);
    w := World(os, ds, [], 0, 0, true);
  }

  /**
   * The purge frame: clear the games, double the teams with `copy`,
   * shuffle each side, pair them into 700 new games, then `purge` off,
   * `gen += 1` and `time = 0`. `oc` and `dc` are the copies, and
   * `ocShots`, `dcShots` their contents.
   */
  method Purge(w: World, copies: nat -> CopyDraws, offensePick: nat -> nat, defensePick: nat -> nat)
    returns (w': World, ghost oc: seq<Team>, ghost dc: seq<Team>, ghost ocShots: seq<Shot>, ghost dcShots: seq<Shot>)
    requires Valid(w) && w.purge
    ensures Valid(w') && !w'.purge && w'.time == 0 && w'.gen == w.gen + 1
    ensures |oc| == |dc| == FirstTeams && |w'.games| == 2 * FirstTeams
    ensures w'.offenses == Shuffled(w.offenses + oc, offensePick, |w.offenses + oc|)
    ensures w'.defenses == Shuffled(w.defenses + dc, defensePick, |w.defenses + dc|)
    ensures fresh(TeamsRepr(oc)) && fresh(TeamsRepr(dc))
    ensures Recorded(oc, OffenseSide, ocShots) && Recorded(dc, DefenseSide, dcShots)
    ensures Bred(ocShots, dcShots, old(Shots(w.offenses)), old(Shots(w.defenses)), copies)
    ensures forall k :: 0 <= k < |w'.games| ==>
              fresh(w'.games[k]) && w'.games[k].offense == w'.offenses[k] && w'.games[k].defense == w'.defenses[k]
    ensures Unplayed(w'.games)
  {
    // `active_games.clear()`: the old games are dropped and replaced by the new ones.
    var so, sd, gs;
    so, sd, gs, oc, dc, ocShots, dcShots := Repopulate(w.offenses, w.defenses, copies, offensePick, defensePick);
    w' := World(so, sd, gs, 0, w.gen + 1, false);
  }

  /**
   * The play part of a frame: `time += 1` and every game updates once;
   * the teams and the games stay the same objects.
   */
  method Play(w: World, ticks: nat -> TickInput, env: Env) returns (w': World)
    requires Valid(w) && !w.purge
    modifies GamesRepr(w.games)
    ensures w' == w.(time := w.time + 1)
    ensures Population(w.offenses, w.defenses, w.games, false)
    ensures Played(w.games, old(States(w.games)), old(OffenseNets(w.games)), old(DefenseNets(w.games)), ticks, env)
  {
    PlayGames(w.games, ticks, env);
    w' := w.(time := w.time + 1);
  }

  /** The states of the valid games `gs`, in order. */
  ghost function States(gs: seq<Gridiron>): (r: seq<Game>)
    requires AllValid(gs)
    reads GamesRepr(gs)
    ensures |r| == |gs| && forall k :: 0 <= k < |gs| ==> r[k] == gs[k].State()
  {
    seq(|gs|, k requires 0 <= k < |gs| && AllValid(gs) reads GamesRepr(gs) =>
      assert gs[k] in gs; GameNetworks(gs[k]); gs[k].State())
  }

  /** The offenses' network weights of the valid games `gs`, in order. */
  ghost function OffenseNets(gs: seq<Gridiron>): (r: seq<seq<seq<Matrix>>>)
    requires AllValid(gs)
    reads GamesRepr(gs)
    ensures |r| == |gs| && forall k :: 0 <= k < |gs| ==> r[k] == gs[k].offense.Nets()
  {
    seq(|gs|, k requires 0 <= k < |gs| && AllValid(gs) reads GamesRepr(gs) =>
      assert gs[k] in gs; GameNetworks(gs[k]); gs[k].offense.Nets())
  }

  /** The defenses' network weights of the valid games `gs`, in order. */
  ghost function DefenseNets(gs: seq<Gridiron>): (r: seq<seq<seq<Matrix>>>)
    requires AllValid(gs)
    reads GamesRepr(gs)
    ensures |r| == |gs| && forall k :: 0 <= k < |gs| ==> r[k] == gs[k].defense.Nets()
  {
    seq(|gs|, k requires 0 <= k < |gs| && AllValid(gs) reads GamesRepr(gs) =>
      assert gs[k] in gs; GameNetworks(gs[k]); gs[k].defense.Nets())
  }

  /** The screen geometry of each of the games `gs`. */
  function Geos(gs: seq<Gridiron>): (r: seq<Geometry>)
    ensures |r| == |gs| && forall k :: 0 <= k < |gs| ==> r[k] == gs[k].Geo()
  {
    seq(|gs|, k requires 0 <= k < |gs| => gs[k].Geo())
  }

  /** Game `k` goes from `before[k]` to `after[k]` in one `update`, with the draws `ticks(k)`. */
  predicate AllTicked(before: seq<Game>, after: seq<Game>, oNets: seq<seq<seq<Matrix>>>, dNets: seq<seq<seq<Matrix>>>,
                      ticks: nat -> TickInput, geos: seq<Geometry>, env: Env)
  {
    |after| == |before| && |oNets| == |before| && |dNets| == |before| && |geos| == |before| &&
    forall k :: 0 <= k < |before| ==> Ticked(before[k], after[k], oNets[k], dNets[k], ticks(k), geos[k], env)
  }

  /**
   * Every game of `games` went through one `update` from the state
   * `before[k]`, game `k` with the draws `ticks(k)`; the games are still
   * valid and their networks are still `oNets` and `dNets`.
   */
  ghost predicate Played(games: seq<Gridiron>, before: seq<Game>, oNets: seq<seq<seq<Matrix>>>, dNets: seq<seq<seq<Matrix>>>,
                         ticks: nat -> TickInput, env: Env)
    reads GamesRepr(games)
  {
    AllValid(games) && OffenseNets(games) == oNets && DefenseNets(games) == dNets &&
    AllTicked(before, States(games), oNets, dNets, ticks, Geos(games), env)
  }

  /** What a game's state and networks are read from lies inside the game. */
  lemma GameNetworks(g: Gridiron)
    requires g.Valid()
    ensures g.offense.Networks() <= g.Repr() && g.defense.Networks() <= g.Repr()
    ensures forall p :: p in g.offense.players ==> p in g.Repr()
    ensures forall p :: p in g.defense.players ==> p in g.Repr()
  {
    GameObjects(g);
  }

  /**
   * The selection once `time > 600`: sort the games by points, best
   * first and ties in their old order, keep the offenses of the first
   * half and the defenses of the second half, and set `purge`.
   */
  method Select(w: World) returns (w': World, ghost pts: seq<int>, ghost order: seq<nat>)
    requires Population(w.offenses, w.defenses, w.games, false)
    ensures Valid(w') && w'.purge && w'.time == w.time && w'.gen == w.gen
    ensures Selected(w.games, pts, order, w'.games, w'.offenses, w'.defenses)
  {
    var sorted, ws, ls;
    sorted, ws, ls, pts, order := Rank(w.games, w.offenses, w.defenses);
    w' := World(ws, ls, sorted, w.time, w.gen, true);
  }

  /**
   * One frame of `main`'s loop: the purge when `purge` is set; otherwise
   * a play frame, followed by the selection when `time > 600`. On a purge,
   * `oc` and `dc` are the copies and `ocShots`, `dcShots` their contents;
   * on a play frame, `after` are the games' states after their updates;
   * on a selection, `pts` are the points of those states and `order`
   * their ranking.
   */
  method Frame(w: World, draws: FrameDraws, env: Env)
    returns (w': World, ghost oc: seq<Team>, ghost dc: seq<Team>, ghost ocShots: seq<Shot>, ghost dcShots: seq<Shot>,
             ghost after: seq<Game>, ghost pts: seq<int>, ghost order: seq<nat>)
    requires Valid(w)
    modifies GamesRepr(w.games)
    ensures Valid(w')
    ensures w.purge ==> !w'.purge && w'.time == 0 && w'.gen == w.gen + 1 && |w'.games| == 2 * FirstTeams
    ensures w.purge ==> (|oc| == |dc| == FirstTeams &&
                         w'.offenses == Shuffled(w.offenses + oc, draws.offensePick, |w.offenses + oc|) &&
                         w'.defenses == Shuffled(w.defenses + dc, draws.defensePick, |w.defenses + dc|))
    ensures w.purge ==> fresh(TeamsRepr(oc)) && fresh(TeamsRepr(dc))
    ensures w.purge ==> (Recorded(oc, OffenseSide, ocShots) && Recorded(dc, DefenseSide, dcShots) &&
                         Bred(ocShots, dcShots, old(Shots(w.offenses)), old(Shots(w.defenses)), draws.copies))
    ensures w.purge ==> (Unplayed(w'.games) &&
                         forall k :: 0 <= k < |w'.games| ==>
                           fresh(w'.games[k]) && w'.games[k].offense == w'.offenses[k] && w'.games[k].defense == w'.defenses[k])
    ensures !w.purge ==> w'.time == w.time + 1 && w'.gen == w.gen && (w'.purge <==> w'.time > LastTime)
    ensures !w.purge ==>
              AllTicked(old(States(w.games)), after, old(OffenseNets(w.games)), old(DefenseNets(w.games)), draws.ticks, Geos(w.games), env)
    ensures !w.purge && !w'.purge ==> (w' == w.(time := w.time + 1) && States(w.games) == after &&
              Played(w.games, old(States(w.games)), old(OffenseNets(w.games)), old(DefenseNets(w.games)), draws.ticks, env))
    ensures !w.purge && w'.purge ==> (Selected(w.games, pts, order, w'.games, w'.offenses, w'.defenses) &&
              forall k :: 0 <= k < |after| ==> pts[k] == after[k].score.points)
    ensures !w'.purge ==> |w'.games| == 2 * FirstTeams
  {
    oc, dc, ocShots, dcShots, after, pts, order := [], [], [], [], [], [], [];
    if w.purge {
      w', oc, dc, ocShots, dcShots := Purge(w, draws.copies, draws.offensePick, draws.defensePick);
    } else {
      w', after, pts, order := PlayFrame(w, draws.ticks, env);
    }
  }

  /**
   * The `else` branch of a frame: `time += 1`, every game updates once
   * into the states `after`, and the selection once `time > 600`, by the
   * points of those states.
   */
  method PlayFrame(w: World, ticks: nat -> TickInput, env: Env)
    returns (w': World, ghost after: seq<Game>, ghost pts: seq<int>, ghost order: seq<nat>)
    requires Valid(w) && !w.purge
    modifies GamesRepr(w.games)
    ensures Valid(w') && w'.time == w.time + 1 && w'.gen == w.gen && (w'.purge <==> w'.time > LastTime)
    ensures AllTicked(old(States(w.games)), after, old(OffenseNets(w.games)), old(DefenseNets(w.games)), ticks, Geos(w.games), env)
    ensures !w'.purge ==> w' == w.(time := w.time + 1) && States(w.games) == after &&
                          Played(w.games, old(States(w.games)), old(OffenseNets(w.games)), old(DefenseNets(w.games)), ticks, env)
    ensures w'.purge ==> Selected(w.games, pts, order, w'.games, w'.offenses, w'.defenses) &&
                         forall k :: 0 <= k < |after| ==> pts[k] == after[k].score.points
  {
    pts, order := [], [];
    w' := Play(w, ticks, env);
    after := States(w.games);
    if w'.time > LastTime {
      assert forall k :: 0 <= k < |after| ==> after[k].score.points == w.games[k].points;
      w', pts, order := Select(w');
    }
  }

  /**
   * `main`'s loop from the first frame after a purge up to the next purge.
   * Frame `j` has the draws `draws(j)`, and `history[j]` are the games'
   * states before it: every game goes through 601 updates, frame after
   * frame, with its networks fixed, and the selection then ranks the games
   * by the points of their last states.
   */
  method Generation(w: World, draws: nat -> FrameDraws, env: Env)
    returns (w': World, frames: nat, ghost history: seq<seq<Game>>, ghost pts: seq<int>, ghost order: seq<nat>)
    requires Valid(w) && !w.purge && w.time == 0
    modifies GamesRepr(w.games)
    ensures Valid(w') && w'.purge && w'.gen == w.gen && w'.time == frames
    ensures frames == LastTime + 1 && |history| == frames + 1
    ensures forall j :: 0 <= j < |history| ==> |history[j]| == |w.games|
    ensures history[0] == old(States(w.games))
    ensures forall j :: 0 <= j < frames ==>
              AllTicked(history[j], history[j + 1], old(OffenseNets(w.games)), old(DefenseNets(w.games)), draws(j).ticks, Geos(w.games), env)
    ensures Selected(w.games, pts, order, w'.games, w'.offenses, w'.defenses)
    ensures forall k :: 0 <= k < |w.games| ==> pts[k] == history[frames][k].score.points
  {
    ghost var oNets, dNets := OffenseNets(w.games), DefenseNets(w.games);
    w', frames, history, pts, order := w, 0, [States(w.games)], [], [];
    while !w'.purge
      invariant Running(w, w', frames, history, pts, order, oNets, dNets, draws, env)
      invariant history[0] == old(States(w.games))
      decreases LastTime + 1 - frames
    {
      w', frames, history, pts, order := NextFrame(w, w', frames, history, oNets, dNets, draws, env);
    }
  }

  /**
   * `frames` frames into a generation that started from `w`: the games
   * went through `history`, one update of each per frame with its
   * networks fixed at `oNets` and `dNets`; still playing, the world is `w`
   * with `time = frames`; stopped, it is the selection by the points of
   * the last states.
   */
  ghost predicate Running(w: World, w': World, frames: nat, history: seq<seq<Game>>, pts: seq<int>, order: seq<nat>,
                          oNets: seq<seq<seq<Matrix>>>, dNets: seq<seq<seq<Matrix>>>, draws: nat -> FrameDraws, env: Env)
    reads TeamsRepr(w'.offenses), TeamsRepr(w'.defenses), GamesRepr(w'.games), GamesRepr(w.games), w.games
  {
    Valid(w') && w'.gen == w.gen && w'.time == frames <= LastTime + 1 &&
    |history| == frames + 1 && (forall j :: 0 <= j < |history| ==> |history[j]| == |w.games|) &&
    Replayed(history, oNets, dNets, draws, Geos(w.games), env) &&
    (!w'.purge ==> w' == w.(time := frames) && States(w.games) == history[frames] &&
                   OffenseNets(w.games) == oNets && DefenseNets(w.games) == dNets) &&
    (w'.purge ==> frames == LastTime + 1 && Selected(w.games, pts, order, w'.games, w'.offenses, w'.defenses) &&
                  forall k :: 0 <= k < |w.games| ==> pts[k] == history[frames][k].score.points)
  }

  /** Each state of `history` is one update of the one before, frame `j` with the draws `draws(j)`. */
  predicate Replayed(history: seq<seq<Game>>, oNets: seq<seq<seq<Matrix>>>, dNets: seq<seq<seq<Matrix>>>,
                     draws: nat -> FrameDraws, geos: seq<Geometry>, env: Env)
  {
    forall j :: 0 <= j < |history| - 1 ==> AllTicked(history[j], history[j + 1], oNets, dNets, draws(j).ticks, geos, env)
  }

  /** A replayed history stays replayed when the next frame's update is appended. */
  lemma ReplayedExtends(history: seq<seq<Game>>, after: seq<Game>, oNets: seq<seq<seq<Matrix>>>, dNets: seq<seq<seq<Matrix>>>,
                        draws: nat -> FrameDraws, geos: seq<Geometry>, env: Env)
    requires |history| > 0 && Replayed(history, oNets, dNets, draws, geos, env)
    requires AllTicked(history[|history| - 1], after, oNets, dNets, draws(|history| - 1).ticks, geos, env)
    ensures Replayed(history + [after], oNets, dNets, draws, geos, env)
  {
    var h := history + [after];
    forall j | 0 <= j < |h| - 1
      ensures AllTicked(h[j], h[j + 1], oNets, dNets, draws(j).ticks, geos, env)
    {
      if j < |history| - 1 {
        assert h[j] == history[j] && h[j + 1] == history[j + 1];
      }
    }
  }

  /** One more frame of a running generation: a play frame, since `purge` is not set. */
  method NextFrame(w: World, w': World, frames: nat, ghost history: seq<seq<Game>>,
                   ghost oNets: seq<seq<seq<Matrix>>>, ghost dNets: seq<seq<seq<Matrix>>>, draws: nat -> FrameDraws, env: Env)
    returns (w'': World, frames': nat, ghost history': seq<seq<Game>>, ghost pts: seq<int>, ghost order: seq<nat>)
    requires Running(w, w', frames, history, [], [], oNets, dNets, draws, env) && !w'.purge
    modifies GamesRepr(w.games)
    ensures frames' == frames + 1 && |history'| == |history| + 1 && history'[..|history|] == history
    ensures Running(w, w'', frames', history', pts, order, oNets, dNets, draws, env)
  {
    ghost var after;
    w'', after, pts, order := PlayFrame(w', draws(frames).ticks, env);
    history' := history + [after];
    frames' := frames + 1;
    ReplayedExtends(history, after, oNets, dNets, draws, Geos(w.games), env);
  }

  /**
   * The outcome of the selection over `games`, whose points are `pts`:
   * `order` is their stable sort by points, best first (`SortOrder`
   * computes it); `sorted` are the games in that order; the winners are the
   * offenses of its first half, the losers' defenses those of its second
   * half, 350 of each.
   */
  ghost predicate Selected(games: seq<Gridiron>, pts: seq<int>, order: seq<nat>, sorted: seq<Gridiron>,
                           ws: seq<Team>, ls: seq<Team>)
    reads games
  {
    |games| == 2 * FirstTeams && |pts| == |games| && (forall k :: 0 <= k < |games| ==> pts[k] == games[k].points) &&
    StableSort(order, pts) && |sorted| == |games| && (forall k :: 0 <= k < |games| ==> sorted[k] == games[order[k]]) &&
    |ws| == |ls| == FirstTeams &&
    forall k :: 0 <= k < FirstTeams ==> ws[k] == sorted[k].offense && ls[k] == sorted[FirstTeams + k].defense
  }
}
