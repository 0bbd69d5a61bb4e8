/**
 * A team: players built from a side's role table, ids assigned in table
 * order; placement before a play; mutation of every player's network.
 */
module Teams {
  import opened NeuralNet
  import opened Players
  import Field

  /** The two subclasses of `Team`. */
  datatype Side = OffenseSide | DefenseSide

  /** `OFFENSE_POSITIONS` and `DEFENSE_POSITIONS`, in the dictionaries' order. */
  function Positions(side: Side): seq<(Role, nat)>
  {
    match side
    case OffenseSide => [(RB, 1), (WR, 2)]
    case DefenseSide => [(CB, 2), (S, 1)]
  }

  /** `OFFENSE_STATS` and `DEFENSE_STATS`: `[speed, strength]` per role. */
  function StatsTable(side: Side): map<Role, Stats>
  {
    match side
    case OffenseSide => map[RB := Stats(4, 5), WR := Stats(5, 4)]
    case DefenseSide => map[CB := Stats(5, 4), S := Stats(4, 5)]
  }

  /** The roles of the players a positions table yields, in creation order. */
  function Roster(table: seq<(Role, nat)>): seq<Role>
    decreases |table|
  {
    if table == [] then []
    else
      var last := table[|table| - 1];
      Roster(table[..|table| - 1]) + seq(last.1, _ => last.0)
  }

  /** Every role of a table has a stats entry (otherwise `stats[role]` raises). */
  predicate Covered(table: seq<(Role, nat)>, stats: map<Role, Stats>)
  {
    forall e :: e in table ==> e.0 in stats
  }

  /** The roles each side's table yields, in creation order: one RB then two WRs, two CBs then one S. */
  function SideRoles(side: Side): seq<Role>
  {
    match side
    case OffenseSide => [RB, WR, WR]
    case DefenseSide => [CB, CB, S]
  }

  /** A role's `[speed, strength]` row; every role appears in exactly one side's table. */
  function RoleStats(role: Role): Stats
  {
    match role
    case RB => Stats(4, 5)
    case WR => Stats(5, 4)
    case CB => Stats(5, 4)
    case S => Stats(4, 5)
  }

  /** Both tables yield the rosters `SideRoles` names, and every role in them has its stats row. */
  lemma SideRosters()
    ensures Roster(Positions(OffenseSide)) == SideRoles(OffenseSide)
    ensures Roster(Positions(DefenseSide)) == SideRoles(DefenseSide)
    ensures Covered(Positions(OffenseSide), StatsTable(OffenseSide))
    ensures Covered(Positions(DefenseSide), StatsTable(DefenseSide))
    ensures forall side: Side, role :: role in StatsTable(side) ==> StatsTable(side)[role] == RoleStats(role)
  {
    var o := Positions(OffenseSide);
    assert o[..1][..0] == o[..0];
    assert o[..1] == [(RB, 1)];
    assert Roster(o[..1]) == [RB];
    var d := Positions(DefenseSide);
    assert d[..1][..0] == d[..0];
    assert d[..1] == [(CB, 2)];
    assert Roster(d[..1]) == [CB, CB];
  }

  /** Every role in a roster comes from the table. */
  lemma {:induction false} RosterRolesFromTable(table: seq<(Role, nat)>, i: nat)
    requires i < |Roster(table)|
    ensures exists e :: e in table && e.0 == Roster(table)[i]
    decreases |table|
  {
    var prefix := table[..|table| - 1];
    var last := table[|table| - 1];
    if i < |Roster(prefix)| {
      RosterRolesFromTable(prefix, i);
      var e :| e in prefix && e.0 == Roster(prefix)[i];
      assert e in table;
    } else {
      assert Roster(table)[i] == last.0;
    }
  }

  /** The draws that seed player `id`'s network. */
  function PlayerDraw(init: (nat, nat, nat, nat) -> real, id: nat): (nat, nat, nat) -> real
  {
    (l: nat, r: nat, c: nat) => init(id, l, r, c)
  }

  /** A freshly constructed player of the given role, stats and id. */
  function NewBody(role: Role, stats: Stats, id: nat): Body
  {
    Body(role, id, stats.speed, stats.strength, StartAngle, 0.0, 0.0, false, seq(InputLength, _ => 0.0))
  }

  /** The roster a table yields, freshly constructed: ids 0, 1, 2, ... in table order. */
  function NewRoster(table: seq<(Role, nat)>, stats: map<Role, Stats>): (bs: seq<Body>)
    requires Covered(table, stats)
  {
    seq(|Roster(table)|, i requires 0 <= i < |Roster(table)| =>
      RosterRolesFromTable(table, i);
      NewBody(Roster(table)[i], stats[Roster(table)[i]], i))
  }

  /**
   * `ws` is a new `Network([10, 2])` of player `id`: one 2-by-10 matrix whose
   * entry `(r, c)` is the sample `init(id, 0, r, c)`.
   */
  ghost predicate Drawn(ws: seq<Matrix>, init: (nat, nat, nat, nat) -> real, id: nat)
  {
    PlayerShaped(ws) &&
    forall r, c :: 0 <= r < NetworkSizes[1] && 0 <= c < NetworkSizes[0] ==> ws[0][r][c] == init(id, 0, r, c)
  }

  /** The weights the network constructor draws for player `id` are `Drawn`. */
  lemma InitWeightsDrawn(init: (nat, nat, nat, nat) -> real, id: nat)
    ensures Drawn(InitWeights(NetworkSizes, PlayerDraw(init, id)), init, id)
  {
    var ws := InitWeights(NetworkSizes, PlayerDraw(init, id));
    PlayerShapedIsHasShapes(ws);
    forall r, c | 0 <= r < NetworkSizes[1] && 0 <= c < NetworkSizes[0]
      ensures ws[0][r][c] == init(id, 0, r, c)
    {
      InitWeightsEntries(NetworkSizes, PlayerDraw(init, id), 0, r, c);
    }
  }

  /** What a team keeps of its players: the side's roles, ids, stats and well-formed state. */
  predicate Lineup(bs: seq<Body>, side: Side)
  {
    |bs| == |SideRoles(side)| &&
    forall i :: 0 <= i < |bs| ==>
      bs[i].id == i && bs[i].role == SideRoles(side)[i] &&
      bs[i].speed == RoleStats(bs[i].role).speed &&
      bs[i].strength == RoleStats(bs[i].role).strength &&
      WellFormed(bs[i])
  }

  /** A new team is a lineup of its side, nobody holds the ball, and ids follow the table. */
  lemma NewRosterIsLineup(side: Side)
    ensures Covered(Positions(side), StatsTable(side))
    ensures var bs := NewRoster(Positions(side), StatsTable(side));
            Lineup(bs, side) && |bs| == 3 &&
            forall i :: 0 <= i < |bs| ==> !bs[i].hasBall && bs[i].angle == StartAngle
  {
    SideRosters();
    var table := Positions(side);
    var bs := NewRoster(table, StatsTable(side));
    forall i | 0 <= i < |bs|
      ensures bs[i] == NewBody(Roster(table)[i], StatsTable(side)[Roster(table)[i]], i)
    {
    }
  }

  /** `set_team` for one player: centre `(x, y)`, heading `angle`, and the ball if it is the RB. */
  function Place(b: Body, x: real, y: real, angle: int): Body
  {
    b.(x := x, y := y, angle := angle, hasBall := b.hasBall || b.role == RB)
  }

  /** The body of `set_team`'s loop for one player. */
  method PlacePlayer(player: Player, x: real, y: real, angle: int)
    modifies player
    ensures player.Snapshot() == Place(old(player.Snapshot()), x, y, angle)
  {
    player.x, player.y := x, y;
    player.angle := angle;
    if player.role == RB {
      player.hasBall := true;
    }
  }

  /** `set_team`: `offset(i)` is the `random.uniform(0, (x_bounds[1] - x_bounds[0]) / 2)` of player `i`. */
  function Placed(bs: seq<Body>, xBounds: (real, real), yLine: real, angle: int, offset: nat -> real): (r: seq<Body>)
    ensures |r| == |bs|
  {
    seq(|bs|, i requires 0 <= i < |bs| => Place(bs[i], offset(i) + 1.25 * xBounds.0, yLine, angle))
  }

  /**
   * After placement every player stands on the line with the given heading,
   * at `x = r + 1.25 * bounds[0]`; possession is set exactly for the RB and
   * never cleared; identity, stats and inputs are untouched.
   */
  lemma PlacedFacts(bs: seq<Body>, xBounds: (real, real), yLine: real, angle: int, offset: nat -> real, i: nat)
    requires i < |bs|
    ensures var p := Placed(bs, xBounds, yLine, angle, offset)[i];
            p.y == yLine && p.angle == angle && p.x == offset(i) + 1.25 * xBounds.0 &&
            (p.hasBall <==> bs[i].hasBall || bs[i].role == RB) &&
            p.(x := bs[i].x, y := bs[i].y, angle := bs[i].angle, hasBall := bs[i].hasBall) == bs[i]
  {
    assert Placed(bs, xBounds, yLine, angle, offset)[i] == Place(bs[i], offset(i) + 1.25 * xBounds.0, yLine, angle);
  }

  /**
   * With offsets drawn from `[0, (bounds[1] - bounds[0]) / 2]`, a left bound
   * above 0, a right bound above 1.5 times the left one and a line strictly
   * inside the field, every placed player stands strictly inside the field.
   */
  lemma PlacedInside(bs: seq<Body>, xBounds: (real, real), yLine: real, height: real, angle: int, offset: nat -> real)
    requires xBounds.0 > 0.0 && xBounds.1 > 1.5 * xBounds.0 && 0.0 < yLine < height
    requires forall i :: 0 <= i < |bs| ==> 0.0 <= offset(i) <= (xBounds.1 - xBounds.0) / 2.0
    ensures forall i :: 0 <= i < |bs| ==> Inside(Placed(bs, xBounds, yLine, angle, offset)[i], xBounds, height)
  {
    var r := Placed(bs, xBounds, yLine, angle, offset);
    forall i | 0 <= i < |bs|
      ensures Inside(r[i], xBounds, height)
    {
      assert r[i] == Place(bs[i], offset(i) + 1.25 * xBounds.0, yLine, angle);
    }
  }

  /** Placement keeps a lineup a lineup when the heading is a valid one. */
  lemma PlacedLineup(bs: seq<Body>, side: Side, xBounds: (real, real), yLine: real, angle: int, offset: nat -> real)
    requires Lineup(bs, side) && 0 <= angle < 360
    ensures Lineup(Placed(bs, xBounds, yLine, angle, offset), side)
  {
    var r := Placed(bs, xBounds, yLine, angle, offset);
    forall i | 0 <= i < |bs|
      ensures r[i] == Place(bs[i], offset(i) + 1.25 * xBounds.0, yLine, angle)
    {
    }
  }

  /** The draws of player `id`'s mutation coins and deltas. */
  function PlayerCoins(coin: (nat, nat, nat) -> int, id: nat): (nat, nat) -> int
  {
    (r: nat, c: nat) => coin(id, r, c)
  }

  function PlayerDeltas(delta: (nat, nat, nat) -> real, id: nat): (nat, nat) -> real
  {
    (r: nat, c: nat) => delta(id, r, c)
  }

  /**
   * `w` is player `id`'s network `w0` after `Network.mutate` with that
   * player's draws: entry `(r, c)` of the one matrix moved by
   * `delta(id, r, c)` exactly when its coin `coin(id, r, c)` is 0.
   */
  ghost predicate MutatedFrom(w: seq<Matrix>, w0: seq<Matrix>, coin: (nat, nat, nat) -> int,
                              delta: (nat, nat, nat) -> real, id: nat)
  {
    PlayerShaped(w) && PlayerShaped(w0) &&
    forall r, c :: 0 <= r < NetworkSizes[1] && 0 <= c < NetworkSizes[0] ==>
      w[0][r][c] == if coin(id, r, c) == 0 then w0[0][r][c] + delta(id, r, c) else w0[0][r][c]
  }

  /** `Network.mutate` on a player's network, with that player's draws, is `MutatedFrom`. */
  lemma MutateWeightsMutatedFrom(w0: seq<Matrix>, coin: (nat, nat, nat) -> int, delta: (nat, nat, nat) -> real, id: nat)
    requires PlayerShaped(w0)
    ensures MutatedFrom(MutateWeights(w0, PlayerCoins(coin, id), PlayerDeltas(delta, id)), w0, coin, delta, id)
  {
    var w := MutateWeights(w0, PlayerCoins(coin, id), PlayerDeltas(delta, id));
    PlayerShapedIsHasShapes(w0);
    MutateKeepsShapes(w0, NetworkSizes, PlayerCoins(coin, id), PlayerDeltas(delta, id));
    PlayerShapedIsHasShapes(w);
    forall r, c | 0 <= r < NetworkSizes[1] && 0 <= c < NetworkSizes[0]
      ensures w[0][r][c] == if coin(id, r, c) == 0 then w0[0][r][c] + delta(id, r, c) else w0[0][r][c]
    {
      MutateEntry(w0[0], PlayerCoins(coin, id), PlayerDeltas(delta, id), r, c);
    }
  }

  /** `network.mutate()` for player `id`, with that player's draws. */
  method MutateNetwork(network: Network, coin: (nat, nat, nat) -> int, delta: (nat, nat, nat) -> real, id: nat)
    requires network.sizes == NetworkSizes && PlayerShaped(network.weights)
    modifies network
    ensures MutatedFrom(network.weights, old(network.weights), coin, delta, id)
  {
    PlayerShapedIsHasShapes(network.weights);
    ghost var w0 := network.weights;
    network.Mutate(PlayerCoins(coin, id), PlayerDeltas(delta, id));
    MutateWeightsMutatedFrom(w0, coin, delta, id);
  }

  /** `p` is valid and in the state `Player(role, color, stats, id)` leaves it in. */
  ghost predicate Built(p: Player, role: Role, stats: Stats, init: (nat, nat, nat, nat) -> real, id: nat)
    reads p, p.network
  {
    p.Valid() && p.Snapshot() == NewBody(role, stats, id) && Drawn(p.network.weights, init, id)
  }

  /** Players created one by one from `table`, as `Team.__init__` does it. */
  method BuildPlayers(table: seq<(Role, nat)>, stats: map<Role, Stats>, init: (nat, nat, nat, nat) -> real)
    returns (ps: seq<Player>)
    requires Covered(table, stats)
    ensures |ps| == |Roster(table)|
    ensures forall i :: 0 <= i < |ps| ==>
              fresh(ps[i]) && fresh(ps[i].network) && Roster(table)[i] in stats &&
              Built(ps[i], Roster(table)[i], stats[Roster(table)[i]], init, i)
    ensures forall i, j :: 0 <= i < j < |ps| ==> ps[i] != ps[j] && ps[i].network != ps[j].network
  {
    ps := [];
    var t := 0;
    CreatedIsRosterLength(table, |table|);
    assert table[..|table|] == table;
    ghost var roster := Roster(table);
    while t < |table|
      invariant 0 <= t <= |table|
      invariant |ps| == Created(table, t) <= |roster|
      invariant forall i :: 0 <= i < |ps| ==> fresh(ps[i]) && fresh(ps[i].network)
      invariant forall i :: 0 <= i < |ps| ==> roster[i] in stats && Built(ps[i], roster[i], stats[roster[i]], init, i)
      invariant forall i, j :: 0 <= i < j < |ps| ==> ps[i] != ps[j] && ps[i].network != ps[j].network
    {
      CreatedGrows(table, t);
      var role := table[t].0;
      assert table[t] in table;
      forall k | Created(table, t) <= k < Created(table, t + 1)
        ensures k < |roster| && roster[k] == role
      {
        RosterBlock(table, t, k);
      }
      ghost var ps0 := ps;
      ps := AddPlayers(role, stats[role], init, table[t].1, ps);
      forall i | 0 <= i < |ps0|
        ensures ps[i] == ps0[i]
      {
        assert ps[..|ps0|][i] == ps0[i];
      }
      t := t + 1;
    }
  }

  /** The inner loop of `Team.__init__`: `count` new players of one role, ids continuing from `|ps0|`. */
  method AddPlayers(role: Role, stats: Stats, init: (nat, nat, nat, nat) -> real, count: nat, ps0: seq<Player>)
    returns (ps: seq<Player>)
    requires forall i, j :: 0 <= i < j < |ps0| ==> ps0[i] != ps0[j] && ps0[i].network != ps0[j].network
    ensures |ps| == |ps0| + count && ps[..|ps0|] == ps0
    ensures forall i :: |ps0| <= i < |ps| ==>
              fresh(ps[i]) && fresh(ps[i].network) && Built(ps[i], role, stats, init, i)
    ensures forall i, j :: 0 <= i < j < |ps| ==> ps[i] != ps[j] && ps[i].network != ps[j].network
  {
    var playerId := |ps0|;
    ps := ps0;
    var p := 0;
    while p < count
      invariant 0 <= p <= count
      invariant playerId == |ps| == |ps0| + p && ps[..|ps0|] == ps0
      invariant forall i :: |ps0| <= i < |ps| ==>
                  fresh(ps[i]) && fresh(ps[i].network) && Built(ps[i], role, stats, init, i)
      invariant forall i, j :: 0 <= i < j < |ps| ==> ps[i] != ps[j] && ps[i].network != ps[j].network
    {
      var player := new Player(role, stats, playerId, PlayerDraw(init, playerId));
      InitWeightsDrawn(init, playerId);
      assert forall i :: 0 <= i < |ps| ==> ps[i] != player && ps[i].network != player.network;
      ps := ps + [player];
      playerId := playerId + 1;
      p := p + 1;
    }
  }

  /** How many players the first `t` entries of a table create. */
  function Created(table: seq<(Role, nat)>, t: nat): nat
    requires t <= |table|
  {
    if t == 0 then 0 else Created(table, t - 1) + table[t - 1].1
  }

  /** The first `t` entries create the roster of the first `t` entries. */
  lemma {:induction false} CreatedIsRosterLength(table: seq<(Role, nat)>, t: nat)
    requires t <= |table|
    ensures Created(table, t) == |Roster(table[..t])|
  {
    if t > 0 {
      assert table[..t][..t - 1] == table[..t - 1];
      CreatedIsRosterLength(table, t - 1);
    }
  }

  /** Entry `t` adds its count of players, and no entry creates more than the whole table. */
  lemma {:induction false} CreatedGrows(table: seq<(Role, nat)>, t: nat)
    requires t < |table|
    ensures Created(table, t) + table[t].1 == Created(table, t + 1) <= Created(table, |table|)
    decreases |table| - t
  {
    if t + 1 < |table| {
      CreatedGrows(table, t + 1);
    }
  }

  /** The players entry `t` creates all have its role. */
  lemma RosterBlock(table: seq<(Role, nat)>, t: nat, k: nat)
    requires t < |table| && Created(table, t) <= k < Created(table, t + 1)
    ensures k < |Roster(table)| && Roster(table)[k] == table[t].0
  {
    CreatedIsRosterLength(table, t);
    CreatedIsRosterLength(table, t + 1);
    assert table[..t + 1][..t] == table[..t];
    assert Roster(table[..t + 1]) == Roster(table[..t]) + seq(table[t].1, _ => table[t].0);
    RosterPrefix(table, t + 1, k);
  }

  /** The roster of a prefix of the table is a prefix of the roster. */
  lemma {:induction false} RosterPrefix(table: seq<(Role, nat)>, t: nat, i: nat)
    requires t <= |table| && i < |Roster(table[..t])|
    ensures i < |Roster(table)| && Roster(table)[i] == Roster(table[..t])[i]
    decreases |table| - t
  {
    if t < |table| {
      assert table[..t + 1][..t] == table[..t];
      RosterPrefix(table, t + 1, i);
    } else {
      assert table[..t] == table;
    }
  }

  /** The players `ps` and their networks. */
  ghost function Objects(ps: seq<Player>): (r: set<object>)
    ensures forall i :: 0 <= i < |ps| ==> ps[i] in r && ps[i].network in r
  {
    (set i | 0 <= i < |ps| :: ps[i] as object) + (set i | 0 <= i < |ps| :: ps[i].network as object)
  }

  class Team {
    const side: Side
    const players: seq<Player>

    /** The players and their networks. */
    ghost const Repr: set<object>

    /** `Repr` holds every player and network, and no two players share an object (this reads only constant fields). */
    ghost predicate Distinct()
    {
      (forall i :: 0 <= i < |players| ==> players[i] in Repr && players[i].network in Repr) &&
      forall i, j :: 0 <= i < j < |players| ==> players[i] != players[j] && players[i].network != players[j].network
    }

    ghost predicate Valid()
      reads Repr
    {
      Distinct() &&
      (forall i :: 0 <= i < |players| ==> players[i].Valid()) &&
      Lineup(Bodies(), side)
    }

    ghost function Bodies(): (bs: seq<Body>)
      reads players
      ensures |bs| == |players|
      ensures forall i :: 0 <= i < |players| ==> bs[i] == players[i].Snapshot()
    {
      seq(|players|, i requires 0 <= i < |players| reads players => players[i].Snapshot())
    }

    /** The players' networks. */
    ghost function Networks(): set<object>
    {
      set p | p in players :: p.network as object
    }

    /** The players' network weights, in roster order. */
    ghost function Nets(): (nets: seq<seq<Matrix>>)
      reads Networks()
      ensures |nets| == |players|
      ensures forall i :: 0 <= i < |players| ==> nets[i] == players[i].network.weights
    {
      seq(|players|, i requires 0 <= i < |players| reads Networks() => players[i].network.weights)
    }

    /** `Offense()` / `Defense()`: `init(id, l, r, c)` are player `id`'s initial network samples. */
    constructor (side: Side, init: (nat, nat, nat, nat) -> real)
      ensures this.side == side && Valid() && fresh(Repr)
      ensures Covered(Positions(side), StatsTable(side))
      ensures Bodies() == NewRoster(Positions(side), StatsTable(side))
      ensures forall i :: 0 <= i < |players| ==> Drawn(Nets()[i], init, i)
    {
      SideRosters();
      var ps := BuildPlayers(Positions(side), StatsTable(side), init);
      this.side := side;
      players := ps;
      Repr := Objects(ps);
      new;
      NewRosterIsLineup(side);
      assert Bodies() == NewRoster(Positions(side), StatsTable(side));
    }

    /** `mutate`: `network.mutate()` once for every player, in order. */
    method Mutate(coin: (nat, nat, nat) -> int, delta: (nat, nat, nat) -> real)
      requires Valid()
      modifies Networks()
      ensures Valid() && Bodies() == old(Bodies())
      ensures forall i :: 0 <= i < |players| ==> MutatedFrom(Nets()[i], old(Nets())[i], coin, delta, i)
    {
      ghost var before := Nets();
      var i := 0;
      while i < |players|
        invariant 0 <= i <= |players|
        invariant forall j :: 0 <= j < i ==> MutatedFrom(players[j].network.weights, before[j], coin, delta, j)
        invariant forall j :: i <= j < |players| ==> players[j].network.weights == before[j]
      {
        assert forall j :: 0 <= j < |players| && j != i ==> players[j].network != players[i].network;
        MutateNetwork(players[i].network, coin, delta, i);
        i := i + 1;
      }
    }

    /** `set_team(x_bounds, y_bound, starting_angle)`, with player `i`'s random offset `offset(i)`. */
    method SetTeam(xBounds: (real, real), yBound: real, startingAngle: int, offset: nat -> real)
      requires Valid() && 0 <= startingAngle < 360
      modifies players
      ensures Valid() && Nets() == old(Nets())
      ensures Bodies() == Placed(old(Bodies()), xBounds, yBound, startingAngle, offset)
    {
      ghost var before := Bodies();
      ghost var after := Placed(before, xBounds, yBound, startingAngle, offset);
      PlacedLineup(before, side, xBounds, yBound, startingAngle, offset);
      var i := 0;
      while i < |players|
        invariant 0 <= i <= |players|
        invariant forall j :: 0 <= j < i ==> players[j].Snapshot() == after[j]
        invariant forall j :: i <= j < |players| ==> players[j].Snapshot() == before[j]
      {
        assert after[i] == Place(before[i], offset(i) + 1.25 * xBounds.0, yBound, startingAngle);
        assert forall j :: 0 <= j < |players| && j != i ==> players[j] != players[i];
        PlacePlayer(players[i], offset(i) + 1.25 * xBounds.0, yBound, startingAngle);
        i := i + 1;
      }
      assert Bodies() == after;
    }

    /** `set_offense`: on yard 80 facing 90 degrees (up the screen, toward the score line). */
    method SetOffense(xBounds: (real, real), height: real, offset: nat -> real)
      requires Valid() && side == OffenseSide
      modifies players
      ensures Valid() && Nets() == old(Nets())
      ensures Bodies() == Placed(old(Bodies()), xBounds, Field.YardToPixel(80, height), 90, offset)
    {
      SetTeam(xBounds, Field.YardToPixel(80, height), 90, offset);
    }

    /** `set_defense`: on yard 20 facing 270 degrees. */
    method SetDefense(xBounds: (real, real), height: real, offset: nat -> real)
      requires Valid() && side == DefenseSide
      modifies players
      ensures Valid() && Nets() == old(Nets())
      ensures Bodies() == Placed(old(Bodies()), xBounds, Field.YardToPixel(20, height), 270, offset)
    {
      SetTeam(xBounds, Field.YardToPixel(20, height), 270, offset);
    }
  }
}
