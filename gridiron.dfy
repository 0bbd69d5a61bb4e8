/**
 * A game between one offense and one defense: the players' sensory vectors
 * (distance and bearing to every opponent and to the two corners of the
 * scoring end line), the pushing force between colliding players, the
 * tackle and touchdown rules, and the two-state `update` that either lines
 * both teams up for a new play or lets every player move.
 */
module Gridirons {
  import opened Numerics
  import opened NeuralNet
  import opened Players
  import opened Teams
  import Field

  /** The field a game is played on: x bounds `(left, right)` and the screen height. */
  datatype Geometry = Geometry(bounds: (real, real), height: real)

  /** `score_endzone`: the pixel row of the offense's scoring end line (yard 10, no offset). */
  function ScoreLine(g: Geometry): real
  {
    Field.YardToPixel(10, g.height, 0)
  }

  /**
   * One pass's collision data, in place of pygame's `groupcollide` and
   * `clipline`: `hit(i, k)` when player `i` of the moving team and
   * opponent `k` overlap (player `i` is then a key of the collision map and
   * opponent `k` is in its list), `clip(i, k)` when opponent `k`'s face
   * segment crosses player `i`'s rectangle.
   */
  datatype Contacts = Contacts(hit: (nat, nat) -> bool, clip: (nat, nat) -> bool)

  /** `in_play` and `points`. */
  datatype Score = Score(inPlay: bool, points: int)

  /** Everything one `update` reads and writes: both teams' players and the score. */
  datatype Game = Game(offense: seq<Body>, defense: seq<Body>, score: Score)

  /**
   * What one `update` takes from outside: each team's random placement
   * offsets (used when a new play is lined up) and each pass's collisions.
   */
  datatype TickInput = TickInput(offenseOffset: nat -> real, defenseOffset: nat -> real,
                                 offenseContacts: Contacts, defenseContacts: Contacts)

  /** Players whose ids address their own pair of slots in any player's ten-slot vector. */
  predicate Sensible(bs: seq<Body>)
  {
    forall i :: 0 <= i < |bs| ==> WellFormed(bs[i]) && 2 * bs[i].id + 1 < InputLength
  }

  // ---------------------------------------------------------------------
  // Sensing: `net_input`
  // ---------------------------------------------------------------------

  /** The unit vision vector `(cos, -sin)` of a heading (screen y grows downward). */
  function Vision(angle: int, env: Env): (real, real)
  {
    (env.cosDeg(angle), -env.sinDeg(angle))
  }

  /** `vision_to_obj`: the signed angle from `v` to `d`, as a fraction of 180 degrees. */
  function Bearing(v: (real, real), d: (real, real), env: Env): real
  {
    env.atan2Deg(v.0 * d.1 - v.1 * d.0, v.0 * d.0 + v.1 * d.1) / 180.0
  }

  /** The vector from one player's centre to another's. */
  function Diff(from: Body, to: Body): (real, real)
  {
    (to.x - from.x, to.y - from.y)
  }

  /** The normalised distance between two players' centres. */
  function Distance(from: Body, to: Body, env: Env): real
  {
    var d := Diff(from, to);
    env.dist(d.0, d.1)
  }

  /** Every opponent's id addresses a pair of slots of a ten-slot vector. */
  predicate Addressed(opps: seq<Body>)
  {
    forall k :: 0 <= k < |opps| ==> 2 * opps[k].id + 1 < InputLength
  }

  /** One opponent's turn of the first loop of `net_input`, on the sensing player's vector `v`. */
  function SenseOne(v: seq<real>, p: Body, o: Body, half: bool, env: Env): (r: seq<real>)
    requires |v| == InputLength && 2 * o.id + 1 < InputLength
    ensures |r| == InputLength
  {
    var w := if half then v else v[2 * o.id := Distance(p, o, env)];
    w[2 * o.id + 1 := Bearing(Vision(p.angle, env), Diff(p, o), env)]
  }

  /** The first loop of `net_input` after its first `n` turns, over the opponents in team order. */
  function SenseOpponents(v: seq<real>, p: Body, opps: seq<Body>, n: nat, half: bool, env: Env): (r: seq<real>)
    requires |v| == InputLength && Addressed(opps) && n <= |opps|
    ensures |r| == InputLength
  {
    if n == 0 then v
    else SenseOne(SenseOpponents(v, p, opps, n - 1, half, env), p, opps[n - 1], half, env)
  }

  /**
   * One turn of the corner loop: corner `c` of the scoring end line is
   * `(bounds[c], score_endzone)`; its distance goes to slot `-2 * (2 - c)`
   * and its bearing to the slot after, counted from the end of the vector.
   */
  function SenseCorner(v: seq<real>, p: Body, c: nat, g: Geometry, env: Env): (r: seq<real>)
    requires |v| == InputLength && c < 2
    ensures |r| == InputLength
  {
    var d := ((if c == 0 then g.bounds.0 else g.bounds.1) - p.x, ScoreLine(g) - p.y);
    var slot := |v| - 2 * (2 - c);
    v[slot := env.dist(d.0, d.1)][slot + 1 := Bearing(Vision(p.angle, env), d, env)]
  }

  /** The corner loop, `range(len(bounds))`, after its first `n` turns. */
  function SenseCorners(v: seq<real>, p: Body, n: nat, g: Geometry, env: Env): (r: seq<real>)
    requires |v| == InputLength && n <= 2
    ensures |r| == InputLength
  {
    if n == 0 then v else SenseCorner(SenseCorners(v, p, n - 1, g, env), p, n - 1, g, env)
  }

  /** The sensing player after `net_input(player, opposing_team, half_update)`. */
  function Sensed(p: Body, opps: seq<Body>, half: bool, g: Geometry, env: Env): (r: Body)
    requires |p.input| == InputLength && Addressed(opps)
    ensures r == p.(input := r.input) && |r.input| == InputLength
  {
    p.(input := SenseCorners(SenseOpponents(p.input, p, opps, |opps|, half, env), p, 2, g, env))
  }

  /** The opponent `o` after `net_input`: unless it is a half update, it learns the same distance. */
  function ShareOne(o: Body, p: Body, half: bool, env: Env): (r: Body)
    requires |o.input| == InputLength && 2 * p.id + 1 < InputLength
    ensures r == o.(input := r.input) && |r.input| == InputLength
  {
    if half then o else o.(input := o.input[2 * p.id := Distance(p, o, env)])
  }

  /** All opponents after `net_input`. */
  function Shared(opps: seq<Body>, p: Body, half: bool, env: Env): (r: seq<Body>)
    requires Sensible(opps) && 2 * p.id + 1 < InputLength
    ensures |r| == |opps| && Sensible(r)
    ensures forall k :: 0 <= k < |opps| ==> r[k] == ShareOne(opps[k], p, half, env)
  {
    var r := seq(|opps|, k requires 0 <= k < |opps| => ShareOne(opps[k], p, half, env));
    assert forall k :: 0 <= k < |opps| ==> r[k] == ShareOne(opps[k], p, half, env);
    r
  }

  /** No two opponents have the same id. */
  predicate DistinctIds(bs: seq<Body>)
  {
    forall i, j :: 0 <= i < j < |bs| ==> bs[i].id != bs[j].id
  }

  /** Slot `j` belongs to none of the first `n` opponents. */
  predicate FreeSlot(j: int, opps: seq<Body>, n: nat)
    requires n <= |opps|
  {
    forall k :: 0 <= k < n ==> j != 2 * opps[k].id && j != 2 * opps[k].id + 1
  }

  /** One opponent's turn writes its bearing slot and, outside a half update, its distance slot, and nothing else. */
  lemma SenseOneSlots(v: seq<real>, p: Body, o: Body, half: bool, env: Env)
    requires |v| == InputLength && 2 * o.id + 1 < InputLength
    ensures var r := SenseOne(v, p, o, half, env);
            r[2 * o.id + 1] == Bearing(Vision(p.angle, env), Diff(p, o), env) &&
            r[2 * o.id] == (if half then v[2 * o.id] else Distance(p, o, env)) &&
            forall j :: 0 <= j < InputLength && j != 2 * o.id && j != 2 * o.id + 1 ==> r[j] == v[j]
  {
  }

  /**
   * The first `n` turns of the opponent loop write, for each of those
   * opponents, its bearing into slot `2 * id + 1` and, except in a half
   * update, its distance into slot `2 * id`; every other slot keeps its
   * value, and so do the distance slots in a half update.
   */
  lemma {:induction false} SenseOpponentsSlots(v: seq<real>, p: Body, opps: seq<Body>, n: nat, half: bool, env: Env)
    requires |v| == InputLength && Addressed(opps) && DistinctIds(opps) && n <= |opps|
    ensures SlotsWritten(v, p, opps, n, half, env, SenseOpponents(v, p, opps, n, half, env))
  {
    if n > 0 {
      SenseOpponentsSlots(v, p, opps, n - 1, half, env);
      SenseOpponentSlots(v, p, opps, n, half, env);
    }
  }

  /** What the first `n` turns of the opponent loop leave in `r`, starting from `v`. */
  predicate SlotsWritten(v: seq<real>, p: Body, opps: seq<Body>, n: nat, half: bool, env: Env, r: seq<real>)
    requires |v| == InputLength && |r| == InputLength && Addressed(opps) && n <= |opps|
  {
    (forall k :: 0 <= k < n ==>
       r[2 * opps[k].id + 1] == Bearing(Vision(p.angle, env), Diff(p, opps[k]), env) &&
       r[2 * opps[k].id] == (if half then v[2 * opps[k].id] else Distance(p, opps[k], env))) &&
    (forall j :: 0 <= j < InputLength && FreeSlot(j, opps, n) ==> r[j] == v[j])
  }

  /** Turn `n - 1` of the opponent loop extends what the earlier turns wrote. */
  lemma SenseOpponentSlots(v: seq<real>, p: Body, opps: seq<Body>, n: nat, half: bool, env: Env)
    requires |v| == InputLength && Addressed(opps) && DistinctIds(opps) && 0 < n <= |opps|
    requires SlotsWritten(v, p, opps, n - 1, half, env, SenseOpponents(v, p, opps, n - 1, half, env))
    ensures SlotsWritten(v, p, opps, n, half, env, SenseOpponents(v, p, opps, n, half, env))
  {
    var last := opps[n - 1];
    var q := SenseOpponents(v, p, opps, n - 1, half, env);
    SenseOneSlots(q, p, last, half, env);
    assert FreeSlot(2 * last.id, opps, n - 1) && FreeSlot(2 * last.id + 1, opps, n - 1);
  }

  /** The two corner turns write slots 6, 7 and 8, 9 of a ten-slot vector and nothing else. */
  lemma SenseCornersSlots(v: seq<real>, p: Body, g: Geometry, env: Env)
    requires |v| == InputLength
    ensures var r := SenseCorners(v, p, 2, g, env);
            var e := Vision(p.angle, env);
            var d0 := (g.bounds.0 - p.x, ScoreLine(g) - p.y);
            var d1 := (g.bounds.1 - p.x, ScoreLine(g) - p.y);
            r[6] == env.dist(d0.0, d0.1) && r[7] == Bearing(e, d0, env) &&
            r[8] == env.dist(d1.0, d1.1) && r[9] == Bearing(e, d1, env) &&
            forall j :: 0 <= j < InputLength - 4 ==> r[j] == v[j]
  {
    assert SenseCorners(v, p, 0, g, env) == v;
    var r1 := SenseCorners(v, p, 1, g, env);
    assert r1 == SenseCorner(v, p, 0, g, env);
    var r := SenseCorners(v, p, 2, g, env);
    assert r == SenseCorner(r1, p, 1, g, env);
  }

  /** A complete opposing lineup: three opponents with ids 0, 1, 2 in order. */
  predicate Complete(opps: seq<Body>)
  {
    |opps| == 3 && forall k :: 0 <= k < 3 ==> opps[k].id == k
  }

  lemma LineupComplete(bs: seq<Body>, side: Side)
    requires Lineup(bs, side)
    ensures Complete(bs) && Sensible(bs)
  {
    SideRosters();
  }

  /**
   * A full `net_input` against a complete opposing lineup writes every one
   * of the ten slots: distance and bearing to opponent `k` in slots `2k` and
   * `2k + 1`, then the left and right corner of the scoring end line in
   * slots 6, 7 and 8, 9.
   */
  lemma FullSenseLayout(p: Body, opps: seq<Body>, g: Geometry, env: Env)
    requires |p.input| == InputLength && Complete(opps)
    ensures Addressed(opps)
    ensures var r := Sensed(p, opps, false, g, env).input;
            var e := Vision(p.angle, env);
            var d0 := (g.bounds.0 - p.x, ScoreLine(g) - p.y);
            var d1 := (g.bounds.1 - p.x, ScoreLine(g) - p.y);
            (forall k :: 0 <= k < 3 ==>
               r[2 * k] == Distance(p, opps[k], env) &&
               r[2 * k + 1] == Bearing(e, Diff(p, opps[k]), env)) &&
            r[6] == env.dist(d0.0, d0.1) && r[7] == Bearing(e, d0, env) &&
            r[8] == env.dist(d1.0, d1.1) && r[9] == Bearing(e, d1, env)
  {
    var q := SenseOpponents(p.input, p, opps, |opps|, false, env);
    FullSenseOpponents(p, opps, env);
    SenseCornersSlots(q, p, g, env);
    assert Sensed(p, opps, false, g, env).input == SenseCorners(q, p, 2, g, env);
  }

  /** The opponent loop against a complete lineup fills slots 0 to 5 with distance and bearing, opponent by opponent. */
  lemma FullSenseOpponents(p: Body, opps: seq<Body>, env: Env)
    requires |p.input| == InputLength && Complete(opps)
    ensures Addressed(opps)
    ensures var q := SenseOpponents(p.input, p, opps, |opps|, false, env);
            forall k :: 0 <= k < 3 ==>
              q[2 * k] == Distance(p, opps[k], env) && q[2 * k + 1] == Bearing(Vision(p.angle, env), Diff(p, opps[k]), env)
  {
    assert DistinctIds(opps);
    SenseOpponentsSlots(p.input, p, opps, |opps|, false, env);
  }

  /** Hence a full `net_input` against a complete lineup forgets the old vector entirely. */
  lemma FullSenseForgets(p: Body, old1: seq<real>, old2: seq<real>, opps: seq<Body>, g: Geometry, env: Env)
    requires |old1| == |old2| == InputLength && Complete(opps)
    ensures Addressed(opps)
    ensures Sensed(p.(input := old1), opps, false, g, env) == Sensed(p.(input := old2), opps, false, g, env)
  {
    var p1, p2 := p.(input := old1), p.(input := old2);
    FullSenseLayout(p1, opps, g, env);
    FullSenseLayout(p2, opps, g, env);
    var r1, r2 := Sensed(p1, opps, false, g, env).input, Sensed(p2, opps, false, g, env).input;
    forall k | 0 <= k < 3
      ensures r1[2 * k] == r2[2 * k] && r1[2 * k + 1] == r2[2 * k + 1]
    {
      assert Diff(p1, opps[k]) == Diff(p2, opps[k]);
    }
    forall j | 0 <= j < InputLength
      ensures r1[j] == r2[j]
    {
      if j < 6 {
        var k := if j < 2 then 0 else if j < 4 then 1 else 2;
        assert j == 2 * k || j == 2 * k + 1;
      }
    }
    assert r1 == r2;
  }

  /** Opponents whose ids address only the six opponent slots, ahead of the corner slots. */
  predicate BeforeCorners(opps: seq<Body>)
  {
    forall k :: 0 <= k < |opps| ==> 2 * opps[k].id + 1 < InputLength - 4
  }

  /**
   * In a half update the distance slots of the opponents' ids keep their
   * old values and the opponents are untouched.
   */
  lemma HalfSenseKeepsDistances(p: Body, opps: seq<Body>, g: Geometry, env: Env)
    requires |p.input| == InputLength && Sensible(opps) && DistinctIds(opps) && BeforeCorners(opps)
    requires 2 * p.id + 1 < InputLength
    ensures forall k :: 0 <= k < |opps| ==>
              Sensed(p, opps, true, g, env).input[2 * opps[k].id] == p.input[2 * opps[k].id]
    ensures Shared(opps, p, true, env) == opps
  {
    SenseOpponentsSlots(p.input, p, opps, |opps|, true, env);
    var q := SenseOpponents(p.input, p, opps, |opps|, true, env);
    SenseCornersSlots(q, p, g, env);
    var r := Sensed(p, opps, true, g, env).input;
  }

  /**
   * Outside a half update the distance to each opponent is written into
   * both vectors: the value the player puts in the opponent's slot is the
   * value the opponent gets in the player's slot.
   */
  lemma SharedDistanceAgrees(p: Body, opps: seq<Body>, g: Geometry, env: Env)
    requires |p.input| == InputLength && Sensible(opps) && DistinctIds(opps) && BeforeCorners(opps)
    requires 2 * p.id + 1 < InputLength
    ensures forall k :: 0 <= k < |opps| ==>
              Shared(opps, p, false, env)[k].input[2 * p.id] ==
              Sensed(p, opps, false, g, env).input[2 * opps[k].id] ==
              Distance(p, opps[k], env)
  {
    SenseOpponentsSlots(p.input, p, opps, |opps|, false, env);
    var q := SenseOpponents(p.input, p, opps, |opps|, false, env);
    SenseCornersSlots(q, p, g, env);
    var r := Sensed(p, opps, false, g, env).input;
  }

  // ---------------------------------------------------------------------
  // Contact: `check_game_state` and the external force
  // ---------------------------------------------------------------------

  /** Player `i` is a key of the collision map: it overlaps one of the first `n` opponents. */
  function Collided(i: nat, n: nat, c: Contacts): (r: bool)
  {
    n > 0 && (c.hit(i, n - 1) || Collided(i, n - 1, c))
  }

  lemma {:induction false} CollidedMeansSomeHit(i: nat, n: nat, c: Contacts)
    ensures Collided(i, n, c) <==> exists k :: 0 <= k < n && c.hit(i, k)
  {
    if n > 0 {
      CollidedMeansSomeHit(i, n - 1, c);
    }
  }

  /** Opponent `k` pushes player `i`: they overlap, its face clips the player, and it is at least as strong. */
  predicate Pushes(i: nat, p: Body, k: nat, o: Body, c: Contacts)
  {
    c.hit(i, k) && c.clip(i, k) && o.strength >= p.strength
  }

  /** `2 * get_movement_vector(opponent.strength, opponent.angle)` */
  function Push(o: Body, env: Env): (real, real)
  {
    var v := MovementVector(o.strength, env.cosDeg(o.angle), env.sinDeg(o.angle));
    (2.0 * v.0, 2.0 * v.1)
  }

  /** The force accumulated from the first `|opps|` opponents. */
  function ForceSum(i: nat, p: Body, opps: seq<Body>, c: Contacts, env: Env): (real, real)
    decreases |opps|
  {
    if opps == [] then (0.0, 0.0)
    else
      var k := |opps| - 1;
      var f := ForceSum(i, p, opps[..k], c, env);
      if Pushes(i, p, k, opps[k], c) then (f.0 + Push(opps[k], env).0, f.1 + Push(opps[k], env).1) else f
  }

  /** The force player `i` moves with: the sum when it is in the collision map, `(0, 0)` otherwise. */
  function ExternalForce(i: nat, p: Body, opps: seq<Body>, c: Contacts, env: Env): (real, real)
  {
    if Collided(i, |opps|, c) then ForceSum(i, p, opps, c, env) else (0.0, 0.0)
  }

  /** A player that touches no opponent moves with force `(0, 0)`. */
  lemma NoContactNoForce(i: nat, p: Body, opps: seq<Body>, c: Contacts, env: Env)
    requires forall k :: 0 <= k < |opps| ==> !c.hit(i, k)
    ensures ExternalForce(i, p, opps, c, env) == (0.0, 0.0)
  {
    CollidedMeansSomeHit(i, |opps|, c);
  }

  /** Only pushing opponents count: when none pushes, the force is `(0, 0)` even in a collision. */
  lemma {:induction false} NoPusherNoForce(i: nat, p: Body, opps: seq<Body>, c: Contacts, env: Env)
    requires forall k :: 0 <= k < |opps| ==> !Pushes(i, p, k, opps[k], c)
    ensures ForceSum(i, p, opps, c, env) == (0.0, 0.0)
    ensures ExternalForce(i, p, opps, c, env) == (0.0, 0.0)
    decreases |opps|
  {
    if opps != [] {
      var prefix := opps[..|opps| - 1];
      forall k | 0 <= k < |prefix| ensures !Pushes(i, p, k, prefix[k], c) {
        assert prefix[k] == opps[k];
      }
      NoPusherNoForce(i, p, prefix, c, env);
    }
  }

  /** Opponents that push add up: the force from `opps + [o]` adds `o`'s push when it pushes. */
  lemma ForceSumStep(i: nat, p: Body, opps: seq<Body>, o: Body, c: Contacts, env: Env)
    ensures var f := ForceSum(i, p, opps, c, env);
            ForceSum(i, p, opps + [o], c, env) ==
              if Pushes(i, p, |opps|, o, c) then (f.0 + Push(o, env).0, f.1 + Push(o, env).1) else f
  {
    assert (opps + [o])[..|opps|] == opps;
  }

  /** An opponent of equal strength does push: the comparison is `>=`. */
  lemma EqualStrengthPushes(i: nat, p: Body, o: Body, c: Contacts, env: Env)
    requires c.hit(i, 0) && c.clip(i, 0) && o.strength == p.strength
    ensures ExternalForce(i, p, [o], c, env) == Push(o, env)
  {
    assert [o][..0] == [];
    assert ForceSum(i, p, [], c, env) == (0.0, 0.0);
    assert [o][0] == o;
  }

  /** A pushing opponent pushes along its own heading with twice its strength. */
  lemma PushMagnitude(o: Body, env: Env)
    requires env.cosDeg(o.angle) * env.cosDeg(o.angle) + env.sinDeg(o.angle) * env.sinDeg(o.angle) == 1.0
    ensures var f := Push(o, env);
            f.0 * f.0 + f.1 * f.1 == (4 * o.strength * o.strength) as real
  {
    MovementVectorLength(o.strength, env.cosDeg(o.angle), env.sinDeg(o.angle));
  }

  /** `check_game_state`: a tackle stops the play; reaching the score line stops it and scores 7. */
  function GameCheck(s: Score, tackled: bool, y: real, scoreLine: real): Score
  {
    var s1 := if tackled then s.(inPlay := false) else s;
    if y <= scoreLine then s1.(inPlay := false, points := s1.points + 7) else s1
  }

  /**
   * A tackle alone stops the play without scoring; reaching the line stops
   * it and adds exactly 7 whether or not the carrier is also tackled;
   * otherwise nothing changes.
   */
  lemma GameCheckCases(s: Score, tackled: bool, y: real, scoreLine: real)
    ensures var r := GameCheck(s, tackled, y, scoreLine);
            (r.points == s.points + 7 <==> y <= scoreLine) &&
            (r.points == s.points <==> y > scoreLine) &&
            (r.inPlay <==> s.inPlay && !tackled && y > scoreLine)
  {
  }

  // ---------------------------------------------------------------------
  // One team's pass: `update_team`
  // ---------------------------------------------------------------------

  /** The moving team, the opposing team and the score, partway through a pass. */
  datatype PassState = PassState(team: seq<Body>, opp: seq<Body>, score: Score)

  /** One network of the `[10, 2]` shape per player, in team order. */
  predicate Networks(nets: seq<seq<Matrix>>, bs: seq<Body>)
  {
    |nets| == |bs| && forall i :: 0 <= i < |nets| ==> PlayerShaped(nets[i])
  }

  /** Both teams can sense each other, and `nets` are the moving team's networks. */
  predicate Ready(st: PassState, nets: seq<seq<Matrix>>)
  {
    Sensible(st.team) && Sensible(st.opp) && Networks(nets, st.team)
  }

  /**
   * The score after player `i`'s turn: `check_game_state` runs only for the
   * ball carrier (its centre and possession are those it had when the pass
   * started, since sensing changes neither).
   */
  function TurnScore(st: PassState, i: nat, c: Contacts, g: Geometry): Score
    requires i < |st.team|
  {
    var b := st.team[i];
    if b.hasBall then GameCheck(st.score, Collided(i, |st.opp|, c), b.y, ScoreLine(g)) else st.score
  }

  /** The turn of player `i`: sense, check the game if carrying the ball, take the force, move. */
  function Turn(st: PassState, nets: seq<seq<Matrix>>, i: nat, half: bool, c: Contacts, g: Geometry, env: Env): (r: PassState)
    requires i < |st.team| && Ready(st, nets)
    ensures |r.team| == |st.team| && |r.opp| == |st.opp| && Ready(r, nets)
  {
    var p := Sensed(st.team[i], st.opp, half, g, env);
    var opp := Shared(st.opp, st.team[i], half, env);
    var f := ExternalForce(i, p, opp, c, env);
    PassState(st.team[i := Step(p, nets[i], f, g.bounds, g.height, env)], opp, TurnScore(st, i, c, g))
  }

  /** The first `n` turns of a pass, in team order. */
  function Pass(st: PassState, nets: seq<seq<Matrix>>, n: nat, half: bool, c: Contacts, g: Geometry, env: Env): (r: PassState)
    requires n <= |st.team| && Ready(st, nets)
    ensures |r.team| == |st.team| && |r.opp| == |st.opp| && Ready(r, nets)
    decreases n, 0
  {
    if n == 0 then st else AfterTurn(st, nets, n - 1, half, c, g, env)
  }

  /** The state after turn `i` of a pass from `st`: turn `i` on top of the earlier ones. */
  function AfterTurn(st: PassState, nets: seq<seq<Matrix>>, i: nat, half: bool, c: Contacts, g: Geometry, env: Env): (r: PassState)
    requires i < |st.team| && Ready(st, nets)
    ensures |r.team| == |st.team| && |r.opp| == |st.opp| && Ready(r, nets)
    decreases i, 1
  {
    var q := Pass(st, nets, i, half, c, g, env);
    var p := Sensed(q.team[i], q.opp, half, g, env);
    var opp := Shared(q.opp, q.team[i], half, env);
    var f := ExternalForce(i, p, opp, c, env);
    PassState(q.team[i := Step(p, nets[i], f, g.bounds, g.height, env)], opp, TurnScore(q, i, c, g))
  }

  /** Each turn of a pass is `Turn` applied to the state the earlier turns left. */
  lemma PassStep(st: PassState, nets: seq<seq<Matrix>>, i: nat, half: bool, c: Contacts, g: Geometry, env: Env)
    requires i < |st.team| && Ready(st, nets)
    ensures Pass(st, nets, i + 1, half, c, g, env) == Turn(Pass(st, nets, i, half, c, g, env), nets, i, half, c, g, env)
  {
    assert Pass(st, nets, i + 1, half, c, g, env) == AfterTurn(st, nets, i, half, c, g, env);
  }

  /** Entry `i + 1` of `trace` is turn `i` taken on entry `i`. */
  predicate TurnAt(trace: seq<PassState>, nets: seq<seq<Matrix>>, i: nat, half: bool, c: Contacts, g: Geometry, env: Env)
  {
    i + 1 < |trace| && i < |trace[i].team| && Ready(trace[i], nets) &&
    trace[i + 1] == Turn(trace[i], nets, i, half, c, g, env)
  }

  /** `trace` lists the states of a pass, each the turn of the one before. */
  predicate Traced(trace: seq<PassState>, nets: seq<seq<Matrix>>, half: bool, c: Contacts, g: Geometry, env: Env)
  {
    forall i :: 0 <= i < |trace| - 1 ==> TurnAt(trace, nets, i, half, c, g, env)
  }

  /** From `q` to `r` only player `i` moves, and only in its inputs, heading and centre; the opponents change only their inputs. */
  predicate MovedAlone(q: PassState, r: PassState, i: nat)
  {
    |r.team| == |q.team| && |r.opp| == |q.opp| && i < |q.team| &&
    (forall j :: 0 <= j < |q.team| && j != i ==> r.team[j] == q.team[j]) &&
    Kept(q.team[i], r.team[i]) &&
    (forall k :: 0 <= k < |q.opp| ==> OnlyInputs(q.opp[k], r.opp[k]))
  }

  /** Bodies `a` and `b` are the same player with the same possession. */
  predicate Kept(a: Body, b: Body)
  {
    a.role == b.role && a.id == b.id && a.speed == b.speed && a.strength == b.strength &&
    a.hasBall == b.hasBall
  }

  /** Body `b` is body `a` with, at most, new inputs (and, as the class shows, the same network). */
  predicate OnlyInputs(a: Body, b: Body)
  {
    Kept(a, b) && a.angle == b.angle && a.x == b.x && a.y == b.y
  }

  /**
   * Turn `n - 1` of a pass moves player `n - 1` alone, and only in its inputs,
   * heading and centre; the opponents change only in their inputs.
   */
  lemma TurnFrame(st: PassState, nets: seq<seq<Matrix>>, n: nat, half: bool, c: Contacts, g: Geometry, env: Env)
    requires 0 < n <= |st.team| && Ready(st, nets)
    ensures MovedAlone(Pass(st, nets, n - 1, half, c, g, env), Pass(st, nets, n, half, c, g, env), n - 1)
  {
    var i := n - 1;
    var q := Pass(st, nets, i, half, c, g, env);
    var p := Sensed(q.team[i], q.opp, half, g, env);
    var f := ExternalForce(i, p, Shared(q.opp, q.team[i], half, env), c, env);
    var (move, turn) := Decide(p, nets[i], env);
    var r := AfterTurn(st, nets, i, half, c, g, env);
    assert r.team[i] == Kinematics(p, move, turn, f, g.bounds, g.height, env);
    assert Pass(st, nets, n, half, c, g, env) == r;
  }

  /** Turn `i` of a pass keeps a team strictly inside the field. */
  lemma TurnInside(st: PassState, nets: seq<seq<Matrix>>, i: nat, half: bool, c: Contacts, g: Geometry, env: Env)
    requires i < |st.team| && Ready(st, nets)
    requires AllInside(Pass(st, nets, i, half, c, g, env).team, g)
    ensures AllInside(AfterTurn(st, nets, i, half, c, g, env).team, g)
  {
    var q := Pass(st, nets, i, half, c, g, env);
    var p := Sensed(q.team[i], q.opp, half, g, env);
    var f := ExternalForce(i, p, Shared(q.opp, q.team[i], half, env), c, env);
    var (move, turn) := Decide(p, nets[i], env);
    StaysInside(p, move, turn, f, g.bounds, g.height, env);
  }

  /**
   * The frame of the first `n` turns of a pass from `(team, opp)` to `r`:
   * the moving players change only their inputs, heading and centre, those
   * not yet reached not at all; the opponents change only their inputs.
   */
  predicate Framed(team: seq<Body>, opp: seq<Body>, r: PassState, n: nat)
  {
    |r.team| == |team| && |r.opp| == |opp| &&
    (forall i :: 0 <= i < |team| ==> Kept(team[i], r.team[i])) &&
    (forall i :: n <= i < |team| ==> r.team[i] == team[i]) &&
    (forall k :: 0 <= k < |opp| ==> OnlyInputs(opp[k], r.opp[k]))
  }

  /** One turn's frame, `q` to `r` at player `i`, extends the frame of the turns before it. */
  lemma FrameStep(team: seq<Body>, opp: seq<Body>, q: PassState, r: PassState, i: nat)
    requires Framed(team, opp, q, i) && MovedAlone(q, r, i)
    ensures Framed(team, opp, r, i + 1)
  {
  }

  /** The frame of the first `n - 1` turns of a pass extends to the first `n`. */
  lemma FrameTurn(st: PassState, nets: seq<seq<Matrix>>, n: nat, half: bool, c: Contacts, g: Geometry, env: Env)
    requires 0 < n <= |st.team| && Ready(st, nets)
    requires Framed(st.team, st.opp, Pass(st, nets, n - 1, half, c, g, env), n - 1)
    ensures Framed(st.team, st.opp, Pass(st, nets, n, half, c, g, env), n)
  {
    TurnFrame(st, nets, n, half, c, g, env);
    FrameStep(st.team, st.opp, Pass(st, nets, n - 1, half, c, g, env), Pass(st, nets, n, half, c, g, env), n - 1);
  }

  /** Over a pass the moving players change only their inputs, heading and centre, the opponents only their inputs. */
  lemma {:induction false} PassFrame(st: PassState, nets: seq<seq<Matrix>>, n: nat, half: bool, c: Contacts, g: Geometry, env: Env)
    requires n <= |st.team| && Ready(st, nets)
    ensures Framed(st.team, st.opp, Pass(st, nets, n, half, c, g, env), n)
  {
    if n > 0 {
      PassFrame(st, nets, n - 1, half, c, g, env);
      FrameTurn(st, nets, n, half, c, g, env);
    }
  }

  /**
   * How the score may move forward: points never decrease and change only
   * by multiples of 7; a play that is over stays over; and gaining points
   * ends the play.
   */
  predicate Advance(a: Score, b: Score)
  {
    b.points >= a.points && (b.points - a.points) % 7 == 0 &&
    (!a.inPlay ==> !b.inPlay) &&
    (b.points > a.points ==> !b.inPlay)
  }

  lemma AdvanceReflexive(a: Score)
    ensures Advance(a, a)
  {
  }

  lemma AdvanceTransitive(a: Score, b: Score, c: Score)
    requires Advance(a, b) && Advance(b, c)
    ensures Advance(a, c)
  {
    var k1, k2 := (b.points - a.points) / 7, (c.points - b.points) / 7;
    assert c.points - a.points == 7 * (k1 + k2);
  }

  lemma GameCheckAdvances(s: Score, tackled: bool, y: real, scoreLine: real)
    ensures Advance(s, GameCheck(s, tackled, y, scoreLine))
  {
  }

  /** Over a pass the score only advances. */
  lemma {:induction false} PassScore(st: PassState, nets: seq<seq<Matrix>>, n: nat, half: bool, c: Contacts, g: Geometry, env: Env)
    requires n <= |st.team| && Ready(st, nets)
    ensures Advance(st.score, Pass(st, nets, n, half, c, g, env).score)
  {
    if n == 0 {
      AdvanceReflexive(st.score);
    } else {
      PassScore(st, nets, n - 1, half, c, g, env);
      ScoreStep(st, nets, n, half, c, g, env);
      AdvanceTransitive(st.score, Pass(st, nets, n - 1, half, c, g, env).score, Pass(st, nets, n, half, c, g, env).score);
    }
  }

  /** Each turn of a pass only advances the score. */
  lemma ScoreStep(st: PassState, nets: seq<seq<Matrix>>, n: nat, half: bool, c: Contacts, g: Geometry, env: Env)
    requires 0 < n <= |st.team| && Ready(st, nets)
    ensures Advance(Pass(st, nets, n - 1, half, c, g, env).score, Pass(st, nets, n, half, c, g, env).score)
  {
    var q := Pass(st, nets, n - 1, half, c, g, env);
    assert Pass(st, nets, n, half, c, g, env).score == TurnScore(q, n - 1, c, g);
    if q.team[n - 1].hasBall {
      GameCheckAdvances(q.score, Collided(n - 1, |q.opp|, c), q.team[n - 1].y, ScoreLine(g));
    } else {
      AdvanceReflexive(q.score);
    }
  }

  /** All players strictly inside the field. */
  predicate AllInside(bs: seq<Body>, g: Geometry)
  {
    forall i :: 0 <= i < |bs| ==> Inside(bs[i], g.bounds, g.height)
  }

  /** The turn that ends the first `n` turns of a pass keeps the team inside. */
  lemma InsideStep(st: PassState, nets: seq<seq<Matrix>>, n: nat, half: bool, c: Contacts, g: Geometry, env: Env)
    requires 0 < n <= |st.team| && Ready(st, nets)
    requires AllInside(Pass(st, nets, n - 1, half, c, g, env).team, g)
    ensures AllInside(Pass(st, nets, n, half, c, g, env).team, g)
  {
    TurnInside(st, nets, n - 1, half, c, g, env);
    assert Pass(st, nets, n, half, c, g, env) == AfterTurn(st, nets, n - 1, half, c, g, env);
  }

  /** A pass keeps every moving player strictly inside the field. */
  lemma {:induction false} PassTeamInside(st: PassState, nets: seq<seq<Matrix>>, n: nat, half: bool, c: Contacts, g: Geometry, env: Env)
    requires n <= |st.team| && Ready(st, nets) && AllInside(st.team, g)
    ensures AllInside(Pass(st, nets, n, half, c, g, env).team, g)
  {
    if n > 0 {
      PassTeamInside(st, nets, n - 1, half, c, g, env);
      InsideStep(st, nets, n, half, c, g, env);
    }
  }

  /** A pass keeps every player of both teams strictly inside the field. */
  lemma PassInside(st: PassState, nets: seq<seq<Matrix>>, n: nat, half: bool, c: Contacts, g: Geometry, env: Env)
    requires n <= |st.team| && Ready(st, nets)
    requires AllInside(st.team, g) && AllInside(st.opp, g)
    ensures var r := Pass(st, nets, n, half, c, g, env);
            AllInside(r.team, g) && AllInside(r.opp, g)
  {
    PassTeamInside(st, nets, n, half, c, g, env);
    PassFrame(st, nets, n, half, c, g, env);
  }

  /** A sequence of players agreeing with a lineup on who they are is a lineup. */
  lemma LineupFrame(a: seq<Body>, b: seq<Body>, side: Side)
    requires Lineup(a, side) && |b| == |a| && Sensible(b)
    requires forall i :: 0 <= i < |a| ==> Kept(a[i], b[i])
    ensures Lineup(b, side)
  {
  }

  /** A pass keeps both teams lineups of their sides. */
  lemma PassLineup(st: PassState, nets: seq<seq<Matrix>>, n: nat, half: bool, c: Contacts, g: Geometry, env: Env, teamSide: Side, oppSide: Side)
    requires n <= |st.team| && Lineup(st.team, teamSide) && Lineup(st.opp, oppSide) && Networks(nets, st.team)
    ensures Ready(st, nets)
    ensures var r := Pass(st, nets, n, half, c, g, env);
            Lineup(r.team, teamSide) && Lineup(r.opp, oppSide)
  {
    LineupComplete(st.team, teamSide);
    LineupComplete(st.opp, oppSide);
    PassFrame(st, nets, n, half, c, g, env);
    var r := Pass(st, nets, n, half, c, g, env);
    LineupFrame(st.team, r.team, teamSide);
    LineupFrame(st.opp, r.opp, oppSide);
  }

  /** The states of `trace` are the first `|trace|` stages of the pass of `st`. */
  predicate Stages(trace: seq<PassState>, st: PassState, nets: seq<seq<Matrix>>, half: bool, c: Contacts, g: Geometry, env: Env)
  {
    |trace| <= |st.team| + 1 && Ready(st, nets) &&
    forall k :: 0 <= k < |trace| ==> trace[k] == Pass(st, nets, k, half, c, g, env)
  }

  /** Two consecutive stages of a pass are one `Turn` apart. */
  lemma PassTurnAt(trace: seq<PassState>, st: PassState, nets: seq<seq<Matrix>>, i: nat, half: bool, c: Contacts, g: Geometry, env: Env)
    requires Stages(trace, st, nets, half, c, g, env) && i + 1 < |trace|
    ensures TurnAt(trace, nets, i, half, c, g, env)
  {
    assert trace[i] == Pass(st, nets, i, half, c, g, env);
    assert trace[i + 1] == Pass(st, nets, i + 1, half, c, g, env);
    PassStep(st, nets, i, half, c, g, env);
  }

  /**
   * The states a pass of the lineups `st` goes through in its first `n`
   * turns; the last is `Pass` of `n` turns, and both teams stay lineups.
   */
  lemma PassTrace(st: PassState, nets: seq<seq<Matrix>>, n: nat, half: bool, c: Contacts, g: Geometry, env: Env,
                  teamSide: Side, oppSide: Side)
    returns (trace: seq<PassState>)
    requires n <= |st.team| && Lineup(st.team, teamSide) && Lineup(st.opp, oppSide) && Networks(nets, st.team)
    ensures Ready(st, nets)
    ensures |trace| == n + 1 && trace[0] == st && trace[n] == Pass(st, nets, n, half, c, g, env)
    ensures Traced(trace, nets, half, c, g, env)
    ensures Lineup(trace[n].team, teamSide) && Lineup(trace[n].opp, oppSide)
  {
    PassLineup(st, nets, n, half, c, g, env, teamSide, oppSide);
    trace := seq(n + 1, k requires 0 <= k <= n => Pass(st, nets, k, half, c, g, env));
    assert Stages(trace, st, nets, half, c, g, env);
    forall i | 0 <= i < n
      ensures TurnAt(trace, nets, i, half, c, g, env)
    {
      PassTurnAt(trace, st, nets, i, half, c, g, env);
    }
  }

  // ---------------------------------------------------------------------
  // One `update`
  // ---------------------------------------------------------------------

  /** Both teams can sense each other, and `oNets` and `dNets` are their networks. */
  predicate Playing(game: Game, oNets: seq<seq<Matrix>>, dNets: seq<seq<Matrix>>)
  {
    Sensible(game.offense) && Sensible(game.defense) &&
    Networks(oNets, game.offense) && Networks(dNets, game.defense)
  }

  /**
   * `update`: out of play, line up the offense on yard 80 facing 90 degrees
   * and the defense on yard 20 facing 270 and start the play; in play, a
   * full pass of the offense against the defense, then a half pass of the
   * defense against the offense as it now stands. `oNets` and `dNets` are
   * the two teams' networks, which a game never changes.
   */
  function Tick(game: Game, oNets: seq<seq<Matrix>>, dNets: seq<seq<Matrix>>, tick: TickInput, g: Geometry, env: Env): (r: Game)
    requires Playing(game, oNets, dNets)
    ensures Playing(r, oNets, dNets)
  {
    if game.score.inPlay then
      var o := Pass(PassState(game.offense, game.defense, game.score), oNets, |game.offense|, false, tick.offenseContacts, g, env);
      var d := Pass(PassState(o.opp, o.team, o.score), dNets, |o.opp|, true, tick.defenseContacts, g, env);
      Game(d.opp, d.team, d.score)
    else
      var offense := Placed(game.offense, g.bounds, Field.YardToPixel(80, g.height), 90, tick.offenseOffset);
      var defense := Placed(game.defense, g.bounds, Field.YardToPixel(20, g.height), 270, tick.defenseOffset);
      assert Sensible(offense) by {
        forall i | 0 <= i < |offense| ensures offense[i] == Place(game.offense[i], tick.offenseOffset(i) + 1.25 * g.bounds.0, Field.YardToPixel(80, g.height), 90) {}
      }
      assert Sensible(defense) by {
        forall i | 0 <= i < |defense| ensures defense[i] == Place(game.defense[i], tick.defenseOffset(i) + 1.25 * g.bounds.0, Field.YardToPixel(20, g.height), 270) {}
      }
      Game(offense, defense, game.score.(inPlay := true))
  }

  /** `after` is what one `update` makes of `before`, for the networks `oNets` and `dNets`. */
  predicate Ticked(before: Game, after: Game, oNets: seq<seq<Matrix>>, dNets: seq<seq<Matrix>>, tick: TickInput, g: Geometry, env: Env)
  {
    Playing(before, oNets, dNets) && after == Tick(before, oNets, dNets, tick, g, env)
  }

  /**
   * Out of play, an update only lines the teams up: the offense on yard 80
   * facing 90, the defense on yard 20 facing 270, nobody moved by a
   * network, the score kept and the play started.
   */
  lemma LineUpTick(game: Game, oNets: seq<seq<Matrix>>, dNets: seq<seq<Matrix>>, tick: TickInput, g: Geometry, env: Env)
    requires Playing(game, oNets, dNets) && !game.score.inPlay
    ensures var r := Tick(game, oNets, dNets, tick, g, env);
            r.score == Score(true, game.score.points) &&
            (forall i :: 0 <= i < |game.offense| ==>
               r.offense[i] == Place(game.offense[i], tick.offenseOffset(i) + 1.25 * g.bounds.0, Field.YardToPixel(80, g.height), 90)) &&
            (forall i :: 0 <= i < |game.defense| ==>
               r.defense[i] == Place(game.defense[i], tick.defenseOffset(i) + 1.25 * g.bounds.0, Field.YardToPixel(20, g.height), 270))
  {
  }

  /**
   * In play, the update is the offense's full pass followed by the
   * defense's half pass, which starts from the offense's result.
   */
  lemma PlayTick(game: Game, oNets: seq<seq<Matrix>>, dNets: seq<seq<Matrix>>, tick: TickInput, g: Geometry, env: Env)
    requires Playing(game, oNets, dNets) && game.score.inPlay
    ensures var o := Pass(PassState(game.offense, game.defense, game.score), oNets, |game.offense|, false, tick.offenseContacts, g, env);
            var r := Tick(game, oNets, dNets, tick, g, env);
            Ready(PassState(o.opp, o.team, o.score), dNets) &&
            PassState(r.defense, r.offense, r.score) ==
              Pass(PassState(o.opp, o.team, o.score), dNets, |o.opp|, true, tick.defenseContacts, g, env)
  {
  }

  /**
   * In play, an update goes through the trace `o` of the offense's full
   * pass from the game, then the trace `d` of the defense's half pass from
   * where `o` ends, and the game is where `d` ends.
   */
  lemma TickTraces(game: Game, oNets: seq<seq<Matrix>>, dNets: seq<seq<Matrix>>, tick: TickInput, g: Geometry, env: Env)
    returns (o: seq<PassState>, d: seq<PassState>)
    requires Lineup(game.offense, OffenseSide) && Lineup(game.defense, DefenseSide)
    requires Networks(oNets, game.offense) && Networks(dNets, game.defense) && game.score.inPlay
    ensures Playing(game, oNets, dNets)
    ensures |o| == |game.offense| + 1 && o[0] == PassState(game.offense, game.defense, game.score)
    ensures Traced(o, oNets, false, tick.offenseContacts, g, env)
    ensures Lineup(o[|o| - 1].team, OffenseSide) && Lineup(o[|o| - 1].opp, DefenseSide)
    ensures |d| == |game.defense| + 1 && d[0] == PassState(o[|o| - 1].opp, o[|o| - 1].team, o[|o| - 1].score)
    ensures Traced(d, dNets, true, tick.defenseContacts, g, env)
    ensures Lineup(d[|d| - 1].team, DefenseSide) && Lineup(d[|d| - 1].opp, OffenseSide)
    ensures Tick(game, oNets, dNets, tick, g, env) == Game(d[|d| - 1].opp, d[|d| - 1].team, d[|d| - 1].score)
  {
    LineupComplete(game.offense, OffenseSide);
    LineupComplete(game.defense, DefenseSide);
    o := PassTrace(PassState(game.offense, game.defense, game.score), oNets, |game.offense|, false,
                   tick.offenseContacts, g, env, OffenseSide, DefenseSide);
    var q := o[|o| - 1];
    d := PassTrace(PassState(q.opp, q.team, q.score), dNets, |q.opp|, true,
                   tick.defenseContacts, g, env, DefenseSide, OffenseSide);
  }

  /** Over one update the score only advances, and lining up never scores and starts the play. */
  lemma TickScore(game: Game, oNets: seq<seq<Matrix>>, dNets: seq<seq<Matrix>>, tick: TickInput, g: Geometry, env: Env)
    requires Playing(game, oNets, dNets)
    ensures var r := Tick(game, oNets, dNets, tick, g, env).score;
            (game.score.inPlay ==> Advance(game.score, r)) &&
            (!game.score.inPlay ==> r == Score(true, game.score.points))
  {
    if game.score.inPlay {
      var st := PassState(game.offense, game.defense, game.score);
      var o := Pass(st, oNets, |game.offense|, false, tick.offenseContacts, g, env);
      PassScore(st, oNets, |game.offense|, false, tick.offenseContacts, g, env);
      var d := Pass(PassState(o.opp, o.team, o.score), dNets, |o.opp|, true, tick.defenseContacts, g, env);
      PassScore(PassState(o.opp, o.team, o.score), dNets, |o.opp|, true, tick.defenseContacts, g, env);
      AdvanceTransitive(game.score, o.score, d.score);
    }
  }

  /** An update keeps both teams lineups of their sides. */
  lemma TickLineup(game: Game, oNets: seq<seq<Matrix>>, dNets: seq<seq<Matrix>>, tick: TickInput, g: Geometry, env: Env)
    requires Lineup(game.offense, OffenseSide) && Lineup(game.defense, DefenseSide)
    requires Networks(oNets, game.offense) && Networks(dNets, game.defense)
    ensures Playing(game, oNets, dNets)
    ensures var r := Tick(game, oNets, dNets, tick, g, env);
            Lineup(r.offense, OffenseSide) && Lineup(r.defense, DefenseSide)
  {
    LineupComplete(game.offense, OffenseSide);
    LineupComplete(game.defense, DefenseSide);
    if game.score.inPlay {
      var st := PassState(game.offense, game.defense, game.score);
      PassLineup(st, oNets, |game.offense|, false, tick.offenseContacts, g, env, OffenseSide, DefenseSide);
      var o := Pass(st, oNets, |game.offense|, false, tick.offenseContacts, g, env);
      PassLineup(PassState(o.opp, o.team, o.score), dNets, |o.opp|, true, tick.defenseContacts, g, env, DefenseSide, OffenseSide);
    } else {
      PlacedLineup(game.offense, OffenseSide, g.bounds, Field.YardToPixel(80, g.height), 90, tick.offenseOffset);
      PlacedLineup(game.defense, DefenseSide, g.bounds, Field.YardToPixel(20, g.height), 270, tick.defenseOffset);
    }
  }

  /** A field whose left bound is above 0 and whose right bound is above 1.5 times the left one. */
  predicate Playable(g: Geometry)
  {
    g.height > 0.0 && g.bounds.0 > 0.0 && g.bounds.1 > 1.5 * g.bounds.0
  }

  /** Placement offsets drawn from `[0, (bounds[1] - bounds[0]) / 2]`, as `random.uniform` does. */
  predicate OffsetsInRange(offset: nat -> real, n: nat, g: Geometry)
  {
    forall i :: 0 <= i < n ==> 0.0 <= offset(i) <= (g.bounds.1 - g.bounds.0) / 2.0
  }

  /**
   * On a playable field, lining up puts every player strictly inside it,
   * and every later update keeps them there.
   */
  lemma TickInside(game: Game, oNets: seq<seq<Matrix>>, dNets: seq<seq<Matrix>>, tick: TickInput, g: Geometry, env: Env)
    requires Playing(game, oNets, dNets) && Playable(g)
    requires game.score.inPlay ==> AllInside(game.offense, g) && AllInside(game.defense, g)
    requires !game.score.inPlay ==>
               OffsetsInRange(tick.offenseOffset, |game.offense|, g) && OffsetsInRange(tick.defenseOffset, |game.defense|, g)
    ensures var r := Tick(game, oNets, dNets, tick, g, env);
            AllInside(r.offense, g) && AllInside(r.defense, g)
  {
    if game.score.inPlay {
      var st := PassState(game.offense, game.defense, game.score);
      var o := Pass(st, oNets, |game.offense|, false, tick.offenseContacts, g, env);
      PassInside(st, oNets, |game.offense|, false, tick.offenseContacts, g, env);
      PassInside(PassState(o.opp, o.team, o.score), dNets, |o.opp|, true, tick.defenseContacts, g, env);
    } else {
      Field.FieldLinesOrdered(g.height);
      PlacedInside(game.offense, g.bounds, Field.YardToPixel(80, g.height), g.height, 90, tick.offenseOffset);
      PlacedInside(game.defense, g.bounds, Field.YardToPixel(20, g.height), g.height, 270, tick.defenseOffset);
    }
  }

  /** Points that only ever advanced from 0 stay a non-negative multiple of 7. */
  lemma AdvanceKeepsSevens(a: Score, b: Score)
    requires a.points >= 0 && a.points % 7 == 0 && Advance(a, b)
    ensures b.points >= 0 && b.points % 7 == 0
  {
    var k1, k2 := a.points / 7, (b.points - a.points) / 7;
    assert b.points == 7 * (k1 + k2);
  }

  /**
   * The body of the first loop of `net_input` for one opponent `other`;
   * `p0` and `o` are the two players' snapshots as sensing sees them.
   */
  method SenseOpponent(p: Player, vision: (real, real), other: Player, half: bool, env: Env, ghost p0: Body, ghost o: Body)
    requires p != other && |p.input| == InputLength && |other.input| == InputLength
    requires 2 * other.id + 1 < InputLength && 2 * p.id + 1 < InputLength
    requires p0.x == p.x && p0.y == p.y && p0.id == p.id && vision == Vision(p0.angle, env)
    requires o.x == other.x && o.y == other.y && o.id == other.id && o.input == other.input
    modifies p`input, other`input
    ensures p.input == SenseOne(old(p.input), p0, o, half, env)
    ensures other.input == ShareOne(o, p0, half, env).input
  {
    var diff := (other.x - p.x, other.y - p.y);
    if !half {
      var magnitude := env.dist(diff.0, diff.1);
      p.input := p.input[2 * other.id := magnitude];
      other.input := other.input[2 * p.id := magnitude];
    }
    p.input := p.input[2 * other.id + 1 := Bearing(vision, diff, env)];
  }

  /** After `k` turns of the first loop of `net_input`: the state of the sensing player and of the opponents. */
  ghost predicate Sensing(p: Player, opps: seq<Player>, k: nat, p0: Body, before: seq<Body>, half: bool, env: Env)
    reads p, opps
  {
    k <= |opps| == |before| && Sensible(before) && |p0.input| == InputLength && 2 * p0.id + 1 < InputLength &&
    p.x == p0.x && p.y == p0.y && p.id == p0.id &&
    (forall j :: 0 <= j < |opps| ==> opps[j] != p && opps[j].id == j == before[j].id &&
                                     opps[j].x == before[j].x && opps[j].y == before[j].y) &&
    p.input == SenseOpponents(p0.input, p0, before, k, half, env) &&
    (forall j :: 0 <= j < k ==> opps[j].input == ShareOne(before[j], p0, half, env).input) &&
    (forall j :: k <= j < |opps| ==> opps[j].input == before[j].input)
  }

  /** The players `ps` stand, in order, in the states `bs`. */
  ghost predicate Snapshots(ps: seq<Player>, bs: seq<Body>)
    reads ps
  {
    |ps| == |bs| && forall j :: 0 <= j < |ps| ==> ps[j].Snapshot() == bs[j]
  }

  /** The moving players: numbered in order, each with its `[10, 2]` network whose weights are `nets`. */
  ghost predicate Moving(ps: seq<Player>, nets: seq<seq<Matrix>>)
    reads set p | p in ps :: p.network
  {
    |ps| == |nets| &&
    forall j :: 0 <= j < |ps| ==>
      ps[j].id == j && ps[j].network.sizes == NetworkSizes && ps[j].network.weights == nets[j]
  }

  /** No player is in both teams. */
  predicate Apart(ps: seq<Player>, os: seq<Player>)
  {
    forall j, k :: 0 <= j < |ps| && 0 <= k < |os| ==> ps[j] != os[k]
  }

  /** The moving players `ps` with networks `nets`, against the numbered opponents `os`. */
  ghost predicate Facing(ps: seq<Player>, os: seq<Player>, nets: seq<seq<Matrix>>)
    reads set p | p in ps :: p.network
  {
    Moving(ps, nets) && Apart(ps, os) && forall k :: 0 <= k < |os| ==> os[k].id == k
  }

  /** One turn of the first loop of `net_input`. */
  method SenseStep(p: Player, vision: (real, real), opps: seq<Player>, k: nat, half: bool, env: Env, ghost p0: Body, ghost before: seq<Body>)
    requires Sensing(p, opps, k, p0, before, half, env) && k < |opps| && vision == Vision(p0.angle, env)
    modifies p`input, opps`input
    ensures Sensing(p, opps, k + 1, p0, before, half, env)
  {
    var other := opps[k];
    assert forall j :: 0 <= j < |opps| && j != k ==> opps[j] != other;
    SenseOpponent(p, vision, other, half, env, p0, before[k]);
  }

  /** A valid team's players stand in its snapshots, numbered, with their `[10, 2]` networks. */
  lemma TeamFacts(t: Team)
    requires t.Valid()
    ensures Snapshots(t.players, t.Bodies()) && Moving(t.players, t.Nets())
    ensures Sensible(t.Bodies()) && Networks(t.Nets(), t.Bodies())
    ensures forall k :: 0 <= k < |t.players| ==> t.players[k].id == k
  {
    LineupComplete(t.Bodies(), t.side);
  }

  /** Disjoint teams share no player. */
  lemma TeamsApart(t: Team, u: Team)
    requires t.Distinct() && u.Distinct() && t.Repr !! u.Repr
    ensures Apart(t.players, u.players)
  {
    forall j, k | 0 <= j < |t.players| && 0 <= k < |u.players|
      ensures t.players[j] != u.players[k]
    {
      assert t.players[j] in t.Repr && u.players[k] in u.Repr;
    }
  }

  /** A team whose players stand in a lineup of its side, with their networks unchanged, is valid. */
  lemma TeamValid(t: Team, bs: seq<Body>, nets: seq<seq<Matrix>>)
    requires t.Distinct() && Snapshots(t.players, bs) && Lineup(bs, t.side)
    requires Moving(t.players, nets) && Networks(nets, bs)
    ensures t.Valid() && t.Bodies() == bs && t.Nets() == nets
  {
  }

  // ---------------------------------------------------------------------
  // The `Gridiron` object
  // ---------------------------------------------------------------------

  class Gridiron {
    const offense: Team
    const defense: Team
    const bounds: (real, real)
    const height: real
    const scoreEndzone: real
    const scrimmage: real
    var inPlay: bool
    var points: int

    ghost function Repr(): set<object>
    {
      {this} + offense.Repr + defense.Repr
    }

    function Geo(): Geometry
    {
      Geometry(bounds, height)
    }

    /** The field lines fixed by the constructor. */
    predicate Lines()
    {
      scoreEndzone == ScoreLine(Geo()) && scrimmage == Field.YardToPixel(70, height)
    }

    ghost predicate Valid()
      reads Repr()
    {
      Lines() &&
      offense.side == OffenseSide && defense.side == DefenseSide &&
      offense.Repr !! defense.Repr && this !in offense.Repr && this !in defense.Repr &&
      offense.Valid() && defense.Valid() &&
      points >= 0 && points % 7 == 0
    }

    ghost function State(): Game
      reads this, offense.players, defense.players
    {
      Game(offense.Bodies(), defense.Bodies(), Score(inPlay, points))
    }

    /**
     * `Gridiron(offense, defense, bounds, screen)`, with the screen's height
     * given directly; the game starts out of play with no points.
     */
    constructor (offense: Team, defense: Team, bounds: (real, real), height: real)
      requires offense.Valid() && defense.Valid()
      requires offense.side == OffenseSide && defense.side == DefenseSide
      requires offense.Repr !! defense.Repr
      ensures Valid()
      ensures this.offense == offense && this.defense == defense
      ensures this.bounds == bounds && this.height == height
      ensures State() == Game(offense.Bodies(), defense.Bodies(), Score(false, 0))
    {
      this.offense := offense;
      this.defense := defense;
      this.bounds := bounds;
      this.height := height;
      scoreEndzone := Field.YardToPixel(10, height, 0);
      scrimmage := Field.YardToPixel(70, height);
      inPlay := false;
      points := 0;
      new;
      LineupComplete(offense.Bodies(), OffenseSide);
      LineupComplete(defense.Bodies(), DefenseSide);
    }

    /**
     * `net_input(player, opposing_team, half_update)`, with the opposing
     * team given by its players `os`, whose snapshots are `before`.
     */
    method NetInput(p: Player, os: seq<Player>, half: bool, env: Env, ghost before: seq<Body>)
      requires Lines() && |p.input| == InputLength && 2 * p.id + 1 < InputLength
      requires Snapshots(os, before) && Sensible(before)
      requires forall j :: 0 <= j < |os| ==> os[j] != p && os[j].id == j
      modifies p`input, os`input
      ensures p.Snapshot() == Sensed(old(p.Snapshot()), before, half, Geo(), env)
      ensures Snapshots(os, Shared(before, old(p.Snapshot()), half, env))
    {
      ghost var p0 := p.Snapshot();
      var vision := Vision(p.angle, env);
      SenseOpponentsLoop(p, vision, os, half, env, p0, before);
      ghost var after := Shared(before, p0, half, env);
      forall j | 0 <= j < |os|
        ensures os[j].Snapshot() == after[j]
      {
        assert os[j].Snapshot() == before[j].(input := os[j].input);
      }
      SenseCornersLoop(p, vision, env, p0);
    }

    /** The first loop of `net_input`, over the opposing players. */
    method SenseOpponentsLoop(p: Player, vision: (real, real), os: seq<Player>, half: bool, env: Env, ghost p0: Body, ghost before: seq<Body>)
      requires Sensing(p, os, 0, p0, before, half, env) && vision == Vision(p0.angle, env)
      modifies p`input, os`input
      ensures Sensing(p, os, |os|, p0, before, half, env)
    {
      var k := 0;
      while k < |os|
        invariant k <= |os|
        invariant Sensing(p, os, k, p0, before, half, env)
      {
        SenseStep(p, vision, os, k, half, env, p0, before);
        k := k + 1;
      }
    }

    /** The corner loop of `net_input`, over the two x bounds of the scoring end line; `p0` is the sensing player's pose. */
    method SenseCornersLoop(p: Player, vision: (real, real), env: Env, ghost p0: Body)
      requires Lines() && |p.input| == InputLength && vision == Vision(p0.angle, env)
      requires p.x == p0.x && p.y == p0.y
      modifies p`input
      ensures p.input == SenseCorners(old(p.input), p0, 2, Geo(), env)
    {
      ghost var v0 := p.input;
      var corner := 0;
      while corner < 2
        invariant 0 <= corner <= 2
        invariant p.input == SenseCorners(v0, p0, corner, Geo(), env)
      {
        var diff := ((if corner == 0 then bounds.0 else bounds.1) - p.x, scoreEndzone - p.y);
        var slot := |p.input| - 2 * (2 - corner);
        p.input := p.input[slot := env.dist(diff.0, diff.1)];
        p.input := p.input[slot + 1 := Bearing(vision, diff, env)];
        corner := corner + 1;
      }
    }

    /** `check_game_state(player, collisions)`; `tackled` is whether the player is a key of the collision map. */
    method CheckGameState(p: Player, tackled: bool)
      requires Lines()
      modifies this`inPlay, this`points
      ensures Score(inPlay, points) == GameCheck(old(Score(inPlay, points)), tackled, p.y, ScoreLine(Geo()))
    {
      if tackled {
        inPlay := false;
      }
      if p.y <= scoreEndzone {
        inPlay := false;
        points := points + 7;
      }
    }

    /** The loop over `collided[player]`, summing the pushes of the opponents `os` (snapshots `bs`) that clip the player. */
    method ComputeForce(i: nat, p: Player, os: seq<Player>, c: Contacts, env: Env, ghost bs: seq<Body>) returns (f: (real, real))
      requires Snapshots(os, bs)
      ensures f == ForceSum(i, p.Snapshot(), bs, c, env)
    {
      f := (0.0, 0.0);
      var k := 0;
      while k < |os|
        invariant 0 <= k <= |os|
        invariant f == ForceSum(i, p.Snapshot(), bs[..k], c, env)
      {
        assert bs[..k + 1][..k] == bs[..k];
        var opponent := os[k];
        if c.hit(i, k) && c.clip(i, k) && opponent.strength >= p.strength {
          var v := MovementVector(opponent.strength, env.cosDeg(opponent.angle), env.sinDeg(opponent.angle));
          f := (f.0 + 2.0 * v.0, f.1 + 2.0 * v.1);
        }
        k := k + 1;
      }
      assert bs[..k] == bs;
    }

    /**
     * The body of `update_team`'s loop for player `i` of the moving players
     * `ps` against the opposing players `os`, from the state `st`: sense,
     * check the game if it carries the ball, sum the pushes when it is a key
     * of the collision map (force `(0, 0)` on the `KeyError` path), move.
     */
    method PlayTurn(ps: seq<Player>, os: seq<Player>, i: nat, half: bool, c: Contacts, env: Env,
                    ghost st: PassState, ghost nets: seq<seq<Matrix>>, ghost oNets: seq<seq<Matrix>>)
      requires Lines() && i < |ps| && Ready(st, nets)
      requires Standing(ps, os, st) && Facing(ps, os, nets) && Moving(os, oNets)
      modifies ps`angle, ps`x, ps`y, ps`input, os`input, this`inPlay, this`points
      ensures Facing(ps, os, nets) && Moving(os, oNets)
      ensures var p := Sensed(st.team[i], st.opp, half, Geo(), env);
              var opp := Shared(st.opp, st.team[i], half, env);
              ps[i].Snapshot() == Step(p, nets[i], ExternalForce(i, p, opp, c, env), bounds, height, env) &&
              (forall j :: 0 <= j < |ps| && j != i ==> ps[j].Snapshot() == st.team[j]) &&
              Snapshots(os, opp) && Score(inPlay, points) == TurnScore(st, i, c, Geo())
    {
      var player := ps[i];
      assert forall j :: 0 <= j < |ps| && j != i ==> ps[j] != player;
      assert forall k :: 0 <= k < |os| ==> os[k] != player;
      TurnOne(player, os, i, half, c, env, st.team[i], st.opp, nets[i]);
    }

    /** `update_team`'s loop body for one player, whose state is `b` and whose weights are `w`. */
    method TurnOne(player: Player, os: seq<Player>, i: nat, half: bool, c: Contacts, env: Env,
                   ghost b: Body, ghost before: seq<Body>, ghost w: seq<Matrix>)
      requires Lines() && player.Snapshot() == b && WellFormed(b) && 2 * b.id + 1 < InputLength
      requires player.network.sizes == NetworkSizes && player.network.weights == w && PlayerShaped(w)
      requires Snapshots(os, before) && Sensible(before)
      requires forall k :: 0 <= k < |os| ==> os[k] != player && os[k].id == k
      modifies player`angle, player`x, player`y, player`input, os`input, this`inPlay, this`points
      ensures var p := Sensed(b, before, half, Geo(), env);
              var opp := Shared(before, b, half, env);
              player.Snapshot() == Step(p, w, ExternalForce(i, p, opp, c, env), bounds, height, env) &&
              Snapshots(os, opp)
      ensures Score(inPlay, points) ==
              if b.hasBall then GameCheck(old(Score(inPlay, points)), Collided(i, |before|, c), b.y, ScoreLine(Geo()))
              else old(Score(inPlay, points))
    {
      NetInput(player, os, half, env, before);
      var tackled := Collided(i, |os|, c);
      if player.hasBall {
        CheckGameState(player, tackled);
      }
      MovePlayer(player, os, i, tackled, c, env, Shared(before, b, half, env));
    }

    /** Sum the pushes when the player is a key of the collision map, else `(0, 0)`; then `player.update`. */
    method MovePlayer(player: Player, os: seq<Player>, i: nat, tackled: bool, c: Contacts, env: Env, ghost opp: seq<Body>)
      requires player.Valid() && Snapshots(os, opp) && tackled == Collided(i, |os|, c)
      requires forall k :: 0 <= k < |os| ==> os[k] != player
      modifies player`angle, player`x, player`y
      ensures player.Valid() && Snapshots(os, opp)
      ensures player.Snapshot() ==
              Step(old(player.Snapshot()), player.network.weights, ExternalForce(i, old(player.Snapshot()), opp, c, env), bounds, height, env)
    {
      var force := (0.0, 0.0);
      if tackled {
        force := ComputeForce(i, player, os, c, env, opp);
      }
      player.Update(bounds, height, force, env);
    }

    /** What a pass of `update_team` works on: the moving team, the opposing team and the score. */
    ghost function PassOf(team: Team, opp: Team): PassState
      reads this, team.players, opp.players
    {
      PassState(team.Bodies(), opp.Bodies(), Score(inPlay, points))
    }

    /**
     * `update_team(update_team, opposing_team, half_update)`: every player
     * of `team` in roster order takes its turn against `opp`; `c` is the
     * collision map taken when the pass starts.
     */
    method UpdateTeam(team: Team, opp: Team, half: bool, c: Contacts, env: Env, ghost trace: seq<PassState>)
      requires Lines() && team.Valid() && opp.Valid() && team.Repr !! opp.Repr
      requires |trace| == |team.players| + 1 && trace[0] == PassOf(team, opp)
      requires Traced(trace, team.Nets(), half, c, Geo(), env)
      requires Lineup(trace[|trace| - 1].team, team.side) && Lineup(trace[|trace| - 1].opp, opp.side)
      modifies team.players`angle, team.players`x, team.players`y, team.players`input, opp.players`input, this`inPlay, this`points
      ensures PassOf(team, opp) == trace[|trace| - 1]
      ensures team.Valid() && opp.Valid()
      ensures team.Nets() == old(team.Nets()) && opp.Nets() == old(opp.Nets())
    {
      ghost var nets := team.Nets();
      ghost var oNets := opp.Nets();
      TeamFacts(team);
      TeamFacts(opp);
      TeamsApart(team, opp);
      PassLoop(team.players, opp.players, half, c, env, trace, nets, oNets);
      ghost var r := trace[|team.players|];
      TeamValid(team, r.team, nets);
      TeamValid(opp, r.opp, oNets);
    }

    /** The players `ps` and `os` and the score stand as in `q`. */
    ghost predicate Standing(ps: seq<Player>, os: seq<Player>, q: PassState)
      reads this, ps, os
    {
      Snapshots(ps, q.team) && Snapshots(os, q.opp) && Score(inPlay, points) == q.score
    }

    /** Turn `i` of a pass, from entry `i` of its trace to entry `i + 1`. */
    method PassTurn(ps: seq<Player>, os: seq<Player>, i: nat, half: bool, c: Contacts, env: Env,
                    ghost trace: seq<PassState>, ghost nets: seq<seq<Matrix>>, ghost oNets: seq<seq<Matrix>>)
      requires Lines() && i < |ps| && i + 1 < |trace| && Traced(trace, nets, half, c, Geo(), env)
      requires Facing(ps, os, nets) && Moving(os, oNets) && Standing(ps, os, trace[i])
      modifies ps`angle, ps`x, ps`y, ps`input, os`input, this`inPlay, this`points
      ensures Facing(ps, os, nets) && Moving(os, oNets) && Standing(ps, os, trace[i + 1])
    {
      assert TurnAt(trace, nets, i, half, c, Geo(), env);
      PlayTurn(ps, os, i, half, c, env, trace[i], nets, oNets);
      assert trace[i + 1].team == trace[i].team[i := ps[i].Snapshot()];
    }

    /** The loop of `update_team` over the moving players `ps`, through the states of `trace`. */
    method PassLoop(ps: seq<Player>, os: seq<Player>, half: bool, c: Contacts, env: Env,
                    ghost trace: seq<PassState>, ghost nets: seq<seq<Matrix>>, ghost oNets: seq<seq<Matrix>>)
      requires Lines() && |trace| == |ps| + 1 && Traced(trace, nets, half, c, Geo(), env)
      requires Facing(ps, os, nets) && Moving(os, oNets) && Standing(ps, os, trace[0])
      modifies ps`angle, ps`x, ps`y, ps`input, os`input, this`inPlay, this`points
      ensures Facing(ps, os, nets) && Moving(os, oNets) && Standing(ps, os, trace[|ps|])
    {
      var i := 0;
      while i < |ps|
        invariant 0 <= i <= |ps| && Facing(ps, os, nets) && Moving(os, oNets) && Standing(ps, os, trace[i])
      {
        PassTurn(ps, os, i, half, c, env, trace, nets, oNets);
        i := i + 1;
      }
    }

    /**
     * `update()`: in play, a full pass of the offense against the defense
     * and a half pass of the defense against the offense; otherwise line
     * both teams up and start the play. `tick` holds the random placement
     * offsets and the collision maps of the two passes.
     */
    method Update(tick: TickInput, env: Env)
      requires Valid()
      modifies offense.players, defense.players, this`inPlay, this`points
      ensures Valid()
      ensures offense.Nets() == old(offense.Nets()) && defense.Nets() == old(defense.Nets())
      ensures Ticked(old(State()), State(), offense.Nets(), defense.Nets(), tick, Geo(), env)
    {
      ghost var game := State();
      TeamFacts(offense);
      TeamFacts(defense);
      if inPlay {
        ghost var o, d := TickTraces(game, offense.Nets(), defense.Nets(), tick, Geo(), env);
        PlayUpdate(tick, env, o, d);
      } else {
        LineUp(tick);
        LineUpTick(game, offense.Nets(), defense.Nets(), tick, Geo(), env);
      }
      TickScore(game, offense.Nets(), defense.Nets(), tick, Geo(), env);
      if game.score.inPlay {
        AdvanceKeepsSevens(game.score, Score(inPlay, points));
      }
    }

    /** The in-play branch of `update()`, through the traces `o` and `d` of the two passes. */
    method PlayUpdate(tick: TickInput, env: Env, ghost o: seq<PassState>, ghost d: seq<PassState>)
      requires Valid() && inPlay
      requires |o| == |offense.players| + 1 && o[0] == PassOf(offense, defense)
      requires Traced(o, offense.Nets(), false, tick.offenseContacts, Geo(), env)
      requires Lineup(o[|o| - 1].team, OffenseSide) && Lineup(o[|o| - 1].opp, DefenseSide)
      requires |d| == |defense.players| + 1 && d[0] == PassState(o[|o| - 1].opp, o[|o| - 1].team, o[|o| - 1].score)
      requires Traced(d, defense.Nets(), true, tick.defenseContacts, Geo(), env)
      requires Lineup(d[|d| - 1].team, DefenseSide) && Lineup(d[|d| - 1].opp, OffenseSide)
      modifies offense.players, defense.players, this`inPlay, this`points
      ensures offense.Valid() && defense.Valid()
      ensures offense.Nets() == old(offense.Nets()) && defense.Nets() == old(defense.Nets())
      ensures State() == Game(d[|d| - 1].opp, d[|d| - 1].team, d[|d| - 1].score)
    {
      UpdateTeam(offense, defense, false, tick.offenseContacts, env, o);
      UpdateTeam(defense, offense, true, tick.defenseContacts, env, d);
    }

    /** The out-of-play branch of `update()`: line both teams up and start the play. */
    method LineUp(tick: TickInput)
      requires Valid() && !inPlay
      modifies offense.players, defense.players, this`inPlay
      ensures Valid() && inPlay && points == old(points)
      ensures offense.Nets() == old(offense.Nets()) && defense.Nets() == old(defense.Nets())
      ensures offense.Bodies() == Placed(old(offense.Bodies()), bounds, Field.YardToPixel(80, height), 90, tick.offenseOffset)
      ensures defense.Bodies() == Placed(old(defense.Bodies()), bounds, Field.YardToPixel(20, height), 270, tick.defenseOffset)
    {
      LineUpOffense(tick);
      LineUpDefense(tick);
      inPlay := true;
    }

    /** `offense.set_offense()`, which leaves the defense and the score alone. */
    method LineUpOffense(tick: TickInput)
      requires Valid()
      modifies offense.players
      ensures Valid() && inPlay == old(inPlay) && points == old(points)
      ensures offense.Nets() == old(offense.Nets()) && defense.Nets() == old(defense.Nets())
      ensures offense.Bodies() == Placed(old(offense.Bodies()), bounds, Field.YardToPixel(80, height), 90, tick.offenseOffset)
      ensures defense.Bodies() == old(defense.Bodies())
    {
      offense.SetOffense(bounds, height, tick.offenseOffset);
    }

    /** `defense.set_defense()`, which leaves the offense and the score alone. */
    method LineUpDefense(tick: TickInput)
      requires Valid()
      modifies defense.players
      ensures Valid() && inPlay == old(inPlay) && points == old(points)
      ensures offense.Nets() == old(offense.Nets()) && defense.Nets() == old(defense.Nets())
      ensures defense.Bodies() == Placed(old(defense.Bodies()), bounds, Field.YardToPixel(20, height), 270, tick.defenseOffset)
      ensures offense.Bodies() == old(offense.Bodies())
    {
      defense.SetDefense(bounds, height, tick.defenseOffset);
    }
  }
}
