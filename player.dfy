/**
 * One player: its fixed role and stats, its kinematic state (centre, heading
 * in degrees, possession), its sensory vector and its network; and the rule by
 * which the network's two outputs turn and move it inside the field.
 */
module Players {
  import opened NeuralNet
  import opened Numerics

  datatype Role = RB | WR | CB | S

  /** A role's `[speed, strength]` entry. */
  datatype Stats = Stats(speed: int, strength: int)

  /** Every player owns `Network([10, 2])` and a sensory vector `[0] * 10`. */
  const NetworkSizes: seq<nat> := [10, 2]
  const InputLength: nat := 10
  const StartAngle: int := 90

  /** `get_movement_vector`, with `c` and `s` the cosine and sine of the angle. */
  function MovementVector(length: int, c: real, s: real): (real, real)
  {
    (c * length as real, s * -(length as real))
  }

  /** When `(c, s)` is a point of the unit circle the vector has magnitude `length`. */
  lemma MovementVectorLength(length: int, c: real, s: real)
    requires c * c + s * s == 1.0
    ensures var v := MovementVector(length, c, s);
            v.0 * v.0 + v.1 * v.1 == (length * length) as real
  {
    var l := length as real;
    calc {
      (c * l) * (c * l) + (s * -l) * (s * -l);
      (c * c + s * s) * (l * l);
    }
  }

  /** A snapshot of one player's own state; its network's weights are kept apart. */
  datatype Body = Body(role: Role, id: nat, speed: int, strength: int,
                       angle: int, x: real, y: real, hasBall: bool,
                       input: seq<real>)

  /** The weights of `Network([10, 2])`: one matrix of two rows of ten entries. */
  predicate PlayerShaped(ws: seq<Matrix>)
  {
    |ws| == 1 && |ws[0]| == 2 && |ws[0][0]| == InputLength && |ws[0][1]| == InputLength
  }

  /** `PlayerShaped` is exactly the general shape condition for the sizes `[10, 2]`. */
  lemma PlayerShapedIsHasShapes(ws: seq<Matrix>)
    ensures PlayerShaped(ws) <==> HasShapes(ws, NetworkSizes)
  {
    if HasShapes(ws, NetworkSizes) {
      assert Shaped(ws[0], NetworkSizes[1], NetworkSizes[0]);
      assert |ws[0][0]| == NetworkSizes[0] && |ws[0][1]| == NetworkSizes[0];
    }
    if PlayerShaped(ws) {
      assert Shaped(ws[0], NetworkSizes[1], NetworkSizes[0]);
    }
  }

  /** What every player keeps: ten inputs and a heading in [0, 360). */
  predicate WellFormed(b: Body)
  {
    |b.input| == InputLength && 0 <= b.angle < 360
  }

  /** `move, turn = self.network.feedforward(self.net_input)`, with `ws` the network's weights. */
  function Decide(b: Body, ws: seq<Matrix>, env: Env): (real, real)
    requires WellFormed(b) && PlayerShaped(ws)
  {
    PlayerShapedIsHasShapes(ws);
    var out := Forward(ws, NetworkSizes, b.input, env.sigmoid);
    (out[0], out[1])
  }

  /** The heading after one update, given the network's turn signal. */
  function TurnedAngle(angle: int, speed: int, turn: real): (r: int)
    ensures turn < 0.25 ==> 0 <= r < 360 && (r - (angle + 2 * speed)) % 360 == 0
    ensures turn > 0.75 ==> 0 <= r < 360 && (r - (angle - 2 * speed)) % 360 == 0
    ensures 0.25 <= turn <= 0.75 ==> r == angle
    ensures 0 <= angle < 360 ==> 0 <= r < 360
  {
    if turn < 0.25 then (angle + 2 * speed) % 360
    else if turn > 0.75 then (angle - 2 * speed) % 360
    else angle
  }

  /** The axis rule: a proposed coordinate is committed only strictly inside `(lo, hi)`. */
  function Clip(current: real, proposed: real, lo: real, hi: real): real
  {
    if lo < proposed < hi then proposed else current
  }

  /**
   * `Player.update` for given network outputs: turn, then, when `move > 0.5`,
   * step `speed` along the new heading plus the external force, each axis
   * clipped on its own.
   */
  function Kinematics(b: Body, move: real, turn: real, force: (real, real),
                      bounds: (real, real), maxHeight: real, env: Env): (r: Body)
    ensures r.(angle := b.angle, x := b.x, y := b.y) == b
    ensures r.angle == TurnedAngle(b.angle, b.speed, turn)
    ensures WellFormed(b) ==> WellFormed(r)
  {
    var angle := TurnedAngle(b.angle, b.speed, turn);
    if move > 0.5 then
      var v := MovementVector(b.speed, env.cosDeg(angle), env.sinDeg(angle));
      var x := v.0 + (b.x + force.0);
      var y := v.1 + (b.y + force.1);
      b.(angle := angle, x := Clip(b.x, x, bounds.0, bounds.1), y := Clip(b.y, y, 0.0, maxHeight))
    else
      b.(angle := angle)
  }

  /** One whole `Player.update`: ask the network with weights `ws`, then move. */
  function Step(b: Body, ws: seq<Matrix>, force: (real, real), bounds: (real, real), maxHeight: real, env: Env): (r: Body)
    requires WellFormed(b) && PlayerShaped(ws)
    ensures WellFormed(r)
  {
    var (move, turn) := Decide(b, ws, env);
    Kinematics(b, move, turn, force, bounds, maxHeight, env)
  }

  /** With `move <= 0.5` the centre stays put, whatever the external force. */
  lemma NoMoveKeepsCentre(b: Body, move: real, turn: real, force: (real, real),
                          bounds: (real, real), maxHeight: real, env: Env)
    requires move <= 0.5
    ensures var r := Kinematics(b, move, turn, force, bounds, maxHeight, env);
            r.x == b.x && r.y == b.y
  {
  }

  /**
   * With `move > 0.5` the proposed centre is the old centre plus
   * `speed * (cos, -sin)` of the new heading plus the force; x is committed
   * exactly when strictly between the bounds, y exactly when strictly
   * between 0 and the field height.
   */
  lemma CommitRule(b: Body, move: real, turn: real, force: (real, real),
                   bounds: (real, real), maxHeight: real, env: Env)
    requires move > 0.5
    ensures var r := Kinematics(b, move, turn, force, bounds, maxHeight, env);
            var px := b.x + env.cosDeg(r.angle) * b.speed as real + force.0;
            var py := b.y - env.sinDeg(r.angle) * b.speed as real + force.1;
            (bounds.0 < px < bounds.1 ==> r.x == px) && (!(bounds.0 < px < bounds.1) ==> r.x == b.x) &&
            (0.0 < py < maxHeight ==> r.y == py) && (!(0.0 < py < maxHeight) ==> r.y == b.y)
  {
  }

  /** The axes are decided independently: x ignores the vertical force and field height, y the horizontal force and bounds. */
  lemma AxesIndependent(b: Body, move: real, turn: real, f1: (real, real), f2: (real, real),
                        bounds1: (real, real), bounds2: (real, real), h1: real, h2: real, env: Env)
    ensures f1.0 == f2.0 && bounds1 == bounds2 ==>
              Kinematics(b, move, turn, f1, bounds1, h1, env).x == Kinematics(b, move, turn, f2, bounds2, h2, env).x
    ensures f1.1 == f2.1 && h1 == h2 ==>
              Kinematics(b, move, turn, f1, bounds1, h1, env).y == Kinematics(b, move, turn, f2, bounds2, h2, env).y
  {
  }

  /** The open field rectangle `(bounds[0], bounds[1]) x (0, height)`. */
  predicate Inside(b: Body, bounds: (real, real), maxHeight: real)
  {
    bounds.0 < b.x < bounds.1 && 0.0 < b.y < maxHeight
  }

  /** A centre strictly inside the field stays strictly inside. */
  lemma StaysInside(b: Body, move: real, turn: real, force: (real, real),
                    bounds: (real, real), maxHeight: real, env: Env)
    requires Inside(b, bounds, maxHeight)
    ensures Inside(Kinematics(b, move, turn, force, bounds, maxHeight, env), bounds, maxHeight)
  {
  }

  /** Applying a list of (move, turn, force) inputs one update at a time. */
  function Replay(b: Body, steps: seq<(real, real, (real, real))>,
                  bounds: (real, real), maxHeight: real, env: Env): Body
    decreases |steps|
  {
    if steps == [] then b
    else
      var last := steps[|steps| - 1];
      Kinematics(Replay(b, steps[..|steps| - 1], bounds, maxHeight, env),
                 last.0, last.1, last.2, bounds, maxHeight, env)
  }

  /**
   * Over any sequence of updates a player placed strictly inside the field
   * with a heading in [0, 360) keeps both, and keeps its role, stats,
   * possession and inputs.
   */
  lemma {:induction false} ReplayInvariant(b: Body, steps: seq<(real, real, (real, real))>,
                                           bounds: (real, real), maxHeight: real, env: Env)
    requires Inside(b, bounds, maxHeight) && 0 <= b.angle < 360
    ensures var r := Replay(b, steps, bounds, maxHeight, env);
            Inside(r, bounds, maxHeight) && 0 <= r.angle < 360 &&
            r.(angle := b.angle, x := b.x, y := b.y) == b
    decreases |steps|
  {
    if steps != [] {
      var prefix := steps[..|steps| - 1];
      ReplayInvariant(b, prefix, bounds, maxHeight, env);
      var last := steps[|steps| - 1];
      StaysInside(Replay(b, prefix, bounds, maxHeight, env), last.0, last.1, last.2, bounds, maxHeight, env);
    }
  }

  class Player {
    const role: Role
    const id: nat
    const speed: int
    const strength: int
    const network: Network
    var angle: int
    var x: real
    var y: real
    var hasBall: bool
    var input: seq<real>

    ghost function Snapshot(): Body
      reads this
    {
      Body(role, id, speed, strength, angle, x, y, hasBall, input)
    }

    ghost predicate Valid()
      reads this, network
    {
      network.sizes == NetworkSizes && PlayerShaped(network.weights) && WellFormed(Snapshot())
    }

    /**
     * `Player(role, color, stats, player_id)`; `draw` stands for the network's
     * random initial weights. The sprite's rect centre is not modelled: it
     * starts at the origin and is always placed before it is read.
     */
    constructor (role: Role, stats: Stats, id: nat, draw: (nat, nat, nat) -> real)
      ensures fresh(network) && Valid() && network.weights == InitWeights(NetworkSizes, draw)
      ensures Snapshot() == Body(role, id, stats.speed, stats.strength, StartAngle, 0.0, 0.0, false,
                                 seq(InputLength, _ => 0.0))
    {
      this.role := role;
      this.id := id;
      speed := stats.speed;
      strength := stats.strength;
      angle := 90;
      hasBall := false;
      network := new Network([10, 2], draw);
      input := seq(10, _ => 0.0);
      x, y := 0.0, 0.0;
      new;
      PlayerShapedIsHasShapes(network.weights);
    }

    /** `update(bounds, max_height, external_force)` */
    method Update(bounds: (real, real), maxHeight: real, force: (real, real), env: Env)
      requires Valid()
      modifies this`angle, this`x, this`y
      ensures Valid()
      ensures Snapshot() == Step(old(Snapshot()), network.weights, force, bounds, maxHeight, env)
    {
      ghost var b := Snapshot();
      PlayerShapedIsHasShapes(network.weights);
      var out := network.Feedforward(input, env.sigmoid);
      var move, turn := out[0], out[1];
      assert (move, turn) == Decide(b, network.weights, env);
      if turn < 0.25 {
        angle := (angle + 2 * speed) % 360;
      } else if turn > 0.75 {
        angle := (angle - 2 * speed) % 360;
      }
      assert angle == TurnedAngle(b.angle, speed, turn);
      if move > 0.5 {
        var v := MovementVector(speed, env.cosDeg(angle), env.sinDeg(angle));
        var nx := v.0 + (x + force.0);
        var ny := v.1 + (y + force.1);
        if bounds.0 < nx < bounds.1 {
          x := nx;
        }
        if 0.0 < ny < maxHeight {
          y := ny;
        }
      }
    }
  }
}
