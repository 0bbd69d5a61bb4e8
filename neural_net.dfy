/**
 * The players' control network: a list of weight matrices sized by a list of
 * layer sizes, a layer-by-layer forward pass, and a mutation that perturbs the
 * entries of the first matrix only.
 */
module NeuralNet {

  /** A numpy weight matrix, as a list of rows. */
  type Matrix = seq<seq<real>>

  predicate Shaped(m: Matrix, rows: nat, cols: nat)
  {
    |m| == rows && forall r :: 0 <= r < |m| ==> |m[r]| == cols
  }

  /** `zip(sizes[:-1], sizes[1:])` has one pair per consecutive pair of layer sizes. */
  function LayerCount(sizes: seq<nat>): nat
  {
    if |sizes| == 0 then 0 else |sizes| - 1
  }

  /** `weights[l]` has `sizes[l + 1]` rows and `sizes[l]` columns. */
  predicate HasShapes(ws: seq<Matrix>, sizes: seq<nat>)
  {
    |ws| == LayerCount(sizes) &&
    forall l :: 0 <= l < |ws| ==> Shaped(ws[l], sizes[l + 1], sizes[l])
  }

  /** Matrix `l` of a new network: entry `(r, c)` is the sample `draw(l, r, c)`. */
  function DrawMatrix(l: nat, rows: nat, cols: nat, draw: (nat, nat, nat) -> real): (m: Matrix)
    ensures Shaped(m, rows, cols)
    ensures forall r, c :: 0 <= r < rows && 0 <= c < cols ==> m[r][c] == draw(l, r, c)
  {
    seq(rows, r requires 0 <= r < rows => seq(cols, c requires 0 <= c < cols => draw(l, r, c)))
  }

  /**
   * The weights `Network.__init__` builds, one matrix per consecutive pair of
   * sizes; `draw(l, r, c)` stands for the standard-normal sample numpy draws
   * for entry `(r, c)` of matrix `l`.
   */
  function InitWeights(sizes: seq<nat>, draw: (nat, nat, nat) -> real): (ws: seq<Matrix>)
    ensures HasShapes(ws, sizes)
    decreases |sizes|
  {
    if |sizes| < 2 then []
    else
      var n := |sizes| - 1;
      var prefix := InitWeights(sizes[..n], draw);
      assert forall l :: 0 <= l < |prefix| ==> Shaped(prefix[l], sizes[..n][l + 1], sizes[..n][l]);
      prefix + [DrawMatrix(n - 1, sizes[n], sizes[n - 1], draw)]
  }

  /** Entry `(r, c)` of matrix `l` of a new network is the sample `draw(l, r, c)`. */
  lemma {:induction false} InitWeightsEntries(sizes: seq<nat>, draw: (nat, nat, nat) -> real, l: nat, r: nat, c: nat)
    requires l < LayerCount(sizes) && r < sizes[l + 1] && c < sizes[l]
    ensures l < |InitWeights(sizes, draw)| && InitWeights(sizes, draw)[l][r][c] == draw(l, r, c)
    decreases |sizes|
  {
    var n := |sizes| - 1;
    if l < n - 1 {
      InitWeightsEntries(sizes[..n], draw, l, r, c);
    }
  }

  /** The network every player owns, `Network([10, 2])`, is one 2-by-10 matrix. */
  lemma PlayerNetworkShape(draw: (nat, nat, nat) -> real)
    ensures |InitWeights([10, 2], draw)| == 1
    ensures Shaped(InitWeights([10, 2], draw)[0], 2, 10)
  {
    var ws := InitWeights([10, 2], draw);
    assert HasShapes(ws, [10, 2]);
  }

  /** `np.dot` of a row and a vector of the same length. */
  function Dot(row: seq<real>, a: seq<real>): real
    requires |row| == |a|
    decreases |row|
  {
    if row == [] then 0.0
    else Dot(row[..|row| - 1], a[..|a| - 1]) + row[|row| - 1] * a[|a| - 1]
  }

  /**
   * One layer of the forward pass: `sigmoid(np.dot(w, a))`, one output per
   * row of `w`; a sigmoid into (0, 1) puts every output into (0, 1).
   */
  function Layer(w: Matrix, a: seq<real>, sigmoid: real -> real): (out: seq<real>)
    requires forall r :: 0 <= r < |w| ==> |w[r]| == |a|
    ensures |out| == |w|
    ensures forall r :: 0 <= r < |w| ==> out[r] == sigmoid(Dot(w[r], a))
    ensures (forall z :: 0.0 < sigmoid(z) < 1.0) ==> forall r :: 0 <= r < |out| ==> 0.0 < out[r] < 1.0
  {
    seq(|w|, r requires 0 <= r < |w| => sigmoid(Dot(w[r], a)))
  }

  /** The forward pass through the matrices `ws`, in order. */
  function Forward(ws: seq<Matrix>, sizes: seq<nat>, a: seq<real>, sigmoid: real -> real): (out: seq<real>)
    requires HasShapes(ws, sizes) && |sizes| > 0 && |a| == sizes[0]
    ensures |out| == sizes[|ws|]
    decreases |ws|
  {
    if ws == [] then a
    else
      var n := |ws| - 1;
      assert HasShapes(ws[..n], sizes[..n + 1]);
      assert Shaped(ws[n], sizes[n + 1], sizes[n]);
      assert |Forward(ws[..n], sizes[..n + 1], a, sigmoid)| == sizes[n];
      Layer(ws[n], Forward(ws[..n], sizes[..n + 1], a, sigmoid), sigmoid)
  }

  /** With a sigmoid into (0, 1) and at least one matrix, every output lies in (0, 1). */
  lemma {:induction false} ForwardInUnitInterval(ws: seq<Matrix>, sizes: seq<nat>, a: seq<real>, sigmoid: real -> real)
    requires HasShapes(ws, sizes) && |sizes| > 0 && |a| == sizes[0] && |ws| > 0
    requires forall z :: 0.0 < sigmoid(z) < 1.0
    ensures forall i :: 0 <= i < |Forward(ws, sizes, a, sigmoid)| ==>
              0.0 < Forward(ws, sizes, a, sigmoid)[i] < 1.0
  {
    var n := |ws| - 1;
    assert HasShapes(ws[..n], sizes[..n + 1]);
    assert Shaped(ws[n], sizes[n + 1], sizes[n]);
    var out := Layer(ws[n], Forward(ws[..n], sizes[..n + 1], a, sigmoid), sigmoid);
    assert Forward(ws, sizes, a, sigmoid) == out;
  }

  /** An entry of the first matrix after mutation: changed by `delta` exactly when its coin is 0. */
  function MutateLayer(w: Matrix, coin: (nat, nat) -> int, delta: (nat, nat) -> real): (m: Matrix)
    ensures |m| == |w| && forall r :: 0 <= r < |w| ==> |m[r]| == |w[r]|
  {
    seq(|w|, r requires 0 <= r < |w| =>
      seq(|w[r]|, c requires 0 <= c < |w[r]| =>
        if coin(r, c) == 0 then w[r][c] + delta(r, c) else w[r][c]))
  }

  /** `Network.mutate`: only `weights[0]` changes. */
  function MutateWeights(ws: seq<Matrix>, coin: (nat, nat) -> int, delta: (nat, nat) -> real): seq<Matrix>
    requires |ws| > 0
  {
    ws[0 := MutateLayer(ws[0], coin, delta)]
  }

  /** Mutation changes no matrix shape and never touches a matrix after the first. */
  lemma MutateKeepsShapes(ws: seq<Matrix>, sizes: seq<nat>, coin: (nat, nat) -> int, delta: (nat, nat) -> real)
    requires HasShapes(ws, sizes) && |ws| > 0
    ensures HasShapes(MutateWeights(ws, coin, delta), sizes)
    ensures forall l :: 1 <= l < |ws| ==> MutateWeights(ws, coin, delta)[l] == ws[l]
  {
  }

  /**
   * An entry whose coin is not 0 is unchanged; an entry whose coin is 0 moves
   * by its delta, which `random.uniform(-3, 3)` keeps within [-3, 3].
   */
  lemma MutateEntry(w: Matrix, coin: (nat, nat) -> int, delta: (nat, nat) -> real, r: nat, c: nat)
    requires r < |w| && c < |w[r]|
    ensures coin(r, c) != 0 ==> MutateLayer(w, coin, delta)[r][c] == w[r][c]
    ensures coin(r, c) == 0 ==> MutateLayer(w, coin, delta)[r][c] - w[r][c] == delta(r, c)
    ensures -3.0 <= delta(r, c) <= 3.0 ==> -3.0 <= MutateLayer(w, coin, delta)[r][c] - w[r][c] <= 3.0
  {
  }

  class Network {
    const sizes: seq<nat>
    var weights: seq<Matrix>

    ghost predicate Valid()
      reads this
    {
      HasShapes(weights, sizes)
    }

    /** `draw` stands for numpy's standard-normal samples. */
    constructor (layerSizes: seq<nat>, draw: (nat, nat, nat) -> real)
      ensures sizes == layerSizes && weights == InitWeights(layerSizes, draw)
      ensures Valid()
    {
      sizes := layerSizes;
      weights := InitWeights(layerSizes, draw);
    }

    /** `feedforward`: one layer per weight matrix, in order. */
    method Feedforward(input: seq<real>, sigmoid: real -> real) returns (a: seq<real>)
      requires Valid() && |sizes| > 0 && |input| == sizes[0]
      ensures a == Forward(weights, sizes, input, sigmoid)
    {
      a := input;
      var l := 0;
      while l < |weights|
        invariant 0 <= l <= |weights|
        invariant HasShapes(weights[..l], sizes[..l + 1])
        invariant a == Forward(weights[..l], sizes[..l + 1], input, sigmoid)
      {
        assert weights[..l + 1][..l] == weights[..l];
        assert sizes[..l + 2][..l + 1] == sizes[..l + 1];
        assert Shaped(weights[l], sizes[l + 1], sizes[l]);
        a := Layer(weights[l], a, sigmoid);
        l := l + 1;
      }
      assert weights[..l] == weights;
      assert sizes[..l + 1] == sizes;
    }

    /**
     * `mutate`: every entry of `weights[0]`, row by row, is moved by
     * `delta(r, c)` when its coin `coin(r, c)` (`random.randint(0, 1)`) is 0.
     */
    method Mutate(coin: (nat, nat) -> int, delta: (nat, nat) -> real)
      requires Valid() && |weights| > 0
      modifies this
      ensures Valid()
      ensures weights == MutateWeights(old(weights), coin, delta)
    {
      ghost var w0 := weights[0];
      ghost var target := MutateLayer(w0, coin, delta);
      var r := 0;
      while r < |weights[0]|
        invariant |weights| == |old(weights)| && weights[1..] == old(weights)[1..]
        invariant 0 <= r <= |weights[0]| == |w0|
        invariant forall i :: 0 <= i < |w0| ==> |weights[0][i]| == |w0[i]|
        invariant forall i :: 0 <= i < r ==> weights[0][i] == target[i]
        invariant forall i :: r <= i < |w0| ==> weights[0][i] == w0[i]
      {
        var c := 0;
        while c < |weights[0][r]|
          invariant |weights| == |old(weights)| && weights[1..] == old(weights)[1..]
          invariant |weights[0]| == |w0|
          invariant 0 <= c <= |weights[0][r]| == |w0[r]|
          invariant forall i :: 0 <= i < |w0| ==> |weights[0][i]| == |w0[i]|
          invariant forall i :: 0 <= i < r ==> weights[0][i] == target[i]
          invariant forall i :: r < i < |w0| ==> weights[0][i] == w0[i]
          invariant forall j :: 0 <= j < c ==> weights[0][r][j] == target[r][j]
          invariant forall j :: c <= j < |w0[r]| ==> weights[0][r][j] == w0[r][j]
        {
          if coin(r, c) == 0 {
            weights := weights[0 := weights[0][r := weights[0][r][c := weights[0][r][c] + delta(r, c)]]];
          }
          c := c + 1;
        }
        assert weights[0][r] == target[r];
        r := r + 1;
      }
      assert weights[0] == target;
      assert weights == old(weights)[0 := target];
    }
  }
}
