# Football.AI, modelled in Dafny

Football.AI is a small evolutionary football simulation. Each generation pairs
an offense of three players (one running back, two wide receivers) with a
defense of three (two cornerbacks, one safety) in 700 games. Every player is
steered by a one-layer neural network with a sigmoid output. A game runs for
601 frames. In each frame it either lines both teams up for a new play or
lets every player sense, collide and move. A touchdown is worth 7 points. At
the end of a generation the games are sorted by points. The offenses of the
better half and the defenses of the worse half survive. Each survivor is
copied, and the copy gets mutated weights. The doubled teams are shuffled
and paired into the next generation's games.

The model has one Dafny module per source file, plus `Numerics`:

- `Field` (`field.dfy`): the conversion from yards to screen pixels.
- `NeuralNet` (`neural_net.dfy`): the matrix shapes, the forward pass and
  the mutation. `Network` is a class whose `weights` are reassigned.
- `Players` (`player.dfy`): the turn, move and clip rule. `Player` is a
  class with its heading, centre, possession and sensory vector as fields.
- `Teams` (`team.dfy`): building a roster from the role tables, placing it
  before a play, and mutating it. `Team` is a class over its players.
- `Gridirons` (`gridiron.dfy`): sensing, the pushing force, tackles and
  touchdowns, and the two-state `update`. `Gridiron` is a class with
  `inPlay` and `points` fields.
- `Evolution` (`evolution.dfy`): the generation loop of `main`, with
  `copy`, the purge, the play frames and the selection. `main`'s globals
  are a `World` value threaded through the methods `Start`, `Purge`,
  `Play`, `Select` and `Frame`.
- `Numerics` (`numerics.dfy`): the transcendental functions, passed in as
  an `Env` value.

Each method that changes state is specified by a pure function of the old
state. Examples: `Player.Update` by `Step`, `Gridiron.UpdateTeam` by `Pass`,
`Gridiron.Update` by `Tick`, the shuffle by `Shuffled` and the sort by
`Ranking`. The properties the program relies on are proved as lemmas about
those functions.

Inputs the program takes from outside become parameters:

- Random draws: the network's initial samples, the mutation coins and
  deltas, the placement offsets, and the swap picks of the shuffle.
- pygame's collision results: which players overlap, and whose face
  segment clips a rectangle.
- The transcendental functions: sigmoid, cosine and sine in degrees,
  atan2 in degrees, and the normalised distance.

Where a reader might expect something else, the model follows the code:

- An opponent pushes when its strength is `>=` the player's, so two
  players of equal strength push each other (gridiron.py:82).
- The push has the opponent's strength as its length, not its speed
  (gridiron.py:83).
- A tackle does not prevent a touchdown in the same check. Both rules can
  fire, and the 7 points are still added (gridiron.py:97-101).
- A role table whose role lacked a stats entry would raise a `KeyError`.
  Neither table has one, and the model requires every role to be covered.
- The 350 first teams per side are doubled by the first purge, so the
  first generation already has 700 games (main.py:32-34, 61-64).

## Model

| member | source | states |
|---|---|---|
| Field.OffsetIsShift | field.py:75-84 | converting `yard` with offset `k` equals converting `yard + k` with no offset |
| Field.Linear | field.py:84 | the pixel difference of two yards is their yard difference times `height / 120` |
| Field.StrictlyIncreasing | field.py:84 | on a screen of positive height, a larger yard gives a strictly larger pixel row |
| Field.Ends | field.py:84 | `yard + offset = 0` maps to pixel 0 and `yard + offset = 120` maps to `height` |
| Field.FieldLinesOrdered | field.py:84 | the score line (yard 10, no offset), then yards 20, 70 and 80, then the safety line (yard 110, no offset), lie strictly in that order inside `(0, height)` |
| NeuralNet.InitWeights | neural_net.py:9-12 | there is one matrix per consecutive pair of sizes, and `weights[l]` has `sizes[l+1]` rows and `sizes[l]` columns |
| NeuralNet.InitWeightsEntries | neural_net.py:11-12 | every entry of a new network is its own sample |
| NeuralNet.PlayerNetworkShape | neural_net.py:9-12 | `Network([10, 2])` has exactly one matrix, of 2 rows by 10 columns |
| NeuralNet.Layer | neural_net.py:20-21 | a layer has one output per row of its matrix, and with a sigmoid into (0, 1) every output lies in (0, 1) |
| NeuralNet.Forward | neural_net.py:14-22 | the output of the forward pass has as many entries as the last layer size |
| NeuralNet.ForwardInUnitInterval | neural_net.py:20-22 | with a sigmoid into (0, 1) and at least one matrix, every output lies in (0, 1) |
| NeuralNet.MutateLayer | neural_net.py:28-31 | mutation keeps the number of rows and each row's length |
| NeuralNet.MutateKeepsShapes | neural_net.py:24-31 | mutation keeps every shape and leaves every matrix after the first unchanged |
| NeuralNet.MutateEntry | neural_net.py:30-31 | an entry whose coin is not 0 is unchanged; one whose coin is 0 moves by its delta, and so by at most 3 when the delta is in [-3, 3] |
| NeuralNet.Network.constructor | neural_net.py:9-12 | the new network has the given sizes and the drawn weights, of the right shapes |
| NeuralNet.Network.Feedforward | neural_net.py:14-22 | the loop of one layer per matrix computes `Forward` |
| NeuralNet.Network.Mutate | neural_net.py:24-31 | the nested loops leave the weights `MutateWeights` of the old ones and keep the shapes |
| Players.MovementVectorLength | player.py:31-42 | for a point `(cos, sin)` of the unit circle, the movement vector has magnitude `length` |
| Players.PlayerShapedIsHasShapes | neural_net.py:11-12 | a player's network shape is exactly the general shape condition for sizes `[10, 2]` |
| Players.TurnedAngle | player.py:83-86 | `turn < 0.25` turns by `+2*speed` and `turn > 0.75` by `-2*speed`, modulo 360 into [0, 360); otherwise the heading is kept; a heading in [0, 360) stays there |
| Players.Kinematics | player.py:81-96 | an update changes only the heading and the centre, leaves the heading `TurnedAngle` gives, and keeps a well-formed player well formed |
| Players.Step | player.py:72-96 | a whole update, network included, keeps a player well formed |
| Players.NoMoveKeepsCentre | player.py:88 | with `move <= 0.5` the centre stays put, whatever the force |
| Players.CommitRule | player.py:88-96 | with `move > 0.5` the proposal is centre plus `speed * (cos, -sin)` of the new heading plus the force; x is committed exactly when strictly inside the bounds, and y exactly when strictly between 0 and `max_height` |
| Players.AxesIndependent | player.py:93-96 | the new x depends neither on the vertical force nor on the height; the new y depends neither on the horizontal force nor on the bounds |
| Players.StaysInside | player.py:93-96 | a centre strictly inside the field stays strictly inside after any update |
| Players.ReplayInvariant | player.py:83-96 | over any sequence of updates, a player inside the field with a heading in [0, 360) keeps both, and keeps its role, stats, possession and inputs |
| Players.Player.constructor | player.py:50-70 | a new player has its role, id and stats, heading 90, no ball, ten zero inputs and a new `[10, 2]` network |
| Players.Player.Update | player.py:72-96 | the update leaves the player in the state `Step` computes from its old state |
| Teams.SideRosters | team.py:6-9 | the offense table yields RB, WR, WR and the defense table CB, CB, S; every role in them has its stats entry |
| Teams.RosterRolesFromTable | team.py:19-22 | every role of a roster comes from the table |
| Teams.InitWeightsDrawn | team.py:22 | player `id`'s new network is one 2-by-10 matrix of that player's samples |
| Teams.NewRosterIsLineup | team.py:16-23 | a new team has ids 0, 1, 2 in table order, each player with its role's speed and strength, heading 90 and no ball |
| Teams.Placed | team.py:40-46 | placement keeps the number of players |
| Teams.PlacedFacts | team.py:40-46 | after placement, player `i` is on `y_bound` facing `starting_angle` at `x = offset(i) + 1.25 * bounds[0]`; it holds the ball exactly when it held it before or is the RB; nothing else changes |
| Teams.PlacedInside | team.py:41-42 | with offsets in `[0, (bounds[1] - bounds[0]) / 2]` and a line strictly inside the field, every placed player stands strictly inside the field |
| Teams.PlacedLineup | team.py:40-46 | placement with a heading in [0, 360) keeps a team's roles, ids and stats |
| Teams.MutateWeightsMutatedFrom | team.py:29-30 | a player's mutation moves entry `(r, c)` by that player's delta exactly when that player's coin is 0 |
| Teams.PlacePlayer | team.py:41-46 | one turn of the `set_team` loop places that one player |
| Teams.MutateNetwork | team.py:30 | `network.mutate()` with player `id`'s draws |
| Teams.BuildPlayers | team.py:16-23 | the constructor's loops create one new player per roster entry, with id equal to its position, its role's stats and its own drawn network, no two sharing an object |
| Teams.AddPlayers | team.py:20-23 | the inner loop adds `count` new players of one role, with ids continuing from the players before |
| Teams.CreatedIsRosterLength | team.py:19-23 | the first `t` table entries create as many players as their roster has |
| Teams.RosterBlock | team.py:19-23 | the players table entry `t` creates all have its role |
| Teams.Team.constructor | team.py:16-23 | a new team is the table's fresh roster with drawn networks |
| Teams.Team.Mutate | team.py:25-30 | every player's network is mutated once, with its own draws; the players are untouched |
| Teams.Team.SetTeam | team.py:32-46 | the loop places every player as `Placed` says and keeps every network |
| Teams.Team.SetOffense | team.py:56-63 | the offense is placed on yard 80 facing 90 |
| Teams.Team.SetDefense | team.py:73-80 | the defense is placed on yard 20 facing 270 |
| Gridirons.SenseOneSlots | gridiron.py:124-130 | one opponent writes its bearing into slot `2*id+1` and, outside a half update, its distance into slot `2*id`; no other slot changes |
| Gridirons.SenseOpponentsSlots | gridiron.py:124-130 | the opponent loop writes each opponent's two slots as above and keeps every slot no opponent owns |
| Gridirons.SenseCornersSlots | gridiron.py:132-135 | the corner loop writes distance and bearing to the left corner into slots 6, 7 and to the right corner into slots 8, 9, and leaves slots 0 to 5 alone |
| Gridirons.FullSenseLayout | gridiron.py:103-135 | against three opponents with ids 0, 1, 2, a full `net_input` fills all ten slots: opponent `k` in slots `2k`, `2k+1`, then the two corners |
| Gridirons.FullSenseForgets | gridiron.py:103-135 | a full `net_input` against a complete lineup overwrites the whole old vector |
| Gridirons.HalfSenseKeepsDistances | gridiron.py:126-130 | in a half update no distance slot is written, and the opponents are untouched |
| Gridirons.SharedDistanceAgrees | gridiron.py:126-129 | outside a half update the player and the opponent receive the same distance |
| Gridirons.Shared | gridiron.py:129 | each opponent gets the distance in its slot for the player |
| Gridirons.CollidedMeansSomeHit | gridiron.py:79-80 | a player is a key of the collision map exactly when it overlaps some opponent |
| Gridirons.NoContactNoForce | gridiron.py:79-88 | a player absent from the collision map moves with force (0, 0) |
| Gridirons.NoPusherNoForce | gridiron.py:79-83 | when no opponent both clips the player and is at least as strong, the force is (0, 0) |
| Gridirons.ForceSumStep | gridiron.py:80-85 | each pushing opponent adds `2 * movement_vector(strength, angle)` to the force |
| Gridirons.EqualStrengthPushes | gridiron.py:82 | an opponent of equal strength does push |
| Gridirons.PushMagnitude | gridiron.py:83-85 | a push has magnitude twice the opponent's strength |
| Gridirons.GameCheckCases | gridiron.py:90-101 | 7 points are added exactly when the carrier's `centery <= score_endzone`, whether or not it is tackled; the play goes on exactly when it was on, with no tackle and no score |
| Gridirons.PassStep | gridiron.py:72-88 | turn `i` of a pass works on the state the earlier turns left |
| Gridirons.TurnFrame | gridiron.py:72-88 | one turn moves only its own player, in inputs, heading and centre; the opponents change only in their inputs |
| Gridirons.PassFrame | gridiron.py:72-88 | over a pass no player changes role, id, stats or possession; players not yet reached are untouched; opponents change only their inputs |
| Gridirons.AdvanceTransitive | gridiron.py:97-101 | "points never fall, grow by multiples of 7, and a play that is over stays over" composes |
| Gridirons.GameCheckAdvances | gridiron.py:90-101 | one `check_game_state` only advances the score |
| Gridirons.PassScore | gridiron.py:56-101 | a whole pass only advances the score |
| Gridirons.PassInside | gridiron.py:72-88 | a pass keeps every player of both teams strictly inside the field |
| Gridirons.PassLineup | gridiron.py:72-88 | a pass keeps both teams' roles, ids and stats |
| Gridirons.Tick | gridiron.py:31-48 | one update keeps both teams sensible and the networks' shapes |
| Gridirons.LineUpTick | gridiron.py:44-48 | out of play, an update places the offense on yard 80 facing 90 and the defense on yard 20 facing 270, moves nobody by network, keeps the points and starts the play |
| Gridirons.PlayTick | gridiron.py:40-43 | in play, the offense's full pass runs first, then the defense's half pass starts from its result |
| Gridirons.TickTraces | gridiron.py:40-43 | the in-play update is the trace of the offense's full pass followed by the trace of the defense's half pass |
| Gridirons.TickScore | gridiron.py:31-48 | in play an update only advances the score; out of play it keeps the points and starts the play |
| Gridirons.TickLineup | gridiron.py:31-48 | an update keeps both teams' roles, ids and stats |
| Gridirons.TickInside | gridiron.py:31-48 | on a playable field, lining up puts everybody strictly inside, and updates in play keep them there |
| Gridirons.AdvanceKeepsSevens | gridiron.py:29-101 | points that start as a non-negative multiple of 7 and only advance stay one |
| Gridirons.Gridiron.constructor | gridiron.py:10-29 | a new game has its teams, bounds and height, the score line at yard 10 with no offset, the scrimmage at yard 70, out of play, with 0 points |
| Gridirons.Gridiron.NetInput | gridiron.py:103-135 | the sensing player's state becomes `Sensed` and the opponents' become `Shared` |
| Gridirons.Gridiron.SenseCornersLoop | gridiron.py:132-135 | the corner loop computes `SenseCorners` |
| Gridirons.Gridiron.CheckGameState | gridiron.py:90-101 | the score becomes `GameCheck` of the old score, the tackle flag and the carrier's `centery` |
| Gridirons.Gridiron.ComputeForce | gridiron.py:80-85 | the loop over the opponents computes `ForceSum` |
| Gridirons.Gridiron.MovePlayer | gridiron.py:79-88 | a tackled player moves with the summed force, and any other with (0, 0) (the `KeyError` path) |
| Gridirons.Gridiron.TurnOne | gridiron.py:72-88 | one turn of the loop senses, checks the game for the carrier only, and moves the player |
| Gridirons.Gridiron.UpdateTeam | gridiron.py:56-88 | the pass leaves both teams in the last state of its trace, valid, with their networks unchanged |
| Gridirons.Gridiron.Update | gridiron.py:31-48 | one update takes the game state to `Tick` of the old state and keeps it valid: points stay a non-negative multiple of 7, and the networks do not change |
| Gridirons.Gridiron.LineUp | gridiron.py:44-48 | out of play, both teams are placed, the score is kept and the play starts |
| Gridirons.Sensed | gridiron.py:103-135 | `net_input` changes only the sensing player's input vector, which keeps ten slots |
| Gridirons.ShareOne | gridiron.py:126-129 | an opponent changes only its input vector, and only outside a half update |
| Gridirons.Turn | gridiron.py:72-88 | one turn keeps both teams' sizes and their ability to sense each other |
| Gridirons.Pass | gridiron.py:72-88 | the first `n` turns of a pass keep both teams' sizes and their ability to sense each other |
| Gridirons.PassTrace | gridiron.py:72-88 | a pass goes through a trace of states, each one `Turn` after the one before, and ends at `Pass` with both teams still lineups |
| Gridirons.SenseOpponent | gridiron.py:125-130 | one turn of the opponent loop writes the player's vector as `SenseOne` and the opponent's as `ShareOne` |
| Gridirons.SenseStep | gridiron.py:124-130 | one turn of the opponent loop extends the sensing done so far by one opponent |
| Gridirons.Gridiron.SenseOpponentsLoop | gridiron.py:124-130 | the opponent loop computes `SenseOpponents` for the player and `ShareOne` for every opponent |
| Gridirons.Gridiron.PlayTurn | gridiron.py:72-88 | turn `i` moves player `i` by `Step` with the sensed inputs and the force, leaves the other players alone, and scores as `TurnScore` |
| Gridirons.Gridiron.PassTurn | gridiron.py:72-88 | turn `i` takes the players from entry `i` of the trace to entry `i + 1` |
| Gridirons.Gridiron.PassLoop | gridiron.py:72-88 | the loop over the moving players takes them through the whole trace |
| Gridirons.Gridiron.PlayUpdate | gridiron.py:40-43 | in play, the offense's full pass and then the defense's half pass leave the game where the second trace ends |
| Gridirons.Gridiron.LineUpOffense | gridiron.py:46 | `set_offense` places the offense and leaves the defense and the score alone |
| Gridirons.Gridiron.LineUpDefense | gridiron.py:47 | `set_defense` places the defense and leaves the offense and the score alone |
| Evolution.SwapPermutes | main.py:66-67 | a swap exchanges two entries, keeps the rest, and is a permutation |
| Evolution.SwapUnique | main.py:66-67 | a swap keeps distinct elements distinct |
| Evolution.ShuffledPermutes | main.py:66-67 | the shuffle is a permutation and keeps distinct elements distinct |
| Evolution.ShuffledUnique | main.py:66-67 | a shuffle of distinct teams has distinct teams |
| Evolution.SameElements | main.py:66-67 | a permutation has the same elements |
| Evolution.Insert | main.py:88 | an insertion adds exactly the one game index |
| Evolution.Ranking | main.py:88 | the ranking of the first `n` games holds `n` indices below `n` |
| Evolution.InsertRanks | main.py:88 | inserting a later game into a stable descending order keeps it one |
| Evolution.RankingPermutes | main.py:88 | the ranking holds each game exactly once |
| Evolution.RankingOrdered | main.py:88 | the ranking puts more points first, and equal points in their original order |
| Evolution.RankingSorts | main.py:88 | the ranking is a stable descending sort by points of all the games |
| Evolution.SortOrder | main.py:88 | `sort(key=points, reverse=True)` gives a stable sort |
| Evolution.FirstGeneration | main.py:32-34 | 350 new offenses and 350 new defenses, each built from its own draws, no two sharing an object |
| Evolution.CopyWeights | main.py:113-116 | the new team's networks receive the old team's weights, zipped player by player |
| Evolution.CopyTeam | main.py:110-118 | the copy is a new team of the parent's side whose networks are the parent's mutated with the copy's draws |
| Evolution.Copy | main.py:102-120 | both new teams are fresh copies of the old ones, mutated with their own draws |
| Evolution.Doubled | main.py:61-64 | the loop bound is taken once; the originals lead, unchanged, and entry `n + i` is the copy of pair `i` |
| Evolution.Breed | main.py:61-64 | the doubling gives `2n` separate teams per side, the copies bred from the originals |
| Evolution.Recruit | main.py:33-34 | `team.Offense()` or `team.Defense()` gives a new team of the side, built from its draws and sharing no object with the teams there already are |
| Evolution.DoubleTurn | main.py:62-64 | one turn of the doubling loop appends the copies of pair `i` and keeps every team as it was |
| Evolution.DoubledStep | main.py:62-64 | appending the copies of pair `i` extends the doubling by one turn |
| Evolution.DoubledBred | main.py:61-64 | when the doubling is complete, copy `k` of each side is bred from pair `k` |
| Evolution.Stage | main.py:70 | `Gridiron(o, d, field_bounds, screen)` for pair `k` gives a new valid game, out of play with 0 points |
| Evolution.PairGames | main.py:69-70 | one new game per pair, game `i` pairing offense `i` with defense `i`, out of play with 0 points |
| Evolution.ShuffledApart | main.py:66-67 | after the shuffles, each side holds the same teams, still separate and apart from the other side |
| Evolution.Reshuffle | main.py:61-67 | the doubled sides are shuffled into 700 distinct teams each |
| Evolution.Repopulate | main.py:58-70 | the purge gives 700 new unplayed games over the shuffled, doubled sides |
| Evolution.PlayGames | main.py:82-83 | every game goes through one `update`, with its own draws |
| Evolution.PlayOne | main.py:83 | one game updates and the others stay as they were |
| Evolution.Winners | main.py:89-92 | the offenses of the first `⌊G/2⌋` sorted games and the defenses of the rest |
| Evolution.WinnersApart | main.py:88-92 | the selected winners and losers come from the two sides and are separate teams |
| Evolution.Rank | main.py:88-92 | the games sorted by points, with the winners and losers they give |
| Evolution.Start | main.py:29-41 | the first generation, no games, `time = 0`, `gen = 0`, `purge` set |
| Evolution.Purge | main.py:56-78 | the purge doubles, shuffles and pairs into 700 new games, clears `purge`, adds 1 to `gen` and resets `time` to 0 |
| Evolution.Play | main.py:79-83 | `time` goes up by 1; every game updates once, from its old state by `Tick` with its own draws, and keeps its networks |
| Evolution.Select | main.py:85-94 | a stable sort of the games by points, best first; 350 winning offenses from the first half and 350 defenses from the second half; `purge` set |
| Evolution.Frame | main.py:44-94 | one frame of the loop: with `purge` set, the purge's doubling, shuffles and 700 fresh unplayed games, at `time = 0` with `gen + 1`; otherwise `time` goes up by 1, every game updates once by `Tick`, and exactly when `time > 600` the selection ranks the games by the points of their updated states |
| Evolution.PlayFrame | main.py:79-94 | the `else` branch: every game updates once by `Tick`; below `time > 600` the world is otherwise unchanged; at `time > 600` the selection ranks the games by the points after that update |
| Evolution.NextFrame | main.py:44-94 | a frame of a running generation keeps the generation's record: one more update of every game, its networks unchanged |
| Evolution.Generation | main.py:44-94 | from the first frame after a purge, the loop runs exactly 601 frames before `purge` is set again; frame `j` updates every game once by `Tick` with the draws of frame `j` and the game's unchanged networks; the selection then ranks the games by the points of their 601st update |

## Left out

- Drawing is left out because it only affects the screen: `draw_field`,
  `draw_line_from_yard`, `draw_line_from_pixel`, the `display` block of
  `update`, sprite rotation, the ball marker and `load_image`.
- The window, the event loop, the clock and the generation `print` of
  `main` are left out, as is the `display` flag of the first game.
- pygame's collision tests (`groupcollide`, `collide_rect_ratio(0.80)`,
  `clipline`) are not modelled. Their results are the `Contacts`
  parameter of each pass.
- `get_face_corners` is not modelled, because it is trigonometry over the
  sprite size. Only whether the face segment clips is kept, in `Contacts`.
- The floating-point functions are not modelled. `math.cos`, `sin`,
  `atan2` and `sqrt`, numpy's `exp` (inside `sigmoid`) and the `max_dist`
  normalisation are uninterpreted functions of `Numerics.Env`.
  `Env.dist` stands for the whole `sqrt(dx² + dy²) / max_dist`, so the
  `max_dist` computation itself is not modelled.
- The random number generator is not modelled. `random.uniform`,
  `random.randint` and `np.random.randn` are passed in as draws.
  `random.shuffle` is modelled by its algorithm, `Shuffled`: for `i` from
  the top down, it swaps entry `i` with entry `pick(i) mod (i + 1)`.
- `relu` is left out because nothing calls it.
- pygame's `Rect` stores integer coordinates, so a committed centre loses
  its fraction. The model keeps real centres.
- Players.Player.constructor: the sprite's rectangle centre starts at
  (0, 0) in the model. It is always placed before it is read, so its
  real initial value does not matter.
- Gridirons.Gridiron.constructor: takes the screen height directly, not
  the screen surface.
- Teams.Team.SetTeam: requires the heading to be in [0, 360), which the
  two callers' 90 and 270 meet. A `Player` keeps that range as an
  invariant.
- `random.shuffle` is modelled as the function `Shuffled` on sequences,
  not as swaps performed in place on the lists.
- Evolution.Purge: `active_games.clear()` is modelled by replacing the
  game list, not by clearing it in place.
- Evolution.Copy: the source builds both new teams before copying any
  weights. The model finishes the offense, then builds the defense. No
  step reads the other team, so the result is the same.
- Evolution.Frame: the screen size is fixed at 1200 by 700, which gives
  field bounds (300, 900).
- Evolution.Rank: `active_games.sort` sorts the list in place, and the
  selection clears and refills `active_offense` and `active_defense`. The
  model builds new sequences instead. No other list aliases them, so only
  the in-place update is not captured.
- NeuralNet.MutateWeights: requires at least one weight matrix. A network
  built from fewer than two layer sizes has none, and `mutate` would then
  raise an `IndexError` on `weights[0]`; every network of the program is
  `Network([10, 2])`, which has one. The same holds for
  NeuralNet.Network.Mutate.
