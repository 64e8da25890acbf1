# Thymio robot decision logic in Dafny

This project models the decision logic of a Python code base for Thymio robots. The robots play a hide-and-seek game in a taped arena: an AVOIDER flees, a SEEKER chases, and both stay off the black tape and head for a reflective safe zone. Three parts of the program are modelled.

- **Tabular Q-learning** comes in three variants, on the camera (`qlearning.py`), on the simulated or metal robot (`test/qlearning-sim-metal.py`) and on the robot's whereabouts (`archive/qlearning_whereami.py`).
  - `QStore` models `QValueStore`: a table from `"<state>.<action>"` keys to `real` values, with the default -1.0 and a first-maximum best action. The pickle file is an abstract `disk` snapshot, and a ghost log records every save.
  - `Learning` models the step the three variants share. It is a pure `Step`/`Run` on values, plus the imperative loop `Train`, which is proved against it.
  - `MetalLearning`, `CamLearning` and `WhereAmI` model each variant's state encoding, save cadence and loop. `MetalLearning.Learner` is the `update` closure as a class whose fields are its nonlocal variables.
- **Reactive arbitrators** turn nine-reading sensor vectors into motor commands.
  - `React` models `BehaviouralModule.py`, where later assignments overwrite earlier ones.
  - `Behaviour` models `robot/BehaviouralModule.py`, where the first rule that fires returns; it also models the collision and random-nudge timers.
  - `SimExplorer` models the strict `elif` chain of `Q-Learning-Sim.py`.
  - `Sensors` holds the numpy idioms the three share.
- **Surface classification and action-to-motor mapping**:
  - `Surface` models `detect_surface`, both the controllers' copy and the one in `_test.py`;
  - `Thymio` models the `ThymioController` of `robot/robot2.py`, `robot2.py` and `archive/robot.py`;
  - `ThymioLegacy` models the older controller of `robot.py` and `thymio.py`;
  - `SlowDrive`, `RobotMetal` and `Simulation` model `robot_metal.py` and `simulation/simulation.py`.

Some code changes state in place: the store, the controllers, the behavioural modules, the learner closure and the simulators. It is modelled as classes with `modifies` clauses, and each method is tied to a pure function of the old state. The pure decision rules are functions, and the lemmas state their properties.

The model treats these as parameters:

- the clock (`now`);
- the random draws (the uniform `draw`, the `random.choice` index `pick`, the numpy draws of `React.Draws`);
- the camera (the centroid or `process_image` result, `robot_in_view`);
- the rewards.

Python arithmetic is stated explicitly:

- `int(a * r / w)` truncates toward zero (`Text.TruncDiv`);
- `-m // 2` is floor division of `-m`, which equals Dafny's `/` for the divisor 2;
- `int(x)` of a float truncates (`Behaviour.Trunc`).

Copies of the same Python code are modelled once; the table below cites one copy and the module comments name the others. `QValueStore`'s `__init__`, `get_q_value`, `get_best_action`, `store_q_value`, `save` and `load`, and the learning step, are identical in the three Q-learning files; `print_best_action_per_state` (`QStore.QValueStore.BestActionPerState`) and the other printing helpers exist only in test/qlearning-sim-metal.py. `perform_action`, `explore` and `detect_surface` are identical in the three newer controllers, and `perform_action` is identical in `robot.py` and `thymio.py`.

## Model

| member | source | states |
|---|---|---|
| Text.NatToString | test/qlearning-sim-metal.py:33 | `str(n)` of a natural number is a non-empty string of decimal digits |
| Text.ParseNatToString | test/qlearning-sim-metal.py:33 | reading the digits of `str(n)` back gives `n`: the decimal form loses nothing |
| Text.IntToStringInjective | test/qlearning-sim-metal.py:33 | two integers with the same `str` are equal, negative numbers included |
| Text.Split | test/qlearning-sim-metal.py:20 | `s.split(sep)` always returns at least one part (`"".split(":") == [""]`) |
| Text.SplitJoin | test/qlearning-sim-metal.py:19-21 | splitting a `sep.join` of one or more separator-free items gives the items back |
| Text.JoinSplit | test/qlearning-sim-metal.py:37-39 | joining what `split` returns gives back any string, so `str(State(fromString=s)) == s` |
| Text.JoinAvoids | test/qlearning-sim-metal.py:37-39 | a character other than the separator occurs in a join only if it occurs in an item |
| Text.SplitAtSeparator | test/qlearning-sim-metal.py:133 | splitting `x + sep + rest` with `x` separator-free gives `x` followed by the parts of `rest` |
| Text.TruncDiv | test/qlearning-sim-metal.py:28 | for a positive divisor, `int(a / b)` equals `a // b` when the dividend is non-negative, and `-((-a) // b)` when it is negative |
| Text.TruncDivOdd | qlearning.py:14 | truncating division is odd in the dividend, unlike floor division |
| QStore.Q | test/qlearning-sim-metal.py:60-62 | `get_q_value` is the stored value of `my_hash(state, action)`, and exactly -1.0 when that key was never stored |
| QStore.BestIndex | test/qlearning-sim-metal.py:64-65 | `max` stops at an index whose value no action exceeds and that every earlier action falls strictly below: the first maximum |
| QStore.BestAction | test/qlearning-sim-metal.py:64-65 | `get_best_action` returns a member of the list whose value no member of the list exceeds |
| QStore.BestIndexUnique | test/qlearning-sim-metal.py:64-65 | the first maximal index is the only index with both properties, so the list order alone breaks ties |
| QStore.KeyInjective | test/qlearning-sim-metal.py:50-51 | `my_hash` keys of states without a dot are equal only for equal state and action |
| QStore.GetAfterStore | test/qlearning-sim-metal.py:67-69 | after `store_q_value` the stored pair reads its value, and every other pair (of dot-free states) reads what it read before |
| QStore.PartsOfKey | test/qlearning-sim-metal.py:133 | `key.split('.')` of a key of dot-free parts gives exactly its state and action |
| QStore.FirstBestKeep | test/qlearning-sim-metal.py:136-137 | a visited key that is of another state, or no larger, leaves a state's winner and its first-maximum property intact |
| QStore.FirstBestReplace | test/qlearning-sim-metal.py:136-137 | a key whose value beats every earlier key of its state becomes that state's winner |
| QStore.ScanStopped | test/qlearning-sim-metal.py:132-133 | once a key fails to unpack into two parts, the loop raises and no later key is visited |
| QStore.ScanMalformed | test/qlearning-sim-metal.py:132-133 | the loop completes if and only if every key splits into two parts; otherwise it raises on the first key that does not |
| QStore.VisitKeepsBest | test/qlearning-sim-metal.py:132-137 | one visit keeps "one entry per visited state, holding its first action of largest value" |
| QStore.ScanWinners | test/qlearning-sim-metal.py:127-137 | a completed scan holds exactly the states of the visited keys, each with its first action of largest value |
| QStore.EnumeratesCovers | test/qlearning-sim-metal.py:132 | an iteration order of `storage.items()` visits every key of the table |
| QStore.QValueStore.constructor | test/qlearning-sim-metal.py:55-58 | the store starts from the file's table if there is a file; otherwise it starts empty and writes the empty table; either way the file then holds the table |
| QStore.QValueStore.StoreQValue | test/qlearning-sim-metal.py:67-69 | exactly one key is set to the value, and no key is lost |
| QStore.QValueStore.Save | test/qlearning-sim-metal.py:71-75 | the file holds the current table, and one save is logged |
| QStore.QValueStore.Load | test/qlearning-sim-metal.py:78-85 | with a file the table becomes its contents; without one the table is saved; afterwards the file equals the table |
| QStore.QValueStore.BestActionPerState | test/qlearning-sim-metal.py:127-142 | the loop's result is the scan over the table's keys in iteration order: per-state first maxima, or the first key that raises |
| Learning.MaxQIsMaximum | test/qlearning-sim-metal.py:261-264 | `maxQ` is the largest value of any action in the new state, and some action attains it |
| Learning.Choose | test/qlearning-sim-metal.py:241-252 | the chosen action is always one of the available actions |
| Learning.ChooseExploresOrExploits | test/qlearning-sim-metal.py:241-252 | a draw below the exploration rate takes the random pick; otherwise a greedy action is taken, unless the best value is the -1.0 sentinel, when the random pick is taken |
| Learning.BlendBetween | test/qlearning-sim-metal.py:268 | the update moves `q` by `lr` times its distance to the target, and with `lr` in [0, 1] lands between `q` and the target |
| Learning.StepUpdatesChosenPair | test/qlearning-sim-metal.py:255-274 | one step stores `(1-lr)*q + lr*(reward + dr*maxQ)` for the chosen pair (with `maxQ` read before the store), leaves every other pair unchanged, loses no key, and makes the new state current |
| Learning.RunKeysGrow | test/qlearning-sim-metal.py:67-69 | over any number of steps the table never loses a key |
| Learning.RunEndsInLastState | test/qlearning-sim-metal.py:274 | after one or more steps the current state is the last step's new state |
| Learning.RunPrefixStep | qlearning.py:126 | one more tick is one more step |
| Learning.SavedPrefixStep | qlearning.py:171-172 | one more tick saves exactly when its index is a multiple of the save interval |
| Learning.SavedCount | qlearning.py:171-176 | `n` ticks save `ceil(n / every)` times: once for each multiple of `every` below `n`, index 0 included |
| Learning.RunStaysInUnitBelow | qlearning.py:156-161 | with no reward and both rates in [0, 1], a table whose values lie in [-1, 0] keeps them there over any number of steps |
| Learning.MyopicUpdateScales | qlearning.py:158 | with no reward and discount 0 an update stores exactly `(1 - lr) * q` |
| Learning.Learn | test/qlearning-sim-metal.py:238-279 | choosing, reading and storing on the store produce the state and table of `Step`, and the change is `abs(q - old_q)` |
| Learning.TrainTick | qlearning.py:127-176 | one loop body applies `Step`; when `i % every == 0` it saves the new table and resets both metrics, otherwise it leaves the file alone and counts the change |
| Learning.Train | qlearning.py:126-176 | after the loop the table is `Run` over the ticks, the save log is `SavedTables`, and the file holds the last save |
| MetalLearning.MappedXInBuckets | test/qlearning-sim-metal.py:25-28 | an object inside the image (0 <= cX < width) falls in one of the buckets 0..14 |
| MetalLearning.DataAvoidsSeparators | test/qlearning-sim-metal.py:33-34 | the items `X#<bucket>#` and `F#<found>#` contain neither ':' nor '.' |
| MetalLearning.FromStringRoundTrip | test/qlearning-sim-metal.py:17-39 | `State(fromString=str(s)).data == s.data` |
| MetalLearning.ToStringRoundTrip | test/qlearning-sim-metal.py:19-21 | `str(State(fromString=s)) == s` for every string |
| MetalLearning.StateStringInjective | test/qlearning-sim-metal.py:33-39 | two observations give the same state string if and only if they agree on the bucket and on `found` |
| MetalLearning.StateStringDotFree | test/qlearning-sim-metal.py:50-51 | a state string has no '.', so its `my_hash` keys never collide with another state's |
| MetalLearning.TracksStep | test/qlearning-sim-metal.py:281-287 | one more call is one more `Step`, saves exactly when `i % 100 == 0`, and keeps the save count at `ceil((i+1) / 100)` |
| MetalLearning.Advance | test/qlearning-sim-metal.py:255-287 | the closure body on the store keeps the tracking relation, saves and resets the metrics exactly on multiples of 100, and otherwise leaves the file alone |
| MetalLearning.Learner.constructor | test/qlearning-sim-metal.py:227-231 | `i`, `total_change` and `num_changes` start at 0 and the state is the initial observation's |
| MetalLearning.Learner.Update | test/qlearning-sim-metal.py:234-288 | an `update` call applies one `Step` to the table and state, adds one to `i`, saves (and resets the metrics) exactly when the old `i` is a multiple of 100, and keeps the table equal to `Run` over all ticks so far |
| CamLearning.StateIsBucketDigit | qlearning.py:13-21 | a centroid inside the image gives a one-character state: the digit of its bucket 0..9 |
| CamLearning.StateStringInjective | qlearning.py:13-21 | two cameras give the same state if and only if their centroids fall in the same bucket |
| CamLearning.StateStringDotFree | qlearning.py:32-33 | a state string has no '.', so `my_hash` is injective on these states |
| CamLearning.Ticks | qlearning.py:90-97 | every tick rewards 0 and moves to the camera's next state |
| CamLearning.TicksArePlain | qlearning.py:90-97 | no tick earns a reward, and every pick indexes the four actions |
| CamLearning.MyopicLearning | qlearning.py:184-191 | as configured (reward 0, discount 0) each update scales `q` by `1 - lr`, and values in [-1, 0] stay there |
| CamLearning.QLearning | qlearning.py:111-176 | `iterations` updates give the table of `Run` from the first camera state, with one save every 30 iterations starting at 0; the file holds the last save, or is untouched when there are no iterations |
| WhereAmI.AsWrittenNeverSafe | archive/qlearning_whereami.py:82-83 | as written, a simulated surface is "embarrassed" if and only if it is "black-tape", and never "safe" |
| WhereAmI.SafeZoneCounterexample | archive/qlearning_whereami.py:83 | the label "safe-zone" gets "normal" as written and "safe" as intended |
| WhereAmI.IntendedStatusCases | archive/qlearning_whereami.py:83 | the intended status is "embarrassed" exactly on black tape, "safe" exactly in the safe zone, and otherwise "normal" |
| WhereAmI.AllActions | archive/qlearning_whereami.py:69-72 | `ALL_ACTIONS` has 10 entries, and entry `i*2 + j` is direction `i` with speed `j` (direction-major) |
| WhereAmI.FieldsAreDotFree | archive/qlearning_whereami.py:69-83 | no label, status, direction or speed contains '.' |
| WhereAmI.KeyHasFourFields | archive/qlearning_whereami.py:13-27 | a key is the four fields joined with '.', and splitting it on '.' gives the four back |
| WhereAmI.KeyInjective4 | archive/qlearning_whereami.py:26-27 | keys of dot-free fields are equal only when all four fields are |
| WhereAmI.ActionStringInjective | archive/qlearning_whereami.py:18-23 | an action string determines its direction and speed |
| WhereAmI.AllActionsDistinct | archive/qlearning_whereami.py:69-72 | the ten actions are pairwise distinct |
| WhereAmI.DistinctAt | archive/qlearning_whereami.py:69-70 | neither the direction list nor the speed list repeats a name |
| WhereAmI.Ticks | archive/qlearning_whereami.py:93-102 | every tick rewards 0 and moves to a freshly simulated state |
| WhereAmI.VisitedStatesAreSimulated | archive/qlearning_whereami.py:75-85 | after one or more iterations the current state is one of the seven simulated ones |
| WhereAmI.QLearning | archive/qlearning_whereami.py:116-181 | the loop gives the table of `Run` over the ten actions, with one save every 30 iterations starting at 0; the file holds the last save, or is untouched when there are no iterations |
| Sensors.ArgMin | BehaviouralModule.py:82-87 | `np.argmin` is an index of a minimal reading, and every earlier reading is strictly larger |
| Sensors.ArgMinUnique | BehaviouralModule.py:82-87 | the first minimal index is the only index with both properties |
| React.AvoiderLastWord | BehaviouralModule.py:37-101 | the avoider's final command depends neither on the previous command nor on the signal; in camera view it is (max//4, 0) or (0, max//4) by the draw; with nothing above the robot threshold it is (max, max) |
| React.AvoiderTurnsFromWeakest | BehaviouralModule.py:80-95 | out of view with a robot reading: (0, -max) when the first front reading is the weakest, (-max, 0) when the last is strictly weakest, and (-max, max) in every other case |
| React.SeekerKeepsOrWanders | BehaviouralModule.py:103-131 | in view, the seeker ends on the line command: both dark (-max, max), left dark (max, 0), right dark (0, max), and with no line the previous command; out of view, with draws in [0, max), both wheels end in [0, max) |
| React.BehaviouralModule.constructor | BehaviouralModule.py:16-21 | the motor speed starts at (0, 0) with the given maximum and thresholds |
| React.BehaviouralModule.SetMotorSpeed | BehaviouralModule.py:24-28 | `get_motor_speed` returns the pair most recently passed to `set_motor_speed` |
| React.BehaviouralModule.React | BehaviouralModule.py:31-131 | the motor speed after `react` is the sections applied in source order, each assignment overwriting the one before |
| Behaviour.FrontOf | robot/BehaviouralModule.py:31 | the front readings are the first five readings, as many as there are |
| Behaviour.Trunc | robot/BehaviouralModule.py:105 | Python `int` of a float rounds toward zero |
| Behaviour.BlockedPreemptsAll | robot/BehaviouralModule.py:37-52 | a front reading above the threshold gives the one command (max, -max) and stamps the collision time, even on a black line |
| Behaviour.LineRules | robot/BehaviouralModule.py:46-69 | with the front clear: left dark (alone or with right) gives (max//2, (-max)//2), right dark alone gives ((-max)//2, max//2), each stamping the collision time; neither dark stamps nothing |
| Behaviour.CollidedIffAvoiding | robot/BehaviouralModule.py:36-69 | the collision time changes if and only if an avoidance rule fires |
| Behaviour.NudgedIffIdleSeeker | robot/BehaviouralModule.py:106-111 | the random time changes if and only if a SEEKER tick avoids nothing, sees nothing, and more than 4 s passed since the last nudge |
| Behaviour.AvoiderCruises | robot/BehaviouralModule.py:71-99 | without avoidance the AVOIDER ends at (max, max) once the last collision is over 2 s old and at (max//2, max//2) before; in the safe zone the tick issues three commands, otherwise one |
| Behaviour.SeekerEndsAtFullSpeed | robot/BehaviouralModule.py:101-132 | without avoidance, a SEEKER tick issues one or two commands and always ends at (max, max), whatever vision reports |
| Behaviour.SteerSpeedBounded | robot/BehaviouralModule.py:105 | `sp` lies in [0, max_speed] while the centroid column is at most twice half the height |
| Behaviour.SteerSpeedOvershoots | robot/BehaviouralModule.py:105 | with the defaults, column 819 of the 820-wide image gives `sp == 132 > 80` |
| Behaviour.ClearTickRaises | robot/BehaviouralModule.py:86 | as written a tick without avoidance raises before any command, while the corrected update issues at least one |
| Behaviour.GreyGroundExample | robot/BehaviouralModule.py:71-99 | on grey ground with a clear front, the AVOIDER with the defaults raises without commands as written; corrected, it drives at (80, 80) |
| Behaviour.BehaviouralModule.constructor | robot/BehaviouralModule.py:7-25 | the robot type is recorded on the controller, both timers are 0, and the motors get one command (0, 0) |
| Behaviour.BehaviouralModule.SetMotorSpeed | robot/BehaviouralModule.py:27-28 | one motor command goes to the controller |
| Behaviour.BehaviouralModule.Update | robot/BehaviouralModule.py:30-132 | `update` issues the commands of `Decide` in order, stamps the timers with `now` exactly where it says, and clears `is_safe` exactly on an avoidance tick |
| Behaviour.BehaviouralModule.CruiseTick | robot/BehaviouralModule.py:71-132 | the part after the avoidance rules issues the commands of `Cruise`, stamps the random time only on a nudge, and sets `is_safe` |
| SimExplorer.ExploreSpeedsRange | Q-Learning-Sim.py:186-224 | every stored component is one of -500, 0, 200 and 500 |
| SimExplorer.LinePreemptsRobots | Q-Learning-Sim.py:196-206 | both ground readings below 40 give (-500, 500), left only (200, 0), right only (0, 200), whatever the proximity readings |
| SimExplorer.RobotSeenGoesForward | Q-Learning-Sim.py:208-212 | with no line and a reading above 100 the pair is (500, 500) |
| SimExplorer.QuietChoosesByWeakestFront | Q-Learning-Sim.py:213-224 | with no line and no robot: (0, -500) if and only if the first front reading is the weakest, (-500, 0) if and only if otherwise the last is strictly weakest, and (-500, 500) in the remaining case |
| SimExplorer.AvoiderRobot.constructor | Q-Learning-Sim.py:121-122 | both motor speeds start at 0 |
| SimExplorer.AvoiderRobot.SetMotorSpeeds | Q-Learning-Sim.py:167-183 | `getMotorspeeds` returns exactly the pair last stored |
| SimExplorer.AvoiderRobot.ExploreEnvironment | Q-Learning-Sim.py:186-224 | the stored pair is the one the `elif` chain picks for these readings |
| SlowDrive.NextAction | robot_metal.py:21-40 | the remembered action stays one of STOP, LEFT, RIGHT and FORWARD |
| SlowDrive.SlowMotorsTable | robot_metal.py:21-40 | only the three moves turn a wheel, never backwards and at most at 50; after a known action the remembered action drives the same wheels, and an unknown action stops the wheels and leaves the memory alone |
| RobotMetal.Metal.constructor | robot_metal.py:7-10 | a fresh controller with the motors at [0, 0] and the action "STOP" |
| RobotMetal.Metal.SetMotors | robot_metal.py:12-13 | the values pass through to the controller |
| RobotMetal.Metal.PerformAction | robot_metal.py:21-40 | one command from the slow table, and `current_action` updated by `NextAction` |
| Simulation.Simulation.constructor | simulation/simulation.py:11-54 | the action starts at "STOP", both wheels at 0, and the reset threshold is 30 |
| Simulation.Simulation.SetMotors | simulation/simulation.py:57-59 | the first two values become the wheel velocities and nothing else changes |
| Simulation.Simulation.PerformAction | simulation/simulation.py:119-138 | the wheels follow the slow table and `current_action` follows `NextAction` |
| Thymio.Clamp | robot/robot2.py:223-227 | the speed is clamped into [-500, 500]: kept inside, cut to the nearer bound outside |
| Thymio.ActionMotorsBounded | robot/robot2.py:221-242 | commands stay within [-500, 500], and a wheel turns if and only if the action is LEFT, RIGHT or FORWARD at a non-zero speed |
| Thymio.ExploreTable | robot/robot2.py:244-280 | `explore` drives by the label table; with the classifier as written the right-side tape turn [0, 150] is never commanded |
| Thymio.Controller.ForRobotType | robot/robot2.py:75-89 | motors [0, 0], LEDs [0, 0, 255], running, not safe, the SEEKER program exactly for "SEEKER", and the robot type recorded |
| Thymio.Controller.WithProgram | robot2.py:73-83 | motors [0, 0], LEDs [0, 0, 255], running, not safe, the given program |
| Thymio.Controller.Archived | archive/robot.py:7-15 | safe from the start, motors [0, 0], LEDs [0, 0, 0], running |
| Thymio.Controller.Sense | robot/robot2.py:191-194 | the background thread's copy replaces both sensor lists |
| Thymio.Controller.SetMotors | robot/robot2.py:211-212 | the motor list is replaced wholesale |
| Thymio.Controller.SetLed | robot/robot2.py:214-215 | the LED list is replaced wholesale |
| Thymio.Controller.Stop | robot/robot2.py:217-219 | the control loop's flag is cleared |
| Thymio.Controller.PerformAction | robot/robot2.py:221-242 | one command, the action's pair at the clamped speed; the LEDs are untouched |
| Thymio.Controller.Explore | robot/robot2.py:244-263 | one command: the label's row of the exploration table, with the label from the corrected classifier `Surface.Detect` |
| Surface.DetectRegions | _test.py:8-23 | every pair of readings gets exactly one of the seven labels, and each label is its region of the reading plane, both ways |
| Surface.SafeBeforeTape | _test.py:10-13 | a bright left with a dark right reads as "safe-zone-left": safe tests come before tape tests |
| Surface.DarkPairIsTape | _test.py:27 | [50, 50] classifies as "black-tape" |
| Surface.AsWrittenLosesRightTape | robot/robot2.py:265-280 | the controllers' classifier agrees with _test.py's except that the right-tape region reads "open-ground", so "black-tape-right" is unreachable |
| Surface.RightTapeCounterexample | robot/robot2.py:277-278 | readings (500, 100) are "black-tape-right" as intended and "open-ground" as written |
| ThymioLegacy.AsWrittenAlwaysStops | robot.py:56-67 | as written the last command is always [0, 0]; only actions other than the three moves write once, and a move first writes its intended pair |
| ThymioLegacy.LeftIsLost | robot.py:57-67 | LEFT writes [50, -50] and then [0, 0] |
| ThymioLegacy.IntendedMovesExactlyForMoves | robot.py:56-67 | the chained version turns a wheel if and only if the action is a move, and no wheel goes faster than 50 either way |
| ThymioLegacy.Controller.constructor | robot.py:7-13 | motors [0, 0], LEDs [0, 0, 0], running |
| ThymioLegacy.Controller.SetMotors | robot.py:46-47 | the motor list is replaced wholesale |
| ThymioLegacy.Controller.SetLed | robot.py:49-50 | the LED list is replaced wholesale |
| ThymioLegacy.Controller.Stop | robot.py:52-54 | the control loop's flag is cleared |
| ThymioLegacy.Controller.PerformAction | robot.py:56-67 | `perform_action` as written: the writes of `AsWrittenWrites`, ending at [0, 0] |
| ThymioLegacy.Controller.PerformActionChained | thymio.py:53-64 | the four tests chained: one command, the intended pair |

## Left out

- Camera, vision and `process_image` are left out; the centroid, `width`, `height`, `found` and `robot_in_view` are parameters.
- Hardware transport, the Aseba programs, `run_background`, threads and `robot/main.py` are left out. `Thymio.Controller.Sense` stands for the background thread's sensor copy, and `stop` only clears the flag.
- Clocks, sleeps and randomness are parameters. `Behaviour.BehaviouralModule.Update` reads one `now` per tick, where the code calls `time.time()` at each stamp; the settle delays are not modelled.
- LEDs and `print` output in the behavioural modules are left out, as are the numeric metrics, which are only printed.
- The reward curve `2^(distFromMiddle*10)` and `ReinforcementProblem` of test/qlearning-sim-metal.py are left out: the float power is not modelled, so the reward is a field of `Learning.Tick`.
- Float rounding is not modelled: Q-values are exact `real`s, and `Behaviour.Trunc` and `Text.TruncDiv` compute on exact values.
- `mapped_y` in both `State` classes is computed but never stored. The model keeps only its requirement that the height is non-zero (`Observable`).
- Pickle and file existence are modelled as an abstract snapshot `disk`.
- `take_action` in archive/qlearning_whereami.py uses an undefined `robot` and a nonexistent `action.direction`. It is modelled as the evident intent: reward 0 and a freshly simulated state. `ThymioController(role=...)` in its constructor is left out.
- The module-level script at the end of BehaviouralModule.py is left out. It calls `react` without `signal` and with `camera=None`.
- `print_best_actions`, `print_all_values` and the other printing helpers of test/qlearning-sim-metal.py are left out; only `print_best_action_per_state`'s selection loop is modelled.
- Physics, geometry, the compass and rendering in Q-Learning-Sim.py and simulation/simulation.py are left out.
- Behaviour.Decide: the SEEKER's `sp` divides by `height // 2`, so the model requires it to be non-zero where Python would raise ZeroDivisionError.
- Behaviour.BehaviouralModule.Update: models `update` with `controller` read as `self.thymio`, the evident intent; see the findings.
- WhereAmI.StateAt: uses the intended status spelling "safe-zone"; see the findings.
- Thymio.Controller.DetectSurface: classifies with the sixth test on the right sensor; see the findings.
- Thymio.Controller.Explore: drives by the corrected classifier, so readings (500, 100) give [0, 150] where the code as written drives [500, 500]; `Thymio.ExploreTable` states the as-written behaviour.
- React.BehaviouralModule.React: the draws of `np.random.randint(0, max_speed)` are parameters for any `max`, while Python raises ValueError when `max_speed <= 0`; that error path is not modelled.
- Behaviour.SteerSpeed: steers by comparing the x coordinate with half the image height (308), while the image is 820 wide, as the code does. `Behaviour.SteerSpeedOvershoots` shows the resulting speed above `max_speed`; the model does not guess a correction.

## Findings

| source | as written | input that shows it | evidently intended | confidence | as-written member | corrected member |
|---|---|---|---|---|---|---|
| robot/robot2.py:277 | the sixth test of `detect_surface` reads `ground_sensors[0]` again (likewise robot2.py:213 and archive/robot.py:123) | ground readings (500, 100) classify as "open-ground" | `ground_sensors[1] < 400` gives "black-tape-right", as in _test.py:20 | high (not executed) | Surface.DetectAsWritten, with Surface.AsWrittenLosesRightTape and Surface.RightTapeCounterexample | Surface.Detect, with Surface.DetectRegions, used by Thymio.Controller.Explore |
| robot.py:63 | the STOP test starts a new `if`, whose `else` runs after every move (likewise thymio.py:60) | `perform_action("LEFT")` writes [50, -50] and then [0, 0] | one `if`/`elif` chain, so each action writes one command | high (not executed) | ThymioLegacy.Controller.PerformAction, with ThymioLegacy.AsWrittenAlwaysStops and ThymioLegacy.LeftIsLost | ThymioLegacy.Controller.PerformActionChained, with ThymioLegacy.IntendedMovesExactlyForMoves |
| archive/qlearning_whereami.py:83 | the status test compares with "safe_zone", which no surface label spells | the surface "safe-zone" gets the status "normal" | "safe-zone" gets "safe" | high (not executed) | WhereAmI.StatusAsWritten, with WhereAmI.AsWrittenNeverSafe and WhereAmI.SafeZoneCounterexample | WhereAmI.IntendedStatus, with WhereAmI.IntendedStatusCases, used by WhereAmI.StateAt |
| robot/BehaviouralModule.py:42 | `update` writes `controller.is_safe`, but the module never defines `controller` (also lines 51, 60, 68, 75 and 86) | a tick with a clear front and grey ground [500, 500] raises NameError before any command | the module's own controller, `self.thymio` | medium (not executed) | Behaviour.AsWrittenUpdate, with Behaviour.ClearTickRaises and Behaviour.GreyGroundExample | Behaviour.Decide, with Behaviour.CollidedIffAvoiding, used by Behaviour.BehaviouralModule.Update |
