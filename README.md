# FIGHT-TAVERN game rules in Dafny

A model of the three rule cores of the FIGHT-TAVERN browser game, with proofs of
what each promises:

- **Battle server** (`server.js`). One shared game state holds the hero and enemy
  records, whose turn it is and a game-over flag. A map from connection id to role
  sits beside it. A new connection is given the first free role (`hero`, then
  `enemy`, else `spectator`). An `attack` from the side to move rolls a d20 with a
  fixed +3 bonus against the target's armour class, rolls damage (an extra die on
  a natural 20) and clamps the target's hit points at 0. The game then ends or the
  turn passes. `reset_game` restores the initial state, and `disconnect` frees the
  connection's seat. Module `Battle`: class `Server` with the fields `state` and
  `players`.
- **Tavern progression** (`game-main.js`). Each ability score is the sum of three
  die results. A skill check adds the modifier floor((stat - 10) / 2) to a d20
  result and compares it with a difficulty class, which settles a quest as success
  or fail. A room costs 2 gold and stew costs 1. Each scene offers only the choices
  whose conditions hold. Module `Tavern`: class `Tavern` whose fields are the page's
  global records and flags.
- **Gate roll** (`react-scenes.js`, `GateApp`). The player picks normal, advantage
  or disadvantage mode and rolls once or twice. The kept result is the first roll,
  the higher of two or the lower of two, and the gate opens when it is at least 10.
  Module `Gate`: a pure transition function over the component's state record, an
  invariant of every reachable state, and the rule that marks rolls as chosen or
  discarded.

Module `Wrappers` only defines `Option`.

Random draws (`Math.random()` in the server, the physical die in the page) are
parameters. Each server draw has a precondition giving its range: the d20 in
[1, 20], each damage die in [1, dmgDie].

`server.js` handles only connect, `attack`, `reset_game` and `disconnect`. The
browser client (battle-systems.js:32, 36, 44, 80, 173) also sends challenge,
join, accept, rejoin and chat events, but the server has no handlers for them, so
they are not modelled. As the code is written:
- the to-hit bonus is a constant +3 for both sides (server.js:60);
- any connection, spectators included, may reset the game (server.js:108);
- a connection's role is fixed when it connects (server.js:31), and its attack
  handler reads that captured role.

`Battle.ThreeConnections` is a client of the server's contracts. It checks that
three connections get `hero`, `enemy` and `spectator`, that the spectator's attack
is dropped, and that a freed seat goes to the next connection.

## Model

| member | source | states |
|---|---|---|
| `Battle.InitialIsConsistent` | server.js:13-19 | The initial state satisfies the state invariant: hero at 50/50 hp, enemy at 45/45, the hero to move, the game running |
| `Battle.AssignRole` | server.js:31-36 | A connection becomes `hero` iff no entry holds `hero`; `enemy` iff some entry holds `hero` and none holds `enemy`; `spectator` iff both roles are held |
| `Battle.ConnectKeepsSeatsUnique` | server.js:31-37 | Adding the new connection with its assigned role keeps at most one `hero` and at most one `enemy` in `players` |
| `Battle.DisconnectKeepsSeatsUnique` | server.js:116 | Deleting a connection's entry keeps at most one `hero` and at most one `enemy` |
| `Battle.RollToHit` | server.js:59-62 | For a d20 in [1, 20]: critical iff the roll is 20; a critical always hits; a hit iff critical or roll + 3 reaches the armour class; armour class 4 or less is always hit; above 22 only a critical hits |
| `Battle.HitIsMonotone` | server.js:60-61 | If a roll hits, every higher roll against the same armour class hits too |
| `Battle.RollDamage` | server.js:70-71 | With each draw in [1, die], a normal hit deals between 1 + mod and die + mod; a critical deals between 2 + mod and 2 * die + mod |
| `Battle.ApplyDamage` | server.js:74 | The new hit points are never negative; they are 0 iff the damage reaches the old hit points, otherwise they are the old hit points minus the damage; non-negative damage never raises them |
| `Battle.Strike` | server.js:52-104 | An attack that passed the turn check. The action reports the attacker, the roll, the crit and hit rules, and damage that is 0 on a miss and within the die bounds on a hit. Only the target's hp changes, clamped at 0 and only on a hit, and the attacker's record is untouched. If the target is at 0 the game is over, the turn is unchanged and the log announces the defeat. Otherwise the turn passes to the target, and the log reports the hit with its damage or the miss with its roll |
| `Battle.StrikeKeepsConsistent` | server.js:84-91 | From a running game in which the side to move attacks, the state invariant holds afterwards and the target's hp never rises. Exactly one of "game over" and "turn flipped" holds, and the game is over iff the target is at 0 |
| `Battle.FinishingBlow` | server.js:74-86 | If the hero is at 1 hp, any enemy hit ends the game with the hero at 0 and the turn still the enemy's |
| `Battle.CriticalOpening` | server.js:59-90 | A natural 20 with two top damage rolls on the opening move deals 18 damage (8 + 2 + 8), leaves the Ogre at 27 and passes the turn |
| `Battle.Server.constructor` | server.js:22-25 | The server starts with INITIAL_STATE and no connections |
| `Battle.Server.Connect` | server.js:30-40 | The new entry gets `AssignRole` of the old map and nothing else in `players` changes. The state is untouched and is returned as the welcome snapshot. Seats stay unique |
| `Battle.Server.Attack` | server.js:46-105 | For a live connection, with the role captured at connect time, which is still that connection's entry in `players`: dropped, with no update and an unchanged state, unless that role is the side to move and the game is running, so a spectator never attacks. Otherwise the new state and the broadcast action are exactly `Strike`'s. `players` is untouched and the invariant is kept |
| `Battle.Server.Reset` | server.js:108-111 | From any state and for any caller the state becomes INITIAL_STATE, so a second reset changes nothing. `players` is untouched |
| `Battle.Server.Disconnect` | server.js:114-119 | Exactly that connection's entry is removed; every other entry and the state are unchanged |
| `Tavern.Modifier` | game-main.js:372 | The modifier m is the floor of (value - 10) / 2, that is 2m <= value - 10 < 2m + 2; it is non-negative iff the value is at least 10 |
| `Tavern.CheckSucceeds` | game-main.js:380-382 | The result plus the modifier reaches the DC iff the stat plus twice the result reaches 2 * DC + 10 |
| `Tavern.SumBounds` | game-main.js:370 | A sum of n die results, each in [lo, hi], lies in [n * lo, n * hi] |
| `Tavern.ThreeDiceStat` | game-main.js:366-371 | Three d6 results give a stat in [3, 18] |
| `Tavern.Tavern.constructor` | game-main.js:77-90 | The initial records: every stat 0, 5 gold, every quest pending, no room, no meal. No roll in progress: no active stat, no rolls, no quest key, no pending, success or failure scene. DC 10 and the hub scene |
| `Tavern.Tavern.LoadScene` | game-main.js:315-316 | Only the current scene key is recorded |
| `Tavern.Tavern.BuyRoom` | game-main.js:116-124 | With at least 2 gold: 2 gold paid, the room taken, back to Bartho's scene. Otherwise gold, the room flag and the scene are unchanged. Gold stays non-negative |
| `Tavern.Tavern.BuyStew` | game-main.js:126-134 | With at least 1 gold: 1 gold paid, the meal eaten, back to Elara's scene. Otherwise nothing changes. Gold stays non-negative |
| `Tavern.Tavern.StartStatTest` | game-main.js:362 | Nothing changes if the stat is already above 0. Otherwise that stat and the next scene are remembered, generation is switched on and the rolls are emptied |
| `Tavern.Tavern.StartSkillCheck` | game-main.js:363 | The check is armed with the stat, the DC, the success and failure scenes and the quest key |
| `Tavern.Tavern.HandleDiceResult` | game-main.js:365-386 | While a stat is generated, the result is appended to the rolls. On the third the stat becomes their sum and generation stops; quests are untouched. Otherwise, with a check armed, success is `CheckSucceeds` of the result, the stat's value and the DC. The quest becomes success or fail and gains its memory, and every other quest and every stat is untouched. Otherwise nothing changes |
| `Tavern.Tavern.FinishStatTest` | game-main.js:377 | The delayed close of a stat roll clears the active stat and moves to the remembered scene |
| `Tavern.Tavern.FinishSkillCheck` | game-main.js:385 | The delayed close of a check disarms it, clears the active stat, and moves to the success or failure scene for the captured outcome |
| `Tavern.Tavern.NpcChoices` | game-main.js:225-293 | Within a character's scene, each conditional choice is offered iff its condition holds. Rent room: Bartho, no room, at least 2 gold. Stew: Elara, not eaten, at least 1 gold. Roll the stat: quest pending, stat 0. Attempt: quest pending, stat above 0. Recall: memory present |
| `Tavern.Tavern.Offered` | game-main.js:187-312 | "Sleep & Finish Game" is offered iff in the room with `hasRoom && hasEaten`. Rent and stew appear only in the right scene under their gold guards. A quest's roll or attempt choice appears only in its own scene while the quest is `pending`. Its skill check appears in its post-stat scene and nowhere else, carrying the arguments its button passes to `startSkillCheck`: the quest's stat, its DC (12 or 13), its win and lose scenes, and the quest key |
| `Gate.SeqMax` | react-scenes.js:255 | `Math.max` of a non-empty list is one of its elements and no element exceeds it |
| `Gate.SeqMin` | react-scenes.js:255 | `Math.min` of a non-empty list is one of its elements and no element is below it |
| `Gate.Final` | react-scenes.js:255 | The kept result is one of the rolls: the first in normal mode, an upper bound of all rolls under advantage, a lower bound under disadvantage |
| `Gate.FinalOfTwo` | react-scenes.js:255 | With two rolls the kept result is the larger under advantage and the smaller under disadvantage |
| `Gate.HandleRoll` | react-scenes.js:252-261 | Exactly one result is appended and the mode is unchanged. The die is hidden and the game never returns to the intro. The game finishes iff the mode is normal or this is the second roll |
| `Gate.Step` | react-scenes.js:189-318 | An event that cannot happen changes nothing. Choosing a mode clears the rolls, sets the mode and shows the die. A die that settles holds its result for the delayed delivery. Closing the die hides it but keeps that result, and the delivery appends it to the rolls. Only choosing a mode can shorten `rolls` |
| `Gate.CloseBeforeDelivery` | react-scenes.js:207-221 | Closing the die after it settles in normal mode with 15 still ends the game in success, with the rolls [15] |
| `Gate.InitInv` | react-scenes.js:240-242 | The initial state (intro, normal, no rolls) satisfies the invariant |
| `Gate.StepKeepsInv` | react-scenes.js:252-318 | Every event keeps the invariant |
| `Gate.RunKeepsInv` | react-scenes.js:252-318 | Every sequence of events keeps the invariant |
| `Gate.ReachableOutcome` | react-scenes.js:253-256 | Whatever happens from the start, there are never more than 2 rolls. A finished game has exactly 1 roll in normal mode and 2 otherwise, and it succeeded iff the kept result is at least 10 |
| `Gate.MarksFollowFinal` | react-scenes.js:289-297 | In a finished reachable game a roll is marked chosen iff it equals the kept result, so on a tie both are and a single roll always is. Each roll is exactly one of chosen and discarded, and some roll is chosen. Before the end nothing is marked |

## Left out

- Socket transport: the HTTP server, CORS, `listen`, and the broadcast of `welcome`, `player_joined` and `game_update` (server.js:1-10, 40-43, 94, 110, 122-125). The welcome snapshot and the attack's action are returned values instead. The `player_joined` event and the reset's `game_update` are not modelled.
- The template's `logs: []` field: nothing ever reads or writes it.
- Log text: the messages are structured values (`Hits(name, damage)`, `Missed(name, roll)`, `Defeated(name)`) with their colour strings. Turning numbers into text is not modelled.
- `Math.random()`: each draw is a parameter restricted to the draw's range.
- Battle.Server.Attack: damage is not clamped to be non-negative before it is subtracted (server.js:70, 74); a negative damage modifier could raise hit points. The invariant assumes non-negative modifiers, which the only template (modifier 2 on both sides) has.
- battle-systems.js is not part of this model. It is the browser client. It sends challenge, join, rejoin and chat events that server.js does not handle.
- game-main.js persistence and presentation: `saveGame`/`loadGame` (localStorage and JSON), the HTML of `loadScene`, the dice modal, `restrictDiceUI`, the story log and the title and overlay screens (game-main.js:1-74, 136-147, 315-360).
- game-main.js external services: `triggerAIChat` (an HTTP fetch) and the image URL built by `generateMemory` (game-main.js:149-175). A memory is modelled only as the quest being in `memories`.
- Choice texts and CSS classes, including the battle arena button's captions that depend on the server's status; the arena choice is a plain `BattleArena` value.
- Timers: each `setTimeout` that closes a roll (game-main.js:377, 385) is an explicit later step. In `GateApp`, the 500 ms timer that shows the die again is the `reopenPending` flag. The 1200 ms timer that hands a settled result to `handleRoll` (react-scenes.js:210) is the `resultPending` field, with the `Deliver` event. Timers that only change text or CSS are not modelled.
- Gate.Step: a delivered result is applied to the mode and rolls at delivery time. In the source, `handleRoll` uses the mode and rolls of the render in which the die was cast. The two differ only if the player closes the die and picks another mode during the 1200 ms delay. A second cast during that delay, while the first result is still pending, is not modelled (`Settled` requires no pending result).
- `DiceWidget` (react-scenes.js:97-237): three.js rendering, cannon-es physics and the face detection that yields a result. A roll is any integer delivered as `Rolled(res)`.
- `IntroApp` (react-scenes.js:21-96): scroll progress is floating point arithmetic on wheel deltas.
- The gate's "Open the Gates" button leaves the component (a page transition), so it is not an event of `Gate`.
