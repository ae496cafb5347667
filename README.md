# Ghosts and Goblins: the simulation core in Dafny

This project models the core of *Ghosts-and-Goblins*, a Python side-scrolling
platformer. It covers:

- the hero Arthur (`src/actors/arthur.py`);
- the enemies: the walking `Zombie`, the stationary `Plant` and the `Eyeball`
  the plant shoots (`src/actors/enemies.py`);
- the older stand-alone zombie (`src/actors/zombie.py`);
- the `Torch` Arthur throws and the `Flame` it lights (`src/actors/weapons.py`);
- the background geometry and the `Grave` that summons a magician
  (`src/actors/platforms.py`);
- the game session (`src/framework/gnggame.py`): the level-file loader, the
  construction checks, lives, game over and game won, the reset after a death,
  and the renderer's colour table;
- the camera `View` and `GuiElement` (`src/framework/gui.py`);
- `center` (`src/framework/utilities.py`).

Each actor appears twice:

- As a pure specification: a state datatype and a step function saying what
  one `move` does. The lemmas state what the source promises about that
  function.
- As a `class` with the source's fields, whose methods run the source's
  statements step by step. Each method's `ensures` ties its new state to the
  step function.

The arena (`src/framework/actor.py`) is not part of this model. An actor's
`move` sees it through a `Tick` value. A `Tick` holds:

- the actors it collides with, in the arena's order;
- the keys held down;
- the world size;
- the frame counter;
- the position of the first Arthur;
- one bit for the sub-cycle Arthur's first death window alternates on.

`arena.kill` and `arena.spawn` become the sequence of `Request`s a move hands
back, in the order it makes them. isinstance tests are answered by a closed
class tag `Kind` and its `Parent` chain (module `Arena`).

Coordinates, sizes and speeds are `real`. Python's int and float arithmetic
on them is exact here. Truncations are written out explicitly, for example
`int(...)` in `View.move`.

Modules and files:

| file | module | models |
|---|---|---|
| arena.dfy | Arena | points, directions, the class hierarchy, `is_jumpable`, `Tick`, `Request` |
| utilities.dfy | Utilities | `center`, `min`/`max` clamps, `int()` truncation |
| pystr.dfy | PyStrings | `str.strip()`, `str.split(sep)`, `int(str)` with their inverses |
| platforms.dfy | Platforms | `check_if_hit`, the background actors, `Grave` |
| weapons.dfy | Weapons | `Torch`, `Flame` |
| enemies.dfy | Enemies | `Zombie`, `Plant`, `Eyeball` of enemies.py |
| zombie.dfy | LegacyZombies | the `Zombie` of zombie.py |
| arthur_logic.dfy | ArthurLogic | Arthur's state, tables and each phase of `move` as functions |
| arthur_actor.dfy | ArthurActor | the `Arthur` class, method by method |
| arthur_props.dfy | ArthurProps | what a move of Arthur promises |
| arthur_scenarios.dfy | ArthurScenarios | the unit tests at the end of arthur.py, as lemmas |
| gnggame.dfy | Game | the level loader, construction, the session and `tick`, `reset_game` |
| gnggame_props.dfy | GameProps | the session invariant, lives and game over over a whole game |
| level_files.dfy | LevelFiles | the level-file format, and that the loader reads it back |
| gui.dfy | Gui | `View`, `GuiElement` |

Where the behaviour described for the program and the code differ, the model
follows the code:

- The plant fires whenever some Arthur is in the arena. There is no range
  check, and it does not matter whether he is alive or has won.
- The plant's first countdown is 10 frames (`self._max_count`), not a number
  of seconds.
- With both run keys held, the code leaves the speed at zero and keeps the
  old facing. `set_state` then shows Arthur facing right (`Facing`).
- The level-file format belongs to the core here. `GngGame._manage_file` is
  part of the core.

## Model

| member | source | states |
|---|---|---|
| Arena.Parent | src/actors/platforms.py:18-106 | the direct superclass of each actor class; only `Actor` has none, and every parent is one level nearer the root, so walking up always ends |
| Arena.IsJumpable | src/actors/platforms.py:39-66 | `is_jumpable` resolved by Python's method lookup up the class chain is true exactly for the platform and solid classes (Grave and Ground inherit it) |
| Arena.ActorTestsAgree | src/actors/arthur.py:214-222 | the enemy and weapon tests the actors use agree with isinstance on the class hierarchy |
| Arena.BackgroundTestsAgree | src/actors/arthur.py:214-222 | the solid, platform, ladder and background tests agree with isinstance, so a Grave is a solid and a win area is a ladder |
| Arena.LineageParent | src/actors/platforms.py:18-106 | the list of a class's ancestors is the class followed by its parent's list, ending at `Actor` |
| Arena.LineageIsA | src/actors/platforms.py:18-106 | isinstance of class c holds exactly when c is among the ancestors |
| Arena.EnemyTest | src/actors/enemies.py:8-17 | the enemy test is isinstance(Enemy) |
| Arena.EnemyLineage | src/actors/enemies.py:8-17 | an actor is an enemy exactly when Enemy is among its ancestors |
| Arena.WeaponTest | src/actors/weapons.py:13-20 | the weapon test is isinstance(Weapon) |
| Arena.WeaponLineage | src/actors/weapons.py:13-20 | an actor is a weapon exactly when Weapon is among its ancestors |
| Arena.SolidTest | src/actors/platforms.py:64-97 | the solid test is isinstance(BackgroundSolid) |
| Arena.SolidLineage | src/actors/platforms.py:64-97 | an actor is solid exactly when BackgroundSolid is among its ancestors |
| Arena.PlatformTest | src/actors/platforms.py:60-62 | the platform test is isinstance(BackgroundPlatform) |
| Arena.PlatformLineage | src/actors/platforms.py:60-62 | an actor is a platform exactly when BackgroundPlatform is among its ancestors |
| Arena.LadderTest | src/actors/platforms.py:99-106 | the ladder test is isinstance(BackgroundLadder), so a win area is a ladder |
| Arena.LadderLineage | src/actors/platforms.py:99-106 | an actor is a ladder exactly when BackgroundLadder is among its ancestors |
| Arena.BackgroundTest | src/actors/platforms.py:18-106 | the background test is isinstance(BackgroundActor) |
| Arena.BackgroundLineage | src/actors/platforms.py:18-106 | an actor is a background actor exactly when BackgroundActor is among its ancestors |
| Utilities.Min | src/actors/arthur.py:231-232 | `min`: no greater than either argument, and one of them |
| Utilities.Max | src/actors/arthur.py:231-232 | `max`: no less than either argument, and one of them |
| Utilities.Clamp | src/actors/arthur.py:231-232 | `min(max(v, lo), hi)` lies in [lo, hi] when the range is not empty, and leaves a value already inside unchanged |
| Utilities.Trunc | src/framework/gui.py:42-45 | `int()` of a real truncates toward zero: the result is within one of the argument, on the side of zero |
| Utilities.Center | src/framework/utilities.py:3-11 | `center` is equally far from the top-left and bottom-right corners on each axis |
| Utilities.CenterInsideBox | src/framework/utilities.py:3-11 | the centre of a box with no negative side lies inside the box |
| Utilities.CenterOfPointBox | src/framework/utilities.py:3-11 | the centre of an empty box is its position |
| Utilities.RemovePos | src/framework/gui.py:22-23 | `remove_pos(a, b)` is the offset that, added to b, gives a |
| PyStrings.Lead | src/framework/gnggame.py:136 | where `lstrip` starts: only white space before it, and not white space at it |
| PyStrings.Trail | src/framework/gnggame.py:136 | where `rstrip` ends: only white space after it, and not white space just before it |
| PyStrings.Strip | src/framework/gnggame.py:136 | `line.strip()` neither starts nor ends with white space |
| PyStrings.StripShape | src/framework/gnggame.py:136 | `strip` is the slice between the leading and trailing white space; it is empty exactly for an all-space line |
| PyStrings.StripFixed | src/framework/gnggame.py:136 | a string without white space at either end is its own strip |
| PyStrings.StripIdempotent | src/framework/gnggame.py:136 | stripping twice is stripping once |
| PyStrings.FindFrom | src/framework/gnggame.py:138 | the first occurrence of the separator from a given index, or `None` when there is none |
| PyStrings.Split | src/framework/gnggame.py:138 | `s.split(sep)`: at least one piece, the pieces joined by sep give s back, and no piece holds sep |
| PyStrings.JoinFree | src/framework/gnggame.py:138 | pieces and separator free of a character join into a string free of it |
| PyStrings.JoinLast | src/framework/gnggame.py:138 | a join ends with the last character of its last piece |
| PyStrings.SplitJoin | src/framework/gnggame.py:138 | splitting a join of pieces that do not hold the separator's first character gives the pieces back |
| PyStrings.FirstSeparator | src/framework/gnggame.py:138 | in `p + sep + t`, with p free of sep's first character, the first separator is right after p |
| PyStrings.ParseInt | src/framework/gnggame.py:141-145 | `int(v)` accepts only a non-empty stripped literal, and a negative value only with a leading minus |
| PyStrings.ParseInts | src/framework/gnggame.py:141-143 | `int(v) for v in ...` succeeds exactly when every item parses, and then holds each item's value in order |
| PyStrings.ShowNat | src/framework/gnggame.py:141 | a natural number is written as a non-empty string of decimal digits |
| PyStrings.Show | src/framework/gnggame.py:141 | a number is written as digits, with a leading minus exactly when it is negative |
| PyStrings.ShowNatValue | src/framework/gnggame.py:141 | the digits written for n have the value n |
| PyStrings.ParseShow | src/framework/gnggame.py:141-145 | `int()` reads back any number as written: the round trip to the string and back is the identity |
| PyStrings.ShowStripped | src/framework/gnggame.py:136 | a written number has no white space to strip |
| PyStrings.ParseDigits | src/framework/gnggame.py:141 | `int()` of the digits of m is m |
| PyStrings.ParseNegative | src/framework/gnggame.py:141 | `int()` of a minus followed by the digits of m is -m |
| Platforms.CheckIfHit | src/actors/platforms.py:5-15 | true exactly when some colliding actor is a weapon |
| Platforms.Background.constructor | src/actors/platforms.py:23-25 | a background actor has the class, position and size it was built with |
| Platforms.Background.Sprite | src/actors/platforms.py:36-37 | background actors have no sprite |
| Platforms.Background.Move | src/actors/platforms.py:30-31 | a plain background actor's move asks nothing of the arena |
| Platforms.GraveInit | src/actors/platforms.py:69-75 | a new grave has no hits and a full cooldown, which is within the grave's invariant |
| Platforms.GraveStepSpec | src/actors/platforms.py:77-94 | a grave never moves and keeps its invariant. A hit counts only once the cooldown is over; it restarts the cooldown and adds one hit modulo 15. Otherwise the cooldown runs down. The magician is spawned 32 pixels above the grave exactly on the 15th hit |
| Platforms.GraveStep | src/actors/platforms.py:77-94 | `move` on the grave state: count a hit once the cooldown is over, otherwise run the cooldown down, and spawn the magician on the 15th hit; `GraveStepSpec` states its properties |
| Platforms.NoHitWhileCoolingDown | src/actors/platforms.py:80-85 | for the 30 moves after a counted hit, no further hit is counted, whatever touches the grave |
| Platforms.CoolingDown | src/actors/platforms.py:80-85 | while a cooldown lasts, it runs down by one per move, the grave stays put and no hit is counted |
| Platforms.Grave.constructor | src/actors/platforms.py:69-75 | the fields of a new grave are those of `GraveInit` |
| Platforms.Grave.Sprite | src/actors/platforms.py:36-37 | a grave has no sprite |
| Platforms.Grave.Move | src/actors/platforms.py:77-89 | the grave's fields and requests after `move` are those of `GraveStep` |
| Platforms.Grave.SpawnMagician | src/actors/platforms.py:91-94 | asks for one magician, 32 pixels above the grave |
| Weapons.TorchStepMotion | src/actors/weapons.py:55-79 | a torch moves by its speed, keeps its horizontal speed and direction, and gains 2 of fall speed per move up to the cap of 8 |
| Weapons.TorchHitSpec | src/actors/weapons.py:60-74 | one collision kills the other actor exactly when it is an enemy. It lights a flame exactly on the ground or a platform, at the torch's centre and the obstacle's top. It removes the torch exactly on an enemy, a solid or a platform |
| Weapons.TorchHit | src/actors/weapons.py:59-74 | the requests for one collision: kill the enemy and the torch, light a flame and vanish on the ground or a platform, vanish on another solid, nothing otherwise; `TorchHitSpec` states its properties |
| Weapons.TorchStep | src/actors/weapons.py:55-82 | `move` on the torch state: fly, collide, fall out of the world, accelerate and animate; `TorchStepMotion`, `TorchHitSpec` and `TorchFallsOut` state its properties |
| Weapons.TorchKillsEnemies | src/actors/weapons.py:60-68 | over all collisions, an actor is killed exactly when it is a colliding enemy |
| Weapons.TorchIgnites | src/actors/weapons.py:70-71 | over all collisions, a flame is asked for exactly at the spots of the colliding ground and platforms |
| Weapons.TorchStopped | src/actors/weapons.py:60-74 | over all collisions, the torch asks for its own removal exactly when it touched an enemy, a solid or a platform |
| Weapons.TorchFallsOut | src/actors/weapons.py:76-77 | a torch that leaves the bottom of the world is removed |
| Weapons.TorchFramesAlternate | src/actors/weapons.py:45-53 | the torch's frame changes every 8 moves and repeats every 16; the two frames have swapped sizes and different sprites |
| Weapons.TorchFlight | src/actors/weapons.py:55-82 | over any flight, the horizontal speed stays, the animation counter counts the moves, and the fall speed never passes the cap |
| Weapons.RunIsFlight | src/actors/weapons.py:55-82 | a run of moves is the free flight of as many steps, whatever the arena shows |
| Weapons.TorchDistance | src/actors/weapons.py:56 | after n moves a torch has travelled n times its horizontal speed |
| Weapons.FlameStepSpec | src/actors/weapons.py:124-142 | a flame stays anchored at its ground point by its bottom centre. Its frame is 0 or 1. Its life runs down by one per move. It kills exactly the colliding enemies, and it asks for its own removal exactly once its life is over |
| Weapons.FlameStep | src/actors/weapons.py:124-142 | `move` on the flame state: frame from the arena counter, re-anchor, kill touched enemies, age or vanish; `FlameStepSpec` states its properties |
| Weapons.FlameKillsSpec | src/actors/weapons.py:135-136 | the flame kills exactly the colliding enemies and never asks to remove itself there |
| Weapons.FlameAges | src/actors/weapons.py:139-142 | over as many moves as life is left, the flame stays anchored, its life counts down and it is not removed |
| Weapons.FlameLifetime | src/actors/weapons.py:102-142 | a new flame survives its first 60 moves and asks for its removal on the 61st |
| Weapons.Torch.constructor | src/actors/weapons.py:29-39 | a new torch flies at 8 in its direction, rises at 10 and has its animation counter at 0 |
| Weapons.Torch.Move | src/actors/weapons.py:55-82 | the torch's fields and requests after `move` are those of `TorchStep` |
| Weapons.Torch.Collide | src/actors/weapons.py:59-74 | the collision loop asks for exactly the requests `TorchHits` lists |
| Weapons.Torch.GroundCollision | src/actors/weapons.py:84-95 | spawns a flame at the torch's horizontal centre on the obstacle's top, then removes the torch |
| Weapons.Flame.constructor | src/actors/weapons.py:102-111 | a new flame is anchored at its ground point with 60 frames of life |
| Weapons.Flame.Move | src/actors/weapons.py:124-142 | the flame's fields and requests after `move` are those of `FlameStep` |
| Enemies.Drain | src/actors/enemies.py:96-101 | the spawn countdown keeps its three stages |
| Enemies.Restore | src/actors/enemies.py:108-113 | the despawn countdown keeps its three stages |
| Enemies.CountdownSteps | src/actors/enemies.py:94-115 | spawning takes one frame off the earliest stage still running, and despawning puts one back on the latest stage not yet full, each moving the total by exactly one and keeping every stage within its start |
| Enemies.DrainStep | src/actors/enemies.py:96-101 | one spawn frame lowers the total by one, on the first non-empty stage |
| Enemies.RestoreStep | src/actors/enemies.py:108-113 | one despawn frame raises the total by one, on the last stage below its start |
| Enemies.StageLengths | src/actors/enemies.py:145-147 | each drawn stage length, in seconds, becomes that many frames |
| Enemies.ZombieLooks | src/actors/enemies.py:80-90 | only the idle pose lacks a size of its own and borrows Walk3's size and sprite; a despawned zombie has size zero and is the only pose without a sprite |
| Enemies.ZombieAdvance | src/actors/enemies.py:94-115 | advancing keeps the three stages and their starts, and changes neither the height, the fall speed, the pose nor the walk counter |
| Enemies.ZombieLandAll | src/actors/enemies.py:117-125 | the landing loop changes only the height and the fall speed |
| Enemies.ZombieSetState | src/actors/enemies.py:152-176 | `_set_state` changes only the pose and the walk counter |
| Enemies.ZombieSettle | src/actors/enemies.py:117-134 | landing, gravity and the world clamp change only the position and the fall speed |
| Enemies.ZombieStep | src/actors/enemies.py:92-136 | a move keeps the three stages and their starts |
| Enemies.ZombieInitValid | src/actors/enemies.py:49-75 | a new zombie keeps the zombie invariant; its stages start full at 1 or 2 seconds (the last up to 3), and its distance is between 150 and 300 |
| Enemies.ZombieInit | src/actors/enemies.py:49-75 | a new zombie at its position, facing its direction, with the drawn distance and the three drawn stages as countdowns and starts; `ZombieInitValid` states its ranges |
| Enemies.ZombieSize | src/actors/enemies.py:80-83 | `size`: the size of the pose, Walk3's for the idle pose; `ZombieLooks` states its properties |
| Enemies.ZombieSprite | src/actors/enemies.py:85-90 | `sprite`: the sprite of the pose and direction, Walk3's for a pose without one; `ZombieLooks` states its properties |
| Enemies.ZombieLand | src/actors/enemies.py:119-125 | one obstacle of the landing loop: a solid or platform that is not a grave, reached by the zombie's bottom plus one while it is not rising, sets it on top with no fall speed; `ZombieLandAll` states that only the height and fall speed change |
| Enemies.ZombieLandAllSpec | src/actors/enemies.py:117-125 | landing either changes nothing, or stops the fall with the zombie on top of a solid or platform other than a grave; when the zombie is not rising and reaches such an obstacle, it always stops |
| Enemies.ZombieStepValid | src/actors/enemies.py:92-136 | every move keeps the zombie invariant |
| Enemies.AdvanceValid | src/actors/enemies.py:94-115 | the advance part of a move keeps the invariant |
| Enemies.SettleValid | src/actors/enemies.py:117-134 | the landing, gravity and clamp part of a move keeps the invariant |
| Enemies.SetStateValid | src/actors/enemies.py:152-176 | `_set_state` keeps the invariant |
| Enemies.ZombieAdvanceSpec | src/actors/enemies.py:94-115 | while distance is left and a stage is running, it only counts down. With the stages done it walks 3 in its direction and spends 3 of distance. Once the distance is used up it stands still and refills one frame at a time. It despawns and is removed exactly when the refill is complete |
| Enemies.ZombieStepBounds | src/actors/enemies.py:128-134 | after a move the fall speed is at most 8, and the zombie is inside a world large enough to hold it |
| Enemies.ZombiePoseSpec | src/actors/enemies.py:152-176 | a despawned zombie shows as despawned. A walking one cycles through three walk frames, 10 moves each, and its 30-frame counter wraps. A spawning one shows its first running stage. One at rest is idle |
| Enemies.ZombieProgress | src/actors/enemies.py:92-136 | every move of a live zombie uses up exactly one of its moves left. It despawns and asks for its removal exactly on the last one |
| Enemies.AdvanceDecides | src/actors/enemies.py:92-136 | a move's requests, distance, stages and despawning are decided by the advance alone |
| Enemies.ZombieRun | src/actors/enemies.py:92-136 | any run of moves keeps the three stages and their starts |
| Enemies.ZombieCountsDown | src/actors/enemies.py:92-136 | before its last move, a zombie stays valid and not despawned, and its moves left go down by the moves made |
| Enemies.ZombieLifetime | src/actors/enemies.py:92-136 | a zombie makes no request on any move before its last, and asks for its removal on the last |
| Enemies.ZombieLifetimeFromSpawn | src/actors/enemies.py:49-115 | a new zombie lives exactly for its spawn frames, then one move per 3 pixels of its distance (rounded up), then as many despawn frames as spawn frames, then the removing move |
| Enemies.Zombie.constructor | src/actors/enemies.py:49-75 | the fields of a new zombie are those of `ZombieInit` for the drawn distance and stages |
| Enemies.Zombie.InitSpawn | src/actors/enemies.py:138-150 | `_spawn` sets the first spawn pose and fills every stage and its start with the drawn lengths |
| Enemies.Zombie.Move | src/actors/enemies.py:92-136 | the zombie's fields and requests after `move` are those of `ZombieStep` |
| Enemies.Zombie.Land | src/actors/enemies.py:117-125 | the landing loop leaves the fields as `ZombieLandAll` says |
| Enemies.Zombie.Advance | src/actors/enemies.py:94-115 | the countdown and walk branch leaves the fields and requests as `ZombieAdvance` says |
| Enemies.Zombie.SetState | src/actors/enemies.py:152-176 | `_set_state` leaves the fields as `ZombieSetState` says |
| Enemies.Zombie.Despawn | src/actors/enemies.py:178-180 | `_despawn` marks the zombie despawned and asks for its removal |
| Enemies.PlantStepSpec | src/actors/enemies.py:238-277 | without an Arthur the plant does nothing. Otherwise it stays in place and faces the side Arthur is on. It shoots exactly when its countdown has run out: one eyeball from its position, and a new countdown equal to the draw. It shows one of its four shooting frames |
| Enemies.PlantStepValid | src/actors/enemies.py:249-266 | the countdown stays between 0 and its start, which is the initial 10 or a draw between 1 and 10 seconds |
| Enemies.ShootingStageAdvances | src/actors/enemies.py:268-277 | as the countdown runs down the shooting frame only advances, from the first at the start to the fourth at zero, and is always one of the four |
| Enemies.PlantHoldsFire | src/actors/enemies.py:249-251 | the plant does not shoot on any of the moves its countdown still covers |
| Enemies.PlantLooks | src/actors/enemies.py:189-218 | only a shooting frame outside 1 to 4 lacks a sprite, and it falls back to the right-facing idle sprite; the four shooting frames look different |
| Enemies.PlantSprite | src/actors/enemies.py:214-218 | `sprite`: the sprite of the pose and direction, the right-facing idle one when there is none; `PlantLooks` states its properties |
| Enemies.ShootingStage | src/actors/enemies.py:268-277 | the shooting frame by which quarter of the current countdown is left; `ShootingStageAdvances` states its properties |
| Enemies.PlantStep | src/actors/enemies.py:238-277 | `move` on the plant state: nothing without Arthur, otherwise face him, count down or shoot, and pick the frame; `PlantStepSpec` and `PlantStepValid` state its properties |
| Enemies.GetHero | src/actors/enemies.py:226-236 | returns the first Arthur among the actors, or `None` exactly when there is none |
| Enemies.Plant.constructor | src/actors/enemies.py:203-212 | a new plant faces right, idle, with its countdown and start at 10 |
| Enemies.Plant.Move | src/actors/enemies.py:238-247 | the plant's fields and requests after `move` are those of `PlantStep` |
| Enemies.Plant.Shoot | src/actors/enemies.py:249-266 | with the countdown run out, fires one eyeball with the given velocity and restarts the countdown at the draw; otherwise counts down by one |
| Enemies.Plant.SetState | src/actors/enemies.py:268-277 | the pose becomes the shooting frame of the countdown's quarter |
| Enemies.EyeballFlight | src/actors/enemies.py:288-294 | an eyeball keeps its velocity, is at its start plus n times its velocity after n moves, and keeps its sprite |
| Enemies.EyeballStep | src/actors/enemies.py:288-290 | one move adds the velocity to the position; `EyeballFlight` states n moves |
| Enemies.Eyeball.constructor | src/actors/enemies.py:280-283 | a new eyeball has the position and velocity it was given |
| Enemies.Eyeball.Move | src/actors/enemies.py:288-290 | a move adds the velocity to the position and asks nothing of the arena |
| LegacyZombies.IgnoresAllButGround | src/actors/zombie.py:106-118 | the older zombie lands on `Ground` only: any other collision leaves it as it was |
| LegacyZombies.NotAnEnemy | src/actors/zombie.py:7 | the older zombie is an actor but not an enemy, so torches, flames and Arthur's hurt test ignore it |
| LegacyZombies.UncappedGravity | src/actors/zombie.py:121-122 | its fall speed grows by 2 after landing, with no cap; away from the ground it grows by 2 on every move |
| LegacyZombies.FreeFall | src/actors/zombie.py:121-122 | over n moves without ground, its fall speed grows by 2n |
| LegacyZombies.Zombie.constructor | src/actors/zombie.py:39-64 | the fields of a new zombie are those of `ZombieInit` for the drawn distance and stages |
| LegacyZombies.Zombie.InitSpawn | src/actors/zombie.py:131-143 | `_spawn` sets the first spawn pose and fills every stage and its start with the drawn lengths |
| LegacyZombies.Zombie.Move | src/actors/zombie.py:81-129 | the zombie's fields and requests after `move` are those of `ZombieStep` for this zombie's variant |
| LegacyZombies.Zombie.Land | src/actors/zombie.py:106-118 | the landing loop leaves the fields as `ZombieLandAll` says for `Ground` only |
| LegacyZombies.Zombie.Advance | src/actors/zombie.py:83-104 | the countdown and walk branch leaves the fields and requests as `ZombieAdvance` says |
| LegacyZombies.Zombie.SetState | src/actors/zombie.py:145-169 | `_set_state` leaves the fields as `ZombieSetState` says |
| LegacyZombies.Zombie.Despawn | src/actors/zombie.py:171-173 | `_despawn` marks the zombie despawned and asks for its removal |
| ArthurLogic.HeroInit | src/actors/arthur.py:17-170 | a new Arthur satisfies the hero invariant |
| ArthurLogic.FirstLadder | src/actors/arthur.py:302-309 | `is_by_ladder` returns the first colliding ladder or win area, and `None` exactly when there is none |
| ArthurLogic.HeroSize | src/actors/arthur.py:260-270 | `size`: the table entry of the look, the right-facing idle entry for a look the table lacks, 2 pixels shorter without the armour; `SizeTable` and `UnlistedLook` state its properties |
| ArthurLogic.HeroSprite | src/actors/arthur.py:272-286 | `sprite`: none on every other frame while a living Arthur is invincible, otherwise the table entry (the right-facing idle one for a look the table lacks), 66 pixels lower without the armour; `SpriteBlinks` and `UnlistedLook` state its properties |
| ArthurLogic.OnGround | src/actors/arthur.py:289-300 | `is_on_ground`: some colliding jumpable actor has its top below Arthur's top while he is not rising |
| ArthurLogic.DeathPose | src/actors/arthur.py:339-363 | the dead look by the dying countdown: five windows of a sixth of the countdown each, the first alternating between Hurt and Dead1, then Dead2 to Dead5 |
| ArthurLogic.AttackGate | src/actors/arthur.py:188-190 | a torch is thrown only when the cooldown is 0, an attack key is held and Arthur is neither invincible, dead nor a frog; `StepCooldown` and `NoTorchWhileCooling` state its effect |
| ArthurLogic.HeroStep | src/actors/arthur.py:173-254 | `move` on the hero state: death countdown, attack, running, jump, ladder, collisions, falling out, bounds and the look, in that order; `HeroStepValid`, `DeathCauses`, `StepDying` and the other ArthurProps rows state its properties |
| ArthurLogic.Jump | src/actors/arthur.py:402-408 | a jump changes only the vertical speed |
| ArthurLogic.HurtBy | src/actors/arthur.py:489-519 | being hurt leaves the ladder grip, the torch and dying countdowns, the look, the facing and the frog counter untouched |
| ArthurLogic.KnockedBack | src/actors/arthur.py:501-506 | the knock-back sets the rise to 10 and ends the frog form, changing nothing else but the horizontal speed |
| ArthurLogic.Harmed | src/actors/arthur.py:508-517 | the damage part changes only the frog form, armour, death and fall cap |
| ArthurLogic.InstantDie | src/actors/arthur.py:527-534 | falling into a pit leaves the ladder grip, countdowns, look, facing, frog counter and win untouched |
| ArthurLogic.SolidCollision | src/actors/arthur.py:456-473 | a solid collision leaves the ladder grip, the torch and dying countdowns, the look, the facing and the frog counter untouched |
| ArthurLogic.PlatformCollision | src/actors/arthur.py:475-487 | a platform collision leaves the ladder grip, the torch and dying countdowns, the look, the facing and the frog counter untouched |
| ArthurLogic.Collide | src/actors/arthur.py:214-222 | one collision, of any kind, leaves the ladder grip, the torch and dying countdowns, the look, the facing and the frog counter untouched |
| ArthurLogic.CollideAll | src/actors/arthur.py:214-222 | the collision loop leaves the ladder grip, countdowns, look, facing and frog counter untouched |
| ArthurLogic.UseLadder | src/actors/arthur.py:536-568 | using a ladder changes only the grip, the horizontal position and the vertical speed |
| ArthurLogic.SetState | src/actors/arthur.py:311-393 | `set_state` changes only the look and facing, and always picks a look that both tables list |
| ArthurLogic.DeathPhase | src/actors/arthur.py:180-183 | death management changes only the dying countdown |
| ArthurLogic.TorchPhase | src/actors/arthur.py:188-193 | the attack step changes only the torch cooldown |
| ArthurLogic.RunPhase | src/actors/arthur.py:196-202 | running changes only the horizontal speed and the facing |
| ArthurLogic.LadderPhase | src/actors/arthur.py:208-211 | the climbing step changes only the grip, the horizontal position and the vertical speed |
| ArthurLogic.BoundsPhase | src/actors/arthur.py:228-232 | the fall-out check and clamp leave the grip, countdowns, look, facing, frog counter and win untouched |
| ArthurLogic.EndPhase | src/actors/arthur.py:237-254 | the end of `move` changes only the fall speed, invincibility, frog form, frog counter and fall cap |
| ArthurLogic.ResetSpeed | src/actors/arthur.py:176 | every move starts with the horizontal speed at zero and nothing else changed |
| ArthurLogic.Prepare | src/actors/arthur.py:176-193 | the first part of `move` zeroes the horizontal speed and changes otherwise only the two countdowns |
| ArthurLogic.Integrate | src/actors/arthur.py:224-225 | integrating changes only the position |
| ArthurLogic.Physics | src/actors/arthur.py:205-232 | climbing, collisions and the clamp leave the countdowns, look, facing and frog counter untouched |
| ArthurProps.SizeTable | src/actors/arthur.py:102-147 | every size is at least 18 by 10, and without armour Arthur is 2 pixels shorter |
| ArthurProps.UnlistedLook | src/actors/arthur.py:260-286 | a look missing from the tables falls back to the right-facing idle size and sprite |
| ArthurProps.SidesAlike | src/actors/arthur.py:260-270 | the size does not depend on the facing |
| ArthurProps.SpriteBlinks | src/actors/arthur.py:272-286 | while invincible and alive, Arthur is hidden on every other frame; without armour the sprite is the one 66 pixels lower on the sheet |
| ArthurProps.HurtCases | src/actors/arthur.py:489-519 | a hit is ignored while invincible, dead or won. Otherwise it knocks Arthur back 30 away from his facing and up 10, and restarts 90 invincibility frames. The frog spell only turns him into a frog. Any other hit takes his armour, or kills him without it and slows his fall to 3 |
| ArthurProps.InstantDeath | src/actors/arthur.py:527-534 | a pit always takes the armour and kills Arthur unless he has won, with full invincibility and the dying fall cap |
| ArthurProps.LandOnSolid | src/actors/arthur.py:456-463 | when not rising and with his middle above the top by more than 3, Arthur lands with his bottom on the solid's top, his speed along kept, and jumps again if a jump key is held |
| ArthurProps.SolidSides | src/actors/arthur.py:464-473 | otherwise a solid stops him from below, and then from the left and from the right, in that order, and only the first case that applies acts |
| ArthurProps.PlatformOneWay | src/actors/arthur.py:475-487 | a platform only catches Arthur coming down from above and not on a ladder, with his bottom on its top; rising, climbing or below it he passes through |
| ArthurProps.GeometryMoves | src/actors/arthur.py:214-218 | solids and platforms change only position and speed |
| ArthurProps.CollideSpec | src/actors/arthur.py:214-222 | one collision keeps the invariant's countdown range. It never revives, un-wins or re-arms Arthur. An armoured or invincible Arthur survives it. While invincible nothing about his health changes. Only the frog spell makes a frog |
| ArthurProps.CollideAllSpec | src/actors/arthur.py:214-222 | the same holds for the whole collision loop, whatever the collisions and their order |
| ArthurProps.StepHalves | src/actors/arthur.py:173-254 | a move is the clamp, `set_state` and the end phase applied to the unclamped motion |
| ArthurProps.MidValidBeforeClamp | src/actors/arthur.py:173-232 | halfway through a move, the invariant's mid-move form holds |
| ArthurProps.EndValid | src/actors/arthur.py:235-254 | the end of a move restores the full invariant |
| ArthurProps.HeroStepValid | src/actors/arthur.py:173-254 | every move keeps the hero invariant: countdowns in range, the right fall cap, the look in the tables, no armour when dead |
| ArthurProps.FallCap | src/actors/arthur.py:237 | after a move Arthur never falls faster than his fall cap |
| ArthurProps.EndCap | src/actors/arthur.py:237 | the gravity step never passes the fall cap |
| ArthurProps.DeathCauses | src/actors/arthur.py:214-232 | falling out of the world strips the armour and kills Arthur unless he has won; an armoured live Arthur who stays in the world survives the move; death, victory and the loss of armour are never undone |
| ArthurProps.InvincibleMove | src/actors/arthur.py:239-254 | while invincible and in the world, a move keeps armour, life and frog form, and takes one invincibility frame off |
| ArthurProps.StaysInWorld | src/actors/arthur.py:228-232 | in a world large enough to hold him, Arthur ends every move inside it |
| ArthurProps.Facing | src/actors/arthur.py:196-202 | one run key turns a live, not yet winning Arthur that way; both keys show him facing right; neither keeps his facing |
| ArthurProps.LadderGrip | src/actors/arthur.py:208-211 | Arthur grips only beside a ladder and not as a frog, and then is centred on the first ladder and climbs at 4 or stands still |
| ArthurProps.LadderKeys | src/actors/arthur.py:536-568 | dead or won, the ladder does nothing. Otherwise the grip holds when climb or descend is held, or when it was held and no jump or run key is. Gripping, the vertical speed is the descend key's 4 minus the climb key's 4 |
| ArthurProps.StepRequests | src/actors/arthur.py:180-193 | a move asks for Arthur's removal exactly when his dying countdown is over, and throws one torch from his centre exactly when the attack gate is open and he is neither climbing nor won |
| ArthurProps.StepCooldown | src/actors/arthur.py:188-193 | the torch cooldown restarts at 10 when the gate opens and otherwise runs down to 0 |
| ArthurProps.NoTorchWhileCooling | src/actors/arthur.py:188-193 | no torch is thrown while the cooldown runs |
| ArthurProps.CoolingDown | src/actors/arthur.py:192-193 | over any moves the cooldown covers, the cooldown drops by one per move |
| ArthurProps.NoTorchDuringCooldown | src/actors/arthur.py:188-193 | no torch is thrown on any move the cooldown covers |
| ArthurProps.TorchesAreSpaced | src/actors/arthur.py:188-193 | after a throw, at least 10 moves pass before the next |
| ArthurProps.StepDying | src/actors/arthur.py:180-183 | a dead Arthur stays dead and his dying countdown drops by one until zero; a live one's does not change |
| ArthurProps.Dying | src/actors/arthur.py:180-183 | over the moves the dying countdown covers, Arthur stays dead and it counts down one per move |
| ArthurProps.NotYetRemoved | src/actors/arthur.py:180-181 | a dying Arthur asks for his removal on none of the moves the countdown covers |
| ArthurProps.RemovedAtLast | src/actors/arthur.py:180-181 | once the dying countdown is used up, the next move removes him |
| ArthurProps.FrogCountdown | src/actors/arthur.py:243-254 | the "l" key makes Arthur a frog, his counter restarted at 15000 and one frame of it already spent, with the frog fall cap of 3; when the frog counter is out and no spell hits, he is human again with the full counter and fall cap 8 |
| ArthurScenarios.Repeat | src/actors/arthur.py:574-588 | n copies of the same tick |
| ArthurScenarios.RunRepeat | src/actors/arthur.py:574-588 | n+1 identical ticks are n of them followed by one more move |
| ArthurScenarios.NoKeys | src/actors/arthur.py:574-588 | with no keys held, no action is pressed |
| ArthurScenarios.GeometryOnlyMoves | src/actors/arthur.py:214-218 | colliding only with solids and platforms changes only position and speed |
| ArthurScenarios.QuietStep | src/actors/arthur.py:173-254 | with no keys and only geometry around, a plain Arthur's move is the collision motion, then gravity capped at 8, then the pose that motion shows |
| ArthurScenarios.QuietStaysPlain | src/actors/arthur.py:173-254 | such a move keeps Arthur plain: armoured, alive, not won, not a frog, not climbing |
| ArthurScenarios.Gravity | src/actors/arthur.py:574-588 | `test_gravity`: from (100, 100) in an empty 500 by 500 world Arthur is at heights 100, 102, 106 and 112 after four moves |
| ArthurScenarios.FromUpLanding | src/actors/arthur.py:590-602 | the collision motion puts Arthur from (242, 158) on the grave at height 155 |
| ArthurScenarios.CollisionFromUp | src/actors/arthur.py:590-602 | `test_collision_from_up`: one move leaves him at (242, 155) |
| ArthurScenarios.FromLeftPush | src/actors/arthur.py:607-624 | the grave pushes Arthur from 225 back to 222 |
| ArthurScenarios.FromLeftGround | src/actors/arthur.py:607-624 | with the ground too, the collision motion only pushes him back to 222 |
| ArthurScenarios.GraveFromLeft | src/actors/arthur.py:607-624 | `test_grave_from_left`: after one move his right side touches the grave at 242 and his height is unchanged |
| ArthurScenarios.FromLeftStands | src/actors/arthur.py:607-624 | there he stands on the ground |
| ArthurScenarios.PlatformMotion | src/actors/arthur.py:626-660 | a plain Arthur is caught by the test platform when not rising and above it, and otherwise moves by his fall speed |
| ArthurScenarios.PlatformStep | src/actors/arthur.py:626-660 | in the test world a plain Arthur's move is that motion followed by gravity and his pose |
| ArthurScenarios.RestsOnPlatform | src/actors/arthur.py:626-642 | Arthur standing on the test platform stays there |
| ArthurScenarios.StaysOnPlatform | src/actors/arthur.py:626-642 | he stays there for any number of moves |
| ArthurScenarios.DropOntoPlatform | src/actors/arthur.py:626-642 | from (678, 118) one move puts him on the platform |
| ArthurScenarios.PlatformFromTop | src/actors/arthur.py:626-642 | `test_collision_platform_from_top`: after three moves he is at (678, 91) |
| ArthurScenarios.RisingStep | src/actors/arthur.py:644-660 | while rising below the platform, he passes through it and slows by 2 |
| ArthurScenarios.Rise | src/actors/arthur.py:644-660 | thrown up at 15 from (678, 152), he is at height 88 and falling at 1 after eight moves |
| ArthurScenarios.Landing | src/actors/arthur.py:644-660 | two more moves put him on the platform |
| ArthurScenarios.LandsJumping | src/actors/arthur.py:644-660 | the first of them lands him in the jumping pose |
| ArthurScenarios.Settles | src/actors/arthur.py:644-660 | the second shows him standing |
| ArthurScenarios.PlatformFromBottom | src/actors/arthur.py:644-660 | `test_collision_platform_from_bottom`: after 10 moves he rests on the platform, and after 20 he is at (678, 91) |
| ArthurScenarios.AfterRest | src/actors/arthur.py:626-660 | once at rest on the platform, he stays there for good |
| ArthurActor.Arthur.constructor | src/actors/arthur.py:17-170 | the fields of a new Arthur are those of `HeroInit` |
| ArthurActor.Arthur.Move | src/actors/arthur.py:173-254 | the fields and requests after `move` are those of `HeroStep` |
| ArthurActor.Arthur.Begin | src/actors/arthur.py:176-193 | the first part of `move` leaves the fields and requests as `Prepare` says |
| ArthurActor.Arthur.Physics | src/actors/arthur.py:205-232 | climbing, collisions and the clamp leave the fields as `Physics` says |
| ArthurActor.Arthur.ManageDeath | src/actors/arthur.py:180-183 | death management as `DeathPhase` says |
| ArthurActor.Arthur.Attack | src/actors/arthur.py:188-193 | the attack step as `TorchPhase` says |
| ArthurActor.Arthur.Run | src/actors/arthur.py:196-202 | running as `RunPhase` says |
| ArthurActor.Arthur.Climb | src/actors/arthur.py:208-211 | climbing as `LadderPhase` says |
| ArthurActor.Arthur.StayInside | src/actors/arthur.py:228-232 | the fall-out check and clamp as `BoundsPhase` says |
| ArthurActor.Arthur.Collisions | src/actors/arthur.py:214-222 | the collision loop as `CollideAll` says |
| ArthurActor.Arthur.CollideWith | src/actors/arthur.py:215-222 | one collision as `Collide` says |
| ArthurActor.Arthur.End | src/actors/arthur.py:237-254 | the end of `move` as `EndPhase` says |
| ArthurActor.Arthur.IsOnGround | src/actors/arthur.py:289-300 | true exactly when Arthur stands on a jumpable background actor he collides with |
| ArthurActor.Arthur.IsByLadder | src/actors/arthur.py:302-309 | returns the first colliding ladder, as `FirstLadder` does |
| ArthurActor.Arthur.SetState | src/actors/arthur.py:311-393 | `set_state` as `SetState` says |
| ArthurActor.Arthur.Jump | src/actors/arthur.py:402-408 | a jump as `Jump` says |
| ArthurActor.Arthur.UseTorch | src/actors/arthur.py:410-417 | asks for a torch as `UseTorch` says |
| ArthurActor.Arthur.SolidCollision | src/actors/arthur.py:421-473 | a solid collision as `SolidCollision` says |
| ArthurActor.Arthur.PlatformCollision | src/actors/arthur.py:475-487 | a platform collision as `PlatformCollision` says |
| ArthurActor.Arthur.Hurt | src/actors/arthur.py:489-519 | `hurt` as `HurtBy` says |
| ArthurActor.Arthur.KnockBack | src/actors/arthur.py:501-506 | the knock-back as `KnockedBack` says |
| ArthurActor.Arthur.Harm | src/actors/arthur.py:508-517 | the damage as `Harmed` says |
| ArthurActor.Arthur.LoseArmour | src/actors/arthur.py:521-522 | only the armour is lost |
| ArthurActor.Arthur.Die | src/actors/arthur.py:524-525 | only the death flag is set |
| ArthurActor.Arthur.InstantDie | src/actors/arthur.py:527-534 | `instant_die` as `InstantDie` says |
| ArthurActor.Arthur.UseLadder | src/actors/arthur.py:536-568 | `use_ladder` as `UseLadder` says |
| Game.KeyValue | src/framework/gnggame.py:138 | `option, value = line.split(": ")` succeeds exactly when the line has one separator; then the line is option, separator, value, and neither part holds the separator |
| Game.StripAll | src/framework/gnggame.py:136 | every line is stripped, one for one |
| Game.BlockEnd | src/framework/gnggame.py:149-150 | the block's lines run up to the first "]" line, and there is none when no line is "]" |
| Game.EnemyEntry | src/framework/gnggame.py:155-168 | options other than Plant, Zombie and Magician are skipped; an enemy is placed only when its first value is a number |
| Game.PlatformKind | src/framework/gnggame.py:180-190 | the platform options name only background classes, and never BackgroundActor or BackgroundSolid itself |
| Game.FourInts | src/framework/gnggame.py:179 | `x, y, w, h = (int(v) for v in ...)` succeeds exactly with four numbers, and gives their values |
| Game.PlatformEntry | src/framework/gnggame.py:178-190 | a platform line must hold four numbers; it places an actor exactly when its option is a platform class |
| Game.BlockItems | src/framework/gnggame.py:152-190 | reading a block only appends, at most one actor per line |
| Game.ManageFile | src/framework/gnggame.py:133-190 | the imperative loader returns what `LoadFile` says; the LevelFiles rows state what that is: written levels read back with comment and blank lines anywhere (`CommentedRender`), comments skipped (`CommentSkipped`, `LoadDecomment`), unknown options ignored (`UnknownOption`), and the errors `NotKeyValue`, `NotWellFormed` and an unclosed block (`NotKeyValueLine`, `BlockNotOpened`, `BlockNotClosed`) |
| Game.LoadFile | src/framework/gnggame.py:133-190 | `_manage_file` on the file's lines: strip every line, then read them on top of the given settings |
| Game.Load | src/framework/gnggame.py:136-147 | one stripped line at a time: skip a comment or blank line, fail with `NotKeyValue` on a line that does not split once into key and value, otherwise handle the option |
| Game.LoadOption | src/framework/gnggame.py:139-190 | one option: the start, size and lives settings, the two blocks (which must open with "[" and close with "]"), and any other option ignored |
| Game.StripLines | src/framework/gnggame.py:135-136 | the loop strips each line, as `StripAll` |
| Game.ApplyOption | src/framework/gnggame.py:139-190 | one option line, including a block it opens, leaves the loader where `LoadOption` says, or fails with its error |
| Game.ReadBlock | src/framework/gnggame.py:148-150 | the block is the lines before the first "]", and the reader resumes after it; it fails exactly when there is no "]" |
| Game.ReadEntries | src/framework/gnggame.py:152-190 | the entry loop returns what `BlockItems` says |
| Game.Setup | src/framework/gnggame.py:31-55 | construction succeeds only with a size and a start that is a pair. Without a file, it fails for want of a size exactly when none was passed. A file that cannot be read fails construction with the loader's error |
| Game.StaticMembers | src/framework/gnggame.py:129-131 | the static actors enter the arena one for one, enemies first, in file order |
| Game.NewSession | src/framework/gnggame.py:31-66 | a new game has as many lives as the level and the same maximum; the statics and one Arthur are in the arena; it is neither over nor won |
| Game.WalkerAt | src/framework/gnggame.py:76-82 | a zombie walking right appears the drawn distance to the hero's left, one walking left to his right, at his height |
| Game.Reset | src/framework/gnggame.py:97-110 | after a reset the arena holds exactly the statics and a fresh Arthur; one life is spent; over, won and the maximum are unchanged |
| Game.GngGame.constructor | src/framework/gnggame.py:38-66 | the fields of a new game are those of `NewSession` |
| Game.GngGame.Create | src/framework/gnggame.py:31-66 | constructing from the arguments and an optional file fails exactly when `Setup` does, with its error, and otherwise gives the session of `NewSession` |
| Game.GngGame.SpawnStaticActors | src/framework/gnggame.py:129-131 | the statics are appended to the arena's actors |
| Game.GngGame.SpawnHero | src/framework/gnggame.py:60-61 | a fresh Arthur is created and appended to the arena's actors |
| Game.GngGame.KillAll | src/framework/gnggame.py:125-127 | every actor leaves the arena |
| Game.GngGame.ResetGame | src/framework/gnggame.py:97-110 | `reset_game` leaves the session as `Reset` says |
| Game.GngGame.Tick | src/framework/gnggame.py:69-94 | `tick` leaves the session as `SessionTick` says |
| Game.SessionTick | src/framework/gnggame.py:69-94 | `tick` on the session: record the arena's actors, then, while the game runs, the zombie draw, the win check and the death check in that order; `TickValid`, `TickLives`, `GameOverWhen`, `WonAndOverLatch` and `WalkerJoins` state its properties |
| Game.SpawnWalker | src/framework/gnggame.py:76-82 | a drawn zombie joins the roster beside Arthur |
| Game.CheckWon | src/framework/gnggame.py:84-86 | the game is won when Arthur has won |
| Game.CheckHero | src/framework/gnggame.py:88-94 | with Arthur gone, reset the game while a life is left, otherwise end it and drop the hero |
| Game.StaticMembersSnoc | src/framework/gnggame.py:129-131 | spawning one more static appends one member |
| Game.TypeColour | src/framework/gnggame.py:330-348 | every colour component is between 0 and 255, and a class is drawn black exactly when it is not one of the six coloured background classes |
| GameProps.NewSessionValid | src/framework/gnggame.py:31-66 | a new session satisfies the bookkeeping invariant: an Arthur exactly while not over, the newest one, and one life spent per Arthur after the first |
| GameProps.TickValid | src/framework/gnggame.py:69-94 | every tick keeps the invariant |
| GameProps.TickLives | src/framework/gnggame.py:85-94 | a tick spends a life exactly when the game runs, Arthur is gone and a life is left, and then the arena holds only the statics and a fresh Arthur; lives never drop below zero |
| GameProps.GameOverWhen | src/framework/gnggame.py:88-94 | the game becomes over exactly when it runs, Arthur is gone and no life is left, and the hero is then dropped |
| GameProps.WonAndOverLatch | src/framework/gnggame.py:73-86 | a running game becomes won exactly when Arthur has won; an over or won game only records the arena's actors |
| GameProps.WalkerJoins | src/framework/gnggame.py:76-82 | in a running game, a zombie drawn while Arthur is still in the arena joins the arena's actors beside him |
| GameProps.RunBudget | src/framework/gnggame.py:69-110 | over a whole game the invariant holds, lives only go down and never below zero, each new Arthur cost exactly one life, and there are never more than the maximum plus one |
| GameProps.OverStaysOver | src/framework/gnggame.py:73 | once over, a game stays over with its lives and hero untouched |
| GameProps.SetupWithoutFile | src/framework/gnggame.py:38-52 | without a file, construction needs both arguments and a start that is a pair, and then uses them with two lives and nothing placed; without a start it fails for that |
| GameProps.SetupWithFile | src/framework/gnggame.py:31-52 | with a file, construction fails when the file cannot be read, then without a size, then without a hero start, then with a start that is not a pair, and otherwise has the file's settings over the arguments |
| LevelFiles.Shows | src/framework/gnggame.py:141 | each number written as `int()` reads it |
| LevelFiles.EntryLines | src/framework/gnggame.py:152-190 | one entry line per placed actor, in order |
| LevelFiles.LineStripped | src/framework/gnggame.py:136-137 | a well-formed `key: value` line is unchanged by `strip`, is not skipped as a comment and does not close a block |
| LevelFiles.LineSplit | src/framework/gnggame.py:138 | splitting such a line gives back its key and value |
| LevelFiles.ShowFree | src/framework/gnggame.py:141 | a written number holds no comma or colon |
| LevelFiles.ShowsFree | src/framework/gnggame.py:141 | nor does any of a list of them |
| LevelFiles.ShowsParse | src/framework/gnggame.py:141 | `int()` reads a list of written numbers back |
| LevelFiles.NumbersSplit | src/framework/gnggame.py:141 | splitting `1, 2, 3` at ", " gives back the written numbers |
| LevelFiles.NumbersValue | src/framework/gnggame.py:141 | such a value is not empty, does not end with white space and holds no colon |
| LevelFiles.TwoNumbers | src/framework/gnggame.py:157-158 | a written position reads back as its two coordinates |
| LevelFiles.FourNumbers | src/framework/gnggame.py:179 | a written platform box reads back as its four numbers |
| LevelFiles.EntryGood | src/framework/gnggame.py:152-154 | an actor that fits a block gives a well-formed line |
| LevelFiles.EntryKeyValue | src/framework/gnggame.py:154 | its line splits back into its option and value |
| LevelFiles.EntryParsed | src/framework/gnggame.py:155-190 | and the option and value read back as the actor |
| LevelFiles.PlantParsed | src/framework/gnggame.py:155-158 | a written `Plant` entry reads back as a plant at its position |
| LevelFiles.MagicianParsed | src/framework/gnggame.py:164-167 | a written `Magician` entry reads back as a magician at its position |
| LevelFiles.ZombieParsed | src/framework/gnggame.py:159-163 | a written `Zombie` entry reads back with its position and direction, for a direction with no separator in it and no white space at its ends |
| LevelFiles.BlockParsed | src/framework/gnggame.py:178-190 | a written platform entry reads back as that background class with its box |
| LevelFiles.EntryStep | src/framework/gnggame.py:152-190 | reading one written entry appends its actor and goes on with the rest |
| LevelFiles.EntriesRead | src/framework/gnggame.py:152-190 | a block's written entries read back as its actors, after those already read |
| LevelFiles.EntriesOpen | src/framework/gnggame.py:149 | no written entry closes the block |
| LevelFiles.BlockEndAfter | src/framework/gnggame.py:149-150 | the block ends at the first "]" after lines that are not "]" |
| LevelFiles.LoadLine | src/framework/gnggame.py:136-139 | a line that is not a comment and splits into key and value is handled as that option |
| LevelFiles.BlockOption | src/framework/gnggame.py:146-190 | a block option whose lines up to "]" read as some actors adds them to the block's list and goes on after the "]" |
| LevelFiles.BlockBody | src/framework/gnggame.py:146-190 | a block option followed by written entries and "]" adds exactly those actors |
| LevelFiles.BlockRead | src/framework/gnggame.py:146-190 | a written `Enemies` or `Platforms` block reads back as its actors, and the loader goes on after it |
| LevelFiles.SettingRead | src/framework/gnggame.py:140-143 | a written start or size line reads back as the setting |
| LevelFiles.LivesRead | src/framework/gnggame.py:144-145 | a written lives line reads back as the lives |
| LevelFiles.StripAllAppend | src/framework/gnggame.py:135-136 | stripping lines one by one distributes over a concatenation |
| LevelFiles.RenderStripped | src/framework/gnggame.py:135-136 | a written level file is unchanged by stripping its lines |
| LevelFiles.SettingsRead | src/framework/gnggame.py:38-52 | the start, size and lives lines at a file's head replace the constructor's arguments; a setting the file does not write keeps its argument |
| LevelFiles.BlocksRead | src/framework/gnggame.py:146-190 | the two blocks at its end read back as the enemies and platforms |
| LevelFiles.LoadRender | src/framework/gnggame.py:133-190 | the loader reads any level written in its format back to exactly the settings it was written from |
| LevelFiles.Override | src/framework/gnggame.py:38-52 | a setting after the file: the file's value when it writes one, the constructor's argument otherwise |
| LevelFiles.LoadRenderOver | src/framework/gnggame.py:38-52 | a written level read on top of any start and size arguments gives its own settings, with the arguments standing in for a start or size it does not write |
| LevelFiles.DecommentAppend | src/framework/gnggame.py:137 | dropping comment and blank lines distributes over a concatenation |
| LevelFiles.DecommentLines | src/framework/gnggame.py:137 | what is left after dropping comment and blank lines are lines of the file and none is a comment or blank |
| LevelFiles.BlockItemsDecomment | src/framework/gnggame.py:137 | comment and blank lines inside a block change nothing |
| LevelFiles.CloseDecomment | src/framework/gnggame.py:149-150 | dropping comment and blank lines keeps whether a block is closed, and closes it after the same entries |
| LevelFiles.OptionDecomment | src/framework/gnggame.py:137 | comment and blank lines after a setting change nothing |
| LevelFiles.BlockDecomment | src/framework/gnggame.py:137 | comment and blank lines in and after a block change nothing |
| LevelFiles.LoadDecomment | src/framework/gnggame.py:136-137 | the loader gives the same result with every comment and blank line dropped |
| LevelFiles.CommentedRender | src/framework/gnggame.py:38-52 | a file that is a written level once comment and blank lines are dropped, anywhere in it, reads back to that level's settings over the arguments |
| LevelFiles.CommentSkipped | src/framework/gnggame.py:137 | a comment or blank line is skipped, at the top level and in a block |
| LevelFiles.NotKeyValueLine | src/framework/gnggame.py:138 | a line outside a comment that does not split once at ": " fails with `NotKeyValue`, at the top level and in a block |
| LevelFiles.BlockNotOpened | src/framework/gnggame.py:146-147 | an `Enemies` or `Platforms` option whose value is not "[" fails with `NotWellFormed` |
| LevelFiles.BlockNotClosed | src/framework/gnggame.py:148-150 | a block with no "]" after it fails as unclosed |
| LevelFiles.UnknownOption | src/framework/gnggame.py:139-146 | an option other than the five the loader knows is ignored, and reading goes on |
| LevelFiles.SetupFromRender | src/framework/gnggame.py:31-52 | constructing a game from a written level succeeds exactly when a size and a pair start come from the level or the arguments, and then has the level's settings completed by the arguments; without a size it fails with `NoSize` |
| Gui.ViewInside | src/framework/gui.py:20-45 | in an arena at least as large as the view, `move` leaves the view inside it |
| Gui.SmallArena | src/framework/gui.py:42-45 | in an arena narrower than the view, the cap wins: the view sits at `int(arena - view)`, zero or negative |
| Gui.FollowCentres | src/framework/gui.py:22-23 | a view with an actor is centred on it, as long as that stays in the arena |
| Gui.FollowIgnoresKeys | src/framework/gui.py:22-23 | with an actor attached, neither the old position nor the keys matter |
| Gui.KeysMove | src/framework/gui.py:26-40 | without an actor, K moves the view down, I up, L right and J left by its speed; of each pair K and L win |
| Gui.NoKeysNoMove | src/framework/gui.py:20-45 | without an actor and keys, a view inside the arena stays put |
| Gui.MoveSettles | src/framework/gui.py:42-45 | a second `move` without actor and keys changes nothing |
| Gui.View.constructor | src/framework/gui.py:7-11 | a new view has its position, size, speed 2 and actor |
| Gui.View.Move | src/framework/gui.py:20-45 | the position after `move` is `ViewMove` of the old one; size, speed and actor stay |
| Gui.KeyShift | src/framework/gui.py:26-37 | the shift the I, J, K and L keys ask for, with K over I and L over J; `KeysMove` states its properties |
| Gui.ViewMove | src/framework/gui.py:20-45 | `move` on the view position: centre on the actor or shift by the keys, then clamp into the arena; `ViewInside`, `FollowCentres`, `KeysMove`, `NoKeysNoMove` and `MoveSettles` state its properties |
| Gui.View.SetActor | src/framework/gui.py:47-51 | `get_actor` returns the actor set from now on, and nothing else changes |
| Gui.GuiElement.constructor | src/framework/gui.py:54-57 | a new element has its position and size |
| Gui.GuiElement.GetCenter | src/framework/gui.py:68-69 | `get_center` is `center` of the element's box, and lies inside it when the size is not negative |

## Left out

- The arena (`src/framework/actor.py`) is not part of this model. That covers collision detection, the actor list, `spawn` and `kill`, and the frame loop. An actor sees one `Tick` and hands back requests. The session sees only the actors left after the arena's tick.
- `Magician` and `MagicProjectile` are imported from `src/actors/enemies.py` but not defined in its text. They appear only as class tags. The Grave's `spawn_magician` and the loader's `Magician` entries are requests and placements, not actors with behaviour.
- `Magician` and `MagicProjectile` are taken to be direct subclasses of `Enemy`, because their definitions are not part of this model. Several results depend on that: torches and flames kill them (`TorchKillsEnemies`, `FlameKillsSpec`); Arthur's collision loop passes them to `hurt` (src/actors/arthur.py:219); and a `MagicProjectile` reaches the frog branch of `HurtCases` (src/actors/arthur.py:507-508). If either class does not derive from `Enemy`, those results do not hold for it.
- Random draws become parameters, with their ranges as preconditions. That covers the zombie's distance and stage lengths, the plant's new countdown, the walker spawned by `tick` (its `randrange(500)`, side and distance), and Python's `random` itself.
- The plant's aim (`atan`, `cos`, `sin` and the `or 1` guard) is floating point. The eyeball's velocity is passed in, and the model shows only that it is the one fired.
- The blink of Arthur's first death window depends on a float division of the frame counter. It is a bit of the `Tick`.
- File I/O: a level file is a sequence of lines. A block with no closing "]" makes the source read empty lines forever; here it is the error `Unterminated`.
- `int()` also accepts non-ASCII Unicode digits. The model accepts ASCII digits and underscores only.
- `Lives` is not checked by the source, so a negative value is accepted as written. The model keeps that too.
- A `BackgroundSolid` line in a `Platforms` block is silently skipped, as in the source, since its `match` has no such case.
- `reset_game` spawns the same static actor objects again, with whatever state they had (a grave's hit count, a despawned zombie). The session tracks which statics are in the arena, not their inner state.
- `GngGame` also has `_paused`, the `GngGui` drawing and HUD, the audio, `TextElement`, and the drawing of `GuiElement` and its sub-elements. None of these is modelled: they are rendering and input, not simulation.
- The view's `move` reads the attached actor's position through the actor. Here that position is a parameter.
- The "l" key moves the view right, and it is also Arthur's frog cheat. Each is modelled where it is read.
- The entry points `game.py` and `src/game.py` (the window, the main loop, the key capture) are not modelled.
- PyStrings.Strip: its contract gives only that the result has no white space at either end; that it is the middle slice of the input is stated separately by `StripShape`.
- PyStrings.ParseInt: its contract gives only necessary conditions for success; the positive direction is stated separately by `ParseShow`, `ParseDigits` and `ParseNegative`.
- Game.EnemyEntry: its contract does not state the values read; `EntryParsed` states them for every entry the format can write.
