# dose-response, modelled in Dafny

dose-response is a turn-based roguelike about addiction. The player walks a forest, takes doses, eats and fights
the monsters of their own mind. Its repository holds several generations of the same game. This project models
the game logic of each generation on its own terms: the generations are not meant to agree with each other.

- An early Rust generation with generated component managers: component_template.rs, src/ecm.rs, the root
  systems.rs on src/components.rs, and src/systems.rs with src/entity_manager.rs, src/systems/movement.rs,
  src/systems/turn_tick_counter.rs and src/systems/fade_out.rs.
- A Python prototype: entity_component_manager.py, game.py and systems/ai.py.
- The level-based Rust generation: src/monster.rs, src/ai.rs, src/main.rs, src/game_state.rs, src/world.rs,
  src/level.rs, src/generators/forrest.rs and src/world_gen.rs.
- Its value types and display: src/ranged_int.rs, src/point.rs, src/animation.rs, src/engine.rs, src/settings.rs
  and src/graphic.rs.

Each source file is one module. Code that changes state step by step is a class with `modifies` clauses, or a
method whose loops carry invariants. Each such method is proved against a function of the old state, and the
properties the game relies on are proved as lemmas about those functions. Pure code is datatypes, functions and
lemmas.

| module | models |
|---|---|
| ComponentKinds, ComponentTemplate | component_template.rs |
| Ecm | src/ecm.rs |
| PositionCache | the position cache shared by component_template.rs and src/ecm.rs |
| EntityComponentManager | entity_component_manager.py |
| EntityManager | src/entity_manager.rs |
| Components | src/components.rs |
| Systems | src/systems.rs |
| RootSystems | systems.rs |
| Commands | the `Command` enum and `from_str` of both systems files |
| Movement | src/systems/movement.rs |
| TurnTickCounter | src/systems/turn_tick_counter.rs |
| FadeOut | src/systems/fade_out.rs |
| GridMap | the level map the systems talk to |
| Monster | src/monster.rs |
| Ai | src/ai.rs |
| PyAi | systems/ai.py |
| GamePy | game.py |
| MainRs | the game loop of src/main.rs, with its `Timer` |
| GameStateRs | src/game_state.rs |
| RangedInt | src/ranged_int.rs |
| Point | src/point.rs |
| Animation | src/animation.rs |
| Random | the random generator and `WeightedChoice`, as a stream of draws |
| Forrest | src/generators/forrest.rs |
| WorldGen | src/world_gen.rs |
| World | src/world.rs |
| LevelRs | src/level.rs |
| Grid | the row-major cell numbering of the maps and buffers |
| Engine | src/engine.rs |
| Settings | src/settings.rs |
| Graphic | src/graphic.rs |
| Text, Base | decimal numbers, splitting into lines, Option and Result |

Two behaviours of the code that a reader may not expect, and that the model keeps:

- The pack howl of src/ai.rs:88-104 sets every pack attacker in range to CheckingOut, including one that is
  already Chasing.
- src/ecm.rs:43-49 leaves removed entities in the position cache (see Findings).

## Model

| member | source | states |
|---|---|---|
| Ai.NoopAction | src/ai.rs:172-179 | `noop_action` keeps the state and the maximum AP and stays in place |
| Ai.ChasingAction | src/ai.rs:211-217 | `chasing_action` attacks the target with the actor's damage exactly when it is at tile distance 1, and otherwise moves to it |
| Ai.IdleDestination | src/ai.rs:181-209 | `idle_destination` is the last waypoint of a non-empty path, else the random cell at range 2..8, else the random neighbour |
| Ai.StateAction | src/ai.rs:53-61 | Chasing gives the chasing action, Idle a move to the idle destination, CheckingOut(p) a move to p |
| Ai.LoneAttackerAct | src/ai.rs:32-63 | NoOp gives `noop_action`; otherwise the new state is Chasing iff the player is within the chasing distance, else Idle, the maximum AP is the actor's, and the action follows the state |
| Ai.PackState | src/ai.rs:74-81 | Chasing iff the player is in range; a chase that lost the player goes Idle; any other state is kept |
| Ai.CheckingOutPersists | src/ai.rs:74-111 | a pack monster checking out a spot keeps heading there until the player comes in range |
| Ai.Creature.constructor | src/ai.rs:92-100 | a monster of the world with the given position, behaviour and state |
| Ai.FirstAt | src/ai.rs:99 | `monster_on_pos` finds the first monster standing at the cell, if any |
| Ai.Howlees | src/ai.rs:90-96 | the collected positions are those of the pack attackers in the howling rectangle other than the howler's own cell |
| Ai.Howl | src/ai.rs:98-102 | the monster first found at each collected position is set to CheckingOut(player), whatever its state; every other monster keeps its state |
| Ai.HowlReach | src/ai.rs:88-104 | with one monster per cell, the howl reaches exactly the other pack attackers in the area |
| Ai.PackAttackerAct | src/ai.rs:65-115 | NoOp gives `noop_action` and alerts nobody; otherwise the state follows the pack rule, a chasing monster howls before computing its own action, and the action follows the state |
| Ai.FriendlyAct | src/ai.rs:117-161 | NoOp gives `noop_action`; otherwise the state is kept, the maximum AP is the estranged one when the player is high, else the player's, and the move goes near the player when accompanying, stays put when the player is near and not high, else to the idle destination; it never attacks |
| Ai.NoopAct | src/ai.rs:163-170 | `noop_act` stays in place and keeps the state |
| Ai.AttacksOnlyAdjacent | src/ai.rs:32-217 | no lone or pack attacker attacks unless the player is adjacent |
| Animation.KillAndShatterIsEmpty | src/animation.rs:13-18 | the two flags are disjoint, so `KILL & SHATTER` is no effect at all while `KILL \| SHATTER` holds both |
| Animation.ArmPointDistance | src/animation.rs:175-308 | the point at offset `k` on any arm of a cross or an X is exactly `\|k\|` tiles from the centre |
| Animation.Walk | src/animation.rs:171-189 | walking an arm from `from` to `to` gives one point per offset in between, in order, each at its offset |
| Animation.WalkStep | src/animation.rs:173-175 | a walk with points left yields the point at `from` and goes on from `from + 1` |
| Animation.CrossShape | src/animation.rs:154-193 | a cross of range r has 4r + 2 points, all within tile distance r: first the row through the centre from left to right, then the column from top to bottom, so the centre comes twice |
| Animation.ExShape | src/animation.rs:273-315 | an X of range r has 4r + 2 points, all within tile distance r: first the rising diagonal from the lower left, then the falling one from the upper left, so the centre comes twice |
| Animation.FirstArmStep | src/animation.rs:171-175 | an iterator on its first arm with offsets left yields the point at the first offset and advances that offset |
| Animation.FirstArmDone | src/animation.rs:176-179 | an iterator whose first arm is used up goes on to its second arm and still has the same points to yield |
| Animation.SecondArmStep | src/animation.rs:182-186 | an iterator on its second arm with offsets left yields the point at the second offset and advances that offset |
| Animation.SecondArmDone | src/animation.rs:187-192 | an iterator whose second arm is used up has nothing left to yield |
| Animation.CrossIterator.constructor | src/animation.rs:154-164 | with the range asserted non-negative, a new iterator will yield exactly the cross of that range |
| Animation.CrossIterator.Next | src/animation.rs:170-193 | an exhausted iterator yields None and stays exhausted; otherwise it yields the first point still to come and drops it |
| Animation.CrossIterator.NextOnColumn | src/animation.rs:182-192 | on the column the same holds: None once it is used up, otherwise the next point of the column |
| Animation.XIterator.constructor | src/animation.rs:273-283 | with the range asserted non-negative, a new iterator will yield exactly the X of that range |
| Animation.XIterator.Next | src/animation.rs:289-315 | an exhausted iterator yields None and stays exhausted; otherwise it yields the first point still to come and drops it |
| Animation.XIterator.NextOnFalling | src/animation.rs:304-314 | on the falling diagonal the same holds: None once it is used up, otherwise its next point |
| Animation.DrainStep | src/animation.rs:170-193 | one step of draining moves the yielded point from what is left to what is collected, and what is left shrinks |
| Animation.CollectCross | src/animation.rs:135 | draining a `CrossIterator` yields the whole cross |
| Animation.CollectEx | src/animation.rs:254 | draining an `XIterator` yields the whole X |
| Animation.Explosion.constructor | src/animation.rs:33-47 | with the initial radius asserted at most the maximum, there is one wave for the initial radius and one per step up to the maximum, the radius starts at the initial one and the timer is full for 100 ms per wave |
| Animation.Explosion.Update | src/animation.rs:52-63 | a finished explosion does not change; otherwise the timer counts down by `dt` and the radius is the initial one plus the elapsed waves, capped at the maximum, and stays between the two |
| Animation.Explosion.Tiles | src/animation.rs:129-138 | a square explosion kills exactly its square, point by point; a cardinal or diagonal one kills the 3 x 3 square round the centre and then marks its cross or X with no effect |
| Animation.Explosion.IntendedTiles | src/animation.rs:129-138 | the same points as `tiles`, every one of them killing; the square kind and the 3 x 3 kill zone are unchanged, and every cross or X tile also shatters |
| Animation.ArmTileHasNoEffect | src/animation.rs:134-136 | the first arm tile of a cardinal or diagonal explosion carries neither flag as written, and both KILL and SHATTER as intended |
| Animation.Tagged | src/animation.rs:72-73 | every point of the area is paired, in order, with the one effect |
| Animation.ScreenFade.constructor | src/animation.rs:338-347 | a new fade keeps the three durations, fades out first, on a full timer of the fade-out time |
| Animation.ScreenFade.Update | src/animation.rs:349-369 | the phase moves on by at most one, and exactly when the updated timer has finished outside Done; Done stays Done; entering Wait or FadeIn starts a fresh full timer of the wait or fade-in time |
| ComponentKinds.SpendAp | component_template.rs:271-278 | `Turn::spend_ap` requires `spend <= ap`; the result moves `spend` from `ap` to `spent_this_tick`, leaves `ap >= 0`, and keeps side and maximum |
| ComponentKinds.Remaining | component_template.rs:280-290 | `Stunned`/`Panicking::remaining` is never negative, is zero exactly when `turn + duration` has been reached, and otherwise closes the gap to `turn + duration` |
| ComponentKinds.RemainingMonotone | component_template.rs:280-290 | what remains of an effect never grows as turns pass, and shrinks by at most the turns elapsed |
| ComponentKinds.PositionKey | component_template.rs:23 | the cache key of an entity is its Position's `(x, y)`, present exactly when the entity has a Position |
| ComponentTemplate.ComponentManager.constructor | component_template.rs:113-121 | `new`: no entities, both ids 0, an empty cache |
| ComponentTemplate.ComponentManager.HasComponent | component_template.rs:170-187 | `has_component` fails with an invalid-id error exactly on ids `has_entity` rejects, and otherwise tells whether the slot is filled |
| ComponentTemplate.ComponentManager.GetComponent | component_template.rs:191-199 | `get_X` succeeds exactly when the entity exists and has the component, and returns the stored one; an unknown id fails as invalid |
| ComponentTemplate.ComponentManager.Iter | component_template.rs:160-162 | `iter` yields `initial_id .. next_id` in order; while no entity was taken out, these are exactly the ids `has_entity` accepts |
| ComponentTemplate.ComponentManager.EntitiesOnPos | component_template.rs:262-267 | `entities_on_pos` with a consistent cache yields exactly the entities positioned at the coordinate, each once, and an empty sequence for an unknown coordinate |
| ComponentTemplate.ComponentManager.AddEntity | component_template.rs:127-139 | `add_entity` returns the old `next_id`, increments it by one, appends the entity and, if it has a Position, puts it in that bucket; ids fail as invalid once one was taken out |
| ComponentTemplate.ComponentManager.NewEntity | component_template.rs:123-125 | `new_entity` is `add_entity` of an empty entity: the old `next_id`, incremented by one, cache untouched |
| ComponentTemplate.ComponentManager.TakeOut | component_template.rs:151-158 | `take_out` of a known id returns its entity and shifts the later ones down, leaving ids and cache alone, after which the last issued id no longer resolves; an unknown id fails with nothing changed |
| ComponentTemplate.ComponentManager.RemoveAllEntities | component_template.rs:164-168 | `remove_all_entities` empties entities and cache and sets `initial_id := next_id`, so `iter` is empty and no earlier id is ever valid again |
| ComponentTemplate.ComponentManager.RemoveComponentRaw | component_template.rs:217-224 | the private `remove_X_` clears one slot of a known entity, fails on an unknown id, and never touches ids or cache |
| ComponentTemplate.ComponentManager.SetComponent | component_template.rs:205-231 | public `set_X` of a non-Position component stores it in the entity's slot and leaves ids and cache alone; an unknown id fails with nothing changed |
| ComponentTemplate.ComponentManager.RemoveComponent | component_template.rs:217-236 | public `remove_X` of a non-Position type clears that slot only; an unknown id fails with nothing changed |
| ComponentTemplate.ComponentManager.RemovePosition | component_template.rs:249-260 | `remove_position` takes the id out of the bucket of its stored position and drops the Position, failing if the bucket does not list it; an entity without Position only has its slot cleared; the cache stays consistent |
| ComponentTemplate.ComponentManager.SetPosition | component_template.rs:239-247 | `set_position` removes the id from its old bucket first, stores the Position and appends the id to the new bucket, so it is listed exactly once and only there; the guard failures are those of `remove_position` |
| ComponentTemplate.MoveKeepsConsistent | component_template.rs:239-247 | detaching an entity from its old bucket and attaching it to the new one keeps the cache in step with the stored positions |
| ComponentTemplate.RemoveKeepsConsistent | component_template.rs:249-260 | removing a Position and detaching its id keeps the cache in step |
| ComponentTemplate.AddKeepsConsistent | component_template.rs:127-139 | appending an entity under the next id and caching its Position keeps the cache in step |
| ComponentTemplate.AppendKeepsConsistent | component_template.rs:123-125 | appending an entity without a Position keeps the cache in step with no change |
| ComponentTemplate.OtherComponentKeepsConsistent | component_template.rs:227-237 | storing or dropping a component other than Position keeps a consistent cache consistent |
| ComponentTemplate.SamePositions | component_template.rs:23 | consistency depends only on the stored positions |
| ComponentTemplate.DetachedListing | component_template.rs:249-258 | taking an entity out of its own bucket leaves it listed nowhere and every other listing as it was |
| Ecm.ECM.constructor | src/ecm.rs:20-25 | `ECM::new`: no entities, an empty position cache |
| Ecm.ECM.Has | src/ecm.rs:64-66 | `has::<T>` fails on an entity that is not alive, and otherwise tells whether the component is present |
| Ecm.ECM.Get | src/ecm.rs:68-70 | `get::<T>` succeeds exactly when the entity has the component, and returns the stored one |
| Ecm.ECM.EntitiesOnPos | src/ecm.rs:27-32 | `entities_on_pos` returns the bucket, or nothing for an unknown coordinate; with a consistent cache, exactly the live entities at the coordinate, each once |
| Ecm.ECM.Iter | src/ecm.rs:101-103 | `iter` enumerates exactly the live entities |
| Ecm.ECM.NewEntity | src/ecm.rs:37 | `new_entity` hands out a never-used id with no components and leaves the cache alone |
| Ecm.ECM.Remove | src/ecm.rs:72-83 | `remove::<T>`: for a Position on an entity that has one, exactly one occurrence leaves its bucket, and a missing entry is fatal with nothing changed; any other type, or an entity without Position, leaves the cache untouched; the slot is then cleared |
| Ecm.ECM.Set | src/ecm.rs:51-62 | `set` of a Position first removes the old one from its bucket, then appends the entity to the new coordinate's bucket and stores the component; any other component is stored with the cache untouched |
| Ecm.ECM.SetPosition | src/ecm.rs:52-58 | the Position branch of `set`: the old bucket loses the entity, the new bucket gains it at the end, and the stored Position is the new one |
| Ecm.ECM.RemoveEntity | src/ecm.rs:43-45 | `remove_entity` as written forgets the entity but leaves every bucket that listed it listing it still |
| Ecm.ECM.RemoveAllEntities | src/ecm.rs:47-49 | `remove_all_entities` as written empties the store and leaves the cache as it was |
| Ecm.ECM.RemoveEntityKeepingCache | src/ecm.rs:43-45 | the corrected `remove_entity`: the Position goes through `remove` first, so the entity leaves its bucket and the store |
| Ecm.ECM.RemoveAllEntitiesKeepingCache | src/ecm.rs:47-49 | the corrected `remove_all_entities` empties the cache with the store, which keeps it consistent |
| Ecm.SetPositionKeepsConsistent | src/ecm.rs:51-62 | a Position set through `set` keeps the cache in step with the stored positions |
| Ecm.MoveKeepsConsistent | src/ecm.rs:56-61 | attaching a detached entity under its new Position keeps the cache in step |
| Ecm.DetachKeepsConsistent | src/ecm.rs:72-82 | detaching an entity from its bucket while its Position is dropped keeps the cache in step |
| Ecm.NewEntityKeepsConsistent | src/ecm.rs:37 | a fresh entity needs no cache entry |
| Ecm.OtherComponentKeepsConsistent | src/ecm.rs:59-61 | storing or dropping a non-Position component keeps the cache in step |
| Ecm.SamePositions | src/ecm.rs:16 | consistency depends only on the stored positions |
| Ecm.RemoveEntityBreaksConsistency | src/ecm.rs:43-45 | removing a positioned entity as written leaves the cache out of step with the store |
| Ecm.RemoveEntityKeepingCacheConsistent | src/ecm.rs:43-45 | the corrected removal keeps the cache in step and leaves the entity listed nowhere |
| Ecm.StaleCacheAfterRemoveEntity | src/ecm.rs:43-45 | an entity set at (3, 4) and then removed is still returned by `entities_on_pos((3, 4))` while no longer alive |
| Ecm.NoStaleCacheAfterRemoveEntity | src/ecm.rs:43-45 | with the corrected removal the same calls leave (3, 4) empty |
| EntityManager.Enumerate | src/entity_manager.rs:28-34 | `iter`/`mut_iter` pair every entity with its index, in vector order |
| EntityManager.EnumeratePush | src/entity_manager.rs:14-18 | after a push, the enumeration is the old one followed by the new entity under the old length |
| EntityManager.Manager.constructor | src/entity_manager.rs:10-12 | `new`: no entities and `next_id` 0 |
| EntityManager.Manager.Add | src/entity_manager.rs:14-18 | `add` pushes the entity and returns the old `next_id`, which keeps counting the stored entities; `get_ref` of the result is the entity, earlier ids are unaffected |
| EntityManager.Manager.GetRef | src/entity_manager.rs:20-22 | `get_ref` returns the entity at an index inside the vector, and any other id is out of bounds |
| EntityManager.Manager.SetRef | src/entity_manager.rs:24-26 | writing through `get_ref_mut` changes the addressed slot only, and an id outside the vector is out of bounds with nothing changed |
| EntityManager.Manager.Iter | src/entity_manager.rs:28-30 | `iter` yields `(i, get_ref(i))` for every index, in insertion order |
| EntityManager.AddInOrder | src/entity_manager.rs:14-18 | three adds return ids 0, 1, 2 and iterate back in that order |
| Components.Spent | src/components.rs:49-54 | the Turn `spend_ap` writes: `ap - spend` (never negative, as the assertion demands) and `spent_this_turn + spend`, with side and maximum kept |
| Components.SpentTwice | src/components.rs:46-58 | two spends in a row equal one spend of the sum |
| Components.GameObject.constructor | src/components.rs:32-44 | `GameObject::new` has every component slot empty |
| Components.GameObject.SpendAp | src/components.rs:46-58 | `spend_ap` fails when the object has no Turn, and otherwise replaces the Turn by its spent value |
| Engine.Display.constructor | src/engine.rs:616-633 | with both sides of the game area and the tile size asserted positive, the buffer has a default cell for every tile of the area padded by one on every side, with no draw calls, no fade and no clear colour |
| Engine.Display.FullSize | src/engine.rs:648-650 | the full size is the game area plus the padding on both sides |
| Engine.Display.Index | src/engine.rs:661-668 | a position has a cell exactly when the display contains it, and that cell lies in the buffer and is the one `cells` reports at the position |
| Engine.Display.PaddedIndex | src/engine.rs:661-668 | a contained position shifted by the padding has a row-major index within the padded buffer |
| Engine.Display.Cells | src/engine.rs:828-836 | one entry per buffer cell, in buffer order, each with its position less the padding |
| Engine.Display.Clear | src/engine.rs:635-645 | every cell becomes a blank black glyph on the background, the draw calls are dropped, the fade becomes invisible and the clear colour is the background |
| Engine.Display.Set | src/engine.rs:677-685 | the cell at a contained position becomes the new glyph and colours and no other cell changes; outside the display nothing changes |
| Engine.Display.SetGlyph | src/engine.rs:687-692 | at a contained position only glyph and foreground change and the background is kept; outside the display nothing changes |
| Engine.Display.SetBackground | src/engine.rs:694-698 | at a contained position only the background changes; outside the display nothing changes |
| Engine.Display.Get | src/engine.rs:820-826 | the background of the cell at a contained position, and the default colour outside the display |
| Engine.Display.IndexOfCellPos | src/engine.rs:661-668 | every buffer cell belongs to exactly the contained position `cells` gives it: `index` undoes `cells` |
| Engine.Display.IndexInjective | src/engine.rs:661-668 | distinct contained positions have distinct cells, so a write at one leaves every other |
| Engine.Display.ContainsPadded | src/engine.rs:670-675 | the display contains exactly the positions from (-1, -1) to (width, height) |
| Engine.IntersectsIffShared | src/engine.rs:909-911 | for a rectangle with ordered edges and a non-empty area, the test holds exactly when the two share a tile |
| Engine.TextWidthPxAppend | src/engine.rs:461-466 | the width of a text is the sum of the widths of any two parts it is cut into |
| Engine.WrappedLines | src/engine.rs:468-498 | greedily wrapped lines are each non-empty and fitting, and the first word of each line would not have fit on the line before |
| Engine.WrapText | src/engine.rs:468-498 | the result is the lines of the greedy wrap of the text's words, each written out with single spaces |
| Engine.WrappedSnoc | src/engine.rs:489-492 | a line that fits and whose first word did not fit on the last line extends greedily wrapped lines |
| Engine.FillWraps | src/engine.rs:483-495 | the greedy loop keeps its lines greedily wrapped |
| Engine.FillFlattens | src/engine.rs:483-495 | the greedy loop places every word, in order |
| Engine.JoinRender | src/engine.rs:486-496 | with no empty line, the lines joined by spaces read like the words joined by spaces |
| Engine.WrapTextProperties | src/engine.rs:468-498 | the wrap gives at least one line, every line non-empty and fitting the width unless it is a single word, each break forced by the next word, and the lines joined by single spaces give the text back |
| Engine.WrapWords | src/engine.rs:476-497 | for any non-empty list of words the wrap has the same properties, and its lines joined by spaces are the words joined by spaces |
| GridMap.FirstSolid | src/systems.rs:144-155 | the bump scan fails on an occupant that is the mover itself, otherwise yields the first Solid occupant after only Walkable ones, and yields nothing exactly when every occupant is Walkable and not the mover |
| GridMap.ScanForSolid | src/systems.rs:144-155 | the loop over the occupants with its early `break` returns the same answer as the scan function |
| PositionCache.Attach | src/ecm.rs:56-57 | after `find_or_insert(..).push(id)` the bucket of the position is the old bucket (empty when absent) with `id` appended |
| PositionCache.AttachListing | src/ecm.rs:52-58 | attaching an id not yet listed at a position adds exactly that one listing and keeps every bucket free of duplicates |
| PositionCache.DetachListing | src/ecm.rs:73-81 | removing a listed id from its bucket removes exactly that one listing and keeps every bucket free of duplicates |
| Random.Pick | src/generators/forrest.rs:15-24 | a sampled weight below the total falls on an entry of the table whose weight is positive |
| Random.Chosen | src/generators/forrest.rs:15-24 | `ind_sample` returns the item of some entry of positive weight |
| Random.NeverChosen | src/generators/forrest.rs:66-71 | an item listed only with weight 0 (the strong dose near the player) is never sampled |
| Random.Sample | src/world_gen.rs:35-39 | sampling consumes exactly one number of the stream and returns the item that number selects |
| Random.Choose | src/generators/forrest.rs:64-65 | `choose` selects the element at the drawn number modulo the length, consuming one number, and returns nothing without drawing for an empty slice |
| Forrest.GenerateMap | src/generators/forrest.rs:10-30 | w x h tiles row by row, entry i at (i % w, i / w); the player's cell is Empty without a draw and every other cell draws its kind from the 610:390 Empty/Tree table, one stream number per cell |
| Forrest.GenerateRow | src/generators/forrest.rs:20-27 | one row extends the map by w cells in column order, drawing one number for every cell but the player's |
| Forrest.MapStep | src/generators/forrest.rs:20-26 | the cell at (x, y) is map entry y * w + x, is Empty when it is the player's, and draws the next unused stream number |
| Forrest.PlayerCellIsEmpty | src/generators/forrest.rs:21-25 | a player inside the map always stands on an Empty cell |
| Forrest.CellDrawsDistinct | src/generators/forrest.rs:19-28 | distinct cells other than the player's draw distinct stream numbers, increasing in map order |
| Forrest.GenerateMonsters | src/generators/forrest.rs:32-59 | the monsters and the numbers used are those of MonstersOf: one draw from the 3% table for each Empty cell at tile distance 6 or more, in map order |
| Forrest.MonsterPlacement | src/generators/forrest.rs:46-57 | monsters stand only on Empty cells at tile distance 6 or more from the player, at most one to a cell, in map order |
| Forrest.GenerateItems | src/generators/forrest.rs:61-110 | the items and the numbers used are those of ItemsOf: two draws place the initial dose, a tree on it pushes it on, and every other Empty cell draws from the table for its distance to the player |
| Forrest.ItemStep | src/generators/forrest.rs:83-108 | one more cell adds at most one item, on that cell, only when it is Empty, and never a strong dose within tile distance 6 of the player |
| Forrest.ItemPlacement | src/generators/forrest.rs:83-108 | items lie only on Empty cells, at most one to a cell, in map order, and no strong dose lies within tile distance 6 of the player |
| Forrest.InitialDoseNearby | src/generators/forrest.rs:63-65 | the initial dose starts one to four cells from the player on each axis, so never on the player |
| Forrest.RelocatedIsAhead | src/generators/forrest.rs:86-90 | a dose pushed off a tree moves one cell right, or three left and one row down, in both cases later in map order |
| Forrest.Generate | src/generators/forrest.rs:113-118 | the map, then the monsters over it, then the items over it, each drawing from where the previous stopped |
| GamePy.CommandQueue.constructor | game.py:454 | the queue holds the given commands and nothing has been saved for the replay yet |
| GamePy.InputSystem | game.py:73-94 | with no command or no Position nothing changes; otherwise the first command is popped, its name is appended to the replay log and the destination is the Position moved one step in the command's direction |
| GamePy.SpendAp | game.py:96-98 | an entity without a Turn raises AttributeError and keeps no Turn; otherwise only the action points drop by the amount spent |
| GamePy.StunSystem | game.py:189-198 | without stun, Position or destination nothing changes; a spent stun is removed; a live stun holds the entity on its Position and counts down by one |
| GamePy.PanicSystem | game.py:172-187 | without panic, Position or destination nothing changes; a spent panic is removed; a live panic sends the entity to the chosen free cell, or keeps it in place when none is free, and counts down by one |
| GamePy.KillEntity | game.py:297-300 | input, AI, solidity, tile and Turn are removed and the death reason is recorded |
| GamePy.Withdrawn | game.py:323-324 | after at least one turn a non-negative rate never raises the state of mind and a positive rate lowers it |
| GamePy.AddictionSystem | game.py:312-330 | when no turn has passed since the last activation nothing changes; otherwise the state of mind drops by rate times turns, the activation turn becomes the current one, at 0 or below the entity dies of withdrawal shock and above 100 of an overdose, losing its Turn, AI and input |
| GamePy.Converted | game.py:339-343 | fewer anxieties than the threshold remain, will never drops, and anxieties plus threshold times will is conserved |
| GamePy.WillSystemAsWritten | game.py:332-346 | a kill counter with threshold 0 passes the asserts and raises ZeroDivisionError; a successful run converts kills to will as Converted says |
| GamePy.WillSystem | game.py:332-346 | without addiction or attributes nothing changes; a negative count or a non-positive threshold fails the assert; otherwise kills are converted to will and the resistance becomes the new will capped at 2 |
| GamePy.ZeroThresholdCrashes | game.py:336-340 | an addicted entity whose kill counter has threshold 0 makes the written system raise ZeroDivisionError |
| GamePy.StartNewTurn | game.py:302-304 | an entity without a Turn raises; otherwise the Turn becomes active with its maximum action points |
| GamePy.StartAll | game.py:355-356 | succeeds exactly when every NPC has a Turn, and then every NPC's Turn is active with full action points |
| GamePy.EndOfTurnSystem | game.py:306-310 | an entity with a Turn counts one more turn and nothing else changes; one without keeps none |
| GamePy.EndAllTurns | game.py:361-362 | every NPC with a Turn counts one more turn; NPCs without one keep none |
| GamePy.DeactivateAll | game.py:364-365 | succeeds exactly when every NPC has a Turn, and then every NPC's Turn is inactive and otherwise unchanged |
| GamePy.HandOver | game.py:353-356 | the player's Turn goes inactive; the handover succeeds exactly when every NPC has a Turn, and then they all start a new turn |
| GamePy.NewRound | game.py:357-365 | the player counts one more turn and starts anew; the round succeeds exactly when every NPC has a Turn, and then every NPC counts one more turn and waits inactive |
| GamePy.EndRound | game.py:360-362 | the player and every NPC holding a Turn count one more turn; nothing else about the Turns changes |
| GamePy.BeginRound | game.py:363-365 | the player becomes active with full action points; it succeeds exactly when every NPC has a Turn, and then all of them are inactive |
| GamePy.AnyFree | game.py:359 | true exactly when some NPC has at least one action point |
| GamePy.CanAnyoneAct | game.py:366-367 | true exactly when some Turn holder is active with action points left |
| GamePy.SwitchTurns | game.py:348-367 | a dead player changes nothing; a player without a Turn raises; an active player out of action points hands over to the NPCs; an inactive player with all NPCs spent opens a new round; otherwise no Turn changes; a success means some Turn holder can act, and a handover to NPCs that can act succeeds |
| GamePy.PassTurns | game.py:351-365 | both switches are decided on the player's Turn as fetched, and each has the outcome HandOver or NewRound states; without either no Turn changes |
| GamePy.ReplayOfLines | game.py:470-482 | a replay read from the lines has a seed in 1..999999 that Python 2 `int()` reads from the first line (a sign, any whitespace, digits) and one command per further line |
| GamePy.ReplayOf | game.py:467-482 | an empty file is an error; a replay read from a file has a seed in range, read as Python 2 `int()` reads it, and one command per line after the first |
| GamePy.SpacedSeedLoads | game.py:467-482 | a file whose only line is "+ 5" replays with seed 5 and no commands, since Python 2 `int()` lets whitespace follow the sign |
| Text.ParseIntSpaceAfterSign | game.py:474-475 | a sign, then any whitespace, then decimal digits is read by `int()` as the signed value of the digits |
| Text.SignedWithSpace | game.py:474-475 | `int("+ 5")` is 5 and `int("- 5")` is -5 |
| GamePy.LoadReplay | game.py:467-486 | reading the file's lines and parsing them gives ReplayOf of its text |
| GamePy.ReadLines | game.py:470-482 | the loop over the lines gives ReplayOfLines of them |
| GamePy.ReplayRoundTrip | game.py:451-486 | a replay file written by `new_game` and `save_for_replay` is loaded back as the same seed and commands |
| GamePy.ReadBack | game.py:470-482 | the written lines parse back to the same seed and commands |
| GamePy.WrittenLinesAreClean | game.py:457-459 | every written line is free of line breaks and surrounding whitespace |
| GamePy.StrippedUnlines | game.py:469 | reading and stripping the lines of joined clean lines gives those lines back |
| GameStateRs.ParseSeed | src/game_state.rs:105-108 | a seed parses exactly when the line is non-empty decimal digits whose value fits a `u32`, and then it is that value |
| GameStateRs.ParseSeedToString | src/game_state.rs:89 | a seed written out by `new_game` parses back to itself |
| GameStateRs.CommandLogger.constructor | src/game_state.rs:140-142 | the logger starts with the given lines, writing to a file or to nowhere |
| GameStateRs.CommandLogger.Log | src/game_state.rs:145-147 | a recording logger appends the command's name as one line; the `NullWriter` of a replay keeps nothing |
| GameStateRs.GameState.constructor | src/game_state.rs:47-69 | the player's side moves first, on turn 0 with a zero clock and not paused, with the given commands, logger, seed and flags; the level is the display less two rows |
| GameStateRs.NewGame | src/game_state.rs:71-93 | a new game records to a log whose first line is the seed, queues no commands, neither cheats nor replays, and starts on the player's side at turn 0 |
| GameStateRs.ReplayOf | src/game_state.rs:101-116 | an empty file is the "empty" panic; a replay read from a file has a `u32` seed and one command per further line (lines split at line feeds only, a carriage return kept), each line naming its command exactly |
| GameStateRs.ReplayGame | src/game_state.rs:95-125 | the replay fails exactly when ReplayOf does, with the same panic; otherwise the game holds the file's seed and commands in order, cheats, replays and logs nothing |
| GameStateRs.LogExtendsRecording | src/game_state.rs:145-147 | logging one more command keeps the log as the seed line followed by the logged command names |
| GameStateRs.ReplayRoundTrip | src/game_state.rs:89-116 | the file a recorded game leaves behind replays as the same seed and the same commands |
| GameStateRs.RecordedAreLines | src/game_state.rs:89 | no recorded line holds a line feed, so splitting the file into lines recovers them |
| GameStateRs.CrLfSeedRejected | src/game_state.rs:103-108 | a file written with CRLF line ends is refused: its seed line `"7\r"` is not a number |
| GameStateRs.CrLfCommandRejected | src/game_state.rs:111-115 | a command line ending in a carriage return, `"N\r"`, is an unknown command |
| LevelRs.Level.constructor | src/level.rs:58-66 | with a positive size asserted, the level has that size, a fresh buffer of width x height cells all Empty, and the player at (40, 25) |
| LevelRs.Level.SetTile | src/level.rs:68-71 | the cell numbered y * width + x, which must lie in the buffer, holds the tile and every other cell is unchanged |
| LevelRs.Level.MovePlayer | src/level.rs:81-83 | the player stands at the new position |
| LevelRs.Level.Render | src/level.rs:85-97 | one draw per cell on layer 0 in buffer order, cell i at column i % width of row i / width with its tile's glyph, then the player's '@' on layer 2 at its position |
| LevelRs.SetTileIsDrawnInPlace | src/level.rs:68-97 | a tile set at (x, y) inside the level lands in the buffer and is drawn at (x, y) itself |
| MainRs.Remaining | src/main.rs:51-57 | the time left is zero exactly when `dt` reaches the current time, and otherwise the current time less `dt`; for non-negative times it is between zero and the current time |
| MainRs.RemainingCompose | src/main.rs:51-57 | two updates by `a` and then `b` leave what one update by `a + b` leaves |
| MainRs.Timer.constructor | src/main.rs:44-49 | a new timer is full: current and maximum are the duration |
| MainRs.Timer.Update | src/main.rs:51-57 | the current time becomes Remaining of the old one; the maximum is kept |
| MainRs.Timer.Reset | src/main.rs:71-73 | the current time is the maximum again |
| MainRs.NextPhase | src/main.rs:109-125 | every phase but Done moves on, and Done is reached exactly from FadeIn or Done |
| MainRs.Rank | src/main.rs:87-92 | the four phases are ranked 0 to 3 in their declared order |
| MainRs.NextPhaseAdvances | src/main.rs:109-125 | a finished phase advances by exactly one rank, and Done stays Done |
| MainRs.PhasesEnd | src/main.rs:109-125 | three finished timers bring every phase to Done |
| MainRs.ScreenFadeAnimation.constructor | src/main.rs:95-105 | a new fade keeps the three durations, fades out first, on a full timer of the fade-out time |
| MainRs.ScreenFadeAnimation.Update | src/main.rs:107-127 | the phase moves on by at most one, and exactly when the updated timer has finished outside Done; Done stays Done; entering Wait or FadeIn starts a fresh full timer of the wait or fade-in time, and otherwise the timer only counts down |
| MainRs.WithinScreenBoundsIndex | src/main.rs:748-752 | a point is within the screen exactly when its column is and its row-major index is one of the screen's cells |
| MainRs.ExplorationRadius | src/main.rs:197-207 | the radius lies in 4..8, is 6 when sober, below 6 for every less intoxicated state and above 6 for every more intoxicated one |
| MainRs.ExplorationRadiusMonotone | src/main.rs:197-207 | the more intoxicated the state, the larger or equal the radius |
| MainRs.CommandAction | src/main.rs:224-236 | Eat asks to eat and nothing else does; every step command moves to a neighbouring cell other than the player's, one row up exactly for the northern commands, down for the southern, one column left for the western and right for the eastern |
| MainRs.CommandActionInjective | src/main.rs:224-236 | two commands ask for the same action exactly when they are the same command |
| MainRs.PullRadius | src/main.rs:257 | the radius is never negative, is zero exactly when the will reaches the dose's irresistibility, and otherwise their difference |
| MainRs.PullRadiusAntitone | src/main.rs:257 | more will never widens the pull |
| MainRs.PlayerAction | src/main.rs:237-268 | a stun holds the player in place, else panic moves it to the random neighbour; the command is overridden only by a stun, panic or a dose path step; a path longer than the pull radius leaves the command standing, and one within it moves the player one step along |
| MainRs.WillResistsDose | src/main.rs:253-262 | with will at least the dose's irresistibility and no stun or panic, no path of one step or more overrides the command |
| MainRs.AnxietyKilled | src/main.rs:284-288 | both ranged fields keep their bounds; a counter in 0..9 stays in 0..9; the will grows by at most one, and only when the counter is reset to 0; a counter whose maximum is below 10, or a will at its maximum, leaves the will as it is; while neither saturates, counter plus ten times will grows by exactly one |
| MainRs.AfterKillsIsDivision | src/main.rs:284-288 | with a counter maximum of at least 10, after `n` anxiety kills from zero the counter is `n % 10` and the will has grown by `n / 10`, saturated at its maximum |
| MainRs.AfterKillsCapped | src/main.rs:284-288 | with a counter maximum below 10, `n` kills from zero leave the counter at the smaller of `n` and its maximum and never raise the will |
| MainRs.Player.NewTurn | src/main.rs:546 | the action points are refilled to the maximum |
| MainRs.AttackMonster | src/main.rs:279-291 | the player spends one action point, the monster dies, and only an anxiety's death counts towards will as AnxietyKilled says, both fields stepped by the saturating `add`; `set(0)`'s bounds assertion is the precondition |
| MainRs.ProcessMonsters | src/main.rs:341-403 | with the player dead no monster changes; otherwise every live monster with an action point spends one and dies only when its act is an attack and it dies after attacking, and every other monster is untouched |
| MainRs.EndPlayerSide | src/main.rs:525-531 | a player out of action points hands the turn to the computer and every monster gets a new turn; otherwise the side and every monster's action points stay |
| MainRs.EndComputerSide | src/main.rs:541-548 | once every live monster is out of action points the player's side begins with full action points; otherwise side and player are unchanged |
| MainRs.SwitchSides | src/main.rs:525-548 | the player's side is kept or regained only with a full turn; a player with action points keeps its side and nothing changes; the computer keeps the turn only while some live monster can still act |
| Movement.Distance | src/systems/movement.rs:20 | the tile distance the system compares with 1 is zero exactly for equal cells |
| Movement.Decide | src/systems/movement.rs:15-70 | the branch taken: wait iff at the destination; an adjacent walkable destination is a step there; an adjacent blocked one bumps the first Solid entity listed there, or does nothing if none is Solid; farther away, a path step to an adjacent cell when a path exists, else no path; the asserts (bumping oneself, a trivial path, a non-adjacent step) are panics |
| Movement.Cost | src/systems/movement.rs:18-66 | every branch spends at most one AP |
| Movement.Spend1 | src/systems/movement.rs:18 | `set_turn(e, turn.spend_ap(1))` stores the spent Turn |
| Movement.ApplySpends | src/systems/movement.rs:15-68 | waiting and finding no path spend one AP and drop the Destination |
| Movement.ApplyBumps | src/systems/movement.rs:34-39 | a bump records the bumpee and drops the Destination, with no AP spent |
| Movement.ApplyTurn | src/systems/movement.rs:6-71 | an outcome's Turn has its cost spent and keeps side and maximum, with AP never negative |
| Movement.ApplyDestination | src/systems/movement.rs:15-70 | the Destination survives only a path step, a blocked cell with no Solid entity, or a call that did nothing |
| Movement.ApplyPosition | src/systems/movement.rs:20-63 | only a step or a path step moves the entity, and to the cell it went to |
| Movement.AtMostOneAp | src/systems/movement.rs:6-71 | a single call spends at most one AP, and exactly one unless it bumps or is blocked |
| Movement.MoveKeepsCacheConsistent | src/systems/movement.rs:24-25 | moving the entity through `set_position` keeps the store's position cache consistent |
| Movement.Stay | src/systems/movement.rs:15-68 | the branches that do not move: the store ends as the outcome says, and its cache is untouched |
| Movement.SetAndDrop | src/systems/movement.rs:18-19 | storing one component and then removing the Destination |
| Movement.Go | src/systems/movement.rs:20-63 | a step or path step spends an AP, moves the entity on the map, sets its Position (moving its cache entry) and, for a step, drops the Destination |
| Movement.Relocate | src/systems/movement.rs:25-27 | `set_position` then, when the entity arrived, `remove_destination`; a missing cache entry fails |
| Movement.System | src/systems/movement.rs:6-71 | nothing happens unless the entity has Position, Destination and a Turn with AP; otherwise the entity ends as its branch says, the map and cache follow a move, and only the asserts and a missing cache entry fail |
| Point.TileDistance | src/point.rs:20-22 | the distance is at least each coordinate's difference and equal to one of them, so it is their maximum, and it is zero exactly for equal points |
| Point.TileDistanceSymmetric | src/point.rs:20-22 | the distance does not depend on the order of the points |
| Point.TileDistanceTriangle | src/point.rs:20-22 | going through a third tile is never shorter |
| Point.Offset | src/point.rs:53-59 | the sum differs from the point by exactly the pair, coordinate by coordinate |
| Point.Add | src/point.rs:31-37 | adding a point is offsetting by its coordinates |
| Point.PartialCmp | src/point.rs:39-51 | Equal exactly for equal points, Less exactly when both coordinates are smaller, Greater exactly when both are larger, unordered otherwise |
| Point.PartialCmpDual | src/point.rs:39-51 | a is below b exactly when b is above a, and unordered pairs are unordered both ways |
| Point.PartialCmpTransitive | src/point.rs:39-51 | below is transitive |
| Point.RestMembership | src/point.rs:150-161 | the cursor still yields exactly the points of the current row from its column on and of every full row after it |
| Point.RestLength | src/point.rs:150-161 | the cursor yields the rest of its row plus a full row for every row left, and nothing past the last row |
| Point.RestOrdered | src/point.rs:150-161 | what the cursor yields strictly increases in row-major order |
| Point.SquareMembership | src/point.rs:134-161 | the square holds exactly the points within tile distance `half` of its centre |
| Point.SquareShape | src/point.rs:134-161 | the square has (2h+1)^2 points, each once, strictly increasing in row-major order |
| Point.SquareNegative | src/point.rs:151-153 | a negative half side yields nothing |
| Point.SquareArea.constructor | src/point.rs:134-145 | a new iterator will yield exactly the square around the centre |
| Point.SquareArea.Next | src/point.rs:150-161 | an exhausted iterator yields None and stays exhausted; otherwise it yields the first point still to come and drops it |
| Point.Collect | src/point.rs:147-161 | draining the iterator yields the whole square in row-major order |
| Point.SquareOfRadiusOne | src/point.rs:231-244 | the square of half side 1 around the origin is the nine points row by row, and that of half side 0 is its centre alone |
| PyAi.PyEntity.constructor | systems/ai.py:89-101 | an entity with the given AI, Position and Monster components and no path, target or destination |
| PyAi.PathStore.constructor | systems/ai.py:6 | a pathfinder that has freed no path yet |
| PyAi.PathStore.Destroy | systems/ai.py:31 | `path.destroy` records the freed path id |
| PyAi.PathCost | systems/ai.py:9-19 | `find_player_callback` costs 0.0 exactly for a blocked cell that is not the player's, and 1.0 otherwise |
| PyAi.FollowPlayer | systems/ai.py:21-41 | next to the player the destination is the player's cell and the path is dropped; otherwise any old path is destroyed, the found path (if any) is stored and no destination is returned; `Attacking(player)` is always set |
| PyAi.IndividualState | systems/ai.py:45-49 | aggressive at distance below 5, idle above 8, unchanged from 5 to 8 |
| PyAi.PackState | systems/ai.py:67-69 | aggressive at distance below 4, and otherwise unchanged, so a hunter never reverts to idle |
| PyAi.IndividualHysteresis | systems/ai.py:45-49 | between 5 and 8 an individual keeps the state that the last near or far reading gave it |
| PyAi.IndividualBehaviour | systems/ai.py:43-62 | the state is updated first; with no free destination nothing is chosen; aggressive follows the player, idle drops the path and takes the picked destination, and any other state raises AssertionError |
| PyAi.Alarm | systems/ai.py:78-83 | every AI monster of the same kind among the nearby entities turns aggressive, the others are untouched |
| PyAi.HuntingPackBehaviour | systems/ai.py:65-86 | the state is updated first; with no free destination nothing is chosen; idle takes the picked destination; aggressive follows the player and alarms the kindred within 8; any other state raises AssertionError |
| PyAi.AiSystem | systems/ai.py:89-101 | an entity lacking AI or Position is left alone; an unknown AI kind raises KeyError; otherwise the kind's behaviour runs and the destination becomes its choice, or the entity's own position when it chose none |
| EntityComponentManager.PyIndex | entity_component_manager.py:69 | Python list indexing: an index addresses the list exactly when `-len <= i < len`, a negative one counting from the end |
| EntityComponentManager.Load | entity_component_manager.py:69 | reading `components[ctype][id]` raises IndexError exactly when the index is out of range, and otherwise returns that slot |
| EntityComponentManager.Pad | entity_component_manager.py:60-61 | the padding of `set_component` extends a short list with None to length `id + 1` and keeps its prefix |
| EntityComponentManager.Store | entity_component_manager.py:58-62 | padding then assigning fails only for a negative id beyond the list's start, and afterwards the slot reads back the stored value |
| EntityComponentManager.Clear | entity_component_manager.py:76 | assigning None to a slot without padding raises IndexError exactly when the index is out of range, and keeps the list's length |
| EntityComponentManager.StoreThenLoad | entity_component_manager.py:52-69 | `get_component` after `set_component` of the same entity and type returns that component; other slots read as before, or None when they are padding |
| EntityComponentManager.ClearOnlyThatSlot | entity_component_manager.py:71-76 | `remove_component` changes no other entity's slot |
| EntityComponentManager.Occupied | entity_component_manager.py:92-93 | the ids `entities(ctype)` yields are exactly the indices whose slot is filled, ascending |
| EntityComponentManager.ComponentsOf | entity_component_manager.py:78-83 | `components(entity)` yields only components stored for that id, one per registered class; for a non-negative id exactly those, skipping empty and too-short lists |
| EntityComponentManager.NonNegativeNeverFails | entity_component_manager.py:82-83 | for a non-negative id, `components` never indexes out of range |
| EntityComponentManager.RegisteredLateMissesNewest | entity_component_manager.py:50-69 | a type registered when ids 1..n exist gets n slots, so `get_component` of id n raises IndexError instead of returning None, while lower ids read None |
| EntityComponentManager.Manager.constructor | entity_component_manager.py:34-37 | a new manager has no ids, last id 0 and no registered types |
| EntityComponentManager.Manager.NewEntity | entity_component_manager.py:39-43 | `new_entity` issues `last + 1` (so ids start at 1 and go up by one), adds it to the id set and changes nothing else |
| EntityComponentManager.Manager.RegisterComponentType | entity_component_manager.py:45-50 | `register_component_type` raises TypeError for a non-Component, keeps an existing column untouched (idempotent), and otherwise adds a column of `last_entity_id` Nones |
| EntityComponentManager.Manager.SetComponent | entity_component_manager.py:52-62 | `set_component` raises TypeError for a non-Component and ValueError for an unregistered type; otherwise only that type's list changes, padded and assigned |
| EntityComponentManager.Manager.GetComponent | entity_component_manager.py:64-69 | `get_component` raises TypeError and ValueError like `set_component`, and otherwise returns the slot as Python reads it, IndexError included |
| EntityComponentManager.Manager.RemoveComponent | entity_component_manager.py:71-76 | `remove_component` raises TypeError or ValueError as above, and otherwise sets only that entity's slot of that type to None, with nothing changed on IndexError |
| EntityComponentManager.Manager.Components | entity_component_manager.py:78-83 | `components(entity)` succeeds for every non-negative id and yields only components stored for it |
| EntityComponentManager.Manager.AllEntities | entity_component_manager.py:86-87 | `entities()` with no type is every id issued so far, 1 to the last |
| EntityComponentManager.Manager.Entities | entity_component_manager.py:85-93 | `entities(ctype)` raises TypeError or ValueError as above, and otherwise yields exactly the ids whose slot holds a component |
| RangedInt.Clamp | src/ranged_int.rs:36-42 | the result lies within the bounds, is the value itself when that does, and the nearer bound otherwise |
| RangedInt.New | src/ranged_int.rs:12-21 | a value is made exactly when the bounds are in order and the value lies between them, and it holds the value and the bounds |
| RangedInt.CheckedAdd | src/ranged_int.rs:34 | the sum is given exactly when it fits an `i32`, and then it is the sum |
| RangedInt.Add | src/ranged_int.rs:30-54 | the bounds are kept and the value is the mathematical sum saturated at the bounds, also when the `i32` sum overflows |
| RangedInt.OverflowingNeg | src/ranged_int.rs:66 | the negation overflows exactly for `i32::MIN`, which maps to itself; otherwise it is the negation |
| RangedInt.SubAsWritten | src/ranged_int.rs:62-73 | the bounds are kept; the value is the difference saturated at the bounds, except that subtracting `i32::MIN` always gives the maximum |
| RangedInt.SubMinOverestimates | src/ranged_int.rs:67-68 | for the full `i32` range, `i32::MIN - i32::MIN` gives `i32::MAX` although the difference is 0 |
| RangedInt.Sub | src/ranged_int.rs:62-73 | the bounds are kept and the value is the difference saturated at the bounds, for every `other` |
| RangedInt.SubAsWrittenAgrees | src/ranged_int.rs:62-73 | the written and the intended `sub` agree exactly when `other` is not `i32::MIN` or the difference reaches the maximum |
| RangedInt.SubIsAddNegated | src/ranged_int.rs:69-71 | subtracting is adding the negation whenever the negation is an `i32` |
| RangedInt.AddThenSub | src/ranged_int.rs:30-73 | when the sum stays within the bounds, subtracting undoes adding |
| RangedInt.Deref | src/ranged_int.rs:81-87 | the value read is always within the bounds |
| RangedInt.Var.constructor | src/ranged_int.rs:12-21 | the place holds the given value |
| RangedInt.Var.Set | src/ranged_int.rs:23-27 | with `n` asserted within the bounds, only the value changes, to `n` |
| RangedInt.Var.AddAssign | src/ranged_int.rs:56-60 | the place holds Add of its old value |
| RangedInt.Var.SubAssign | src/ranged_int.rs:75-79 | the place holds the intended Sub of its old value |
| RootSystems.TcodMap.constructor | systems.rs:89-112 | the map holds the given size and walkability flags |
| RootSystems.TcodMap.SetProperties | systems.rs:104-108 | `map_set_properties` overwrites the two flags of one cell and no other |
| RootSystems.StepBy | systems.rs:50-60 | the destination is the position plus the command's unit step |
| RootSystems.TurnSystem | systems.rs:30-36 | a Turn of the current side has `spent_this_turn` zeroed and everything else kept; a Turn of the other side, or none, is left alone |
| RootSystems.CommandQueue.constructor | systems.rs:38-39 | the queue holds the given commands and the log is empty |
| RootSystems.InputSystem | systems.rs:38-63 | returns without popping unless the object takes input, has a Position, commands are waiting and it is the Player's side; otherwise pops one command, logs it and sets the destination one step that way |
| RootSystems.AiSystem | systems.rs:65-87 | an AI with a Position on the Computer's side heads one step in the drawn direction; any other object keeps its destination |
| RootSystems.MovementSystem | systems.rs:89-112 | returns early, keeping the destination, without Position, destination, Turn or AP; otherwise an out-of-bounds or blocked destination changes nothing but clearing the destination, and a walkable one spends one AP, moves there, frees the old cell and makes the new cell's walkability `!solid` |
| RootSystems.IdleAiSystem | systems.rs:123-131 | one AP is spent exactly for an unspent AI with a Turn of the Computer's side and AP left; nothing else changes |
| RootSystems.Other | systems.rs:146-149 | the side flip always yields the other side |
| RootSystems.Refilled | systems.rs:150-155 | after a flip a Turn of the new side is refilled to its maximum with nothing spent; other Turns are kept |
| RootSystems.EndOfTurnSystem | systems.rs:134-156 | the side flips iff no object of the current side has a Turn with AP left; then every object of the new side is refilled and nothing else changes |
| RootSystems.RefilledIdempotent | systems.rs:150-155 | refilling twice for the same side equals refilling once |
| RootSystems.RefilledHoldsTurn | systems.rs:134-156 | after a flip, an object of the new side with a positive maximum holds the turn again |
| Settings.DefaultBackend | src/settings.rs:41-45 | "glutin" when the engine has it; otherwise one of the engine's backends, or "none" when it has none |
| Settings.Default | src/settings.rs:38-60 | windowed and graphical, with the engine's default text and tile sizes, a 1024 x 768 window and the default backend |
| Settings.DefaultValid | src/settings.rs:57 | the defaults are valid exactly when the engine's default sizes are among its available ones and it has a backend |
| Settings.StrEntry | src/settings.rs:183 | a string is read exactly when the key is present and holds a string |
| Settings.IntEntry | src/settings.rs:214 | an integer is read exactly when the key is present and holds an integer |
| Settings.DisplayEntry | src/settings.rs:183-191 | "fullscreen" turns fullscreen on, "window" turns it off, and any other or missing entry keeps the current setting |
| Settings.StyleEntry | src/settings.rs:193-212 | the graphical name selects the graphical style, a distinct textual name the textual one, and anything else keeps the current style |
| Settings.SizeEntry | src/settings.rs:214-244 | a number is taken exactly when it is an `i32` and one of the available sizes; anything else keeps the current size |
| Settings.SizeEntryAgrees | src/settings.rs:214-244 | the written reading and the intended one agree whenever every available size and the document's number are `i32`s |
| Settings.WrappedSizeAccepted | src/settings.rs:214-218 | the written reading takes a `tile_size` of 2^32 + 16 as the supported size 16, where the intended one keeps the current size |
| Settings.SideEntry | src/settings.rs:246-286 | a number from the minimum to the maximum is taken; anything else keeps the current side |
| Settings.BackendEntry | src/settings.rs:288-301 | an available backend is taken; anything else keeps the current one |
| Settings.LoadedValid | src/settings.rs:180-308 | whatever the document holds, loaded settings are valid when the defaults are, and the window sides lie within their bounds |
| Settings.Saved | src/settings.rs:310-332 | the saved document has the old keys and the seven settings keys, and every other key keeps its value |
| Settings.LoadSaveRoundTrip | src/settings.rs:180-332 | valid settings with window sides in bounds and two distinct style names load back unchanged from the document `save` wrote |
| Settings.FileSystemStore.constructor | src/settings.rs:160 | the store holds the given document |
| Settings.FileSystemStore.Load | src/settings.rs:180-308 | the settings loaded from the store are valid whenever the defaults are |
| Settings.FileSystemStore.Save | src/settings.rs:310-332 | the document becomes Saved of the old document and the settings |
| Settings.NumbersText | src/settings.rs:89-93 | one text per available size |
| Settings.QuotedText | src/settings.rs:105-109 | one quoted text per backend |
| Settings.AsToml | src/settings.rs:77-118 | the text starts with the display comment and the line `display = "window"`, and goes on past them |
| Settings.AsTomlIgnoresFullscreen | src/settings.rs:77-80 | the TOML text of fullscreen settings equals that of windowed ones, while `save` writes them differently |
| TurnTickCounter.ResetTick | src/systems/turn_tick_counter.rs:11-14 | a Turn of the acting side gets `spent_this_tick = 0`; side, AP and maximum are kept, and a Turn of the other side is untouched |
| TurnTickCounter.ResetTickIdempotent | src/systems/turn_tick_counter.rs:11-14 | applying the reset twice equals applying it once |
| TurnTickCounter.ResetTickKeepsAp | src/systems/turn_tick_counter.rs:13 | the reset neither creates nor consumes AP |
| TurnTickCounter.ProcessEntity | src/systems/turn_tick_counter.rs:9-15 | only the entity's Turn changes, to its reset value; no other component, entity or cache entry changes |
| FadeOut.FadeStep | src/systems/fade_out.rs:9-16 | without a ColorAnimation both Tile and FadingOut are removed, with one nothing changes, and no other component is touched |
| FadeOut.FadeStepIdempotent | src/systems/fade_out.rs:7-16 | a finished fade no longer matches the (FadingOut, Tile) filter: running it again changes nothing |
| FadeOut.ProcessEntity | src/systems/fade_out.rs:9-16 | the entity ends as the step says; no other entity and no cache entry changes |
| Monster.AttackDamage | src/monster.rs:64-72 | Anxiety costs one Will, Depression kills, Hunger costs 20 state of mind, Shadows panic and Voices stun for 4 turns |
| Monster.AttackDamageInjective | src/monster.rs:64-72 | distinct kinds deal distinct damage |
| Monster.Monster.constructor | src/monster.rs:36-54 | `new`: `die_after_attack` iff Shadows or Voices, two AP a turn for Depression and one otherwise, id 0, alive, no AP |
| Monster.Monster.SetId | src/monster.rs:60-62 | `set_id` stores the id |
| Monster.Monster.Act | src/monster.rs:74-91 | a dead monster panics; otherwise an attack on the player exactly at tile distance 1, a move to the player when closer than 5 (also from the same cell), else a move to the random neighbour |
| Monster.Monster.SpendAp | src/monster.rs:93-99 | `spend_ap` asserts `count <= ap` and subtracts it, so AP never goes negative |
| Monster.Monster.NewTurn | src/monster.rs:105-107 | `new_turn` refills AP to the maximum |
| Monster.FirstTurn | src/monster.rs:36-107 | after its first `new_turn` every monster `has_ap(1)`, and `has_ap(2)` exactly for Depression |
| Commands.ToStr | src/systems.rs:11-14 | the derived `to_str` names each of the eight commands by one or two letters |
| Commands.FromStr | src/systems.rs:16-30 | `from_str` accepts exactly N, E, S, W, NE, NW, SE and SW, and returns None for anything else |
| Commands.FromStrToStr | src/systems.rs:11-30 | parsing a command's name gives the command back, and only its own name parses to it |
| Commands.Offset | src/systems.rs:59-69 | the unit step of a command: y falls by one for N/NE/NW and rises for S/SE/SW; x rises for E/NE/SE and falls for W/NW/SW; never (0, 0) |
| Commands.OffsetInjective | src/systems.rs:59-69 | distinct commands step in distinct directions |
| Commands.ParseCommands | src/game_state.rs:111-116 | the commands named by the replay lines, in order, succeed exactly when every line names one; otherwise the error is a line that names none |
| Commands.ParseCommandsAppend | src/game_state.rs:111-116 | parsing one more line that names a command appends it |
| Commands.ParseCommandsFirstError | src/game_state.rs:111-116 | the reported error is the first line that names no command |
| Commands.Names | src/game_state.rs:145-147 | the logged names, one per command |
| Commands.ParseCommandsOfNames | src/game_state.rs:103-116 | the logged names parse back to the same commands |
| Commands.ParseAll | src/game_state.rs:111-116 | the replay loop that queues each parsed command, stopping at the first unknown line, returns `ParseCommands` of the lines |
| Systems.Objects.constructor | src/entity_manager.rs:10-12 | the entity vector holds the given objects |
| Systems.Objects.GetRef | src/systems.rs:33 | `get_ref` finds an object exactly when the id indexes the vector, and returns it |
| Systems.CommandQueue.constructor | src/systems.rs:45-46 | the queue holds the given commands and the log is empty |
| Systems.Other | src/systems.rs:261-264 | the side flip always yields the other side |
| Systems.TurnReset | src/systems.rs:32-43 | `turn_system` zeroes `spent_this_turn` exactly for a Turn of the current side; side, AP and maximum, and every other component, are kept |
| Systems.TurnResetIdempotent | src/systems.rs:32-43 | resetting twice equals resetting once |
| Systems.TurnSystem | src/systems.rs:32-43 | a known object gets the reset, a missing id changes nothing |
| Systems.InputDestination | src/systems.rs:59-69 | the destination is the position plus the command's unit step, never the position itself |
| Systems.InputSystem | src/systems.rs:45-76 | only an existing object with input and Position on the Player's side pops a command, at most one; that command is logged and the destination is set one step that way; nothing else changes |
| Systems.LoggedCommandsParse | src/systems.rs:59 | the names the input system logs parse back to the popped commands, in order |
| Systems.AiStep | src/systems.rs:78-103 | `ai_system` sets a one-step destination for an AI with a Position on the Computer's side, and leaves every other object as it is |
| Systems.PathStep | src/systems.rs:105-119 | `path_system` (given a Position) replaces the path by `find_path` to the destination when one is set, and always clears the destination |
| Systems.PathSystem | src/systems.rs:105-119 | a known object gets that step; a missing id changes nothing |
| Systems.MovementSystem | src/systems.rs:121-159 | with Position, path, Turn and AP > 0, the walked step is taken: on a walkable cell one AP is spent, the map is told of the move and the position updated; on a blocked cell the first Solid entity there becomes the bump, and bumping oneself fails; otherwise nothing changes |
| Systems.BumpStep | src/systems.rs:162-177 | `bump_system` records an attack exactly when both objects have Turns of different sides, and always clears the bump |
| Systems.BumpSystem | src/systems.rs:162-177 | a missing bumper or bumpee is a panic with nothing changed; without a bump nothing changes |
| Systems.Attacked | src/systems.rs:196-203 | the attacker spends one AP and drops the attack |
| Systems.Killed | src/systems.rs:204-220 | the target loses its AI, Position, input and Turn |
| Systems.KilledIdempotent | src/systems.rs:204-220 | a killed object stays killed and can no longer walk |
| Systems.CombatSystem | src/systems.rs:179-223 | when the attacker has AP and the target exists, the attacker is spent, the target killed and taken off the map at its position; otherwise nothing changes |
| Systems.IdleStep | src/systems.rs:237-248 | `idle_ai_system` spends exactly one AP iff the object is an AI with a Turn of the Computer's side, nothing spent and AP left |
| Systems.IdleOnce | src/systems.rs:237-248 | a second pass after idling leaves the object alone |
| Systems.IdleAiSystem | src/systems.rs:237-248 | a known object gets that step, a missing id changes nothing |
| Systems.Refill | src/systems.rs:265-275 | after the flip a Turn of the new side gets full AP and nothing spent; others are kept |
| Systems.EndOfTurnSystem | src/systems.rs:251-277 | the side flips iff every object's Turn is absent, of the other side or at zero AP; after a flip every object is refilled for the new side, and otherwise nothing changes |
| Systems.RefilledSideHasTurn | src/systems.rs:251-277 | after a flip, an object of the new side with a positive maximum holds the turn |
| Systems.PlayerDeadSystem | src/systems.rs:279-292 | a missing player is a panic; a player without Position or Turn removes the object's AI; otherwise nothing changes |
| WorldGen.Forrest | src/world_gen.rs:20-43 | one entry per cell of the w x h area, column by column: entry i is cell (i / h, i % h) with its item drawn from the weight table by the i-th new stream number, and exactly that many numbers are used |
| WorldGen.Column | src/world_gen.rs:38-40 | one column extends the result by h entries for rows 0 to h - 1 of column x, one draw each |
| WorldGen.EachCellOnce | src/world_gen.rs:37-41 | every cell (x, y) of the area is entry x * h + y and no other entry names it |
| WorldGen.EveryItemPossible | src/world_gen.rs:21-34 | every item of the table has a positive weight, the monsters 6 each, so each can come up |
| World.ItemLog.constructor | src/world.rs:27 | no item has been added yet |
| World.ItemLog.AddItem | src/world.rs:27 | the item is appended at its position, after those added before |
| World.MonsterList.constructor | src/world.rs:14 | the caller's monster list starts empty |
| World.Written | src/world.rs:17-19 | writing the map's entries over the cells one after another keeps the number of cells |
| World.PopulateWorld | src/world.rs:13-29 | the level's cells are the map written over the old cells; one new monster per generated monster, in order, of its kind at its position, is appended to the list with those before kept; the generated items are added in order |
| World.WriteMap | src/world.rs:17-19 | the cells are the old cells with every map entry written in order |
| World.SpawnMonsters | src/world.rs:20-24 | the list grows by one fresh monster per generated one, in order, each with the kind, position, action points and attack rule `Monster::new` gives it, after the monsters already there |
| World.AddItems | src/world.rs:25-28 | the log grows by the generated items, in order |
| World.WrittenUntouched | src/world.rs:17-19 | a cell no map entry names keeps its tile |
| World.WrittenDistinct | src/world.rs:17-19 | when map entries name distinct cells, each entry's cell ends up holding its tile |
| World.GeneratedMapFillsLevel | src/world.rs:17-19 | the map the forest generator draws for a w x h level names every cell of the level once, and cell i ends up holding map entry i's tile |
| World.MapCellIndex | src/generators/forrest.rs:19-26 | map entry i of the forest generator names level cell i |
| Graphic.Glyph | src/graphic.rs:52-97 | a glyph is '#' exactly for the trees, '.' exactly for ground and grass, '@' exactly for the player and other characters |
| Graphic.GlyphCollisions | src/graphic.rs:52-97 | two different graphics share a glyph only when both are trees, both floor, or they are the player and an NPC |
| Graphic.PlayerLooksLikeNpc | src/graphic.rs:81-82 | the textual display draws the player and an NPC with the same glyph |

## Left out

- Drawing, layout and the user interface: src/render.rs, the vertex building of src/engine.rs, the settings and main menu windows, and the drawing halves of src/main.rs and src/level.rs. `render` of src/level.rs is modelled only as the sequence of `draw_char` calls it makes.
- Colours and floating point: `Point::distance`, `CircularArea`, the timer percentages, colour fades and the gamepad axes. `color::invisible` is taken as "nothing is faded".
- The explosion radius growth formula of src/animation.rs is floating point; `Animation.Explosion.Update` takes the number of whole waves elapsed as the parameter `waves` and models only the clamp at the maximum radius.
- src/timer.rs is not part of this model; the animations run on the countdown timer of src/main.rs (`MainRs.Timer`).
- Integer widths: coordinates, distances and display arithmetic are unbounded integers, so the i32 overflow of `Point::add`, `abs` and the `Display` index arithmetic is not modelled. RangedInt models i32 explicitly.
- The random generator and `WeightedChoice` are a stream of draws; a weighted sample is the drawn number modulo the total weight, and `choose` is the drawn number modulo the slice length. Their real distributions are not modelled.
- The tcod A* pathfinder and tcod map queries are parameters: a path is the sequence of its steps, and the path length and first step in src/main.rs are arguments.
- The `World`/`Level` query APIs (`walkable`, `monster_on_pos`, `add_item`) and the `formula` constants are not shown in the sources: walkability is a predicate the caller supplies, `add_item` is recorded in `World.ItemLog`, and the constants are parameters.
- The emhyr entity store that src/ecm.rs wraps is not part of this model. It is taken to be a map from live entities to their components, with fresh ids from a counter, and a call on an entity it does not hold is taken to fail. Ecm.ECM.Has, Get, Set, Remove, NewEntity, RemoveEntity and RemoveAllEntities, and the two Ecm members of the Findings table, rest on these assumptions.
- EntityComponentManager.Manager.order fixes one iteration order of the keys of `_components`; the Python 2 dictionary promises none, so `components(entity)` is specified by which components it yields, not their order.
- map.rs is not part of this model: `GridMap.Map` answers its queries from fixed fields and records the mutating calls the systems make.
- rect.rs is not part of this model: `rect_intersects_area` is modelled on a rectangle given by its four edges.
- The glyph advance table of src/engine.rs is generated at build time; it is the parameter `advance` of the text-width functions.
- The text sizes, tile sizes, backends and default sizes the engine is built with are the parameter `Build` of Settings.
- TOML parsing and the reading and writing of the settings and replay files: a TOML document is a map from keys to values, a file is its text, and `FileSystemStore::new`'s fall back to a fresh file when none can be read is not modelled.
- Settings.FileSystemStore.Load reads tile_size and text_size with the corrected range check (`Settings.SizeEntry`), not the wrapping `as i32` cast of the source (see Findings).
- RangedInt.Var.SubAssign applies the corrected subtraction `RangedInt.Sub`, not the subtraction as written that the source's `-=` calls, so it does not jump to the maximum when subtracting `i32::MIN` (see Findings; `RangedInt.SubAsWrittenAgrees` states where the two agree).
- LevelRs.Level.SetTile requires the cell y * width + x to lie in the buffer, so the panic of indexing outside the cell vector is not modelled; its one caller, `World.PopulateWorld`, requires this of every map entry, and `World.GeneratedMapFillsLevel` proves it for the generated forest.
- The loc and partial_helpers modules of game.py and systems/ai.py are parameters: their answers are arguments of the systems.
- GamePy.AddictionSystem does not model the changes to the player's abilities at states of mind 98 and 99; only the decay of the state of mind and the two deaths are modelled.
- player.rs is not part of this model: `IntoxicationState::from_int` and `Player::new` are not modelled; `MainRs.Player` holds only the fields src/main.rs reads and writes, and the bounds of its `will` and `anxiety_counter` are constructor arguments.
- MainRs.AttackMonster takes `player.anxiety_counter.add(1)` and `player.will.add(1)` to store the saturated sum back in the field; the declarations of those fields are in player.rs.
- Movement.Distance is the tile (Chebyshev) distance of `Point.TileDistance`; `ai::distance` comes from src/systems/ai.rs, which is not part of this model, and is taken to be that distance.
- World.PopulateWorld requires that every monster and item position is walkable on the written map, in place of the two `assert!(level.walkable(..))` panics; `Level::walkable` is not part of this model, so no lemma ties this to the generator, which places monsters and items only on Empty cells (`Forrest.MonsterPlacement`, `Forrest.ItemPlacement`).
- `process_player` of src/main.rs: the item pickup, eating, exploding and killing monsters on the level, the position timer, the screen scrolling, `process_keys`, the pause and the replay stepping of `update` are not modelled. The command-to-action mapping, the dose pull and the anxiety counter are.
- `process_monsters` of src/main.rs: the moves on the level and the damage to the player are not modelled; the actions each monster chooses and the AP it spends are.
- GameState's `initialise_world` composition is not modelled as one step; its parts are `World.PopulateWorld` and `Forrest.Generate`.
- The declaration-only components.rs (root), components.py and the palette are used only for the component types.
- The sixteen components of component_template.rs that no modelled system reads are one constructor, `ComponentKinds.Other`, that carries which of them it is.
- The three explosion structs of src/animation.rs (square, cardinal and diagonal) are one class, `Animation.Explosion`, with its kind as a field.
- `modify_entity_attributes` and the other game.py systems outside the turn economy, status effects and replay are not modelled.
- src/systems/command_logger.rs, bin/release.py, src/gamepad.rs and hedonic-hypothesis.py are not part of this model.
- Concurrency and the frame clock: every system runs in one thread, and time is passed in as whole milliseconds.

## Findings

| source | as written | input that shows it | evidently intended | confidence | as-written member | corrected member |
|---|---|---|---|---|---|---|
| src/ecm.rs:43-45 | `remove_entity` forgets the entity but leaves it in the position cache | set a Position (3, 4) on an entity, then `remove_entity` it: `entities_on_pos((3, 4))` still returns it | the entity leaves its bucket when it is removed | not executed | Ecm.StaleCacheAfterRemoveEntity | Ecm.NoStaleCacheAfterRemoveEntity |
| game.py:336-340 | `will_system` asserts a threshold of at least 0 and then divides by it | an entity whose anxiety threshold is 0 | the threshold must be positive | not executed | GamePy.ZeroThresholdCrashes | GamePy.WillSystem |
| src/ranged_int.rs:66-68 | subtracting `i32::MIN` always yields the maximum | `RangedInt::new(i32::MIN, i32::MIN, i32::MAX) - i32::MIN` gives `i32::MAX` | the clamped difference, 0 | not executed | RangedInt.SubMinOverestimates | RangedInt.Sub |
| src/animation.rs:134-136 | the cross and X tiles of an explosion are tagged `KILL & SHATTER`, the intersection of two disjoint flags, which is no effect | any cardinal or diagonal explosion: its first cross or X tile carries neither flag | the tiles both kill and shatter, `KILL \| SHATTER` | not executed | Animation.ArmTileHasNoEffect | Animation.Explosion.IntendedTiles |
| src/settings.rs:214-218 | the 64-bit tile size is cast to i32 with `as`, which wraps | `tile_size = 4294967312` is read as 16 and accepted when 16 is available | an out-of-range number is rejected and the default kept | not executed | Settings.WrappedSizeAccepted | Settings.SizeEntry |
