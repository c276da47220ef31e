# RuneLite plugin bookkeeping, modelled in Dafny

This project models the decision and bookkeeping logic of four RuneLite client plugin files.
Everything the host client owns becomes an input: tiles, actors, items, the event bus, the
configuration and the info-box manager.

- **Raid scouter** (`raids.dfy`, module `Raids`). This is the row-building part of
  `RaidsOverlay.render`. The layout code is displayed with its `#` and `¤` markers removed. It is
  coloured red when the layout whitelist is on and does not contain the lowercased code. Then
  the layout's rooms are walked in order while the combat rooms are counted. Each discovered
  combat or puzzle room gets one line, coloured from the room whitelist, the room blacklist
  and, for the k-th combat room, the rotation match count. The class `RaidsOverlay` holds the
  panel's child list and rebuilds it in `Render`. The room loop of `render` is the method
  `AddRoomRows`, whose loop is proved equal to the recursive specification `RoomRows`. The
  lemmas about `RoomRows` give the number of rows, the row and colour that each room gets at its
  position, the layout order of the rows, and the fact that the match count has no effect while
  rotation is disabled.
- **Agility** (`agility.dfy`, module `Agility`). The class `AgilityPlugin` keeps four things:
  - the obstacle registry, a `map` from tile object to tile;
  - the tile where a mark of grace lies;
  - the lap session;
  - the last agility experience seen.

  Its methods are the object spawn, change and despawn handlers, the item-layer handler, the
  game-state handler, shutdown, and the experience handler. `Valid()` is the invariant that
  every handler keeps: only course and shortcut obstacles are ever registered. `TileHasMark`
  walks the item chain with a loop. It is proved equal to `HasMark`, a definition that does not
  use a loop. The registry update is also stated as a function, `TileObjectUpdate`, and
  `Replay` applies it over a run of events. The lemmas about `Replay` say that the last event
  naming an object decides whether it is registered and where.
- **Corporeal Beast** (`corp.dfy`, module `Corp`). The class `CorpSpecs` holds three `int`
  counters, with ghost fields that record what happened since the last reset. Its invariant
  ties each counter to that history, wrapped to 32 bits. The class `CorpPlugin` applies
  hitsplats, deaths and game ticks. Each tick keeps the plugin's info boxes in step with the
  region: the boxes are shown in the cave (region 11844) and removed elsewhere. In the cave, each
  box's text is the decimal form of its counter. Over any run of hitsplats and deaths, `Replay`
  gives the counters, and `ReplayTally` proves each counter equal to its exact tally since the
  beast's last death, wrapped to 32 bits.
- `java_int.dfy` (module `JavaInt`) covers Java `int` wrap-around and `Integer.toString`, with
  a round-trip lemma for the decimal text. `common.dfy` holds `Option`, which stands for a
  Java reference that may be null.

Notes on the source's behaviour:
- `render` has `switch` cases only for COMBAT and PUZZLE rooms. A discovered room of any other
  type therefore gets no row and does not advance `bossCount`. The panel has
  2 + (discovered combat and puzzle rooms) rows.
- The layout row is never green, only white or red.
- `scoutOverlayShown` starts false (line 55). When `render` returns null, the panel's child list
  is left as it was, not cleared.

## Model

| member | source | states |
|---|---|---|
| Raids.RaidsOverlay.Render | runelite-client/src/main/java/net/runelite/client/plugins/raids/RaidsOverlay.java:72-168 | Nothing is drawn and the panel is untouched unless the scout overlay is on in config and currently shown. Otherwise the panel's rows become exactly `PanelRows`. |
| Raids.RaidsOverlay.AddRoomRows | runelite-client/src/main/java/net/runelite/client/plugins/raids/RaidsOverlay.java:115-166 | The room loop appends to the rows already built exactly `RoomRows` of the layout's positions; its loop keeps `bossCount` equal to the number of discovered combat rooms walked so far. |
| Raids.PanelRows | runelite-client/src/main/java/net/runelite/client/plugins/raids/RaidsOverlay.java:77-166 | The panel always starts with a title. It is that title alone exactly when the raid or its layout is missing; every later row is a two-column line. |
| Raids.PanelShape | runelite-client/src/main/java/net/runelite/client/plugins/raids/RaidsOverlay.java:79-166 | A missing raid or layout gives exactly one red "Unable to scout this raid!" title. Otherwise there is a "Raid scouter" title with the default colour; then the line "Layout" with the displayed code, which holds no `#` or `¤`, red exactly when the layout whitelist is on and lacks the lowercased code and white otherwise; then exactly the room rows `RoomRows`, one per room that shows, so the panel has 2 + that many rows. |
| Raids.Delete | runelite-client/src/main/java/net/runelite/client/plugins/raids/RaidsOverlay.java:94 | The result has no occurrence of the deleted character and is no longer than the input. Input without that character comes back unchanged. |
| Raids.DeleteCounts | runelite-client/src/main/java/net/runelite/client/plugins/raids/RaidsOverlay.java:94 | Deleting a character keeps every other character exactly as often as it occurs in the input. |
| Raids.DeleteAppend | runelite-client/src/main/java/net/runelite/client/plugins/raids/RaidsOverlay.java:94 | Deleting from a concatenation is deleting from each part and concatenating, so the kept characters keep their order. |
| Raids.DisplayCode | runelite-client/src/main/java/net/runelite/client/plugins/raids/RaidsOverlay.java:94 | The displayed layout code contains neither marker. |
| Raids.DisplayCodeCounts | runelite-client/src/main/java/net/runelite/client/plugins/raids/RaidsOverlay.java:94 | The displayed code keeps every character other than the two markers exactly as often as it occurs in the code. |
| Raids.DisplayCodeAppend | runelite-client/src/main/java/net/runelite/client/plugins/raids/RaidsOverlay.java:94 | The displayed code of a concatenation is the concatenation of the displayed codes, so the kept characters keep their order. |
| Raids.DisplayCodeIdempotent | runelite-client/src/main/java/net/runelite/client/plugins/raids/RaidsOverlay.java:94 | Stripping an already displayed code changes nothing. |
| Raids.Lower | runelite-client/src/main/java/net/runelite/client/plugins/raids/RaidsOverlay.java:96 | Lowercasing keeps the length and leaves no capital A to Z. A character changes exactly when it is a capital, and text without capitals comes back unchanged. |
| Raids.LowerIdempotent | runelite-client/src/main/java/net/runelite/client/plugins/raids/RaidsOverlay.java:96 | Lowercasing lowercased text changes nothing. |
| Raids.RoomRowsLength | runelite-client/src/main/java/net/runelite/client/plugins/raids/RaidsOverlay.java:115-165 | Rooms that are not discovered, or are neither combat nor puzzle, give no row. The number of room rows is the number of rooms that show. |
| Raids.RoomRowAt | runelite-client/src/main/java/net/runelite/client/plugins/raids/RaidsOverlay.java:115-165 | The room at layout index i, when it shows, has its row after the rows of the rooms before it. The row shows the room's type name and its boss or puzzle name. It is green iff the lowercased name is whitelisted. It is red iff the name is not whitelisted and either is blacklisted or, for the k-th combat room, rotation is on and k exceeds the matches. Rotation never colours a puzzle room. |
| Raids.ShownCountMonotone | runelite-client/src/main/java/net/runelite/client/plugins/raids/RaidsOverlay.java:115-123 | A room that shows gets a row index strictly below that of every later room, so the rows come in layout order. |
| Raids.RotationOffIgnoresMatches | runelite-client/src/main/java/net/runelite/client/plugins/raids/RaidsOverlay.java:107-136 | With rotation disabled, the room rows do not depend on the number of rotation matches, so combat colours come from the lists alone. |
| Raids.RaidsOverlay.SetScoutOverlayShown | runelite-client/src/main/java/net/runelite/client/plugins/raids/RaidsOverlay.java:54-55 | The setter records whether the scout overlay is shown. |
| Raids.RaidsOverlay.constructor | runelite-client/src/main/java/net/runelite/client/plugins/raids/RaidsOverlay.java:52-65 | A new overlay is not shown and its panel is empty. |
| Agility.TileHasMark | runelite-client/src/main/java/net/runelite/client/plugins/agility/AgilityPlugin.java:185-205 | The result is true exactly when some item in the unbroken run of items at the bottom of the layer is a mark of grace. It is false for a missing layer. |
| Agility.TileObjectUpdate | runelite-client/src/main/java/net/runelite/client/plugins/agility/AgilityPlugin.java:279-293 | The old object is always dropped. The new object is afterwards registered iff its id is a course or shortcut obstacle id, and then it sits on the event tile. Every other entry keeps its tile. |
| Agility.ReplayUntouched | runelite-client/src/main/java/net/runelite/client/plugins/agility/AgilityPlugin.java:207-293 | Over any run of spawn, change and despawn events, an object that no event names keeps its entry, or its absence. |
| Agility.ReplayLastMention | runelite-client/src/main/java/net/runelite/client/plugins/agility/AgilityPlugin.java:207-293 | Over any run of events, the last event naming an object decides its entry: it is registered iff that event spawned it or changed something into it and it is an obstacle, and then it sits on that event's tile. A despawned object is never left in the registry. |
| Agility.ReplayKeepsOnlyObstacles | runelite-client/src/main/java/net/runelite/client/plugins/agility/AgilityPlugin.java:288-292 | Starting from a registry of obstacles only, no run of events registers anything but obstacles. |
| Agility.MarkAfter | runelite-client/src/main/java/net/runelite/client/plugins/agility/AgilityPlugin.java:175-182 | After the items of a tile change, the mark lies at that tile's location exactly when the tile holds a mark of grace, and then it is that tile. A mark at another location is only replaced by a mark found on this tile. A mark at this location that is no longer on the tile is forgotten. |
| Agility.AgilityPlugin.OnTileObject | runelite-client/src/main/java/net/runelite/client/plugins/agility/AgilityPlugin.java:279-293 | The registry becomes `TileObjectUpdate` of the old one, and the invariant that only obstacles are registered is kept. |
| Agility.AgilityPlugin.OnObjectEvent | runelite-client/src/main/java/net/runelite/client/plugins/agility/AgilityPlugin.java:207-277 | A spawn only adds the object when it is an obstacle. A change removes the previous object, then adds the new one when it is an obstacle. A despawn removes the object. The registry is that of one step of `Replay`. |
| Agility.AgilityPlugin.OnItemLayerChanged | runelite-client/src/main/java/net/runelite/client/plugins/agility/AgilityPlugin.java:163-183 | With an empty registry nothing changes. Otherwise the mark becomes `MarkAfter` of the old mark, the tile, and whether the tile's item chain holds a mark of grace. Nothing else changes. |
| Agility.AgilityPlugin.OnGameStateChange | runelite-client/src/main/java/net/runelite/client/plugins/agility/AgilityPlugin.java:114-128 | Hopping and the login screen clear only the session. Loading clears only the mark and the registry. Every other state changes nothing. |
| Agility.AgilityPlugin.ShutDown | runelite-client/src/main/java/net/runelite/client/plugins/agility/AgilityPlugin.java:106-112 | The mark, the registry and the session are all cleared. |
| Agility.AgilityPlugin.OnExperienceChanged | runelite-client/src/main/java/net/runelite/client/plugins/agility/AgilityPlugin.java:130-161 | Nothing changes unless the skill is agility and the lap count is shown. Otherwise the last experience becomes the current one. A lap is counted only when the region has a course and the gain is within 1 of its last-obstacle experience. The lap goes to the existing session if it is for that course; otherwise a fresh session is reset and then incremented, and the session it replaces receives no call. |
| Agility.AgilitySession.constructor | runelite-client/src/main/java/net/runelite/client/plugins/agility/AgilityPlugin.java:156 | A new session is for the given course and has had none of its operations called yet. |
| Agility.AgilitySession.ResetLapCount | runelite-client/src/main/java/net/runelite/client/plugins/agility/AgilityPlugin.java:158 | Records one reset of the session's lap count. |
| Agility.AgilitySession.IncrementLapCount | runelite-client/src/main/java/net/runelite/client/plugins/agility/AgilityPlugin.java:152-159 | Records one lap counted by the session. |
| Agility.AgilityPlugin.constructor | runelite-client/src/main/java/net/runelite/client/plugins/agility/AgilityPlugin.java:70-92 | A new plugin has an empty registry, no mark, no session and no experience seen. |
| Corp.CorpSpecs.constructor | runelite-client/src/main/java/net/runelite/client/plugins/corp/CorpSpecs.java:11-14 | A new set of counters is all zero, with an empty history. |
| Corp.CorpSpecs.IncrementDragonWarhammer | runelite-client/src/main/java/net/runelite/client/plugins/corp/CorpSpecs.java:16-19 | The DWH counter goes up by one, in Java `int` arithmetic. Arclight and BGS are unchanged. |
| Corp.CorpSpecs.IncrementArclight | runelite-client/src/main/java/net/runelite/client/plugins/corp/CorpSpecs.java:21-24 | The Arclight counter goes up by one. The other two are unchanged. |
| Corp.CorpSpecs.IncrementBandosGodsword | runelite-client/src/main/java/net/runelite/client/plugins/corp/CorpSpecs.java:26-29 | The BGS counter goes up by the damage given. The other two are unchanged. |
| Corp.CorpSpecs.SetInitial | runelite-client/src/main/java/net/runelite/client/plugins/corp/CorpSpecs.java:31-35 | All three counters become zero from any state, so a second call changes nothing. |
| Corp.CorpSpecs.CountsAreExact | runelite-client/src/main/java/net/runelite/client/plugins/corp/CorpSpecs.java:16-35 | Until 2^31 specials have been counted, the DWH and Arclight counters equal the number of increments since the last reset and are not negative. |
| Corp.CountsHitsplat | runelite-client/src/main/java/net/runelite/client/plugins/corp/CorpPlugin.java:61-63 | A hitsplat counts exactly when it is damage, landed on the actor named "Corporeal Beast", while the beast is interacting with an actor that has the local player's name. Who dealt the hit is not checked. |
| Corp.AtCorpCave | runelite-client/src/main/java/net/runelite/client/plugins/corp/CorpPlugin.java:114-119 | The player is at the cave exactly when their region id is 11844. |
| Corp.HitsplatEffect | runelite-client/src/main/java/net/runelite/client/plugins/corp/CorpPlugin.java:55-81 | A hitsplat that is not damage to the beast, landed while the beast is interacting with an actor that has the local player's name, changes nothing. A counter moves only when the animation of that interacting actor selects it. DWH and Arclight specials add one; a BGS special adds the hit amount. |
| Corp.CorpPlugin.OnHitsplat | runelite-client/src/main/java/net/runelite/client/plugins/corp/CorpPlugin.java:55-81 | The counters become `Step` of their old values for this hitsplat, which is `HitsplatEffect`, and the counter invariant is kept. |
| Corp.StepCounter | runelite-client/src/main/java/net/runelite/client/plugins/corp/CorpPlugin.java:55-90 | One event moves a counter only by its own gain: one per counted special of its kind, or the BGS damage. The beast's death sets every counter to zero. |
| Corp.StepTally | runelite-client/src/main/java/net/runelite/client/plugins/corp/CorpPlugin.java:55-90 | A counter that equals a running total wrapped to 32 bits still does so after one event: the total drops to zero at the beast's death and otherwise grows by the event's gain. |
| Corp.ReplayTally | runelite-client/src/main/java/net/runelite/client/plugins/corp/CorpPlugin.java:55-90 | After any run of hitsplats and deaths, each counter is its exact tally in Java `int` arithmetic. The tally is the sum of its gains since the beast's last death, or since the start if the beast has not died. |
| Corp.SpecialTallyBounds | runelite-client/src/main/java/net/runelite/client/plugins/corp/CorpPlugin.java:65-74 | The DWH and Arclight tallies never go below zero and grow by at most one per event. |
| Corp.SpecialCounterNotNegative | runelite-client/src/main/java/net/runelite/client/plugins/corp/CorpPlugin.java:55-90 | While fewer than 2^31 events could have raised them, the DWH and Arclight counters equal the number of their specials since the beast's last death, and so are not negative. |
| Corp.CorpPlugin.OnDeath | runelite-client/src/main/java/net/runelite/client/plugins/corp/CorpPlugin.java:83-90 | The beast's death resets all three counters to zero. Any other death changes nothing. This is `Step` for a death event. |
| Corp.CorpPlugin.OnGameTick | runelite-client/src/main/java/net/runelite/client/plugins/corp/CorpPlugin.java:92-119 | With the region id equal to 11844, all three counter boxes are displayed and each text is the decimal form of its counter. Elsewhere none is displayed and the texts are untouched. The counters themselves never change. |
| Corp.CorpPlugin.StartUp | runelite-client/src/main/java/net/runelite/client/plugins/corp/CorpPlugin.java:40-47 | Fresh counters at zero, with every counter text "0". |
| Corp.CorpPlugin.ShutDown | runelite-client/src/main/java/net/runelite/client/plugins/corp/CorpPlugin.java:49-53 | None of the three counters is displayed afterwards. The counters and texts are unchanged. |
| Corp.CorpPlugin.RemoveInfoBoxes | runelite-client/src/main/java/net/runelite/client/plugins/corp/CorpPlugin.java:121-126 | Removes exactly the three counter boxes from the displayed boxes. |
| JavaInt.Wrap32 | runelite-client/src/main/java/net/runelite/client/plugins/corp/CorpSpecs.java:16-29 | The result is a Java `int`: the exact value when it fits, and otherwise congruent to it modulo 2^32. |
| JavaInt.Wrap32Add | runelite-client/src/main/java/net/runelite/client/plugins/corp/CorpSpecs.java:16-29 | Wrapping after every `+=` gives the same value as wrapping the exact total once. This is what lets each counter be its history, wrapped. |
| JavaInt.Digits | runelite-client/src/main/java/net/runelite/client/plugins/corp/CorpPlugin.java:108-110 | The decimal digits of a number are non-empty, all digits, and have no leading zero. |
| JavaInt.NegativeRoundTrip | runelite-client/src/main/java/net/runelite/client/plugins/corp/CorpPlugin.java:108-110 | A minus sign followed by the digits of m reads back as -m. |
| JavaInt.NonNegativeRoundTrip | runelite-client/src/main/java/net/runelite/client/plugins/corp/CorpPlugin.java:108-110 | A value that is not negative prints as its digits alone, with no minus sign, and reads back. |
| JavaInt.DecimalRoundTrip | runelite-client/src/main/java/net/runelite/client/plugins/corp/CorpPlugin.java:108-110 | The counter text starts with '-' exactly for a negative value, and it parses back to the counter's value. |

## Left out

- `RaidsOverlay.renderProjectiles`, `PanelComponent.render` and all drawing through `Graphics2D`,
  `Polygon` and `Perspective` are not modelled. Colours are an enum and the panel is a sequence of rows.
- The rotation match count (`RaidsPlugin.getRotationMatches`), the layout code (`Layout.toCode`)
  and the discovered rooms (`Raid.getRoom`) are not part of this model. They are inputs.
  Rooms of types other than combat and puzzle stand as one `OtherRoom` type. A title whose colour
  is `None` uses the title component's default colour.
- Raids.Lower: lowercases the letters A to Z only. Java's `toLowerCase` is locale- and
  Unicode-aware.
- Raids.Delete: models `replaceAll("#", "")` and `replaceAll("¤", "")` as deleting those literal
  characters. Both patterns are plain characters, so regular-expression semantics play no part.
- Raids.RaidsOverlay.AddRoomRows: the `for` loop of `render` is a method of its own, called
  where the loop stands. `color` there is a fresh local; the source reuses the variable of the
  layout row, which it has already added.
- Raids.RaidsOverlay.Render: reads the raid once. The source calls `plugin.getRaid()` again and
  again, and the model assumes each call returns the same raid.
- Event-bus wiring, dependency injection, configuration lookup, `getOverlays`, and item images
  through `ItemManager` are not modelled.
- Agility.TileHasMark: takes the item layer's node chain as a finite sequence, from the bottom
  node until the chain ends. A cyclic chain, on which the source would not terminate, cannot be
  expressed.
- Agility.AgilityPlugin.OnTileObject: tile objects are keyed by a stable identity the model
  carries, not by Java object-identity hashing. A null old object is never a key, so removing it
  changes nothing.
- Agility.AgilityPlugin.OnObjectEvent: the twelve handlers are one method over an event
  datatype, four object kinds by three event shapes. Each handler passes the same arguments to
  `onTileObject` as in the source.
- Agility.AgilityPlugin.OnExperienceChanged: experience and the region id are parameters, in place
  of the client's `getSkillExperience` and the local player's location. The gain is computed with
  unbounded integers; game experience (0 to 200,000,000) never overflows a Java `int`.
- Agility.AgilitySession: the host's session is reduced to its course and a log of its reset and
  increment calls. The lap-count arithmetic inside it is not modelled.
- The course lookup (`Courses.getCourse`) and the obstacle id sets (`Obstacles.COURSE_OBSTACLE_IDS`,
  `Obstacles.SHORTCUT_OBSTACLE_IDS`) are not part of this model. They are constants given when the
  plugin is built.
- Game states are taken as RuneLite's `GameState` values. `ItemID.MARK_OF_GRACE` is taken as 11849.
- Corp.CorpPlugin.OnHitsplat: animations are an abstract enum, with the three specials plus every
  other animation id. Hitsplat types other than damage are one value. The boss name,
  `Boss.CORPOREAL_BEAST.getName()`, is taken to be "Corporeal Beast", the literal that `onDeath`
  uses. The source crashes on a null actor name or a null opponent; here these are always
  present strings. `opponentName` and `opponentAnimation` belong to the actor the beast is
  interacting with (`getInteracting()`), not to whoever dealt the hit: the source takes that
  actor to be the one who hit, so another player's damage counts while the beast targets the
  local player, and the model, like the source, has no input for who dealt a hit.
- Corp.CorpPlugin.OnGameTick: the info-box manager is reduced to the set of this plugin's counter
  boxes that it displays. Other plugins' boxes and the counters' images are not modelled, and
  the region id is a parameter in place of the client's local player location.
- Corp.CorpPlugin.StartUp: models a start with none of the counter boxes displayed. That is also
  the state after `shutDown`.
- Corp.CorpSpecs.CountsAreExact: the counters are never negative only while fewer than 2^31
  increments have happened. After that, Java's `int` wraps, and the model says so through `Wrap32`.
- `cluescrolls/clues/CoordinateClue.java` is not part of this model. It only writes fixed panel
  text and delegates drawing.
