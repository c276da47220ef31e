/**
 * The Agility plugin's bookkeeping: a registry of the course and shortcut obstacles currently
 * loaded, the tile holding a mark of grace, and the lap session kept for the current course.
 * Host objects are values here: a tile object is identified by a stable key, a tile by its key
 * and world location, and the item layer of a tile by its chain of nodes from the bottom up.
 */
module Agility {
  import opened Common

  /** Item id of a mark of grace. */
  const MarkOfGrace: int := 11849

  datatype WorldPoint = WorldPoint(x: int, y: int, plane: int)

  datatype Tile = Tile(key: nat, worldLocation: WorldPoint)

  /** A game, ground, wall or decorative object: `key` is its identity, `id` its game object id. */
  datatype TileObject = TileObject(key: nat, id: int)

  /** A node of an item layer's chain: an item with its id, or some node that is not an item. */
  datatype LayerNode = ItemNode(itemId: int) | OtherNode

  datatype GameState = Unknown | Starting | LoginScreen | LoggingIn | Loading | LoggedIn | ConnectionLost | Hopping

  datatype Skill = AgilitySkill | OtherSkill

  /** An agility course, as far as lap counting needs it. */
  datatype Course = Course(name: string, lastObstacleXp: int)

  datatype ObjectKind = GameObject | GroundObject | WallObject | DecorativeObject

  /** The twelve object events, four kinds of object times three shapes. */
  datatype ObjectEvent =
    | Spawned(kind: ObjectKind, tile: Tile, obj: TileObject)
    | Changed(kind: ObjectKind, tile: Tile, previous: TileObject, obj: TileObject)
    | Despawned(kind: ObjectKind, tile: Tile, obj: TileObject)

  // ---------------------------------------------------------------------------
  // The obstacle registry as a value

  /**
   * The registry after `onTileObject(tile, oldObject, newObject)`, with `obstacleIds` the course
   * and shortcut obstacle ids: the old object is dropped, then the new one is put on `tile` when
   * its id is an obstacle id. An absent object stands for null.
   */
  function TileObjectUpdate(obstacles: map<TileObject, Tile>, obstacleIds: set<int>, tile: Tile,
                            oldObject: Option<TileObject>, newObject: Option<TileObject>): (r: map<TileObject, Tile>)
    ensures forall obj :: obj in r <==>
              (obj in obstacles && oldObject != Some(obj)) || (newObject == Some(obj) && obj.id in obstacleIds)
    ensures forall obj :: obj in r ==>
              r[obj] == if newObject == Some(obj) && obj.id in obstacleIds then tile else obstacles[obj]
  {
    var rest := if oldObject.Some? then obstacles - {oldObject.value} else obstacles;
    if newObject.Some? && newObject.value.id in obstacleIds then rest[newObject.value := tile] else rest
  }

  /** The object each handler passes to `onTileObject` as the one to forget. */
  function OldObject(e: ObjectEvent): Option<TileObject>
  {
    match e
    case Spawned(_, _, _) => None
    case Changed(_, _, previous, _) => Some(previous)
    case Despawned(_, _, obj) => Some(obj)
  }

  /** The object each handler passes to `onTileObject` as the one to register. */
  function NewObject(e: ObjectEvent): Option<TileObject>
  {
    match e
    case Spawned(_, _, obj) => Some(obj)
    case Changed(_, _, _, obj) => Some(obj)
    case Despawned(_, _, _) => None
  }

  /** The registry after handling `events` in order, starting from `obstacles`. */
  function Replay(obstacles: map<TileObject, Tile>, obstacleIds: set<int>, events: seq<ObjectEvent>): map<TileObject, Tile>
  {
    if events == [] then obstacles
    else
      var e := events[|events| - 1];
      TileObjectUpdate(Replay(obstacles, obstacleIds, events[..|events| - 1]), obstacleIds, e.tile, OldObject(e), NewObject(e))
  }

  /** The event names `obj`, as the object spawned, changed from or to, or despawned. */
  predicate Mentions(e: ObjectEvent, obj: TileObject)
  {
    OldObject(e) == Some(obj) || NewObject(e) == Some(obj)
  }

  /** An object that no event names keeps its entry, or its absence. */
  lemma {:induction false} ReplayUntouched(obstacles: map<TileObject, Tile>, obstacleIds: set<int>,
                                           events: seq<ObjectEvent>, obj: TileObject)
    requires forall i :: 0 <= i < |events| ==> !Mentions(events[i], obj)
    ensures obj in Replay(obstacles, obstacleIds, events) <==> obj in obstacles
    ensures obj in obstacles ==> Replay(obstacles, obstacleIds, events)[obj] == obstacles[obj]
    decreases |events|
  {
    if events != [] {
      ReplayUntouched(obstacles, obstacleIds, events[..|events| - 1], obj);
    }
  }

  /**
   * The last event that names an object decides its entry: the object is registered exactly when
   * that event spawned it or changed something into it and it is an obstacle, and then it sits on
   * that event's tile. In particular a despawned object is never left in the registry.
   */
  lemma {:induction false} ReplayLastMention(obstacles: map<TileObject, Tile>, obstacleIds: set<int>,
                                             events: seq<ObjectEvent>, obj: TileObject, i: int)
    requires forall o :: o in obstacles ==> o.id in obstacleIds
    requires 0 <= i < |events| && Mentions(events[i], obj)
    requires forall j :: i < j < |events| ==> !Mentions(events[j], obj)
    ensures obj in Replay(obstacles, obstacleIds, events) <==> NewObject(events[i]) == Some(obj) && obj.id in obstacleIds
    ensures obj in Replay(obstacles, obstacleIds, events) ==> Replay(obstacles, obstacleIds, events)[obj] == events[i].tile
    decreases |events|
  {
    var init := events[..|events| - 1];
    if i < |events| - 1 {
      ReplayLastMention(obstacles, obstacleIds, init, obj, i);
    } else {
      ReplayKeepsOnlyObstacles(obstacles, obstacleIds, init);
    }
  }

  /** Starting from a registry of obstacles only, no sequence of events registers anything else. */
  lemma {:induction false} ReplayKeepsOnlyObstacles(obstacles: map<TileObject, Tile>, obstacleIds: set<int>,
                                                    events: seq<ObjectEvent>)
    requires forall obj :: obj in obstacles ==> obj.id in obstacleIds
    ensures forall obj :: obj in Replay(obstacles, obstacleIds, events) ==> obj.id in obstacleIds
    decreases |events|
  {
    if events != [] {
      ReplayKeepsOnlyObstacles(obstacles, obstacleIds, events[..|events| - 1]);
    }
  }

  // ---------------------------------------------------------------------------
  // The mark of grace

  /**
   * Where the mark of grace is after the items on `tile` changed, while obstacles are registered:
   * afterwards the mark lies at the tile's location exactly when the tile holds one, a mark
   * elsewhere is only replaced by one found here, and a mark here that is gone is forgotten.
   */
  function MarkAfter(mark: Option<Tile>, tile: Tile, hasMark: bool): (r: Option<Tile>)
    ensures (r.Some? && r.value.worldLocation == tile.worldLocation) <==> hasMark
    ensures hasMark ==> r == Some(tile)
    ensures !hasMark && (mark.None? || mark.value.worldLocation != tile.worldLocation) ==> r == mark
    ensures !hasMark && mark.Some? && mark.value.worldLocation == tile.worldLocation ==> r == None
  {
    if mark.Some? && tile.worldLocation == mark.value.worldLocation && !hasMark then None
    else if hasMark then Some(tile)
    else mark
  }

  /** True when item `j` of the chain is reached by walking items only, from the bottom. */
  predicate ItemsUpTo(chain: seq<LayerNode>, j: int)
    requires j < |chain|
  {
    forall k :: 0 <= k <= j ==> chain[k].ItemNode?
  }

  /** A mark of grace lies in the unbroken run of items at the bottom of the layer. */
  predicate HasMark(layer: Option<seq<LayerNode>>)
  {
    layer.Some? &&
    exists j :: 0 <= j < |layer.value| && ItemsUpTo(layer.value, j) && layer.value[j] == ItemNode(MarkOfGrace)
  }

  /** Walks the item chain from the bottom and stops at the first node that is not an item. */
  method TileHasMark(layer: Option<seq<LayerNode>>) returns (hasMark: bool)
    ensures hasMark == HasMark(layer)
  {
    if layer.Some? {
      var chain := layer.value;
      var i := 0;
      while i < |chain| && chain[i].ItemNode?
        invariant 0 <= i <= |chain|
        invariant forall k :: 0 <= k < i ==> chain[k].ItemNode? && chain[k].itemId != MarkOfGrace
      {
        var item := chain[i];
        i := i + 1;
        if item.itemId == MarkOfGrace {
          assert ItemsUpTo(chain, i - 1);
          return true;
        }
      }
      assert !HasMark(layer) by {
        forall j | 0 <= j < |chain| && ItemsUpTo(chain, j)
          ensures chain[j] != ItemNode(MarkOfGrace)
        {
          assert j < i by {
            if i < |chain| {
              assert !chain[i].ItemNode?;
            }
          }
        }
      }
    }
    return false;
  }

  /** The host's lap session for one course; the model records which of its operations are called. */
  class AgilitySession {
    const course: Course
    var calls: seq<SessionCall>

    constructor (course: Course)
      ensures this.course == course && calls == []
    {
      this.course := course;
      calls := [];
    }

    method ResetLapCount()
      modifies this
      ensures calls == old(calls) + [ResetLaps]
    {
      calls := calls + [ResetLaps];
    }

    method IncrementLapCount()
      modifies this
      ensures calls == old(calls) + [IncrementLaps]
    {
      calls := calls + [IncrementLaps];
    }
  }

  datatype SessionCall = ResetLaps | IncrementLaps

  class AgilityPlugin {
    const courseObstacleIds: set<int>
    const shortcutObstacleIds: set<int>
    /** The course lookup by region id; a region with no course is absent. */
    const courses: map<int, Course>

    var obstacles: map<TileObject, Tile>
    var markOfGrace: Option<Tile>
    var session: AgilitySession?
    var lastAgilityXp: int

    /** The ids of the course and shortcut obstacles. */
    function ObstacleIds(): set<int>
    {
      courseObstacleIds + shortcutObstacleIds
    }

    predicate IsObstacle(obj: TileObject)
    {
      obj.id in ObstacleIds()
    }

    /** Only course and shortcut obstacles are ever registered. */
    ghost predicate Valid()
      reads this
    {
      forall obj :: obj in obstacles ==> IsObstacle(obj)
    }

    constructor (courseObstacleIds: set<int>, shortcutObstacleIds: set<int>, courses: map<int, Course>)
      ensures Valid()
      ensures this.courseObstacleIds == courseObstacleIds && this.shortcutObstacleIds == shortcutObstacleIds
      ensures this.courses == courses
      ensures obstacles == map[] && markOfGrace == None && session == null && lastAgilityXp == 0
    {
      this.courseObstacleIds := courseObstacleIds;
      this.shortcutObstacleIds := shortcutObstacleIds;
      this.courses := courses;
      obstacles := map[];
      markOfGrace := None;
      session := null;
      lastAgilityXp := 0;
    }

    method ShutDown()
      modifies this
      ensures Valid()
      ensures markOfGrace == None && obstacles == map[] && session == null
      ensures lastAgilityXp == old(lastAgilityXp)
    {
      markOfGrace := None;
      obstacles := map[];
      session := null;
    }

    method OnGameStateChange(state: GameState)
      requires Valid()
      modifies this
      ensures Valid()
      ensures lastAgilityXp == old(lastAgilityXp)
      ensures state == Hopping || state == LoginScreen ==>
                session == null && obstacles == old(obstacles) && markOfGrace == old(markOfGrace)
      ensures state == Loading ==>
                session == old(session) && obstacles == map[] && markOfGrace == None
      ensures state !in {Hopping, LoginScreen, Loading} ==>
                session == old(session) && obstacles == old(obstacles) && markOfGrace == old(markOfGrace)
    {
      match state {
        case Hopping | LoginScreen =>
          session := null;
        case Loading =>
          markOfGrace := None;
          obstacles := map[];
        case _ =>
      }
    }

    /**
     * Experience changed. Only agility experience with the lap counter shown is looked at; a
     * gain within one of the course's last-obstacle experience completes a lap.
     */
    method OnExperienceChanged(skill: Skill, showLapCount: bool, agilityXp: int, regionId: int)
      requires Valid()
      modifies this, session
      ensures Valid()
      ensures obstacles == old(obstacles) && markOfGrace == old(markOfGrace)
      ensures skill != AgilitySkill || !showLapCount ==>
                lastAgilityXp == old(lastAgilityXp) && session == old(session)
                && (session != null ==> session.calls == old(session.calls))
      ensures skill == AgilitySkill && showLapCount ==> lastAgilityXp == agilityXp
      ensures skill == AgilitySkill && showLapCount && !LapCompleted(regionId, agilityXp - old(lastAgilityXp)) ==>
                session == old(session) && (session != null ==> session.calls == old(session.calls))
      ensures skill == AgilitySkill && showLapCount && LapCompleted(regionId, agilityXp - old(lastAgilityXp)) ==>
                if old(session) != null && old(session).course == courses[regionId] then
                  session == old(session) && session.calls == old(session.calls) + [IncrementLaps]
                else
                  fresh(session) && session.course == courses[regionId] && session.calls == [ResetLaps, IncrementLaps]
      // A session that is replaced is dropped without any call.
      ensures old(session) != null && session != old(session) ==> old(session).calls == old(session.calls)
    {
      if skill != AgilitySkill || !showLapCount {
        return;
      }

      var skillGained := agilityXp - lastAgilityXp;
      lastAgilityXp := agilityXp;

      if regionId !in courses || Abs(courses[regionId].lastObstacleXp - skillGained) > 1 {
        return;
      }
      var course := courses[regionId];

      if session != null && session.course == course {
        session.IncrementLapCount();
      } else {
        session := new AgilitySession(course);
        session.ResetLapCount();
        session.IncrementLapCount();
      }
    }

    /** The region has a course and the experience gained matches its last obstacle, give or take one. */
    predicate LapCompleted(regionId: int, skillGained: int)
    {
      regionId in courses && Abs(courses[regionId].lastObstacleXp - skillGained) <= 1
    }

    /** The items on `tile` changed; `layer` is the tile's item layer now. */
    method OnItemLayerChanged(tile: Tile, layer: Option<seq<LayerNode>>)
      requires Valid()
      modifies this
      ensures Valid()
      ensures obstacles == old(obstacles) && session == old(session) && lastAgilityXp == old(lastAgilityXp)
      ensures markOfGrace == if old(obstacles) == map[] then old(markOfGrace)
                             else MarkAfter(old(markOfGrace), tile, HasMark(layer))
    {
      if |obstacles| == 0 {
        assert obstacles == map[];
        return;
      }

      var hasMark := TileHasMark(layer);

      if markOfGrace.Some? && tile.worldLocation == markOfGrace.value.worldLocation && !hasMark {
        markOfGrace := None;
      } else if hasMark {
        markOfGrace := Some(tile);
      }
    }

    /**
     * Forgets `oldObject`, then registers `newObject` on `tile` if it is an obstacle.
     * Absent objects stand for null: removing null finds nothing, since null is never registered.
     */
    method OnTileObject(tile: Tile, oldObject: Option<TileObject>, newObject: Option<TileObject>)
      requires Valid()
      modifies this
      ensures Valid()
      ensures markOfGrace == old(markOfGrace) && session == old(session) && lastAgilityXp == old(lastAgilityXp)
      ensures obstacles == TileObjectUpdate(old(obstacles), ObstacleIds(), tile, oldObject, newObject)
    {
      if oldObject.Some? {
        obstacles := obstacles - {oldObject.value};
      }

      if newObject.None? {
        return;
      }

      if newObject.value.id in courseObstacleIds || newObject.value.id in shortcutObstacleIds {
        obstacles := obstacles[newObject.value := tile];
      }
    }

    /** The twelve spawn, change and despawn handlers. */
    method OnObjectEvent(event: ObjectEvent)
      requires Valid()
      modifies this
      ensures Valid()
      ensures markOfGrace == old(markOfGrace) && session == old(session) && lastAgilityXp == old(lastAgilityXp)
      ensures event.Spawned? ==>
                obstacles == if IsObstacle(event.obj) then old(obstacles)[event.obj := event.tile] else old(obstacles)
      ensures event.Changed? ==>
                var rest := old(obstacles) - {event.previous};
                obstacles == if IsObstacle(event.obj) then rest[event.obj := event.tile] else rest
      ensures event.Despawned? ==> obstacles == old(obstacles) - {event.obj}
      ensures obstacles == Replay(old(obstacles), ObstacleIds(), [event])
    {
      match event {
        case Spawned(_, tile, obj) => OnTileObject(tile, None, Some(obj));
        case Changed(_, tile, previous, obj) => OnTileObject(tile, Some(previous), Some(obj));
        case Despawned(_, tile, obj) => OnTileObject(tile, Some(obj), None);
      }
    }
  }

  function Abs(x: int): nat
  {
    if x < 0 then -x else x
  }
}
