/**
 * The raid scouting panel of the Raids plugin. Given the raid's layout (its layout code and the
 * positions of its rooms, in order) and the rooms discovered so far, the overlay lists the layout
 * code coloured by the layout whitelist, then one row per discovered combat or puzzle room,
 * coloured by the room whitelist, the room blacklist and, for combat rooms, the rotation match.
 */
module Raids {
  import opened Common

  datatype Colour = White | Green | Red

  /** A panel child: a title (colour `None` is the title component's default) or a two-column line. */
  datatype Row =
    | Title(text: string, colour: Option<Colour>)
    | Line(left: string, right: string, rightColour: Colour)

  /** The switch in the scouter handles combat and puzzle rooms; every other room type falls through. */
  datatype RoomType = Combat | Puzzle | OtherRoom

  /** A discovered room: its type, the type's display name, and the boss or puzzle it holds. */
  datatype RaidRoom = RaidRoom(roomType: RoomType, typeName: string, bossName: string, puzzleName: string)

  /** The layout: its code, as the layout renders it, and its rooms' positions in layout order. */
  datatype Layout = Layout(code: string, positions: seq<int>)

  /** A raid: its layout if known, and the rooms discovered so far, by position. */
  datatype Raid = Raid(layout: Option<Layout>, rooms: map<int, RaidRoom>)

  datatype ScoutConfig = ScoutConfig(scoutOverlay: bool, enableLayoutWhitelist: bool, enableRotationWhitelist: bool)

  /** What the plugin supplies: the current raid, the three name lists, and the rotation match count. */
  datatype ScoutState = ScoutState(
    raid: Option<Raid>,
    layoutWhitelist: set<string>,
    roomWhitelist: set<string>,
    roomBlacklist: set<string>,
    rotationMatches: int)

  /** The inputs of the room colouring. */
  datatype RoomFilter = RoomFilter(whitelist: set<string>, blacklist: set<string>, rotationEnabled: bool, bossMatches: int)

  const Unavailable: string := "Unable to scout this raid!"

  // ---------------------------------------------------------------------------
  // Strings

  function LowerChar(c: char): char
  {
    if 'A' <= c <= 'Z' then (c as int - 'A' as int + 'a' as int) as char else c
  }

  predicate IsUpper(c: char) { 'A' <= c <= 'Z' }

  /**
   * Lowercasing, for the letters A to Z: no capital is left, exactly the capitals change, and
   * text without capitals comes back as it was.
   */
  function Lower(s: string): (r: string)
    ensures |r| == |s|
    ensures forall i :: 0 <= i < |r| ==> !IsUpper(r[i])
    ensures forall i :: 0 <= i < |s| ==> (r[i] == s[i] <==> !IsUpper(s[i]))
    ensures (forall i :: 0 <= i < |s| ==> !IsUpper(s[i])) ==> r == s
  {
    seq(|s|, i requires 0 <= i < |s| => LowerChar(s[i]))
  }

  /** Lowercasing twice is lowercasing once. */
  lemma LowerIdempotent(s: string)
    ensures Lower(Lower(s)) == Lower(s)
  {
  }

  /**
   * `s` with every occurrence of `c` removed; every other character is kept as often as it occurs
   * (`DeleteCounts`) and in the order it occurs (`DeleteAppend`).
   */
  function Delete(s: string, c: char): (r: string)
    ensures c !in r
    ensures |r| <= |s|
    ensures c !in s ==> r == s
  {
    if s == [] then []
    else (if s[0] == c then [] else [s[0]]) + Delete(s[1..], c)
  }

  /** Deleting `c` removes all its occurrences and keeps every other character as often as it occurs. */
  lemma {:induction false} DeleteCounts(s: string, c: char)
    ensures multiset(Delete(s, c)) == multiset(s)[c := 0]
    decreases |s|
  {
    if s != [] {
      assert s == [s[0]] + s[1..];
      DeleteCounts(s[1..], c);
    }
  }

  /** Deleting distributes over concatenation, so the kept characters stay in their order. */
  lemma {:induction false} DeleteAppend(a: string, b: string, c: char)
    ensures Delete(a + b, c) == Delete(a, c) + Delete(b, c)
    decreases |a|
  {
    if a == [] {
      assert a + b == b;
    } else {
      var h := if a[0] == c then [] else [a[0]];
      assert (a + b)[0] == a[0] && (a + b)[1..] == a[1..] + b;
      calc {
        Delete(a + b, c);
        h + Delete(a[1..] + b, c);
        { DeleteAppend(a[1..], b, c); }
        h + (Delete(a[1..], c) + Delete(b, c));
        (h + Delete(a[1..], c)) + Delete(b, c);
      }
    }
  }

  const Hash: char := '#'
  const Currency: char := '\U{A4}'

  /** The layout code as the scouter displays it: the two marker characters removed. */
  function DisplayCode(code: string): (r: string)
    ensures Hash !in r && Currency !in r
  {
    var r := Delete(Delete(code, Hash), Currency);
    DeleteCounts(Delete(code, Hash), Currency);
    assert multiset(r)[Hash] == 0;
    r
  }

  /** The display code keeps every character other than the two markers as often as it occurs. */
  lemma DisplayCodeCounts(code: string)
    ensures multiset(DisplayCode(code)) == multiset(code)[Hash := 0][Currency := 0]
  {
    DeleteCounts(code, Hash);
    DeleteCounts(Delete(code, Hash), Currency);
  }

  /** The display code of a concatenation is the concatenation of the display codes. */
  lemma DisplayCodeAppend(a: string, b: string)
    ensures DisplayCode(a + b) == DisplayCode(a) + DisplayCode(b)
  {
    DeleteAppend(a, b, Hash);
    DeleteAppend(Delete(a, Hash), Delete(b, Hash), Currency);
  }

  /** Displaying a displayed code changes nothing. */
  lemma DisplayCodeIdempotent(code: string)
    ensures DisplayCode(DisplayCode(code)) == DisplayCode(code)
  {
  }

  // ---------------------------------------------------------------------------
  // Room colouring

  function CombatColour(name: string, bossCount: int, f: RoomFilter): Colour
  {
    if Lower(name) in f.whitelist then Green
    else if Lower(name) in f.blacklist || (f.rotationEnabled && bossCount > f.bossMatches) then Red
    else White
  }

  function PuzzleColour(name: string, f: RoomFilter): Colour
  {
    if Lower(name) in f.whitelist then Green
    else if Lower(name) in f.blacklist then Red
    else White
  }

  predicate IsListed(room: RaidRoom)
  {
    room.roomType == Combat || room.roomType == Puzzle
  }

  /** The name the room's row shows: the boss of a combat room, the puzzle of a puzzle room. */
  function ShownName(room: RaidRoom): string
  {
    if room.roomType == Combat then room.bossName else room.puzzleName
  }

  /** The row for a listed room that is the `bossCount`-th combat room or comes after it. */
  function RoomLine(room: RaidRoom, bossCount: int, f: RoomFilter): Row
    requires IsListed(room)
  {
    if room.roomType == Combat then Line(room.typeName, room.bossName, CombatColour(room.bossName, bossCount, f))
    else Line(room.typeName, room.puzzleName, PuzzleColour(room.puzzleName, f))
  }

  /** The room at `position` is discovered and gets a row. */
  predicate Shows(rooms: map<int, RaidRoom>, position: int)
  {
    position in rooms && IsListed(rooms[position])
  }

  predicate IsCombatAt(rooms: map<int, RaidRoom>, position: int)
  {
    position in rooms && rooms[position].roomType == Combat
  }

  /** Number of discovered combat rooms among `ps`. */
  function CombatCount(rooms: map<int, RaidRoom>, ps: seq<int>): nat
  {
    if ps == [] then 0
    else CombatCount(rooms, ps[..|ps| - 1]) + (if IsCombatAt(rooms, ps[|ps| - 1]) then 1 else 0)
  }

  /** Number of rows the rooms `ps` produce. */
  function ShownCount(rooms: map<int, RaidRoom>, ps: seq<int>): nat
  {
    if ps == [] then 0
    else ShownCount(rooms, ps[..|ps| - 1]) + (if Shows(rooms, ps[|ps| - 1]) then 1 else 0)
  }

  /** The rows for the rooms at positions `ps`, in order. */
  function RoomRows(rooms: map<int, RaidRoom>, ps: seq<int>, f: RoomFilter): (r: seq<Row>)
    ensures forall i :: 0 <= i < |r| ==> r[i].Line?
  {
    if ps == [] then []
    else
      var p := ps[|ps| - 1];
      RoomRows(rooms, ps[..|ps| - 1], f)
      + (if Shows(rooms, p) then [RoomLine(rooms[p], CombatCount(rooms, ps), f)] else [])
  }

  /** The filter the scouter applies: the rotation match count is only read when rotation is enabled. */
  function FilterOf(config: ScoutConfig, state: ScoutState): RoomFilter
  {
    RoomFilter(state.roomWhitelist, state.roomBlacklist, config.enableRotationWhitelist,
               if config.enableRotationWhitelist then state.rotationMatches else 0)
  }

  function LayoutColour(config: ScoutConfig, state: ScoutState, shown: string): Colour
  {
    if config.enableLayoutWhitelist && Lower(shown) !in state.layoutWhitelist then Red else White
  }

  /**
   * The panel's rows for a render with the scout overlay on. A missing raid or layout is told
   * apart from an empty layout: it alone gives a single row, a title; otherwise every row after
   * the title is a two-column line.
   */
  function PanelRows(config: ScoutConfig, state: ScoutState): (r: seq<Row>)
    ensures |r| >= 1 && r[0].Title?
    ensures |r| == 1 <==> state.raid.None? || state.raid.value.layout.None?
    ensures forall i :: 1 <= i < |r| ==> r[i].Line?
  {
    if state.raid.None? || state.raid.value.layout.None? then [Title(Unavailable, Some(Red))]
    else
      var layout := state.raid.value.layout.value;
      var shown := DisplayCode(layout.code);
      [Title("Raid scouter", None), Line("Layout", shown, LayoutColour(config, state, shown))]
      + RoomRows(state.raid.value.rooms, layout.positions, FilterOf(config, state))
  }

  // ---------------------------------------------------------------------------
  // Properties of the panel

  lemma {:induction false} RoomRowsLength(rooms: map<int, RaidRoom>, ps: seq<int>, f: RoomFilter)
    ensures |RoomRows(rooms, ps, f)| == ShownCount(rooms, ps)
    decreases |ps|
  {
    if ps != [] {
      RoomRowsLength(rooms, ps[..|ps| - 1], f);
    }
  }

  /**
   * The room at index `i` of the layout, when it shows, has its row at the position given by the
   * number of rows before it, and that row's colour follows the lists and, for the k-th combat
   * room, the rotation match: the whitelist wins; then the blacklist, or a combat room past
   * the rotation matches, gives red; anything else is white.
   */
  lemma {:induction false} RoomRowAt(rooms: map<int, RaidRoom>, ps: seq<int>, f: RoomFilter, i: int)
    requires 0 <= i < |ps| && Shows(rooms, ps[i])
    ensures ShownCount(rooms, ps[..i]) < |RoomRows(rooms, ps, f)|
    ensures var row := RoomRows(rooms, ps, f)[ShownCount(rooms, ps[..i])];
            var room := rooms[ps[i]];
            var k := CombatCount(rooms, ps[..i + 1]);
            && row.Line?
            && row.left == room.typeName
            && row.right == ShownName(room)
            && (row.rightColour == Green <==> Lower(ShownName(room)) in f.whitelist)
            && (row.rightColour == Red <==>
                  Lower(ShownName(room)) !in f.whitelist
                  && (Lower(ShownName(room)) in f.blacklist
                      || (room.roomType == Combat && f.rotationEnabled && k > f.bossMatches)))
    decreases |ps|
  {
    var init := ps[..|ps| - 1];
    RoomRowsLength(rooms, init, f);
    if i == |ps| - 1 {
      assert ps[..i] == init;
      assert ps[..i + 1] == ps;
    } else {
      assert init[..i] == ps[..i];
      assert init[..i + 1] == ps[..i + 1];
      RoomRowAt(rooms, init, f, i);
      assert ShownCount(rooms, ps[..i]) < ShownCount(rooms, init);
    }
  }

  /** Rooms that show produce rows in layout order: a later room's row comes later. */
  lemma {:induction false} ShownCountMonotone(rooms: map<int, RaidRoom>, ps: seq<int>, i: int, j: int)
    requires 0 <= i < j <= |ps| && Shows(rooms, ps[i])
    ensures ShownCount(rooms, ps[..i]) < ShownCount(rooms, ps[..j])
    decreases j
  {
    assert ps[..j][..j - 1] == ps[..j - 1];
    if j - 1 > i {
      ShownCountMonotone(rooms, ps, i, j - 1);
    } else {
      assert ps[..i + 1][..i] == ps[..i];
    }
  }

  /** With rotation disabled the number of rotation matches never matters. */
  lemma {:induction false} RotationOffIgnoresMatches(rooms: map<int, RaidRoom>, ps: seq<int>, f: RoomFilter, matches: int)
    requires !f.rotationEnabled
    ensures RoomRows(rooms, ps, f) == RoomRows(rooms, ps, f.(bossMatches := matches))
    decreases |ps|
  {
    if ps != [] {
      RotationOffIgnoresMatches(rooms, ps[..|ps| - 1], f, matches);
    }
  }

  /**
   * The panel's shape: with no raid or no layout it is the one "unable to scout" title; otherwise a
   * title, the layout row, and one row per room that shows. The layout row shows the code without
   * its markers, red exactly when the layout whitelist is on and does not hold the lowercased code.
   */
  lemma PanelShape(config: ScoutConfig, state: ScoutState)
    ensures var rows := PanelRows(config, state);
            if state.raid.None? || state.raid.value.layout.None? then
              rows == [Title(Unavailable, Some(Red))]
            else
              var layout := state.raid.value.layout.value;
              var shown := DisplayCode(layout.code);
              && |rows| == 2 + ShownCount(state.raid.value.rooms, layout.positions)
              && rows[0] == Title("Raid scouter", None)
              && rows[1] == Line("Layout", shown,
                                 if config.enableLayoutWhitelist && Lower(shown) !in state.layoutWhitelist then Red else White)
              && Hash !in rows[1].right && Currency !in rows[1].right
              && rows[2..] == RoomRows(state.raid.value.rooms, layout.positions, FilterOf(config, state))
  {
    if state.raid.Some? && state.raid.value.layout.Some? {
      RoomRowsLength(state.raid.value.rooms, state.raid.value.layout.value.positions, FilterOf(config, state));
    }
  }

  /** Adding the room at index `i` to the rooms before it. */
  lemma RoomRowsStep(rooms: map<int, RaidRoom>, ps: seq<int>, i: int, f: RoomFilter)
    requires 0 <= i < |ps|
    ensures CombatCount(rooms, ps[..i + 1]) == CombatCount(rooms, ps[..i]) + (if IsCombatAt(rooms, ps[i]) then 1 else 0)
    ensures RoomRows(rooms, ps[..i + 1], f) == RoomRows(rooms, ps[..i], f)
              + (if Shows(rooms, ps[i]) then [RoomLine(rooms[ps[i]], CombatCount(rooms, ps[..i + 1]), f)] else [])
  {
    assert ps[..i + 1][..i] == ps[..i];
  }

  /** The scouting overlay; `children` is its panel's list of rows. */
  class RaidsOverlay {
    var scoutOverlayShown: bool
    var children: seq<Row>

    constructor ()
      ensures !scoutOverlayShown && children == []
    {
      scoutOverlayShown := false;
      children := [];
    }

    method SetScoutOverlayShown(shown: bool)
      modifies this`scoutOverlayShown
      ensures scoutOverlayShown == shown
    {
      scoutOverlayShown := shown;
    }

    /**
     * Rebuilds the panel's rows, or returns false (nothing drawn, panel left as it was) when the
     * scout overlay is off in the configuration or not currently shown.
     */
    method Render(config: ScoutConfig, state: ScoutState) returns (drawn: bool)
      modifies this`children
      ensures drawn == (config.scoutOverlay && scoutOverlayShown)
      ensures !drawn ==> children == old(children)
      ensures drawn ==> children == PanelRows(config, state)
    {
      if !config.scoutOverlay || !scoutOverlayShown {
        return false;
      }

      children := [];

      if state.raid.None? || state.raid.value.layout.None? {
        children := children + [Title(Unavailable, Some(Red))];
        return true;
      }

      children := children + [Title("Raid scouter", None)];

      var raid := state.raid.value;
      var color := White;
      var layout := DisplayCode(raid.layout.value.code);

      if config.enableLayoutWhitelist && Lower(layout) !in state.layoutWhitelist {
        color := Red;
      }

      children := children + [Line("Layout", layout, color)];

      var bossMatches := 0;

      if config.enableRotationWhitelist {
        bossMatches := state.rotationMatches;
      }

      ghost var header := children;
      assert header == [Title("Raid scouter", None), Line("Layout", layout, LayoutColour(config, state, layout))];
      AddRoomRows(config, state, raid.rooms, raid.layout.value.positions, bossMatches);
      return true;
    }

    /**
     * The loop of `Render` over the layout's rooms: one line per discovered combat or puzzle room,
     * appended in layout order to the rows already built.
     */
    method AddRoomRows(config: ScoutConfig, state: ScoutState, rooms: map<int, RaidRoom>, ps: seq<int>, bossMatches: int)
      requires bossMatches == FilterOf(config, state).bossMatches
      modifies this`children
      ensures children == old(children) + RoomRows(rooms, ps, FilterOf(config, state))
    {
      ghost var header := children;
      ghost var f := FilterOf(config, state);
      var bossCount := 0;
      for i := 0 to |ps|
        invariant bossCount == CombatCount(rooms, ps[..i])
        invariant children == header + RoomRows(rooms, ps[..i], f)
      {
        RoomRowsStep(rooms, ps, i, f);
        var position := ps[i];
        if position !in rooms {
          continue;
        }
        var room := rooms[position];

        var color := White;

        match room.roomType {
          case Combat =>
            bossCount := bossCount + 1;
            if Lower(room.bossName) in state.roomWhitelist {
              color := Green;
            } else if Lower(room.bossName) in state.roomBlacklist
                || (config.enableRotationWhitelist && bossCount > bossMatches) {
              color := Red;
            }
            children := children + [Line(room.typeName, room.bossName, color)];
          case Puzzle =>
            if Lower(room.puzzleName) in state.roomWhitelist {
              color := Green;
            } else if Lower(room.puzzleName) in state.roomBlacklist {
              color := Red;
            }
            children := children + [Line(room.typeName, room.puzzleName, color)];
          case OtherRoom =>
        }
      }
      assert ps[..|ps|] == ps;
    }
  }
}
