/**
 The per-tick decision `checkPlayerPosition` takes for one player, and the
 relocation `teleportPlayerBack` computes. The border is a square centred on the
 world origin; positions are exact reals standing in for JavaScript numbers.
 */
module Enforcement {
  import opened Dimensions
  import opened BorderConfig
  import opened SafeLanding

  datatype Position = Position(x: real, y: real, z: real)

  function Abs(r: real): real { if r < 0.0 then -r else r }

  function RealMax(a: real, b: real): real { if a >= b then a else b }

  /** Chebyshev distance of the player's column from the origin. */
  function MaxCoord(p: Position): real { RealMax(Abs(p.x), Abs(p.z)) }

  /** Permission level of a game director. */
  const GameDirectorLevel: int := 2

  /** `hasGameDirectorPermission`: game directors and above bypass the border. */
  function HasGameDirectorPermission(permissionLevel: int): (r: bool)
    ensures r <==> GameDirectorLevel <= permissionLevel
  {
    permissionLevel >= GameDirectorLevel
  }

  /** Where a teleport-back puts the player and the point the player is turned to face. */
  datatype Relocation = Relocation(target: Position, facing: Position)

  /** What one check does for one player. */
  datatype Reaction =
    | NoAction
    | WarningReadout(remaining: int)
    | BypassReadout(beyond: int)
    | TeleportBack(target: Position, facing: Position)

  /** +1 on the positive side of an axis, -1 otherwise. */
  function Side(c: real): real { if c > 0.0 then 1.0 else -1.0 }

  /** One axis of the teleport target: an axis past the border moves one block inside it, on its own side. */
  function ClampAxis(c: real, size: int): (r: real)
    ensures Abs(c) <= size as real ==> r == c
    ensures Abs(c) > size as real ==> r == Side(c) * (size - 1) as real
    ensures size >= 1 ==> Abs(r) <= size as real
    ensures size >= 1 && Abs(c) > size as real ==> Abs(r) == (size - 1) as real
  {
    if Abs(c) > size as real then
      (if c > 0.0 then (size - 1) as real else (-size + 1) as real)
    else c
  }

  /**
   The target of `teleportPlayerBack`: both horizontal axes clamped, the height
   chosen by the safe-landing search at the clamped column, and the player turned
   towards the origin at that height.
   */
  function TeleportTarget(terrain: Terrain, pos: Position, size: int): (t: Relocation)
    ensures Abs(pos.x) <= size as real ==> t.target.x == pos.x
    ensures Abs(pos.z) <= size as real ==> t.target.z == pos.z
    ensures Abs(pos.x) > size as real ==> t.target.x == Side(pos.x) * (size - 1) as real
    ensures Abs(pos.z) > size as real ==> t.target.z == Side(pos.z) * (size - 1) as real
    ensures t.target.y == FindSafeY(terrain, t.target.x, t.target.z, pos.y)
    ensures t.facing == Position(0.0, t.target.y, 0.0)
    ensures size >= 1 ==> MaxCoord(t.target) <= size as real
  {
    var x := ClampAxis(pos.x, size);
    var z := ClampAxis(pos.z, size);
    var y := FindSafeY(terrain, x, z, pos.y);
    Relocation(Position(x, y, z), Position(0.0, y, 0.0))
  }

  /** The border record that applies in the dimension with host identifier `dimensionId`. */
  function BorderFor(c: Config, dimensionId: string): DimensionConfig {
    c.Get(DimensionKey(dimensionId))
  }

  /** The player is strictly beyond the border (standing exactly on it is not a violation). */
  predicate Violates(c: Config, dimensionId: string, pos: Position) {
    MaxCoord(pos) > BorderFor(c, dimensionId).size as real
  }

  /** Inside the border, and within the global warning distance of it while warnings are on. */
  predicate InWarningZone(c: Config, dimensionId: string, pos: Position) {
    var size := BorderFor(c, dimensionId).size as real;
    MaxCoord(pos) <= size && c.globalWarning && MaxCoord(pos) > size - c.globalWarnDistance as real
  }

  /**
   `checkPlayerPosition`: nothing happens in a dimension whose border is off.
   Otherwise a player past the border is teleported back, unless a game director,
   who only sees how far out they are; a player close to the border sees how many
   blocks remain.
   */
  function CheckPlayerPosition(c: Config, dimensionId: string, pos: Position, permissionLevel: int, terrain: Terrain): (r: Reaction)
    ensures r.NoAction? <==>
      !BorderFor(c, dimensionId).enabled
      || (!Violates(c, dimensionId, pos) && !InWarningZone(c, dimensionId, pos))
    ensures r.TeleportBack? <==>
      BorderFor(c, dimensionId).enabled && Violates(c, dimensionId, pos) && !HasGameDirectorPermission(permissionLevel)
    ensures r.BypassReadout? <==>
      BorderFor(c, dimensionId).enabled && Violates(c, dimensionId, pos) && HasGameDirectorPermission(permissionLevel)
    ensures r.WarningReadout? <==> BorderFor(c, dimensionId).enabled && InWarningZone(c, dimensionId, pos)
    ensures r.BypassReadout? ==> (0 <= r.beyond
      && r.beyond as real <= MaxCoord(pos) - BorderFor(c, dimensionId).size as real < r.beyond as real + 1.0)
    ensures r.WarningReadout? ==> (0 <= r.remaining < c.globalWarnDistance
      && r.remaining as real <= BorderFor(c, dimensionId).size as real - MaxCoord(pos) < r.remaining as real + 1.0)
    ensures r.TeleportBack? ==>
      Relocation(r.target, r.facing) == TeleportTarget(terrain, pos, BorderFor(c, dimensionId).size)
  {
    var border := BorderFor(c, dimensionId);
    if !border.enabled then NoAction
    else
      var maxDistance := border.size as real;
      var maxCoord := MaxCoord(pos);
      if maxCoord > maxDistance then
        if HasGameDirectorPermission(permissionLevel) then BypassReadout((maxCoord - maxDistance).Floor)
        else
          var t := TeleportTarget(terrain, pos, border.size);
          TeleportBack(t.target, t.facing)
      else if c.globalWarning && maxCoord > maxDistance - c.globalWarnDistance as real then
        WarningReadout((maxDistance - maxCoord).Floor)
      else NoAction
  }

  /**
   A game director past the border is only told how far out they are; everyone
   else past it is teleported back.
   */
  lemma GameDirectorsBypass(c: Config, dimensionId: string, pos: Position, permissionLevel: int, terrain: Terrain)
    requires BorderFor(c, dimensionId).enabled && Violates(c, dimensionId, pos)
    ensures var r := CheckPlayerPosition(c, dimensionId, pos, permissionLevel, terrain);
      if permissionLevel >= 2 then r.BypassReadout? && r.beyond >= 0 else r.TeleportBack?
  {
  }

  /** A player standing exactly on the border line is never treated as outside it. */
  lemma OnBorderIsNotViolation(c: Config, dimensionId: string, pos: Position, permissionLevel: int, terrain: Terrain)
    requires MaxCoord(pos) == BorderFor(c, dimensionId).size as real
    ensures !CheckPlayerPosition(c, dimensionId, pos, permissionLevel, terrain).TeleportBack?
    ensures !CheckPlayerPosition(c, dimensionId, pos, permissionLevel, terrain).BypassReadout?
  {
  }

  /**
   Checking the player again right after a teleport-back, at the target, never
   finds a violation: the target lies inside the border.
   */
  lemma TeleportNeverRetriggers(c: Config, dimensionId: string, pos: Position, permissionLevel: int, terrain: Terrain)
    requires BorderFor(c, dimensionId).size >= 1
    ensures var r := CheckPlayerPosition(c, dimensionId, pos, permissionLevel, terrain);
      r.TeleportBack? ==>
        var again := CheckPlayerPosition(c, dimensionId, r.target, permissionLevel, terrain);
        !again.TeleportBack? && !again.BypassReadout?
  {
  }

  /** Once `setWarning off` is accepted, no check shows a warning. */
  lemma WarningsOffNeverWarn(c: Config, dimensionId: string, pos: Position, permissionLevel: int, terrain: Terrain)
    ensures !CheckPlayerPosition(SetWarning(c, false).config, dimensionId, pos, permissionLevel, terrain).WarningReadout?
  {
  }

  /** With a warning distance of zero the warning zone is empty. */
  lemma ZeroWarnDistanceNeverWarns(c: Config, dimensionId: string, pos: Position, permissionLevel: int, terrain: Terrain)
    requires SetWarnDistance(c, 0).Applied?
    ensures !CheckPlayerPosition(SetWarnDistance(c, 0).config, dimensionId, pos, permissionLevel, terrain).WarningReadout?
  {
  }

  /** The per-dimension `warning` and `warnDistance` fields never influence a check. */
  lemma PerDimensionWarningFieldsUnread(c: Config, d: Dimension, warning: bool, warnDistance: int,
                                        dimensionId: string, pos: Position, permissionLevel: int, terrain: Terrain)
    ensures var c' := c.Put(d, c.Get(d).(warning := warning, warnDistance := warnDistance));
      CheckPlayerPosition(c', dimensionId, pos, permissionLevel, terrain)
      == CheckPlayerPosition(c, dimensionId, pos, permissionLevel, terrain)
  {
  }

  /** Disabling a dimension's border silences every check there. */
  lemma ToggledOffIsSilent(c: Config, dimensionId: string, pos: Position, permissionLevel: int, terrain: Terrain)
    requires BorderFor(c, dimensionId).enabled
    ensures CheckPlayerPosition(ToggleBorder(c, KeyName(DimensionKey(dimensionId))).config,
                                dimensionId, pos, permissionLevel, terrain) == NoAction
  {
  }

  /**
   The default 1000-block borders with `toggle all` applied, warning at 50: a player
   at x = 960 has 40 blocks left, and one at x = 1005 is put back at x = 999,
   facing the origin.
   */
  lemma DefaultBorderScenario(dimensionId: string, terrain: Terrain)
    ensures var c := ToggleBorder(Default, "all").config;
      CheckPlayerPosition(c, dimensionId, Position(960.0, 64.0, 0.0), 0, terrain) == WarningReadout(40)
    ensures var c := ToggleBorder(Default, "all").config;
      var r := CheckPlayerPosition(c, dimensionId, Position(1005.0, 64.0, 0.0), 0, terrain);
      r.TeleportBack? && r.target.x == 999.0 && r.target.z == 0.0 && r.facing.x == 0.0 && r.facing.z == 0.0
  {
  }
}
