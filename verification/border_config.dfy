/**
 The border manager's configuration and the four validated setters an operator
 reaches through the `/worldborder:*` commands. Every setter either rejects its
 arguments, leaving the configuration exactly as it was, or returns the new
 configuration.
 */
module BorderConfig {
  import opened Wrappers
  import opened Dimensions

  /**
   One dimension's record. `warning` and `warnDistance` are stored and persisted
   but never consulted: warnings use the global settings of `Config`.
   */
  datatype DimensionConfig = DimensionConfig(enabled: bool, size: int, warning: bool, warnDistance: int)

  datatype Config = Config(
    overworld: DimensionConfig,
    nether: DimensionConfig,
    end: DimensionConfig,
    globalWarning: bool,
    globalWarnDistance: int)
  {
    function Get(d: Dimension): DimensionConfig {
      match d
      case Overworld => overworld
      case Nether => nether
      case End => end
    }

    function Put(d: Dimension, dc: DimensionConfig): (c: Config)
      ensures c.Get(d) == dc
      ensures forall e :: e != d ==> c.Get(e) == Get(e)
      ensures c.globalWarning == globalWarning && c.globalWarnDistance == globalWarnDistance
    {
      match d
      case Overworld => this.(overworld := dc)
      case Nether => this.(nether := dc)
      case End => this.(end := dc)
    }
  }

  /** Smallest border size `setSize` accepts. */
  const MinSize: int := 100
  /** Largest warning distance `setWarnDistance` accepts. */
  const MaxWarnDistance: int := 50

  const DefaultDimension: DimensionConfig := DimensionConfig(false, 1000, true, 50)

  /** The configuration the constructor builds: every border off, 1000 blocks, warnings on at 50. */
  const Default: Config := Config(DefaultDimension, DefaultDimension, DefaultDimension, true, 50)

  datatype Rejection =
    | SizeNotPositive
    | SizeBelowMinimum
    | SizeNotAboveWarnDistance
    | InvalidDimension
    | WarnDistanceNegative
    | WarnDistanceAboveMaximum
    | WarnDistanceNotBelowSize(dimension: Dimension)

  /** What a setter did: replaced the configuration, or refused and changed nothing. */
  datatype Outcome = Applied(config: Config) | Rejected(reason: Rejection)
  {
    /** The configuration in force after the call. */
    function After(before: Config): Config {
      match this
      case Applied(c) => c
      case Rejected(_) => before
    }
  }

  /** Whether a setter addressed to `name` touches dimension `d`. */
  predicate Addresses(name: string, d: Dimension) {
    name == "all" || ConfigKey(name) == Some(d)
  }

  /** A name the setters accept: `all` or one of the configuration keys. */
  predicate KnownName(name: string) {
    name == "all" || ConfigKey(name).Some?
  }

  /**
   `setSize`: the size is checked for positivity, then against the minimum, then
   against the global warning distance, and only then is the dimension name looked up.
   */
  function SetSize(c: Config, name: string, size: int): (r: Outcome)
    ensures size < 1 ==> r == Rejected(SizeNotPositive)
    ensures 1 <= size < MinSize ==> r == Rejected(SizeBelowMinimum)
    ensures MinSize <= size <= c.globalWarnDistance ==> r == Rejected(SizeNotAboveWarnDistance)
    ensures r.Applied? <==> MinSize <= size && c.globalWarnDistance < size && KnownName(name)
    ensures r.Rejected? && MinSize <= size && c.globalWarnDistance < size ==> r.reason == InvalidDimension
    ensures r.Applied? ==> forall d ::
      r.config.Get(d) == (if Addresses(name, d) then c.Get(d).(size := size) else c.Get(d))
    ensures r.Applied? ==>
      r.config.globalWarning == c.globalWarning && r.config.globalWarnDistance == c.globalWarnDistance
  {
    if size < 1 then Rejected(SizeNotPositive)
    else if size < MinSize then Rejected(SizeBelowMinimum)
    else if c.globalWarnDistance >= size then Rejected(SizeNotAboveWarnDistance)
    else if name == "all" then
      Applied(c.(overworld := c.overworld.(size := size),
                 nether := c.nether.(size := size),
                 end := c.end.(size := size)))
    else match ConfigKey(name)
      case Some(d) => Applied(c.Put(d, c.Get(d).(size := size)))
      case None => Rejected(InvalidDimension)
  }

  /**
   `toggleBorder`: `all` sets every dimension to the negation of the overworld's
   flag; a single name negates that dimension's flag only.
   */
  function ToggleBorder(c: Config, name: string): (r: Outcome)
    ensures r.Rejected? <==> !KnownName(name)
    ensures r.Rejected? ==> r.reason == InvalidDimension
    ensures r.Applied? && name == "all" ==> forall d ::
      r.config.Get(d) == c.Get(d).(enabled := !c.overworld.enabled)
    ensures r.Applied? && name != "all" ==> forall d ::
      r.config.Get(d) == (if Addresses(name, d) then c.Get(d).(enabled := !c.Get(d).enabled) else c.Get(d))
    ensures r.Applied? ==>
      r.config.globalWarning == c.globalWarning && r.config.globalWarnDistance == c.globalWarnDistance
  {
    if name == "all" then
      var state := !c.overworld.enabled;
      Applied(c.(overworld := c.overworld.(enabled := state),
                 nether := c.nether.(enabled := state),
                 end := c.end.(enabled := state)))
    else match ConfigKey(name)
      case Some(d) => Applied(c.Put(d, c.Get(d).(enabled := !c.Get(d).enabled)))
      case None => Rejected(InvalidDimension)
  }

  /** `setWarning`: always accepted; only the global warning switch changes. */
  function SetWarning(c: Config, enabled: bool): (r: Outcome)
    ensures r.Applied?
    ensures r.config.globalWarning == enabled
    ensures forall d :: r.config.Get(d) == c.Get(d)
    ensures r.config.globalWarnDistance == c.globalWarnDistance
  {
    Applied(c.(globalWarning := enabled))
  }

  /**
   The first dimension of `dims`, in order, whose border is enabled and not larger
   than `distance`: the one `setWarnDistance` reports.
   */
  function FirstBlocking(c: Config, dims: seq<Dimension>, distance: int): (r: Option<Dimension>)
    ensures r.None? <==> forall i :: 0 <= i < |dims| ==> !(c.Get(dims[i]).enabled && distance >= c.Get(dims[i]).size)
    ensures r.Some? ==> exists i :: (0 <= i < |dims| && dims[i] == r.value
      && c.Get(dims[i]).enabled && distance >= c.Get(dims[i]).size
      && forall j :: 0 <= j < i ==> !(c.Get(dims[j]).enabled && distance >= c.Get(dims[j]).size))
  {
    if |dims| == 0 then None
    else if c.Get(dims[0]).enabled && distance >= c.Get(dims[0]).size then
      Some(dims[0])
    else
      var r := FirstBlocking(c, dims[1..], distance);
      if r.Some? then
        var i :| 0 <= i < |dims[1..]| && dims[1..][i] == r.value
          && c.Get(dims[1..][i]).enabled && distance >= c.Get(dims[1..][i]).size
          && forall j :: 0 <= j < i ==> !(c.Get(dims[1..][j]).enabled && distance >= c.Get(dims[1..][j]).size);
        assert dims[i + 1] == r.value;
        assert forall j :: 0 < j < i + 1 ==> dims[j] == dims[1..][j - 1];
        r
      else
        assert forall i :: 0 < i < |dims| ==> dims[i] == dims[1..][i - 1];
        r
  }

  /**
   `setWarnDistance`: the distance must lie in [0, 50] and be smaller than the
   size of every enabled border; the first offending enabled border is reported.
   */
  function SetWarnDistance(c: Config, distance: int): (r: Outcome)
    ensures distance < 0 ==> r == Rejected(WarnDistanceNegative)
    ensures distance > MaxWarnDistance ==> r == Rejected(WarnDistanceAboveMaximum)
    ensures r.Applied? <==> (0 <= distance <= MaxWarnDistance
      && forall d :: c.Get(d).enabled ==> distance < c.Get(d).size)
    ensures r.Applied? ==> r.config == c.(globalWarnDistance := distance)
    ensures r.Rejected? && 0 <= distance <= MaxWarnDistance ==> r.reason.WarnDistanceNotBelowSize?
    ensures r.Rejected? && r.reason.WarnDistanceNotBelowSize? ==>
      var d := r.reason.dimension;
      c.Get(d).enabled && distance >= c.Get(d).size
      && forall e :: e in Before(d) && c.Get(e).enabled ==> distance < c.Get(e).size
  {
    if distance < 0 then Rejected(WarnDistanceNegative)
    else if distance > MaxWarnDistance then Rejected(WarnDistanceAboveMaximum)
    else match FirstBlocking(c, AllDimensions, distance)
      case Some(d) =>
        assert AllDimensions[0] == Overworld && AllDimensions[1] == Nether && AllDimensions[2] == End;
        Rejected(WarnDistanceNotBelowSize(d))
      case None =>
        assert AllDimensions[0] == Overworld && AllDimensions[1] == Nether && AllDimensions[2] == End;
        AllDimensionsListed();
        Applied(c.(globalWarnDistance := distance))
  }

  /** Every dimension appears in the configuration's listing. */
  lemma AllDimensionsListed()
    ensures forall d :: d in AllDimensions
  {
    forall d ensures d in AllDimensions {
      match d
      case Overworld => assert AllDimensions[0] == d;
      case Nether => assert AllDimensions[1] == d;
      case End => assert AllDimensions[2] == d;
    }
  }

  /** The dimensions the configuration lists before `d`. */
  function Before(d: Dimension): set<Dimension> {
    match d
    case Overworld => {}
    case Nether => {Overworld}
    case End => {Overworld, Nether}
  }

  /** The commands an operator can issue. */
  datatype Command =
    | SizeCommand(name: string, size: int)
    | ToggleCommand(name: string)
    | WarningCommand(on: bool)
    | WarnDistanceCommand(distance: int)

  function Execute(c: Config, cmd: Command): Outcome {
    match cmd
    case SizeCommand(name, size) => SetSize(c, name, size)
    case ToggleCommand(name) => ToggleBorder(c, name)
    case WarningCommand(on) => SetWarning(c, on)
    case WarnDistanceCommand(distance) => SetWarnDistance(c, distance)
  }

  /** The configuration after issuing `cmds` in order, starting from `c`. */
  function Run(c: Config, cmds: seq<Command>): Config
    decreases |cmds|
  {
    if |cmds| == 0 then c else Run(Execute(c, cmds[0]).After(c), cmds[1..])
  }

  /** The bounds the setters enforce on every field they validate. */
  predicate Valid(c: Config) {
    && c.overworld.size >= MinSize && c.nether.size >= MinSize && c.end.size >= MinSize
    && 0 <= c.globalWarnDistance <= MaxWarnDistance
  }

  /** Every dimension's border is wider than the global warning distance. */
  predicate WarnBelowSize(c: Config) {
    forall d :: c.Get(d).size > c.globalWarnDistance
  }

  lemma ValidWarnBelowSize(c: Config)
    requires Valid(c)
    ensures WarnBelowSize(c)
  {
  }

  /** Every setter keeps a valid configuration valid, whether it accepts or rejects. */
  lemma ExecutePreservesValid(c: Config, cmd: Command)
    requires Valid(c)
    ensures Valid(Execute(c, cmd).After(c))
  {
  }

  /**
   Starting from the constructor's defaults, no sequence of commands produces a
   configuration whose warning distance reaches any border's size.
   */
  lemma {:induction false} ReachableWarnBelowSize(c: Config, cmds: seq<Command>)
    requires Valid(c)
    ensures Valid(Run(c, cmds))
    ensures WarnBelowSize(Run(c, cmds))
    decreases |cmds|
  {
    if |cmds| == 0 {
      ValidWarnBelowSize(c);
    } else {
      ExecutePreservesValid(c, cmds[0]);
      ReachableWarnBelowSize(Execute(c, cmds[0]).After(c), cmds[1..]);
    }
  }

  lemma DefaultValid()
    ensures Valid(Default)
  {
  }

  /** Whatever commands an operator issues after start-up, every border stays wider than the warning distance. */
  lemma DefaultsKeepWarnBelowSize(cmds: seq<Command>)
    ensures WarnBelowSize(Run(Default, cmds))
  {
    ReachableWarnBelowSize(Default, cmds);
  }

  /**
   From a valid configuration `setWarnDistance` never reports a border that is too
   small: its range check to 50 already keeps the distance below the minimum size.
   */
  lemma WarnDistanceSizeCheckUnreachable(c: Config, distance: int)
    requires Valid(c)
    ensures !SetWarnDistance(c, distance).Rejected?
         || !SetWarnDistance(c, distance).reason.WarnDistanceNotBelowSize?
  {
  }

  /** Toggling one dimension twice restores the configuration. */
  lemma ToggleTwiceRestores(c: Config, name: string)
    requires ConfigKey(name).Some?
    ensures ToggleBorder(ToggleBorder(c, name).config, name).config == c
  {
  }

  /** After `toggle all` every dimension agrees, so a second `toggle all` flips them together. */
  lemma ToggleAllSynchronises(c: Config)
    ensures var c1 := ToggleBorder(c, "all").config;
      c1.overworld.enabled == c1.nether.enabled == c1.end.enabled == !c.overworld.enabled
      && forall d :: ToggleBorder(c1, "all").config.Get(d).enabled == c.overworld.enabled
  {
  }
}
