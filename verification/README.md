# BedrockWorldBorder — a Dafny model of the border manager

BedrockWorldBorder is a Minecraft Bedrock behaviour pack whose script keeps players
inside a square world border centred on the origin, one border per dimension
(overworld, nether, end). This project models the decision logic of its
`WorldBorderManager` class (`BedrockWorldBorder_BP/scripts/main.js`):

- `Dimensions` — resolving the host's dimension identifier by substring match
  (`getDimensionKey`) and looking up an operator-typed configuration key.
- `BorderConfig` — the configuration (three dimension records plus the global
  warning switch and distance), the constructor defaults, and the validated setters
  `setSize`, `toggleBorder`, `setWarning` and `setWarnDistance`. Each returns either
  `Applied(newConfig)` or `Rejected(reason)`; a rejection changes nothing.
- `SafeLanding` — `findSafeY`, a bounded first-fit search over an abstract terrain
  oracle. The host's `dimension.getBlock` becomes a function from an integer cell to
  `Air`, `NonAir`, `Undefined` (the host returned nothing) or `Throws`.
- `Enforcement` — `checkPlayerPosition` (no action, warning readout, bypass
  readout for permission level 2 and above, or teleport-back) and the target that
  `teleportPlayerBack` computes: clamped horizontal position, safe height, and
  the point the player is made to face.

Player coordinates are JavaScript numbers and are modelled as exact `real`s, with
`Math.floor` as `.Floor`. Border sizes and distances are `int`s, since the commands
declare those parameters as integers. Terrain, the clock and the host calls are
parameters or left out, as listed below.

What the script does, and the model with it:
- The border is a square centred on the world origin. Distances are measured from (0, 0) (main.js:203-204), and a teleported player faces (0, y, 0) (main.js:242).
- The violation test is a strict `>` (main.js:208). A player exactly on the border, with `max(|x|,|z|) == size`, is not in violation.
- Past the border, the only corrective action is teleport-back (main.js:213). It is followed by an action-bar message and a sound (main.js:244-251), which the model leaves out.
- Warnings use the global `globalWarning` and `globalWarnDistance` (main.js:114, 176, 215). Each dimension record also stores `warning` and `warnDistance` fields (main.js:11-13), but the script never reads them. `Enforcement.PerDimensionWarningFieldsUnread` proves this.
- If a terrain lookup at the starting level throws, the original height comes back without rounding down (main.js:275-277). A lookup that returns nothing is not a failure, and the search continues (main.js:270-274).

## Model

| member | source | states |
|---|---|---|
| `Dimensions.Contains` | BedrockWorldBorder_BP/scripts/main.js:62-63 | the substring test is true exactly when the pattern occurs at some offset of the identifier |
| `Dimensions.DimensionKey` | BedrockWorldBorder_BP/scripts/main.js:61-65 | Nether iff the identifier mentions `nether`; End iff it does not but mentions `end`; Overworld iff it mentions neither |
| `Dimensions.ConfigKey` | BedrockWorldBorder_BP/scripts/main.js:124-128 | only `overworld`, `nether` and `end` name a configuration record, and the record found is the one stored under that key |
| `BorderConfig.SetSize` | BedrockWorldBorder_BP/scripts/main.js:102-133 | rejects sizes below 1, then below 100, then not above the global warning distance, then unknown names, in that order; on success only the addressed dimensions' sizes change, to the new size |
| `BorderConfig.ToggleBorder` | BedrockWorldBorder_BP/scripts/main.js:135-153 | `all` sets every dimension's flag to the negation of the overworld's flag; a single name negates only that flag; an unknown name is rejected; nothing else changes |
| `BorderConfig.SetWarning` | BedrockWorldBorder_BP/scripts/main.js:155-160 | always accepted; sets the global warning switch and leaves every dimension record and the warning distance alone |
| `BorderConfig.FirstBlocking` | BedrockWorldBorder_BP/scripts/main.js:173-180 | finds the first dimension, in configuration order, whose border is enabled and not larger than the distance, or reports that none is |
| `BorderConfig.SetWarnDistance` | BedrockWorldBorder_BP/scripts/main.js:162-185 | rejects negative distances, distances above 50, and distances reaching an enabled border's size (naming the first such border); accepted exactly otherwise, changing only the global warning distance |
| `BorderConfig.AllDimensionsListed` | BedrockWorldBorder_BP/scripts/main.js:10-14 | supporting step for `SetWarnDistance`: the listing it scans contains all three dimensions |
| `BorderConfig.ValidWarnBelowSize` | BedrockWorldBorder_BP/scripts/main.js:108-117 | supporting step for `ReachableWarnBelowSize`: sizes of at least 100 and a distance of at most 50 put every border above the warning distance |
| `BorderConfig.ExecutePreservesValid` | BedrockWorldBorder_BP/scripts/main.js:102-185 | every setter, accepted or rejected, keeps those bounds |
| `BorderConfig.ReachableWarnBelowSize` | BedrockWorldBorder_BP/scripts/main.js:102-185 | after any sequence of commands from a valid configuration, the warning distance stays below every dimension's size |
| `BorderConfig.DefaultValid` | BedrockWorldBorder_BP/scripts/main.js:10-16 | supporting step (base case) for `DefaultsKeepWarnBelowSize`: the constructor defaults satisfy those bounds |
| `BorderConfig.DefaultsKeepWarnBelowSize` | BedrockWorldBorder_BP/scripts/main.js:10-16 | from the constructor defaults, any sequence of commands leaves every dimension's size above the global warning distance |
| `BorderConfig.WarnDistanceSizeCheckUnreachable` | BedrockWorldBorder_BP/scripts/main.js:173-180 | from a valid configuration the "distance must be less than border size" rejection never fires |
| `BorderConfig.ToggleTwiceRestores` | BedrockWorldBorder_BP/scripts/main.js:143-146 | toggling one dimension twice restores the configuration |
| `BorderConfig.ToggleAllSynchronises` | BedrockWorldBorder_BP/scripts/main.js:136-140 | after `toggle all` all three flags agree, and a second `toggle all` restores the overworld's original flag everywhere |
| `SafeLanding.SearchOrder` | BedrockWorldBorder_BP/scripts/main.js:263-310 | the levels tried are the start, then start+1 up to min(start+10, 320), then start-1 down to max(start-10, -64) |
| `SafeLanding.ScanUp` | BedrockWorldBorder_BP/scripts/main.js:281-294 | returns the lowest level in range whose cell and the cell above are defined air, or none when no level fits |
| `SafeLanding.ScanDown` | BedrockWorldBorder_BP/scripts/main.js:297-310 | returns the highest level in range that fits, or none when no level fits |
| `SafeLanding.FindSafeY` | BedrockWorldBorder_BP/scripts/main.js:260-319 | a throw at the starting level returns the original height; otherwise the result is the first fitting level in search order, or the original height when none fits |
| `SafeLanding.FindSafeYWithinReach` | BedrockWorldBorder_BP/scripts/main.js:263-313 | the result is the original height or a whole level within ten of the floored start, never above 320 when it moved up and never below -64 when it moved down |
| `SafeLanding.ThrowInScanSkipsLevel` | BedrockWorldBorder_BP/scripts/main.js:281-310 | once the starting level was probed without a throw, every throwing lookup in either scan acts exactly like a non-air block: the result equals that of the same terrain with each throw replaced by non-air |
| `Enforcement.ClampAxis` | BedrockWorldBorder_BP/scripts/main.js:229-234 | an in-bounds axis is unchanged; an out-of-bounds axis lands one block inside the border on its own side, so its magnitude is at most the size |
| `Enforcement.TeleportTarget` | BedrockWorldBorder_BP/scripts/main.js:221-243 | both axes clamped, height from the safe-landing search at the clamped column, facing the origin at that height, and the target inside the border |
| `Enforcement.CheckPlayerPosition` | BedrockWorldBorder_BP/scripts/main.js:195-219 | partition: no action iff the border is off or the player is neither past it nor in the warning zone; teleport iff past it without permission; bypass readout iff past it with permission; warning iff in the zone; readouts are the floored distances, with 0 <= remaining < warning distance |
| `Enforcement.HasGameDirectorPermission` | BedrockWorldBorder_BP/scripts/main.js:67-69 | true exactly for permission level 2 (game director) and above |
| `Enforcement.GameDirectorsBypass` | BedrockWorldBorder_BP/scripts/main.js:67-69 | a player past the border with permission level 2 or more only gets a non-negative readout; anyone else is teleported |
| `Enforcement.OnBorderIsNotViolation` | BedrockWorldBorder_BP/scripts/main.js:208 | a player exactly on the border line is neither teleported nor shown a bypass readout |
| `Enforcement.TeleportNeverRetriggers` | BedrockWorldBorder_BP/scripts/main.js:229-234 | checking the player again at the teleport target never finds a violation |
| `Enforcement.WarningsOffNeverWarn` | BedrockWorldBorder_BP/scripts/main.js:215 | after warnings are switched off no check shows a warning |
| `Enforcement.ZeroWarnDistanceNeverWarns` | BedrockWorldBorder_BP/scripts/main.js:215-217 | with warning distance 0 the warning zone is empty |
| `Enforcement.PerDimensionWarningFieldsUnread` | BedrockWorldBorder_BP/scripts/main.js:11-13 | changing a dimension's own `warning`/`warnDistance` fields never changes a check's outcome |
| `Enforcement.ToggledOffIsSilent` | BedrockWorldBorder_BP/scripts/main.js:200 | after toggling off the player's own dimension, every check there does nothing |
| `Enforcement.DefaultBorderScenario` | BedrockWorldBorder_BP/scripts/main.js:11-16 | with the default 1000-block borders switched on, x = 960 warns with 40 blocks left and x = 1005 teleports to x = 999 facing the origin |

## Left out

- Persistence (`loadConfig`, `saveConfig`, main.js:29-59): dynamic-property I/O and JSON parsing. The save after every accepted setter is not modelled. The load replaces a persisted dimension object wholesale (a shallow top-level override, line 34), and it does not re-validate the loaded values.
- Command registration, the chat messages of every setter, and `showHelp`/`showStatus` (main.js:71-100, 326-458): host wiring and text output. Sizes and distances arrive as integers, so the `isNaN` tests cannot fire and are not modelled.
- Dimension names other than `all`, `overworld`, `nether` and `end` are treated as unknown. The command enum only lets those four through. Inherited JavaScript property names such as `toString` would pass the `this.config[dimension]` test in the script; they are not modelled.
- Scheduling (`init`, `startPlayerMonitoring`, `system.run*`): the host tick loop. It simply applies `CheckPlayerPosition` to each player every ten ticks. The unused `playerWarnings` map is omitted.
- Host effects (`player.teleport`, `setActionBar`, `playSound`) and the swallowing of their failures: teleport-back returns its target and facing point instead of moving the player.
- The outer `try`/`catch` of `findSafeY` (lines 315-318): with lookups as an oracle, only the inner handlers can be reached.
- Terrain itself: `getBlock` is an abstract oracle. IEEE floating point: exact reals are used instead.
- Enforcement.TeleportNeverRetriggers: stated only for border sizes of at least 1. For a size of 0 or less, the clamp lands outside the border. The setters never allow such a size, because they require at least 100.
