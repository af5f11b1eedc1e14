# WSTilesChart tile sizing, in Dafny

This project models the logic inside the `WSTilesChart` component. The component is a
Preact/React widget that draws groups of square tiles inside a container. Three pieces of
logic are modelled:

- **Group configuration lookup** (`getGroupConfig`). The chart has no `groupConfigs` at all:
  a group gets the empty configuration `{}`. Otherwise a group gets the first configuration
  whose `key` equals its own, found with `Array.prototype.find`. When no entry matches, the
  result is `undefined`.
- **Tile count** (first line of `getTileSize`). `groups.map(g => g.tilesSet.length)` is
  followed by `.reduce((a, b) => a + b)`. The reduce has no initial value, so it throws a
  TypeError on an empty `groups` array. `groups.map` also throws when `data.groups` is
  missing, which is the case with the default `data: {}`.
- **Tile size** (`calculateMaximumPossibleTileSize` and the rest of `getTileSize`):
  - The chart area is the square of the container's shorter side.
  - The raw size is `Math.sqrt(area / tilesAmount)`.
  - The raw size is then clamped to `[minTileSize, maxTileSize]`. The defaults are 8 and 25.

JavaScript's number semantics are modelled where the code depends on them (module
`JsRuntime`). Division by a zero tile count gives `Infinity`, or `NaN` for `0 / 0`.
`Math.sqrt` passes these values through. A comparison involving `NaN` is false. So a chart
whose groups are all empty gets `maxTileSize` when its container has an area, and
`minTileSize` when it does not.

`Math.sqrt` enters the model as a parameter `sqrt: real -> real`. Every operation that uses it
requires `IsSquareRoot(sqrt)`: for each `x >= 0`, `sqrt(x)` is non-negative and its square is
`x`.

The main result is `TileSizeMatchesChartArea`. It holds whenever `0 <= minTileSize <=
maxTileSize` and the chart has at least one group. Let `n` be the number of tiles and `A`
the chart area. Then:

- if `n * min² <= A <= n * max²`, the total area `n * s²` of the `n` tiles of computed size
  `s` equals `A`;
- if that equality would need tiles larger than `maxTileSize`, they are drawn at
  `maxTileSize`;
- if it would need tiles smaller than `minTileSize`, they are drawn at `minTileSize`.

The code names the raw size the "maximum possible tile size", but the size is an area bound.
It is not a geometric packing, and the tiles need not fit the container. For example, two
tiles in an 80×80 container get a raw size of `sqrt(3200)`, about 56.6. Two squares of that
size do not fit side by side in 80×80; the largest size at which two fit is 40.

Files:
- `js_runtime.dfy` (module `JsRuntime`): absent values, the TypeErrors thrown, IEEE special
  values, division, `Math.sqrt` and comparisons.
- `ws_tiles_chart.dfy` (module `WSTilesChart`): the component's data and its three
  operations, with their lemmas.

## Model

| member | source | states |
|---|---|---|
| `WSTilesChart.DefaultProps` | src/ws-tiles-chart/ws-tiles-chart.js:20-28 | The defaults: no groups, no group configurations, `minTileSize` 8 and `maxTileSize` 25, so the default range is non-empty |
| `WSTilesChart.FindByKey` | src/ws-tiles-chart/ws-tiles-chart.js:70 | `find` by key never gives the empty config. It gives `undefined` exactly when no entry has the key. Otherwise it gives the entry with the key that comes first in list order |
| `WSTilesChart.MatchesPastFirst` | src/ws-tiles-chart/ws-tiles-chart.js:70 | When the first entry does not match, "no entry matches" holds of the whole list exactly when it holds of the rest |
| `WSTilesChart.FirstMatchPastFirst` | src/ws-tiles-chart/ws-tiles-chart.js:70 | When the first entry does not match, the first match in the rest is the first match in the whole list |
| `WSTilesChart.GetGroupConfig` | src/ws-tiles-chart/ws-tiles-chart.js:68-73 | The result is the empty config exactly when `groupConfigs` is absent, whatever the group. With `groupConfigs` present, the result is `undefined` exactly when no entry has the group's key, and otherwise the first entry with that key |
| `WSTilesChart.FirstMatchIsUnique` | src/ws-tiles-chart/ws-tiles-chart.js:70 | With duplicate keys, only one configuration is the first match, so the lookup result is determined |
| `WSTilesChart.TileCounts` | src/ws-tiles-chart/ws-tiles-chart.js:82 | The `map` step: one count per group, in order, each the length of that group's `tilesSet` |
| `WSTilesChart.FoldAdd` | src/ws-tiles-chart/ws-tiles-chart.js:82 | Folding `(a, b) => a + b` from the left, starting at `acc`, gives `acc` plus the sum of the sequence |
| `WSTilesChart.AllTiles` | src/ws-tiles-chart/ws-tiles-chart.js:119 | The tiles `render` draws, group after group: every tile of every group is drawn, and nothing else is. This is the reference for the tile count |
| `WSTilesChart.ReduceAdd` | src/ws-tiles-chart/ws-tiles-chart.js:82 | `reduce` with no initial value throws `ReduceOfEmptyArray` exactly on an empty array. Otherwise it gives the sum of the elements |
| `WSTilesChart.SumOfTileCounts` | src/ws-tiles-chart/ws-tiles-chart.js:82 | The per-group counts add up to the number of tiles the chart draws |
| `WSTilesChart.TilesAmount` | src/ws-tiles-chart/ws-tiles-chart.js:82 | Missing `groups` throws `GroupsUndefined`. An empty `groups` throws `ReduceOfEmptyArray`. Otherwise the amount is the number of tiles drawn, across all groups |
| `WSTilesChart.ChartArea` | src/ws-tiles-chart/ws-tiles-chart.js:102 | The area is the square of the shorter side, never negative, and the same whichever side is taken when width equals height |
| `JsRuntime.Divide` | src/ws-tiles-chart/ws-tiles-chart.js:103 | Division is finite exactly when the divisor is non-zero, and then the quotient times the divisor is the dividend. Division by zero gives an infinity of the dividend's sign, or NaN for `0 / 0` |
| `JsRuntime.SquareRoot` | src/ws-tiles-chart/ws-tiles-chart.js:103 | `Math.sqrt` is finite exactly on finite non-negative numbers, and then gives a non-negative root whose square is the argument. It keeps `Infinity`, and gives NaN otherwise |
| `WSTilesChart.MaximumPossibleTileSize` | src/ws-tiles-chart/ws-tiles-chart.js:101-104 | With `n > 0` tiles, the size is a finite non-negative `s` with `n * s * s` equal to the chart area. With no tiles, it is `Infinity` when the area is positive and NaN when it is zero |
| `WSTilesChart.ClampTileSize` | src/ws-tiles-chart/ws-tiles-chart.js:85-91 | A size within `[min, max]` is kept. A size above `max`, or `Infinity`, becomes `max`. A size below `min` (and not above `max`), or NaN, becomes `min`. When `min <= max`, the result lies in `[min, max]` |
| `WSTilesChart.GetTileSize` | src/ws-tiles-chart/ws-tiles-chart.js:81-92 | Missing groups or empty groups give a TypeError, and only then. Otherwise the result is the clamped maximum size for the number of tiles drawn, and it lies in `[minTileSize, maxTileSize]` whenever `min <= max` |
| `WSTilesChart.ClampedSizeMatchesArea` | src/ws-tiles-chart/ws-tiles-chart.js:85-91 | The clamped size satisfies `MatchesArea`: the tiles' total area `n * s²` equals the chart area when that size is within bounds. Otherwise the size is the bound that the equality would cross |
| `WSTilesChart.TileSizeMatchesChartArea` | src/ws-tiles-chart/ws-tiles-chart.js:81-104 | For any chart with groups and `0 <= min <= max`, `getTileSize`'s result satisfies `MatchesArea` for the number of tiles drawn and the chart area |
| `JsRuntime.AtMost` | src/ws-tiles-chart/ws-tiles-chart.js:85 | JavaScript's `<=`: false for NaN, and otherwise exactly the negation of `>` |
| `JsRuntime.AtLeast` | src/ws-tiles-chart/ws-tiles-chart.js:85 | JavaScript's `>=`: false for NaN, and otherwise exactly `>` or equality |
| `JsRuntime.GreaterThan` | src/ws-tiles-chart/ws-tiles-chart.js:87 | JavaScript's `>`: the real order on finite numbers, always true for Infinity, and false for -Infinity and NaN |
| `WSTilesChart.DefaultTileSizeBounds` | src/ws-tiles-chart/ws-tiles-chart.js:24-25 | With the default bounds, every computed tile size lies in `[8, 25]` |
| `WSTilesChart.DefaultPropsHaveNoGroups` | src/ws-tiles-chart/ws-tiles-chart.js:21 | With the default `data: {}`, sizing throws `GroupsUndefined` |

## Left out

- The build scripts (`gulp/build.js`) are not part of this model. Every task there only
  configures an external gulp plugin (clean, vulcanize, sass, autoprefixer, cssnano, uglify,
  inject, rename, replace) whose code is not available. The rest is file I/O and concurrent
  task scheduling.
- The constructor, `componentDidMount` and `render` (src/ws-tiles-chart/ws-tiles-chart.js:44-60,
  110-129) are left out. They set `this.state`, measure the container's `clientWidth` and
  `clientHeight`, call `setState`, and produce JSX. The measured width and height are
  parameters of `GetTileSize` instead.
- `propTypes` (src/ws-tiles-chart/ws-tiles-chart.js:33-38) are run-time type hints only and are
  left out. The `Tile` component and `../imports` are not part of this model.
- Numbers are mathematical reals. Floating-point rounding of the product, the division and
  `Math.sqrt` is not modelled, and neither is signed zero. Infinities and NaN are modelled
  where division and `Math.sqrt` produce them. `minTileSize`, `maxTileSize`, width and height
  are taken to be finite.
- `Math.sqrt` is a parameter constrained by `IsSquareRoot`, not a definition. Dafny cannot
  construct a real square root.
- `Props` cannot hold ill-typed values. So a `tilesSet` without a `length`, keys that are
  not strings, and `groupConfigs` or `groups` of the wrong type are not modelled. Keys are
  strings compared with `===`. Any falsy `groupConfigs` (`undefined`, `null`, `false`, `0`,
  `""`) is modelled as absent.
- `Tile.data` stands for a tile's data object, which is passed to the `Tile` component
  without being read. Only the number of tiles matters here.
- `GroupConfig.settings` stands for the configuration's other properties, which are passed
  to each tile without being read.
