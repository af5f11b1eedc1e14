/** The tile-sizing and group-lookup logic of the WSTilesChart component:
    how a group of tiles finds its configuration, how many tiles the chart
    holds, and how large each square tile is drawn: the size whose tiles'
    total area equals the square of the container's shorter side, clamped
    to the configured bounds. */
module WSTilesChart {
  import opened JsRuntime

  /** A tile's data object, handed to the tile unread; only the number of
      tiles matters to the sizing logic. */
  datatype Tile = Tile(data: map<string, string>)

  /** A group of tiles. */
  datatype Group = Group(key: string, tilesSet: seq<Tile>)

  /** The configuration of the group with the same key; its other settings
      (such as a colour) are handed to each tile unread. */
  datatype GroupConfig = GroupConfig(key: string, settings: map<string, string>)

  /** `props.config`, whose `groupConfigs` may be absent. */
  datatype Config = Config(groupConfigs: Option<seq<GroupConfig>>)

  /** `props.data`, whose `groups` may be absent. */
  datatype Data = Data(groups: Option<seq<Group>>)

  /** The component's properties. */
  datatype Props = Props(
    data: Data,
    config: Config,
    title: string,
    maxTileSize: real,
    minTileSize: real,
    height: real,
    width: real)

  /** The properties a chart gets when its user sets none. */
  function DefaultProps(): (p: Props)
    ensures p.data.groups.None? && p.config.groupConfigs.None?
    ensures p.minTileSize == 8.0 && p.maxTileSize == 25.0
    ensures p.minTileSize <= p.maxTileSize
  {
    Props(Data(None), Config(None), "", 25.0, 8.0, 80.0, 80.0)
  }

  // ---------------------------------------------------------------------------
  // Group configuration lookup

  /** What `getGroupConfig` yields: the empty object `{}`, a configuration,
      or `undefined`. */
  datatype GroupConfigResult = EmptyConfig | Found(config: GroupConfig) | Undefined

  /** No configuration in `configs` carries `key`. */
  ghost predicate NoMatch(configs: seq<GroupConfig>, key: string) {
    forall i :: 0 <= i < |configs| ==> configs[i].key != key
  }

  /** `gc` is the configuration with `key` that comes first in `configs`. */
  ghost predicate IsFirstMatch(configs: seq<GroupConfig>, key: string, gc: GroupConfig) {
    exists i :: 0 <= i < |configs| && configs[i] == gc && gc.key == key && NoMatch(configs[..i], key)
  }

  /** `configs.find(gc => gc.key === key)`: scans in list order and stops at
      the first match. */
  function FindByKey(configs: seq<GroupConfig>, key: string): (r: GroupConfigResult)
    ensures !r.EmptyConfig?
    ensures r.Undefined? <==> NoMatch(configs, key)
    ensures r.Found? ==> IsFirstMatch(configs, key, r.config)
  {
    if |configs| == 0 then Undefined
    else if configs[0].key == key then
      assert NoMatch(configs[..0], key);
      Found(configs[0])
    else
      var r := FindByKey(configs[1..], key);
      MatchesPastFirst(configs, key);
      if r.Found? then FirstMatchPastFirst(configs, key, r.config); r else r
  }

  /** When the first configuration does not match, no configuration matches
      exactly when none of the rest does. */
  lemma MatchesPastFirst(configs: seq<GroupConfig>, key: string)
    requires |configs| != 0 && configs[0].key != key
    ensures NoMatch(configs, key) <==> NoMatch(configs[1..], key)
  {
  }

  /** When the first configuration does not match, the first match among the
      rest is the first match of all. */
  lemma FirstMatchPastFirst(configs: seq<GroupConfig>, key: string, gc: GroupConfig)
    requires |configs| != 0 && configs[0].key != key
    requires IsFirstMatch(configs[1..], key, gc)
    ensures IsFirstMatch(configs, key, gc)
  {
    var i :| 0 <= i < |configs[1..]| && configs[1..][i] == gc && gc.key == key
             && NoMatch(configs[1..][..i], key);
    assert configs[..i + 1] == [configs[0]] + configs[1..][..i];
    assert configs[i + 1] == gc;
  }

  /** `getGroupConfig(config, group)`: the empty configuration when the chart
      has no group configurations at all, otherwise the first configuration
      whose key is the group's, or `undefined` when there is none. */
  function GetGroupConfig(config: Config, group: Group): (r: GroupConfigResult)
    ensures config.groupConfigs.None? <==> r.EmptyConfig?
    ensures config.groupConfigs.Some? ==>
              (r.Undefined? <==> NoMatch(config.groupConfigs.value, group.key))
    ensures r.Found? ==> IsFirstMatch(config.groupConfigs.value, group.key, r.config)
  {
    match config.groupConfigs
    case Some(configs) => FindByKey(configs, group.key)
    case None => EmptyConfig
  }

  /** At most one configuration is the first with a given key. */
  lemma FirstMatchIsUnique(configs: seq<GroupConfig>, key: string, a: GroupConfig, b: GroupConfig)
    requires IsFirstMatch(configs, key, a) && IsFirstMatch(configs, key, b)
    ensures a == b
  {
  }

  // ---------------------------------------------------------------------------
  // Counting tiles

  /** The tiles the chart draws, group after group: every tile of every
      group, and no other. */
  function AllTiles(groups: seq<Group>): (tiles: seq<Tile>)
    ensures forall i, t :: 0 <= i < |groups| && t in groups[i].tilesSet ==> t in tiles
    ensures forall t :: t in tiles ==> exists i :: 0 <= i < |groups| && t in groups[i].tilesSet
  {
    if |groups| == 0 then []
    else
      var rest := AllTiles(groups[1..]);
      assert forall i :: 1 <= i < |groups| ==> groups[i] == groups[1..][i - 1];
      groups[0].tilesSet + rest
  }

  /** `groups.map(group => group.tilesSet.length)`. */
  function TileCounts(groups: seq<Group>): (counts: seq<nat>)
    ensures |counts| == |groups|
    ensures forall i :: 0 <= i < |groups| ==> counts[i] == |groups[i].tilesSet|
  {
    if |groups| == 0 then [] else [|groups[0].tilesSet|] + TileCounts(groups[1..])
  }

  /** The sum of a sequence of counts. */
  function Sum(xs: seq<nat>): nat {
    if |xs| == 0 then 0 else xs[0] + Sum(xs[1..])
  }

  /** The callback `(a, b) => a + b` applied from left to right, starting
      from `acc`: the result is `acc` plus the sum of the elements. */
  function FoldAdd(acc: nat, xs: seq<nat>): (total: nat)
    ensures total == acc + Sum(xs)
    decreases |xs|
  {
    if |xs| == 0 then acc else FoldAdd(acc + xs[0], xs[1..])
  }

  /** `xs.reduce((a, b) => a + b)` with no initial value: the first element
      seeds the fold, and an empty array throws. */
  function ReduceAdd(xs: seq<nat>): (r: Result<nat>)
    ensures r.Err? <==> |xs| == 0
    ensures r.Err? ==> r.error == ReduceOfEmptyArray
    ensures r.Ok? ==> r.value == Sum(xs)
  {
    if |xs| == 0 then Err(ReduceOfEmptyArray)
    else
      Ok(FoldAdd(xs[0], xs[1..]))
  }

  /** The per-group counts add up to the number of tiles drawn. */
  lemma {:induction false} SumOfTileCounts(groups: seq<Group>)
    ensures Sum(TileCounts(groups)) == |AllTiles(groups)|
  {
    if |groups| != 0 {
      SumOfTileCounts(groups[1..]);
      assert TileCounts(groups)[1..] == TileCounts(groups[1..]);
    }
  }

  /** The tile count of the first line of `getTileSize`. */
  function TilesAmount(data: Data): (r: Result<nat>)
    ensures data.groups.None? ==> r == Err(GroupsUndefined)
    ensures data.groups == Some([]) ==> r == Err(ReduceOfEmptyArray)
    ensures data.groups.Some? && data.groups.value != [] ==>
              r == Ok(|AllTiles(data.groups.value)|)
  {
    match data.groups
    case None => Err(GroupsUndefined)
    case Some(groups) =>
      SumOfTileCounts(groups);
      ReduceAdd(TileCounts(groups))
  }

  // ---------------------------------------------------------------------------
  // Sizing tiles

  function Min(a: real, b: real): real {
    if a <= b then a else b
  }

  /** The chart area: the square of the container's shorter side. */
  function ChartArea(width: real, height: real): (area: real)
    ensures area == Min(width, height) * Min(width, height)
    ensures width == height ==> area == width * width
    ensures 0.0 <= area
  {
    if width < height then width * width else height * height
  }

  /** `calculateMaximumPossibleTileSize`: the side of a square tile such that
      the total area of `tilesAmount` such tiles equals the chart area (an
      area bound, not a geometric packing); Infinity when there are no tiles,
      NaN when there is no area either. */
  function MaximumPossibleTileSize(width: real, height: real, tilesAmount: nat, sqrt: real -> real): (size: Number)
    requires IsSquareRoot(sqrt)
    ensures 0 < tilesAmount ==>
              size.Finite? && 0.0 <= size.value
              && tilesAmount as real * size.value * size.value == ChartArea(width, height)
    ensures tilesAmount == 0 && 0.0 < ChartArea(width, height) ==> size == PositiveInfinity
    ensures tilesAmount == 0 && ChartArea(width, height) == 0.0 ==> size == NaN
  {
    SquareRoot(Divide(ChartArea(width, height), tilesAmount as real), sqrt)
  }

  /** The conditional of `getTileSize`: a size within the bounds is kept, one
      above the maximum is lowered to it, and every other size (below the
      minimum, or NaN) becomes the minimum. */
  function ClampTileSize(size: Number, minTileSize: real, maxTileSize: real): (r: real)
    ensures size.Finite? && minTileSize <= size.value <= maxTileSize ==> r == size.value
    ensures size.Finite? && maxTileSize < size.value ==> r == maxTileSize
    ensures size == PositiveInfinity ==> r == maxTileSize
    ensures size.Finite? && size.value < minTileSize && size.value <= maxTileSize ==> r == minTileSize
    ensures size == NaN || size == NegativeInfinity ==> r == minTileSize
    ensures minTileSize <= maxTileSize ==> minTileSize <= r <= maxTileSize
  {
    if AtMost(size, maxTileSize) && AtLeast(size, minTileSize) then size.value
    else if GreaterThan(size, maxTileSize) then maxTileSize
    else minTileSize
  }

  /** `getTileSize(width, height)`: throws when the chart has no groups,
      otherwise the size whose tiles' total area equals the chart area,
      clamped to `[minTileSize, maxTileSize]`. */
  function GetTileSize(props: Props, width: real, height: real, sqrt: real -> real): (r: Result<real>)
    requires IsSquareRoot(sqrt)
    ensures props.data.groups.None? ==> r == Err(GroupsUndefined)
    ensures props.data.groups == Some([]) ==> r == Err(ReduceOfEmptyArray)
    ensures r.Ok? <==> props.data.groups.Some? && props.data.groups.value != []
    ensures r.Ok? && props.minTileSize <= props.maxTileSize ==>
              props.minTileSize <= r.value <= props.maxTileSize
    ensures r.Ok? ==>
              r.value == ClampTileSize(
                MaximumPossibleTileSize(width, height, |AllTiles(props.data.groups.value)|, sqrt),
                props.minTileSize, props.maxTileSize)
  {
    match TilesAmount(props.data)
    case Err(e) => Err(e)
    case Ok(tilesAmount) =>
      Ok(ClampTileSize(MaximumPossibleTileSize(width, height, tilesAmount, sqrt),
                       props.minTileSize, props.maxTileSize))
  }

  lemma SquareMonotone(a: real, b: real)
    requires 0.0 <= a <= b
    ensures a * a <= b * b
  {
    assert a * a <= a * b;
  }

  lemma SquareStrictlyMonotone(a: real, b: real)
    requires 0.0 <= a < b
    ensures a * a < b * b
  {
    var d := b - a;
    assert b * b == a * a + d * (a + b);
    assert d * (a + b) > 0.0;
  }

  /** What a tile size means for `n` tiles over a chart of area `area`: the
      tiles' total area `n * size * size` equals `area` unless that would make
      them larger than `hi`, when they are `hi` wide, or smaller than `lo`,
      when they are `lo` wide. */
  predicate MatchesArea(n: real, area: real, lo: real, hi: real, size: real) {
    && (n * (lo * lo) <= area <= n * (hi * hi) ==> n * (size * size) == area)
    && (n * (hi * hi) < area ==> size == hi)
    && (area < n * (lo * lo) ==> size == lo)
  }

  /** The clamp applied to the raw size of `tilesAmount` tiles over `area`
      yields a size that matches the area in the sense of `MatchesArea`. */
  lemma ClampedSizeMatchesArea(tilesAmount: nat, area: real, raw: Number, lo: real, hi: real)
    requires 0.0 <= lo <= hi && 0.0 <= area
    requires 0 < tilesAmount ==>
               raw.Finite? && 0.0 <= raw.value && tilesAmount as real * raw.value * raw.value == area
    requires tilesAmount == 0 && 0.0 < area ==> raw == PositiveInfinity
    requires tilesAmount == 0 && area == 0.0 ==> raw == NaN
    ensures MatchesArea(tilesAmount as real, area, lo, hi, ClampTileSize(raw, lo, hi))
  {
    var n := tilesAmount as real;
    if tilesAmount == 0 {
      assert n * (lo * lo) == 0.0 && n * (hi * hi) == 0.0;
    } else {
      var s := raw.value;
      assert n * (s * s) == area;
      SquareMonotone(lo, hi);
      if s < lo {
        SquareStrictlyMonotone(s, lo);
        assert n * (s * s) < n * (lo * lo) <= n * (hi * hi);
      } else if hi < s {
        SquareStrictlyMonotone(hi, s);
        assert n * (lo * lo) <= n * (hi * hi) < n * (s * s);
      } else {
        SquareMonotone(lo, s);
        SquareMonotone(s, hi);
        assert n * (lo * lo) <= n * (s * s) <= n * (hi * hi);
      }
    }
  }

  /** What the tile size means: the chart's tiles have a total area equal to
      the chart area unless that would make them larger than the maximum,
      when they are drawn at the maximum, or smaller than the minimum, when
      they are drawn at the minimum. */
  lemma TileSizeMatchesChartArea(props: Props, width: real, height: real, sqrt: real -> real)
    requires IsSquareRoot(sqrt)
    requires 0.0 <= props.minTileSize <= props.maxTileSize
    requires props.data.groups.Some? && props.data.groups.value != []
    ensures MatchesArea(|AllTiles(props.data.groups.value)| as real, ChartArea(width, height),
                       props.minTileSize, props.maxTileSize,
                       GetTileSize(props, width, height, sqrt).value)
  {
    var tilesAmount := |AllTiles(props.data.groups.value)|;
    var raw := MaximumPossibleTileSize(width, height, tilesAmount, sqrt);
    ClampedSizeMatchesArea(tilesAmount, ChartArea(width, height), raw,
                          props.minTileSize, props.maxTileSize);
  }

  /** With the default bounds, every tile size lies between 8 and 25. */
  lemma DefaultTileSizeBounds(props: Props, width: real, height: real, sqrt: real -> real)
    requires IsSquareRoot(sqrt)
    requires props.minTileSize == DefaultProps().minTileSize
    requires props.maxTileSize == DefaultProps().maxTileSize
    ensures GetTileSize(props, width, height, sqrt).Ok? ==>
              8.0 <= GetTileSize(props, width, height, sqrt).value <= 25.0
  {
  }

  /** The default properties carry no groups, so sizing a chart built with
      them alone throws. */
  lemma DefaultPropsHaveNoGroups(width: real, height: real, sqrt: real -> real)
    requires IsSquareRoot(sqrt)
    ensures GetTileSize(DefaultProps(), width, height, sqrt) == Err(GroupsUndefined)
  {
  }
}
