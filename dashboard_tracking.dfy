/** The live tracking layer of the dashboard map: the vendors' tracking
    points grouped by vendor in a plain object keyed by `venId`, one colour
    per vendor from a fixed palette, and from the groups a marker at each
    vendor's last point, a polyline through its points and a circle at
    every point. */
module DashboardTracking {
  import opened Common
  import opened Seqs
  import opened Records
  import opened Grouping

  function VenId(s: SeguimientoVendedor): int { s.venId }

  /** The array index the property name of vendor id `v` stands for. */
  function VenIdIndex(v: int): Option<nat> {
    if 0 <= v < MaxArrayIndex then Some(v) else None
  }

  /** `VenIdIndex` is the rule objects apply to the key `String(v)`. */
  lemma VenIdIndexIsPropertyIndex(v: int)
    ensures VenIdIndex(v) == ArrayIndex(IntToString(v))
  {
    ArrayIndexOfInt(v);
  }

  /** `Object.keys` of the grouping object, as numbers: every vendor with a
      point, once each. */
  function VendorOrder(segs: seq<SeguimientoVendedor>): (r: seq<int>)
    ensures Distinct(r)
    ensures forall i :: 0 <= i < |segs| ==> segs[i].venId in r
    ensures forall v :: v in r ==> KeyOccurs(segs, VenId, v)
  {
    var ks := FirstKeys(segs, VenId);
    PropertyOrderPermutation(ks, VenIdIndex);
    FirstKeysCover(segs, VenId);
    assert forall v :: v in ks <==> v in multiset(ks);
    forall v | v in ks ensures KeyOccurs(segs, VenId, v) {
      FirstKeysMembers(segs, VenId, v);
    }
    PropertyOrder(ks, VenIdIndex)
  }

  /** `Object.values` of the grouping object: per vendor, its points in
      input order. Every group is non-empty and belongs to one vendor. */
  function TrackingGroups(segs: seq<SeguimientoVendedor>): (r: seq<seq<SeguimientoVendedor>>)
    ensures |r| == |VendorOrder(segs)|
    ensures forall i :: 0 <= i < |r| ==> r[i] == GroupOf(segs, VenId, VendorOrder(segs)[i])
    ensures forall i :: 0 <= i < |r| ==> r[i] != []
    ensures forall i, j :: 0 <= i < |r| && 0 <= j < |r[i]| ==> r[i][j].venId == VendorOrder(segs)[i]
  {
    var order := VendorOrder(segs);
    forall i | 0 <= i < |order|
      ensures GroupOf(segs, VenId, order[i]) != []
      ensures forall j :: 0 <= j < |GroupOf(segs, VenId, order[i])| ==> GroupOf(segs, VenId, order[i])[j].venId == order[i]
    {
      GroupOfSpec(segs, VenId, order[i]);
      var g := GroupOf(segs, VenId, order[i]);
      assert forall j :: 0 <= j < |g| ==> g[j] in g;
    }
    Groups(segs, VenId, order)
  }

  // ---------------------------------------------------------------------
  // The reduce

  /** The grouping object after the points `prefix`: its keys in the order
      they were added, and the points under each. */
  ghost predicate Grouped(prefix: seq<SeguimientoVendedor>, keys: seq<int>, groups: map<int, seq<SeguimientoVendedor>>) {
    && keys == FirstKeys(prefix, VenId)
    && (forall v :: v in groups <==> v in keys)
    && (forall v :: v in groups ==> groups[v] == GroupOf(prefix, VenId, v))
  }

  /** One step of the reduce keeps the grouping. */
  lemma GroupedStep(prefix: seq<SeguimientoVendedor>, s: SeguimientoVendedor,
                    keys: seq<int>, groups: map<int, seq<SeguimientoVendedor>>,
                    keys': seq<int>, groups': map<int, seq<SeguimientoVendedor>>)
    requires Grouped(prefix, keys, groups)
    requires keys' == if s.venId in groups then keys else keys + [s.venId]
    requires var base := if s.venId in groups then groups else groups[s.venId := []];
      groups' == base[s.venId := base[s.venId] + [s]]
    ensures Grouped(prefix + [s], keys', groups')
  {
    var t := prefix + [s];
    assert t[..|t| - 1] == prefix && t[|t| - 1] == s;
    assert FirstKeys(t, VenId) == keys';
    forall w | w in groups' ensures groups'[w] == GroupOf(t, VenId, w) {
      GroupedStepAt(prefix, s, keys, groups, w);
    }
  }

  /** The reduce callback: the vendor's array is created empty the first
      time its id is seen, then the point is pushed onto it. */
  method PushPoint(ghost prefix: seq<SeguimientoVendedor>, seg: SeguimientoVendedor,
                   keys: seq<int>, groups: map<int, seq<SeguimientoVendedor>>)
    returns (keys': seq<int>, groups': map<int, seq<SeguimientoVendedor>>)
    requires Grouped(prefix, keys, groups)
    ensures Grouped(prefix + [seg], keys', groups')
  {
    keys', groups' := keys, groups;
    if seg.venId !in groups' {
      keys' := keys' + [seg.venId];
      groups' := groups'[seg.venId := []];
    }
    groups' := groups'[seg.venId := groups'[seg.venId] + [seg]];
    GroupedStep(prefix, seg, keys, groups, keys', groups');
  }

  /** The group of one key after one step of the reduce. */
  lemma GroupedStepAt(prefix: seq<SeguimientoVendedor>, s: SeguimientoVendedor,
                      keys: seq<int>, groups: map<int, seq<SeguimientoVendedor>>, w: int)
    requires Grouped(prefix, keys, groups)
    requires w in groups || w == s.venId
    ensures var base := if s.venId in groups then groups else groups[s.venId := []];
      base[s.venId := base[s.venId] + [s]][w] == GroupOf(prefix + [s], VenId, w)
  {
    GroupOfAppend(prefix, [s], VenId, w);
    GroupOfSingleton(s, VenId, w);
    if w !in groups {
      GroupOfAbsent(prefix, VenId, w);
    }
  }

  /** `Object.values` of a grouping object whose keys, in enumeration
      order, are `order`. */
  function GroupValues(groups: map<int, seq<SeguimientoVendedor>>, order: seq<int>): (r: seq<seq<SeguimientoVendedor>>)
    requires forall j :: 0 <= j < |order| ==> order[j] in groups
    ensures |r| == |order|
    ensures forall j :: 0 <= j < |order| ==> r[j] == groups[order[j]]
  {
    if order == [] then [] else [groups[order[0]]] + GroupValues(groups, order[1..])
  }

  /** The `reduce` that pushes each point onto its vendor's array, creating
      the array the first time the vendor is seen; returns the object's
      keys in enumeration order and its values. */
  method GroupByVendor(segs: seq<SeguimientoVendedor>) returns (order: seq<int>, values: seq<seq<SeguimientoVendedor>>)
    ensures order == VendorOrder(segs)
    ensures values == TrackingGroups(segs)
  {
    var keys: seq<int> := [];
    var groups: map<int, seq<SeguimientoVendedor>> := map[];
    var i := 0;
    while i < |segs|
      invariant 0 <= i <= |segs|
      invariant Grouped(segs[..i], keys, groups)
    {
      keys, groups := PushPoint(segs[..i], segs[i], keys, groups);
      assert segs[..i + 1] == segs[..i] + [segs[i]];
      i := i + 1;
    }
    assert segs[..i] == segs;
    GroupedValues(segs, keys, groups);
    order := PropertyOrder(keys, VenIdIndex);
    values := GroupValues(groups, order);
  }

  /** Reading the final grouping back in enumeration order gives the groups. */
  lemma GroupedValues(segs: seq<SeguimientoVendedor>, keys: seq<int>, groups: map<int, seq<SeguimientoVendedor>>)
    requires Grouped(segs, keys, groups)
    ensures PropertyOrder(keys, VenIdIndex) == VendorOrder(segs)
    ensures forall j :: 0 <= j < |PropertyOrder(keys, VenIdIndex)| ==> PropertyOrder(keys, VenIdIndex)[j] in groups
    ensures GroupValues(groups, PropertyOrder(keys, VenIdIndex)) == TrackingGroups(segs)
  {
    var order := PropertyOrder(keys, VenIdIndex);
    assert order == VendorOrder(segs);
    OrderInGroups(keys, groups, order);
    ValuesAreGroups(segs, groups, order);
  }

  /** The vendor ids that are array indices (0 up to 2^32 - 2) come first,
      in strictly ascending order, so no other id (a negative one, or one of
      2^32 - 1 or more) comes before them. The other ids keep the order in
      which they first occur (`PropertyOrderKeepsInsertionOrder`). */
  lemma VendorOrderAscending(segs: seq<SeguimientoVendedor>)
    ensures forall i, j :: 0 <= i < j < |VendorOrder(segs)| && 0 <= VendorOrder(segs)[j] < MaxArrayIndex ==>
      0 <= VendorOrder(segs)[i] < VendorOrder(segs)[j]
  {
    var ks := FirstKeys(segs, VenId);
    var order := VendorOrder(segs);
    assert order == PropertyOrder(ks, VenIdIndex);
    IndicesAscending(order, ks);
  }

  lemma IndicesAscending(order: seq<int>, ks: seq<int>)
    requires order == PropertyOrder(ks, VenIdIndex) && Distinct(order)
    ensures forall i, j :: 0 <= i < j < |order| && 0 <= order[j] < MaxArrayIndex ==> 0 <= order[i] < order[j]
  {
    PropertyOrderIndicesFirst(ks, VenIdIndex);
    forall i, j | 0 <= i < j < |order| && 0 <= order[j] < MaxArrayIndex
      ensures 0 <= order[i] < order[j]
    {
      assert VenIdIndex(order[j]) == Some(order[j]);
      assert VenIdIndex(order[i]).Some? && VenIdIndex(order[i]).value <= VenIdIndex(order[j]).value;
      assert order[i] != order[j];
    }
  }

  lemma OrderInGroups(keys: seq<int>, groups: map<int, seq<SeguimientoVendedor>>, order: seq<int>)
    requires forall v :: v in groups <==> v in keys
    requires order == PropertyOrder(keys, VenIdIndex)
    ensures forall j :: 0 <= j < |order| ==> order[j] in groups
  {
    PropertyOrderPermutation(keys, VenIdIndex);
    forall j | 0 <= j < |order| ensures order[j] in groups {
      assert order[j] in multiset(keys);
      assert order[j] in keys;
    }
  }

  lemma ValuesAreGroups(segs: seq<SeguimientoVendedor>, groups: map<int, seq<SeguimientoVendedor>>, order: seq<int>)
    requires order == VendorOrder(segs)
    requires forall j :: 0 <= j < |order| ==> order[j] in groups
    requires forall v :: v in groups ==> groups[v] == GroupOf(segs, VenId, v)
    ensures GroupValues(groups, order) == TrackingGroups(segs)
  {
    var values := GroupValues(groups, order);
    var tracked := TrackingGroups(segs);
    assert |values| == |tracked|;
    forall j | 0 <= j < |order| ensures values[j] == tracked[j] {
      assert values[j] == groups[order[j]];
      assert groups[order[j]] == GroupOf(segs, VenId, order[j]);
      assert tracked[j] == GroupOf(segs, VenId, order[j]);
    }
  }

  // ---------------------------------------------------------------------
  // Colours

  const Palette: seq<string> := ["#FF5733", "#33FF57", "#3357FF", "#FF33A1", "#A133FF", "#33FFA1", "#FFC300", "#C70039"]

  /** `vendedorColors` and `colorIndex` after the keys seen so far. */
  datatype ColorTable = ColorTable(colors: map<int, string>, next: nat)

  /** The colour assignment over `keys`: a key seen for the first time
      takes the next palette colour, cycling after eight. */
  function AssignedColors(keys: seq<int>): (r: ColorTable)
    ensures forall v :: v in r.colors <==> v in keys
    ensures forall v :: v in r.colors ==> r.colors[v] in Palette
  {
    if keys == [] then ColorTable(map[], 0)
    else
      var t := AssignedColors(keys[..|keys| - 1]);
      var v := keys[|keys| - 1];
      assert forall w :: w in keys <==> w in keys[..|keys| - 1] || w == v;
      if v in t.colors then t
      else ColorTable(t.colors[v := Palette[t.next % |Palette|]], t.next + 1)
  }

  /** The `forEach` over the keys: a vendor without a colour yet gets
      `colors[colorIndex % colors.length]` and the index moves on. */
  method AssignColors(keys: seq<int>) returns (colors: map<int, string>)
    ensures colors == AssignedColors(keys).colors
  {
    colors := map[];
    var colorIndex := 0;
    var i := 0;
    while i < |keys|
      invariant 0 <= i <= |keys|
      invariant ColorTable(colors, colorIndex) == AssignedColors(keys[..i])
    {
      var venId := keys[i];
      assert keys[..i + 1][..i] == keys[..i];
      if venId !in colors || colors[venId] == "" {
        colors := colors[venId := Palette[colorIndex % |Palette|]];
        colorIndex := colorIndex + 1;
      }
      i := i + 1;
    }
    assert keys[..i] == keys;
  }

  /** Over distinct keys, the key at position `i` gets the colour at
      `i mod 8`. */
  lemma {:induction false} AssignedColorsDistinct(keys: seq<int>)
    requires Distinct(keys)
    ensures AssignedColors(keys).next == |keys|
    ensures forall i :: 0 <= i < |keys| ==> AssignedColors(keys).colors[keys[i]] == Palette[i % 8]
  {
    if keys != [] {
      var init := keys[..|keys| - 1];
      assert Distinct(init) by {
        assert forall i :: 0 <= i < |init| ==> init[i] == keys[i];
      }
      AssignedColorsDistinct(init);
      var v := keys[|keys| - 1];
      assert v !in init by {
        assert forall i :: 0 <= i < |init| ==> init[i] == keys[i];
      }
      var t := AssignedColors(init);
      assert v !in t.colors;
      var colors := t.colors[v := Palette[|init| % 8]];
      assert AssignedColors(keys) == ColorTable(colors, |keys|);
      forall i | 0 <= i < |keys| ensures colors[keys[i]] == Palette[i % 8] {
        if i < |init| {
          assert keys[i] == init[i] && keys[i] != v;
        }
      }
    }
  }

  /** The palette's colours differ, so the first eight vendors are told
      apart by colour. */
  lemma PaletteDistinct()
    ensures forall i, j :: 0 <= i < j < |Palette| ==> Palette[i] != Palette[j]
  {
  }

  // ---------------------------------------------------------------------
  // What the map draws

  function PointOf(s: SeguimientoVendedor): LatLng { LatLng(s.segLatitud, s.segLongitud) }

  /** The truck emoji and space in a tracking marker's info title, as the
      file spells it. */
  const TruckPrefix: string := "\U{F8FF}\U{00FC}\U{00F6}\U{00F6} "

  function TrackingMarkerOf(g: seq<SeguimientoVendedor>): Marker
    requires g != []
  {
    var last := g[|g| - 1];
    Marker(
      PointOf(last),
      VendorMarker,
      "Vendedor: " + last.vendedorNombre,
      None,
      InfoWindow(TruckPrefix + last.vendedorNombre,
        EmptyContent.(
          nombreVendedor := Some(last.vendedorNombre),
          latitud := Some(last.segLatitud),
          longitud := Some(last.segLongitud))))
  }

  function TrackingMarkers(groups: seq<seq<SeguimientoVendedor>>): seq<Marker>
    requires forall i :: 0 <= i < |groups| ==> groups[i] != []
  {
    seq(|groups|, i requires 0 <= i < |groups| => TrackingMarkerOf(groups[i]))
  }

  function PathOf(g: seq<SeguimientoVendedor>, colors: map<int, string>): Path
    requires g != [] && g[0].venId in colors
  {
    Path(seq(|g|, j requires 0 <= j < |g| => PointOf(g[j])), colors[g[0].venId])
  }

  function TrackingPaths(groups: seq<seq<SeguimientoVendedor>>, colors: map<int, string>): seq<Path>
    requires forall i :: 0 <= i < |groups| ==> groups[i] != [] && groups[i][0].venId in colors
  {
    seq(|groups|, i requires 0 <= i < |groups| => PathOf(groups[i], colors))
  }

  function CircleOf(s: SeguimientoVendedor, colors: map<int, string>): Circle
    requires s.venId in colors
  {
    Circle(PointOf(s), 15, colors[s.venId], colors[s.venId], 1)
  }

  /** A circle per point of the flattened groups. */
  function TrackingCircles(groups: seq<seq<SeguimientoVendedor>>, colors: map<int, string>): seq<Circle>
    requires forall i, j :: 0 <= i < |groups| && 0 <= j < |groups[i]| ==> groups[i][j].venId in colors
  {
    if groups == [] then []
    else
      var g := groups[0];
      seq(|g|, j requires 0 <= j < |g| => CircleOf(g[j], colors)) + TrackingCircles(groups[1..], colors)
  }

  /** What the tracking layer draws from a list of points. */
  datatype TrackingLayer = TrackingLayer(markers: seq<Marker>, paths: seq<Path>, circles: seq<Circle>)

  function LayerOf(points: seq<SeguimientoVendedor>): TrackingLayer {
    LayerWellFormed(points);
    var groups := TrackingGroups(points);
    var colors := AssignedColors(VendorOrder(points)).colors;
    TrackingLayer(TrackingMarkers(groups), TrackingPaths(groups, colors), TrackingCircles(groups, colors))
  }

  /** The effect's tracking computation: the reduce, the colour loop, then
      the three derivations over `Object.values`. */
  method BuildLayer(points: seq<SeguimientoVendedor>) returns (layer: TrackingLayer)
    ensures layer == LayerOf(points)
  {
    var order, groups := GroupByVendor(points);
    var colors := AssignColors(order);
    LayerWellFormed(points);
    layer := TrackingLayer(TrackingMarkers(groups), TrackingPaths(groups, colors), TrackingCircles(groups, colors));
  }

  /** The groups are non-empty and every point's vendor has a colour. */
  lemma LayerWellFormed(points: seq<SeguimientoVendedor>)
    ensures var groups := TrackingGroups(points);
      var colors := AssignedColors(VendorOrder(points)).colors;
      && (forall i :: 0 <= i < |groups| ==> groups[i] != [] && groups[i][0].venId in colors)
      && (forall i, j :: 0 <= i < |groups| && 0 <= j < |groups[i]| ==> groups[i][j].venId in colors)
  {
    var order: seq<int> := VendorOrder(points);
    var groups: seq<seq<SeguimientoVendedor>> := TrackingGroups(points);
    var colors: map<int, string> := AssignedColors(order).colors;
    forall i, j | 0 <= i < |groups| && 0 <= j < |groups[i]| ensures groups[i][j].venId in colors {
      assert groups[i][j].venId == order[i];
      assert order[i] in order;
    }
  }

  // ---------------------------------------------------------------------
  // Properties

  /** The groups partition the points: together they hold each point
      exactly as often as the input does. */
  lemma TrackingPartition(segs: seq<SeguimientoVendedor>)
    ensures multiset(Flatten(TrackingGroups(segs))) == multiset(segs)
    ensures |Flatten(TrackingGroups(segs))| == |segs|
  {
    GroupsCover(segs, VenId, VendorOrder(segs));
  }

  /** Each group keeps its vendor's points in their input order, and no two
      groups share a vendor. */
  lemma TrackingGroupsSpec(segs: seq<SeguimientoVendedor>)
    ensures forall i :: 0 <= i < |TrackingGroups(segs)| ==> Subsequence(TrackingGroups(segs)[i], segs)
    ensures forall i, j :: 0 <= i < j < |TrackingGroups(segs)| ==>
      TrackingGroups(segs)[i][0].venId != TrackingGroups(segs)[j][0].venId
  {
    var order := VendorOrder(segs);
    forall i | 0 <= i < |order| ensures Subsequence(TrackingGroups(segs)[i], segs) {
      GroupOfSpec(segs, VenId, order[i]);
    }
  }

  /** One marker per vendor, standing at that vendor's last point in the
      input. */
  lemma TrackingMarkersSpec(segs: seq<SeguimientoVendedor>)
    ensures |TrackingMarkers(TrackingGroups(segs))| == |VendorOrder(segs)|
    ensures forall i :: 0 <= i < |VendorOrder(segs)| ==>
      exists k :: (0 <= k < |segs| && segs[k].venId == VendorOrder(segs)[i]
        && TrackingMarkers(TrackingGroups(segs))[i] == TrackingMarkerOf([segs[k]])
        && forall j :: k < j < |segs| ==> segs[j].venId != VendorOrder(segs)[i])
  {
    forall i | 0 <= i < |VendorOrder(segs)|
      ensures exists k :: (0 <= k < |segs| && segs[k].venId == VendorOrder(segs)[i]
        && TrackingMarkers(TrackingGroups(segs))[i] == TrackingMarkerOf([segs[k]])
        && forall j :: k < j < |segs| ==> segs[j].venId != VendorOrder(segs)[i])
    {
      MarkerOfVendor(segs, i);
    }
  }

  lemma MarkerOfVendor(segs: seq<SeguimientoVendedor>, i: nat)
    requires i < |VendorOrder(segs)|
    ensures exists k :: (0 <= k < |segs| && segs[k].venId == VendorOrder(segs)[i]
      && TrackingMarkers(TrackingGroups(segs))[i] == TrackingMarkerOf([segs[k]])
      && forall j :: k < j < |segs| ==> segs[j].venId != VendorOrder(segs)[i])
  {
    var v := VendorOrder(segs)[i];
    var g := TrackingGroups(segs)[i];
    assert g == GroupOf(segs, VenId, v);
    GroupOfLast(segs, VenId, v);
    var k :| 0 <= k < |segs| && VenId(segs[k]) == v && segs[k] == g[|g| - 1]
      && forall j :: k < j < |segs| ==> VenId(segs[j]) != v;
    assert TrackingMarkers(TrackingGroups(segs))[i] == TrackingMarkerOf(g);
    assert TrackingMarkerOf(g) == TrackingMarkerOf([segs[k]]);
  }

  /** Vendor `i` in key order draws one path, through that vendor's points
      in their input order, in palette colour `i mod 8`. */
  lemma TrackingPathColors(segs: seq<SeguimientoVendedor>)
    ensures |LayerOf(segs).paths| == |VendorOrder(segs)|
    ensures forall i :: 0 <= i < |VendorOrder(segs)| ==>
      LayerOf(segs).paths[i].strokeColor == Palette[i % 8]
      && var own := GroupOf(segs, VenId, VendorOrder(segs)[i]);
         LayerOf(segs).paths[i].path == seq(|own|, j requires 0 <= j < |own| => PointOf(own[j]))
  {
    var order := VendorOrder(segs);
    AssignedColorsDistinct(order);
    forall i | 0 <= i < |order|
      ensures LayerOf(segs).paths[i].strokeColor == Palette[i % 8]
      ensures var own := GroupOf(segs, VenId, order[i]);
        LayerOf(segs).paths[i].path == seq(|own|, j requires 0 <= j < |own| => PointOf(own[j]))
    {
      PathOfVendor(segs, i);
    }
  }

  lemma PathOfVendor(segs: seq<SeguimientoVendedor>, i: nat)
    requires i < |VendorOrder(segs)|
    requires Distinct(VendorOrder(segs))
    ensures |LayerOf(segs).paths| == |VendorOrder(segs)|
    ensures LayerOf(segs).paths[i].strokeColor == AssignedColors(VendorOrder(segs)).colors[VendorOrder(segs)[i]]
    ensures var own := GroupOf(segs, VenId, VendorOrder(segs)[i]);
      LayerOf(segs).paths[i].path == seq(|own|, j requires 0 <= j < |own| => PointOf(own[j]))
  {
    var groups := TrackingGroups(segs);
    var colors := AssignedColors(VendorOrder(segs)).colors;
    LayerWellFormed(segs);
    assert LayerOf(segs).paths == TrackingPaths(groups, colors);
    assert groups[i][0].venId == VendorOrder(segs)[i];
    assert LayerOf(segs).paths[i] == PathOf(groups[i], colors);
  }

  lemma {:induction false} TrackingCirclesFlatten(groups: seq<seq<SeguimientoVendedor>>, colors: map<int, string>)
    requires forall i, j :: 0 <= i < |groups| && 0 <= j < |groups[i]| ==> groups[i][j].venId in colors
    ensures |TrackingCircles(groups, colors)| == |Flatten(groups)|
    ensures forall k :: 0 <= k < |Flatten(groups)| ==>
      Flatten(groups)[k].venId in colors && TrackingCircles(groups, colors)[k] == CircleOf(Flatten(groups)[k], colors)
  {
    if groups != [] {
      TrackingCirclesFlatten(groups[1..], colors);
    }
  }

  /** One circle per tracking point, of radius 15, centred on the point and
      filled and stroked in its vendor's colour: the circle of a point of
      the vendor at position `i` in key order has palette colour `i mod 8`. */
  lemma TrackingCirclesSpec(segs: seq<SeguimientoVendedor>)
    ensures |LayerOf(segs).circles| == |Flatten(TrackingGroups(segs))| == |segs|
    ensures forall k, i ::
      (0 <= k < |LayerOf(segs).circles| && k < |Flatten(TrackingGroups(segs))|
       && 0 <= i < |VendorOrder(segs)| && Flatten(TrackingGroups(segs))[k].venId == VendorOrder(segs)[i]) ==>
      && LayerOf(segs).circles[k].radius == 15 && LayerOf(segs).circles[k].strokeWeight == 1
      && LayerOf(segs).circles[k].center == PointOf(Flatten(TrackingGroups(segs))[k])
      && LayerOf(segs).circles[k].fillColor == Palette[i % 8]
      && LayerOf(segs).circles[k].strokeColor == Palette[i % 8]
  {
    var order := VendorOrder(segs);
    var groups := TrackingGroups(segs);
    var colors := AssignedColors(order).colors;
    LayerWellFormed(segs);
    assert LayerOf(segs).circles == TrackingCircles(groups, colors);
    TrackingCirclesFlatten(groups, colors);
    TrackingPartition(segs);
    AssignedColorsDistinct(order);
  }
}
