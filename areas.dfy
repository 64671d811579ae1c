/**
 * AreasHelper: the region list offered by the search form, flattened out of
 * the provider's country/region/city tree, and the display name of an area.
 */
module Areas {
  import opened Wrappers

  /** A node of the area tree: a country, a region or a city. */
  datatype Area = Area(id: string, name: string, parentId: Option<string>, areas: Option<seq<Area>>)

  /** The provider's identifier for Russia. */
  const RussiaId := "113"

  /** `areas.find(a => a.id === id)`: the first area with that identifier. */
  function FindArea(areas: seq<Area>, id: string): (r: Option<Area>)
    ensures r.None? <==> forall i :: 0 <= i < |areas| ==> areas[i].id != id
    ensures r.Some? ==> exists i :: 0 <= i < |areas| && areas[i] == r.value && r.value.id == id
                                    && forall j :: 0 <= j < i ==> areas[j].id != id
  {
    if areas == [] then None
    else if areas[0].id == id then Some(areas[0])
    else
      var r := FindArea(areas[1..], id);
      if r.Some? then
        ghost var i :| 0 <= i < |areas[1..]| && areas[1..][i] == r.value && r.value.id == id
                        && forall j :: 0 <= j < i ==> areas[1..][j].id != id;
        assert areas[i + 1] == r.value;
        r
      else r
  }

  /** The sub-areas of a node; a missing list has none (an empty list is still a list). */
  function Children(a: Area): seq<Area> {
    if a.areas.Some? then a.areas.value else []
  }

  /**
   * Each region followed immediately by its own cities, regions in order;
   * nothing deeper: one entry per region plus one per city.
   */
  function RegionsWithCities(regions: seq<Area>): (r: seq<Area>)
    ensures |r| == |regions| + CityCount(regions)
  {
    if regions == [] then [] else [regions[0]] + Children(regions[0]) + RegionsWithCities(regions[1..])
  }

  /** The regions and cities of the first area with Russia's identifier, or none. */
  function RussianAreas(areas: seq<Area>): (r: seq<Area>)
    ensures FindArea(areas, RussiaId).None? ==> r == []
    ensures FindArea(areas, RussiaId).Some? && FindArea(areas, RussiaId).value.areas.None? ==> r == []
  {
    var russia := FindArea(areas, RussiaId);
    if russia.None? || russia.value.areas.None? then [] else RegionsWithCities(russia.value.areas.value)
  }

  /** Flattening distributes over the region list: the regions keep their relative order. */
  lemma {:induction false} RegionsWithCitiesAppend(a: seq<Area>, b: seq<Area>)
    ensures RegionsWithCities(a + b) == RegionsWithCities(a) + RegionsWithCities(b)
  {
    if a == [] {
      assert a + b == b;
    } else {
      assert (a + b)[0] == a[0];
      assert (a + b)[1..] == a[1..] + b;
      RegionsWithCitiesAppend(a[1..], b);
    }
  }

  /** Region `k` sits right after the output of the regions before it and is followed by its own cities. */
  lemma {:induction false} RegionThenItsCities(regions: seq<Area>, k: int)
    requires 0 <= k < |regions|
    ensures RegionsWithCities(regions)
         == RegionsWithCities(regions[..k]) + [regions[k]] + Children(regions[k]) + RegionsWithCities(regions[k + 1..])
  {
    var tail := regions[k..];
    assert regions == regions[..k] + tail;
    RegionsWithCitiesAppend(regions[..k], tail);
    assert tail[0] == regions[k] && tail[1..] == regions[k + 1..];
    var a, c, r := RegionsWithCities(regions[..k]), Children(regions[k]), RegionsWithCities(regions[k + 1..]);
    assert RegionsWithCities(tail) == [regions[k]] + c + r;
    assert a + ([regions[k]] + c + r) == a + [regions[k]] + c + r;
  }

  /** The number of cities under the given regions. */
  function CityCount(regions: seq<Area>): nat {
    if regions == [] then 0 else |Children(regions[0])| + CityCount(regions[1..])
  }

  /** Every region and every city of a region is listed. */
  lemma {:induction false} ListsEveryRegionAndCity(regions: seq<Area>)
    ensures forall i :: 0 <= i < |regions| ==> regions[i] in RegionsWithCities(regions)
    ensures forall i, c :: 0 <= i < |regions| && c in Children(regions[i]) ==> c in RegionsWithCities(regions)
  {
    forall i | 0 <= i < |regions| ensures regions[i] in RegionsWithCities(regions) {
      RegionThenItsCities(regions, i);
    }
    forall i, c | 0 <= i < |regions| && c in Children(regions[i]) ensures c in RegionsWithCities(regions) {
      RegionThenItsCities(regions, i);
    }
  }

  /** Every entry is a region or a city of one of them: grandchildren never appear. */
  lemma {:induction false} OnlyRegionsAndCities(regions: seq<Area>, x: Area)
    requires x in RegionsWithCities(regions)
    ensures x in regions || exists k :: 0 <= k < |regions| && x in Children(regions[k])
  {
    if x !in [regions[0]] + Children(regions[0]) {
      OnlyRegionsAndCities(regions[1..], x);
      if x in regions[1..] {
      } else {
        var k :| 0 <= k < |regions[1..]| && x in Children(regions[1..][k]);
        assert regions[k + 1] == regions[1..][k];
      }
    } else if x !in regions {
      assert x in Children(regions[0]);
    }
  }

  /**
   * `flattenRussianAreas(areas)`: builds the list by pushing each region and
   * then each of its cities.
   */
  method FlattenRussianAreas(areas: seq<Area>) returns (flat: seq<Area>)
    ensures flat == RussianAreas(areas)
  {
    var russia := FindArea(areas, RussiaId);
    if russia.None? || russia.value.areas.None? {
      return [];
    }
    var regions := russia.value.areas.value;
    flat := [];
    for i := 0 to |regions|
      invariant flat == RegionsWithCities(regions[..i])
    {
      var region := regions[i];
      flat := flat + [region];
      if region.areas.Some? {
        flat := PushAll(flat, region.areas.value);
      } else {
        assert flat == flat + Children(region);
      }
      RegionStep(regions, i, flat);
    }
    assert regions[..|regions|] == regions;
  }

  /** A region pushed with its cities after the output for the regions before it gives the output for one more region. */
  lemma RegionStep(regions: seq<Area>, i: int, flat: seq<Area>)
    requires 0 <= i < |regions|
    requires flat == RegionsWithCities(regions[..i]) + [regions[i]] + Children(regions[i])
    ensures flat == RegionsWithCities(regions[..i + 1])
  {
    var pre, region := regions[..i], regions[i];
    assert regions[..i + 1] == pre + [region];
    RegionsWithCitiesAppend(pre, [region]);
    OneRegion(region);
    AppendAssoc(RegionsWithCities(pre), [region], Children(region));
  }

  /** A single region flattens to itself followed by its cities. */
  lemma OneRegion(region: Area)
    ensures RegionsWithCities([region]) == [region] + Children(region)
  {
    assert [region][1..] == [];
  }

  /** The inner `forEach` of `flattenRussianAreas`: pushes the cities one by one, in order. */
  method PushAll(flat: seq<Area>, cities: seq<Area>) returns (r: seq<Area>)
    ensures r == flat + cities
  {
    r := flat;
    for j := 0 to |cities|
      invariant r == flat + cities[..j]
    {
      r := r + [cities[j]];
      assert cities[..j + 1] == cities[..j] + [cities[j]];
    }
    assert cities[..|cities|] == cities;
  }

  /** The prefix the source writes: the bytes of an em dash read back as Windows-1252 text. */
  const ChildPrefixAsWritten := "\U{00E2}\U{20AC}\U{201D} "

  /** The prefix meant for a child area: an em dash and a space. */
  const ChildPrefix := "\U{2014} "

  /** `formatAreaName(area)` as written: a child's name behind the garbled prefix. */
  function FormatAreaNameAsWritten(a: Area): (s: string)
    ensures Truthy(a.parentId) ==> s == ChildPrefixAsWritten + a.name
    ensures !Truthy(a.parentId) ==> s == a.name
  {
    if Truthy(a.parentId) then ChildPrefixAsWritten + a.name else a.name
  }

  /** A child area as written shows three stray characters, not a dash. */
  lemma AsWrittenPrefixIsNotDash(a: Area)
    requires Truthy(a.parentId)
    ensures var s := FormatAreaNameAsWritten(a);
      |s| == |a.name| + 4 && s[0] == '\U{00E2}' && s[0] != '\U{2014}'
      && s[..|ChildPrefix|] != ChildPrefix
  {
    var s := FormatAreaNameAsWritten(a);
    assert s[0] == ChildPrefixAsWritten[0];
  }

  /**
   * `formatAreaName(area)` with the intended dash: a child area (one with a
   * non-empty parent) is indented by it, any other keeps its bare name.
   */
  function FormatAreaName(a: Area): (s: string)
    ensures Truthy(a.parentId) <==> |s| == |a.name| + 2
    ensures Truthy(a.parentId) ==> s[..2] == ChildPrefix && s[2..] == a.name
    ensures !Truthy(a.parentId) ==> s == a.name
  {
    if Truthy(a.parentId) then ChildPrefix + a.name else a.name
  }
}
