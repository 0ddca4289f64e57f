/**
 * The value types shared by the map manager, the default zoom level, and the
 * colour-name table with its lazily created singleton.
 */
module SharedTypes {
  import opened Wrappers

  /** The zoom level used when a camera asks for none (or for zoom 0). */
  const DEFAULT_ZOOM: real := 12.0

  datatype LatLng = LatLng(latitude: real, longitude: real)

  /** A region is a centre; its deltas are optional. */
  datatype Region = Region(latitude: real, longitude: real, latitudeDelta: Option<real>, longitudeDelta: Option<real>)

  datatype Camera = Camera(altitude: Option<real>, center: LatLng, heading: real, pitch: real, zoom: real)

  datatype EdgePadding = EdgePadding(top: real, right: real, bottom: real, left: real)

  /** Every snapshot option may be omitted by the caller. */
  datatype SnapshotOptions = SnapshotOptions(
    width: Option<real>,
    height: Option<real>,
    region: Option<Region>,
    format: Option<string>,
    quality: Option<real>,
    result: Option<string>)

  // ---------------------------------------------------------------------------
  // Colour names
  // ---------------------------------------------------------------------------

  /** The table the ColorMap constructor leaves behind: 16 names. */
  const STANDARD_COLORS: map<string, string> := map[
    "white" := "#ffffffff", "black" := "#ff000000", "blue" := "#ff0000ff", "brown" := "#ffa52a2a",
    "gray" := "#ff808080", "green" := "#ff008000", "grey" := "#ffd3d3d3", "orange" := "#ffffa500",
    "pink" := "#ffffb6c1", "red" := "#ffff0000", "yellow" := "#ffffff00", "transparent" := "#00000000",
    "springgreen" := "#ff00FF7F", "lime" := "#ff00ff00", "aqua" := "#ff00ffff", "cyan" := "#ff00ffff"]

  /** The same names in the order the constructor first inserts them (the JavaScript Map's insertion order). */
  const COLOR_NAMES: seq<string> := [
    "white", "black", "blue", "brown", "gray", "green", "grey", "orange",
    "pink", "red", "yellow", "transparent", "springgreen", "lime", "aqua", "cyan"]

  predicate IsHexDigit(c: char) {
    '0' <= c <= '9' || 'a' <= c <= 'f' || 'A' <= c <= 'F'
  }

  /** `#AARRGGBB`: a '#' followed by exactly eight hexadecimal digits. */
  predicate IsArgbHex(s: string) {
    |s| == 9 && s[0] == '#' && forall i | 1 <= i < 9 :: IsHexDigit(s[i])
  }

  predicate NoDuplicates<T(==)>(s: seq<T>) {
    forall i, j | 0 <= i < j < |s| :: s[i] != s[j]
  }

  /** A sequence without duplicates has as many distinct elements as it is long. */
  lemma {:induction false} DistinctCount<T>(s: seq<T>)
    requires NoDuplicates(s)
    ensures |set x | x in s| == |s|
  {
    if s != [] {
      var rest := set x | x in s[1..];
      assert NoDuplicates(s[1..]) by {
        forall i, j | 0 <= i < j < |s[1..]| ensures s[1..][i] != s[1..][j] {
          assert s[1..][i] == s[i + 1] && s[1..][j] == s[j + 1];
        }
      }
      DistinctCount(s[1..]);
      assert s[0] !in rest by {
        forall k | 0 <= k < |s[1..]| ensures s[1..][k] != s[0] {
          assert s[1..][k] == s[k + 1];
        }
      }
      assert (set x | x in s) == {s[0]} + rest by {
        forall x | x in s ensures x == s[0] || x in rest {
          var k :| 0 <= k < |s| && s[k] == x;
          if k > 0 { assert s[1..][k - 1] == x; }
        }
      }
      assert |{s[0]} + rest| == 1 + |rest|;
    }
  }

  /** The 18 insertions of the constructor leave exactly 16 distinct names. */
  lemma ColorTableHasSixteenNames()
    ensures STANDARD_COLORS.Keys == set name | name in COLOR_NAMES
    ensures |STANDARD_COLORS| == 16
  {
    assert NoDuplicates(COLOR_NAMES);
    DistinctCount(COLOR_NAMES);
    assert STANDARD_COLORS.Keys == set name | name in COLOR_NAMES;
    assert |STANDARD_COLORS| == |STANDARD_COLORS.Keys|;
  }

  /** Every colour is `#` followed by exactly eight hexadecimal digits. */
  lemma ColorValuesAreArgbHex()
    ensures forall name | name in STANDARD_COLORS :: IsArgbHex(STANDARD_COLORS[name])
  {
    forall name | name in STANDARD_COLORS ensures IsArgbHex(STANDARD_COLORS[name]) {
      assert STANDARD_COLORS[name] in {
        "#ffffffff", "#ff000000", "#ff0000ff", "#ffa52a2a", "#ff808080", "#ff008000", "#ffd3d3d3", "#ffffa500",
        "#ffffb6c1", "#ffff0000", "#ffffff00", "#00000000", "#ff00FF7F", "#ff00ff00", "#ff00ffff"};
    }
  }

  /** Every colour is opaque (`#ff` alpha) except `transparent`, which is `#00000000`. */
  lemma OnlyTransparentIsNotOpaque()
    ensures forall name | name in STANDARD_COLORS && name != "transparent" :: STANDARD_COLORS[name][..3] == "#ff"
    ensures "transparent" in STANDARD_COLORS && STANDARD_COLORS["transparent"] == "#00000000"
  {
  }

  /** `gray` and `grey` are two entries with different values; `aqua` and `cyan` share a value. */
  lemma ColorAliases()
    ensures "gray" in STANDARD_COLORS && "grey" in STANDARD_COLORS
    ensures STANDARD_COLORS["gray"] == "#ff808080" && STANDARD_COLORS["grey"] == "#ffd3d3d3"
    ensures "aqua" in STANDARD_COLORS && "cyan" in STANDARD_COLORS
    ensures STANDARD_COLORS["aqua"] == STANDARD_COLORS["cyan"] == "#ff00ffff"
  {
  }

  /** Setting a name to the value it already has leaves the table as it is. */
  lemma ReinsertionLeavesTableUnchanged(name: string)
    requires name in STANDARD_COLORS
    ensures STANDARD_COLORS[name := STANDARD_COLORS[name]] == STANDARD_COLORS
  {
  }

  class ColorMap {
    var colorMap: map<string, string>

    /** Fills the table by 18 successive `set` calls; `green` and `cyan` are set twice, to the same value. */
    constructor ()
      ensures colorMap == STANDARD_COLORS
    {
      var m: map<string, string> := map[];
      m := m["white" := "#ffffffff"];
      m := m["black" := "#ff000000"];
      m := m["blue" := "#ff0000ff"];
      m := m["brown" := "#ffa52a2a"];
      m := m["gray" := "#ff808080"];
      m := m["green" := "#ff008000"];
      m := m["grey" := "#ffd3d3d3"];
      m := m["orange" := "#ffffa500"];
      m := m["pink" := "#ffffb6c1"];
      m := m["red" := "#ffff0000"];
      m := m["yellow" := "#ffffff00"];
      m := m["transparent" := "#00000000"];
      m := m["springgreen" := "#ff00FF7F"];
      m := m["green" := "#ff008000"];
      m := m["lime" := "#ff00ff00"];
      m := m["aqua" := "#ff00ffff"];
      m := m["cyan" := "#ff00ffff"];
      m := m["cyan" := "#ff00ffff"];
      colorMap := m;
    }

    /** `colorMap.get(name)`: `undefined` for a name the table does not hold. */
    function Get(name: string): (r: Option<string>)
      reads this
      ensures r.Some? <==> name in colorMap
      ensures r.Some? ==> r.value == colorMap[name]
    {
      if name in colorMap then Some(colorMap[name]) else None
    }
  }

  /** A name the constructor never inserts, such as `purple` or `Red`, has no entry: lookup is case-sensitive. */
  lemma UnknownColorHasNoEntry(cm: ColorMap, name: string)
    requires cm.colorMap == STANDARD_COLORS && name !in COLOR_NAMES
    ensures cm.Get(name) == None
  {
    ColorTableHasSixteenNames();
  }

  /** `purple` and `Red` are two such names. */
  lemma PurpleAndCapitalRedAreUnknown()
    ensures "purple" !in COLOR_NAMES && "Red" !in COLOR_NAMES
  {
  }

  /** The static `ColorMap.instance` slot. */
  class ColorMapSlot {
    var instance: ColorMap?

    constructor ()
      ensures instance == null
    {
      instance := null;
    }

    /** Creates the table on the first call and hands back the same object on every later call. */
    method GetInstance() returns (cm: ColorMap)
      modifies this
      ensures old(instance) == null ==> fresh(cm) && cm.colorMap == STANDARD_COLORS
      ensures old(instance) != null ==> cm == old(instance)
      ensures instance == cm
    {
      if instance == null {
        instance := new ColorMap();
      }
      cm := instance;
    }
  }

  /** Two calls in a row give the same table. */
  method GetInstanceTwice(slot: ColorMapSlot) returns (first: ColorMap, second: ColorMap)
    modifies slot
    ensures first == second && slot.instance == first
    ensures old(slot.instance) == null ==> first.colorMap == STANDARD_COLORS
  {
    first := slot.GetInstance();
    second := slot.GetInstance();
  }
}
