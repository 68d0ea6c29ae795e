/**
 The feature mapper of the map screen: every repeater record that can be
 placed on the map becomes a point feature carrying a four-field property
 bag; the others are dropped silently.
 */
module Features {

  import opened Repeaters

  datatype Position = Position(longitude: real, latitude: real)

  /** The property bag of a feature: exactly these four fields. */
  datatype Properties = Properties(name: string, txFreq: real, rxFreq: real, status: string)

  datatype Feature = Feature(geometry: Position, properties: Properties)

  /** A record can be placed when it has at least two coordinates. */
  predicate HasPosition(item: RepeaterItem) {
    |item.coordinates| >= 2
  }

  /** The feature built for one placeable record: coordinates[1] is the
      longitude, coordinates[0] the latitude. */
  function FeatureOf(item: RepeaterItem): Feature
    requires HasPosition(item)
  {
    Feature(
      Position(item.coordinates[1], item.coordinates[0]),
      Properties(item.callsign, item.txFrequency, item.rxFrequency, item.status))
  }

  /** `f` is the point feature of `item`, field by field. */
  ghost predicate Projects(f: Feature, item: RepeaterItem) {
    && HasPosition(item)
    && f.geometry.longitude == item.coordinates[1]
    && f.geometry.latitude == item.coordinates[0]
    && f.properties.name == item.callsign
    && f.properties.txFreq == item.txFrequency
    && f.properties.rxFreq == item.rxFrequency
    && f.properties.status == item.status
  }

  /** Kotlin's `mapNotNull` over the loaded records. */
  function ToFeatures(items: seq<RepeaterItem>): (r: seq<Feature>)
    ensures |r| <= |items|
    ensures |r| == |items| <==> forall i :: 0 <= i < |items| ==> HasPosition(items[i])
  {
    if items == [] then []
    else
      var rest := ToFeatures(items[1..]);
      assert forall i :: 1 <= i < |items| ==> items[i] == items[1..][i - 1];
      (if HasPosition(items[0]) then [FeatureOf(items[0])] else []) + rest
  }

  /** `idx` lists, in increasing order, the positions of exactly the
      placeable records of `items`, and `r[k]` is the feature of record
      `idx[k]`. */
  ghost predicate OrderedFilter(items: seq<RepeaterItem>, r: seq<Feature>, idx: seq<nat>) {
    && |idx| == |r|
    && (forall k :: 0 <= k < |idx| ==> idx[k] < |items| && Projects(r[k], items[idx[k]]))
    && (forall k1, k2 :: 0 <= k1 < k2 < |idx| ==> idx[k1] < idx[k2])
    && (forall i :: 0 <= i < |items| ==> (HasPosition(items[i]) <==> i in idx))
  }

  /** The mapper is an order-preserving filter: its output lists, in input
      order, exactly the features of the records with a position. `idx`
      gives, for each output feature, the position of its record. */
  lemma {:induction false} ToFeaturesIsOrderedFilter(items: seq<RepeaterItem>) returns (idx: seq<nat>)
    ensures OrderedFilter(items, ToFeatures(items), idx)
  {
    if items == [] {
      idx := [];
    } else {
      var rest := ToFeaturesIsOrderedFilter(items[1..]);
      idx := ConsStep(items[0], items[1..], ToFeatures(items[1..]), rest);
      assert items == [items[0]] + items[1..];
    }
  }

  /** Prepending one record to the input of an ordered filter. */
  lemma ConsStep(item: RepeaterItem, tail: seq<RepeaterItem>, r: seq<Feature>, rest: seq<nat>) returns (idx: seq<nat>)
    requires OrderedFilter(tail, r, rest)
    ensures OrderedFilter([item] + tail, (if HasPosition(item) then [FeatureOf(item)] else []) + r, idx)
  {
    if HasPosition(item) {
      idx := ConsPlaced(item, tail, r, rest);
    } else {
      idx := ConsUnplaced(item, tail, r, rest);
    }
  }

  lemma ConsPlaced(item: RepeaterItem, tail: seq<RepeaterItem>, r: seq<Feature>, rest: seq<nat>) returns (idx: seq<nat>)
    requires OrderedFilter(tail, r, rest)
    requires HasPosition(item)
    ensures OrderedFilter([item] + tail, [FeatureOf(item)] + r, idx)
  {
    var items := [item] + tail;
    var out := [FeatureOf(item)] + r;
    var shifted := Shift(rest);
    idx := [0] + shifted;
    assert forall i :: 1 <= i < |items| ==> items[i] == tail[i - 1];
    forall k | 0 <= k < |idx|
      ensures idx[k] < |items| && Projects(out[k], items[idx[k]])
    {
      if k > 0 {
        assert idx[k] == rest[k - 1] + 1;
        assert out[k] == r[k - 1];
      }
    }
    forall i | 0 <= i < |items| ensures HasPosition(items[i]) <==> i in idx {
      if i > 0 {
        assert i in idx <==> i in shifted;
      }
    }
  }

  lemma ConsUnplaced(item: RepeaterItem, tail: seq<RepeaterItem>, r: seq<Feature>, rest: seq<nat>) returns (idx: seq<nat>)
    requires OrderedFilter(tail, r, rest)
    requires !HasPosition(item)
    ensures OrderedFilter([item] + tail, r, idx)
  {
    var items := [item] + tail;
    idx := Shift(rest);
    assert forall i :: 1 <= i < |items| ==> items[i] == tail[i - 1];
    assert forall k :: 0 <= k < |idx| ==> items[idx[k]] == tail[rest[k]];
  }

  /** Every position moved up by one. */
  function Shift(s: seq<nat>): (r: seq<nat>)
    ensures |r| == |s| && forall k :: 0 <= k < |s| ==> r[k] == s[k] + 1
    ensures forall i: int :: i in r <==> i >= 1 && i - 1 in s
  {
    var r := seq(|s|, k requires 0 <= k < |s| => s[k] + 1);
    assert forall i: int :: i in r <==> i >= 1 && i - 1 in s by {
      forall i: int ensures i in r <==> i >= 1 && i - 1 in s {
        if i in r {
          var k :| 0 <= k < |r| && r[k] == i;
          assert s[k] == i - 1;
        }
        if i >= 1 && i - 1 in s {
          var k :| 0 <= k < |s| && s[k] == i - 1;
          assert r[k] == i;
        }
      }
    }
    r
  }

  /** Mapping a concatenation maps each part: records are handled one at a
      time and independently of their neighbours. */
  lemma {:induction false} ToFeaturesAppend(a: seq<RepeaterItem>, b: seq<RepeaterItem>)
    ensures ToFeatures(a + b) == ToFeatures(a) + ToFeatures(b)
  {
    if a == [] {
      assert a + b == b;
    } else {
      assert (a + b)[1..] == a[1..] + b;
      ToFeaturesAppend(a[1..], b);
    }
  }

  /** When every record has a position, feature `k` is the feature of
      record `k`. */
  lemma ToFeaturesAllPlaced(items: seq<RepeaterItem>, k: int)
    requires forall i :: 0 <= i < |items| ==> HasPosition(items[i])
    requires 0 <= k < |items|
    ensures |ToFeatures(items)| == |items| && Projects(ToFeatures(items)[k], items[k])
  {
    var idx := ToFeaturesIsOrderedFilter(items);
    assert forall k :: 0 <= k < |idx| ==> idx[k] < |items|;
    IncreasingIsIdentity(idx, |items|);
  }

  /** A strictly increasing list of `n` indices below `n` is 0, 1, …, n-1. */
  lemma {:induction false} IncreasingIsIdentity(idx: seq<nat>, n: nat)
    requires |idx| == n
    requires forall k :: 0 <= k < n ==> idx[k] < n
    requires forall k1, k2 :: 0 <= k1 < k2 < n ==> idx[k1] < idx[k2]
    ensures forall k :: 0 <= k < n ==> idx[k] == k
  {
    forall k | 0 <= k < n ensures idx[k] == k {
      LowerBound(idx, k);
      UpperBound(idx, n, k);
    }
  }

  lemma {:induction false} LowerBound(idx: seq<nat>, k: nat)
    requires k < |idx|
    requires forall k1, k2 :: 0 <= k1 < k2 < |idx| ==> idx[k1] < idx[k2]
    ensures idx[k] >= k
  {
    if k > 0 {
      LowerBound(idx, k - 1);
    }
  }

  lemma {:induction false} UpperBound(idx: seq<nat>, n: nat, k: nat)
    requires |idx| == n && k < n
    requires forall j :: 0 <= j < n ==> idx[j] < n
    requires forall k1, k2 :: 0 <= k1 < k2 < n ==> idx[k1] < idx[k2]
    ensures idx[k] <= k
    decreases n - k
  {
    if k < n - 1 {
      UpperBound(idx, n, k + 1);
    }
  }

  /** A record with fewer than two coordinates contributes nothing. */
  lemma DropsUnplaced(item: RepeaterItem)
    requires !HasPosition(item)
    ensures ToFeatures([item]) == []
  {
  }

  /** A record decoded from an object without a `coordinates` key has the
      empty default list and so gets no marker; its other fields are the
      declared defaults. */
  lemma DefaultItemDropped()
    ensures DefaultItem.callsign == "" && DefaultItem.status == ""
    ensures DefaultItem.txFrequency == 0.0 && DefaultItem.rxFrequency == 0.0
    ensures DefaultItem.coordinates == [] && !HasPosition(DefaultItem)
    ensures ToFeatures([DefaultItem]) == []
  {
  }
}
