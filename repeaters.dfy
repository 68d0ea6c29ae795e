/**
 The repeater record decoded from the bundled dataset, and the lookup of a
 record by callsign that the map uses to resolve a clicked marker.
 */
module Repeaters {

  import opened Wrappers

  /** One entry of the dataset. Frequencies are in MHz; `coordinates` is
      [latitude, longitude] by index. A CTCSS tone is kept as the text its
      JSON element renders to; `None` stands for Kotlin's null, which the
      decoder gives both for an absent key and for an explicit JSON null. */
  datatype RepeaterItem = RepeaterItem(
    callsign: string,
    status: string,
    txFrequency: real,
    rxFrequency: real,
    coordinates: seq<real>,
    txCtcss: Option<string>,
    rxCtcss: Option<string>,
    qth: Option<string>)

  /** What an object with none of the recognised keys decodes to: the
      declared default of every field. */
  const DefaultItem: RepeaterItem := RepeaterItem("", "", 0.0, 0.0, [], None, None, None)

  /** `i` is the position of the first record whose callsign is `name`. */
  ghost predicate FirstMatch(items: seq<RepeaterItem>, name: string, i: int) {
    && 0 <= i < |items|
    && items[i].callsign == name
    && forall j :: 0 <= j < i ==> items[j].callsign != name
  }

  /** Kotlin's `find { it.callsign == name }`: the first record with that
      callsign, or none when no record has it. */
  function Find(items: seq<RepeaterItem>, name: string): (r: Option<RepeaterItem>)
    ensures r.None? <==> forall i :: 0 <= i < |items| ==> items[i].callsign != name
    ensures r.Some? ==> exists i :: FirstMatch(items, name, i) && items[i] == r.value
  {
    if items == [] then None
    else if items[0].callsign == name then
      assert FirstMatch(items, name, 0);
      Some(items[0])
    else
      var rest := Find(items[1..], name);
      assert forall i :: 1 <= i < |items| ==> items[i] == items[1..][i - 1];
      assert rest.Some? ==> exists i :: FirstMatch(items[1..], name, i) && items[1..][i] == rest.value;
      assert forall i :: FirstMatch(items[1..], name, i) ==> FirstMatch(items, name, i + 1);
      rest
  }

  /** There is only one first match, so the found record is determined by
      the list and the name alone, whatever duplicates follow it. */
  lemma FirstMatchUnique(items: seq<RepeaterItem>, name: string, i: int, k: int)
    requires FirstMatch(items, name, i) && FirstMatch(items, name, k)
    ensures i == k
  {
  }

  /** When callsigns are unique, looking up the callsign of the record at
      position `i` gives back exactly that record. */
  lemma FindOwnCallsign(items: seq<RepeaterItem>, i: int)
    requires 0 <= i < |items|
    requires forall j, k :: 0 <= j < k < |items| ==> items[j].callsign != items[k].callsign
    ensures Find(items, items[i].callsign) == Some(items[i])
  {
    var r := Find(items, items[i].callsign);
    var k :| FirstMatch(items, items[i].callsign, k) && items[k] == r.value;
    assert FirstMatch(items, items[i].callsign, i);
    FirstMatchUnique(items, items[i].callsign, i, k);
  }
}
