/**
 The filter compiler of the map screen: seven checkboxes (three statuses,
 four bands) become the boolean filter the symbol layer applies to every
 feature's properties.
 */
module Filters {

  import opened Features

  /** The checkbox states, in the order the filter code reads them. */
  datatype Toggles = Toggles(
    working: bool, off: bool, planned: bool,
    band70cm: bool, band2m: bool, band6m: bool, band10m: bool)

  /** Every checkbox starts checked: show everything. */
  const DefaultToggles: Toggles := Toggles(true, true, true, true, true, true, true)

  /** Every status checked, and of the bands only 2m. */
  const Only2m: Toggles := Toggles(true, true, true, false, true, false, false)

  /** One checkbox, by name. */
  datatype Toggle = Working | Off | Planned | Band70cm | Band2m | Band6m | Band10m

  /** The toggles after one checkbox is set to `v`. */
  function Set(t: Toggles, id: Toggle, v: bool): Toggles {
    match id
    case Working => t.(working := v)
    case Off => t.(off := v)
    case Planned => t.(planned := v)
    case Band70cm => t.(band70cm := v)
    case Band2m => t.(band2m := v)
    case Band6m => t.(band6m := v)
    case Band10m => t.(band10m := v)
  }

  /** A single test of the filter expression: the status property equals
      a label, or the tx frequency lies strictly between two bounds. */
  datatype Test = StatusEquals(expected: string) | TxInside(low: real, high: real)

  /** The compiled filter: constant false, or all(any(status tests),
      any(frequency tests)). */
  datatype Filter = ConstFalse | AllOf(statusTests: seq<Test>, frequencyTests: seq<Test>)

  predicate Holds(test: Test, p: Properties) {
    match test
    case StatusEquals(expected) => p.status == expected
    case TxInside(low, high) => low < p.txFreq && p.txFreq < high
  }

  /** `any(...)`: some test of the list holds (false for no tests). */
  predicate AnyHolds(tests: seq<Test>, p: Properties) {
    |tests| > 0 && (Holds(tests[0], p) || AnyHolds(tests[1..], p))
  }

  /** How the map evaluates a compiled filter against a feature. */
  predicate Matches(f: Filter, p: Properties) {
    match f
    case ConstFalse => false
    case AllOf(statusTests, frequencyTests) => AnyHolds(statusTests, p) && AnyHolds(frequencyTests, p)
  }

  lemma {:induction false} AnyHoldsExists(tests: seq<Test>, p: Properties)
    ensures AnyHolds(tests, p) <==> exists i :: 0 <= i < |tests| && Holds(tests[i], p)
  {
    if tests != [] {
      AnyHoldsExists(tests[1..], p);
      assert forall i :: 1 <= i < |tests| ==> tests[i] == tests[1..][i - 1];
      if AnyHolds(tests[1..], p) {
        var i :| 0 <= i < |tests[1..]| && Holds(tests[1..][i], p);
        assert Holds(tests[i + 1], p);
      }
    }
  }

  /** Adding a test to an `any` adds one alternative. */
  lemma {:induction false} AnyHoldsAppend(tests: seq<Test>, test: Test)
    ensures forall p :: AnyHolds(tests + [test], p) <==> AnyHolds(tests, p) || Holds(test, p)
  {
    if tests != [] {
      assert (tests + [test])[1..] == tests[1..] + [test];
      AnyHoldsAppend(tests[1..], test);
    }
  }

  // ---- The reference semantics, stated once from the band table ----

  /** The fixed band table: strict open intervals on tx frequency, MHz. */
  predicate In70cm(tx: real) { 420.0 < tx < 450.0 }
  predicate In2m(tx: real) { 144.0 < tx < 146.0 }
  predicate In6m(tx: real) { 50.0 < tx < 54.0 }
  predicate In10m(tx: real) { 28.0 < tx < 29.7 }

  predicate NoStatusChecked(t: Toggles) {
    !t.working && !t.off && !t.planned
  }

  predicate NoBandChecked(t: Toggles) {
    !t.band70cm && !t.band2m && !t.band6m && !t.band10m
  }

  /** The status is, case-sensitively, the label of a checked status. */
  predicate StatusSelected(t: Toggles, status: string) {
    || (t.working && status == "working")
    || (t.off && status == "off")
    || (t.planned && status == "planned")
  }

  /** The tx frequency lies inside a checked band. */
  predicate BandSelected(t: Toggles, tx: real) {
    || (t.band70cm && In70cm(tx))
    || (t.band2m && In2m(tx))
    || (t.band6m && In6m(tx))
    || (t.band10m && In10m(tx))
  }

  /** A feature is shown exactly when both of its group tests pass. */
  predicate Passes(t: Toggles, p: Properties) {
    StatusSelected(t, p.status) && BandSelected(t, p.txFreq)
  }

  // ---- The compiler ----

  /** The list of status tests, one per checked status, in checkbox order. */
  method StatusFilters(t: Toggles) returns (tests: seq<Test>)
    ensures tests ==
      (if t.working then [StatusEquals("working")] else []) +
      (if t.off then [StatusEquals("off")] else []) +
      (if t.planned then [StatusEquals("planned")] else [])
    ensures |tests| == 0 <==> NoStatusChecked(t)
    ensures forall p :: AnyHolds(tests, p) <==> StatusSelected(t, p.status)
  {
    tests := [];
    if t.working {
      AnyHoldsAppend(tests, StatusEquals("working"));
      tests := tests + [StatusEquals("working")];
    }
    assert forall p :: AnyHolds(tests, p) <==> t.working && p.status == "working";
    if t.off {
      AnyHoldsAppend(tests, StatusEquals("off"));
      tests := tests + [StatusEquals("off")];
    }
    assert forall p :: AnyHolds(tests, p) <==>
      (t.working && p.status == "working") || (t.off && p.status == "off");
    if t.planned {
      AnyHoldsAppend(tests, StatusEquals("planned"));
      tests := tests + [StatusEquals("planned")];
    }
  }

  /** The list of frequency tests, one per checked band, in checkbox order. */
  method FrequencyFilters(t: Toggles) returns (tests: seq<Test>)
    ensures tests ==
      (if t.band70cm then [TxInside(420.0, 450.0)] else []) +
      (if t.band2m then [TxInside(144.0, 146.0)] else []) +
      (if t.band6m then [TxInside(50.0, 54.0)] else []) +
      (if t.band10m then [TxInside(28.0, 29.7)] else [])
    ensures |tests| == 0 <==> NoBandChecked(t)
    ensures forall p :: AnyHolds(tests, p) <==> BandSelected(t, p.txFreq)
  {
    tests := [];
    if t.band70cm {
      AnyHoldsAppend(tests, TxInside(420.0, 450.0));
      tests := tests + [TxInside(420.0, 450.0)];
    }
    assert forall p :: AnyHolds(tests, p) <==> t.band70cm && In70cm(p.txFreq);
    if t.band2m {
      AnyHoldsAppend(tests, TxInside(144.0, 146.0));
      tests := tests + [TxInside(144.0, 146.0)];
    }
    assert forall p :: AnyHolds(tests, p) <==>
      (t.band70cm && In70cm(p.txFreq)) || (t.band2m && In2m(p.txFreq));
    if t.band6m {
      AnyHoldsAppend(tests, TxInside(50.0, 54.0));
      tests := tests + [TxInside(50.0, 54.0)];
    }
    assert forall p :: AnyHolds(tests, p) <==>
      (t.band70cm && In70cm(p.txFreq)) || (t.band2m && In2m(p.txFreq)) || (t.band6m && In6m(p.txFreq));
    if t.band10m {
      AnyHoldsAppend(tests, TxInside(28.0, 29.7));
      tests := tests + [TxInside(28.0, 29.7)];
    }
  }

  /** Builds the filter the symbol layer is given; it accepts a feature
      exactly when the feature passes the checked toggles. */
  method CompileFilter(t: Toggles) returns (f: Filter)
    ensures f.ConstFalse? <==> NoStatusChecked(t) || NoBandChecked(t)
    ensures forall p :: Matches(f, p) <==> Passes(t, p)
  {
    var statusFilters := StatusFilters(t);
    var frequencyFilters := FrequencyFilters(t);
    if |statusFilters| == 0 || |frequencyFilters| == 0 {
      f := ConstFalse;
    } else {
      f := AllOf(statusFilters, frequencyFilters);
    }
  }

  // ---- Properties of the reference semantics ----

  /** With every status or every band unchecked, nothing is shown. */
  lemma EmptyGroupRejectsAll(t: Toggles, p: Properties)
    requires NoStatusChecked(t) || NoBandChecked(t)
    ensures !Passes(t, p)
  {
  }

  /** Checking one more box never hides a feature that was shown. */
  lemma CheckingIsMonotone(t: Toggles, id: Toggle, p: Properties)
    requires Passes(t, p)
    ensures Passes(Set(t, id, true), p)
  {
  }

  /** Band endpoints are excluded: with only 2m checked, 144.0 and 146.0
      are rejected and 145.5 is accepted. */
  lemma BandEndpointsExcluded(name: string, rx: real)
    ensures !Passes(Only2m, Properties(name, 144.0, rx, "working"))
    ensures !Passes(Only2m, Properties(name, 146.0, rx, "working"))
    ensures Passes(Only2m, Properties(name, 145.5, rx, "working"))
  {
  }

  /** Under the initial toggles a working repeater at 145.6 MHz is shown,
      and a status outside the three labels never is. */
  lemma DefaultsShowWorking2m(name: string, rx: real)
    ensures Passes(DefaultToggles, Properties(name, 145.6, rx, "working"))
    ensures !Passes(DefaultToggles, Properties(name, 145.6, rx, "testing"))
    ensures forall status, tx :: status != "working" && status != "off" && status != "planned" ==>
      !Passes(DefaultToggles, Properties(name, tx, rx, status))
  {
  }
}
