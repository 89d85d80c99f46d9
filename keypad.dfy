/** The keypad's voltage bands: `button_handler` maps the raw ADC sample of
    the keypad line to a key through twelve open intervals, one per key.
    Samples that fall in no band (including everything at or below 390)
    press no key. */
module Keypad {
  import opened Wrappers

  /** A key's band of samples, bounds excluded: `Above` is `v > lo`,
      `Between` is `lo < v < hi`. */
  datatype Band = Above(key: char, lo: int) | Between(key: char, lo: int, hi: int)

  predicate InBand(v: int, b: Band) {
    match b
    case Above(_, lo) => v > lo
    case Between(_, lo, hi) => lo < v < hi
  }

  /** The calibration table, in the order `button_handler` tests it. */
  const Bands: seq<Band> := [
    Above('1', 960),
    Between('2', 870, 910),
    Between('3', 760, 810),
    Between('4', 700, 750),
    Between('5', 650, 670),
    Between('6', 580, 610),
    Between('7', 540, 570),
    Between('8', 500, 525),
    Between('9', 470, 490),
    Between('0', 420, 440),
    Between('*', 445, 470),
    Between('#', 390, 420)
  ]

  /** The keys of the keypad, in table order. */
  const Keys: seq<char> := ['1', '2', '3', '4', '5', '6', '7', '8', '9', '0', '*', '#']

  /** The key of the first band of `bands` that holds `v`. */
  function Lookup(v: int, bands: seq<Band>): Option<char> {
    if bands == [] then None
    else if InBand(v, bands[0]) then Some(bands[0].key)
    else Lookup(v, bands[1..])
  }

  /** The key a sample stands for, if any. */
  function Decode(v: int): Option<char> {
    Lookup(v, Bands)
  }

  lemma {:induction false} LookupSound(v: int, bands: seq<Band>)
    requires Lookup(v, bands).Some?
    ensures exists i :: 0 <= i < |bands| && InBand(v, bands[i]) && bands[i].key == Lookup(v, bands).value
  {
    if !InBand(v, bands[0]) {
      LookupSound(v, bands[1..]);
      var i :| 0 <= i < |bands[1..]| && InBand(v, bands[1..][i]) && bands[1..][i].key == Lookup(v, bands).value;
      assert bands[i + 1] == bands[1..][i];
    }
  }

  lemma {:induction false} LookupComplete(v: int, bands: seq<Band>, i: nat)
    requires i < |bands| && InBand(v, bands[i])
    requires forall j :: 0 <= j < i ==> !InBand(v, bands[j])
    ensures Lookup(v, bands) == Some(bands[i].key)
  {
    if i > 0 {
      assert !InBand(v, bands[0]);
      assert forall j :: 0 <= j < i - 1 ==> bands[1..][j] == bands[j + 1];
      LookupComplete(v, bands[1..], i - 1);
    }
  }

  /** No sample lies in two bands, so the chain of independent `if` tests in
      `button_handler` fires at most once. */
  lemma BandsDisjoint(v: int, i: nat, j: nat)
    requires i < j < |Bands|
    ensures !(InBand(v, Bands[i]) && InBand(v, Bands[j]))
  {
  }

  /** The table gives each key exactly one band. */
  lemma BandKeys()
    ensures |Bands| == |Keys|
    ensures forall i :: 0 <= i < |Bands| ==> Bands[i].key == Keys[i]
    ensures forall i, j :: 0 <= i < j < |Keys| ==> Keys[i] != Keys[j]
  {
  }

  /** A sample decodes to the key of band i exactly when it lies in band i. */
  lemma DecodeBand(v: int, i: nat)
    requires i < |Bands|
    ensures Decode(v) == Some(Bands[i].key) <==> InBand(v, Bands[i])
  {
    BandKeys();
    if InBand(v, Bands[i]) {
      forall j | 0 <= j < i ensures !InBand(v, Bands[j]) {
        BandsDisjoint(v, j, i);
      }
      LookupComplete(v, Bands, i);
    }
    if Decode(v) == Some(Bands[i].key) {
      LookupSound(v, Bands);
    }
  }

  lemma {:induction false} LookupNone(v: int, bands: seq<Band>)
    requires forall i :: 0 <= i < |bands| ==> !InBand(v, bands[i])
    ensures Lookup(v, bands) == None
  {
    if bands != [] {
      assert !InBand(v, bands[0]);
      assert forall j :: 0 <= j < |bands| - 1 ==> bands[1..][j] == bands[j + 1];
      LookupNone(v, bands[1..]);
    }
  }

  /** The samples in no band: at or below 390, 420, 440..445, 470, 490..500,
      525..540, 570..580, 610..650, 670..700, 750..760, 810..870 and
      910..960. */
  predicate InGap(v: int) {
    v <= 390 || v == 420 || 440 <= v <= 445 || v == 470 || 490 <= v <= 500
    || 525 <= v <= 540 || 570 <= v <= 580 || 610 <= v <= 650 || 670 <= v <= 700
    || 750 <= v <= 760 || 810 <= v <= 870 || 910 <= v <= 960
  }

  lemma GapIsOutsideBands(v: int)
    ensures InGap(v) <==> forall i :: 0 <= i < |Bands| ==> !InBand(v, Bands[i])
  {
    if !InGap(v) {
      assert InBand(v, Bands[0]) || InBand(v, Bands[1]) || InBand(v, Bands[2])
        || InBand(v, Bands[3]) || InBand(v, Bands[4]) || InBand(v, Bands[5])
        || InBand(v, Bands[6]) || InBand(v, Bands[7]) || InBand(v, Bands[8])
        || InBand(v, Bands[9]) || InBand(v, Bands[10]) || InBand(v, Bands[11]);
    }
  }

  /** Decoding yields one of the twelve keys, or nothing exactly for the
      samples in a gap between bands. */
  lemma DecodeGaps(v: int)
    ensures Decode(v).Some? ==> Decode(v).value in Keys
    ensures Decode(v) == None <==> InGap(v)
  {
    BandKeys();
    GapIsOutsideBands(v);
    if Decode(v).Some? {
      LookupSound(v, Bands);
    } else {
      forall i | 0 <= i < |Bands| ensures !InBand(v, Bands[i]) {
        DecodeBand(v, i);
      }
    }
    if InGap(v) {
      LookupNone(v, Bands);
    }
  }
}
