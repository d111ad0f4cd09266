/**
 * Length units (src/units.rs): the constant table of unit ids with their
 * factor to meters, and the lookup of a unit by name, ignoring ASCII case.
 */
module Units {
  import opened Options

  /** One row of the table: id, factor as written, display name, factor to meters. */
  datatype UnitDef = UnitDef(id: string, toMeterText: string, name: string, toMeter: real)

  /** `constants::UNITS`, in table order (the `f64` factors as exact decimals). */
  const UNITS: seq<UnitDef> := [
    UnitDef("km",     "1000",              "Kilometer",                    1000.0),
    UnitDef("m",      "1",                 "Meter",                        1.0),
    UnitDef("dm",     "1/10",              "Decimeter",                    0.1),
    UnitDef("cm",     "1/100",             "Centimeter",                   0.01),
    UnitDef("mm",     "1/1000",            "Millimeter",                   0.001),
    UnitDef("kmi",    "1852",              "International Nautical Mile",  1852.0),
    UnitDef("in",     "0.0254",            "International Inch",           0.0254),
    UnitDef("ft",     "0.3048",            "International Foot",           0.3048),
    UnitDef("yd",     "0.9144",            "International Yard",           0.9144),
    UnitDef("mi",     "1609.344",          "International Statute Mile",   1609.344),
    UnitDef("fath",   "1.8288",            "International Fathom",         1.8288),
    UnitDef("ch",     "20.1168",           "International Chain",          20.1168),
    UnitDef("link",   "0.201168",          "International Link",           0.201168),
    UnitDef("us-in",  "1/39.37",           "U.S. Surveyor's Inch",         100.0 / 3937.0),
    UnitDef("us-ft",  "0.304800609601219", "U.S. Surveyor's Foot",         1200.0 / 3937.0),
    UnitDef("us-yd",  "0.914401828803658", "U.S. Surveyor's Yard",         3600.0 / 3937.0),
    UnitDef("us-ch",  "20.11684023368047", "U.S. Surveyor's Chain",        79200.0 / 3937.0),
    UnitDef("us-mi",  "1609.347218694437", "U.S. Surveyor's Statute Mile", 6336000.0 / 3937.0),
    UnitDef("ind-yd", "0.91439523",        "Indian Yard",                  0.91439523),
    UnitDef("ind-ft", "0.30479841",        "Indian Foot",                  0.30479841),
    UnitDef("ind-ch", "20.11669506",       "Indian Chain",                 20.11669506)
  ]

  /** `u8::to_ascii_lowercase` on one character: only 'A'..'Z' change. */
  function AsciiLower(c: char): char {
    if 'A' <= c <= 'Z' then (c as int + 32) as char else c
  }

  /** `u8::to_ascii_uppercase` on one character: only 'a'..'z' change. */
  function AsciiUpper(c: char): char {
    if 'a' <= c <= 'z' then (c as int - 32) as char else c
  }

  function ToAsciiLowercase(s: string): string {
    seq(|s|, i requires 0 <= i < |s| => AsciiLower(s[i]))
  }

  function ToAsciiUppercase(s: string): string {
    seq(|s|, i requires 0 <= i < |s| => AsciiUpper(s[i]))
  }

  /** `str::eq_ignore_ascii_case`: same length, and equal position by position after ASCII folding. */
  predicate EqIgnoreAsciiCase(a: string, b: string): (eq: bool)
    ensures eq <==> ToAsciiLowercase(a) == ToAsciiLowercase(b)
  {
    var la, lb := ToAsciiLowercase(a), ToAsciiLowercase(b);
    assert forall i :: 0 <= i < |a| ==> la[i] == AsciiLower(a[i]);
    assert forall i :: 0 <= i < |b| ==> lb[i] == AsciiLower(b[i]);
    |a| == |b| && forall i :: 0 <= i < |a| ==> AsciiLower(a[i]) == AsciiLower(b[i])
  }

  /** The index of the first row at or after `from` whose id matches `name` (the iterator's `find`). */
  function FindFrom(table: seq<UnitDef>, name: string, from: nat): (r: Option<nat>)
    requires from <= |table|
    ensures r.Some? ==> from <= r.value < |table| && EqIgnoreAsciiCase(table[r.value].id, name)
    ensures r.Some? ==> forall j :: from <= j < r.value ==> !EqIgnoreAsciiCase(table[j].id, name)
    ensures r.None? <==> forall j :: from <= j < |table| ==> !EqIgnoreAsciiCase(table[j].id, name)
    decreases |table| - from
  {
    if from == |table| then None
    else if EqIgnoreAsciiCase(table[from].id, name) then Some(from)
    else FindFrom(table, name, from + 1)
  }

  /** `find_unit_to_meter`: the factor of the first row whose id matches `name`, ignoring ASCII case. */
  function FindUnitToMeter(name: string): (r: Option<real>)
    ensures r.None? <==> forall i :: 0 <= i < |UNITS| ==> !EqIgnoreAsciiCase(UNITS[i].id, name)
    ensures r.Some? ==> exists i :: 0 <= i < |UNITS| && EqIgnoreAsciiCase(UNITS[i].id, name)
                                    && r.value == UNITS[i].toMeter
                                    && forall j :: 0 <= j < i ==> !EqIgnoreAsciiCase(UNITS[j].id, name)
  {
    match FindFrom(UNITS, name, 0)
    case Some(i) => Some(UNITS[i].toMeter)
    case None => None
  }

  /** Length, first and last character after ASCII folding: enough to tell the table's ids apart. */
  function Fingerprint(s: string): (int, char, char) {
    if |s| == 0 then (0, ' ', ' ') else (|s|, AsciiLower(s[0]), AsciiLower(s[|s| - 1]))
  }

  /** The table row whose id has fingerprint `key` (21 when there is none). */
  function RowOfFingerprint(key: (int, char, char)): nat {
    if key == (2, 'k', 'm') then 0
    else if key == (1, 'm', 'm') then 1
    else if key == (2, 'd', 'm') then 2
    else if key == (2, 'c', 'm') then 3
    else if key == (2, 'm', 'm') then 4
    else if key == (3, 'k', 'i') then 5
    else if key == (2, 'i', 'n') then 6
    else if key == (2, 'f', 't') then 7
    else if key == (2, 'y', 'd') then 8
    else if key == (2, 'm', 'i') then 9
    else if key == (4, 'f', 'h') then 10
    else if key == (2, 'c', 'h') then 11
    else if key == (4, 'l', 'k') then 12
    else if key == (5, 'u', 'n') then 13
    else if key == (5, 'u', 't') then 14
    else if key == (5, 'u', 'd') then 15
    else if key == (5, 'u', 'h') then 16
    else if key == (5, 'u', 'i') then 17
    else if key == (6, 'i', 'd') then 18
    else if key == (6, 'i', 't') then 19
    else if key == (6, 'i', 'h') then 20
    else 21
  }

  lemma FingerprintIdentifiesRow(k: nat)
    requires k < |UNITS|
    ensures RowOfFingerprint(Fingerprint(UNITS[k].id)) == k
  {
    if k < 7 {
      FingerprintsOfRows0To6(k);
    } else if k < 14 {
      FingerprintsOfRows7To13(k);
    } else {
      FingerprintsOfRows14To20(k);
    }
  }

  lemma {:induction false} FingerprintsOfRows0To6(k: nat)
    requires 0 <= k < 7
    ensures RowOfFingerprint(Fingerprint(UNITS[k].id)) == k
  {
    if k == 0 {
      assert UNITS[0].id == "km";
    } else if k == 1 {
      assert UNITS[1].id == "m";
    } else if k == 2 {
      assert UNITS[2].id == "dm";
    } else if k == 3 {
      assert UNITS[3].id == "cm";
    } else if k == 4 {
      assert UNITS[4].id == "mm";
    } else if k == 5 {
      assert UNITS[5].id == "kmi";
    } else if k == 6 {
      assert UNITS[6].id == "in";
    }
  }

  lemma {:induction false} FingerprintsOfRows7To13(k: nat)
    requires 7 <= k < 14
    ensures RowOfFingerprint(Fingerprint(UNITS[k].id)) == k
  {
    if k == 7 {
      assert UNITS[7].id == "ft";
    } else if k == 8 {
      assert UNITS[8].id == "yd";
    } else if k == 9 {
      assert UNITS[9].id == "mi";
    } else if k == 10 {
      assert UNITS[10].id == "fath";
    } else if k == 11 {
      assert UNITS[11].id == "ch";
    } else if k == 12 {
      assert UNITS[12].id == "link";
    } else if k == 13 {
      assert UNITS[13].id == "us-in";
    }
  }

  lemma {:induction false} FingerprintsOfRows14To20(k: nat)
    requires 14 <= k < 21
    ensures RowOfFingerprint(Fingerprint(UNITS[k].id)) == k
  {
    if k == 14 {
      assert UNITS[14].id == "us-ft";
    } else if k == 15 {
      assert UNITS[15].id == "us-yd";
    } else if k == 16 {
      assert UNITS[16].id == "us-ch";
    } else if k == 17 {
      assert UNITS[17].id == "us-mi";
    } else if k == 18 {
      assert UNITS[18].id == "ind-yd";
    } else if k == 19 {
      assert UNITS[19].id == "ind-ft";
    } else if k == 20 {
      assert UNITS[20].id == "ind-ch";
    }
  }

  /** Matching ids ignoring ASCII case have the same fingerprint. */
  lemma FingerprintIgnoresCase(a: string, b: string)
    requires EqIgnoreAsciiCase(a, b)
    ensures Fingerprint(a) == Fingerprint(b)
  {
    if |a| > 0 {
      assert AsciiLower(a[0]) == AsciiLower(b[0]);
      assert AsciiLower(a[|a| - 1]) == AsciiLower(b[|b| - 1]);
    }
  }

  /** The ids of the table are pairwise distinct under ASCII case folding. */
  lemma {:induction false} IdsDistinct(i: nat, j: nat)
    requires i < |UNITS| && j < |UNITS|
    ensures EqIgnoreAsciiCase(UNITS[i].id, UNITS[j].id) <==> i == j
  {
    if EqIgnoreAsciiCase(UNITS[i].id, UNITS[j].id) {
      FingerprintIgnoresCase(UNITS[i].id, UNITS[j].id);
      FingerprintIdentifiesRow(i);
      FingerprintIdentifiesRow(j);
    }
  }

  /** Matching ignoring ASCII case is an equivalence. */
  lemma EqIgnoreAsciiCaseEquivalence(a: string, b: string, c: string)
    ensures EqIgnoreAsciiCase(a, a)
    ensures EqIgnoreAsciiCase(a, b) ==> EqIgnoreAsciiCase(b, a)
    ensures EqIgnoreAsciiCase(a, b) && EqIgnoreAsciiCase(b, c) ==> EqIgnoreAsciiCase(a, c)
  {
  }

  /** Upper- or lower-casing a name (ASCII only) leaves it equal to itself ignoring case. */
  lemma CaseFoldingMatches(name: string)
    ensures EqIgnoreAsciiCase(ToAsciiUppercase(name), name)
    ensures EqIgnoreAsciiCase(ToAsciiLowercase(name), name)
  {
    forall i | 0 <= i < |name|
      ensures AsciiLower(AsciiUpper(name[i])) == AsciiLower(name[i])
      ensures AsciiLower(AsciiLower(name[i])) == AsciiLower(name[i])
    {
    }
  }

  /** The search finds the same row for two names that match ignoring ASCII case. */
  lemma {:induction false} FindFromIgnoresCase(table: seq<UnitDef>, a: string, b: string, from: nat)
    requires from <= |table|
    requires EqIgnoreAsciiCase(a, b)
    ensures FindFrom(table, a, from) == FindFrom(table, b, from)
    decreases |table| - from
  {
    if from < |table| {
      EqIgnoreAsciiCaseEquivalence(table[from].id, a, b);
      EqIgnoreAsciiCaseEquivalence(table[from].id, b, a);
      EqIgnoreAsciiCaseEquivalence(a, b, a);
      if !EqIgnoreAsciiCase(table[from].id, a) {
        FindFromIgnoresCase(table, a, b, from + 1);
      }
    }
  }

  /** The lookup does not depend on the ASCII case of the query ("KM" and "km" agree). */
  lemma LookupIgnoresCase(name: string)
    ensures FindUnitToMeter(ToAsciiUppercase(name)) == FindUnitToMeter(name)
    ensures FindUnitToMeter(ToAsciiLowercase(name)) == FindUnitToMeter(name)
  {
    CaseFoldingMatches(name);
    FindFromIgnoresCase(UNITS, ToAsciiUppercase(name), name, 0);
    FindFromIgnoresCase(UNITS, ToAsciiLowercase(name), name, 0);
  }

  /** Any row whose id matches the name is the row the lookup returns: the first match is the only one. */
  lemma OnlyMatch(name: string, i: nat)
    requires i < |UNITS| && EqIgnoreAsciiCase(UNITS[i].id, name)
    ensures FindUnitToMeter(name) == Some(UNITS[i].toMeter)
  {
    var k := FindFrom(UNITS, name, 0).value;
    EqIgnoreAsciiCaseEquivalence(UNITS[k].id, name, UNITS[i].id);
    EqIgnoreAsciiCaseEquivalence(UNITS[i].id, name, name);
    IdsDistinct(k, i);
  }

  /** Every factor of the table is strictly positive. */
  lemma FactorsPositive(i: nat)
    requires i < |UNITS|
    ensures UNITS[i].toMeter > 0.0
  {
  }

  /** Lookups of a few common units. */
  lemma KnownFactors(name: string)
    ensures name == "m" ==> FindUnitToMeter(name) == Some(1.0)
    ensures name == "km" ==> FindUnitToMeter(name) == Some(1000.0)
    ensures name == "kmi" ==> FindUnitToMeter(name) == Some(1852.0)
    ensures name == "ft" ==> FindUnitToMeter(name) == Some(0.3048)
  {
    if name == "m" {
      OnlyMatch(name, 1);
    } else if name == "km" {
      OnlyMatch(name, 0);
    } else if name == "kmi" {
      OnlyMatch(name, 5);
    } else if name == "ft" {
      OnlyMatch(name, 7);
    }
  }

  /** Every row is what the lookup of its own id returns. */
  lemma LookupRow(i: nat)
    requires i < |UNITS|
    ensures FindUnitToMeter(UNITS[i].id) == Some(UNITS[i].toMeter)
  {
    EqIgnoreAsciiCaseEquivalence(UNITS[i].id, UNITS[i].id, UNITS[i].id);
    OnlyMatch(UNITS[i].id, i);
  }

  /**
   * The U.S. survey rows are exact ratios over 3937 (the survey foot is
   * 1200/3937 m), each the usual multiple of the survey foot; `LookupRow`
   * makes these the results of looking the ids up.
   */
  lemma SurveyRows()
    ensures UNITS[13].id == "us-in" && UNITS[13].toMeter == 100.0 / 3937.0
    ensures UNITS[14].id == "us-ft" && UNITS[14].toMeter == 1200.0 / 3937.0
    ensures UNITS[15].id == "us-yd" && UNITS[15].toMeter == 3600.0 / 3937.0
    ensures UNITS[16].id == "us-ch" && UNITS[16].toMeter == 79200.0 / 3937.0
    ensures UNITS[17].id == "us-mi" && UNITS[17].toMeter == 6336000.0 / 3937.0
    ensures UNITS[14].toMeter == 12.0 * UNITS[13].toMeter
    ensures UNITS[15].toMeter == 3.0 * UNITS[14].toMeter
    ensures UNITS[16].toMeter == 66.0 * UNITS[14].toMeter
    ensures UNITS[17].toMeter == 5280.0 * UNITS[14].toMeter
  {
  }

  /** The international and Indian rows are consistent multiples of their foot. */
  lemma FootBasedRows()
    ensures UNITS[7].id == "ft" && UNITS[7].toMeter == 0.3048
    ensures UNITS[6].id == "in" && UNITS[7].toMeter == 12.0 * UNITS[6].toMeter
    ensures UNITS[8].id == "yd" && UNITS[8].toMeter == 3.0 * UNITS[7].toMeter
    ensures UNITS[9].id == "mi" && UNITS[9].toMeter == 5280.0 * UNITS[7].toMeter
    ensures UNITS[10].id == "fath" && UNITS[10].toMeter == 6.0 * UNITS[7].toMeter
    ensures UNITS[11].id == "ch" && UNITS[11].toMeter == 66.0 * UNITS[7].toMeter
    ensures UNITS[12].id == "link" && UNITS[11].toMeter == 100.0 * UNITS[12].toMeter
    ensures UNITS[19].id == "ind-ft" && UNITS[18].id == "ind-yd" && UNITS[18].toMeter == 3.0 * UNITS[19].toMeter
    ensures UNITS[20].id == "ind-ch" && UNITS[20].toMeter == 22.0 * UNITS[18].toMeter
  {
  }

  /** A name whose fingerprint no row has is not in the table. */
  lemma NoMatch(name: string)
    requires RowOfFingerprint(Fingerprint(name)) == |UNITS|
    ensures FindUnitToMeter(name) == None
  {
    forall i | 0 <= i < |UNITS| ensures !EqIgnoreAsciiCase(UNITS[i].id, name) {
      if EqIgnoreAsciiCase(UNITS[i].id, name) {
        FingerprintIgnoresCase(UNITS[i].id, name);
        FingerprintIdentifiesRow(i);
      }
    }
  }

  /** Units absent from the table, such as the furlong, are not found. */
  lemma UnknownUnits(name: string)
    ensures name == "furlong" ==> FindUnitToMeter(name) == None
    ensures name == "" ==> FindUnitToMeter(name) == None
  {
    if name == "furlong" || name == "" {
      NoMatch(name);
    }
  }
}
