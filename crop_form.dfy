/**
  The crop form's submit handler: the ordered validation checks, the parse of
  the area, the selection of the historical rows that match the chosen
  location and soil, and whether the estimation stage on those rows raises
  `ValueError`, which the handler reports with the same message as an area
  that does not parse. crop.py:35-99 is the stand-alone page; app.py:397-491
  is the bilingual page, which also asks for a username and maps Kannada
  selections back to English.
 */
module CropForm {
  import opened Wrappers
  import opened Translation

  /** One row of the historical data file (columns Location, Soil type,
      Irrigation, Crops, Year, Area, yeilds, price; `cropYield` is
      the column the file spells `yeilds`). */
  datatype Record = Record(
    location: string, soilType: string, irrigation: string, crops: string,
    year: int, area: real, cropYield: real, price: real)

  /** What pressing the submit button leads to. `N` is whatever the number
      parser produces for the area. */
  datatype Outcome<N> =
    | SelectionMissing                    // "Please select a location and soil type."
    | AreaMissing                         // "Please enter a valid area."
    | UsernameMissing                     // "Please enter your registered username." (app.py only)
    | InvalidNumber                       // "Please enter a valid number for the Area."
    | NoData                              // "No data available for the selected location and soil type."
    | EstimationFailed                    // the estimation stage failed (corrected handlers only)
    | Estimate(area: N, slice: seq<Record>)  // the estimation stage succeeds on this non-empty slice

  /** The row matches the chosen location and soil exactly. */
  predicate Matches(x: Record, place: string, soil: string)
  {
    x.location == place && x.soilType == soil
  }

  /** `df1[(df1['Location'] == place) & (df1['Soil type'] == soil)]`: the
      matching rows, each as often as it occurs, in file order. */
  function Slice(data: seq<Record>, place: string, soil: string): (r: seq<Record>)
    ensures |r| <= |data|
    ensures forall k :: 0 <= k < |r| ==> Matches(r[k], place, soil)
  {
    if data == [] then []
    else
      (if Matches(data[0], place, soil) then [data[0]] else []) + Slice(data[1..], place, soil)
  }

  /** Filtering a concatenation filters each part, keeping the file order. */
  lemma {:induction false} SliceAppend(a: seq<Record>, b: seq<Record>, place: string, soil: string)
    ensures Slice(a + b, place, soil) == Slice(a, place, soil) + Slice(b, place, soil)
  {
    if a == [] {
      assert a + b == b;
    } else {
      var head := if Matches(a[0], place, soil) then [a[0]] else [];
      assert (a + b)[0] == a[0];
      assert (a + b)[1..] == a[1..] + b;
      SliceAppend(a[1..], b, place, soil);
      calc {
        Slice(a + b, place, soil);
        head + Slice(a[1..] + b, place, soil);
        head + (Slice(a[1..], place, soil) + Slice(b, place, soil));
        (head + Slice(a[1..], place, soil)) + Slice(b, place, soil);
        Slice(a, place, soil) + Slice(b, place, soil);
      }
    }
  }

  /** The slice holds every matching row exactly as often as the data does,
      and no other row. */
  lemma {:induction false} SliceCounts(data: seq<Record>, place: string, soil: string)
    ensures forall x :: multiset(Slice(data, place, soil))[x] == if Matches(x, place, soil) then multiset(data)[x] else 0
  {
    if data != [] {
      SliceCounts(data[1..], place, soil);
      var head := if Matches(data[0], place, soil) then [data[0]] else [];
      assert data == [data[0]] + data[1..];
      assert multiset(Slice(data, place, soil)) == multiset(head) + multiset(Slice(data[1..], place, soil));
      assert multiset(data) == multiset([data[0]]) + multiset(data[1..]);
    }
  }

  /** The slice is empty exactly when no row matches. */
  lemma SliceEmpty(data: seq<Record>, place: string, soil: string)
    ensures Slice(data, place, soil) == [] <==> forall k :: 0 <= k < |data| ==> !Matches(data[k], place, soil)
  {
    var r := Slice(data, place, soil);
    SliceCounts(data, place, soil);
    if r == [] {
      forall k | 0 <= k < |data| ensures !Matches(data[k], place, soil) {
        assert multiset(data)[data[k]] > 0;
        assert multiset(r)[data[k]] == 0;
      }
    } else {
      assert multiset(r)[r[0]] > 0;
    }
  }

  /** `train_test_split(..., test_size=0.2)` puts `ceil(0.2 * n)` of `n` rows
      in the test split and raises `ValueError` when no row is left for
      training. (Floating-point rounding can add one test row when `n` is a
      multiple of five; that never empties the training split.) */
  predicate TrainSplitEmpty(n: nat)
  {
    n - (n + 4) / 5 <= 0
  }

  /** Of the non-empty slices, only a single row leaves no training data. */
  lemma TrainSplitEmptyIffOneRow(n: nat)
    requires n >= 1
    ensures TrainSplitEmpty(n) <==> n == 1
  {
  }

  /** Every row records the same crop, so whatever rows the shuffle puts in
      the training split, `SVC.fit` sees a single class and raises
      `ValueError`. */
  predicate SingleCrop(slice: seq<Record>)
  {
    forall k :: 0 <= k < |slice| ==> slice[k].crops == slice[0].crops
  }

  /** Some row has `Area` zero, so its `yields/area` and `price/area` are
      infinite or NaN, and the scaler or the classifier raises `ValueError`
      whichever split the row lands in. */
  predicate ZeroArea(slice: seq<Record>)
  {
    exists k :: 0 <= k < |slice| && slice[k].area == 0.0
  }

  /** Whether the estimation stage (crop.py:51-89, app.py:414-442) raises
      `ValueError` on a non-empty slice. `splitFails` stands for the causes
      that depend on the seeded shuffle or on values the model does not
      track: a training split that happens to hold one crop of several, or a
      missing value in the file. */
  predicate EstimationFails(slice: seq<Record>, splitFails: seq<Record> -> bool)
  {
    TrainSplitEmpty(|slice|) || SingleCrop(slice) || ZeroArea(slice) || splitFails(slice)
  }

  /** The stand-alone page as written (crop.py:35-99). Checks run in order:
      a placeholder location or soil, then an empty area, then the parse of
      the area, then the filter; a non-empty slice goes to the estimation
      stage, and a `ValueError` there reaches the same handler as a failed
      parse, so it too is reported as an invalid number. */
  function SubmitStandalone<N>(place: string, area: string, soil: string, parse: string -> Option<N>,
                               splitFails: seq<Record> -> bool, data: seq<Record>): (r: Outcome<N>)
    ensures r.SelectionMissing? <==> place == Placeholder || soil == Placeholder
    ensures r.AreaMissing? <==> place != Placeholder && soil != Placeholder && area == ""
    ensures r.InvalidNumber? <==>
      place != Placeholder && soil != Placeholder && area != ""
      && (parse(area).None?
          || (Slice(data, place, soil) != [] && EstimationFails(Slice(data, place, soil), splitFails)))
    ensures r.NoData? <==>
      place != Placeholder && soil != Placeholder && area != "" && parse(area).Some?
      && forall k :: 0 <= k < |data| ==> !Matches(data[k], place, soil)
    ensures !r.UsernameMissing? && !r.EstimationFailed?
    ensures r.Estimate? ==>
      Some(r.area) == parse(area) && r.slice == Slice(data, place, soil) && r.slice != []
      && !EstimationFails(r.slice, splitFails)
  {
    SliceEmpty(data, place, soil);
    if place == Placeholder || soil == Placeholder then SelectionMissing
    else if area == "" then AreaMissing
    else match parse(area)
      case None => InvalidNumber
      case Some(x) =>
        var slice := Slice(data, place, soil);
        if slice == [] then NoData
        else if EstimationFails(slice, splitFails) then InvalidNumber
        else Estimate(x, slice)
  }

  /** As written, a location and soil with a single data row are reported as
      an invalid area however well the area parses: `train_test_split`
      raises `ValueError` on that row, and the handler meant for `float(area)`
      catches it. */
  lemma OneRowIsInvalidNumber<N>(place: string, area: string, soil: string, parse: string -> Option<N>,
                                 splitFails: seq<Record> -> bool, data: seq<Record>)
    requires place != Placeholder && soil != Placeholder && area != "" && parse(area).Some?
    requires |Slice(data, place, soil)| == 1
    ensures SubmitStandalone(place, area, soil, parse, splitFails, data) == InvalidNumber
  {
    TrainSplitEmptyIffOneRow(1);
  }

  /** The stand-alone page as evidently intended: "Please enter a valid
      number for the Area." only for an area that does not parse, and a
      failure of the estimation stage reported as such. */
  function SubmitStandaloneFixed<N>(place: string, area: string, soil: string, parse: string -> Option<N>,
                                    splitFails: seq<Record> -> bool, data: seq<Record>): (r: Outcome<N>)
    ensures r.SelectionMissing? <==> place == Placeholder || soil == Placeholder
    ensures r.AreaMissing? <==> place != Placeholder && soil != Placeholder && area == ""
    ensures r.InvalidNumber? <==> place != Placeholder && soil != Placeholder && area != "" && parse(area).None?
    ensures r.NoData? <==>
      place != Placeholder && soil != Placeholder && area != "" && parse(area).Some?
      && forall k :: 0 <= k < |data| ==> !Matches(data[k], place, soil)
    ensures r.EstimationFailed? <==>
      place != Placeholder && soil != Placeholder && area != "" && parse(area).Some?
      && Slice(data, place, soil) != [] && EstimationFails(Slice(data, place, soil), splitFails)
    ensures !r.UsernameMissing?
    ensures r.Estimate? ==>
      Some(r.area) == parse(area) && r.slice == Slice(data, place, soil) && r.slice != []
      && !EstimationFails(r.slice, splitFails)
  {
    SliceEmpty(data, place, soil);
    if place == Placeholder || soil == Placeholder then SelectionMissing
    else if area == "" then AreaMissing
    else match parse(area)
      case None => InvalidNumber
      case Some(x) =>
        var slice := Slice(data, place, soil);
        if slice == [] then NoData
        else if EstimationFails(slice, splitFails) then EstimationFailed
        else Estimate(x, slice)
  }

  /** The correction changes one thing: an estimation failure on a parsed
      area is no longer reported as an invalid number. */
  lemma StandaloneFixOnlyRenames<N>(place: string, area: string, soil: string, parse: string -> Option<N>,
                                    splitFails: seq<Record> -> bool, data: seq<Record>)
    ensures var r := SubmitStandalone(place, area, soil, parse, splitFails, data);
      SubmitStandaloneFixed(place, area, soil, parse, splitFails, data)
      == if r.InvalidNumber? && parse(area).Some? then EstimationFailed else r
  {
  }

  /** The bilingual page as written (app.py:397-491). Checks run in order: a
      placeholder location or soil, an empty area, an empty username, then
      the parse of the area; the filter uses the selections mapped back to
      English when the page is in Kannada, and a `ValueError` of the
      estimation stage is reported as an invalid number. */
  function SubmitBilingual<N>(language: Language, place: string, area: string, soil: string,
                              username: string, parse: string -> Option<N>,
                              splitFails: seq<Record> -> bool, data: seq<Record>): (r: Outcome<N>)
    ensures r.SelectionMissing? <==> place == Placeholder || soil == Placeholder
    ensures r.AreaMissing? <==> place != Placeholder && soil != Placeholder && area == ""
    ensures r.UsernameMissing? <==>
      place != Placeholder && soil != Placeholder && area != "" && username == ""
    ensures r.InvalidNumber? <==>
      place != Placeholder && soil != Placeholder && area != "" && username != ""
      && var s := Slice(data, SelectionInEnglish(TranslationsKn, language, place),
                        SelectionInEnglish(TranslationsKn, language, soil));
         (parse(area).None? || (s != [] && EstimationFails(s, splitFails)))
    ensures r.NoData? <==>
      place != Placeholder && soil != Placeholder && area != "" && username != "" && parse(area).Some?
      && forall k :: 0 <= k < |data| ==>
           !Matches(data[k], SelectionInEnglish(TranslationsKn, language, place),
                    SelectionInEnglish(TranslationsKn, language, soil))
    ensures !r.EstimationFailed?
    ensures r.Estimate? ==>
      Some(r.area) == parse(area) && r.slice != [] && !EstimationFails(r.slice, splitFails)
      && r.slice == Slice(data, SelectionInEnglish(TranslationsKn, language, place),
                          SelectionInEnglish(TranslationsKn, language, soil))
  {
    var placeEn := SelectionInEnglish(TranslationsKn, language, place);
    var soilEn := SelectionInEnglish(TranslationsKn, language, soil);
    SliceEmpty(data, placeEn, soilEn);
    if place == Placeholder || soil == Placeholder then SelectionMissing
    else if area == "" then AreaMissing
    else if username == "" then UsernameMissing
    else match parse(area)
      case None => InvalidNumber
      case Some(x) =>
        var slice := Slice(data, placeEn, soilEn);
        if slice == [] then NoData
        else if EstimationFails(slice, splitFails) then InvalidNumber
        else Estimate(x, slice)
  }

  /** The bilingual page as evidently intended, with the same correction as
      `SubmitStandaloneFixed`. */
  function SubmitBilingualFixed<N>(language: Language, place: string, area: string, soil: string,
                                   username: string, parse: string -> Option<N>,
                                   splitFails: seq<Record> -> bool, data: seq<Record>): (r: Outcome<N>)
    ensures r.InvalidNumber? <==>
      place != Placeholder && soil != Placeholder && area != "" && username != "" && parse(area).None?
    ensures var r0 := SubmitBilingual(language, place, area, soil, username, parse, splitFails, data);
      r == if r0.InvalidNumber? && parse(area).Some? then EstimationFailed else r0
  {
    var placeEn := SelectionInEnglish(TranslationsKn, language, place);
    var soilEn := SelectionInEnglish(TranslationsKn, language, soil);
    if place == Placeholder || soil == Placeholder then SelectionMissing
    else if area == "" then AreaMissing
    else if username == "" then UsernameMissing
    else match parse(area)
      case None => InvalidNumber
      case Some(x) =>
        var slice := Slice(data, placeEn, soilEn);
        if slice == [] then NoData
        else if EstimationFails(slice, splitFails) then EstimationFailed
        else Estimate(x, slice)
  }

  /** In English and with a username given, the bilingual page decides
      exactly as the stand-alone page does, as written and as corrected. */
  lemma BilingualMatchesStandalone<N>(place: string, area: string, soil: string, username: string,
                                      parse: string -> Option<N>, splitFails: seq<Record> -> bool,
                                      data: seq<Record>)
    requires username != ""
    ensures SubmitBilingual(English, place, area, soil, username, parse, splitFails, data)
         == SubmitStandalone(place, area, soil, parse, splitFails, data)
    ensures SubmitBilingualFixed(English, place, area, soil, username, parse, splitFails, data)
         == SubmitStandaloneFixed(place, area, soil, parse, splitFails, data)
  {
  }
}
