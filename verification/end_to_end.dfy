/** What the web client makes of the API's own answers. */
module EndToEnd {
  import opened Outcomes
  import opened Wire
  import opened Sky
  import Python
  import KoiCoordinates
  import CandidateEndpoint
  import StarField
  import ApiService
  import ViewHelpers
  import Seqs

  /** The records of the coordinate endpoint as serialised. */
  function RowsJson(rows: seq<Object>): (records: seq<Json>)
    ensures |records| == |rows|
    ensures forall i :: 0 <= i < |rows| ==> records[i] == Obj(rows[i])
  {
    seq(|rows|, i requires 0 <= i < |rows| => Obj(rows[i]))
  }

  /** A coordinate record whose X, Y and Z are numbers in [-1, 1]. */
  predicate UnitRow(row: Object)
  {
    && "X" in row && "Y" in row && "Z" in row
    && row["X"].Num? && row["Y"].Num? && row["Z"].Num?
    && -1.0 <= row["X"].n <= 1.0 && -1.0 <= row["Y"].n <= 1.0 && -1.0 <= row["Z"].n <= 1.0
  }

  /** With real trigonometry every row of the coordinate table lies on the unit sphere. */
  lemma TableRowsOnUnitSphere(download: Fetched<KoiCoordinates.Frame>, t: Trig)
    requires Pythagorean(t)
    requires KoiCoordinates.CalculateKoiCoordinates(download, t).Ok?
    ensures forall row :: row in KoiCoordinates.CalculateKoiCoordinates(download, t).value.rows ==> UnitRow(row)
  {
    if download.Ok? {
      var kept := Seqs.Filter(download.value.rows, KoiCoordinates.HasPosition);
      var rows := KoiCoordinates.CalculateKoiCoordinates(download, t).value.rows;
      forall row | row in rows ensures UnitRow(row) {
        var i :| 0 <= i < |rows| && rows[i] == row;
        assert kept[i] in kept;
        UnitBounds(t, Python.Get(kept[i], "ra").n, Python.Get(kept[i], "dec").n);
      }
    }
  }

  /** A unit record is accepted by the client's range check. */
  lemma {:induction false} UnitRowsAllAccepted(records: seq<Json>)
    requires forall i :: 0 <= i < |records| ==> records[i].Obj? && UnitRow(records[i].fields)
    ensures |StarField.Accepted(records)| == |records|
  {
    if records != [] {
      assert StarField.Scaled(records[0]).Some?;
      UnitRowsAllAccepted(records[1..]);
    }
  }

  /** With real trigonometry every row the coordinate endpoint serves lies
      on the unit sphere, whether it comes from this call's download or from
      the cache. */
  lemma ServedRowsOnUnitSphere(m: KoiCoordinates.Memo, limit: int, download: Fetched<KoiCoordinates.Frame>, t: Trig)
    requires Pythagorean(t)
    requires KoiCoordinates.MemoValid(m, t)
    requires KoiCoordinates.GetKoiCoordinates(m, limit, download, t).0.Ok?
    ensures var served := KoiCoordinates.GetKoiCoordinates(m, limit, download, t).0.value;
      forall i :: 0 <= i < |served| ==> UnitRow(served[i])
  {
    var served := KoiCoordinates.GetKoiCoordinates(m, limit, download, t).0.value;
    var table := KoiCoordinates.CachedCoordinates(m, download, t).0;
    KoiCoordinates.MemoStaysValid(m, download, t);
    forall i | 0 <= i < |served| ensures UnitRow(served[i]) {
      var row := table.value.rows[i];
      assert served[i] == row && row in table.value.rows;
      UnitBounds(t, Python.Get(row, "ra").n, Python.Get(row, "dec").n);
    }
  }

  /** No unit-sphere row is lost to the client's type and range checks: a
      non-empty answer of `k` such rows gives a buffer of `k` triples, not
      the fallback. */
  lemma StarBufferKeepsEveryRow(served: seq<Object>)
    requires forall i :: 0 <= i < |served| ==> UnitRow(served[i])
    ensures |StarField.Flatten(StarField.Accepted(RowsJson(served)))| == 3 * |served|
    ensures |served| > 0 ==> StarField.ApiUsable(Ok(Arr(RowsJson(served))))
  {
    UnitRowsAllAccepted(RowsJson(served));
  }

  /** A well-shaped table row with a string name maps to a view with a
      direction and an elevation. */
  lemma TableRowView(row: Object)
    requires KoiCoordinates.WellShaped(row) && row["kepoi_name"].Str?
    ensures ApiService.ConfirmedMappable(Obj(row))
    ensures var v := ApiService.ConfirmedViewOf(Obj(row)).value;
      v.name == Some(row["kepoi_name"]) && v.baseDirection.Some? && v.baseElevation.Some?
  {
    assert ApiService.Field(Obj(row), "ra") == Some(row["ra"]);
    assert ApiService.Field(Obj(row), "dec") == Some(row["dec"]);
  }

  /** The client maps every served row whose name is a string, and derives a
      direction and an elevation for each. */
  lemma ConfirmedViewsOfRows(served: seq<Object>)
    requires forall i :: 0 <= i < |served| ==> KoiCoordinates.WellShaped(served[i]) && served[i]["kepoi_name"].Str?
    ensures var views := ApiService.GetConfirmedExoplanets(Ok(Arr(RowsJson(served))));
      && |views| == |served|
      && forall i :: 0 <= i < |served| ==>
           && views[i].name == Some(served[i]["kepoi_name"])
           && views[i].baseDirection.Some? && views[i].baseElevation.Some?
  {
    var items := RowsJson(served);
    forall i | 0 <= i < |served|
      ensures ApiService.ConfirmedMappable(items[i])
    {
      TableRowView(served[i]);
    }
    var views := ApiService.GetConfirmedExoplanets(Ok(Arr(items)));
    forall i | 0 <= i < |served|
      ensures views[i].name == Some(served[i]["kepoi_name"])
      ensures views[i].baseDirection.Some? && views[i].baseElevation.Some?
    {
      TableRowView(served[i]);
      assert views[i] == ApiService.ConfirmedViewOf(items[i]).value;
    }
  }

  /** Every row the coordinate endpoint serves is well shaped, whether it
      comes from this call's download or from the cache, so the client maps
      it as above whenever its name is a string. */
  lemma ServedRowsWellShaped(m: KoiCoordinates.Memo, limit: int, download: Fetched<KoiCoordinates.Frame>, t: Trig)
    requires KoiCoordinates.MemoValid(m, t)
    requires KoiCoordinates.GetKoiCoordinates(m, limit, download, t).0.Ok?
    ensures var served := KoiCoordinates.GetKoiCoordinates(m, limit, download, t).0.value;
      forall i :: 0 <= i < |served| ==> KoiCoordinates.WellShaped(served[i])
  {
    var served := KoiCoordinates.GetKoiCoordinates(m, limit, download, t).0.value;
    var table := KoiCoordinates.CachedCoordinates(m, download, t).0;
    KoiCoordinates.MemoStaysValid(m, download, t);
    forall i | 0 <= i < |served| ensures KoiCoordinates.WellShaped(served[i]) {
      assert served[i] == table.value.rows[i] && table.value.rows[i] in table.value.rows;
    }
  }

  /** The client shows one record per candidate the API returned, with the
      identifiers and the prediction unchanged. A "Candidate" prediction with
      a probability in [0, 1] displays a habitability between 0 and 100. */
  lemma CandidatesReachClient(cs: seq<CandidateEndpoint.Candidate>, draws: nat -> ViewHelpers.Draws)
    ensures var views := ApiService.GetCandidatesWithMl(Ok(Arr(seq(|cs|, i requires 0 <= i < |cs| => CandidateEndpoint.CandidateJson(cs[i])))), draws);
      && |views| == |cs|
      && forall i :: 0 <= i < |cs| ==>
           && views[i].kepid == Some(cs[i].kepid)
           && views[i].name == Some(cs[i].kepoiName)
           && views[i].mlPrediction == Some(CandidateEndpoint.PredictionJson(cs[i].ml))
           && (cs[i].ml.prediction == "Candidate" && cs[i].ml.probability.Some?
               && 0.0 <= cs[i].ml.probability.value <= 1.0 ==>
                 views[i].habitability.Some? && 0 <= views[i].habitability.value <= 100)
  {
    var items := seq(|cs|, i requires 0 <= i < |cs| => CandidateEndpoint.CandidateJson(cs[i]));
    var views := ApiService.GetCandidatesWithMl(Ok(Arr(items)), draws);
    forall i | 0 <= i < |cs|
      ensures && views[i].kepid == Some(cs[i].kepid)
              && views[i].name == Some(cs[i].kepoiName)
              && views[i].mlPrediction == Some(CandidateEndpoint.PredictionJson(cs[i].ml))
              && (cs[i].ml.prediction == "Candidate" && cs[i].ml.probability.Some?
                  && 0.0 <= cs[i].ml.probability.value <= 1.0 ==>
                    views[i].habitability.Some? && 0 <= views[i].habitability.value <= 100)
    {
      var ml := CandidateEndpoint.PredictionJson(cs[i].ml);
      assert ApiService.Field(items[i], "ml_result") == Some(ml);
      assert views[i] == ApiService.CandidateViewOf(items[i], draws(i)).value;
    }
  }
}
