/**
  Building the catalog from the records of the pricing CSV file
  (`loadModelPricing` from the point where the CSV reader has returned).

  Columns: model, version, input, cached_input, output. The first record is a
  header and is skipped. A row is skipped when it has fewer than five fields
  or when its input or output cell does not parse; cached_input falls back
  to 0. An accepted row is stored under its model name and, when the version
  is non-empty and differs, under its version too. The load inserts into the
  existing catalog, so keys no row mentions keep their entries.
*/
module PricingLoad {
  import opened Wrappers
  import opened Pricing

  /** `strconv.ParseFloat(s, 64)` as an uninterpreted partial function; `None` is a parse error. */
  type DecimalParser = string -> Option<real>

  /** Why the CSV records could not be obtained. */
  datatype SourceError = CannotOpen | CannotRead

  datatype LoadError =
    | SourceUnavailable(cause: SourceError)
    | TooFewRecords   // fewer than a header and one data row

  /** The catalog after loading, and the error the load reported, if any. */
  datatype Loaded = Loaded(catalog: Catalog, error: Option<LoadError>)

  /** `parseFloat`: an empty cell is 0; anything else goes to the decimal parser. */
  function ParseFloat(s: string, strconv: DecimalParser): (r: Option<real>)
    ensures s == "" ==> r == Some(0.0)
    ensures s != "" ==> r == strconv(s)
  {
    if s == "" then Some(0.0) else strconv(s)
  }

  /** The entry one data record yields, or `None` when the row is skipped. */
  function ParseRow(record: seq<string>, strconv: DecimalParser): (r: Option<ModelPricing>)
    ensures r.Some? <==>
      && |record| >= 5
      && (record[2] == "" || strconv(record[2]).Some?)
      && (record[4] == "" || strconv(record[4]).Some?)
    ensures r.Some? ==> r.value.model == record[0] && r.value.version == record[1]
    ensures r.Some? && record[2] == "" ==> r.value.input == 0.0
    ensures r.Some? && record[2] != "" ==> strconv(record[2]) == Some(r.value.input)
    ensures r.Some? && record[4] == "" ==> r.value.output == 0.0
    ensures r.Some? && record[4] != "" ==> strconv(record[4]) == Some(r.value.output)
    ensures r.Some? && (record[3] == "" || strconv(record[3]).None?) ==> r.value.cachedInput == 0.0
    ensures r.Some? && record[3] != "" && strconv(record[3]).Some? ==>
              r.value.cachedInput == strconv(record[3]).value
  {
    if |record| < 5 then None
    else
      var input := ParseFloat(record[2], strconv);
      var cachedInput := ParseFloat(record[3], strconv).GetOr(0.0);
      var output := ParseFloat(record[4], strconv);
      if input.None? || output.None? then None
      else Some(ModelPricing(record[0], record[1], input.value, cachedInput, output.value))
  }

  /** The keys an accepted row is stored under. */
  function RowKeys(p: ModelPricing): set<string> {
    {p.model} + (if p.version != "" && p.version != p.model then {p.version} else {})
  }

  /** Store `p` under its model name, and under its version when that is a distinct, non-empty name. */
  function InsertRow(catalog: Catalog, p: ModelPricing): (r: Catalog)
    ensures r.Keys == catalog.Keys + RowKeys(p)
    ensures forall k :: k in RowKeys(p) ==> r[k] == p
    ensures forall k :: k in catalog && k !in RowKeys(p) ==> r[k] == catalog[k]
  {
    var withModel := catalog[p.model := p];
    if p.version != "" && p.version != p.model then withModel[p.version := p] else withModel
  }

  /** One iteration of the record loop. */
  function ApplyRow(catalog: Catalog, record: seq<string>, strconv: DecimalParser): Catalog {
    match ParseRow(record, strconv)
    case None => catalog
    case Some(p) => InsertRow(catalog, p)
  }

  /** The record loop over the data rows, first to last. */
  function ApplyRows(catalog: Catalog, rows: seq<seq<string>>, strconv: DecimalParser): Catalog
    decreases |rows|
  {
    if |rows| == 0 then catalog
    else ApplyRow(ApplyRows(catalog, rows[..|rows| - 1], strconv), rows[|rows| - 1], strconv)
  }

  /** The row is accepted and stores an entry under `k`. */
  predicate Defines(record: seq<string>, k: string, strconv: DecimalParser) {
    ParseRow(record, strconv).Some? && k in RowKeys(ParseRow(record, strconv).value)
  }

  /** After the loop, a key is present exactly when it was before or some accepted row defines it. */
  lemma {:induction false} ApplyRowsKeys(catalog: Catalog, rows: seq<seq<string>>, strconv: DecimalParser, k: string)
    ensures k in ApplyRows(catalog, rows, strconv) <==>
              k in catalog || exists i :: 0 <= i < |rows| && Defines(rows[i], k, strconv)
    decreases |rows|
  {
    if |rows| > 0 {
      var front := rows[..|rows| - 1];
      ApplyRowsKeys(catalog, front, strconv, k);
      assert forall i :: 0 <= i < |front| ==> front[i] == rows[i];
      if exists i :: 0 <= i < |rows| && Defines(rows[i], k, strconv) {
        var i :| 0 <= i < |rows| && Defines(rows[i], k, strconv);
        if i < |rows| - 1 {
          assert Defines(front[i], k, strconv);
        }
      }
    }
  }

  /** The entry stored under `k` is the one from the last accepted row that defines `k`. */
  lemma {:induction false} ApplyRowsLastRowWins(catalog: Catalog, rows: seq<seq<string>>, strconv: DecimalParser,
                                               k: string, i: nat)
    requires i < |rows| && Defines(rows[i], k, strconv)
    requires forall j :: i < j < |rows| ==> !Defines(rows[j], k, strconv)
    ensures k in ApplyRows(catalog, rows, strconv)
    ensures ApplyRows(catalog, rows, strconv)[k] == ParseRow(rows[i], strconv).value
    decreases |rows|
  {
    if i < |rows| - 1 {
      var front := rows[..|rows| - 1];
      assert front[i] == rows[i];
      forall j | i < j < |front|
        ensures !Defines(front[j], k, strconv)
      {
        assert front[j] == rows[j];
      }
      ApplyRowsLastRowWins(catalog, front, strconv, k, i);
      assert !Defines(rows[|rows| - 1], k, strconv);
    }
  }

  /** A key no accepted row defines keeps its previous presence and entry. */
  lemma {:induction false} ApplyRowsLeavesOthers(catalog: Catalog, rows: seq<seq<string>>, strconv: DecimalParser, k: string)
    requires forall i :: 0 <= i < |rows| ==> !Defines(rows[i], k, strconv)
    ensures k in ApplyRows(catalog, rows, strconv) <==> k in catalog
    ensures k in catalog ==> ApplyRows(catalog, rows, strconv)[k] == catalog[k]
    decreases |rows|
  {
    if |rows| > 0 {
      var front := rows[..|rows| - 1];
      assert forall i :: 0 <= i < |front| ==> front[i] == rows[i];
      ApplyRowsLeavesOthers(catalog, front, strconv, k);
      assert !Defines(rows[|rows| - 1], k, strconv);
    }
  }

  /**
    `loadModelPricing` after the CSV reader: fails without touching the
    catalog when the records are unavailable or fewer than two; otherwise
    runs the record loop over every record after the header.
  */
  method LoadModelPricing(catalog: Catalog, source: Result<seq<seq<string>>, SourceError>,
                          strconv: DecimalParser) returns (r: Loaded)
    ensures source.Failure? ==> r == Loaded(catalog, Some(SourceUnavailable(source.error)))
    ensures source.Success? && |source.value| < 2 ==> r == Loaded(catalog, Some(TooFewRecords))
    ensures source.Success? && |source.value| >= 2 ==>
              r.error == None && r.catalog == ApplyRows(catalog, source.value[1..], strconv)
  {
    if source.Failure? {
      return Loaded(catalog, Some(SourceUnavailable(source.error)));
    }
    var records := source.value;
    if |records| < 2 {
      return Loaded(catalog, Some(TooFewRecords));
    }
    var pricing := catalog;
    var i := 1;
    while i < |records|
      invariant 1 <= i <= |records|
      invariant pricing == ApplyRows(catalog, records[1..i], strconv)
    {
      var record := records[i];
      assert records[1..i + 1][..i - 1] == records[1..i];
      if |record| < 5 {
        i := i + 1;
        continue;
      }
      var input := ParseFloat(record[2], strconv);
      if input.None? {
        i := i + 1;
        continue;
      }
      var cachedInput := ParseFloat(record[3], strconv).GetOr(0.0);
      var output := ParseFloat(record[4], strconv);
      if output.None? {
        i := i + 1;
        continue;
      }
      var entry := ModelPricing(record[0], record[1], input.value, cachedInput, output.value);
      pricing := pricing[record[0] := entry];
      if record[1] != "" && record[1] != record[0] {
        pricing := pricing[record[1] := entry];
      }
      i := i + 1;
    }
    assert records[1..i] == records[1..];
    return Loaded(pricing, None);
  }
}
