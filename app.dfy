/**
 * The script's pipeline from the three loaded tables to `geo_final`
 * (resultados2025.py lines 66-161), in the order the script runs it.
 */
module App {
  import opened Common
  import opened Text
  import opened Frames
  import opened Aggregate
  import opened Metrics
  import opened Geo

  /** `geo_final`, or the error that stops the script, as a value of the three inputs. */
  function Pipeline<G>(raw25: RawTable, raw23: RawTable, features: seq<Feature<G>>): Result<seq<Enriched<G>>> {
    var n25 := NormalizeTable(raw25, Renaming2025, Source2025, Table2025);
    var n23 := NormalizeTable(raw23, Renaming2023, Source2023, Table2023);
    if n25.Err? then Err(n25.error)
    else if n23.Err? then Err(n23.error)
    else
      var final := FinalTable(n25.value, n23.value);
      if final.Err? then Err(final.error)
      else Ok(GeoJoin(LoadedGeometry(features), Detail(final.value, PivotTooltip(n25.value), ComunaPairs(n25.value))))
  }

  /** Runs the script: load, normalise both tables in place, aggregate, merge, join. */
  method RunPipeline<G>(raw25: RawTable, raw23: RawTable, features: seq<Feature<G>>) returns (r: Result<seq<Enriched<G>>>)
    ensures r == Pipeline(raw25, raw23, features)
  {
    var gdf := LoadGeometry(features);
    assert gdf == LoadedGeometry(features);
    var n25 := NormalizeFrame(raw25, Renaming2025, Source2025, Table2025);
    var n23 := NormalizeFrame(raw23, Renaming2023, Source2023, Table2023);
    if n25.Err? {
      return Err(n25.error);
    }
    if n23.Err? {
      return Err(n23.error);
    }
    var final := FinalTable(n25.value, n23.value);
    if final.Err? {
      return Err(final.error);
    }
    var detail := Detail(final.value, PivotTooltip(n25.value), ComunaPairs(n25.value));
    r := Ok(GeoJoin(gdf, detail));
  }

  predicate HasColumn(t: RawTable, name: string) {
    exists k :: 0 <= k < |t.columns| && NormalizeColumnName(t.columns[k]) == name
  }

  /** Whether some 2025 row's party, upper-cased, is LA LIBERTAD AVANZA. */
  predicate HasLlaRow(raw25: RawTable) {
    exists i :: 0 <= i < |raw25.rows| && Upper(raw25.rows[i].party) == LlaParty
  }

  /**
   * The script stops exactly when the 2025 table has no "comuna" column, the
   * 2023 table no "seccion_nombre" column, or no 2025 row is LA LIBERTAD
   * AVANZA's, and it reports the first of these in that order.
   */
  lemma {:induction false} PipelineErrors<G>(raw25: RawTable, raw23: RawTable, features: seq<Feature<G>>)
    ensures Pipeline(raw25, raw23, features).Err? <==>
              !HasColumn(raw25, Source2025) || !HasColumn(raw23, Source2023) || !HasLlaRow(raw25)
    ensures !HasColumn(raw25, Source2025) ==> Pipeline(raw25, raw23, features) == Err(MissingColumn(Source2025, Table2025))
    ensures HasColumn(raw25, Source2025) && !HasColumn(raw23, Source2023) ==>
              Pipeline(raw25, raw23, features) == Err(MissingColumn(Source2023, Table2023))
    ensures HasColumn(raw25, Source2025) && HasColumn(raw23, Source2023) && !HasLlaRow(raw25) ==>
              Pipeline(raw25, raw23, features) == Err(MissingColumn("LLA", "df_final"))
  {
    RenamingsKeepSources();
    SourceColumnPresent(raw25.columns, Renaming2025, Source2025);
    SourceColumnPresent(raw23.columns, Renaming2023, Source2023);
    var n25 := NormalizeTable(raw25, Renaming2025, Source2025, Table2025);
    var n23 := NormalizeTable(raw23, Renaming2023, Source2023, Table2023);
    if n25.Ok? && n23.Ok? {
      LlaColumnFromRaw(raw25);
      FinalTableSpec(n25.value, n23.value);
    }
  }

  /** The normalised 2025 rows have an LLA row exactly when some raw party upper-cases to LA LIBERTAD AVANZA. */
  lemma {:induction false} LlaColumnFromRaw(raw25: RawTable)
    requires NormalizeTable(raw25, Renaming2025, Source2025, Table2025).Ok?
    ensures HasLlaColumn(NormalizeTable(raw25, Renaming2025, Source2025, Table2025).value) <==> HasLlaRow(raw25)
  {
    var rows := NormalizeTable(raw25, Renaming2025, Source2025, Table2025).value;
    NormalizedRows(raw25, Renaming2025, Source2025, Table2025);
    LlaColumnFromParties(rows, raw25);
  }

  lemma {:induction false} LlaColumnFromParties(rows: seq<Row>, raw25: RawTable)
    requires |rows| == |raw25.rows| && forall i :: 0 <= i < |rows| ==> rows[i].party == Upper(raw25.rows[i].party)
    ensures HasLlaColumn(rows) <==> HasLlaRow(raw25)
  {
    if HasLlaRow(raw25) {
      var i :| 0 <= i < |raw25.rows| && Upper(raw25.rows[i].party) == LlaParty;
      GroupMembers(rows[i].party);
    }
    if HasLlaColumn(rows) {
      var i :| 0 <= i < |rows| && Selects(InGroup(LLA), rows[i].party);
      GroupMembers(rows[i].party);
    }
  }

  /** On inputs it accepts, the pipeline is the left join of the padded geometry with the detail table. */
  lemma {:induction false} PipelineJoin<G>(raw25: RawTable, raw23: RawTable, features: seq<Feature<G>>)
    requires Pipeline(raw25, raw23, features).Ok?
    ensures var n25 := NormalizeTable(raw25, Renaming2025, Source2025, Table2025).value;
            var n23 := NormalizeTable(raw23, Renaming2023, Source2023, Table2023).value;
            FinalTable(n25, n23).Ok? &&
            Pipeline(raw25, raw23, features).value ==
              GeoJoin(LoadedGeometry(features), Detail(FinalTable(n25, n23).value, PivotTooltip(n25), ComunaPairs(n25)))
  {
  }

  /**
   * Every feature survives into `geo_final` with its padded circuit and its
   * payload; it carries no metrics exactly when `df_final` lacks its circuit.
   */
  lemma {:induction false} PipelineKeepsGeometry<G>(raw25: RawTable, raw23: RawTable, features: seq<Feature<G>>, i: nat)
    requires Pipeline(raw25, raw23, features).Ok? && i < |features|
    ensures var n25 := NormalizeTable(raw25, Renaming2025, Source2025, Table2025).value;
            var n23 := NormalizeTable(raw23, Renaming2023, Source2023, Table2023).value;
            var out := Pipeline(raw25, raw23, features).value;
            FinalTable(n25, n23).Ok? &&
            exists j :: 0 <= j < |out| &&
              out[j].circuit == ZFill(features[i].circuit, CircuitWidth) && out[j].payload == features[i].payload &&
              (out[j].data.None? <==> out[j].circuit !in FinalTable(n25, n23).value)
  {
    PipelineJoin(raw25, raw23, features);
    var n25 := NormalizeTable(raw25, Renaming2025, Source2025, Table2025).value;
    var n23 := NormalizeTable(raw23, Renaming2023, Source2023, Table2023).value;
    JoinKeepsFeature(features, FinalTable(n25, n23).value, PivotTooltip(n25), ComunaPairs(n25), i);
  }

  /** The 2025 rows of the end-to-end case, already normalised. */
  function ScenarioRows(comuna: string): seq<Row> {
    [Row("00001", LlaParty, 300, comuna, Some(comuna)), Row("00001", AhoraParty, 200, comuna, Some(comuna))]
  }

  lemma {:induction false} ScenarioSums(comuna: string)
    ensures Sum(ScenarioRows(comuna), "00001", Party(LlaParty)) == 300
    ensures Sum(ScenarioRows(comuna), "00001", Party(AhoraParty)) == 200
    ensures Sum(ScenarioRows(comuna), "00001", Party(UxpParty)) == 0
    ensures Sum(ScenarioRows(comuna), "00001", AllParties) == 500
    ensures "00001" in CircuitsOf(ScenarioRows(comuna), Mapped) && HasLlaColumn(ScenarioRows(comuna))
  {
    var rows := ScenarioRows(comuna);
    var first := [rows[0]];
    assert rows[..1] == first && first[..0] == [];
    assert LlaParty != AhoraParty && LlaParty != UxpParty && AhoraParty != UxpParty by {
      assert LlaParty[0] == 'L' && AhoraParty[0] == 'E' && UxpParty[0] == 'U';
    }
    assert Sum(first, "00001", Party(LlaParty)) == 300;
    assert Sum(first, "00001", Party(AhoraParty)) == 0;
    assert Sum(first, "00001", Party(UxpParty)) == 0;
    assert Sum(first, "00001", AllParties) == 300;
    assert Selects(Mapped, rows[0].party);
  }

  /**
   * The end-to-end case: 300 votes for LA LIBERTAD AVANZA and 200 for ES AHORA
   * BUENOS AIRES in circuit "00001", nothing in 2023, give LLA 300, AHORA 200,
   * total 500, winner LLA, share 60, growth 300 and no 2023 share.
   */
  lemma {:induction false} OneCircuitScenario(comuna: string)
    ensures FinalTable(ScenarioRows(comuna), []).Ok? && "00001" in FinalTable(ScenarioRows(comuna), []).value
    ensures FinalTable(ScenarioRows(comuna), []).value["00001"] == Metrics(300, 200, 0, 500, 0, LLA, Some(60.0), None, 300, None)
  {
    var rows := ScenarioRows(comuna);
    assert HasLlaColumn(rows) && "00001" in CircuitsOf(rows, Mapped) &&
           RowSums(rows, [], "00001") == Merged(300, 200, 0, 500, 0) by {
      ScenarioSums(comuna);
    }
    FinalRowValue(rows, [], "00001");
    ScenarioMetrics();
  }

  /** The derived columns of 300 LLA and 200 AHORA votes out of 500, with nothing in 2023. */
  lemma {:induction false} ScenarioMetrics()
    ensures Derive(Merged(300, 200, 0, 500, 0)) == Metrics(300, 200, 0, 500, 0, LLA, Some(60.0), None, 300, None)
  {
    var s := Share(300, 500);
    assert s.value * 500.0 == 30000.0;
  }
}
