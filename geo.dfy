/**
 * Geometry loading and the joins that end the pipeline (resultados2025.py
 * lines 19-26 and 153-161), then the comuna filter and its options (lines 167-173).
 * The shape of each circuit, with its other GeoJSON properties, is an opaque
 * payload `G` carried through unchanged.
 */
module Geo {
  import opened Common
  import opened Text
  import opened Ordering
  import opened Frames
  import opened Aggregate
  import opened Metrics

  /** A GeoJSON feature: its "circuito" property as a string, and the rest. */
  datatype Feature<G> = Feature(circuit: string, payload: G)

  /** A row of the geometry table `gdf`. */
  datatype GeoRow<G> = GeoRow(circuit: string, payload: G)

  /**
   * `load_data`'s geometry part (lines 19-26): one row per feature, in order,
   * then the circuit column padded to width 5.
   */
  method LoadGeometry<G>(features: seq<Feature<G>>) returns (gdf: seq<GeoRow<G>>)
    ensures |gdf| == |features|
    ensures forall i :: 0 <= i < |gdf| ==> gdf[i] == GeoRow(ZFill(features[i].circuit, CircuitWidth), features[i].payload)
  {
    var rows: seq<GeoRow<G>> := [];
    var i := 0;
    while i < |features|
      invariant 0 <= i <= |features|
      invariant |rows| == i
      invariant forall k :: 0 <= k < i ==> rows[k] == GeoRow(features[k].circuit, features[k].payload)
    {
      rows := rows + [GeoRow(features[i].circuit, features[i].payload)];
      i := i + 1;
    }
    gdf := seq(|rows|, k requires 0 <= k < |rows| => rows[k].(circuit := ZFill(rows[k].circuit, CircuitWidth)));
  }

  /** The geometry table LoadGeometry builds, as a value. */
  function LoadedGeometry<G>(features: seq<Feature<G>>): seq<GeoRow<G>> {
    seq(|features|, i requires 0 <= i < |features| => GeoRow(ZFill(features[i].circuit, CircuitWidth), features[i].payload))
  }

  /**
   * Line 153 pads `pivot_tooltip`'s circuits again; they come from rows that
   * are already padded, so it changes no key.
   */
  lemma {:induction false} TooltipRepadIsIdentity(rows25: seq<Row>)
    requires Padded(rows25)
    ensures forall c :: c in PivotTooltip(rows25) ==> ZFill(c, CircuitWidth) == c
  {
    PivotTooltipSpec(rows25);
    forall c | c in PivotTooltip(rows25) ensures ZFill(c, CircuitWidth) == c {
      var i :| 0 <= i < |rows25| && Selects(AnyOf(TooltipParties), rows25[i].party) && rows25[i].circuit == c;
    }
  }

  /** A row of `df_final` after the tooltip and comuna merges (lines 154-158). */
  datatype Joined = Joined(circuit: string, metrics: Metrics, tooltip: Option<Tooltip>, comuna: Option<string>)

  /** `comuna_por_circuito` (line 157): the distinct (circuit, COMUNA) pairs of the 2025 rows, first occurrences first. */
  function ComunaPairs(rows25: seq<Row>): seq<(string, Option<string>)> {
    Unique(seq(|rows25|, i requires 0 <= i < |rows25| => (rows25[i].circuit, rows25[i].comuna)))
  }

  /** The COMUNA values paired with circuit `c`, in order. */
  function ComunasOf(pairs: seq<(string, Option<string>)>, c: string): (r: seq<Option<string>>)
    ensures forall v :: v in r <==> (c, v) in pairs
    ensures Distinct(pairs) ==> Distinct(r)
  {
    if pairs == [] then []
    else
      var init, last := pairs[..|pairs| - 1], pairs[|pairs| - 1];
      assert pairs == init + [last];
      assert Distinct(pairs) ==> Distinct(init) && last !in init;
      var r0 := ComunasOf(init, c);
      if last.0 == c then
        assert Distinct(pairs) ==> last.1 !in r0;
        r0 + [last.1]
      else r0
  }

  /**
   * Lines 154-158: each circuit of `df_final` gets its tooltip row (None when it
   * has none) and one row per COMUNA it is paired with, or a single row with no
   * COMUNA when it has no 2025 rows.
   */
  function Detail(final: map<string, Metrics>, tips: map<string, Tooltip>, pairs: seq<(string, Option<string>)>)
    : map<string, seq<Joined>>
  {
    map c | c in final ::
      var cs := ComunasOf(pairs, c);
      if cs == [] then [Joined(c, final[c], Get(tips, c), None)]
      else seq(|cs|, i requires 0 <= i < |cs| => Joined(c, final[c], Get(tips, c), cs[i]))
  }

  /**
   * Every circuit of `df_final` keeps its metrics and tooltip; it expands into as
   * many rows as it has distinct COMUNA values (at least one), so a circuit whose
   * rows name two comunas is duplicated.
   */
  lemma {:induction false} DetailSpec(final: map<string, Metrics>, tips: map<string, Tooltip>, rows25: seq<Row>, c: string)
    requires c in final
    ensures c in Detail(final, tips, ComunaPairs(rows25))
    ensures var block := Detail(final, tips, ComunaPairs(rows25))[c];
            var cs := ComunasOf(ComunaPairs(rows25), c);
            |block| == (if cs == [] then 1 else |cs|) &&
            Distinct(cs) &&
            (forall v :: v in cs <==> exists i :: 0 <= i < |rows25| && rows25[i].circuit == c && rows25[i].comuna == v) &&
            forall k :: 0 <= k < |block| ==>
              block[k].circuit == c && block[k].metrics == final[c] && block[k].tooltip == Get(tips, c) &&
              block[k].comuna == (if cs == [] then None else cs[k])
  {
    var pairs := seq(|rows25|, i requires 0 <= i < |rows25| => (rows25[i].circuit, rows25[i].comuna));
    forall v ensures (c, v) in pairs <==> exists i :: 0 <= i < |rows25| && rows25[i].circuit == c && rows25[i].comuna == v {
      if (c, v) in pairs {
        var i :| 0 <= i < |pairs| && pairs[i] == (c, v);
      }
      if i :| 0 <= i < |rows25| && rows25[i].circuit == c && rows25[i].comuna == v {
        assert pairs[i] == (c, v);
      }
    }
  }

  /** `Detail` has the circuits of `df_final` as keys, each with a block of at least one row. */
  lemma {:induction false} DetailBlocks(final: map<string, Metrics>, tips: map<string, Tooltip>, pairs: seq<(string, Option<string>)>)
    ensures forall c :: c in Detail(final, tips, pairs) <==> c in final
    ensures forall c :: c in Detail(final, tips, pairs) ==> |Detail(final, tips, pairs)[c]| >= 1
  {
  }

  /** A geometry row after the left join with `df_final` (line 161): metrics absent when unmatched. */
  datatype Enriched<G> = Enriched(circuit: string, payload: G, data: Option<Joined>)

  /** The rows one geometry row becomes: one per matching `df_final` row, or itself with no data. */
  function Matches<G>(g: GeoRow<G>, detail: map<string, seq<Joined>>): seq<Enriched<G>> {
    if g.circuit in detail then
      var block := detail[g.circuit];
      seq(|block|, i requires 0 <= i < |block| => Enriched(g.circuit, g.payload, Some(block[i])))
    else [Enriched(g.circuit, g.payload, None)]
  }

  /** `geo.merge(df_final, on="circuito", how="left")` (line 161): geometry order drives. */
  function GeoJoin<G>(geo: seq<GeoRow<G>>, detail: map<string, seq<Joined>>): seq<Enriched<G>> {
    if geo == [] then [] else Matches(geo[0], detail) + GeoJoin(geo[1..], detail)
  }

  /** The join of a concatenation is the concatenation of the joins: row order is kept. */
  lemma {:induction false} GeoJoinAppend<G>(a: seq<GeoRow<G>>, b: seq<GeoRow<G>>, detail: map<string, seq<Joined>>)
    ensures GeoJoin(a + b, detail) == GeoJoin(a, detail) + GeoJoin(b, detail)
  {
    if a == [] {
      assert a + b == b;
    } else {
      assert (a + b)[0] == a[0] && (a + b)[1..] == a[1..] + b;
      GeoJoinAppend(a[1..], b, detail);
    }
  }

  /**
   * When every circuit of `df_final` has one row, the join has exactly the
   * geometry rows, in order, each with its shape and its match or no data.
   */
  lemma {:induction false} GeoJoinUnique<G>(geo: seq<GeoRow<G>>, detail: map<string, seq<Joined>>)
    requires forall c :: c in detail ==> |detail[c]| == 1
    ensures |GeoJoin(geo, detail)| == |geo|
    ensures forall i :: 0 <= i < |geo| ==>
              GeoJoin(geo, detail)[i] ==
                Enriched(geo[i].circuit, geo[i].payload,
                         if geo[i].circuit in detail then Some(detail[geo[i].circuit][0]) else None)
  {
    if geo != [] {
      GeoJoinUnique(geo[1..], detail);
      var m := Matches(geo[0], detail);
      assert |m| == 1;
      var r := GeoJoin(geo, detail);
      assert r == m + GeoJoin(geo[1..], detail);
      forall i | 0 <= i < |geo|
        ensures r[i] == Enriched(geo[i].circuit, geo[i].payload,
                                 if geo[i].circuit in detail then Some(detail[geo[i].circuit][0]) else None)
      {
        if i > 0 {
          assert r[i] == GeoJoin(geo[1..], detail)[i - 1];
          assert geo[1..][i - 1] == geo[i];
        }
      }
    }
  }

  /** Every geometry row is kept: at least one result row carries its circuit and shape. */
  lemma {:induction false} GeoJoinKeepsRows<G>(geo: seq<GeoRow<G>>, detail: map<string, seq<Joined>>, i: nat)
    requires i < |geo|
    requires forall c :: c in detail ==> |detail[c]| >= 1
    ensures exists j :: 0 <= j < |GeoJoin(geo, detail)| &&
              GeoJoin(geo, detail)[j].circuit == geo[i].circuit && GeoJoin(geo, detail)[j].payload == geo[i].payload &&
              (GeoJoin(geo, detail)[j].data.None? <==> geo[i].circuit !in detail)
  {
    var r := GeoJoin(geo, detail);
    var m := Matches(geo[0], detail);
    assert r == m + GeoJoin(geo[1..], detail);
    if i == 0 {
      assert r[0] == m[0];
    } else {
      GeoJoinKeepsRows(geo[1..], detail, i - 1);
      var j :| 0 <= j < |GeoJoin(geo[1..], detail)| &&
               GeoJoin(geo[1..], detail)[j].circuit == geo[i].circuit && GeoJoin(geo[1..], detail)[j].payload == geo[i].payload &&
               (GeoJoin(geo[1..], detail)[j].data.None? <==> geo[i].circuit !in detail);
      assert r[|m| + j] == GeoJoin(geo[1..], detail)[j];
    }
  }

  /**
   * Every loaded feature survives the join with `Detail`: with its padded circuit,
   * its payload, and no metrics exactly when `df_final` lacks its circuit.
   */
  lemma {:induction false} JoinKeepsFeature<G>(features: seq<Feature<G>>, final: map<string, Metrics>,
                                               tips: map<string, Tooltip>, pairs: seq<(string, Option<string>)>, i: nat)
    requires i < |features|
    ensures var out := GeoJoin(LoadedGeometry(features), Detail(final, tips, pairs));
            exists j :: 0 <= j < |out| &&
              out[j].circuit == ZFill(features[i].circuit, CircuitWidth) && out[j].payload == features[i].payload &&
              (out[j].data.None? <==> out[j].circuit !in final)
  {
    DetailBlocks(final, tips, pairs);
    GeoJoinKeepsRows(LoadedGeometry(features), Detail(final, tips, pairs), i);
  }

  /** The label shown for "all comunas" in the filter. */
  const AllComunas: string := "Todas"

  /** The COMUNA of a joined geometry row; absent for rows without metrics. */
  function ComunaOf<G>(e: Enriched<G>): Option<string> {
    if e.data.Some? then e.data.value.comuna else None
  }

  /** The rows whose COMUNA is `sel`, in order. */
  function KeepComuna<G>(rows: seq<Enriched<G>>, sel: string): seq<Enriched<G>> {
    if rows == [] then []
    else
      var last := rows[|rows| - 1];
      KeepComuna(rows[..|rows| - 1], sel) + (if ComunaOf(last) == Some(sel) then [last] else [])
  }

  /** Lines 170-173: every row for "Todas", otherwise the rows of the selected comuna. */
  function FilterComuna<G>(rows: seq<Enriched<G>>, sel: string): seq<Enriched<G>> {
    if sel != AllComunas then KeepComuna(rows, sel) else rows
  }

  /**
   * Keeping a comuna's rows keeps each of them as often as it occurs and
   * drops every other row.
   */
  lemma {:induction false} KeepComunaSpec<G>(rows: seq<Enriched<G>>, sel: string)
    ensures forall e :: multiset(KeepComuna(rows, sel))[e] == if ComunaOf(e) == Some(sel) then multiset(rows)[e] else 0
  {
    if rows != [] {
      var init, last := rows[..|rows| - 1], rows[|rows| - 1];
      assert rows == init + [last];
      KeepComunaSpec(init, sel);
    }
  }

  /**
   * The comuna filter: "Todas" returns the table unchanged; any other selection
   * returns exactly the rows whose COMUNA equals it, each as often as before
   * (FilterComunaOrder adds that their order is kept).
   */
  lemma {:induction false} FilterComunaSpec<G>(rows: seq<Enriched<G>>, sel: string)
    ensures sel == AllComunas ==> FilterComuna(rows, sel) == rows
    ensures sel != AllComunas ==>
              forall e :: multiset(FilterComuna(rows, sel))[e] == if ComunaOf(e) == Some(sel) then multiset(rows)[e] else 0
  {
    KeepComunaSpec(rows, sel);
  }

  /**
   * The filter keeps the table's order: filtering a concatenation is
   * concatenating the filtered parts, and a single row is kept exactly when it
   * passes.
   */
  lemma {:induction false} FilterComunaOrder<G>(a: seq<Enriched<G>>, b: seq<Enriched<G>>, sel: string)
    ensures FilterComuna(a + b, sel) == FilterComuna(a, sel) + FilterComuna(b, sel)
    ensures forall e: Enriched<G> :: FilterComuna([e], sel) == if sel == AllComunas || ComunaOf(e) == Some(sel) then [e] else []
  {
    KeepComunaAppend(a, b, sel);
    forall e: Enriched<G> ensures FilterComuna([e], sel) == if sel == AllComunas || ComunaOf(e) == Some(sel) then [e] else [] {
      assert [e][..0] == [] && [e][0] == e;
      assert KeepComuna([e], sel) == KeepComuna([], sel) + (if ComunaOf(e) == Some(sel) then [e] else []);
    }
  }

  lemma {:induction false} KeepComunaAppend<G>(a: seq<Enriched<G>>, b: seq<Enriched<G>>, sel: string)
    ensures KeepComuna(a + b, sel) == KeepComuna(a, sel) + KeepComuna(b, sel)
    decreases |b|
  {
    if b == [] {
      assert a + b == a;
    } else {
      var init, last := b[..|b| - 1], b[|b| - 1];
      assert (a + b)[..|a + b| - 1] == a + init && (a + b)[|a + b| - 1] == last;
      KeepComunaAppend(a, init, sel);
    }
  }

  /** `geo_final["COMUNA"].dropna()`. */
  function PresentComunas<G>(rows: seq<Enriched<G>>): (r: seq<string>)
    ensures forall v :: v in r <==> exists i :: 0 <= i < |rows| && ComunaOf(rows[i]) == Some(v)
  {
    if rows == [] then []
    else
      var init, last := rows[..|rows| - 1], rows[|rows| - 1];
      var r0 := PresentComunas(init);
      assert forall i :: 0 <= i < |init| ==> rows[i] == init[i];
      var o := ComunaOf(last);
      if o.Some? then r0 + [o.value] else r0
  }

  /**
   * The options of the comuna selector (lines 167-168): "Todas" followed by the
   * comunas present in the joined table, sorted and without repeats.
   */
  function ComunaOptions<G>(rows: seq<Enriched<G>>): (r: seq<string>)
    ensures |r| >= 1 && r[0] == AllComunas
    ensures Sorted(r[1..]) && Distinct(r[1..])
    ensures forall v :: v in r[1..] <==> exists i :: 0 <= i < |rows| && ComunaOf(rows[i]) == Some(v)
  {
    var u := Unique(PresentComunas(rows));
    var s := Sort(u);
    SortDistinct(u);
    SortMembers(u);
    var r := [AllComunas] + s;
    assert r[1..] == s;
    r
  }
}
