/**
 * The merge chain and the derived columns of `df_final`
 * (resultados2025.py lines 121-133).
 */
module Metrics {
  import opened Common
  import opened Frames
  import opened Aggregate

  /** `a.merge(b, on="circuito", how="outer")` for tables with one row per circuit. */
  function OuterMerge<A, B>(a: map<string, A>, b: map<string, B>): map<string, (Option<A>, Option<B>)> {
    map k | k in a.Keys + b.Keys :: (Get(a, k), Get(b, k))
  }

  /** `a.merge(b, on="circuito", how="left")` for tables with one row per circuit. */
  function LeftMerge<A, B>(a: map<string, A>, b: map<string, B>): map<string, (A, Option<B>)> {
    map k | k in a.Keys :: (a[k], Get(b, k))
  }

  /** A row of `df_final` after `fillna(0)` (line 127). */
  datatype Merged = Merged(lla: nat, ahora: nat, votes2023: nat, total2025: nat, total2023: nat)

  function FillNa(cells: (((Option<GroupVotes>, Option<nat>), Option<nat>), Option<nat>)): Merged {
    var (((groups, ref), t25), t23) := cells;
    Merged(if groups.Some? then groups.value.lla else 0,
           if groups.Some? then groups.value.ahora else 0,
           OrZero(ref), OrZero(t25), OrZero(t23))
  }

  /** Lines 121-127: outer merge of the two pivots, left merges of the two totals, zero fill. */
  function MergeChain(p25: map<string, GroupVotes>, p23: map<string, nat>, t25: map<string, nat>, t23: map<string, nat>)
    : map<string, Merged>
  {
    var m := LeftMerge(LeftMerge(OuterMerge(p25, p23), t25), t23);
    map k | k in m :: FillNa(m[k])
  }

  /** The merged table of the two years' normalised rows. */
  function MergedTable(rows25: seq<Row>, rows23: seq<Row>): map<string, Merged> {
    MergeChain(PivotGroups(rows25), PivotReference(rows23), Totals(rows25), Totals(rows23))
  }

  /**
   * The circuits of `df_final` are exactly those of the two pivots (a circuit
   * only in a totals table is not added), and after the zero fill every cell is
   * the corresponding sum over all rows of that circuit, 0 when it has none.
   */
  lemma {:induction false} MergedTableSpec(rows25: seq<Row>, rows23: seq<Row>)
    ensures MergedTable(rows25, rows23).Keys == CircuitsOf(rows25, Mapped) + CircuitsOf(rows23, Party(ReferenceParty))
    ensures forall c :: c in MergedTable(rows25, rows23) ==>
              MergedTable(rows25, rows23)[c] ==
                Merged(Sum(rows25, c, InGroup(LLA)), Sum(rows25, c, InGroup(AHORA)),
                       Sum(rows23, c, Party(ReferenceParty)),
                       Sum(rows25, c, AllParties), Sum(rows23, c, AllParties))
  {
    var p25, p23, t25, t23 := PivotGroups(rows25), PivotReference(rows23), Totals(rows25), Totals(rows23);
    PivotGroupsSpec(rows25);
    PivotReferenceSpec(rows23);
    TotalsSpec(rows25);
    TotalsSpec(rows23);
    var m := MergedTable(rows25, rows23);
    forall c | c in m
      ensures m[c] == Merged(Sum(rows25, c, InGroup(LLA)), Sum(rows25, c, InGroup(AHORA)),
                             Sum(rows23, c, Party(ReferenceParty)),
                             Sum(rows25, c, AllParties), Sum(rows23, c, AllParties))
    {
      if c !in p25 {
        NoMappedRow(rows25, c);
      }
      if c !in p23 {
        NoRowOf(rows23, c, Party(ReferenceParty));
      }
      if c !in t25 {
        SumAbsent(rows25, c, AllParties);
      }
      if c !in t23 {
        SumAbsent(rows23, c, AllParties);
      }
    }
  }

  /** A circuit without a row of a selected party sums to 0 over that selection. */
  lemma {:induction false} NoRowOf(rows: seq<Row>, c: string, sel: Selector)
    requires c !in CircuitsOf(rows, sel)
    ensures Sum(rows, c, sel) == 0
  {
    if rows != [] {
      var init, last := rows[..|rows| - 1], rows[|rows| - 1];
      assert rows == init + [last];
      CircuitsAppend(init, last, sel);
      NoRowOf(init, c, sel);
    }
  }

  lemma {:induction false} NoMappedRow(rows: seq<Row>, c: string)
    requires c !in CircuitsOf(rows, Mapped)
    ensures Sum(rows, c, InGroup(LLA)) == 0 && Sum(rows, c, InGroup(AHORA)) == 0
  {
    NoRowOf(rows, c, Mapped);
    SumMono(rows, c, InGroup(LLA), Mapped);
    SumMono(rows, c, InGroup(AHORA), Mapped);
  }

  /** GANADOR (line 129): LLA only on strictly more votes, so a tie goes to AHORA. */
  function Winner(lla: nat, ahora: nat): Group {
    if lla > ahora then LLA else AHORA
  }

  /**
   * PORC_2025 / PORC_2023 (lines 130-131) under exact arithmetic: part * 100 / total,
   * undefined (NaN in pandas) when the total is 0.
   */
  function Share(part: nat, total: nat): (r: Option<real>)
    ensures r.Some? <==> total > 0
    ensures r.Some? ==> r.value * total as real == part as real * 100.0
    ensures r.Some? ==> 0.0 <= r.value
    ensures r.Some? && part <= total ==> r.value <= 100.0
  {
    if total > 0 then
      var v := part as real * 100.0 / total as real;
      assert v * total as real == part as real * 100.0;
      assert part <= total ==> v <= 100.0 by {
        if part <= total {
          assert v * total as real <= 100.0 * total as real;
        }
      }
      Some(v)
    else None
  }

  /** DIF_PORC (line 133): a difference with NaN on either side is NaN. */
  function Difference(a: Option<real>, b: Option<real>): Option<real> {
    if a.Some? && b.Some? then Some(a.value - b.value) else None
  }

  /** `s` is `part` as a percentage of `total`: defined exactly when the total is positive, then in [0, 100]. */
  predicate IsShare(s: Option<real>, part: nat, total: nat) {
    (s.Some? <==> total > 0) &&
    (s.Some? ==> 0.0 <= s.value <= 100.0 && s.value * total as real == part as real * 100.0)
  }

  /** A row of `df_final` with its derived columns (lines 129-133). */
  datatype Metrics = Metrics(lla: nat, ahora: nat, votes2023: nat, total2025: nat, total2023: nat,
                             winner: Group, share2025: Option<real>, share2023: Option<real>,
                             difAbs: int, difPct: Option<real>)

  function Derive(m: Merged): Metrics {
    var s25 := Share(m.lla, m.total2025);
    var s23 := Share(m.votes2023, m.total2023);
    Metrics(m.lla, m.ahora, m.votes2023, m.total2025, m.total2023,
            Winner(m.lla, m.ahora), s25, s23, m.lla - m.votes2023, Difference(s25, s23))
  }

  /** Whether some 2025 row belongs to the LLA group, i.e. whether `pivot_2025` has an LLA column. */
  predicate HasLlaColumn(rows25: seq<Row>) {
    exists i :: 0 <= i < |rows25| && Selects(InGroup(LLA), rows25[i].party)
  }

  /**
   * `df_final` after line 133.  Without any LLA row `pivot_2025` has no LLA
   * column and `df_final["LLA"]` at line 130 fails; a missing AHORA column is
   * read as 0 by `x.get("AHORA", 0)`, which the zero fill already gives.
   */
  function FinalTable(rows25: seq<Row>, rows23: seq<Row>): Result<map<string, Metrics>> {
    if !HasLlaColumn(rows25) then Err(MissingColumn("LLA", "df_final"))
    else
      var merged := MergedTable(rows25, rows23);
      Ok(map c | c in merged :: Derive(merged[c]))
  }

  /**
   * What the derived columns of a row say about its vote counts: GANADOR is LLA
   * exactly when LLA's votes strictly exceed AHORA's (so ties go to AHORA),
   * DIF_ABS is the integer difference with 2023, both shares are defined exactly
   * when their total is positive and then lie in [0, 100], and DIF_PORC is
   * defined exactly when both shares are.
   */
  predicate Describes(m: Metrics, lla: nat, ahora: nat, ref: nat, total25: nat, total23: nat) {
    m.lla == lla && m.ahora == ahora && m.votes2023 == ref &&
    m.total2025 == total25 && m.total2023 == total23 &&
    (m.winner == LLA <==> lla > ahora) &&
    m.difAbs == lla - ref &&
    IsShare(m.share2025, lla, total25) && IsShare(m.share2023, ref, total23) &&
    (m.difPct.Some? <==> total25 > 0 && total23 > 0) &&
    (m.difPct.Some? ==> m.difPct.value == m.share2025.value - m.share2023.value)
  }

  /** The derived columns of one merged row, when its counts are within its totals. */
  lemma {:induction false} DeriveSpec(m: Merged)
    requires m.lla <= m.total2025 && m.votes2023 <= m.total2023
    ensures Describes(Derive(m), m.lla, m.ahora, m.votes2023, m.total2025, m.total2023)
  {
  }

  /**
   * `df_final` fails exactly when no 2025 row is LLA's; otherwise its circuits
   * are exactly those of the two pivots: a circuit only in a totals table is not
   * added.
   */
  lemma {:induction false} FinalTableSpec(rows25: seq<Row>, rows23: seq<Row>)
    ensures FinalTable(rows25, rows23).Err? <==> !HasLlaColumn(rows25)
    ensures FinalTable(rows25, rows23).Err? ==> FinalTable(rows25, rows23).error == MissingColumn("LLA", "df_final")
    ensures FinalTable(rows25, rows23).Ok? ==>
              FinalTable(rows25, rows23).value.Keys == CircuitsOf(rows25, Mapped) + CircuitsOf(rows23, Party(ReferenceParty))
  {
    if HasLlaColumn(rows25) {
      var t := FinalTable(rows25, rows23).value;
      assert t.Keys == MergedTable(rows25, rows23).Keys;
      MergedTableSpec(rows25, rows23);
    }
  }

  /**
   * Every circuit's row of `df_final` in terms of the input rows: LA LIBERTAD
   * AVANZA's 2025 votes, ES AHORA BUENOS AIRES plus UNION POR LA PATRIA's, the
   * reference party's 2023 votes and both totals (each 0 where the circuit has
   * no such rows), with the derived columns Describes states.
   */
  lemma {:induction false} FinalRowSpec(rows25: seq<Row>, rows23: seq<Row>, c: string)
    requires HasLlaColumn(rows25)
    requires c in CircuitsOf(rows25, Mapped) + CircuitsOf(rows23, Party(ReferenceParty))
    ensures FinalTable(rows25, rows23).Ok? && c in FinalTable(rows25, rows23).value
    ensures Describes(FinalTable(rows25, rows23).value[c],
                      Sum(rows25, c, Party(LlaParty)), Sum(rows25, c, Party(AhoraParty)) + Sum(rows25, c, Party(UxpParty)),
                      Sum(rows23, c, Party(ReferenceParty)), Sum(rows25, c, AllParties), Sum(rows23, c, AllParties))
  {
    var lla, ahora := Sum(rows25, c, Party(LlaParty)), Sum(rows25, c, Party(AhoraParty)) + Sum(rows25, c, Party(UxpParty));
    var ref, total25, total23 := Sum(rows23, c, Party(ReferenceParty)), Sum(rows25, c, AllParties), Sum(rows23, c, AllParties);
    var m := Merged(lla, ahora, ref, total25, total23);
    assert c in MergedTable(rows25, rows23) && MergedTable(rows25, rows23)[c] == m by {
      MergedTableSpec(rows25, rows23);
      GroupsAsParties(rows25, c);
    }
    assert lla <= total25 by {
      GroupsWithinTotal(rows25, c);
      GroupsAsParties(rows25, c);
    }
    assert ref <= total23 by {
      ReferenceWithinTotal(rows23, c);
    }
    FinalTableAt(rows25, rows23, c);
    var row := FinalTable(rows25, rows23).value[c];
    assert row == Derive(m);
    DeriveSpec(m);
    assert Describes(row, lla, ahora, ref, total25, total23);
  }

  /** A circuit's row of `df_final` is derived from its sums over the input rows. */
  lemma {:induction false} FinalRowValue(rows25: seq<Row>, rows23: seq<Row>, c: string)
    requires HasLlaColumn(rows25)
    requires c in CircuitsOf(rows25, Mapped) + CircuitsOf(rows23, Party(ReferenceParty))
    ensures FinalTable(rows25, rows23).Ok? && c in FinalTable(rows25, rows23).value
    ensures FinalTable(rows25, rows23).value[c] == Derive(RowSums(rows25, rows23, c))
  {
    assert c in MergedTable(rows25, rows23) && MergedTable(rows25, rows23)[c] == RowSums(rows25, rows23, c) by {
      MergedTableSpec(rows25, rows23);
      GroupsAsParties(rows25, c);
    }
    FinalTableAt(rows25, rows23, c);
  }

  /** The counts of circuit `c` in the input rows, as `df_final` holds them before deriving. */
  function RowSums(rows25: seq<Row>, rows23: seq<Row>, c: string): Merged {
    Merged(Sum(rows25, c, Party(LlaParty)), Sum(rows25, c, Party(AhoraParty)) + Sum(rows25, c, Party(UxpParty)),
           Sum(rows23, c, Party(ReferenceParty)), Sum(rows25, c, AllParties), Sum(rows23, c, AllParties))
  }

  /** A circuit of the merged table is a row of `df_final`, with its derived columns. */
  lemma {:induction false} FinalTableAt(rows25: seq<Row>, rows23: seq<Row>, c: string)
    requires HasLlaColumn(rows25) && c in MergedTable(rows25, rows23)
    ensures FinalTable(rows25, rows23).Ok? && c in FinalTable(rows25, rows23).value
    ensures FinalTable(rows25, rows23).value[c] == Derive(MergedTable(rows25, rows23)[c])
  {
  }

  /**
   * A circuit with 2023 reference votes but no 2025 rows still appears, with 0 for
   * every 2025 column and no 2025 share.
   */
  lemma {:induction false} Only2023Circuit(rows25: seq<Row>, rows23: seq<Row>, c: string)
    requires HasLlaColumn(rows25)
    requires c !in Circuits(rows25) && c in CircuitsOf(rows23, Party(ReferenceParty))
    ensures FinalTable(rows25, rows23).Ok? && c in FinalTable(rows25, rows23).value
    ensures var m := FinalTable(rows25, rows23).value[c];
            m.lla == 0 && m.ahora == 0 && m.total2025 == 0 && m.share2025.None? && m.difPct.None? &&
            m.votes2023 == Sum(rows23, c, Party(ReferenceParty)) && m.total2023 == Sum(rows23, c, AllParties) &&
            m.difAbs == -(m.votes2023 as int)
  {
    MergedTableSpec(rows25, rows23);
    SumAbsent(rows25, c, InGroup(LLA));
    SumAbsent(rows25, c, InGroup(AHORA));
    SumAbsent(rows25, c, AllParties);
  }
}
