/**
 * The aggregation block (resultados2025.py lines 93-119 and 135-151): vote sums
 * per circuit over the normalised rows of each year.
 */
module Aggregate {
  import opened Common
  import opened Frames

  /** The two group tags of `agrupacion`, also the two values GANADOR takes. */
  datatype Group = LLA | AHORA

  const LlaParty: string := "LA LIBERTAD AVANZA"
  const AhoraParty: string := "ES AHORA BUENOS AIRES"
  const UxpParty: string := "UNION POR LA PATRIA"
  const BaPrimeroParty: string := "BUENOS AIRES PRIMERO"

  /** `agrupacion` (lines 94-98). */
  const Agrupacion: map<string, Group> := map[LlaParty := LLA, AhoraParty := AHORA, UxpParty := AHORA]

  /** The party whose 2023 votes are compared (line 112). */
  const ReferenceParty: string := LlaParty

  /** Which parties' rows a sum takes. */
  datatype Selector = AllParties | Party(name: string) | InGroup(g: Group) | Mapped | AnyOf(names: set<string>)

  predicate Selects(sel: Selector, party: string) {
    match sel
    case AllParties => true
    case Party(n) => party == n
    case InGroup(g) => party in Agrupacion && Agrupacion[party] == g
    case Mapped => party in Agrupacion
    case AnyOf(names) => party in names
  }

  /** Votes of the rows of circuit `c` whose party `sel` takes. */
  function Sum(rows: seq<Row>, c: string, sel: Selector): nat {
    if rows == [] then 0
    else
      var last := rows[|rows| - 1];
      Sum(rows[..|rows| - 1], c, sel) + (if last.circuit == c && Selects(sel, last.party) then last.votes else 0)
  }

  /** `df[df["partido"].isin(...)]`: the rows whose party `sel` takes, in order. */
  function SelectRows(rows: seq<Row>, sel: Selector): (r: seq<Row>)
    ensures |r| <= |rows|
    ensures forall i :: 0 <= i < |r| ==> Selects(sel, r[i].party)
  {
    if rows == [] then []
    else if Selects(sel, rows[|rows| - 1].party) then SelectRows(rows[..|rows| - 1], sel) + [rows[|rows| - 1]]
    else SelectRows(rows[..|rows| - 1], sel)
  }

  /** The filter keeps each selected row as often as it occurs, and no other row. */
  lemma {:induction false} SelectRowsSpec(rows: seq<Row>, sel: Selector)
    ensures forall x :: multiset(SelectRows(rows, sel))[x] == if Selects(sel, x.party) then multiset(rows)[x] else 0
  {
    if rows != [] {
      var init, last := rows[..|rows| - 1], rows[|rows| - 1];
      assert rows == init + [last];
      SelectRowsSpec(init, sel);
    }
  }

  /** The filter keeps the table's order: filtering a concatenation is concatenating the filtered parts. */
  lemma {:induction false} SelectRowsAppend(a: seq<Row>, b: seq<Row>, sel: Selector)
    ensures SelectRows(a + b, sel) == SelectRows(a, sel) + SelectRows(b, sel)
    decreases |b|
  {
    if b == [] {
      assert a + b == a;
    } else {
      var init, last := b[..|b| - 1], b[|b| - 1];
      assert (a + b)[..|a + b| - 1] == a + init && (a + b)[|a + b| - 1] == last;
      SelectRowsAppend(a, init, sel);
    }
  }

  /** The circuits a table has rows for: what `groupby("circuito")` makes its index. */
  function Circuits(rows: seq<Row>): set<string> {
    set i | 0 <= i < |rows| :: rows[i].circuit
  }

  lemma {:induction false} SumAppend(rows: seq<Row>, r: Row, c: string, sel: Selector)
    ensures Sum(rows + [r], c, sel) == Sum(rows, c, sel) + (if r.circuit == c && Selects(sel, r.party) then r.votes else 0)
  {
    assert (rows + [r])[..|rows|] == rows;
  }

  /** A circuit without rows sums to 0: the zero fill of pivot_table and fillna. */
  lemma {:induction false} SumAbsent(rows: seq<Row>, c: string, sel: Selector)
    requires c !in Circuits(rows)
    ensures Sum(rows, c, sel) == 0
  {
    if rows != [] {
      var init := rows[..|rows| - 1];
      assert Circuits(init) <= Circuits(rows) by {
        forall x | x in Circuits(init) ensures x in Circuits(rows) {
          var i :| 0 <= i < |init| && init[i].circuit == x;
          assert rows[i].circuit == x;
        }
      }
      assert rows[|rows| - 1].circuit in Circuits(rows);
      SumAbsent(init, c, sel);
    }
  }

  /** A sum over more parties is at least as large. */
  lemma {:induction false} SumMono(rows: seq<Row>, c: string, s1: Selector, s2: Selector)
    requires forall p :: Selects(s1, p) ==> Selects(s2, p)
    ensures Sum(rows, c, s1) <= Sum(rows, c, s2)
  {
    if rows != [] {
      SumMono(rows[..|rows| - 1], c, s1, s2);
    }
  }

  /** Disjoint selections add up. */
  lemma {:induction false} SumSplit(rows: seq<Row>, c: string, s: Selector, s1: Selector, s2: Selector)
    requires forall p :: Selects(s, p) <==> Selects(s1, p) || Selects(s2, p)
    requires forall p :: !(Selects(s1, p) && Selects(s2, p))
    ensures Sum(rows, c, s) == Sum(rows, c, s1) + Sum(rows, c, s2)
  {
    if rows != [] {
      SumSplit(rows[..|rows| - 1], c, s, s1, s2);
    }
  }

  /** Filtering first changes no sum over parties the filter keeps. */
  lemma {:induction false} SumSelected(rows: seq<Row>, c: string, keep: Selector, sel: Selector)
    requires forall p :: Selects(sel, p) ==> Selects(keep, p)
    ensures Sum(SelectRows(rows, keep), c, sel) == Sum(rows, c, sel)
  {
    if rows != [] {
      var init, last := rows[..|rows| - 1], rows[|rows| - 1];
      var kept := SelectRows(init, keep);
      var add := if last.circuit == c && Selects(sel, last.party) then last.votes else 0;
      assert Sum(rows, c, sel) == Sum(init, c, sel) + add;
      assert Sum(kept, c, sel) == Sum(init, c, sel) by {
        SumSelected(init, c, keep, sel);
      }
      if Selects(keep, last.party) {
        assert SelectRows(rows, keep) == kept + [last];
        assert Sum(kept + [last], c, sel) == Sum(kept, c, sel) + add by {
          SumAppend(kept, last, c, sel);
        }
      } else {
        assert add == 0 by {
          assert !Selects(sel, last.party);
        }
        assert SelectRows(rows, keep) == kept;
      }
    }
  }

  /** The circuits that have a row whose party `sel` takes. */
  function CircuitsOf(rows: seq<Row>, sel: Selector): set<string> {
    set i | 0 <= i < |rows| && Selects(sel, rows[i].party) :: rows[i].circuit
  }

  lemma {:induction false} CircuitsAppend(rows: seq<Row>, r: Row, sel: Selector)
    ensures Circuits(rows + [r]) == Circuits(rows) + {r.circuit}
    ensures CircuitsOf(rows + [r], sel) == CircuitsOf(rows, sel) + (if Selects(sel, r.party) then {r.circuit} else {})
  {
    var s := rows + [r];
    assert forall i :: 0 <= i < |rows| ==> s[i] == rows[i];
    assert s[|rows|] == r;
    forall x | x in Circuits(s) ensures x in Circuits(rows) + {r.circuit} {
      var i :| 0 <= i < |s| && s[i].circuit == x;
      if i < |rows| { assert rows[i].circuit == x; }
    }
    forall x | x in CircuitsOf(s, sel) ensures x in CircuitsOf(rows, sel) + (if Selects(sel, r.party) then {r.circuit} else {}) {
      var i :| 0 <= i < |s| && Selects(sel, s[i].party) && s[i].circuit == x;
      if i < |rows| { assert Selects(sel, rows[i].party) && rows[i].circuit == x; }
    }
  }

  /** The circuits of the filtered rows are those with a row the filter keeps. */
  lemma {:induction false} SelectRowsCircuits(rows: seq<Row>, sel: Selector)
    ensures Circuits(SelectRows(rows, sel)) == CircuitsOf(rows, sel)
  {
    if rows == [] {
    } else {
      var init, last := rows[..|rows| - 1], rows[|rows| - 1];
      assert rows == init + [last];
      SelectRowsCircuits(init, sel);
      CircuitsAppend(init, last, sel);
      if Selects(sel, last.party) {
        CircuitsAppend(SelectRows(init, sel), last, sel);
      }
    }
  }

  /** One row of `pivot_2025`: a vote column per group tag. */
  datatype GroupVotes = GroupVotes(lla: nat, ahora: nat)

  /**
   * `pivot_2025` (lines 100-109): the 2025 rows of the three mapped parties,
   * tagged by group, summed per (circuit, group) with 0 for absent pairs.
   */
  function PivotGroups(rows: seq<Row>): map<string, GroupVotes> {
    var agrup := SelectRows(rows, Mapped);
    map c | c in Circuits(agrup) :: GroupVotes(Sum(agrup, c, InGroup(LLA)), Sum(agrup, c, InGroup(AHORA)))
  }

  /** `pivot_2023` (lines 111-116): the reference party's 2023 votes per circuit. */
  function PivotReference(rows: seq<Row>): map<string, nat> {
    var ref := SelectRows(rows, Party(ReferenceParty));
    map c | c in Circuits(ref) :: Sum(ref, c, AllParties)
  }

  /** `total_2025` / `total_2023` (lines 118-119): every row's votes per circuit. */
  function Totals(rows: seq<Row>): map<string, nat> {
    map c | c in Circuits(rows) :: Sum(rows, c, AllParties)
  }

  /**
   * One row of `pivot_tooltip` after the renames of lines 146-151. `pivot_table`
   * makes a column only for a party that occurs in `df_tooltip`, so each cell
   * is None when its party's column does not exist at all.
   */
  datatype Tooltip = Tooltip(llaTip: Option<nat>, ahoraTip: Option<nat>, baPrimeroTip: Option<nat>)

  const TooltipParties: set<string> := {LlaParty, AhoraParty, BaPrimeroParty}

  /** Whether some row is party `p`'s. */
  predicate HasParty(rows: seq<Row>, p: string) {
    exists i :: 0 <= i < |rows| && rows[i].party == p
  }

  /** A pivot cell of party `p` for circuit `c`: absent without a column for `p`, otherwise its sum (0 when missing). */
  function TipCell(tip: seq<Row>, c: string, p: string): Option<nat> {
    if HasParty(tip, p) then Some(Sum(tip, c, Party(p))) else None
  }

  /** `pivot_tooltip` (lines 136-151): the three tooltip parties' votes per circuit. */
  function PivotTooltip(rows: seq<Row>): map<string, Tooltip> {
    var tip := SelectRows(rows, AnyOf(TooltipParties));
    map c | c in Circuits(tip) :: Tooltip(TipCell(tip, c, LlaParty), TipCell(tip, c, AhoraParty), TipCell(tip, c, BaPrimeroParty))
  }

  /**
   * Only rows of the three mapped parties make `pivot_2025`: its circuits are those
   * with such a row, and each cell is that group's votes over ALL the circuit's rows
   * (unmapped parties add nothing); AHORA is ES AHORA BUENOS AIRES plus UNION POR
   * LA PATRIA, LLA is LA LIBERTAD AVANZA alone.
   */
  lemma {:induction false} PivotGroupsSpec(rows: seq<Row>)
    ensures PivotGroups(rows).Keys == CircuitsOf(rows, Mapped)
    ensures forall c :: c in PivotGroups(rows) ==>
              PivotGroups(rows)[c].lla == Sum(rows, c, InGroup(LLA)) &&
              PivotGroups(rows)[c].ahora == Sum(rows, c, InGroup(AHORA))
    ensures forall c :: c in PivotGroups(rows) ==>
              PivotGroups(rows)[c].lla == Sum(rows, c, Party(LlaParty)) &&
              PivotGroups(rows)[c].ahora == Sum(rows, c, Party(AhoraParty)) + Sum(rows, c, Party(UxpParty))
  {
    SelectRowsCircuits(rows, Mapped);
    forall c | c in PivotGroups(rows)
      ensures PivotGroups(rows)[c].lla == Sum(rows, c, InGroup(LLA)) == Sum(rows, c, Party(LlaParty))
      ensures PivotGroups(rows)[c].ahora == Sum(rows, c, InGroup(AHORA)) == Sum(rows, c, Party(AhoraParty)) + Sum(rows, c, Party(UxpParty))
    {
      SumSelected(rows, c, Mapped, InGroup(LLA));
      SumSelected(rows, c, Mapped, InGroup(AHORA));
      GroupsAsParties(rows, c);
    }
  }

  /** The three parties of `agrupacion` are distinct names; LLA's group holds LA LIBERTAD AVANZA alone. */
  lemma {:induction false} GroupMembers(p: string)
    ensures LlaParty != AhoraParty && LlaParty != UxpParty && AhoraParty != UxpParty
    ensures Selects(InGroup(LLA), p) <==> p == LlaParty
    ensures Selects(InGroup(AHORA), p) <==> p == AhoraParty || p == UxpParty
  {
    assert LlaParty[0] == 'L' && AhoraParty[0] == 'E' && UxpParty[0] == 'U';
  }

  /** The group sums in terms of the parties of `agrupacion`. */
  lemma {:induction false} GroupsAsParties(rows: seq<Row>, c: string)
    ensures Sum(rows, c, InGroup(LLA)) == Sum(rows, c, Party(LlaParty))
    ensures Sum(rows, c, InGroup(AHORA)) == Sum(rows, c, Party(AhoraParty)) + Sum(rows, c, Party(UxpParty))
  {
    SumMono(rows, c, InGroup(LLA), Party(LlaParty));
    SumMono(rows, c, Party(LlaParty), InGroup(LLA));
    SumSplit(rows, c, InGroup(AHORA), Party(AhoraParty), Party(UxpParty));
  }

  /** Appending a row of a party outside `agrupacion` changes no group total. */
  lemma {:induction false} UnmappedRowIgnored(rows: seq<Row>, r: Row, c: string, g: Group)
    requires r.party !in Agrupacion
    ensures Sum(rows + [r], c, InGroup(g)) == Sum(rows, c, InGroup(g))
  {
    SumAppend(rows, r, c, InGroup(g));
  }

  /** The two groups' votes never exceed the circuit's total. */
  lemma {:induction false} GroupsWithinTotal(rows: seq<Row>, c: string)
    ensures Sum(rows, c, InGroup(LLA)) + Sum(rows, c, InGroup(AHORA)) <= Sum(rows, c, AllParties)
  {
    SumSplit(rows, c, Mapped, InGroup(LLA), InGroup(AHORA));
    SumMono(rows, c, Mapped, AllParties);
  }

  /** The reference party's votes never exceed the circuit's total. */
  lemma {:induction false} ReferenceWithinTotal(rows: seq<Row>, c: string)
    ensures Sum(rows, c, Party(ReferenceParty)) <= Sum(rows, c, AllParties)
  {
    SumMono(rows, c, Party(ReferenceParty), AllParties);
  }

  /** `pivot_2023`'s circuits are those with a reference-party row, its cells that party's votes. */
  lemma {:induction false} PivotReferenceSpec(rows: seq<Row>)
    ensures PivotReference(rows).Keys == CircuitsOf(rows, Party(ReferenceParty))
    ensures forall c :: c in PivotReference(rows) ==> PivotReference(rows)[c] == Sum(rows, c, Party(ReferenceParty))
  {
    SelectRowsCircuits(rows, Party(ReferenceParty));
    forall c | c in PivotReference(rows) ensures PivotReference(rows)[c] == Sum(rows, c, Party(ReferenceParty)) {
      SumSelected(rows, c, Party(ReferenceParty), Party(ReferenceParty));
      SumSelectedOnly(rows, c, Party(ReferenceParty));
    }
  }

  /** Over rows already filtered by `keep`, summing all parties is summing `keep`. */
  lemma {:induction false} SumSelectedOnly(rows: seq<Row>, c: string, keep: Selector)
    ensures Sum(SelectRows(rows, keep), c, AllParties) == Sum(SelectRows(rows, keep), c, keep)
  {
    if rows != [] {
      var init, last := rows[..|rows| - 1], rows[|rows| - 1];
      SumSelectedOnly(init, c, keep);
      if Selects(keep, last.party) {
        SumAppend(SelectRows(init, keep), last, c, AllParties);
        SumAppend(SelectRows(init, keep), last, c, keep);
      }
    }
  }

  /** A totals table has every circuit of the rows and each cell is the whole circuit's votes. */
  lemma {:induction false} TotalsSpec(rows: seq<Row>)
    ensures Totals(rows).Keys == Circuits(rows)
    ensures forall c :: c in Totals(rows) ==> Totals(rows)[c] == Sum(rows, c, AllParties)
  {
  }

  /**
   * Unlike the group pivot, the totals count every party: one more row adds its
   * votes to its circuit's total (creating the circuit when new) and leaves every
   * other circuit's total as it was.
   */
  lemma {:induction false} TotalsAppend(rows: seq<Row>, r: Row)
    ensures (Totals(rows + [r])).Keys == Totals(rows).Keys + {r.circuit}
    ensures Totals(rows + [r])[r.circuit] == (if r.circuit in Totals(rows) then Totals(rows)[r.circuit] else 0) + r.votes
    ensures forall c :: c in Totals(rows) && c != r.circuit ==> Totals(rows + [r])[c] == Totals(rows)[c]
  {
    CircuitsAppend(rows, r, AllParties);
    SumAppend(rows, r, r.circuit, AllParties);
    if r.circuit !in Circuits(rows) {
      SumAbsent(rows, r.circuit, AllParties);
    }
    forall c | c in Totals(rows) && c != r.circuit ensures Totals(rows + [r])[c] == Totals(rows)[c] {
      SumAppend(rows, r, c, AllParties);
    }
  }

  /** Filtering by a selector that takes `p` keeps some row of `p` exactly when there was one. */
  lemma {:induction false} SelectRowsParty(rows: seq<Row>, sel: Selector, p: string)
    requires Selects(sel, p)
    ensures HasParty(SelectRows(rows, sel), p) <==> HasParty(rows, p)
  {
    if rows != [] {
      var init, last := rows[..|rows| - 1], rows[|rows| - 1];
      SelectRowsParty(init, sel, p);
      assert rows == init + [last];
      assert HasParty(rows, p) <==> HasParty(init, p) || last.party == p by {
        if i :| 0 <= i < |rows| && rows[i].party == p {
          if i < |init| {
            assert init[i] == rows[i];
          }
        }
        if i :| 0 <= i < |init| && init[i].party == p {
          assert rows[i] == init[i];
        }
      }
      var si := SelectRows(init, sel);
      if Selects(sel, last.party) {
        var so := si + [last];
        assert SelectRows(rows, sel) == so;
        assert HasParty(so, p) <==> HasParty(si, p) || last.party == p by {
          if k :| 0 <= k < |so| && so[k].party == p {
            if k < |si| {
              assert si[k] == so[k];
            }
          }
          if k :| 0 <= k < |si| && si[k].party == p {
            assert so[k] == si[k];
          }
          if last.party == p {
            assert so[|si|] == last;
          }
        }
      } else {
        assert SelectRows(rows, sel) == si;
        assert last.party != p;
      }
    }
  }

  /** The tooltip cell of `p` read off the 2025 rows: defined exactly when some row is `p`'s, then its sum. */
  predicate TipCellIs(cell: Option<nat>, rows: seq<Row>, c: string, p: string) {
    (cell.Some? <==> HasParty(rows, p)) && (cell.Some? ==> cell.value == Sum(rows, c, Party(p)))
  }

  /**
   * `pivot_tooltip` has a row exactly for circuits with a row of a tooltip party;
   * a party's column exists exactly when some 2025 row is that party's, and then
   * holds its votes in the circuit, 0 when it has none there.
   */
  lemma {:induction false} PivotTooltipSpec(rows: seq<Row>)
    ensures PivotTooltip(rows).Keys == CircuitsOf(rows, AnyOf(TooltipParties))
    ensures forall c :: c in PivotTooltip(rows) ==>
              TipCellIs(PivotTooltip(rows)[c].llaTip, rows, c, LlaParty) &&
              TipCellIs(PivotTooltip(rows)[c].ahoraTip, rows, c, AhoraParty) &&
              TipCellIs(PivotTooltip(rows)[c].baPrimeroTip, rows, c, BaPrimeroParty)
  {
    SelectRowsCircuits(rows, AnyOf(TooltipParties));
    SelectRowsParty(rows, AnyOf(TooltipParties), LlaParty);
    SelectRowsParty(rows, AnyOf(TooltipParties), AhoraParty);
    SelectRowsParty(rows, AnyOf(TooltipParties), BaPrimeroParty);
    forall c | c in PivotTooltip(rows)
      ensures TipCellIs(PivotTooltip(rows)[c].llaTip, rows, c, LlaParty)
      ensures TipCellIs(PivotTooltip(rows)[c].ahoraTip, rows, c, AhoraParty)
      ensures TipCellIs(PivotTooltip(rows)[c].baPrimeroTip, rows, c, BaPrimeroParty)
    {
      SumSelected(rows, c, AnyOf(TooltipParties), Party(LlaParty));
      SumSelected(rows, c, AnyOf(TooltipParties), Party(AhoraParty));
      SumSelected(rows, c, AnyOf(TooltipParties), Party(BaPrimeroParty));
    }
  }
}
