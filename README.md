# Electoral results by circuit, Buenos Aires City 2025 vs 2023 — a Dafny model

`resultados2025.py` is a Streamlit page. It loads three inputs:

- the 2025 results, one row per (circuit, party, votes, comuna);
- the 2023 results, one row per (circuit, party, votes, section);
- the GeoJSON of the city's electoral circuits.

It then does the following, in order:

1. It normalises column names and renames them to `partido` / `votos` / `circuito`.
2. It upper-cases party names and zero-pads circuit ids to five characters.
3. It builds a `COMUNA` column. If the source column of that table is missing, the page stops with an error.
4. It aggregates the 2025 votes into two groups:
   - LLA, which is LA LIBERTAD AVANZA;
   - AHORA, which is ES AHORA BUENOS AIRES plus UNION POR LA PATRIA.
5. It sums LA LIBERTAD AVANZA's 2023 votes and the per-circuit totals of both years.
6. It chains an outer and two left merges into `df_final` and fills the gaps with 0.
7. It derives these columns:
   - GANADOR, where a tie goes to AHORA;
   - the LLA shares of 2025 and 2023;
   - the absolute and percentage growth.
8. It adds tooltip counts per party and the circuit's comuna.
9. It left-joins every geometry feature with that table. The result is `geo_final`.
10. It offers a comuna filter (with "Todas" meaning every comuna) and number formatters for the map labels.

The model covers this pipeline, up to `geo_final`, the filter and the label text. The modules follow the script's stages:

| file | module | stage |
|---|---|---|
| `common.dfy` | `Common` | Option / Result, map lookup with a default |
| `text.dfy` | `Text` | `str.zfill`, `str.upper` / `str.lower`, `str.strip` |
| `ordering.dfy` | `Ordering` | `sorted(...)` and `unique()` on strings |
| `frames.dfy` | `Frames` | the normalisation steps, as a `ResultFrame` class updated in place |
| `aggregate.dfy` | `Aggregate` | the pivots and group-by sums |
| `metrics.dfy` | `Metrics` | the merge chain, `fillna(0)` and the derived columns |
| `geo.dfy` | `Geo` | the feature loop of `load_data`, the tooltip and comuna joins, the geometry join and the comuna filter |
| `labels.dfy` | `Labels` | the integer label formatters |
| `app.dfy` | `App` | the whole pipeline and end-to-end properties |

Modelling choices:

- **Tables.** A table is a sequence of rows. `df_final` and the pivots are maps keyed by the padded circuit id.
- **Sums.** A per-circuit sum is `Aggregate.Sum`, taken over the rows picked by a `Selector`. A selector is one party, a group, all parties, or a list of parties.
- **Shares.** Shares are exact `real`s. A share that pandas would compute as NaN (a zero total) is `None`.
- **Geometry.** Geometry is an opaque type parameter `G`, carried along unchanged.
- **Errors.** `st.error` / `st.stop` is modelled as an `Err` value naming the missing column and its table.

Three behaviours of the code that are easy to misread:

- **The comuna lookup (line 157).** The code keeps every distinct (circuit, COMUNA) pair (`drop_duplicates` on both columns). It does not keep one comuna per circuit. A circuit listed under two comunas therefore yields two rows of `df_final`, and two rows in `geo_final` for its feature. `Geo.DetailSpec` states this.
- **A 2025 table without any LA LIBERTAD AVANZA row.** Here `pivot_2025` has no `LLA` column, so `df_final["LLA"]` at line 130 fails. The model returns `Err(MissingColumn("LLA", "df_final"))`. A missing `AHORA` column is harmless, because line 129 reads it with `x.get("AHORA", 0)` and the zero fill gives the same value.
- **Tooltip columns (lines 139-151).** `pivot_table` makes a column only for a party that occurs in `df_tooltip`. When no 2025 row is BUENOS AIRES PRIMERO's (or one of the other two tooltip parties'), `BA_PRIMERO_TIP` (or its counterpart) does not exist at all, instead of holding 0. The model's tooltip cells are `None` in that case, and `Aggregate.PivotTooltipSpec` states it.

## Model

| member | source | states |
|---|---|---|
| Text.Strip | resultados2025.py:69-70 | `str.strip()`. StripSpec, StripEnds and StripOfStripped state it: a slice of the input without whitespace at either end, and the identity on stripped names. |
| Text.NormalizeColumnName | resultados2025.py:69-70 | `lower().strip()` on a column name. Its properties are stated by NormalizeColumnNameIdempotent and used by SourceColumnPresent. |
| Frames.NormalizeTable | resultados2025.py:69-91 | One year's normalisation, as a value. NormalizeTableSpec states when it fails and with which error. NormalizedRows states each row of a success, and NormalizeFrame ties it to the class's in-place steps. |
| Aggregate.Sum | resultados2025.py:103-119 | A circuit's votes over the rows a selector takes. SumAbsent, SumMono, SumSplit and SumSelected state how it behaves. |
| Aggregate.PivotGroups | resultados2025.py:100-109 | `pivot_2025`. It is stated by PivotGroupsSpec, GroupsAsParties and UnmappedRowIgnored. |
| Aggregate.PivotReference | resultados2025.py:111-116 | `pivot_2023`. It is stated by PivotReferenceSpec. |
| Aggregate.Totals | resultados2025.py:118-119 | `total_2025` and `total_2023`. TotalsAppend and GroupsWithinTotal state them. |
| Aggregate.PivotTooltip | resultados2025.py:136-151 | `pivot_tooltip`. It is stated by PivotTooltipSpec. |
| Metrics.MergeChain | resultados2025.py:121-127 | The outer and two left merges with `fillna(0)`. MergedTableSpec states the result in terms of the input rows. |
| Metrics.Winner | resultados2025.py:129 | GANADOR. DeriveSpec states that LLA wins only on strictly more votes, so a tie goes to AHORA. |
| Metrics.Derive | resultados2025.py:129-133 | The derived columns of one row. DeriveSpec states all five of them. |
| Metrics.FinalTable | resultados2025.py:121-133 | `df_final` after line 133. FinalTableSpec, FinalRowSpec, FinalRowValue and Only2023Circuit state it. |
| Geo.ComunaPairs | resultados2025.py:157 | `comuna_por_circuito`, the distinct (circuit, COMUNA) pairs. DetailSpec states what they contribute per circuit. |
| Geo.Detail | resultados2025.py:154-158 | The tooltip and comuna merges. It is stated by DetailSpec and DetailBlocks. |
| Geo.GeoJoin | resultados2025.py:161 | The left join from the geometry side. It is stated by GeoJoinAppend, GeoJoinUnique and GeoJoinKeepsRows. |
| Geo.FilterComuna | resultados2025.py:170-173 | The comuna filter. It is stated by FilterComunaSpec and FilterComunaOrder. |
| Labels.FormatThousands | resultados2025.py:249 | `f"{n:,}".replace(",", ".")`. FormatThousandsGroups and FormatThousandsRoundTrip state it. |
| Labels.FormatSigned | resultados2025.py:212 | `f"{n:+}"`. It is stated by FormatSignedRoundTrip. |
| App.Pipeline | resultados2025.py:66-161 | The script up to `geo_final`, as a value. PipelineErrors states its errors, PipelineKeepsGeometry its join, and RunPipeline its step-by-step run. |
| Text.ZFill | resultados2025.py:26 | `str.zfill(width)`: the result has length max(len, width) and is unchanged when the string is already long enough. An unsigned string ends the result, preceded only by '0's. A leading sign stays first, with the zeros inserted after it. |
| Text.ZFillIdempotent | resultados2025.py:77-78 | Padding an already padded circuit id changes nothing. |
| Text.ZFillExamples | resultados2025.py:77-78 | "7" becomes "00007", "-7" becomes "-0007", and "123456" is unchanged at width 5. |
| Text.Upper | resultados2025.py:75-76 | Upper-casing keeps the length and maps every character to its upper-case form, so no lower-case letter remains. |
| Text.UpperIdempotent | resultados2025.py:75-76 | Upper-casing twice is upper-casing once. |
| Text.Lower | resultados2025.py:69-70 | Lower-casing keeps the length and maps every character to its lower-case form. |
| Text.TrimStart | resultados2025.py:69-70 | Removes exactly the leading whitespace: the result is a suffix, everything dropped is whitespace, and the result does not start with whitespace. |
| Text.TrimEnd | resultados2025.py:69-70 | Removes exactly the trailing whitespace: the result is a prefix, everything dropped is whitespace, and the result does not end with whitespace. |
| Text.StripSpec | resultados2025.py:69-70 | `strip()` returns a contiguous slice of its input. |
| Text.StripEnds | resultados2025.py:69-70 | The stripped name is empty or neither starts nor ends with whitespace. |
| Text.StripOfStripped | resultados2025.py:69-70 | A name without surrounding whitespace is unchanged by `strip()`. |
| Text.NormalizeColumnNameIdempotent | resultados2025.py:69-70 | Normalising an already normalised column name (`lower().strip()`) changes nothing. |
| Ordering.LexLeTotal | resultados2025.py:167 | Python's string order is total. |
| Ordering.LexLeTrans | resultados2025.py:167 | Python's string order is transitive. |
| Ordering.LexLeAntisym | resultados2025.py:167 | Python's string order is antisymmetric. |
| Ordering.Insert | resultados2025.py:167 | Inserting into a sorted list gives a sorted list with the element added, as a multiset. |
| Ordering.Sort | resultados2025.py:167 | `sorted(...)` returns a sorted permutation of its input. |
| Ordering.SortMembers | resultados2025.py:167 | Sorting keeps exactly the same members. |
| Ordering.SortDistinct | resultados2025.py:167 | Sorting a duplicate-free list gives a duplicate-free list. |
| Ordering.Unique | resultados2025.py:167 | `unique()` returns a duplicate-free list with exactly the input's members, and no longer than the input. |
| Frames.ResultFrame.NormalizeColumnNames | resultados2025.py:69-70 | Every column name becomes `lower().strip()` of itself. The rows are unchanged. |
| Frames.ResultFrame.Rename | resultados2025.py:72-73 | Each column named in the renaming map takes its new name and the others keep theirs. The rows are unchanged. |
| Frames.ResultFrame.UpperParties | resultados2025.py:75-76 | Every row's party is upper-cased and nothing else changes. |
| Frames.ResultFrame.PadCircuits | resultados2025.py:77-78 | Every row's circuit is zero-padded to 5, so all circuits are padded afterwards. Nothing else changes. |
| Frames.ResultFrame.AssignComuna | resultados2025.py:81-91 | Succeeds exactly when the source column exists. On success every row's COMUNA is its upper-cased source value and COMUNA is among the columns. On failure the frame is unchanged. |
| Frames.NormalizeRowSpec | resultados2025.py:75-88 | A normalised row has the padded circuit, the upper-cased party, the same votes and the upper-cased comuna. |
| Frames.SourceColumnPresent | resultados2025.py:69-81 | After normalising and renaming, the comuna source column is present exactly when some raw column normalises to it. |
| Frames.NormalizeTableSpec | resultados2025.py:81-91 | Normalising a table returns the missing-column error exactly when no raw column normalises to the comuna source column. The error names that column and that table. Duplicate column labels are not modelled (see Left out). |
| Frames.NormalizedRows | resultados2025.py:69-91 | A successful normalisation keeps the row count and all circuits padded. Row i has the padded circuit, the upper-cased party, the votes and the upper-cased comuna of raw row i. |
| Frames.RenamingsKeepSources | resultados2025.py:72-73 | Neither year's renaming touches or produces its comuna source column ("comuna", "seccion_nombre"). |
| Frames.NormalizeFrame | resultados2025.py:69-91 | The in-place steps on a `ResultFrame` compute exactly the table normalisation, error case included. |
| Aggregate.SelectRows | resultados2025.py:100 | `isin` filtering keeps only rows whose party is selected, and is never longer than its input. Its content and order are stated by SelectRowsSpec and SelectRowsAppend. |
| Aggregate.SelectRowsSpec | resultados2025.py:100 | The filter keeps every selected row exactly as often as it occurs, and no other row. |
| Aggregate.SelectRowsAppend | resultados2025.py:100 | The filter keeps the table's order: filtering a concatenation is concatenating the filtered parts. |
| Aggregate.SumAbsent | resultados2025.py:103-119 | A circuit without rows sums to 0. |
| Aggregate.SumMono | resultados2025.py:103-119 | Selecting more parties never lowers a circuit's sum. |
| Aggregate.SumSplit | resultados2025.py:103-109 | The sum over a selector that is the disjoint union of two others is the sum of their sums. |
| Aggregate.SumSelected | resultados2025.py:100-109 | Filtering rows first does not change a sum over parties that the filter keeps. |
| Aggregate.SelectRowsCircuits | resultados2025.py:100-103 | The circuits of the filtered rows are the circuits with a selected row. |
| Aggregate.PivotGroupsSpec | resultados2025.py:94-109 | `pivot_2025` has a row exactly for circuits with an LLA or AHORA row. Its LLA cell is LA LIBERTAD AVANZA's votes in that circuit. Its AHORA cell is ES AHORA BUENOS AIRES's plus UNION POR LA PATRIA's votes, with 0 when a group is missing. |
| Aggregate.GroupMembers | resultados2025.py:94-98 | The LLA group is exactly LA LIBERTAD AVANZA. The AHORA group is exactly ES AHORA BUENOS AIRES and UNION POR LA PATRIA. The three names are distinct. |
| Aggregate.GroupsAsParties | resultados2025.py:94-109 | A group's sum is the sum of its member parties' sums. |
| Aggregate.UnmappedRowIgnored | resultados2025.py:100 | A row whose party is outside the grouping changes no group sum. |
| Aggregate.GroupsWithinTotal | resultados2025.py:103-119 | LLA plus AHORA never exceeds the circuit's 2025 total. |
| Aggregate.ReferenceWithinTotal | resultados2025.py:111-119 | LA LIBERTAD AVANZA's 2023 votes never exceed the circuit's 2023 total. |
| Aggregate.PivotReferenceSpec | resultados2025.py:111-116 | `pivot_2023` has a row exactly for circuits with a 2023 LA LIBERTAD AVANZA row, holding those votes' sum. |
| Aggregate.SumSelectedOnly | resultados2025.py:111-116 | After filtering, summing every party is summing the kept parties. |
| Aggregate.TotalsAppend | resultados2025.py:118-119 | Unlike the group pivot, the totals count every party. One more row of any party adds its votes to its circuit's total, and creates the circuit when it is new. Every other circuit's total stays as it was. |
| Aggregate.SelectRowsParty | resultados2025.py:136-138 | Filtering by parties that include p keeps a row of p exactly when the table had one. |
| Aggregate.PivotTooltipSpec | resultados2025.py:136-151 | The tooltip pivot has a row exactly for circuits with a row of one of its three parties. A party's column exists exactly when some 2025 row is that party's. It then holds the party's votes in the circuit, and 0 where the party has none there. |
| Metrics.MergedTableSpec | resultados2025.py:121-127 | After the merge chain and `fillna(0)`, `df_final`'s circuits are those of `pivot_2025` united with those of `pivot_2023`. Every cell is the matching per-circuit sum, and 0 where a table has no row. |
| Metrics.NoMappedRow | resultados2025.py:121-127 | A circuit with no grouped 2025 row has LLA and AHORA both 0, which is what the zero fill gives. |
| Metrics.Share | resultados2025.py:130-131 | A share is defined exactly when the total is positive. It is then part·100/total, non-negative, and at most 100 when the part is within the total. |
| Metrics.DeriveSpec | resultados2025.py:129-133 | The derived row satisfies the following. GANADOR is LLA exactly when LLA > AHORA, so ties go to AHORA. Both shares are as above. DIF_ABS is LLA − votes_2023. DIF_PORC is the share difference, defined exactly when both shares are. |
| Metrics.FinalTableSpec | resultados2025.py:121-130 | `df_final` fails exactly when no 2025 row is LA LIBERTAD AVANZA's, with the missing-LLA error. Otherwise its circuits are those of the two pivots. |
| Metrics.FinalRowSpec | resultados2025.py:121-133 | Each circuit's row of `df_final` carries these values: the per-party sums of 2025, the 2023 reference votes, both totals, and the derived columns, all as in DeriveSpec. |
| Metrics.FinalRowValue | resultados2025.py:121-133 | Each circuit's row of `df_final` is the derivation applied to that circuit's sums. |
| Metrics.Only2023Circuit | resultados2025.py:121-133 | A circuit present only in 2023 gets the following values. LLA, AHORA and the 2025 total are 0. The 2025 share and DIF_PORC are undefined. DIF_ABS is minus its 2023 votes. |
| Geo.LoadGeometry | resultados2025.py:19-26 | The feature loop keeps every feature in order, with its circuit zero-padded to 5 and its payload unchanged. |
| Geo.TooltipRepadIsIdentity | resultados2025.py:153 | Re-padding the tooltip pivot's circuits changes none of them, because they are already padded. |
| Geo.ComunasOf | resultados2025.py:157-158 | The comunas joined to a circuit are exactly those of its distinct (circuit, COMUNA) pairs, without repeats. |
| Geo.DetailSpec | resultados2025.py:154-158 | Every circuit of `df_final` yields one row per distinct comuna of its 2025 rows, or a single row without comuna. Each row carries that circuit's metrics and its tooltip counts, if any. |
| Geo.DetailBlocks | resultados2025.py:154-158 | The left joins keep exactly `df_final`'s circuits, each with at least one row. |
| Geo.GeoJoinAppend | resultados2025.py:161 | The geometry join works feature by feature: joining a concatenation is concatenating the joins. |
| Geo.GeoJoinUnique | resultados2025.py:161 | When every circuit has one detail row, `geo_final` has one row per feature, in order. Each row carries its detail row, or none when the circuit is absent from the table. |
| Geo.GeoJoinKeepsRows | resultados2025.py:161 | Every feature appears in `geo_final` with its circuit and payload. It has no data exactly when its circuit is absent. |
| Geo.JoinKeepsFeature | resultados2025.py:161 | Every loaded feature appears with its padded circuit and payload. It has no metrics exactly when `df_final` lacks the circuit. |
| Geo.KeepComunaSpec | resultados2025.py:171 | Filtering by a comuna keeps exactly the rows of that comuna, each as often as before. |
| Geo.FilterComunaSpec | resultados2025.py:170-173 | "Todas" keeps `geo_final` as it is. Any other choice keeps exactly the rows of that comuna, with their multiplicities. |
| Geo.FilterComunaOrder | resultados2025.py:170-173 | The filter keeps `geo_final`'s order. Filtering a concatenation is concatenating the filtered parts, and a single row is kept exactly when "Todas" is chosen or the row is of the chosen comuna. |
| Geo.PresentComunas | resultados2025.py:167 | `dropna().unique()` lists exactly the comunas present in `geo_final`. |
| Geo.ComunaOptions | resultados2025.py:167-168 | The choices are "Todas" followed by the present comunas, sorted and without repeats, and nothing else. |
| Labels.DigitChar | resultados2025.py:208 | Digit d is written as the character whose offset from '0' is d. |
| Labels.Digits | resultados2025.py:208-212 | `str(n)`: at least one digit, only digits, no leading zero unless n = 0, and it denotes n. |
| Labels.FormatThousandsGroups | resultados2025.py:249 | The thousands label of n ≥ 0 without its dots is `str(n)`. Its dot-separated groups are one of 1-3 digits followed by groups of exactly three. |
| Labels.FormatThousandsRoundTrip | resultados2025.py:208 | The thousands label reads back to its number, negative numbers included. |
| Labels.FormatSignedRoundTrip | resultados2025.py:212 | `f"{n:+}"` starts with '-' exactly for negative n (otherwise '+', "+0" included), then digits, and reads back to n. |
| App.RunPipeline | resultados2025.py:66-161 | Running the script's steps computes `geo_final`, or the error that stops the page. |
| App.PipelineErrors | resultados2025.py:81-130 | Among the stops the model covers, the page stops exactly when one of three things holds: no 2025 "comuna" column, no 2023 "seccion_nombre" column, or no 2025 row of LA LIBERTAD AVANZA. It reports the first of these, in that order. Duplicate column labels are not modelled (see Left out). |
| App.LlaColumnFromRaw | resultados2025.py:100-130 | `pivot_2025` has an LLA column exactly when some raw 2025 party upper-cases to LA LIBERTAD AVANZA. |
| App.LlaColumnFromParties | resultados2025.py:75-109 | The same holds for any rows whose parties are the upper-cased raw parties. |
| App.PipelineKeepsGeometry | resultados2025.py:161 | Every GeoJSON feature survives into `geo_final` with its padded circuit and geometry. It has no results exactly when `df_final` lacks its circuit. |
| App.ScenarioSums | resultados2025.py:94-119 | In one circuit with 300 LA LIBERTAD AVANZA and 200 ES AHORA BUENOS AIRES votes, the per-party sums are 300, 200 and 0 (UNION POR LA PATRIA), and the total is 500. The circuit is grouped and an LLA column exists. |
| App.OneCircuitScenario | resultados2025.py:121-133 | The same circuit's `df_final` row is: LLA wins, the 2025 share is 60 %, the 2023 share and DIF_PORC are undefined (a zero total), and DIF_ABS is 300. |
| App.ScenarioMetrics | resultados2025.py:129-133 | 300 LLA and 200 AHORA votes out of 500, with nothing in 2023, derive winner LLA, a 60 % share, DIF_ABS 300, and an undefined 2023 share and DIF_PORC. |

## Left out

- Network I/O and caching (`pd.read_csv`, `requests.get`, `@st.cache_data`, lines 11-17) are left out. The three inputs are parameters.
- Geometry is an opaque payload `G`. Shapely's `shape`, the CRS, `representative_point` and the label placement of `add_value_labels` (lines 31-61) are not modelled.
- The Streamlit / folium / branca interface is left out: title, select boxes, checkbox, map, colour scale, tooltips, `vmin`/`vmax` (lines 164-255). The selected comuna is a parameter of the filter. `st.error` + `st.stop` is modelled only as the returned `Err`.
- Floating point is left out. Shares are exact reals, and NaN is `None`. The `.1f`-formatted map label of view 3 (line 251) is not modelled, and neither is `inf`, which cannot arise because a zero total has a zero part.
- pandas dtype coercion is left out: `astype(str)` on float or NaN cells, `pd.to_numeric(..., errors="coerce") or 0`, and object columns. Votes are natural numbers and circuit ids are strings.
- Text.Upper: only ASCII letters are case-mapped. Python's full Unicode case mapping (accented letters, 'ß', and so on) is not modelled.
- Text.Lower: only ASCII letters are case-mapped, for the same reason.
- Text.Strip: only ASCII whitespace is removed. Unicode whitespace is not.
- A `KeyError` from a missing `partido`, `votos` or `circuito` column after renaming is not modelled. Every row already has those fields.
- Frames.NormalizeTable: raw headers that become the same label after `lower().strip()` or the renaming (for example "Comuna" and "comuna", or "partido" and "descripcion_candidatura") are not modelled. pandas then keeps two columns with one label. Selecting `partido`, `circuito` or the comuna source column gives a DataFrame, and `.str` raises at lines 75-82. The model treats each row as having one value per field and returns `Ok`.
- Frames.NormalizeTableSpec: its "fails exactly when" covers only the missing comuna source column. It does not cover the duplicate-label failure of lines 75-82 described above.
- App.PipelineErrors: its three stop conditions do not include the duplicate-label failure of lines 75-82 described above. Nor do they include the `KeyError` for a missing `partido`, `votos` or `circuito` column.
- The row order of `df_final` is not modelled, because it is a map from circuit to row. `geo_final` follows the feature order, as the left join from the geometry side does.
- `fillna` and the tooltip renames are modelled as values rather than in-place updates of `df_final`. The in-place normalisation of lines 69-91 is modelled with the `ResultFrame` class.
- Ordering.Unique: the contract says nothing about first-occurrence order. For the comuna options this does not matter, because they are sorted afterwards (line 167). For `comuna_por_circuito` (line 157) it fixes the order of a circuit's rows in `df_final` and `geo_final`. The model does not promise that order, only which rows there are.
- The map tooltip's `localize=True` number formatting is not modelled.
- The per-view formatters of lines 208-214 are unpacked into `formatear` at line 217 but never called. The tooltips format numbers themselves (`localize=True`). `Labels.FormatThousands` and `Labels.FormatSigned` model the integer formatting of lines 208 and 212 as written. The " votos" suffix and the float formatters of lines 210 and 214 are not modelled.
- Aggregate.PivotTooltip: when no 2025 row belongs to any tooltip party, pandas pivots an empty frame. The model gives an empty map and does not model pandas' result there. That case cannot arise on a run that gets past line 130. LA LIBERTAD AVANZA is a tooltip party, and without any of its rows the page has already stopped with the missing-LLA error (`App.PipelineErrors`). What the tooltip of line 200 does with a field that does not exist belongs to the interface, which is left out.
