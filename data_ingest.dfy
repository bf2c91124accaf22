/**
 * The training-data validator (ml/data_ingest.py): the file must exist, carry
 * every required column and hold at least 50 rows. Reading the CSV is left to
 * the caller, which passes whether the file exists, its header and its row count.
 */
module DataIngest {
  import opened Wrappers
  import opened Seqs

  const REQUIRED_COLUMNS: seq<string> := [
    "Year", "Coal_Production_Tons", "Energy_Consumption_MWh", "Emission_Factor_kgCO2_perTon",
    "Methane_Emissions_tons", "Other_GHG_Emissions_tons", "Total_Emissions_tCO2e"]

  const MIN_ROWS: nat := 50

  /** The error `validate_csv` raises. */
  datatype CsvError = NotFound | MissingColumns(columns: seq<string>) | TooSmall

  /** `[c for c in REQUIRED_COLUMNS if c not in df.columns]`. */
  function Missing(columns: seq<string>): (m: seq<string>)
    ensures forall c :: c in m <==> c in REQUIRED_COLUMNS && c !in columns
    ensures IsSubsequence(m, REQUIRED_COLUMNS)
    ensures m == [] <==> forall c :: c in REQUIRED_COLUMNS ==> c in columns
  {
    var m := Filter(REQUIRED_COLUMNS, c => c !in columns);
    FilterIsSubsequence(REQUIRED_COLUMNS, c => c !in columns);
    forall c | c in REQUIRED_COLUMNS && c !in columns
      ensures c in m
    {
      FilterComplete(REQUIRED_COLUMNS, c => c !in columns, c);
    }
    m
  }

  /** `validate_csv`: None when the file passes; otherwise the first check that fails. */
  function ValidateCsv(fileExists: bool, columns: seq<string>, rowCount: nat): (r: Option<CsvError>)
    ensures r.None? <==> fileExists && (forall c :: c in REQUIRED_COLUMNS ==> c in columns) && rowCount >= MIN_ROWS
    ensures !fileExists <==> r == Some(NotFound)
    ensures r.Some? && r.value.MissingColumns? <==> fileExists && Missing(columns) != []
    ensures r.Some? && r.value.MissingColumns? ==> r.value.columns == Missing(columns)
    ensures r == Some(TooSmall) <==>
              fileExists && (forall c :: c in REQUIRED_COLUMNS ==> c in columns) && rowCount < MIN_ROWS
  {
    if !fileExists then Some(NotFound)
    else
      var missing := Missing(columns);
      if missing != [] then Some(MissingColumns(missing))
      else if rowCount < MIN_ROWS then Some(TooSmall)
      else None
  }

  /** A file with absent columns and too few rows is reported for its columns, not its size. */
  lemma ColumnCheckFirst(columns: seq<string>, rowCount: nat)
    requires exists c :: c in REQUIRED_COLUMNS && c !in columns
    requires rowCount < MIN_ROWS
    ensures ValidateCsv(true, columns, rowCount) == Some(MissingColumns(Missing(columns)))
  {
  }
}
