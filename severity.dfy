/** The fixed severity vocabulary and its ranks (0 = most severe, 7 = least). */
module Severity {
  import opened GoStrings

  const Ranks: map<string, nat> := map[
    "EMERGENCY" := 0,
    "ALERT" := 1,
    "CRITICAL" := 2,
    "ERROR" := 3,
    "WARNING" := 4,
    "NOTICE" := 5,
    "INFO" := 6,
    "DEBUG" := 7
  ]

  /** The label that carries rank `r`: the table read backwards. */
  function Label(r: nat): (name: string)
    requires r < 8
    ensures name in Ranks && Ranks[name] == r
  {
    match r
    case 0 => "EMERGENCY"
    case 1 => "ALERT"
    case 2 => "CRITICAL"
    case 3 => "ERROR"
    case 4 => "WARNING"
    case 5 => "NOTICE"
    case 6 => "INFO"
    case 7 => "DEBUG"
  }

  /**
   * `severity[name]` in Go: the table's rank for a known label, and for any other
   * label the zero value of int, which is also the rank of EMERGENCY.
   */
  function Rank(name: string): (r: nat)
    ensures r < 8
    ensures name in Ranks ==> Label(r) == name
    ensures name !in Ranks ==> r == 0
  {
    if name in Ranks then Ranks[name] else 0
  }

  /** The value stored under the "severity" key for a given "severity_label". */
  function SeverityField(name: string): (s: string)
    ensures |s| == 1 && IsDigit(s[0]) && DecimalValue(s) == Rank(name)
  {
    DecimalRoundTrip(Rank(name));
    FormatDecimal(Rank(name))
  }

  /** The table is a bijection between the eight labels and the ranks 0..7. */
  lemma RankLabelBijection(name: string, r: nat)
    requires r < 8
    ensures Rank(Label(r)) == r
    ensures name in Ranks ==> Label(Rank(name)) == name
  {
  }

  /** Unknown labels, the empty one included, get rank "0", the same text as EMERGENCY. */
  lemma UnknownLabelDefaultsToZero(name: string)
    requires name !in Ranks
    ensures SeverityField(name) == "0" == SeverityField("EMERGENCY")
  {
  }

  /** Values documented for the common labels. */
  lemma KnownSeverities()
    ensures SeverityField("INFO") == "6"
    ensures SeverityField("WARNING") == "4"
    ensures SeverityField("EMERGENCY") == "0"
    ensures SeverityField("DEBUG") == "7"
    ensures SeverityField("ERROR") == "3"
  {
  }
}
