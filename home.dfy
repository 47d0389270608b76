/**
 * The dashboard home page's pure helpers: how many months a chart range
 * shows, the labels and values cut to that many, and the tag colour of an
 * order status.
 */
module Home {

  /** `rangeMap`: the chart ranges the select offers and the number of points each shows. */
  const RangeMap: map<string, nat> := map["7" := 7, "30" := 6, "90" := 9, "365" := 12]

  /** `rangeMap[range] || 6`: a range outside the table shows 6 points. */
  function RangeCount(range: string): (n: nat)
    ensures range in RangeMap ==> n == RangeMap[range]
    ensures range !in RangeMap ==> n == 6
    ensures n == 6 || n == 7 || n == 9 || n == 12
  {
    if range in RangeMap && RangeMap[range] != 0 then RangeMap[range] else 6
  }

  /** `xs.slice(0, count)`. */
  function Take<T>(xs: seq<T>, count: nat): (r: seq<T>)
    ensures |r| == if count < |xs| then count else |xs|
    ensures r == xs[..|r|]
  {
    if count < |xs| then xs[..count] else xs
  }

  /** `getMonthsForRange`: the first months, as many as the range shows or as there are. */
  function GetMonthsForRange(range: string, months: seq<string>): (r: seq<string>)
    ensures |r| == if RangeCount(range) < |months| then RangeCount(range) else |months|
    ensures r == months[..|r|]
  {
    Take(months, RangeCount(range))
  }

  /** `getDataForRange`: the first values, by the same table. */
  function GetDataForRange(range: string, data: seq<int>): (r: seq<int>)
    ensures |r| == if RangeCount(range) < |data| then RangeCount(range) else |data|
    ensures r == data[..|r|]
  {
    Take(data, RangeCount(range))
  }

  /** Labels and values of equal length stay of equal length for every range. */
  lemma LabelsMatchData(range: string, months: seq<string>, data: seq<int>)
    requires |months| == |data|
    ensures |GetMonthsForRange(range, months)| == |GetDataForRange(range, data)|
  {
  }

  const Success: string := "success"
  const Info: string := "info"
  const Warn: string := "warn"
  const Secondary: string := "secondary"

  /** `getStatusSeverity`: a tag colour per order status. */
  function GetStatusSeverity(status: string): (s: string)
    ensures s == Success <==> status == "Completed"
    ensures s == Info <==> status == "Processing"
    ensures s == Warn <==> status == "Pending"
    ensures s == Secondary <==> status != "Completed" && status != "Processing" && status != "Pending"
  {
    match status
    case "Completed" => Success
    case "Processing" => Info
    case "Pending" => Warn
    case _ => Secondary
  }
}
