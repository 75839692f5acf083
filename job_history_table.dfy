/** The job history table (frontend/src/components/JobHistoryTable.tsx):
    one row per job with a coloured status, the start of the input and the
    output or the status; placeholder rows while loading and a single
    empty-state row when there are no jobs. The relative submission time
    is presentation and is left out. */
module JobHistoryTable {
  import opened Common
  import opened Models
  import opened Schemas

  const PreviewLength := 50

  /** The input cell: the first 50 characters, followed by "..." exactly
      when the text is longer. */
  function Truncate(s: string): (r: string)
    ensures |s| <= PreviewLength ==> r == s
    ensures |s| > PreviewLength ==> |r| == PreviewLength + 3
                                    && r[..PreviewLength] == s[..PreviewLength]
                                    && r[PreviewLength..] == "..."
  {
    if |s| > PreviewLength then s[..PreviewLength] + "..." else s
  }

  datatype Colour = Green | Red | Yellow

  /** Green for completed, red for failed, yellow for anything else. */
  function StatusColour(status: string): (c: Colour)
    ensures c == Green <==> status == "completed"
    ensures c == Red <==> status == "failed"
  {
    if status == "completed" then Green else if status == "failed" then Red else Yellow
  }

  /** The output cell shows the output text, or the status in its place. */
  datatype OutputCell = Output(text: string) | StatusInstead(status: string)

  function OutputCellOf(j: JobRead): (c: OutputCell)
    ensures c.Output? <==> j.status == Completed && Truthy(j.outputText)
    ensures c.Output? ==> c.text == j.outputText.value
    ensures c.StatusInstead? ==> c.status == StatusName(j.status)
  {
    if StatusName(j.status) == "completed" && Truthy(j.outputText) then Output(j.outputText.value)
    else StatusInstead(StatusName(j.status))
  }

  datatype Row =
    | Placeholder
    | EmptyState
    | JobRow(id: int, status: string, colour: Colour, input: string, output: OutputCell)

  function RowOf(j: JobRead): Row {
    JobRow(j.id, StatusName(j.status), StatusColour(StatusName(j.status)),
           Truncate(j.inputText), OutputCellOf(j))
  }

  function JobRows(jobs: seq<JobRead>): (r: seq<Row>)
    ensures |r| == |jobs|
    ensures forall k :: 0 <= k < |r| ==> r[k] == RowOf(jobs[k])
  {
    if jobs == [] then [] else [RowOf(jobs[0])] + JobRows(jobs[1..])
  }

  /** The table body: three placeholders and nothing else while loading;
      otherwise the single empty-state row for no jobs, else one row per
      job in the order given. */
  function Rows(jobs: seq<JobRead>, isLoading: bool): (r: seq<Row>)
    ensures isLoading ==> r == [Placeholder, Placeholder, Placeholder]
    ensures !isLoading && jobs == [] ==> r == [EmptyState]
    ensures !isLoading && jobs != [] ==> r == JobRows(jobs)
    ensures !isLoading && jobs != [] ==>
              && |r| == |jobs|
              && forall k :: 0 <= k < |r| ==> r[k].JobRow? && r[k].id == jobs[k].id
                                              && r[k].input == Truncate(jobs[k].inputText)
    ensures EmptyState in r <==> !isLoading && jobs == []
  {
    if isLoading then [Placeholder, Placeholder, Placeholder]
    else if jobs == [] then [EmptyState]
    else JobRows(jobs)
  }
}
