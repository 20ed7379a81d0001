/**
 * The data behind the funding pie chart: two labelled segments derived from a
 * project's hard and soft caps.
 */
module Chart {
  import opened Wrappers
  import opened BlockHandler

  /** One pie-chart entry: its title, value and colour. */
  datatype Segment = Segment(title: string, value: int, color: string)

  /**
   * The `data` array built by `render`, or None when there is no project
   * (then `render` returns nothing). Funded is `hardCap - softCap`, unclamped.
   */
  function ChartData(project: Option<ProjectRecord>): (r: Option<seq<Segment>>)
    ensures r.None? <==> project.None?
    ensures r.Some? ==> |r.value| == 2 && r.value[0].title == "Goal" && r.value[1].title == "Funded"
    ensures r.Some? ==> r.value[0].value == project.value.hardCap
    ensures r.Some? ==> r.value[1].value + project.value.softCap == r.value[0].value
  {
    match project
    case None => None
    case Some(p) =>
      Some([Segment("Goal", p.hardCap, "#000000"),
            Segment("Funded", p.hardCap - p.softCap, "#5850EC")])
  }

  /** The `label` callback: each slice is labelled with its entry's title. */
  function SliceLabel(entry: Segment): string
  {
    entry.title
  }

  /** The labels of all slices, in data order. */
  function Labels(data: seq<Segment>): (r: seq<string>)
    ensures |r| == |data|
    ensures forall i :: 0 <= i < |data| ==> r[i] == SliceLabel(data[i])
  {
    if |data| == 0 then [] else [SliceLabel(data[0])] + Labels(data[1..])
  }

  /** A project's chart is labelled "Goal" then "Funded". */
  lemma ChartLabels(p: ProjectRecord)
    ensures Labels(ChartData(Some(p)).value) == ["Goal", "Funded"]
  {
  }

  /** The Funded segment is negative exactly when the soft cap exceeds the hard cap. */
  lemma FundedNegativeIff(p: ProjectRecord)
    ensures ChartData(Some(p)).value[1].value < 0 <==> p.softCap > p.hardCap
  {
  }

  /** The Funded segment equals the Goal segment exactly when the soft cap is zero. */
  lemma FundedEqualsGoalIff(p: ProjectRecord)
    ensures var d := ChartData(Some(p)).value; d[1].value == d[0].value <==> p.softCap == 0
  {
  }

  /** Caps 100 and 40 give segment values 100 and 60. */
  lemma ChartExample(p: ProjectRecord)
    requires p.hardCap == 100 && p.softCap == 40
    ensures var d := ChartData(Some(p)).value; d[0].value == 100 && d[1].value == 60
  {
  }

  /** The chart of a freshly created record reflects the caps the creator filled in. */
  lemma ChartOfNewRecord(form: ProjectForm, startMs: int, endMs: int, createdAt: int, id: string)
    ensures var d := ChartData(Some(NewRecord(form, startMs, endMs, createdAt, id))).value;
      d[0].value == form.hardCap && d[1].value == form.hardCap - form.softCap
  {
  }
}
