/** The work-experience form: reordering and removing jobs, editing one
    field of one job, and the per-job list of highlights. Every edit copies
    the job list and writes into one job of the copy. */
module WorkEditor {
  import opened CvTypes
  import opened ListUtils

  datatype WorkField = Company | Position | StartDate | EndDate | Summary

  /** A text field's value; only the end date can be absent. */
  function WorkValue(w: Work, f: WorkField): Option<string> {
    match f
    case Company => Some(w.company)
    case Position => Some(w.position)
    case StartDate => Some(w.startDate)
    case EndDate => w.endDate
    case Summary => Some(w.summary)
  }

  /** Assigning a text field; an assigned end date is present, even when
      empty. The highlights are not touched. */
  function SetWorkField(w: Work, f: WorkField, v: string): (r: Work)
    ensures WorkValue(r, f) == Some(v)
    ensures forall g :: g != f ==> WorkValue(r, g) == WorkValue(w, g)
    ensures r.highlights == w.highlights
  {
    match f
    case Company => w.(company := v)
    case Position => w.(position := v)
    case StartDate => w.(startDate := v)
    case EndDate => w.(endDate := Some(v))
    case Summary => w.(summary := v)
  }

  /** A job is determined by its text fields and its highlights. */
  lemma WorkFieldsDetermineWork(a: Work, b: Work)
    requires forall f :: WorkValue(a, f) == WorkValue(b, f)
    requires a.highlights == b.highlights
    ensures a == b
  {
    assert WorkValue(a, Company) == WorkValue(b, Company);
    assert WorkValue(a, Position) == WorkValue(b, Position);
    assert WorkValue(a, StartDate) == WorkValue(b, StartDate);
    assert WorkValue(a, EndDate) == WorkValue(b, EndDate);
    assert WorkValue(a, Summary) == WorkValue(b, Summary);
  }

  /** Typing back a field's present value leaves the job as it was. */
  lemma SetWorkFieldSameValue(w: Work, f: WorkField)
    requires WorkValue(w, f).Some?
    ensures SetWorkField(w, f, WorkValue(w, f).value) == w
  {
    WorkFieldsDetermineWork(SetWorkField(w, f, WorkValue(w, f).value), w);
  }

  /** The job text inputs: `newData[index].field = value` on a copy. */
  method EditWork(data: seq<Work>, index: nat, f: WorkField, v: string) returns (r: seq<Work>)
    requires index < |data|
    ensures |r| == |data|
    ensures WorkValue(r[index], f) == Some(v)
    ensures forall g :: g != f ==> WorkValue(r[index], g) == WorkValue(data[index], g)
    ensures r[index].highlights == data[index].highlights
    ensures forall j :: 0 <= j < |data| && j != index ==> r[j] == data[j]
  {
    r := ReplaceAt(data, index, SetWorkField(data[index], f, v));
  }

  /** The highlight inputs: `newData[index].highlights[h] = value`. */
  method EditHighlight(data: seq<Work>, index: nat, h: nat, v: string) returns (r: seq<Work>)
    requires index < |data| && h < |data[index].highlights|
    ensures |r| == |data|
    ensures |r[index].highlights| == |data[index].highlights| && r[index].highlights[h] == v
    ensures forall k :: 0 <= k < |data[index].highlights| && k != h ==> r[index].highlights[k] == data[index].highlights[k]
    ensures forall f :: WorkValue(r[index], f) == WorkValue(data[index], f)
    ensures forall j :: 0 <= j < |data| && j != index ==> r[j] == data[j]
  {
    var highlights := ReplaceAt(data[index].highlights, h, v);
    r := ReplaceAt(data, index, data[index].(highlights := highlights));
  }

  /** `addHighlight`: an empty highlight at the end of job `index`'s list. */
  method AddHighlight(data: seq<Work>, index: nat) returns (r: seq<Work>)
    requires index < |data|
    ensures |r| == |data|
    ensures |r[index].highlights| == |data[index].highlights| + 1
    ensures r[index].highlights[..|data[index].highlights|] == data[index].highlights
    ensures r[index].highlights[|data[index].highlights|] == ""
    ensures forall f :: WorkValue(r[index], f) == WorkValue(data[index], f)
    ensures forall j :: 0 <= j < |data| && j != index ==> r[j] == data[j]
  {
    r := ReplaceAt(data, index, data[index].(highlights := data[index].highlights + [""]));
  }

  /** `removeHighlight`: highlight `h` of job `index` is dropped. */
  method RemoveHighlight(data: seq<Work>, index: nat, h: int) returns (r: seq<Work>)
    requires index < |data|
    ensures |r| == |data|
    ensures r[index].highlights == RemoveItem(data[index].highlights, h)
    ensures 0 <= h < |data[index].highlights| ==> |r[index].highlights| == |data[index].highlights| - 1
    ensures forall f :: WorkValue(r[index], f) == WorkValue(data[index], f)
    ensures forall j :: 0 <= j < |data| && j != index ==> r[j] == data[j]
  {
    r := ReplaceAt(data, index, data[index].(highlights := RemoveItem(data[index].highlights, h)));
  }

  /** `moveHighlightUp`: highlight `h` of job `index` swaps with the one
      before it; the first one stays. */
  method MoveHighlightUp(data: seq<Work>, index: nat, h: nat) returns (r: seq<Work>)
    requires index < |data| && h < |data[index].highlights|
    ensures |r| == |data|
    ensures r[index].highlights == MoveItemUp(data[index].highlights, h)
    ensures multiset(r[index].highlights) == multiset(data[index].highlights)
    ensures forall f :: WorkValue(r[index], f) == WorkValue(data[index], f)
    ensures forall j :: 0 <= j < |data| && j != index ==> r[j] == data[j]
  {
    r := ReplaceAt(data, index, data[index].(highlights := MoveItemUp(data[index].highlights, h)));
  }

  /** `moveHighlightDown`: highlight `h` of job `index` swaps with the one
      after it; the last one stays. */
  method MoveHighlightDown(data: seq<Work>, index: nat, h: nat) returns (r: seq<Work>)
    requires index < |data| && h < |data[index].highlights|
    ensures |r| == |data|
    ensures r[index].highlights == MoveItemDown(data[index].highlights, h)
    ensures multiset(r[index].highlights) == multiset(data[index].highlights)
    ensures forall f :: WorkValue(r[index], f) == WorkValue(data[index], f)
    ensures forall j :: 0 <= j < |data| && j != index ==> r[j] == data[j]
  {
    r := ReplaceAt(data, index, data[index].(highlights := MoveItemDown(data[index].highlights, h)));
  }

  /** `removeWork`, `moveWorkUp` and `moveWorkDown` on a valid index: the
      first drops exactly that job, the other two keep every job, and moving
      a job down then back up restores the list. */
  lemma WorkListOperations(data: seq<Work>, index: nat)
    requires index < |data|
    ensures |RemoveItem(data, index)| == |data| - 1
    ensures multiset(RemoveItem(data, index)) + multiset{data[index]} == multiset(data)
    ensures multiset(MoveItemUp(data, index)) == multiset(data)
    ensures multiset(MoveItemDown(data, index)) == multiset(data)
    ensures index + 1 < |data| ==> MoveItemUp(MoveItemDown(data, index), index + 1) == data
  {
    RemoveItemDropsOne(data, index);
    if index + 1 < |data| {
      UpUndoesDown(data, index);
    }
  }
}
