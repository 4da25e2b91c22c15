/**
 * The foreman page (src/pages/ForemanView.tsx): the work checklist, which a click toggles
 * item by item, its completed count and its progress percentage. Progress is a plain
 * division there (no rounding), so it is a `real` here.
 */
module ForemanView {
  import opened Wrappers
  import Seqs
  import Ratios

  datatype ChecklistItem = ChecklistItem(id: string, task: string, completed: bool)

  /** The `map` inside `toggleChecklist`: flip `completed` on every item with the given id. */
  function Toggled(items: seq<ChecklistItem>, id: string): (r: seq<ChecklistItem>)
    ensures |r| == |items|
    ensures forall i :: 0 <= i < |items| ==>
      r[i].id == items[i].id && r[i].task == items[i].task &&
      r[i].completed == (if items[i].id == id then !items[i].completed else items[i].completed)
  {
    if items == [] then []
    else
      var head := if items[0].id == id then items[0].(completed := !items[0].completed) else items[0];
      [head] + Toggled(items[1..], id)
  }

  /** Toggling the same id twice restores the list. */
  lemma ToggleTwiceRestores(items: seq<ChecklistItem>, id: string)
    ensures Toggled(Toggled(items, id), id) == items
  {
    var twice := Toggled(Toggled(items, id), id);
    assert forall i :: 0 <= i < |items| ==> twice[i] == items[i];
  }

  /** Items with other ids are left identical. */
  lemma ToggleLeavesOthers(items: seq<ChecklistItem>, id: string, i: nat)
    requires i < |items| && items[i].id != id
    ensures Toggled(items, id)[i] == items[i]
  {
  }

  /** An id no item has changes nothing. */
  lemma ToggleUnknownIdIsNoOp(items: seq<ChecklistItem>, id: string)
    requires forall i :: 0 <= i < |items| ==> items[i].id != id
    ensures Toggled(items, id) == items
  {
    var r := Toggled(items, id);
    assert forall i :: 0 <= i < |items| ==> r[i] == items[i];
  }

  predicate IsCompleted(item: ChecklistItem) {
    item.completed
  }

  /** `completedCount`: how many items are completed. */
  function CompletedCount(items: seq<ChecklistItem>): (n: nat)
    ensures n <= |items|
  {
    |Seqs.Filter(IsCompleted, items)|
  }

  /** Every item is complete exactly when the count reaches the length. */
  lemma {:induction false} AllCompletedIffFullCount(items: seq<ChecklistItem>)
    ensures CompletedCount(items) == |items| <==> forall i :: 0 <= i < |items| ==> items[i].completed
  {
    if items != [] {
      AllCompletedIffFullCount(items[1..]);
      assert forall i :: 1 <= i < |items| ==> items[i] == items[1..][i - 1];
    }
  }

  /**
   * Toggling the one item with a given id moves the completed count by exactly one: down
   * if it was completed, up otherwise.
   */
  lemma ToggleMovesCountByOne(items: seq<ChecklistItem>, id: string, k: nat)
    requires k < |items| && items[k].id == id
    requires forall i :: 0 <= i < |items| && i != k ==> items[i].id != id
    ensures CompletedCount(Toggled(items, id)) ==
      if items[k].completed then CompletedCount(items) - 1 else CompletedCount(items) + 1
  {
    var pre, mid, post := items[..k], [items[k]], items[k + 1..];
    assert items == pre + mid + post;
    assert forall i :: 0 <= i < |post| ==> post[i] == items[k + 1 + i];
    ToggleUnknownIdIsNoOp(pre, id);
    ToggleUnknownIdIsNoOp(post, id);
    ToggledConcat(pre + mid, post, id);
    ToggledConcat(pre, mid, id);
    var flipped := items[k].(completed := !items[k].completed);
    assert Toggled(mid, id) == [flipped];
    CountOfConcat(pre + [flipped], post);
    CountOfConcat(pre, [flipped]);
    CountOfConcat(pre + mid, post);
    CountOfConcat(pre, mid);
  }

  /** Toggling a concatenation toggles each part. */
  lemma {:induction false} ToggledConcat(a: seq<ChecklistItem>, b: seq<ChecklistItem>, id: string)
    ensures Toggled(a + b, id) == Toggled(a, id) + Toggled(b, id)
  {
    if a == [] {
      assert a + b == b;
    } else {
      assert (a + b)[0] == a[0];
      assert (a + b)[1..] == a[1..] + b;
      ToggledConcat(a[1..], b, id);
    }
  }

  lemma CountOfConcat(a: seq<ChecklistItem>, b: seq<ChecklistItem>)
    ensures CompletedCount(a + b) == CompletedCount(a) + CompletedCount(b)
  {
    Seqs.FilterConcat(IsCompleted, a, b);
  }

  /** `progress = completedCount / length * 100`; an empty checklist gives `NaN`, here `None`. */
  function Progress(items: seq<ChecklistItem>): (r: Option<real>)
    ensures r.Some? <==> |items| > 0
  {
    if |items| == 0 then None
    else Some(CompletedCount(items) as real / |items| as real * 100.0)
  }

  /** Progress lies in 0..100 and is 100 exactly when every item is complete. */
  lemma ProgressIsPercentage(items: seq<ChecklistItem>)
    requires |items| > 0
    ensures 0.0 <= Progress(items).value <= 100.0
    ensures Progress(items).value == 100.0 <==> forall i :: 0 <= i < |items| ==> items[i].completed
  {
    Ratios.PartOverWhole(CompletedCount(items), |items|);
    AllCompletedIffFullCount(items);
  }

  /** The checklist the page starts with. */
  function InitialChecklist(): seq<ChecklistItem> {
    [ ChecklistItem("1", "เตรียมอุปกรณ์", true),
      ChecklistItem("2", "วัดพื้นที่หน้างาน", true),
      ChecklistItem("3", "เตรียมพื้น", false),
      ChecklistItem("4", "เทคอนกรีต", false),
      ChecklistItem("5", "ตกแต่งพื้น", false),
      ChecklistItem("6", "ทำความสะอาด", false) ]
  }

  /** A list whose first two items are done and the rest not has a count of two. */
  lemma CountWithFirstTwoDone(items: seq<ChecklistItem>)
    requires |items| >= 2 && items[0].completed && items[1].completed
    requires forall i :: 2 <= i < |items| ==> !items[i].completed
    ensures CompletedCount(items) == 2
  {
    assert items == items[..2] + items[2..];
    Seqs.FilterConcat(IsCompleted, items[..2], items[2..]);
    Seqs.FilterKeepsAll(IsCompleted, items[..2]);
    Seqs.FilterKeepsNone(IsCompleted, items[2..]);
  }

  /** Six items, the first two done: two completed, progress one third. */
  lemma InitialChecklistState()
    ensures |InitialChecklist()| == 6
    ensures InitialChecklist()[0].completed && InitialChecklist()[1].completed
    ensures forall i :: 2 <= i < 6 ==> !InitialChecklist()[i].completed
    ensures CompletedCount(InitialChecklist()) == 2
    ensures Progress(InitialChecklist()) == Some(200.0 / 6.0)
  {
    CountWithFirstTwoDone(InitialChecklist());
  }

  /** The page's checklist state. */
  class Checklist {
    var items: seq<ChecklistItem>

    constructor ()
      ensures items == InitialChecklist()
    {
      items := InitialChecklist();
    }

    /** `toggleChecklist`: replace the list by its toggled copy. */
    method Toggle(id: string)
      modifies this
      ensures items == Toggled(old(items), id)
    {
      items := Toggled(items, id);
    }
  }
}
