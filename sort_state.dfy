/**
 The table's sort state in its two shapes: the application's list of sort
 descriptors (the `sorting` prop) and the grid widget's list of column
 sorts, and the way a sorting change reported by the widget is resolved.
 */
module SortState {

  /** The direction of one application sort descriptor. */
  datatype Direction = Asc | Desc

  /** One application sort descriptor; its position in the list is its priority. */
  datatype SortDescriptor = SortDescriptor(field: string, direction: Direction)

  /** One entry of the grid widget's sorting state. */
  datatype ColumnSort = ColumnSort(id: string, desc: bool)

  /**
   What the widget hands to its sorting-change callback: either the new
   sorting state itself or an updater to be applied to the current one.
   */
  datatype SortingChange =
    | NewState(state: seq<ColumnSort>)
    | Updater(update: seq<ColumnSort> -> seq<ColumnSort>)

  /** The widget's sorting state for an application sort list: same length, same order. */
  function ToSortingState(sorting: seq<SortDescriptor>): (state: seq<ColumnSort>)
    ensures |state| == |sorting|
    ensures forall i :: 0 <= i < |sorting| ==>
      state[i].id == sorting[i].field && (state[i].desc <==> sorting[i].direction == Desc)
  {
    if sorting == [] then []
    else [ColumnSort(sorting[0].field, sorting[0].direction == Desc)] + ToSortingState(sorting[1..])
  }

  /** The application sort list a widget sorting state stands for: same length, same order. */
  function FromSortingState(state: seq<ColumnSort>): (sorting: seq<SortDescriptor>)
  {
    if state == [] then []
    else [SortDescriptor(state[0].id, if state[0].desc then Desc else Asc)] + FromSortingState(state[1..])
  }

  /** Each field is sorted on at most once. */
  ghost predicate DistinctFields(sorting: seq<SortDescriptor>)
  {
    forall i, j :: 0 <= i < j < |sorting| ==> sorting[i].field != sorting[j].field
  }

  /** Each column id appears at most once. */
  ghost predicate DistinctIds(state: seq<ColumnSort>)
  {
    forall i, j :: 0 <= i < j < |state| ==> state[i].id != state[j].id
  }

  /** The mapping keeps the one-entry-per-field invariant, in both directions. */
  lemma DistinctFieldsIffDistinctIds(sorting: seq<SortDescriptor>)
    ensures DistinctFields(sorting) <==> DistinctIds(ToSortingState(sorting))
  {
    var state := ToSortingState(sorting);
    forall i, j | 0 <= i < j < |sorting|
      ensures sorting[i].field == sorting[j].field <==> state[i].id == state[j].id
    {
    }
  }

  /** Mapping a concatenation maps each part in place: priority order is kept. */
  lemma {:induction false} ToSortingStateAppend(front: seq<SortDescriptor>, back: seq<SortDescriptor>)
    ensures ToSortingState(front + back) == ToSortingState(front) + ToSortingState(back)
  {
    if front != [] {
      assert (front + back)[1..] == front[1..] + back;
      ToSortingStateAppend(front[1..], back);
    }
  }

  /** Reading a sort list's widget state back gives the sort list again. */
  lemma {:induction false} FromToSortingState(sorting: seq<SortDescriptor>)
    ensures FromSortingState(ToSortingState(sorting)) == sorting
  {
    if sorting != [] {
      var state := ToSortingState(sorting);
      assert state[1..] == ToSortingState(sorting[1..]);
      FromToSortingState(sorting[1..]);
      assert sorting == [sorting[0]] + sorting[1..];
    }
  }

  /** No information is lost: two sort lists with the same widget state are equal. */
  lemma ToSortingStateInjective(a: seq<SortDescriptor>, b: seq<SortDescriptor>)
    requires ToSortingState(a) == ToSortingState(b)
    ensures a == b
  {
    FromToSortingState(a);
    FromToSortingState(b);
  }

  /** A two-column sort keeps its order and sets `desc` only on the descending column. */
  lemma TwoColumnExample()
    ensures ToSortingState([SortDescriptor("name", Asc), SortDescriptor("age", Desc)])
         == [ColumnSort("name", false), ColumnSort("age", true)]
  {
  }
}
