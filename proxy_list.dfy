/**
  ProxyAbstractListModel<T>: an ordered list of items behind a Qt list model.
  Every mutation of the list is bracketed by a begin/end notification naming
  a row range; the ghost log `events` keeps one entry per bracket.
 */
module ProxyList {

  /** One begin/end bracket, with the rows it names (both ends inclusive). */
  datatype Notification =
    | Insert(first: int, last: int)
    | Remove(first: int, last: int)
    | Reset

  /** Qt::DisplayRole, the only role the model answers. */
  const DisplayRole: int := 0

  /** What `data` looks at in a QModelIndex. */
  datatype ModelIndex = ModelIndex(valid: bool, row: int)

  /** The QVariant returned by `data`: empty, or one item of the list. */
  datatype Variant<T> = Empty | Value(item: T)

  /** The guard of removeRows: the whole range lies inside a list of `length` rows. */
  function RemoveAccepted(length: int, row: int, count: int): (ok: bool)
    ensures ok <==> 0 <= row && 0 <= count && row + count <= length
  {
    var limit := row + count - 1;
    !(row < 0 || count < 0 || limit >= length)
  }

  /** The list left once `count` rows starting at `row` are taken out. */
  function RemoveRange<T>(s: seq<T>, row: int, count: int): (r: seq<T>)
    requires RemoveAccepted(|s|, row, count)
    ensures |r| == |s| - count
    ensures forall k :: 0 <= k < row ==> r[k] == s[k]
    ensures forall k :: row <= k < |r| ==> r[k] == s[k + count]
  {
    s[..row] + s[row + count..]
  }

  /** Removing the rows just inserted at `row` gives back the list as it was:
      removeRows undoes add (row = |s|) and both prepends (row = 0). */
  lemma RemoveUndoesInsert<T>(s: seq<T>, row: int, inserted: seq<T>)
    requires 0 <= row <= |s|
    ensures RemoveAccepted(|s| + |inserted|, row, |inserted|)
    ensures RemoveRange(s[..row] + inserted + s[row..], row, |inserted|) == s
  {
  }

  /** The list obtained by prepending the items of `batch` one at a time, last item first. */
  function PrependEach<T>(batch: seq<T>, s: seq<T>): seq<T>
    decreases |batch|
  {
    if batch == [] then s
    else PrependEach(batch[..|batch| - 1], [batch[|batch| - 1]] + s)
  }

  /** prepend(items) is the same as prepending the items singly from the last
      to the first: the batch keeps its own order at the front of the list. */
  lemma {:induction false} PrependBatchIsPrependEach<T>(batch: seq<T>, s: seq<T>)
    ensures PrependEach(batch, s) == batch + s
    decreases |batch|
  {
    if batch != [] {
      var n := |batch| - 1;
      PrependBatchIsPrependEach(batch[..n], [batch[n]] + s);
      assert batch[..n] + ([batch[n]] + s) == batch + s;
    }
  }

  class ListModel<T> {
    /** mList */
    var items: seq<T>
    /** The notifications emitted so far, oldest first. */
    ghost var events: seq<Notification>

    constructor ()
      ensures items == [] && events == []
    {
      items := [];
      events := [];
    }

    /** rowCount: the number of rows is the length of the list. */
    function RowCount(): (n: int)
      reads this
      ensures n == |items|
    {
      |items|
    }

    /** data: the item at the index's row for the display role; empty for an
        invalid index, a row out of range, or any other role. */
    function Data(index: ModelIndex, role: int): (v: Variant<T>)
      reads this
      ensures v.Value? <==> index.valid && 0 <= index.row < |items| && role == DisplayRole
      ensures v.Value? ==> v.item == items[index.row]
    {
      var row := index.row;
      if !index.valid || row < 0 || row >= |items| then Empty
      else if role == DisplayRole then Value(items[row])
      else Empty
    }

    /** getAt: no bounds check, so the caller must pass a row of the list. */
    function GetAt(index: int): (x: T)
      reads this
      requires 0 <= index < |items|
      ensures x == items[index]
    {
      items[index]
    }

    /** add: append at the end, reporting an insert of the new last row. */
    method Add(item: T)
      modifies this
      ensures items == old(items) + [item]
      ensures events == old(events) + [Insert(|old(items)|, |old(items)|)]
    {
      var row := |items|;
      events := events + [Insert(row, row)];
      items := items + [item];
    }

    /** prepend(item): insert at row 0, reporting an insert of row 0. */
    method Prepend(item: T)
      modifies this
      ensures items == [item] + old(items)
      ensures events == old(events) + [Insert(0, 0)]
    {
      events := events + [Insert(0, 0)];
      items := [item] + items;
    }

    /** prepend(items): put the whole batch in front, in its own order,
        reporting an insert of rows 0 .. |batch| - 1. */
    method PrependBatch(batch: seq<T>)
      modifies this
      ensures items == batch + old(items)
      ensures items[..|batch|] == batch && items[|batch|..] == old(items)
      ensures events == old(events) + [Insert(0, |batch| - 1)]
    {
      events := events + [Insert(0, |batch| - 1)];
      var joined := batch + items;
      items := joined;
    }

    /** removeRows: all or nothing. A range that does not lie inside the list is
        refused with no change and no notification; otherwise the rows are taken
        out one by one at `row` under a single remove notification. */
    method RemoveRows(row: int, count: int) returns (ok: bool)
      modifies this
      ensures ok <==> RemoveAccepted(|old(items)|, row, count)
      ensures ok ==> items == RemoveRange(old(items), row, count)
      ensures ok ==> events == old(events) + [Remove(row, row + count - 1)]
      ensures !ok ==> items == old(items) && events == old(events)
    {
      var limit := row + count - 1;
      if row < 0 || count < 0 || limit >= |items| {
        return false;
      }
      events := events + [Remove(row, limit)];
      var i := 0;
      while i < count
        invariant 0 <= i <= count
        invariant items == old(items)[..row] + old(items)[row + i..]
        invariant events == old(events) + [Remove(row, limit)]
      {
        assert items[..row] == old(items)[..row];
        assert items[row + 1..] == old(items)[row + i + 1..];
        items := items[..row] + items[row + 1..];
        i := i + 1;
      }
      return true;
    }

    /** removeRow(r) is removeRows(r, 1). */
    method RemoveRow(row: int) returns (ok: bool)
      modifies this
      ensures ok <==> 0 <= row < |old(items)|
      ensures ok ==> items == old(items)[..row] + old(items)[row + 1..]
      ensures ok ==> events == old(events) + [Remove(row, row)]
      ensures !ok ==> items == old(items) && events == old(events)
    {
      ok := RemoveRows(row, 1);
    }

    /** resetData: empty the list under one reset notification. */
    method ResetData()
      modifies this
      ensures items == []
      ensures events == old(events) + [Reset]
    {
      events := events + [Reset];
      items := [];
    }

    /** The destructor resets the data before the model goes away. */
    method Destroy()
      modifies this
      ensures items == []
      ensures events == old(events) + [Reset]
    {
      ResetData();
    }
  }
}
