/** Line-item editing in `src/components/receipt/ReceiptDataEditor.tsx`: the editor keeps
    a working copy of the extracted data and edits its `items` list by index. */
module ItemEditor {
  import opened Wrappers
  import opened ReceiptData
  import opened Text

  /** The three edits the form makes on an item, plus the remaining field of the item. */
  datatype ItemEdit =
    | SetDescription(description: string)
    | SetQuantity(quantity: real)
    | SetPrice(price: real)
    | SetConfidence(confidence: real)

  /** `{ ...item, [field]: value }` */
  function ApplyEdit(item: LineItem, edit: ItemEdit): LineItem {
    match edit
    case SetDescription(d) => item.(description := d)
    case SetQuantity(q) => item.(quantity := q)
    case SetPrice(p) => item.(price := p)
    case SetConfidence(c) => item.(confidence := c)
  }

  /** The item appended by "+ Add Item". */
  const BlankItem: LineItem := LineItem("", 1.0, 0.0, 100.0)

  /** `items.filter((_, i) => i !== index)` */
  function WithoutIndex(items: seq<LineItem>, index: int): seq<LineItem>
    decreases |items|
  {
    if items == [] then []
    else (if index == 0 then [] else [items[0]]) + WithoutIndex(items[1..], index - 1)
  }

  /** `updateItem`'s new data: one field of one item replaced, nothing else. */
  function UpdateItemData(data: ProcessedData, index: int, edit: ItemEdit): (r: ProcessedData)
    requires 0 <= index < |data.items|
    ensures r == data.(items := r.items)
    ensures |r.items| == |data.items|
    ensures forall j :: 0 <= j < |r.items| && j != index ==> r.items[j] == data.items[j]
    ensures r.items[index] == ApplyEdit(data.items[index], edit)
  {
    data.(items := data.items[index := ApplyEdit(data.items[index], edit)])
  }

  /** `addItem`'s new data: one blank item appended, nothing else. */
  function AddItemData(data: ProcessedData): (r: ProcessedData)
    ensures r == data.(items := r.items)
    ensures r.items == data.items + [BlankItem]
  {
    data.(items := data.items + [BlankItem])
  }

  /** `removeItem`'s new data: the item list filtered by position, nothing else. */
  function RemoveItemData(data: ProcessedData, index: int): (r: ProcessedData)
    ensures r == data.(items := r.items)
    ensures 0 <= index < |data.items| ==> r.items == data.items[..index] + data.items[index + 1..]
    ensures !(0 <= index < |data.items|) ==> r.items == data.items
  {
    WithoutIndexInRange(data.items, index);
    WithoutIndexOutOfRange(data.items, index);
    data.(items := WithoutIndex(data.items, index))
  }

  /** Filtering out an in-range position removes exactly that item and keeps the order. */
  lemma {:induction false} WithoutIndexInRange(items: seq<LineItem>, index: int)
    ensures 0 <= index < |items| ==> WithoutIndex(items, index) == items[..index] + items[index + 1..]
    decreases |items|
  {
    if items != [] && 0 <= index < |items| {
      if index == 0 {
        assert WithoutIndex(items, 0) == WithoutIndex(items[1..], -1);
        WithoutIndexOutOfRange(items[1..], -1);
      } else {
        WithoutIndexInRange(items[1..], index - 1);
        assert items[1..][..index - 1] == items[1..index];
        assert items[1..][index..] == items[index + 1..];
        assert [items[0]] + items[1..index] == items[..index];
      }
    }
  }

  /** Filtering out a position no item has changes nothing. */
  lemma {:induction false} WithoutIndexOutOfRange(items: seq<LineItem>, index: int)
    ensures !(0 <= index < |items|) ==> WithoutIndex(items, index) == items
    decreases |items|
  {
    if items != [] && !(0 <= index < |items|) {
      WithoutIndexOutOfRange(items[1..], index - 1);
      assert [items[0]] + items[1..] == items;
    }
  }

  /** Removing the item just added gives back the items as they were. */
  lemma RemoveUndoesAdd(data: ProcessedData)
    ensures RemoveItemData(AddItemData(data), |data.items|) == data
  {
    var added := AddItemData(data).items;
    assert added[..|data.items|] == data.items;
    assert added[|data.items| + 1..] == [];
  }

  /** The value stored for a quantity entry: `parseInt(text) || 0`. No radix is passed, so
      a "0x" prefix would be read as hexadecimal; a number field never yields one, and the
      text is read in base 10. */
  function QuantityFromInput(text: string): (q: real)
    ensures ParseInt(text).None? ==> q == 0.0
  {
    var parsed := ParseInt(text);
    if parsed.Some? then parsed.value as real else 0.0
  }

  /** The value stored for a price entry: `parseFloat(text) || 0`. */
  function PriceFromInput(text: string): (p: real)
    ensures ParseFloat(text).None? ==> p == 0.0
  {
    OrZero(ParseFloat(text))
  }

  /** A whole-number entry is stored as that number, in either field. */
  lemma WholeNumberEntries(n: nat)
    ensures QuantityFromInput(NatToString(n)) == n as real
    ensures PriceFromInput(NatToString(n)) == n as real
  {
    ParseIntOfIntToString(n);
    ParseFloatOfNatToString(n);
  }

  /** An entry that does not parse (the empty field, say) is stored as 0. */
  lemma EmptyEntryIsZero()
    ensures QuantityFromInput("") == 0.0 && PriceFromInput("") == 0.0
  {
  }

  /** The editor's working copy. */
  class ReceiptDataEditor {
    var editedData: ProcessedData

    constructor(data: ProcessedData)
      ensures editedData == data
    {
      editedData := data;
    }

    /** `updateItem(index, field, value)`: a copy of the items with slot `index` replaced. */
    method UpdateItem(index: int, edit: ItemEdit)
      requires 0 <= index < |editedData.items|
      modifies this
      ensures editedData == UpdateItemData(old(editedData), index, edit)
      ensures editedData == old(editedData).(items := editedData.items)
      ensures |editedData.items| == |old(editedData.items)|
      ensures forall j :: 0 <= j < |editedData.items| && j != index ==> editedData.items[j] == old(editedData.items[j])
      ensures editedData.items[index] == ApplyEdit(old(editedData.items[index]), edit)
    {
      var newItems := editedData.items;
      newItems := newItems[index := ApplyEdit(newItems[index], edit)];
      editedData := editedData.(items := newItems);
    }

    /** `addItem` */
    method AddItem()
      modifies this
      ensures editedData == AddItemData(old(editedData))
      ensures editedData == old(editedData).(items := old(editedData.items) + [BlankItem])
    {
      editedData := editedData.(items := editedData.items + [BlankItem]);
    }

    /** `removeItem(index)` */
    method RemoveItem(index: int)
      modifies this
      ensures editedData == RemoveItemData(old(editedData), index)
      ensures editedData == old(editedData).(items := editedData.items)
      ensures 0 <= index < |old(editedData.items)| ==>
        editedData.items == old(editedData.items)[..index] + old(editedData.items)[index + 1..]
      ensures !(0 <= index < |old(editedData.items)|) ==> editedData.items == old(editedData.items)
    {
      editedData := RemoveItemData(editedData, index);
    }
  }
}
