/** The upload store of `src/store/receipt.ts`: the list of receipts being uploaded and
    processed, and the six actions that replace it. */
module UploadStore {
  import opened Wrappers
  import opened UploadConfig
  import opened ReceiptData

  /** An upload in progress. `preview` is the object URL of the local file. */
  datatype Receipt = Receipt(
    id: string,
    file: File,
    preview: string,
    status: UploadStatus,
    progress: real,
    error: Option<string>,
    compressedFile: Option<File>,
    uploadedUrl: Option<string>,
    backendReceiptId: Option<string>,
    processedData: Option<ProcessedData>)

  /** One property of a `Partial<Receipt>`: left out (`Keep`) or given (`Put`). For an
      optional property `Put(None)` is an explicit `undefined`, which a spread copies. */
  datatype Patch<T> = Keep | Put(value: T)

  function Apply<T>(p: Patch<T>, v: T): T {
    if p.Put? then p.value else v
  }

  datatype ReceiptPatch = ReceiptPatch(
    id: Patch<string>,
    file: Patch<File>,
    preview: Patch<string>,
    status: Patch<UploadStatus>,
    progress: Patch<real>,
    error: Patch<Option<string>>,
    compressedFile: Patch<Option<File>>,
    uploadedUrl: Patch<Option<string>>,
    backendReceiptId: Patch<Option<string>>,
    processedData: Patch<Option<ProcessedData>>)

  /** `{ ...receipt, ...updates }`: every given property wins, every other is kept. */
  function Merge(r: Receipt, p: ReceiptPatch): Receipt {
    Receipt(
      Apply(p.id, r.id),
      Apply(p.file, r.file),
      Apply(p.preview, r.preview),
      Apply(p.status, r.status),
      Apply(p.progress, r.progress),
      Apply(p.error, r.error),
      Apply(p.compressedFile, r.compressedFile),
      Apply(p.uploadedUrl, r.uploadedUrl),
      Apply(p.backendReceiptId, r.backendReceiptId),
      Apply(p.processedData, r.processedData))
  }

  /** The patch that sets the extracted data and the `processed` status. */
  function ProcessedPatch(data: ProcessedData): ReceiptPatch {
    ReceiptPatch(Keep, Keep, Keep, Put(Processed), Keep, Keep, Keep, Keep, Keep, Put(Some(data)))
  }

  /** `{ ...receipt, processedData: data, status: 'processed' }` */
  function WithProcessedData(r: Receipt, data: ProcessedData): Receipt {
    r.(processedData := Some(data), status := Processed)
  }

  /** The number of entries carrying `id`. */
  function CountId(rs: seq<Receipt>, id: string): nat {
    if rs == [] then 0 else (if rs[0].id == id then 1 else 0) + CountId(rs[1..], id)
  }

  predicate HasId(rs: seq<Receipt>, id: string) {
    exists i :: 0 <= i < |rs| && rs[i].id == id
  }

  /** `receipts.map(r => r.id === id ? f(r) : r)` */
  function MapWhere(rs: seq<Receipt>, id: string, f: Receipt -> Receipt): seq<Receipt> {
    if rs == [] then []
    else [if rs[0].id == id then f(rs[0]) else rs[0]] + MapWhere(rs[1..], id, f)
  }

  /** The new list of `updateReceipt(id, updates)`. */
  function UpdateMatching(rs: seq<Receipt>, id: string, p: ReceiptPatch): seq<Receipt> {
    MapWhere(rs, id, r => Merge(r, p))
  }

  /** The new list of `setProcessedData(id, data)`. */
  function SetProcessedMatching(rs: seq<Receipt>, id: string, data: ProcessedData): seq<Receipt> {
    MapWhere(rs, id, r => WithProcessedData(r, data))
  }

  /** The new list of `removeReceipt(id)`: `receipts.filter(r => r.id !== id)`. */
  function RemoveMatching(rs: seq<Receipt>, id: string): seq<Receipt> {
    if rs == [] then []
    else (if rs[0].id == id then [] else [rs[0]]) + RemoveMatching(rs[1..], id)
  }

  /** Mapping keeps the length and order, applies `f` exactly to the entries carrying `id`
      and leaves every other entry as it was. */
  lemma {:induction false} MapWhereAt(rs: seq<Receipt>, id: string, f: Receipt -> Receipt, i: int)
    requires 0 <= i < |rs|
    ensures |MapWhere(rs, id, f)| == |rs|
    ensures MapWhere(rs, id, f)[i] == if rs[i].id == id then f(rs[i]) else rs[i]
  {
    if i > 0 {
      MapWhereAt(rs[1..], id, f, i - 1);
    } else if |rs| > 1 {
      MapWhereAt(rs[1..], id, f, 0);
    }
  }

  lemma MapWhereLength(rs: seq<Receipt>, id: string, f: Receipt -> Receipt)
    ensures |MapWhere(rs, id, f)| == |rs|
  {
    if rs != [] {
      MapWhereAt(rs, id, f, 0);
    }
  }

  /** Mapping over an id that no entry carries leaves the list as it was. */
  lemma {:induction false} MapWhereAbsent(rs: seq<Receipt>, id: string, f: Receipt -> Receipt)
    requires !HasId(rs, id)
    ensures MapWhere(rs, id, f) == rs
  {
    if rs != [] {
      assert rs[0].id != id;
      assert !HasId(rs[1..], id) by {
        forall i | 0 <= i < |rs[1..]| ensures rs[1..][i].id != id {
          assert rs[1..][i] == rs[i + 1];
        }
      }
      MapWhereAbsent(rs[1..], id, f);
    }
  }

  /** `updateReceipt` merges the patch into every entry carrying `id` and into no other. */
  lemma UpdateMatchingAt(rs: seq<Receipt>, id: string, p: ReceiptPatch, i: int)
    requires 0 <= i < |rs|
    ensures |UpdateMatching(rs, id, p)| == |rs|
    ensures UpdateMatching(rs, id, p)[i] == if rs[i].id == id then Merge(rs[i], p) else rs[i]
  {
    MapWhereAt(rs, id, r => Merge(r, p), i);
  }

  /** `setProcessedData` changes only the data and the status of the matching entries. */
  lemma SetProcessedMatchingAt(rs: seq<Receipt>, id: string, data: ProcessedData, i: int)
    requires 0 <= i < |rs|
    ensures |SetProcessedMatching(rs, id, data)| == |rs|
    ensures rs[i].id != id ==> SetProcessedMatching(rs, id, data)[i] == rs[i]
    ensures rs[i].id == id ==>
      SetProcessedMatching(rs, id, data)[i] == rs[i].(processedData := Some(data), status := Processed)
  {
    MapWhereAt(rs, id, r => WithProcessedData(r, data), i);
  }

  /** `setProcessedData(id, data)` is the same as `updateReceipt(id, { processedData: data,
      status: 'processed' })`, the call the receipt processor makes on its other path. */
  lemma {:induction false} SetProcessedIsUpdate(rs: seq<Receipt>, id: string, data: ProcessedData)
    ensures SetProcessedMatching(rs, id, data) == UpdateMatching(rs, id, ProcessedPatch(data))
  {
    MapWhereLength(rs, id, r => WithProcessedData(r, data));
    MapWhereLength(rs, id, r => Merge(r, ProcessedPatch(data)));
    forall i | 0 <= i < |rs|
      ensures SetProcessedMatching(rs, id, data)[i] == UpdateMatching(rs, id, ProcessedPatch(data))[i]
    {
      SetProcessedMatchingAt(rs, id, data, i);
      UpdateMatchingAt(rs, id, ProcessedPatch(data), i);
    }
  }

  /** A processed entry carries a status the `Receipt` interface does not declare. */
  lemma SetProcessedLeavesDeclaredStatuses(rs: seq<Receipt>, id: string, data: ProcessedData, i: int)
    requires 0 <= i < |rs| && rs[i].id == id
    ensures |SetProcessedMatching(rs, id, data)| == |rs|
    ensures !IsDeclaredStatus(SetProcessedMatching(rs, id, data)[i].status)
  {
    SetProcessedMatchingAt(rs, id, data, i);
  }

  /** Removal keeps exactly the entries not carrying `id`. */
  lemma {:induction false} RemoveMatchingMembers(rs: seq<Receipt>, id: string)
    ensures forall r :: r in RemoveMatching(rs, id) <==> r in rs && r.id != id
  {
    if rs != [] {
      RemoveMatchingMembers(rs[1..], id);
      assert rs == [rs[0]] + rs[1..];
    }
  }

  /** Removal works piecewise, so the kept entries stay in their original order. */
  lemma {:induction false} RemoveMatchingAppend(a: seq<Receipt>, b: seq<Receipt>, id: string)
    ensures RemoveMatching(a + b, id) == RemoveMatching(a, id) + RemoveMatching(b, id)
  {
    if a == [] {
      assert a + b == b;
    } else {
      assert (a + b)[0] == a[0];
      assert (a + b)[1..] == a[1..] + b;
      RemoveMatchingAppend(a[1..], b, id);
    }
  }

  /** Removal deletes exactly the entries carrying `id`. */
  lemma {:induction false} RemoveMatchingCount(rs: seq<Receipt>, id: string)
    ensures |RemoveMatching(rs, id)| == |rs| - CountId(rs, id)
  {
    if rs != [] {
      RemoveMatchingCount(rs[1..], id);
    }
  }

  /** Removing an id that no entry carries leaves the list as it was. */
  lemma {:induction false} RemoveMatchingAbsent(rs: seq<Receipt>, id: string)
    requires !HasId(rs, id)
    ensures RemoveMatching(rs, id) == rs
  {
    if rs != [] {
      assert rs[0].id != id;
      assert !HasId(rs[1..], id) by {
        forall i | 0 <= i < |rs[1..]| ensures rs[1..][i].id != id {
          assert rs[1..][i] == rs[i + 1];
        }
      }
      RemoveMatchingAbsent(rs[1..], id);
    }
  }

  /** `removeReceipt` is idempotent. */
  lemma RemoveMatchingIdempotent(rs: seq<Receipt>, id: string)
    ensures RemoveMatching(RemoveMatching(rs, id), id) == RemoveMatching(rs, id)
  {
    var once := RemoveMatching(rs, id);
    RemoveMatchingMembers(rs, id);
    assert !HasId(once, id) by {
      forall i | 0 <= i < |once| ensures once[i].id != id {
        assert once[i] in once;
      }
    }
    RemoveMatchingAbsent(once, id);
  }

  /** `addReceipt` does not check ids: adding one already present makes it occur twice. */
  lemma {:induction false} AddKeepsDuplicates(rs: seq<Receipt>, r: Receipt)
    ensures CountId(rs + [r], r.id) == CountId(rs, r.id) + 1
  {
    if rs == [] {
      assert rs + [r] == [r];
    } else {
      assert (rs + [r])[1..] == rs[1..] + [r];
      AddKeepsDuplicates(rs[1..], r);
    }
  }

  /** Removing what was just added under a fresh id gives back the list before the add. */
  lemma RemoveUndoesAdd(rs: seq<Receipt>, r: Receipt)
    requires !HasId(rs, r.id)
    ensures RemoveMatching(rs + [r], r.id) == rs
  {
    RemoveMatchingAppend(rs, [r], r.id);
    RemoveMatchingAbsent(rs, r.id);
    assert RemoveMatching([r], r.id) == [];
  }

  /** The store: `receipts` is the state; each action replaces it. */
  class ReceiptUploadStore {
    var receipts: seq<Receipt>

    constructor()
      ensures receipts == []
    {
      receipts := [];
    }

    /** `addReceipt`: appends at the end; earlier entries stay as and where they were. */
    method AddReceipt(receipt: Receipt)
      modifies this
      ensures receipts == old(receipts) + [receipt]
      ensures |receipts| == |old(receipts)| + 1 && receipts[..|old(receipts)|] == old(receipts)
      ensures CountId(receipts, receipt.id) == CountId(old(receipts), receipt.id) + 1
    {
      AddKeepsDuplicates(receipts, receipt);
      receipts := receipts + [receipt];
    }

    /** `updateReceipt`: merges `updates` into every entry whose id matches. */
    method UpdateReceipt(id: string, updates: ReceiptPatch)
      modifies this
      ensures receipts == UpdateMatching(old(receipts), id, updates)
      ensures |receipts| == |old(receipts)|
      ensures forall i :: 0 <= i < |receipts| ==>
        receipts[i] == if old(receipts)[i].id == id then Merge(old(receipts)[i], updates) else old(receipts)[i]
      ensures !HasId(old(receipts), id) ==> receipts == old(receipts)
    {
      var before := receipts;
      receipts := UpdateMatching(receipts, id, updates);
      MapWhereLength(before, id, r => Merge(r, updates));
      forall i | 0 <= i < |receipts|
        ensures receipts[i] == if before[i].id == id then Merge(before[i], updates) else before[i]
      {
        UpdateMatchingAt(before, id, updates, i);
      }
      if !HasId(before, id) {
        MapWhereAbsent(before, id, r => Merge(r, updates));
      }
    }

    /** `removeReceipt`: drops exactly the entries whose id matches, keeping the order. */
    method RemoveReceipt(id: string)
      modifies this
      ensures receipts == RemoveMatching(old(receipts), id)
      ensures forall r :: r in receipts <==> r in old(receipts) && r.id != id
      ensures |receipts| == |old(receipts)| - CountId(old(receipts), id)
    {
      RemoveMatchingMembers(receipts, id);
      RemoveMatchingCount(receipts, id);
      receipts := RemoveMatching(receipts, id);
    }

    /** `clearReceipts` */
    method ClearReceipts()
      modifies this
      ensures receipts == []
    {
      receipts := [];
    }

    /** `setReceipts`: replaces the list wholesale. */
    method SetReceipts(newReceipts: seq<Receipt>)
      modifies this
      ensures receipts == newReceipts
    {
      receipts := newReceipts;
    }

    /** `setProcessedData`: the matching entries get the data and the `processed` status;
        every other field and every other entry is unchanged. */
    method SetProcessedData(id: string, data: ProcessedData)
      modifies this
      ensures receipts == SetProcessedMatching(old(receipts), id, data)
      ensures |receipts| == |old(receipts)|
      ensures forall i :: 0 <= i < |receipts| ==>
        receipts[i] == if old(receipts)[i].id == id
                       then old(receipts)[i].(processedData := Some(data), status := Processed)
                       else old(receipts)[i]
    {
      var before := receipts;
      receipts := SetProcessedMatching(receipts, id, data);
      MapWhereLength(before, id, r => WithProcessedData(r, data));
      forall i | 0 <= i < |receipts|
        ensures receipts[i] == if before[i].id == id
                               then before[i].(processedData := Some(data), status := Processed)
                               else before[i]
      {
        SetProcessedMatchingAt(before, id, data, i);
      }
    }
  }
}
