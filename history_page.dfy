/** The history page's handlers: deleting one record, clearing the list after confirmation,
    and opening a record's result or its herb's detail page. */
module HistoryPage {
  import opened Wrappers
  import opened Lists
  import opened HerbDatabase
  import opened Store

  function HasOtherId(id: string): RecognitionRecord -> bool
  {
    (record: RecognitionRecord) => record.id != id
  }

  /** `history.filter(record => record.id !== id)`: every copy of a record with another id
      survives, and no record with this id does. */
  function DeleteRecord(history: seq<RecognitionRecord>, id: string): (kept: seq<RecognitionRecord>)
    ensures forall r :: multiset(kept)[r] == if r.id != id then multiset(history)[r] else 0
  {
    FilterMultiplicity(history, HasOtherId(id));
    Filter(history, HasOtherId(id))
  }

  /** A record survives deletion exactly when it was in the list and carries another id. */
  lemma DeleteMembership(history: seq<RecognitionRecord>, id: string, record: RecognitionRecord)
    ensures record in DeleteRecord(history, id) <==> record in history && record.id != id
  {
    var r := DeleteRecord(history, id);
    if record in r {
      var i :| 0 <= i < |r| && r[i] == record;
    }
    if record in history && record.id != id {
      var j :| 0 <= j < |history| && history[j] == record;
    }
  }

  /** The survivors keep their order: they form a subsequence of the list. */
  lemma DeleteKeepsOrder(history: seq<RecognitionRecord>, id: string)
    ensures IsSubsequence(DeleteRecord(history, id), history)
  {
    FilterIsSubsequence(history, HasOtherId(id));
  }

  /** Deleting an id that no record carries changes nothing. */
  lemma DeleteAbsentId(history: seq<RecognitionRecord>, id: string)
    requires forall i :: 0 <= i < |history| ==> history[i].id != id
    ensures DeleteRecord(history, id) == history
  {
    FilterAll(history, HasOtherId(id));
  }

  /** Deleting the same id twice is the same as deleting it once. */
  lemma DeleteIdempotent(history: seq<RecognitionRecord>, id: string)
    ensures DeleteRecord(DeleteRecord(history, id), id) == DeleteRecord(history, id)
  {
    FilterIdempotent(history, HasOtherId(id));
  }

  /** `handleDeleteRecord`: only the history changes. */
  method HandleDeleteRecord(store: AppState, recordId: string)
    modifies store`recognitionHistory
    ensures store.recognitionHistory == DeleteRecord(old(store.recognitionHistory), recordId)
    ensures forall i :: 0 <= i < |store.recognitionHistory| ==> store.recognitionHistory[i].id != recordId
  {
    store.recognitionHistory := DeleteRecord(store.recognitionHistory, recordId);
  }

  /** `clearAllHistory`; `confirmed` is the answer to the browser's confirmation dialog. */
  method ClearAllHistory(store: AppState, confirmed: bool)
    modifies store`recognitionHistory
    ensures confirmed ==> store.recognitionHistory == []
    ensures !confirmed ==> store.recognitionHistory == old(store.recognitionHistory)
  {
    if confirmed {
      store.recognitionHistory := [];
    }
  }

  /** `handleViewResult`: shows the record on the results page. */
  method HandleViewResult(store: AppState, record: RecognitionRecord)
    modifies store`currentRecognition, store`currentPage
    ensures store.currentRecognition == Some(record) && store.currentPage == Results
  {
    store.currentRecognition := Some(record);
    store.currentPage := Results;
  }

  /** `handleViewDetail`: opens the matched herb's detail page; a record without a match
      does nothing. */
  method HandleViewDetail(store: AppState, record: RecognitionRecord)
    modifies store`currentHerbDetail, store`currentPage
    ensures record.result.Some? ==> store.currentHerbDetail == record.result && store.currentPage == Detail
    ensures record.result.None? ==>
      store.currentHerbDetail == old(store.currentHerbDetail) && store.currentPage == old(store.currentPage)
  {
    if record.result.Some? {
      store.currentHerbDetail := record.result;
      store.currentPage := Detail;
    }
  }
}
