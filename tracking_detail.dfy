/** src/components/TrackingDetail.jsx: finding the record for the route,
    refreshing it, and editing its number and carrier. The page's own
    `getStatusText` is the same function as the main page's,
    `MainPage.StatusText`. */
module TrackingDetail {
  import opened Model
  import opened Text
  import opened Browser
  import opened Api
  import opened TrackingStorage

  const NotFoundMessage := "송장 정보를 찾을 수 없습니다."
  const BlankNumberMessage := "송장번호를 입력해주세요."

  /** The edit form's fields. */
  datatype EditForm = EditForm(trackingNumber: string, carrierCode: string, carrierName: string)

  /** The form filled from a record. */
  function FormOf(rec: Record): EditForm {
    EditForm(rec.trackingNumber, rec.carrierCode, rec.carrierName)
  }

  /** The position of the first record at or after `from` with `key`, or -1. */
  function RecordIndex(l: seq<Record>, key: string, from: nat): (k: int)
    requires from <= |l|
    ensures k == -1 || (from <= k < |l| && l[k].trackingNumber == key)
    ensures forall j :: from <= j < |l| && (k == -1 || j < k) ==> l[j].trackingNumber != key
    decreases |l| - from
  {
    if from == |l| then -1
    else if l[from].trackingNumber == key then from
    else RecordIndex(l, key, from + 1)
  }

  /** `allData.find(item => item.trackingNumber === key)` */
  function FindRecord(l: seq<Record>, key: string): (r: Option<Record>)
    ensures r.None? <==> forall i :: 0 <= i < |l| ==> l[i].trackingNumber != key
    ensures r.Some? ==> exists k :: 0 <= k < |l| && l[k] == r.value && r.value.trackingNumber == key
                                    && forall j :: 0 <= j < k ==> l[j].trackingNumber != key
  {
    var k := RecordIndex(l, key, 0);
    if k == -1 then None else Some(l[k])
  }

  /** `{ ...trackingData, trackingResult: response, lastUpdated: now }`: only
      the result and the update time change. */
  function Refreshed(rec: Record, result: TrackingResult, now: int): (r: Record)
    ensures r.trackingResult == Some(result) && r.lastUpdated == now
    ensures r.trackingNumber == rec.trackingNumber && r.carrierCode == rec.carrierCode
            && r.carrierName == rec.carrierName && r.createdAt == rec.createdAt
  {
    rec.(trackingResult := Some(result), lastUpdated := now)
  }

  /** `!editForm.trackingNumber.trim()` */
  predicate BlankNumber(form: EditForm) {
    Trim(form.trackingNumber) == ""
  }

  /** The record `handleSaveEdit` stores: the trimmed number and the form's
      carrier fields, a new update time, the result and creation time kept. */
  function Edited(rec: Record, form: EditForm, now: int): (r: Record)
    ensures r.trackingNumber == Trim(form.trackingNumber)
    ensures r.carrierCode == form.carrierCode && r.carrierName == form.carrierName && r.lastUpdated == now
    ensures r.trackingResult == rec.trackingResult && r.createdAt == rec.createdAt
  {
    rec.(trackingNumber := Trim(form.trackingNumber), carrierCode := form.carrierCode,
         carrierName := form.carrierName, lastUpdated := now)
  }

  /** A number that passes the check is saved non-empty and without
      whitespace at either end. */
  lemma EditedNumberIsClean(rec: Record, form: EditForm, now: int)
    requires !BlankNumber(form)
    ensures var n := Edited(rec, form, now).trackingNumber;
            n != "" && !IsWhitespace(n[0]) && !IsWhitespace(n[|n| - 1])
  {
    TrimSpec(form.trackingNumber);
  }

  /** After an edit is stored under the old number, looking the new number
      up finds the edited record, provided no other stored record already
      had the new number. */
  lemma SavedEditIsFound(l: seq<Record>, rec: Record, form: EditForm, now: int)
    requires exists i :: 0 <= i < |l| && l[i].trackingNumber == rec.trackingNumber
    requires forall i :: 0 <= i < |l| && l[i].trackingNumber == Trim(form.trackingNumber)
                         ==> l[i].trackingNumber == rec.trackingNumber
    ensures var e := Edited(rec, form, now);
            FindRecord(UpdateList(l, rec.trackingNumber, Patch(e)), e.trackingNumber) == Some(e)
  {
    var e := Edited(rec, form, now);
    var u := UpdateList(l, rec.trackingNumber, Patch(e));
    var k := RecordIndex(l, rec.trackingNumber, 0);
    forall i | 0 <= i < |l| && l[i].trackingNumber == rec.trackingNumber ensures u[i] == e {
      MergeLaws(l[i], e, Patch(e));
    }
    forall j | 0 <= j < k ensures u[j].trackingNumber != e.trackingNumber {
      assert l[j].trackingNumber != rec.trackingNumber;
    }
    var m := RecordIndex(u, e.trackingNumber, 0);
    assert u[k] == e;
    assert m == k;
  }

  /** `handleSaveEdit` stores the trimmed number but moves the route to the
      number as typed, so a number typed with surrounding whitespace is not
      found under the new route when the page loads it, unless another
      stored record already had the number as typed. */
  lemma PaddedEditIsLost(l: seq<Record>, rec: Record, form: EditForm, now: int)
    requires Trim(form.trackingNumber) != form.trackingNumber
    requires forall i :: 0 <= i < |l| ==> l[i].trackingNumber != form.trackingNumber
    ensures FindRecord(UpdateList(l, rec.trackingNumber, Patch(Edited(rec, form, now))), form.trackingNumber) == None
  {
    var e := Edited(rec, form, now);
    var u := UpdateList(l, rec.trackingNumber, Patch(e));
    forall i | 0 <= i < |u| ensures u[i].trackingNumber != form.trackingNumber {
      if l[i].trackingNumber == rec.trackingNumber {
        MergeLaws(l[i], e, Patch(e));
      }
    }
  }

  /** The page state the handlers read and write. */
  class Page {
    /** The route parameter `trackingNumber`. */
    var routeNumber: string
    var trackingData: Option<Record>
    var loading: bool
    var error: string
    var isEditing: bool
    var editForm: EditForm

    constructor (route: string)
      ensures routeNumber == route && trackingData == None && !loading && error == ""
      ensures !isEditing && editForm == EditForm("", "", "")
    {
      routeNumber, trackingData, loading, error := route, None, false, "";
      isEditing, editForm := false, EditForm("", "", "");
    }

    /** `loadTrackingData`: show the first stored record with the route's
        number and fill the form from it; without one, report it and keep
        what is shown. */
    method LoadTrackingData(ls: LocalStorage)
      modifies this`trackingData, this`editForm, this`error
      ensures var found := FindRecord(GetTrackingData(ls), routeNumber);
              && (found.Some? ==> trackingData == found && editForm == FormOf(found.value) && error == old(error))
              && (found.None? ==> error == NotFoundMessage && trackingData == old(trackingData)
                                  && editForm == old(editForm))
    {
      var allData := GetTrackingData(ls);
      var data := FindRecord(allData, routeNumber);
      if data.Some? {
        trackingData := data;
        editForm := FormOf(data.value);
      } else {
        error := NotFoundMessage;
      }
    }

    /** `handleRefresh`: look the shown record up again; on success store
        and show it with the new result, keyed by its number; on failure
        show the error. */
    method HandleRefresh(ls: LocalStorage, net: Network, now: int)
      modifies this`loading, this`error, this`trackingData, ls`trackingEntry, net`requests
      ensures old(trackingData).None? ==>
                && trackingData == None && loading == old(loading) && error == old(error)
                && ls.trackingEntry == old(ls.trackingEntry) && net.requests == old(net.requests)
      ensures old(trackingData).Some? ==>
                var rec := old(trackingData).value;
                && !loading
                && net.requests == old(net.requests) + QueryLog(ls.apiKey, rec.carrierCode, rec.trackingNumber)
                && match TrackReply(net, ls.apiKey, now, rec.carrierCode, rec.trackingNumber)
                   case Fetched(result) =>
                     && error == "" && trackingData == Some(Refreshed(rec, result, now))
                     && ls.trackingEntry == (if ls.writable then Saved(UpdateList(Records(old(ls.trackingEntry)),
                                                                rec.trackingNumber, Patch(Refreshed(rec, result, now))))
                                             else old(ls.trackingEntry))
                   case FetchError(message) =>
                     && error == message && trackingData == old(trackingData)
                     && ls.trackingEntry == old(ls.trackingEntry)
    {
      if trackingData.None? {
        return;
      }
      var rec := trackingData.value;
      loading := true;
      error := "";
      var reply := TrackDelivery(ls, net, now, rec.carrierCode, rec.trackingNumber);
      match reply {
        case Fetched(response) =>
          var updatedData := Refreshed(rec, response, now);
          var _ := UpdateTrackingData(ls, rec.trackingNumber, Patch(updatedData));
          trackingData := Some(updatedData);
        case FetchError(message) =>
          error := message;
      }
      loading := false;
    }

    /** `toggleEdit`: flip the mode; leaving it restores the form from the
        shown record. */
    method ToggleEdit()
      requires trackingData.Some?
      modifies this`isEditing, this`editForm
      ensures isEditing == !old(isEditing)
      ensures old(isEditing) ==> editForm == FormOf(trackingData.value)
      ensures !old(isEditing) ==> editForm == old(editForm)
    {
      var wasEditing := isEditing;
      isEditing := !wasEditing;
      if wasEditing {
        editForm := FormOf(trackingData.value);
      }
    }

    /** `handleSaveEdit`: refuse a blank number; otherwise store the edited
        record under the OLD number, show it, leave edit mode, and move the
        route to the form's number (untrimmed) when it differs. */
    method HandleSaveEdit(ls: LocalStorage, now: int)
      requires trackingData.Some?
      modifies this`error, this`trackingData, this`isEditing, this`routeNumber, ls`trackingEntry
      ensures BlankNumber(editForm) ==>
                && error == BlankNumberMessage && trackingData == old(trackingData)
                && isEditing == old(isEditing) && routeNumber == old(routeNumber)
                && ls.trackingEntry == old(ls.trackingEntry)
      ensures !BlankNumber(editForm) ==>
                var rec := old(trackingData).value;
                var e := Edited(rec, editForm, now);
                && error == old(error) && trackingData == Some(e) && !isEditing
                && ls.trackingEntry == (if ls.writable then Saved(UpdateList(Records(old(ls.trackingEntry)),
                                                           rec.trackingNumber, Patch(e)))
                                        else old(ls.trackingEntry))
                && routeNumber == (if editForm.trackingNumber != rec.trackingNumber then editForm.trackingNumber
                                   else old(routeNumber))
    {
      if Trim(editForm.trackingNumber) == "" {
        error := BlankNumberMessage;
        return;
      }
      var rec := trackingData.value;
      var updatedData := Edited(rec, editForm, now);
      var _ := UpdateTrackingData(ls, rec.trackingNumber, Patch(updatedData));
      trackingData := Some(updatedData);
      isEditing := false;
      if editForm.trackingNumber != rec.trackingNumber {
        routeNumber := editForm.trackingNumber;
      }
    }
  }
}
