/** src/services/trackingStorage.js: the record list kept as one JSON array
    under the storage key 'deliala_tracking_data'. Every operation reads the
    whole list, transforms it and writes it back. */
module TrackingStorage {
  import opened Model
  import opened Browser

  /** `getTrackingData()`: the stored list, or the empty list when nothing is
      stored or the stored text does not parse. */
  function Records(e: Entry<seq<Record>>): (l: seq<Record>)
    ensures e.Saved? ==> l == e.value
    ensures !e.Saved? ==> l == []
  {
    if e.Saved? then e.value else []
  }

  function GetTrackingData(ls: LocalStorage): seq<Record>
    reads ls
  {
    Records(ls.trackingEntry)
  }

  /** `{ ...item, ...patch }`: every field the patch defines wins. */
  function Merge(item: Record, p: RecordPatch): (r: Record)
    ensures r.trackingNumber == (if p.trackingNumber.Some? then p.trackingNumber.value else item.trackingNumber)
    ensures r.carrierCode == (if p.carrierCode.Some? then p.carrierCode.value else item.carrierCode)
    ensures r.carrierName == (if p.carrierName.Some? then p.carrierName.value else item.carrierName)
    ensures r.trackingResult == (if p.trackingResult.Some? then p.trackingResult.value else item.trackingResult)
    ensures r.createdAt == (if p.createdAt.Some? then p.createdAt.value else item.createdAt)
    ensures r.lastUpdated == (if p.lastUpdated.Some? then p.lastUpdated.value else item.lastUpdated)
  {
    Record(
      if p.trackingNumber.Some? then p.trackingNumber.value else item.trackingNumber,
      if p.carrierCode.Some? then p.carrierCode.value else item.carrierCode,
      if p.carrierName.Some? then p.carrierName.value else item.carrierName,
      if p.trackingResult.Some? then p.trackingResult.value else item.trackingResult,
      if p.createdAt.Some? then p.createdAt.value else item.createdAt,
      if p.lastUpdated.Some? then p.lastUpdated.value else item.lastUpdated)
  }

  /** A whole record used as the patch, as every caller of `updateTrackingData` does. */
  function Patch(r: Record): RecordPatch {
    RecordPatch(Some(r.trackingNumber), Some(r.carrierCode), Some(r.carrierName),
                Some(r.trackingResult), Some(r.createdAt), Some(r.lastUpdated))
  }

  const NoChange := RecordPatch(None, None, None, None, None, None)

  /** A whole record spread over an item replaces it; an empty patch keeps
      it; applying the same patch twice is applying it once. */
  lemma MergeLaws(item: Record, r: Record, p: RecordPatch)
    ensures Merge(item, Patch(r)) == r
    ensures Merge(item, NoChange) == item
    ensures Merge(Merge(item, p), p) == Merge(item, p)
  {
  }

  /** `allData.map(item => item.trackingNumber === key ? { ...item, ...p } : item)` */
  function UpdateList(l: seq<Record>, key: string, p: RecordPatch): (r: seq<Record>)
    ensures |r| == |l|
    ensures forall i :: 0 <= i < |l| ==>
              r[i] == (if l[i].trackingNumber == key then Merge(l[i], p) else l[i])
  {
    if l == [] then []
    else [if l[0].trackingNumber == key then Merge(l[0], p) else l[0]] + UpdateList(l[1..], key, p)
  }

  /** `allData.filter(item => item.trackingNumber !== key)` */
  function DeleteList(l: seq<Record>, key: string): (r: seq<Record>)
    ensures |r| <= |l|
    ensures forall i :: 0 <= i < |r| ==> r[i].trackingNumber != key
    ensures forall x :: x in r <==> x in l && x.trackingNumber != key
  {
    if l == [] then []
    else (if l[0].trackingNumber == key then [] else [l[0]]) + DeleteList(l[1..], key)
  }

  /** Deleting keeps the remaining records in their order: it distributes
      over concatenation. */
  lemma {:induction false} DeleteListAppend(a: seq<Record>, b: seq<Record>, key: string)
    ensures DeleteList(a + b, key) == DeleteList(a, key) + DeleteList(b, key)
  {
    if a != [] {
      assert (a + b)[1..] == a[1..] + b;
      DeleteListAppend(a[1..], b, key);
    } else {
      assert a + b == b;
    }
  }

  /** Deleting a number nobody has leaves the list as it was. */
  lemma {:induction false} DeleteListAbsent(l: seq<Record>, key: string)
    requires forall i :: 0 <= i < |l| ==> l[i].trackingNumber != key
    ensures DeleteList(l, key) == l
  {
    if l != [] {
      DeleteListAbsent(l[1..], key);
    }
  }

  /** `saveTrackingData(x)`: appends, whether or not the number is already
      tracked; false when the write throws. */
  method SaveTrackingData(ls: LocalStorage, x: Record) returns (ok: bool)
    modifies ls`trackingEntry
    ensures ok == ls.writable
    ensures ls.trackingEntry == if ok then Saved(Records(old(ls.trackingEntry)) + [x]) else old(ls.trackingEntry)
  {
    var existing := GetTrackingData(ls);
    if !ls.writable {
      return false;
    }
    ls.trackingEntry := Saved(existing + [x]);
    ok := true;
  }

  /** `updateTrackingData(key, p)` */
  method UpdateTrackingData(ls: LocalStorage, key: string, p: RecordPatch) returns (ok: bool)
    modifies ls`trackingEntry
    ensures ok == ls.writable
    ensures ls.trackingEntry == if ok then Saved(UpdateList(Records(old(ls.trackingEntry)), key, p))
                                else old(ls.trackingEntry)
  {
    var all := GetTrackingData(ls);
    var updated := UpdateList(all, key, p);
    if !ls.writable {
      return false;
    }
    ls.trackingEntry := Saved(updated);
    ok := true;
  }

  /** `deleteTrackingData(key)` */
  method DeleteTrackingData(ls: LocalStorage, key: string) returns (ok: bool)
    modifies ls`trackingEntry
    ensures ok == ls.writable
    ensures ls.trackingEntry == if ok then Saved(DeleteList(Records(old(ls.trackingEntry)), key))
                                else old(ls.trackingEntry)
  {
    var all := GetTrackingData(ls);
    var filtered := DeleteList(all, key);
    if !ls.writable {
      return false;
    }
    ls.trackingEntry := Saved(filtered);
    ok := true;
  }

  /** `clearTrackingData()`: removes the key, after which the list reads empty. */
  method ClearTrackingData(ls: LocalStorage) returns (ok: bool)
    modifies ls`trackingEntry
    ensures ok == ls.writable
    ensures ls.trackingEntry == if ok then Missing else old(ls.trackingEntry)
    ensures ok ==> GetTrackingData(ls) == []
  {
    if !ls.writable {
      return false;
    }
    ls.trackingEntry := Missing;
    ok := true;
  }
}
