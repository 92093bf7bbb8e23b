/** The in-memory scan store of lib/store.ts: a map from scan id to scan
    record, with create, update and get. The process-wide map is passed in and
    returned explicitly; the id generator and the clock are parameters. */
module Store {
  import opened Types

  type ScanStore = map<string, Scan>

  /** Every record is filed under its own id. */
  predicate KeyedById(store: ScanStore) {
    forall id :: id in store ==> store[id].id == id
  }

  /** createScan: a new pending record with no findings, created and updated
      at the same instant, stored under the given id. */
  function CreateScan(store: ScanStore, id: string, now: string, url: string): (res: (ScanStore, Scan))
    ensures res.1.id == id && res.1.url == url
    ensures res.1.status == Pending && res.1.findings == []
    ensures res.1.aiSummary.None? && res.1.errorMessage.None?
    ensures res.1.createdAt == now && res.1.updatedAt == now
    ensures GetScan(res.0, id) == Some(res.1)
    ensures forall other :: other != id ==> GetScan(res.0, other) == GetScan(store, other)
    ensures res.0.Keys == store.Keys + {id}
  {
    var scan := Scan(id, url, Pending, [], None, now, now, None);
    (store[id := scan], scan)
  }

  /** updateScan: stamps the record with the current time and stores it
      under its own id. The stamped record is returned as well, since the
      source stamps the caller's object in place. */
  function UpdateScan(store: ScanStore, scan: Scan, now: string): (res: (ScanStore, Scan))
    ensures res.1.updatedAt == now
    ensures res.1.(updatedAt := scan.updatedAt) == scan
    ensures GetScan(res.0, scan.id) == Some(res.1)
    ensures forall other :: other != scan.id ==> GetScan(res.0, other) == GetScan(store, other)
    ensures res.0.Keys == store.Keys + {scan.id}
  {
    var stamped := scan.(updatedAt := now);
    (store[scan.id := stamped], stamped)
  }

  /** getScan: the record stored under id, or nothing. */
  function GetScan(store: ScanStore, id: string): (r: Option<Scan>)
    ensures r.Some? <==> id in store
    ensures r.Some? ==> r.value == store[id]
  {
    if id in store then Some(store[id]) else None
  }

  /** Creating under a fresh id loses no existing record and adds exactly one. */
  lemma CreateWithFreshId(store: ScanStore, id: string, now: string, url: string)
    requires id !in store
    ensures |CreateScan(store, id, now, url).0| == |store| + 1
    ensures forall k :: k in store ==> GetScan(CreateScan(store, id, now, url).0, k) == Some(store[k])
  {
    var after := CreateScan(store, id, now, url).0;
    assert after.Keys == store.Keys + {id};
    assert |after.Keys| == |store.Keys| + 1;
  }

  /** Create and update keep every record filed under its own id. */
  lemma OperationsKeepKeyedById(store: ScanStore, scan: Scan, id: string, now: string, url: string)
    requires KeyedById(store)
    ensures KeyedById(CreateScan(store, id, now, url).0)
    ensures KeyedById(UpdateScan(store, scan, now).0)
  {
  }
}
