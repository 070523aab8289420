/**
 * The two session hooks, `useSession` (care homes) and `useWorkerSession` (care
 * workers).  Each keeps one record in the browser's key-value storage under its own
 * key.  The record is stored as JSON text and parsed back; the model stores the record
 * itself, taking the JSON round trip of these plain string records as given.
 */
module Sessions {
  import opened Wrappers

  datatype CareHomeSession = CareHomeSession(careHomeId: string, email: string, name: string)
  datatype WorkerSession = WorkerSession(workerId: string, email: string, name: string)

  /** What a storage slot can hold: one of the two sessions, or another application's text. */
  datatype StoredItem =
    | CareHomeItem(careHome: CareHomeSession)
    | WorkerItem(worker: WorkerSession)
    | OtherItem(text: string)

  const CareHomeKey: string := "careHomeSession"
  const WorkerKey: string := "workerSession"

  type Storage = map<string, StoredItem>

  /** Each hook's slot only ever holds what that hook's `setSession` wrote. */
  predicate WellFormed(items: Storage) {
    (CareHomeKey in items ==> items[CareHomeKey].CareHomeItem?) &&
    (WorkerKey in items ==> items[WorkerKey].WorkerItem?)
  }

  /** `getSession()` of `useSession`: the stored record, or null when the slot is empty. */
  function LoadCareHome(items: Storage): (s: Option<CareHomeSession>)
    requires WellFormed(items)
    ensures s.Some? <==> CareHomeKey in items
  {
    if CareHomeKey in items then Some(items[CareHomeKey].careHome) else None
  }

  /** `getSession()` of `useWorkerSession`. */
  function LoadWorker(items: Storage): (s: Option<WorkerSession>)
    requires WellFormed(items)
    ensures s.Some? <==> WorkerKey in items
  {
    if WorkerKey in items then Some(items[WorkerKey].worker) else None
  }

  /** `setSession(s)` of `useSession`: writes only the care-home slot, replacing what was there. */
  function StoreCareHome(items: Storage, s: CareHomeSession): (r: Storage)
    requires WellFormed(items)
    ensures WellFormed(r)
    ensures LoadCareHome(r) == Some(s)
    ensures LoadWorker(r) == LoadWorker(items)
    ensures forall k :: k != CareHomeKey ==> (k in r <==> k in items) && (k in r ==> r[k] == items[k])
  {
    items[CareHomeKey := CareHomeItem(s)]
  }

  /** `clearSession()` of `useSession`: removes only the care-home slot. */
  function RemoveCareHome(items: Storage): (r: Storage)
    requires WellFormed(items)
    ensures WellFormed(r)
    ensures LoadCareHome(r) == None
    ensures LoadWorker(r) == LoadWorker(items)
    ensures forall k :: k != CareHomeKey ==> (k in r <==> k in items) && (k in r ==> r[k] == items[k])
  {
    items - {CareHomeKey}
  }

  /** `setSession(s)` of `useWorkerSession`: writes only the worker slot. */
  function StoreWorker(items: Storage, s: WorkerSession): (r: Storage)
    requires WellFormed(items)
    ensures WellFormed(r)
    ensures LoadWorker(r) == Some(s)
    ensures LoadCareHome(r) == LoadCareHome(items)
    ensures forall k :: k != WorkerKey ==> (k in r <==> k in items) && (k in r ==> r[k] == items[k])
  {
    items[WorkerKey := WorkerItem(s)]
  }

  /** `clearSession()` of `useWorkerSession`: removes only the worker slot. */
  function RemoveWorker(items: Storage): (r: Storage)
    requires WellFormed(items)
    ensures WellFormed(r)
    ensures LoadWorker(r) == None
    ensures LoadCareHome(r) == LoadCareHome(items)
    ensures forall k :: k != WorkerKey ==> (k in r <==> k in items) && (k in r ==> r[k] == items[k])
  {
    items - {WorkerKey}
  }

  /** A second `setSession` overwrites the first: only the last write is read back. */
  lemma LastCareHomeWriteWins(items: Storage, first: CareHomeSession, second: CareHomeSession)
    requires WellFormed(items)
    ensures StoreCareHome(StoreCareHome(items, first), second) == StoreCareHome(items, second)
  {
  }

  /** A second worker `setSession` overwrites the first. */
  lemma LastWorkerWriteWins(items: Storage, first: WorkerSession, second: WorkerSession)
    requires WellFormed(items)
    ensures StoreWorker(StoreWorker(items, first), second) == StoreWorker(items, second)
  {
  }

  /** `session?.careHomeId` is truthy: a session is stored and its id is not empty. */
  predicate HasCareHomeId(session: Option<CareHomeSession>) {
    session.Some? && session.value.careHomeId != ""
  }

  /** `session?.workerId` is truthy. */
  predicate HasWorkerId(session: Option<WorkerSession>) {
    session.Some? && session.value.workerId != ""
  }

  /** `ProtectedRoute`: redirect to the care-home sign-in page iff no session is stored. */
  function CareHomeRouteRedirect(items: Storage): (target: Option<string>)
    requires WellFormed(items)
    ensures target.Some? <==> LoadCareHome(items) == None
    ensures target.Some? ==> target.value == "/care-home-signin"
  {
    if LoadCareHome(items).None? then Some("/care-home-signin") else None
  }

  /** `WorkerProtectedRoute`: redirect to the worker sign-in page iff no session is stored. */
  function WorkerRouteRedirect(items: Storage): (target: Option<string>)
    requires WellFormed(items)
    ensures target.Some? <==> LoadWorker(items) == None
    ensures target.Some? ==> target.value == "/worker-signin"
  {
    if LoadWorker(items).None? then Some("/worker-signin") else None
  }

  /** The browser's key-value storage, as both hooks see it. */
  class SessionStore {
    var items: Storage

    ghost predicate Valid()
      reads this
    {
      WellFormed(items)
    }

    /** Storage as the browser hands it over; nothing stored yet when `initial` is empty. */
    constructor (initial: Storage)
      requires WellFormed(initial)
      ensures Valid() && items == initial
    {
      items := initial;
    }

    function GetCareHomeSession(): (s: Option<CareHomeSession>)
      requires Valid()
      reads this
    {
      LoadCareHome(items)
    }

    function GetWorkerSession(): (s: Option<WorkerSession>)
      requires Valid()
      reads this
    {
      LoadWorker(items)
    }

    method SetCareHomeSession(s: CareHomeSession)
      requires Valid()
      modifies this
      ensures Valid()
      ensures items == StoreCareHome(old(items), s)
      ensures GetCareHomeSession() == Some(s)
      ensures GetWorkerSession() == old(GetWorkerSession())
    {
      items := items[CareHomeKey := CareHomeItem(s)];
    }

    method ClearCareHomeSession()
      requires Valid()
      modifies this
      ensures Valid()
      ensures items == RemoveCareHome(old(items))
      ensures GetCareHomeSession() == None
      ensures GetWorkerSession() == old(GetWorkerSession())
    {
      items := items - {CareHomeKey};
    }

    method SetWorkerSession(s: WorkerSession)
      requires Valid()
      modifies this
      ensures Valid()
      ensures items == StoreWorker(old(items), s)
      ensures GetWorkerSession() == Some(s)
      ensures GetCareHomeSession() == old(GetCareHomeSession())
    {
      items := items[WorkerKey := WorkerItem(s)];
    }

    method ClearWorkerSession()
      requires Valid()
      modifies this
      ensures Valid()
      ensures items == RemoveWorker(old(items))
      ensures GetWorkerSession() == None
      ensures GetCareHomeSession() == old(GetCareHomeSession())
    {
      items := items - {WorkerKey};
    }
  }

  /** With nothing stored, both hooks read null and both routes redirect. */
  lemma EmptyStorageHasNoSession()
    ensures LoadCareHome(map[]) == None && LoadWorker(map[]) == None
    ensures CareHomeRouteRedirect(map[]) == Some("/care-home-signin")
    ensures WorkerRouteRedirect(map[]) == Some("/worker-signin")
  {
  }

  /** Sign-in then sign-out of the worker leaves the care-home session as it was. */
  method WorkerSessionCycle(store: SessionStore, s: WorkerSession)
    requires store.Valid()
    modifies store
    ensures store.Valid()
    ensures store.GetWorkerSession() == None
    ensures store.GetCareHomeSession() == old(store.GetCareHomeSession())
  {
    store.SetWorkerSession(s);
    assert store.GetWorkerSession() == Some(s);
    store.ClearWorkerSession();
  }
}
