/** One `run-landb` cycle end to end: load the EAM snapshot, fetch and join LanDB,
    reconcile the cache table, and gate exit code and heartbeat on the status. */
module RunLandb {
  import opened Common
  import opened ChunkedLookup
  import opened LandbModel
  import opened LandbJoin
  import opened Reconcile

  datatype Status =
    | Ok
    | SkippedNoEamDevices
    | FailedLoadEamPostgres
    | FailedLoadEam
    | FailedInitTokenExpired
    | FailedInitQuerySet
    | FailedInit
    | FailedInitUnexpected
    | FailedFetchTokenExpired
    | FailedFetchValidation
    | FailedFetchQuerySet
    | FailedFetch
    | FailedFetchUnexpected
    | FailedLoadCachePostgres
    | FailedLoadCache
    | FailedMassDeleteRefused
    | FailedSyncPostgres
    | FailedSyncUtils
    | FailedSync
    | FailedFetchDegraded

  /** The status string a run returns and logs. */
  function StatusText(s: Status): string {
    match s
    case Ok => "ok"
    case SkippedNoEamDevices => "skipped_no_eam_devices"
    case FailedLoadEamPostgres => "failed_load_eam_devices_postgres_error"
    case FailedLoadEam => "failed_load_eam_devices"
    case FailedInitTokenExpired => "failed_client_init_token_expired"
    case FailedInitQuerySet => "failed_client_init_queryset_error"
    case FailedInit => "failed_client_init"
    case FailedInitUnexpected => "failed_client_init_unexpected"
    case FailedFetchTokenExpired => "failed_fetch_token_expired"
    case FailedFetchValidation => "failed_fetch_validation_error"
    case FailedFetchQuerySet => "failed_fetch_queryset_error"
    case FailedFetch => "failed_fetch"
    case FailedFetchUnexpected => "failed_fetch_unexpected"
    case FailedLoadCachePostgres => "failed_load_cached_devices_postgres_error"
    case FailedLoadCache => "failed_load_cached_devices"
    case FailedMassDeleteRefused => "failed_sync_mass_delete_refused"
    case FailedSyncPostgres => "failed_sync_postgres_error"
    case FailedSyncUtils => "failed_sync_utils_error"
    case FailedSync => "failed_sync"
    case FailedFetchDegraded => "failed_landb_fetch_degraded"
  }

  datatype EamLoad = Loaded(eam: seq<Equipment>) | EamPostgresError | EamOtherError
  datatype InitError = InitTokenExpired | InitQuerySetError | InitRestError | InitOther
  datatype FetchError = FetchTokenExpired | FetchValidationError | FetchQuerySetError | FetchRestError | FetchOther
  datatype LoadError = LoadPostgresError | LoadOther
  datatype SyncError = SyncPostgresError | SyncUtilsError | SyncOther

  /** Everything outside the program during one cycle: the EAM snapshot and LanDB contents,
      which calls raise, which chunks fail, whether the transaction commits, and the
      iteration order of the id set. */
  datatype World = World(
    eamLoad: EamLoad, initError: Option<InitError>, db: Landb, faults: JoinFaults,
    fetchError: Option<FetchError>, cacheError: Option<LoadError>, syncError: Option<SyncError>,
    order: seq<string>, hasCredentials: bool)

  ghost predicate ValidWorld(w: World) {
    w.eamLoad.Loaded? ==>
      && ValidSnapshot(w.eamLoad.eam)
      && IsOrder(w.order, ItemMap(LandbEntity(), BulkJoin(w.db, w.eamLoad.eam, w.faults)))
  }

  function InitStatus(e: InitError): Status {
    match e
    case InitTokenExpired => FailedInitTokenExpired
    case InitQuerySetError => FailedInitQuerySet
    case InitRestError => FailedInit
    case InitOther => FailedInitUnexpected
  }

  function FetchStatus(e: FetchError): Status {
    match e
    case FetchTokenExpired => FailedFetchTokenExpired
    case FetchValidationError => FailedFetchValidation
    case FetchQuerySetError => FailedFetchQuerySet
    case FetchRestError => FailedFetch
    case FetchOther => FailedFetchUnexpected
  }

  function SyncStatus(e: Option<SyncError>): Status {
    match e
    case Some(SyncUtilsError) => FailedSyncUtils
    case Some(SyncOther) => FailedSync
    case _ => FailedSyncPostgres
  }

  /** `_status_is_failure`; `None` is a callee that reported no status. */
  predicate StatusIsFailure(status: Option<string>) {
    status.Some? && status.value != "" && ("failed_" <= status.value || status.value == "completed_with_errors")
  }

  /** The CLI's gate: exit non-zero on failure, else emit the heartbeat if it has credentials. */
  predicate EmitsHeartbeat(status: Status, hasCredentials: bool) {
    !StatusIsFailure(Some(StatusText(status))) && hasCredentials
  }

  datatype Ended = Ended(table: Table<LandbRow>, status: Status)

  /** The status of a run that ends before the reconciliation. */
  function EarlyStatus(w: World): Option<Status> {
    match w.eamLoad
    case EamPostgresError => Some(FailedLoadEamPostgres)
    case EamOtherError => Some(FailedLoadEam)
    case Loaded(eam) =>
      if eam == [] then Some(SkippedNoEamDevices)
      else if w.initError.Some? then Some(InitStatus(w.initError.value))
      else if w.fetchError.Some? then Some(FetchStatus(w.fetchError.value))
      else if w.cacheError.Some? then
        Some(if w.cacheError.value.LoadPostgresError? then FailedLoadCachePostgres else FailedLoadCache)
      else None
  }

  function FinalStatus(outcome: Outcome, degraded: bool, syncError: Option<SyncError>): Status {
    match outcome
    case MassDeleteRefused => FailedMassDeleteRefused
    case Failed => SyncStatus(syncError)
    case Synced => if degraded then FailedFetchDegraded else Ok
  }

  /** The reconciliation of one cycle, on values. */
  ghost function Sync(t: Table<LandbRow>, w: World): Result<LandbRow>
    requires w.eamLoad.Loaded?
  {
    Step(LandbEntity(), t, Join(w), w.order, !PartialView(w), false, w.syncError.None?)
  }

  ghost function Join(w: World): seq<CachedIp>
    requires w.eamLoad.Loaded?
  {
    BulkJoin(w.db, w.eamLoad.eam, w.faults)
  }

  ghost predicate PartialView(w: World)
    requires w.eamLoad.Loaded?
  {
    JoinDegraded(w.db, w.eamLoad.eam, w.faults)
  }

  /** One cycle on values. */
  ghost function RunCycle(t: Table<LandbRow>, w: World): Ended
    requires ValidWorld(w)
  {
    if EarlyStatus(w).Some? then Ended(t, EarlyStatus(w).value)
    else Ended(Sync(t, w).table, FinalStatus(Sync(t, w).outcome, PartialView(w), w.syncError))
  }

  class AvTools {
    const fetcher: BulkFetcher
    const table: CacheTable<CachedIp, LandbRow>

    constructor (fetcher: BulkFetcher, table: CacheTable<CachedIp, LandbRow>)
      ensures this.fetcher == fetcher && this.table == table
    {
      this.fetcher := fetcher;
      this.table := table;
    }

    /** The orchestrator's `run_landb`, proved to be `RunCycle`. */
    method Run(w: World) returns (status: Status)
      requires NormalTable(table.rows) && ValidWorld(w)
      modifies fetcher, table
      ensures Ended(table.rows, status) == RunCycle(old(table.rows), w)
    {
      if w.eamLoad.EamPostgresError? {
        return FailedLoadEamPostgres;
      }
      if w.eamLoad.EamOtherError? {
        return FailedLoadEam;
      }
      var eam := w.eamLoad.eam;
      if eam == [] {
        return SkippedNoEamDevices;
      }
      if w.initError.Some? {
        return InitStatus(w.initError.value);
      }
      fetcher.landbFetchDegraded := false;
      if w.fetchError.Some? {
        return FetchStatus(w.fetchError.value);
      }
      var landbIps := fetcher.GetLandbIpaddresses(w.db, eam, w.faults);
      var fetchDegraded := fetcher.landbFetchDegraded;
      if w.cacheError.Some? {
        return if w.cacheError.value.LoadPostgresError? then FailedLoadCachePostgres else FailedLoadCache;
      }
      var cacheList := table.GetAll(LandbEntity());
      var outcome := SyncEntities(LandbEntity(), landbIps, cacheList, w.order, table,
                                  !fetchDegraded, false, w.syncError.None?);
      match outcome
      case MassDeleteRefused => return FailedMassDeleteRefused;
      case Failed => return SyncStatus(w.syncError);
      case Synced =>
        if fetchDegraded {
          return FailedFetchDegraded;
        }
        return Ok;
    }
  }

  /** The command: run, then gate the heartbeat on the status string. */
  method RunLandbCommand(tools: AvTools, w: World) returns (exitOk: bool, heartbeat: bool)
    requires NormalTable(tools.table.rows) && ValidWorld(w)
    modifies tools.fetcher, tools.table
    ensures var c := RunCycle(old(tools.table.rows), w);
            && tools.table.rows == c.table
            && exitOk == !StatusIsFailure(Some(StatusText(c.status)))
            && heartbeat == EmitsHeartbeat(c.status, w.hasCredentials)
  {
    var status := tools.Run(w);
    if StatusIsFailure(Some(StatusText(status))) {
      return false, false;
    }
    exitOk := true;
    heartbeat := w.hasCredentials;
  }

  // ---- One cycle -------------------------------------------------------------------

  /** Only a completed or a skipped run is not a failure. */
  lemma FailureStatuses(s: Status)
    ensures StatusIsFailure(Some(StatusText(s))) <==> !(s.Ok? || s.SkippedNoEamDevices?)
  {
    assert "failed_"[0] == 'f' && "ok"[0] == 'o' && "skipped_no_eam_devices"[0] == 's';
  }

  /** The cache table holding exactly these joined items. */
  ghost function TableOf(items: seq<CachedIp>): Table<LandbRow> {
    Target(LandbEntity(), ItemMap(LandbEntity(), items))
  }

  /** More than half of the table is missing from the join. */
  ghost predicate BreakerTrips(t: Table<LandbRow>, items: seq<CachedIp>) {
    2 * |t.Keys - ItemMap(LandbEntity(), items).Keys| > |t|
  }

  ghost predicate Reconciles(w: World) {
    && w.eamLoad.Loaded? && w.eamLoad.eam != []
    && w.initError.None? && w.fetchError.None? && w.cacheError.None? && w.syncError.None?
  }

  lemma EarlyStatusMeaning(w: World)
    ensures EarlyStatus(w).None? <==> w.eamLoad.Loaded? && w.eamLoad.eam != []
                                      && w.initError.None? && w.fetchError.None? && w.cacheError.None?
    ensures EarlyStatus(w).Some? ==> !TouchesTable(EarlyStatus(w).value)
    ensures EarlyStatus(w) == Some(SkippedNoEamDevices) <==> w.eamLoad == Loaded([])
  {
  }

  predicate TouchesTable(s: Status) {
    s.Ok? || s.FailedFetchDegraded? || s.FailedMassDeleteRefused?
  }

  lemma RolledBackStatus(degraded: bool, e: Option<SyncError>)
    ensures !TouchesTable(FinalStatus(Failed, degraded, e)) && FinalStatus(Failed, degraded, e) != SkippedNoEamDevices
  {
  }

  lemma CommittedSync(t: Table<LandbRow>, w: World)
    requires NormalTable(t) && ValidWorld(w) && w.eamLoad.Loaded? && w.syncError.None?
    ensures var trips := !PartialView(w) && |t| > 0 && BreakerTrips(t, Join(w));
            Sync(t, w) == Result(if PartialView(w) || trips then t + TableOf(Join(w)) else TableOf(Join(w)),
                                 if trips then MassDeleteRefused else Synced)
  {
    JoinItems(w.db, w.eamLoad.eam, w.faults);
    LandbWellKeyed();
    NormalItemsAreLawful(Join(w));
    LandbClosedForm(t, Join(w), w.order, !PartialView(w));
    ClosedForm(LandbEntity(), t, Join(w), w.order, !PartialView(w), false);
  }

  lemma RolledBackSync(t: Table<LandbRow>, w: World)
    requires w.eamLoad.Loaded? && w.syncError.Some?
    ensures Sync(t, w) == Result(t, Failed)
  {
  }

  /** What ended a run: the first exception of its stages. */
  datatype Cause =
    | EamLoading(load: EamLoad)
    | Init(i: InitError)
    | Fetch(f: FetchError)
    | Cache(c: LoadError)
    | Commit(s: SyncError)

  function CauseOf(w: World): Option<Cause> {
    if !w.eamLoad.Loaded? then Some(EamLoading(w.eamLoad))
    else if w.eamLoad.eam == [] then None
    else if w.initError.Some? then Some(Init(w.initError.value))
    else if w.fetchError.Some? then Some(Fetch(w.fetchError.value))
    else if w.cacheError.Some? then Some(Cache(w.cacheError.value))
    else if w.syncError.Some? then Some(Commit(w.syncError.value))
    else None
  }

  function CauseStatus(c: Cause): Status {
    match c
    case EamLoading(load) => if load.EamPostgresError? then FailedLoadEamPostgres else FailedLoadEam
    case Init(e) => InitStatus(e)
    case Fetch(e) => FetchStatus(e)
    case Cache(e) => if e.LoadPostgresError? then FailedLoadCachePostgres else FailedLoadCache
    case Commit(e) => SyncStatus(Some(e))
  }

  lemma EarlyEnds(t: Table<LandbRow>, w: World)
    requires ValidWorld(w) && EarlyStatus(w).Some?
    ensures RunCycle(t, w).status == EarlyStatus(w).value
  {
  }

  lemma RolledBackEnds(t: Table<LandbRow>, w: World)
    requires ValidWorld(w) && EarlyStatus(w).None? && w.syncError.Some?
    ensures RunCycle(t, w).status == SyncStatus(w.syncError)
  {
    RolledBackSync(t, w);
    assert RunCycle(t, w).status == FinalStatus(Failed, PartialView(w), w.syncError);
  }

  lemma CauseIsFirst(w: World)
    requires CauseOf(w).Some?
    ensures CauseStatus(CauseOf(w).value)
         == if EarlyStatus(w).Some? then EarlyStatus(w).value else SyncStatus(w.syncError)
    ensures EarlyStatus(w).None? ==> w.syncError.Some?
  {
  }

  lemma CauseDecides(t: Table<LandbRow>, w: World)
    requires ValidWorld(w) && CauseOf(w).Some?
    ensures RunCycle(t, w).status == CauseStatus(CauseOf(w).value)
  {
    CauseIsFirst(w);
    if EarlyStatus(w).Some? {
      EarlyEnds(t, w);
    } else {
      RolledBackEnds(t, w);
    }
  }

  /** An EAM load that is not a success. */
  predicate Failing(c: Cause) {
    c.EamLoading? ==> !c.load.Loaded?
  }

  lemma CausesDiffer(c: Cause, d: Cause)
    requires Failing(c) && Failing(d)
    ensures CauseStatus(c) == CauseStatus(d) <==> c == d
  {
  }

  /** The status string of each exception. */
  function CauseText(c: Cause): string {
    match c
    case EamLoading(EamPostgresError) => "failed_load_eam_devices_postgres_error"
    case EamLoading(_) => "failed_load_eam_devices"
    case Init(InitTokenExpired) => "failed_client_init_token_expired"
    case Init(InitQuerySetError) => "failed_client_init_queryset_error"
    case Init(InitRestError) => "failed_client_init"
    case Init(InitOther) => "failed_client_init_unexpected"
    case Fetch(FetchTokenExpired) => "failed_fetch_token_expired"
    case Fetch(FetchValidationError) => "failed_fetch_validation_error"
    case Fetch(FetchQuerySetError) => "failed_fetch_queryset_error"
    case Fetch(FetchRestError) => "failed_fetch"
    case Fetch(FetchOther) => "failed_fetch_unexpected"
    case Cache(LoadPostgresError) => "failed_load_cached_devices_postgres_error"
    case Cache(LoadOther) => "failed_load_cached_devices"
    case Commit(SyncPostgresError) => "failed_sync_postgres_error"
    case Commit(SyncUtilsError) => "failed_sync_utils_error"
    case Commit(SyncOther) => "failed_sync"
  }

  lemma CauseHasText(c: Cause)
    requires Failing(c)
    ensures StatusText(CauseStatus(c)) == CauseText(c)
  {
  }

  /** A run that an exception ended returns that exception's status string. */
  lemma StatusTextOfCause(t: Table<LandbRow>, w: World)
    requires ValidWorld(w) && CauseOf(w).Some?
    ensures StatusText(RunCycle(t, w).status) == CauseText(CauseOf(w).value)
  {
    CauseDecides(t, w);
    CauseFails(w);
    CauseHasText(CauseOf(w).value);
  }

  lemma CauseFails(w: World)
    requires CauseOf(w).Some?
    ensures Failing(CauseOf(w).value)
  {
  }

  /** Two runs that an exception ended have the same status exactly when it was the same
      exception of the same stage. */
  lemma StatusTellsCause(t: Table<LandbRow>, w: World, v: Table<LandbRow>, u: World)
    requires ValidWorld(w) && CauseOf(w).Some? && ValidWorld(u) && CauseOf(u).Some?
    ensures RunCycle(t, w).status == RunCycle(v, u).status <==> CauseOf(w) == CauseOf(u)
  {
    CauseDecides(t, w);
    CauseDecides(v, u);
    CauseFails(w);
    CauseFails(u);
    CausesDiffer(CauseOf(w).value, CauseOf(u).value);
  }

  /** A run that gets as far as a committed reconciliation, in full: a clean run leaves
      exactly the join; a degraded or refused one overrides rows but removes none. */
  lemma ReconcilingCycle(t: Table<LandbRow>, w: World)
    requires NormalTable(t) && ValidWorld(w) && Reconciles(w)
    ensures var trips := !PartialView(w) && |t| > 0 && BreakerTrips(t, Join(w));
            RunCycle(t, w)
            == Ended(if PartialView(w) || trips then t + TableOf(Join(w)) else TableOf(Join(w)),
                     if trips then FailedMassDeleteRefused else if PartialView(w) then FailedFetchDegraded else Ok)
  {
    CommittedSync(t, w);
    CommittedEnds(t, w);
  }

  lemma CommittedEnds(t: Table<LandbRow>, w: World)
    requires ValidWorld(w) && Reconciles(w)
    ensures RunCycle(t, w) == Ended(Sync(t, w).table, FinalStatus(Sync(t, w).outcome, PartialView(w), None))
  {
    EarlyStatusMeaning(w);
  }

  /** Every other run leaves the table alone, and ends with another status. */
  lemma OtherCycle(t: Table<LandbRow>, w: World)
    requires ValidWorld(w) && !Reconciles(w)
    ensures RunCycle(t, w).table == t
    ensures !TouchesTable(RunCycle(t, w).status)
    ensures RunCycle(t, w).status.SkippedNoEamDevices? <==> w.eamLoad == Loaded([])
  {
    EarlyStatusMeaning(w);
    if EarlyStatus(w).None? {
      RolledBackSync(t, w);
      RolledBackStatus(PartialView(w), w.syncError);
    }
  }

  lemma {:induction false} ItemOfId(items: seq<CachedIp>, d: CachedIp)
    requires DistinctBy(LandbEntity().getId, items) && d in items
    ensures var id, a := LandbEntity().getId(d), ItemMap(LandbEntity(), items);
            id in a && a[id] == d
  {
    var n := |items| - 1;
    if d != items[n] {
      var i :| 0 <= i < n && items[i] == d;
      ItemOfId(items[..n], d);
      assert LandbEntity().getId(items[i]) != LandbEntity().getId(items[n]);
    }
  }

  lemma NaiveItemsDistinct(db: Landb, eam: seq<Equipment>)
    requires ValidSnapshot(eam) && NameDeterminesDevice(db)
    ensures DistinctBy(LandbEntity().getId, NaiveJoin(db, eam))
  {
    var f := JoinFaults(NoFaults(), NoFaults(), NoFaults(), NoFaults());
    JoinItems(db, eam, f);
    JoinIsNaive(db, eam, f);
  }

  /** A row of the join's table is the row of the naive join, unless a failed serial-number
      chunk has lost some record's device. */
  lemma JoinedRowIsNaive(w: World, k: string)
    requires w.eamLoad.Loaded? && ValidSnapshot(w.eamLoad.eam) && NameDeterminesDevice(w.db)
    requires forall eq :: eq in w.eamLoad.eam ==> !SerialLost(w.db, w.eamLoad.eam, w.faults, eq)
    requires k in TableOf(Join(w))
    ensures var naive := TableOf(NaiveJoin(w.db, w.eamLoad.eam)); k in naive && naive[k] == TableOf(Join(w))[k]
  {
    var naive := NaiveJoin(w.db, w.eamLoad.eam);
    ItemMapMeaning(LandbEntity(), Join(w));
    PartialJoinIsRight(w.db, w.eamLoad.eam, w.faults);
    NaiveItemsDistinct(w.db, w.eamLoad.eam);
    ItemOfId(naive, ItemMap(LandbEntity(), Join(w))[k]);
  }

  /** After a committing cycle, degraded or not, every row is the one of the complete naive join
      or was there before, as long as no failed serial-number chunk lost some record's device. */
  lemma PartialRowsAreRight(t: Table<LandbRow>, w: World, k: string)
    requires NormalTable(t) && ValidWorld(w) && Reconciles(w) && NameDeterminesDevice(w.db)
    requires forall eq :: eq in w.eamLoad.eam ==> !SerialLost(w.db, w.eamLoad.eam, w.faults, eq)
    requires k in RunCycle(t, w).table
    ensures var after, naive := RunCycle(t, w).table, TableOf(NaiveJoin(w.db, w.eamLoad.eam));
            if k in TableOf(Join(w)) then k in naive && after[k] == naive[k] else k in t && after[k] == t[k]
  {
    ReconcilingCycle(t, w);
    if k in TableOf(Join(w)) { JoinedRowIsNaive(w, k); }
  }

  lemma TableOfIsNormal(w: World)
    requires ValidWorld(w) && w.eamLoad.Loaded?
    ensures NormalTable(TableOf(Join(w)))
  {
    JoinItems(w.db, w.eamLoad.eam, w.faults);
    ItemMapMeaning(LandbEntity(), Join(w));
  }

  /** Every cycle keeps the table normal: trimmed cells, rows under their own key. */
  lemma CycleKeepsNormal(t: Table<LandbRow>, w: World)
    requires NormalTable(t) && ValidWorld(w)
    ensures NormalTable(RunCycle(t, w).table)
  {
    if Reconciles(w) {
      ReconcilingCycle(t, w);
      TableOfIsNormal(w);
      NormalOverride(t, TableOf(Join(w)));
    } else {
      OtherCycle(t, w);
    }
  }

  lemma NormalOverride(t: Table<LandbRow>, u: Table<LandbRow>)
    requires NormalTable(t) && NormalTable(u)
    ensures NormalTable(t + u)
  {
  }

  // ---- Every sequence of cycles --------------------------------------------------------

  ghost predicate ValidWorlds(ws: seq<World>) {
    forall w :: w in ws ==> ValidWorld(w)
  }

  ghost function TableAfter(t: Table<LandbRow>, ws: seq<World>): Table<LandbRow>
    requires ValidWorlds(ws)
  {
    if ws == [] then t else RunCycle(TableAfter(t, ws[..|ws| - 1]), ws[|ws| - 1]).table
  }

  lemma {:induction false} RunsKeepNormal(t: Table<LandbRow>, ws: seq<World>)
    requires NormalTable(t) && ValidWorlds(ws)
    ensures NormalTable(TableAfter(t, ws))
  {
    if ws != [] {
      RunsKeepNormal(t, ws[..|ws| - 1]);
      CycleKeepsNormal(TableAfter(t, ws[..|ws| - 1]), ws[|ws| - 1]);
    }
  }

  /** Exactly when a cycle emits the heartbeat. */
  lemma HeartbeatIff(t: Table<LandbRow>, w: World)
    requires NormalTable(t) && ValidWorld(w)
    ensures EmitsHeartbeat(RunCycle(t, w).status, w.hasCredentials) <==>
      w.hasCredentials && (w.eamLoad == Loaded([])
                           || (Reconciles(w) && !PartialView(w) && (|t| == 0 || !BreakerTrips(t, Join(w)))))
  {
    FailureStatuses(RunCycle(t, w).status);
    if Reconciles(w) {
      ReconcilingCycle(t, w);
    } else {
      OtherCycle(t, w);
    }
  }

  /** What a heartbeat guarantees, in any sequence of cycles from any normal table: the
      cycle that emitted it left the table exactly equal to the join of a fetch with no
      failed chunk, or the EAM snapshot was empty and the table untouched. When device
      names determine devices that join is the naive per-record lookup. */
  lemma HeartbeatGuarantee(t: Table<LandbRow>, ws: seq<World>, i: nat)
    requires NormalTable(t) && ValidWorlds(ws) && i < |ws|
    requires EmitsHeartbeat(RunCycle(TableAfter(t, ws[..i]), ws[i]).status, ws[i].hasCredentials)
    ensures var w := ws[i];
            var after := TableAfter(t, ws[..i + 1]);
            && w.eamLoad.Loaded?
            && (w.eamLoad.eam == [] ==> after == TableAfter(t, ws[..i]))
            && (w.eamLoad.eam != [] ==>
                && !PartialView(w) && after == TableOf(Join(w))
                && (NameDeterminesDevice(w.db) ==> after == TableOf(NaiveJoin(w.db, w.eamLoad.eam))))
  {
    var w := ws[i];
    var before := TableAfter(t, ws[..i]);
    assert ws[..i + 1][..i] == ws[..i];
    RunsKeepNormal(t, ws[..i]);
    HeartbeatIff(before, w);
    if Reconciles(w) {
      ReconcilingCycle(before, w);
      if NameDeterminesDevice(w.db) {
        JoinIsNaive(w.db, w.eamLoad.eam, w.faults);
      }
    } else {
      OtherCycle(before, w);
    }
  }

  // ---- What its rows hold --------------------------------------------------------------------

  /** Row `row` is that of record `eq`: it has an address, and its columns are those of a device
      and an IP record stored for that record. */
  ghost predicate RowFrom(db: Landb, eq: Equipment, row: LandbRow) {
    && eq.code == Some(row.equipmentNo) && row.details.ip.Some?
    && exists dev, ip :: Related(db, eq, dev, ip) && Describes(row.details, eq, ip, dev)
  }

  lemma RowOfItem(items: seq<CachedIp>, k: string)
    requires (forall d :: d in items ==> NormalItem(d)) && k in TableOf(items)
    ensures exists d :: d in items && d.equipmentNo == Some(k) && TableOf(items)[k] == LandbRow(k, d.details)
  {
    ItemMapMeaning(LandbEntity(), items);
    var d := ItemMap(LandbEntity(), items)[k];
    assert d in items && d.equipmentNo == Some(k);
  }

  /** Some EAM record has the row. */
  ghost predicate Described(w: World, row: LandbRow)
    requires w.eamLoad.Loaded?
  {
    exists eq :: eq in w.eamLoad.eam && RowFrom(w.db, eq, row)
  }

  lemma JoinedRowDescribes(w: World, k: string)
    requires w.eamLoad.Loaded? && ValidSnapshot(w.eamLoad.eam) && k in TableOf(Join(w))
    ensures Described(w, TableOf(Join(w))[k])
  {
    JoinItems(w.db, w.eamLoad.eam, w.faults);
    RowOfItem(Join(w), k);
    var d :| d in Join(w) && d.equipmentNo == Some(k) && TableOf(Join(w))[k] == LandbRow(k, d.details);
    ItemsDescribe(w.db, w.eamLoad.eam, w.faults, d);
    var eq :| eq in w.eamLoad.eam && ItemFrom(w.db, eq, d);
    assert eq.code == Some(k);
    assert RowFrom(w.db, eq, LandbRow(k, d.details));
  }

  /** After a cycle that emitted a heartbeat over a non-empty snapshot, every row of the table is
      of some EAM record, column by column. */
  lemma HeartbeatRowsDescribe(t: Table<LandbRow>, ws: seq<World>, i: nat, k: string)
    requires NormalTable(t) && ValidWorlds(ws) && i < |ws|
    requires EmitsHeartbeat(RunCycle(TableAfter(t, ws[..i]), ws[i]).status, ws[i].hasCredentials)
    requires ws[i].eamLoad != Loaded([]) && k in TableAfter(t, ws[..i + 1])
    ensures ws[i].eamLoad.Loaded? && Described(ws[i], TableAfter(t, ws[..i + 1])[k])
  {
    HeartbeatGuarantee(t, ws, i);
    assert ValidWorld(ws[i]);
    JoinedRowDescribes(ws[i], k);
  }

  lemma NaiveRowDescribes(db: Landb, eam: seq<Equipment>, eq: Equipment, dev: Device, ip: IpRecord)
    requires ValidSnapshot(eam) && NameDeterminesDevice(db) && eq in eam && Addressed(db, eq, dev, ip)
    ensures var rows := TableOf(NaiveJoin(db, eam));
            eq.code.value in rows && Describes(rows[eq.code.value].details, eq, ip, dev)
  {
    NaiveItemDescribes(db, eq, dev, ip);
    var d := NaiveOne(db)(eq)[0];
    var i :| 0 <= i < |eam| && eam[i] == eq;
    assert d in NaiveOne(db)(eam[i]);
    FlatMapSource(NaiveOne(db), eam, d);
    NaiveItemsDistinct(db, eam);
    ItemOfId(NaiveJoin(db, eam), d);
    NaiveItemIsNormal(db, eam, d);
  }

  lemma NaiveItemIsNormal(db: Landb, eam: seq<Equipment>, d: CachedIp)
    requires ValidSnapshot(eam) && NameDeterminesDevice(db) && d in NaiveJoin(db, eam)
    ensures NormalItem(d)
  {
    var f := JoinFaults(NoFaults(), NoFaults(), NoFaults(), NoFaults());
    JoinItems(db, eam, f);
    JoinIsNaive(db, eam, f);
  }

  /** And every record whose device has an address has its row: that of the first device with
      its serial number, else of the first its description names, and of that device's first
      IP record. */
  lemma HeartbeatRowsComplete(t: Table<LandbRow>, ws: seq<World>, i: nat, eq: Equipment, dev: Device, ip: IpRecord)
    requires NormalTable(t) && ValidWorlds(ws) && i < |ws|
    requires EmitsHeartbeat(RunCycle(TableAfter(t, ws[..i]), ws[i]).status, ws[i].hasCredentials)
    requires ws[i].eamLoad.Loaded? && eq in ws[i].eamLoad.eam
    requires NameDeterminesDevice(ws[i].db) && Addressed(ws[i].db, eq, dev, ip)
    ensures var after := TableAfter(t, ws[..i + 1]);
            eq.code.Some? && eq.code.value in after && Describes(after[eq.code.value].details, eq, ip, dev)
  {
    HeartbeatGuarantee(t, ws, i);
    assert ValidWorld(ws[i]);
    NaiveRowDescribes(ws[i].db, ws[i].eamLoad.eam, eq, dev, ip);
  }

  /** A row leaves the table only in a cycle that ends `ok`, so with a complete fetch that
      does not contain it, and never more than half of the table at once. */
  lemma RowLeavesOnlyWhenOk(t: Table<LandbRow>, w: World)
    requires NormalTable(t) && ValidWorld(w)
    ensures |t| <= 2 * |RunCycle(t, w).table|
    ensures forall k :: k in t && k !in RunCycle(t, w).table ==>
              RunCycle(t, w).status.Ok? && !PartialView(w) && k !in TableOf(Join(w))
  {
    if Reconciles(w) {
      ReconcilingCycle(t, w);
      StepRemovesAtMostHalf(LandbEntity(), t, Join(w), w.order, !PartialView(w), true);
    } else {
      OtherCycle(t, w);
    }
  }

  /** No sequence of cycles, with any LanDB answers and failures, empties the table. */
  lemma {:induction false} FleetNeverVanishes(t: Table<LandbRow>, ws: seq<World>)
    requires NormalTable(t) && ValidWorlds(ws)
    ensures |t| <= Doubled(|ws|, |TableAfter(t, ws)|)
    ensures |t| > 0 ==> |TableAfter(t, ws)| > 0
  {
    if ws != [] {
      var n := |ws| - 1;
      var mid := TableAfter(t, ws[..n]);
      FleetNeverVanishes(t, ws[..n]);
      RunsKeepNormal(t, ws[..n]);
      RowLeavesOnlyWhenOk(mid, ws[n]);
      DoubledMeaning(n, |mid|, |TableAfter(t, ws)|);
    }
  }
}
