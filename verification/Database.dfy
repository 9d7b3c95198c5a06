/** One replicated database as a value: the fields of PZGDatabaseState together
    with the application's database, and what each operation does to them.
    The class in DatabaseState.dfy performs the same operations in place and is
    proved to compute exactly these functions. */
module Database {
  import opened Tables

  /** GetFirstKeyWithDefault((uint64)-1): what an empty log advertises. */
  const NO_OLDEST_ID: nat := 0xFFFF_FFFF_FFFF_FFFF

  datatype Kind = Noop | Reset | Replace | Incremental

  datatype Update<M> = Update(kind: Kind, id: nat, pre: nat, post: nat, payload: Option<M>)

  /** What a junior can have on back-order: the whole database, or one update. */
  datatype OrderKey = FullDatabase | UpdateId(id: nat)

  datatype Beacon = Beacon(id: nat, oldest: nat, checksum: nat)

  datatype Request<M> = ResetRequest | ReplaceRequest(state: Option<M>) | UpdateRequest(change: Option<M>)

  datatype Status = Ok | BadData | LogicError

  /** The application that plugs into the replication engine, as the hooks the
      engine calls: SeniorUpdate, JuniorUpdate, SetFromArchive, SaveToArchive,
      GetCurrentChecksum and CalculateChecksum. `good` is the application's own
      invariant and `size` the flattened size of a message. */
  datatype App<!D, !M> = App(
    initial: D,
    senior: (D, M) -> (D, Option<M>),
    junior: (D, M) -> (D, bool),
    load: (D, M) -> (D, bool),
    save: D -> Option<M>,
    running: D -> nat,
    recompute: D -> nat,
    size: M -> nat,
    good: D -> bool)

  /** What the engine learns from its surroundings during one call: whether a
      senior peer is known, and which order requests can be sent. */
  datatype Env = Env(hasSenior: bool, canOrder: OrderKey -> bool)

  datatype Db<D, M> = Db(
    log: map<nat, Update<M>>,
    payloadBytes: int,
    maxPayloadBytes: nat,
    localId: nat,
    seniorId: nat,
    seniorOldest: nat,
    seniorKnown: bool,
    content: D,
    checksum: nat,
    firstUnsent: nat,
    attached: bool,
    rescanPending: bool,
    orders: set<OrderKey>)

  /** A peer's database right after it attaches to its server. */
  function Fresh<D, M>(app: App<D, M>, maxPayloadBytes: nat, attached: bool): Db<D, M> {
    Db(map[], 0, maxPayloadBytes, 0, 0, NO_OLDEST_ID, false,
       app.initial, app.running(app.initial), 0, attached, false, {})
  }

  function PayloadBytes<D, M>(app: App<D, M>, u: Update<M>): nat {
    match u.payload
    case None => 0
    case Some(m) => app.size(m)
  }

  /** The payload bytes really in the log, which `payloadBytes` is meant to track. */
  ghost function TrueBytes<D, M>(app: App<D, M>, log: map<nat, Update<M>>): int {
    Total(log, (k: nat, u: Update<M>) => PayloadBytes(app, u) as int)
  }

  /** Every log key is the ID of the update filed under it. */
  ghost predicate Keyed<M>(log: map<nat, Update<M>>) {
    forall k :: k in log ==> log[k].id == k
  }

  // ----- The update log -----

  function Schedule<D, M>(db: Db<D, M>): Db<D, M> {
    db.(rescanPending := db.rescanPending || db.attached)
  }

  function AddUpdate<D, M>(app: App<D, M>, db: Db<D, M>, u: Update<M>, iAmSenior: bool): Db<D, M> {
    Schedule(db.(
      log := db.log[u.id := u],
      payloadBytes := db.payloadBytes + PayloadBytes(app, u),
      seniorOldest := if db.log == map[] && iAmSenior then u.id else db.seniorOldest))
  }

  function RemoveUpdate<D, M>(app: App<D, M>, db: Db<D, M>, id: nat, iAmSenior: bool): Db<D, M> {
    if id in db.log then
      var log := db.log - {id};
      db.(log := log,
          payloadBytes := db.payloadBytes - PayloadBytes(app, db.log[id]),
          seniorOldest := if log == map[] && iAmSenior then NO_OLDEST_ID else db.seniorOldest)
    else db
  }

  // ----- Requests, on the senior -----

  function Complete<D, M>(app: App<D, M>, db: Db<D, M>, id: nat, payload: Option<M>): Db<D, M>
    requires id in db.log
  {
    var u := db.log[id];
    var v := u.(post := db.checksum, payload := payload);
    db.(log := db.log[id := v],
        payloadBytes := db.payloadBytes - PayloadBytes(app, u) + PayloadBytes(app, v),
        localId := db.localId + 1,
        seniorId := db.localId + 1)
  }

  function SetContent<D, M>(app: App<D, M>, db: Db<D, M>, content: D): Db<D, M> {
    db.(content := content, checksum := app.running(content))
  }

  /** HandleDatabaseUpdateRequest for the three requests a senior peer accepts:
      file the numbered update, execute it, then complete it or roll it back. */
  function HandleRequest<D, M>(app: App<D, M>, db: Db<D, M>, request: Request<M>): (Db<D, M>, Status) {
    var id := db.localId + 1;
    match request
    case ResetRequest =>
      var filed := AddUpdate(app, db, Update(Reset, id, db.checksum, 0, None), true);
      (Complete(app, SetContent(app, filed, app.initial), id, None), Ok)
    case ReplaceRequest(None) => (db, BadData)
    case ReplaceRequest(Some(m)) =>
      var filed := AddUpdate(app, db, Update(Replace, id, db.checksum, 0, None), true);
      var result := app.load(db.content, m);
      var executed := SetContent(app, filed, result.0);
      if result.1 then (Complete(app, executed, id, Some(m)), Ok)
      else (RemoveUpdate(app, executed, id, true), BadData)
    case UpdateRequest(None) => (db, BadData)
    case UpdateRequest(Some(m)) =>
      var filed := AddUpdate(app, db, Update(Incremental, id, db.checksum, 0, None), true);
      var result := app.senior(db.content, m);
      var executed := SetContent(app, filed, result.0);
      match result.1
      case Some(j) => (Complete(app, executed, id, Some(j)), Ok)
      case None => (RemoveUpdate(app, executed, id, true), LogicError)
  }

  // ----- Rescan, on the senior -----

  /** Of the log's IDs in order, those handed to multicast: the ones not sent
      before whose send succeeds. */
  function SentOf(keys: seq<nat>, firstUnsent: nat, canSend: nat -> bool): seq<nat> {
    if keys == [] then []
    else
      var last := keys[|keys| - 1];
      SentOf(keys[..|keys| - 1], firstUnsent, canSend)
      + if last >= firstUnsent && canSend(last) then [last] else []
  }

  function AfterLast(ids: seq<nat>, firstUnsent: nat): nat {
    if ids == [] then firstUnsent else ids[|ids| - 1] + 1
  }

  function SentIds<D, M>(db: Db<D, M>, canSend: nat -> bool): seq<nat> {
    SentOf(SortedKeys(db.log.Keys), db.firstUnsent, canSend)
  }

  function SeniorTrim<D, M>(app: App<D, M>, db: Db<D, M>): Db<D, M>
    decreases |db.log|
  {
    if db.payloadBytes > db.maxPayloadBytes && |db.log| > 1 then
      SeniorTrim(app, RemoveUpdate(app, db, FirstKey(db.log.Keys), true))
    else db
  }

  function SeniorRescan<D, M>(app: App<D, M>, db: Db<D, M>, canSend: nat -> bool): Db<D, M> {
    SeniorTrim(app, db.(rescanPending := false, firstUnsent := AfterLast(SentIds(db, canSend), db.firstUnsent)))
  }

  function Advertise<D, M>(db: Db<D, M>): Beacon {
    Beacon(db.localId, if db.log == map[] then NO_OLDEST_ID else FirstKey(db.log.Keys), db.checksum)
  }

  // ----- Orders, on a junior -----

  function RequestOrder<D, M>(db: Db<D, M>, key: OrderKey, env: Env): Db<D, M> {
    if key !in db.orders && env.canOrder(key) then db.(orders := db.orders + {key}) else db
  }

  /** The newest state there is any sign of: an update in the log or the senior's beacon. */
  function Target<D, M>(db: Db<D, M>): (r: nat)
    ensures r >= db.seniorId && forall k :: k in db.log ==> k <= r
    ensures r == db.seniorId || r in db.log
  {
    var last := LastKey(db.log.Keys);
    if last > db.seniorId then last else db.seniorId
  }

  /** Puts every update from `id` to `target` that is not in the log on order;
      the first order that cannot be placed turns into one for the whole database. */
  function OrderMissing<D, M>(db: Db<D, M>, id: nat, target: nat, env: Env): Db<D, M>
    decreases target + 1 - id
  {
    if id > target then db
    else if id in db.log || UpdateId(id) in db.orders then OrderMissing(db, id + 1, target, env)
    else if env.canOrder(UpdateId(id)) then
      OrderMissing(RequestOrder(db, UpdateId(id), env), id + 1, target, env)
    else RequestOrder(db, FullDatabase, env)
  }

  // ----- Executing updates, on a junior -----

  /** What an update does to the application's database, and whether it succeeds. */
  function Outcome<D, M>(app: App<D, M>, content: D, u: Update<M>): (D, bool) {
    match u.kind
    case Noop => (content, true)
    case Reset => (app.initial, true)
    case Replace => if u.payload.Some? then app.load(content, u.payload.value) else (content, false)
    case Incremental => if u.payload.Some? then app.junior(content, u.payload.value) else (content, false)
  }

  predicate Executable<M>(u: Update<M>) {
    u.kind == Reset || (u.kind != Noop && u.payload.Some?)
  }

  function Apply<D, M>(app: App<D, M>, db: Db<D, M>, u: Update<M>): (Db<D, M>, bool) {
    var result := Outcome(app, db.content, u);
    (if Executable(u) then SetContent(app, db, result.0) else db, result.1)
  }

  function ExecuteUpdate<D, M>(app: App<D, M>, db: Db<D, M>, u: Update<M>): (Db<D, M>, bool) {
    if db.localId + 1 != u.id || db.checksum != u.pre then (db, false)
    else ExecuteReplace(app, db, u)
  }

  function ExecuteReplace<D, M>(app: App<D, M>, db: Db<D, M>, u: Update<M>): (Db<D, M>, bool) {
    var result := Apply(app, db, u);
    if result.1 && result.0.checksum == u.post then (result.0.(localId := u.id), true)
    else (result.0, false)
  }

  // ----- Rescan, on a junior -----

  /** One turn of the replay loop: execute the next logged update, or arrange
      for it when it is missing or fails; the flag says whether to go on. */
  function ReplayStep<D, M>(app: App<D, M>, db: Db<D, M>, target: nat, env: Env): (Db<D, M>, bool) {
    var next := db.localId + 1;
    if next in db.log then
      var result := ExecuteUpdate(app, db, db.log[next]);
      if result.1 then result else (RequestOrder(result.0, FullDatabase, env), false)
    else if !env.hasSenior then (db, false)
    else if next < db.seniorOldest then (RequestOrder(db, FullDatabase, env), false)
    else (OrderMissing(db, next, target, env), false)
  }

  function Replay<D, M>(app: App<D, M>, db: Db<D, M>, target: nat, env: Env): Db<D, M>
    decreases target - db.localId
  {
    if db.localId >= target then db
    else
      var step := ReplayStep(app, db, target, env);
      if step.1 then Replay(app, step.0, target, env) else step.0
  }

  predicate StillNeeded<D, M>(db: Db<D, M>, id: nat) {
    db.localId < id <= Target(db) && FullDatabase !in db.orders
  }

  function JuniorTrim<D, M>(app: App<D, M>, db: Db<D, M>): Db<D, M>
    decreases |db.log|
  {
    if db.payloadBytes > db.maxPayloadBytes && |db.log| > 1 && !StillNeeded(db, FirstKey(db.log.Keys)) then
      JuniorTrim(app, RemoveUpdate(app, db, FirstKey(db.log.Keys), false))
    else db
  }

  /** Everything a junior's rescan does before it trims its log. */
  function CatchUp<D, M>(app: App<D, M>, db: Db<D, M>, env: Env): Db<D, M> {
    if FullDatabase in db.orders then db
    else if db.localId == 0 && Target(db) > 1 then RequestOrder(db, FullDatabase, env)
    else Replay(app, db, Target(db), env)
  }

  function BeginRescan<D, M>(db: Db<D, M>): Db<D, M> {
    db.(rescanPending := false, firstUnsent := db.localId + 1)
  }

  function JuniorRescan<D, M>(app: App<D, M>, db: Db<D, M>, env: Env): Db<D, M> {
    if !db.seniorKnown then db.(rescanPending := false)
    else JuniorTrim(app, CatchUp(app, BeginRescan(db), env))
  }

  // ----- What else a junior hears -----

  function HearBeacon<D, M>(db: Db<D, M>, b: Beacon): Db<D, M> {
    if b.id != db.seniorId || b.oldest != db.seniorOldest then
      Schedule(db.(seniorKnown := true, seniorId := b.id, seniorOldest := b.oldest))
    else db
  }

  /** BackOrderResultReceived. `current` says that the order was placed with the
      peer that is still senior, and that this peer is not. */
  function OrderResult<D, M>(app: App<D, M>, db: Db<D, M>, key: OrderKey, result: Option<Update<M>>,
                             current: bool, env: Env): Db<D, M>
  {
    if key !in db.orders then db
    else
      var rest := db.(orders := db.orders - {key});
      if !current then rest
      else match (key, result)
        case (FullDatabase, None) => rest
        case (FullDatabase, Some(u)) =>
          var executed := ExecuteReplace(app, rest, u);
          if executed.1 then Schedule(executed.0) else executed.0
        case (UpdateId(_), Some(u)) => AddUpdate(app, rest, u, false)
        case (UpdateId(_), None) => RequestOrder(rest, FullDatabase, env)
  }

  // ----- Serving orders, on the senior -----

  function VerifyChecksum<D, M>(app: App<D, M>, db: Db<D, M>): Db<D, M> {
    db.(checksum := app.recompute(db.content))
  }

  function Serve<D, M>(app: App<D, M>, db: Db<D, M>, key: OrderKey): Option<Update<M>> {
    match key
    case UpdateId(id) => if id in db.log then Some(db.log[id]) else None
    case FullDatabase =>
      match app.save(db.content)
      case None => None
      case Some(m) => Some(Update(Replace, db.localId, db.checksum, db.checksum, Some(m)))
  }

  // ----- What the operations change and what they leave alone -----

  /** One numbered log entry more, with the checksums before and after it. */
  ghost predicate OneEntryMore<D, M>(db: Db<D, M>, r: Db<D, M>) {
    var id := db.localId + 1;
    && r.localId == r.seniorId == id && id in r.log && r.log == db.log[id := r.log[id]]
    && r.log[id].id == id && r.log[id].pre == db.checksum && r.log[id].post == r.checksum
  }

  lemma FiledShape<D, M>(app: App<D, M>, db: Db<D, M>, kind: Kind, content: D, payload: Option<M>)
    ensures var id := db.localId + 1;
            var filed := AddUpdate(app, db, Update(kind, id, db.checksum, 0, None), true);
            var executed := SetContent(app, filed, content);
            && id in executed.log
            && OneEntryMore(db, Complete(app, executed, id, payload))
            && RemoveUpdate(app, executed, id, true).localId == db.localId
            && RemoveUpdate(app, executed, id, true).log == db.log - {id}
  {
  }

  /** A successful request adds exactly one such entry; a failed one leaves no trace
      in the log. */
  lemma RequestShape<D, M>(app: App<D, M>, db: Db<D, M>, request: Request<M>)
    ensures var (r, status) := HandleRequest(app, db, request);
            if status == Ok then OneEntryMore(db, r)
            else r.localId == db.localId && (r.log == db.log || r.log == db.log - {db.localId + 1})
  {
    hide AddUpdate, SetContent, Complete, RemoveUpdate;
    match request {
      case ResetRequest => FiledShape(app, db, Reset, app.initial, None);
      case ReplaceRequest(Some(m)) => FiledShape(app, db, Replace, app.load(db.content, m).0, Some(m));
      case UpdateRequest(Some(m)) => FiledShape(app, db, Incremental, app.senior(db.content, m).0, app.senior(db.content, m).1);
      case _ =>
    }
  }

  lemma ApplyFrame<D, M>(app: App<D, M>, db: Db<D, M>, u: Update<M>)
    ensures var r := Apply(app, db, u);
            r.0 == db.(content := r.0.content, checksum := r.0.checksum)
  {
  }

  lemma ExecuteFrame<D, M>(app: App<D, M>, db: Db<D, M>, u: Update<M>)
    ensures var (r, ok) := ExecuteUpdate(app, db, u);
            && r == db.(content := r.content, checksum := r.checksum, localId := r.localId)
            && r.localId == (if ok then db.localId + 1 else db.localId)
            && (ok ==> u.id == r.localId && r.checksum == u.post)
  {
    ApplyFrame(app, db, u);
  }

  lemma NothingMissingPast<D, M>(db: Db<D, M>, id: nat, target: nat, env: Env)
    requires id > target
    ensures OrderMissing(db, id, target, env) == db
  {
  }

  lemma {:induction false} OrderMissingFrame<D, M>(db: Db<D, M>, id: nat, target: nat, env: Env)
    ensures var r := OrderMissing(db, id, target, env);
            r == db.(orders := r.orders) && db.orders <= r.orders
    decreases target + 1 - id
  {
    if id <= target {
      if id in db.log || UpdateId(id) in db.orders {
        OrderMissingFrame(db, id + 1, target, env);
      } else if env.canOrder(UpdateId(id)) {
        OrderMissingFrame(RequestOrder(db, UpdateId(id), env), id + 1, target, env);
      }
    }
  }

  lemma ReplayStepFrame<D, M>(app: App<D, M>, db: Db<D, M>, target: nat, env: Env)
    ensures var (r, more) := ReplayStep(app, db, target, env);
            && r == db.(content := r.content, checksum := r.checksum, localId := r.localId, orders := r.orders)
            && db.orders <= r.orders
            && r.localId == (if more then db.localId + 1 else db.localId)
            && (more ==> r.orders == db.orders)
  {
    var next := db.localId + 1;
    if next in db.log {
      ExecuteFrame(app, db, db.log[next]);
    } else {
      OrderMissingFrame(db, next, target, env);
    }
  }

  lemma {:induction false} ReplayFrame<D, M>(app: App<D, M>, db: Db<D, M>, target: nat, env: Env)
    ensures var r := Replay(app, db, target, env);
            && r == db.(content := r.content, checksum := r.checksum, localId := r.localId, orders := r.orders)
            && db.orders <= r.orders
            && db.localId <= r.localId
            && (db.localId <= target ==> r.localId <= target)
    decreases target - db.localId
  {
    if db.localId < target {
      ReplayStepFrame(app, db, target, env);
      var (next, more) := ReplayStep(app, db, target, env);
      if more {
        ReplayFrame(app, next, target, env);
      }
    }
  }

  lemma CatchUpFrame<D, M>(app: App<D, M>, db: Db<D, M>, env: Env)
    ensures var r := CatchUp(app, db, env);
            && r == db.(content := r.content, checksum := r.checksum, localId := r.localId, orders := r.orders)
            && db.orders <= r.orders
            && db.localId <= r.localId
  {
    ReplayFrame(app, db, Target(db), env);
  }
}
