/**
 * The point-in-time restore drill as a transition system: the persisted state
 * file, the source database's commit log, the RDS instances and the history of
 * approvals and effects, with one engine call in flight.
 */
module Drill {
  import opened Prelude
  import opened Markers

  // ------------------------------------------------------------------------
  // Persisted state

  datatype Phase =
    | Initialized | MarkerAWritten | WindowReady | MarkerBWritten | RestoreRequested | TargetAvailable
    | Validated | CleanupPending | TargetDeleteRequested | TargetDeleted | SourceMarkerCleaned | Cleaned

  function Rank(p: Phase): nat {
    match p
    case Initialized => 0
    case MarkerAWritten => 1
    case WindowReady => 2
    case MarkerBWritten => 3
    case RestoreRequested => 4
    case TargetAvailable => 5
    case Validated => 6
    case CleanupPending => 7
    case TargetDeleteRequested => 8
    case TargetDeleted => 9
    case SourceMarkerCleaned => 10
    case Cleaned => 11
  }

  predicate NeedsRestoreApproval(p: Phase) {
    p in {Initialized, MarkerAWritten, WindowReady, MarkerBWritten}
  }

  predicate CleanupStarted(p: Phase) {
    p in {CleanupPending, TargetDeleteRequested, TargetDeleted, SourceMarkerCleaned}
  }

  datatype Network = Network(subnetGroup: string, securityGroups: seq<string>, port: int)

  /** What preflight fixes for the whole drill. */
  datatype Prepared = Prepared(
    drillId: string, account: string, region: string,
    sourceId: string, sourceArn: string, sourceResourceId: string, sourceEndpoint: string,
    sourceClass: string, sourceStorage: int, network: Network,
    targetId: string, targetClass: string, migrationImage: string, secretHash: string,
    payload: string, tags: map<string, string>)

  datatype Window = Window(earliest: Time, latest: Time)

  datatype State = State(
    schema: int, phase: Phase, prep: Prepared,
    targetArn: string, targetResourceId: string, targetEndpoint: string, targetSecretArn: string,
    checksum: Option<Digest>, restoreTime: Option<Time>, window: Option<Window>,
    validated: bool)  // whether ValidatedAt is set

  const SCHEMA_VERSION := 1

  function InitialState(p: Prepared): State {
    State(SCHEMA_VERSION, Initialized, p, "", "", "", "", None, None, None, false)
  }

  function Tag(tags: map<string, string>, key: string): string {
    if key in tags then tags[key] else ""
  }

  predicate Blank(s: string) {
    forall i :: 0 <= i < |s| ==> s[i] in " \t\n\r"
  }

  predicate HexDigest(s: string) {
    |s| == 64 && forall i :: 0 <= i < 64 ==> '0' <= s[i] <= '9' || 'a' <= s[i] <= 'f'
  }

  /** name@sha256:<64 hex digits> */
  predicate ImmutableImage(image: string) {
    && |image| > 72
    && image[|image| - 72..|image| - 64] == "@sha256:"
    && HexDigest(image[|image| - 64..])
    && '@' !in image[..|image| - 72]
  }

  predicate ValidPrepared(p: Prepared) {
    && !Blank(p.drillId) && !Blank(p.sourceId) && !Blank(p.targetId)
    && p.sourceId != p.targetId
    && p.account != "" && p.region != ""
    && p.sourceArn != "" && p.sourceResourceId != "" && p.sourceEndpoint != ""
    && p.sourceClass != "" && p.network.subnetGroup != "" && p.network.securityGroups != []
    && p.network.port >= 1 && p.sourceStorage >= 1
    && p.targetClass != "" && ImmutableImage(p.migrationImage)
    && HexDigest(p.secretHash)
    && Tag(p.tags, "Purpose") == "restore-drill" && Tag(p.tags, "DrillID") == p.drillId
  }

  predicate ValidState(s: State) {
    s.schema == SCHEMA_VERSION && ValidPrepared(s.prep)
  }

  // ------------------------------------------------------------------------
  // World

  datatype InstanceStatus = StatusCreating | StatusAvailable | StatusDeleting | OtherStatus

  datatype Instance = Instance(
    arn: string, resourceId: string, endpoint: string, secretArn: string, status: InstanceStatus,
    instanceClass: string, storage: int, network: Network,
    publiclyAccessible: bool, encrypted: bool, multiAz: bool, retention: int,
    tags: map<string, string>, data: Db)

  datatype Event =
    | CallStarted
    | RestoreApproved(drill: string, source: string, target: string)
    | CleanupApproved(drill: string, source: string, target: string)
    | MarkerWritten(drill: string, name: string)
    | TargetCreated(id: string)
    | TargetDeletion(id: string, tags: map<string, string>)
    | TargetAbsent(id: string)
    | MarkersCleaned(drill: string)
    | ValidationPassed(id: string, found: Db, expected: Digest)  // what the validation Job read from the target
    | InventoryVerified(inventory: map<string, Instance>, window: Window)  // what the last cleanup check saw

  datatype World = World(
    persisted: Option<State>, clock: Time, log: seq<Commit>,
    rds: map<string, Instance>, history: seq<Event>, account: string, region: string)

  datatype Call = RunCall | CleanupCall

  /** Where the engine call in flight stands; `approved` when its gate was passed. */
  datatype Engine =
    | Idle
    | Preparing
    | Creating(s: State)
    | RestoreGate(s: State)
    | Preflight(s: State)
    | CleanupGate(s: State)
    | Entering(s: State)
    | Loop(s: State, call: Call, approved: bool)
    | ReadingTime(s: State)
    | Saving(s: State, call: Call, approved: bool)
    | Stamping(s: State)
    | Failing(s: State)

  datatype Sys = Sys(w: World, e: Engine)

  // ------------------------------------------------------------------------
  // Choices: how each interaction with the outside turns out

  datatype Fault = NoFault | FailBefore | FailAfter

  datatype Choice = Choice(
    fault: Fault, gap: nat, window: Window, checks: bool,
    arn: string, resourceId: string, endpoint: string, secretArn: string, storage: int)

  datatype Action =
    | BeginRun
    | BeginCleanup
    | Prepare(p: Prepared)
    | GiveUp                      // a preflight, an approval or a load fails
    | Approve
    | PreflightDone
    | Operate(choice: Choice)
    | Save(fault: Fault)
    | Crash
    | Tick(gap: nat)
    | ForeignCommit(tx: Tx)
    | Progress(id: string, newEndpoint: string)
    | FinishDelete(id: string)
    | OutsideSet(id: string, inst: Instance)
    | OutsideRemove(id: string)

  // ------------------------------------------------------------------------
  // Operations

  /** Done carries the updated state, still in its old phase. */
  datatype Outcome = Done(w: World, s: State) | Failed(w: World)

  function Record(w: World, ev: Event): World {
    w.(history := w.history + [ev])
  }

  function Commits(w: World, tx: Tx, gap: nat): World {
    var now := w.clock + 1 + gap;
    w.(clock := now, log := w.log + [Commit(now, tx)])
  }

  predicate ValidWindow(v: Window) {
    v.earliest < v.latest
  }

  predicate InWindow(v: Window, t: Option<Time>) {
    t.Some? && v.earliest <= t.value < v.latest
  }

  /** Identity and network of the source still match the preflight. */
  predicate SourceChecked(w: World, p: Prepared) {
    && p.account == w.account && p.region == w.region
    && p.sourceId in w.rds
    && var src := w.rds[p.sourceId];
       && src.status == StatusAvailable && !src.publiclyAccessible && src.encrypted && src.retention >= 1
       && src.arn == p.sourceArn && src.resourceId == p.sourceResourceId
       && src.endpoint == p.sourceEndpoint && src.network == p.network
  }

  predicate SameTarget(s: State, inst: Instance) {
    && (s.targetArn != "" ==> inst.arn == s.targetArn)
    && (s.targetResourceId != "" ==> inst.resourceId == s.targetResourceId)
    && inst.arn != ""
  }

  predicate TargetVerified(s: State, inst: Instance) {
    && s.prep.targetId != s.prep.sourceId
    && SameTarget(s, inst)
    && !inst.publiclyAccessible && inst.encrypted && !inst.multiAz && inst.retention == 0
    && inst.instanceClass == s.prep.targetClass && inst.storage >= s.prep.sourceStorage
    && inst.network == s.prep.network
    && forall k :: k in s.prep.tags ==> Tag(inst.tags, k) == s.prep.tags[k]
  }

  const CLEANUP_TAGS := ["Project", "Environment", "ManagedBy", "Purpose", "DrillID"]

  predicate CleanupVerified(s: State, inst: Instance) {
    && s.prep.targetId != s.prep.sourceId
    && SameTarget(s, inst)
    && (forall i :: 0 <= i < |CLEANUP_TAGS| ==>
          Tag(s.prep.tags, CLEANUP_TAGS[i]) == ""
            || Tag(inst.tags, CLEANUP_TAGS[i]) == Tag(s.prep.tags, CLEANUP_TAGS[i]))
    && Tag(inst.tags, "Purpose") == "restore-drill" && Tag(inst.tags, "DrillID") == s.prep.drillId
  }

  predicate CleanupIdentity(w: World, p: Prepared) {
    && p.account == w.account && p.region == w.region
    && p.sourceId != "" && p.targetId != "" && p.sourceId != p.targetId
  }

  predicate TaggedDrill(inst: Instance) {
    Tag(inst.tags, "Purpose") == "restore-drill"
  }

  function WithTarget(s: State, inst: Instance): State {
    s.(targetArn := inst.arn, targetResourceId := inst.resourceId,
       targetEndpoint := inst.endpoint, targetSecretArn := inst.secretArn)
  }

  function WriteMarker(w: World, s: State, name: string, c: Choice): Outcome {
    var tx := InsertMarker(s.prep.drillId, name, s.prep.payload, name == "A");
    if c.fault == FailBefore || ApplyTx(Replay(w.log), tx).None? then Failed(w)
    else
      var w' := Record(Commits(w, tx, c.gap), MarkerWritten(s.prep.drillId, name));
      if c.fault == FailAfter then Failed(w') else Done(w', s)
  }

  /** The SELECT that follows the committed insert of marker A. */
  function ReadTime(w: World, s: State, c: Choice): Outcome {
    var db := Replay(w.log);
    var now := w.clock + 1 + c.gap;
    if c.fault != NoFault || !HasMarker(db, s.prep.drillId, "A") then Failed(w)
    else
      var stored := db.markers.value[(s.prep.drillId, "A")];
      Done(w.(clock := now),
           s.(restoreTime := Some(now), checksum := Some(MarkerChecksum(s.prep.drillId, "A", stored))))
  }

  function WaitWindow(w: World, s: State, c: Choice): Outcome {
    if c.fault == NoFault && ValidWindow(c.window) && InWindow(c.window, s.restoreTime)
    then Done(w, s.(window := Some(c.window)))
    else Failed(w)
  }

  function NewTarget(w: World, s: State, c: Choice): Instance
    requires s.restoreTime.Some?
  {
    Instance(c.arn, c.resourceId, c.endpoint, c.secretArn, StatusCreating,
             s.prep.targetClass, c.storage, s.prep.network, false, true, false, 0,
             s.prep.tags, SnapshotAt(w.log, s.restoreTime.value))
  }

  function RequestRestore(w: World, s: State, c: Choice): Outcome {
    if c.fault == FailBefore || !SourceChecked(w, s.prep) || !InWindow(c.window, s.restoreTime) then Failed(w)
    else if s.prep.targetId in w.rds then
      var existing := w.rds[s.prep.targetId];
      if c.fault == NoFault && TargetVerified(s, existing) then Done(w, WithTarget(s, existing)) else Failed(w)
    else if exists id :: id in w.rds && TaggedDrill(w.rds[id]) then Failed(w)
    else
      var inst := NewTarget(w, s, c);
      var w' := Record(w.(rds := w.rds[s.prep.targetId := inst]), TargetCreated(s.prep.targetId));
      if c.fault == FailAfter then Failed(w') else Done(w', WithTarget(s, inst))
  }

  function WaitAvailable(w: World, s: State, c: Choice): Outcome {
    if c.fault == NoFault && s.prep.targetId in w.rds
       && w.rds[s.prep.targetId].status == StatusAvailable && TargetVerified(s, w.rds[s.prep.targetId])
    then Done(w, WithTarget(s, w.rds[s.prep.targetId]))
    else Failed(w)
  }

  /** What stands between the restored target and a passed validation. */
  predicate TargetValidates(w: World, s: State) {
    && s.prep.targetId in w.rds
    && var inst := w.rds[s.prep.targetId];
       && TargetVerified(s, inst)
       && inst.endpoint != "" && inst.endpoint != s.prep.sourceEndpoint && inst.resourceId != s.prep.sourceResourceId
       && s.checksum.Some? && Validates(inst.data, s.prep.drillId, s.checksum.value)
  }

  /** `checks` stands for the application Secret's unchanged hash. */
  function ValidateTarget(w: World, s: State, c: Choice): Outcome {
    if c.fault == NoFault && c.checks && TargetValidates(w, s)
    then Done(Record(w, ValidationPassed(s.prep.targetId, w.rds[s.prep.targetId].data, s.checksum.value)), s)
    else Failed(w)
  }

  predicate CleanupPrepared(w: World, s: State) {
    CleanupIdentity(w, s.prep)
    && (s.prep.targetId in w.rds ==> CleanupVerified(s, w.rds[s.prep.targetId]))
  }

  function DeleteTarget(w: World, s: State, c: Choice): Outcome {
    if c.fault == FailBefore || !CleanupPrepared(w, s) then Failed(w)
    else if s.prep.targetId !in w.rds || w.rds[s.prep.targetId].status == StatusDeleting then
      if c.fault == NoFault then Done(w, s) else Failed(w)
    else
      var inst := w.rds[s.prep.targetId];
      var w' := Record(w.(rds := w.rds[s.prep.targetId := inst.(status := StatusDeleting)]),
                       TargetDeletion(s.prep.targetId, inst.tags));
      if c.fault == FailAfter then Failed(w') else Done(w', s)
  }

  function WaitDeleted(w: World, s: State, c: Choice): Outcome {
    if c.fault == NoFault && s.prep.targetId !in w.rds
    then Done(Record(w, TargetAbsent(s.prep.targetId)), s)
    else Failed(w)
  }

  function CleanupMarkers(w: World, s: State, c: Choice): Outcome {
    if c.fault == FailBefore then Failed(w)
    else
      var w' := Record(Commits(w, CleanupDrill(s.prep.drillId), c.gap), MarkersCleaned(s.prep.drillId));
      if c.fault == FailAfter then Failed(w') else Done(w', s)
  }

  /** `checks` stands for the Secret hash and the snapshot, managed Secret and Job inventories. */
  function VerifyClean(w: World, s: State, c: Choice): Outcome {
    if && c.fault == NoFault && c.checks
       && s.prep.targetId !in w.rds
       && (forall id :: id in w.rds ==> !(TaggedDrill(w.rds[id]) && Tag(w.rds[id].tags, "DrillID") == s.prep.drillId))
       && SourceChecked(w, s.prep) && ValidWindow(c.window)
    then Done(Record(w, InventoryVerified(w.rds, c.window)), s)
    else Failed(w)
  }

  // ------------------------------------------------------------------------
  // Steps

  function Persist(w: World, s: State, fault: Fault): World {
    if fault == FailBefore || !ValidState(s) then w else w.(persisted := Some(s))
  }

  predicate SaveSucceeds(s: State, fault: Fault) {
    fault == NoFault && ValidState(s)
  }

  function AfterLoad(w: World, s: State): Sys {
    Sys(w, if s.phase == CleanupPending || s.phase == Cleaned then Idle
           else if NeedsRestoreApproval(s.phase) then RestoreGate(s)
           else Loop(s, RunCall, false))
  }

  function Advance(o: Outcome, s: State, next: Phase, call: Call, approved: bool): Sys {
    match o
    case Failed(w) => Sys(w, Failing(s))
    case Done(w, s') => Sys(w, Saving(s'.(phase := next), call, approved))
  }

  /** The phase that follows in the drill's order. */
  function Following(p: Phase): (next: Phase)
    ensures p != Cleaned ==> Rank(next) == Rank(p) + 1
  {
    match p
    case Initialized => MarkerAWritten
    case MarkerAWritten => WindowReady
    case WindowReady => MarkerBWritten
    case MarkerBWritten => RestoreRequested
    case RestoreRequested => TargetAvailable
    case TargetAvailable => Validated
    case Validated => CleanupPending
    case CleanupPending => TargetDeleteRequested
    case TargetDeleteRequested => TargetDeleted
    case TargetDeleted => SourceMarkerCleaned
    case SourceMarkerCleaned => Cleaned
    case Cleaned => Cleaned
  }

  /** What Run does in a phase; for the first phase, only the write that a read of the clock follows. */
  function RunOperation(w: World, s: State, c: Choice): Outcome {
    match s.phase
    case Initialized => WriteMarker(w, s, "A", c)
    case MarkerAWritten => WaitWindow(w, s, c)
    case WindowReady => WriteMarker(w, s, "B", c)
    case MarkerBWritten => RequestRestore(w, s, c)
    case RestoreRequested => WaitAvailable(w, s, c)
    case TargetAvailable => ValidateTarget(w, s, c)
    case Validated => Done(w, s.(validated := true))
    case _ => Failed(w)
  }

  /** What Cleanup does in a phase. */
  function CleanupOperation(w: World, s: State, c: Choice): Outcome {
    match s.phase
    case CleanupPending => DeleteTarget(w, s, c)
    case TargetDeleteRequested => WaitDeleted(w, s, c)
    case TargetDeleted => CleanupMarkers(w, s, c)
    case SourceMarkerCleaned => VerifyClean(w, s, c)
    case _ => Failed(w)
  }

  /** One iteration of the loop in Run. */
  function RunIteration(w: World, s: State, approved: bool, c: Choice): Sys {
    var o := RunOperation(w, s, c);
    if Rank(s.phase) > 6 then Sys(w, Idle)
    else if s.phase == Initialized && o.Done? then Sys(o.w, ReadingTime(s))
    else Advance(o, s, Following(s.phase), RunCall, approved)
  }

  /** One iteration of the loop in Cleanup. */
  function CleanupIteration(w: World, s: State, approved: bool, c: Choice): Sys {
    if !CleanupStarted(s.phase) then Sys(w, Idle)
    else Advance(CleanupOperation(w, s, c), s, Following(s.phase), CleanupCall, approved)
  }

  function SaveStep(w: World, e: Engine, fault: Fault): Option<Sys> {
    match e
    case Creating(s) =>
      Some(if SaveSucceeds(s, fault) then AfterLoad(Persist(w, s, fault), s) else Sys(Persist(w, s, fault), Idle))
    case Entering(s) =>
      Some(Sys(Persist(w, s, fault), if SaveSucceeds(s, fault) then Loop(s, CleanupCall, true) else Idle))
    case Saving(s, call, approved) =>
      Some(Sys(Persist(w, s, fault),
               if !SaveSucceeds(s, fault) then Failing(s)
               else if s.phase == Cleaned then Stamping(s)
               else Loop(s, call, approved)))
    case Stamping(s) =>
      Some(Sys(Persist(w, s, fault), if SaveSucceeds(s, fault) then Idle else Failing(s)))
    case Failing(s) => Some(Sys(Persist(w, s, fault), Idle))
    case _ => None
  }

  function InMemory(e: Engine): Option<State> {
    if e.Idle? || e.Preparing? then None else Some(e.s)
  }

  predicate TouchesDrill(tx: Tx, drill: string) {
    (tx.InsertMarker? || tx.CleanupDrill?) && tx.drill == drill
  }

  predicate OwnDrill(sys: Sys, drill: string) {
    || (sys.w.persisted.Some? && sys.w.persisted.value.prep.drillId == drill)
    || (InMemory(sys.e).Some? && InMemory(sys.e).value.prep.drillId == drill)
  }

  predicate OwnTarget(sys: Sys, id: string) {
    || (sys.w.persisted.Some? && sys.w.persisted.value.prep.targetId == id)
    || (InMemory(sys.e).Some? && InMemory(sys.e).value.prep.targetId == id)
  }

  /** None when the action is not possible at this point. */
  function Step(sys: Sys, a: Action): Option<Sys> {
    var w, e := sys.w, sys.e;
    match a
    case BeginRun =>
      if !e.Idle? then None
      else if w.persisted.None? then Some(Sys(Record(w, CallStarted), Preparing))
      else Some(AfterLoad(Record(w, CallStarted), w.persisted.value))
    case BeginCleanup =>
      if !e.Idle? || w.persisted.None? then None
      else Some(Sys(Record(w, CallStarted),
                    if w.persisted.value.phase == Cleaned then Idle else Preflight(w.persisted.value)))
    case Prepare(p) =>
      if e.Preparing? && forall i :: 0 <= i < |w.log| ==> !TouchesDrill(w.log[i].tx, p.drillId)
      then Some(Sys(w, Creating(InitialState(p)))) else None
    case GiveUp =>
      if e.Preparing? || e.RestoreGate? || e.Preflight? || e.CleanupGate? then Some(Sys(w, Idle)) else None
    case Approve =>
      (match e
       case RestoreGate(s) =>
         Some(Sys(Record(w, RestoreApproved(s.prep.drillId, s.prep.sourceId, s.prep.targetId)), Loop(s, RunCall, true)))
       case CleanupGate(s) =>
         var w' := Record(w, CleanupApproved(s.prep.drillId, s.prep.sourceId, s.prep.targetId));
         Some(Sys(w', if CleanupStarted(s.phase) then Loop(s, CleanupCall, true)
                      else Entering(s.(phase := CleanupPending))))
       case _ => None)
    case PreflightDone =>
      if e.Preflight? && CleanupPrepared(w, e.s) then
        Some(Sys(w, if CleanupStarted(e.s.phase) && e.s.phase != CleanupPending then Loop(e.s, CleanupCall, false)
                    else CleanupGate(e.s)))
      else None
    case Operate(c) =>
      (match e
       case Loop(s, call, approved) =>
         Some(if call == RunCall then RunIteration(w, s, approved, c) else CleanupIteration(w, s, approved, c))
       case ReadingTime(s) => Some(Advance(ReadTime(w, s, c), s, MarkerAWritten, RunCall, true))
       case _ => None)
    case Save(fault) => SaveStep(w, e, fault)
    case Crash => Some(Sys(w, Idle))
    case Tick(gap) => Some(Sys(w.(clock := w.clock + gap), e))
    case ForeignCommit(tx) =>
      if (tx.InsertMarker? || tx.CleanupDrill?) && OwnDrill(sys, tx.drill) then None
      else if ApplyTx(Replay(w.log), tx).None? then None
      else Some(Sys(Commits(w, tx, 0), e))
    case Progress(id, newEndpoint) =>
      if id in w.rds && w.rds[id].status == StatusCreating
      then Some(Sys(w.(rds := w.rds[id := w.rds[id].(status := StatusAvailable, endpoint := newEndpoint)]), e))
      else None
    case FinishDelete(id) =>
      if id in w.rds && w.rds[id].status == StatusDeleting
      then Some(Sys(w.(rds := w.rds - {id}), e)) else None
    case OutsideSet(id, inst) => Some(Sys(w.(rds := w.rds[id := inst]), e))
    case OutsideRemove(id) => Some(Sys(w.(rds := w.rds - {id}), e))
  }

  function Exec(sys: Sys, acts: seq<Action>): Option<Sys> {
    if acts == [] then Some(sys)
    else
      match Exec(sys, acts[..|acts| - 1])
      case None => None
      case Some(mid) => Step(mid, acts[|acts| - 1])
  }

  /** Before the drill: no state file, no history, any database and any instances. */
  ghost predicate Initial(sys: Sys) {
    && sys.e.Idle?
    && sys.w.persisted.None?
    && sys.w.history == []
    && Committed(sys.w.log) && TimesIncrease(sys.w.log)
    && (forall i :: 0 <= i < |sys.w.log| ==> sys.w.log[i].time <= sys.w.clock)
  }
}
