/** The rows of the coordinator's database (coordinator/migrations, coordinator/src/store.rs). */
module CoordinatorTypes {
  import opened Common
  import S = Sagas
  import P = PairIntents
  import X = ExitAuthorities
  import V = VenueLogs

  datatype ActionKind =
    | SubmitPerp | ReconcilePerp | SubmitSpot | ReconcileSpot
    | UnwindPerp | ReconcileUnwind | UnwindSpot | ReconcileUnwindSpot

  // The order a Lighter transaction carries.
  datatype LighterOrder = LighterOrder(
    marketIndex: nat, clientOrderIndex: nat, baseAmount: nat, price: nat, isAsk: bool, reduceOnly: bool,
    nonce: nat, expiresAt: nat)

  // `encodable` is whether `broadcast_lighter` can serialize this transaction at all.
  datatype SignedTx = SignedTx(txHash: nat, order: LighterOrder, encodable: bool)

  datatype SpotRequest = SpotRequest(
    requestId: nat, spotIntentId: nat, stockToken: nat, buy: bool, amountIn: nat, minimumOut: nat,
    deadline: nat, configVersion: nat)

  datatype Submission = Submission(requestId: nat, txHash: nat)

  // The JSON payload of an action; a missing key is None.
  datatype Payload = Payload(
    filledBase: Option<nat>, unwoundBefore: Option<nat>, attempt: Option<nat>, orderIndex: Option<nat>,
    operatorRecovery: bool, authority: Option<X.ExitAuthority>, txHash: Option<nat>,
    spotAmount: Option<nat>, requestId: Option<nat>, recoveryRequest: Option<SpotRequest>)

  const NO_PAYLOAD: Payload := Payload(None, None, None, None, false, None, None, None, None, None)

  datatype SendAuthorization = EntrySend(controlVersion: nat) | UnwindSend(session: nat, eventId: nat)

  // The JSON result of an action; `orderId` is what an applied observation left behind.
  datatype Results = Results(
    signed: Option<SignedTx>, authorized: Option<SendAuthorization>, request: Option<SpotRequest>,
    submission: Option<Submission>, completion: Option<Submission>, orderId: Option<nat>)

  const NO_RESULTS: Results := Results(None, None, None, None, None, None)

  datatype Lease = Lease(owner: nat, token: nat, expiresAt: nat)

  // The lease columns are set exactly in the leased status.
  datatype Status = Pending | Leased(lease: Lease) | Succeeded | Rejected | Ambiguous | FailedSafe

  // `UnknownReason` is any other text; recovery refuses it.
  datatype RecoveryReason = OperatorRecovery | IncidentRecovery | UnknownReason

  // Action keys, unique per intent.
  datatype Key =
    | EntryPerpKey | ReconcileEntryKey | HedgeSpotKey | ReconcileSpotKey
    | EmergencyPerpKey | EmergencyPerpRetryKey(attempt: nat) | ReconcileUnwindKey(orderIndex: nat)
    | EmergencySpotKey | ReconcileUnwindSpotKey
    | ExitKey(perp: bool, session: nat, eventId: nat)
    | RecoveryKey(source: nat, kind: ActionKind, requestedAt: nat, reason: RecoveryReason)

  datatype ActionRow = ActionRow(
    intentId: nat, kind: ActionKind, key: Key, payload: Payload, results: Results, status: Status,
    availableAt: nat)
  {
    predicate Live() { status.Pending? || status.Leased? }
  }

  // `log` is execution_events for the intent, its `created` marker at version 0 left out.
  datatype IntentRow = IntentRow(intent: P.PairIntent, saga: S.Saga, log: seq<S.Event>, active: bool)

  datatype Core = Core(
    intents: map<nat, IntentRow>,
    actions: map<nat, ActionRow>,
    cursors: map<nat, nat>,        // execution_unwind_cursors
    orderIndexes: map<nat, nat>,   // execution_identifiers, namespace lighter_client_order
    spotIds: map<nat, nat>)        // execution_identifiers, namespace spot_intent

  datatype Mode = Active | ReduceOnly | Halted

  // `halts` counts the halts committed so far; the source keeps only their effect.
  datatype Control = Control(mode: Mode, version: nat, halts: nat)

  datatype Scope = Scope(account: nat, apiKey: nat)
  datatype Reservation = Reservation(scope: Scope, nonce: nat)

  datatype NonceTable = NonceTable(next: map<Scope, nat>, reservations: map<nat, Reservation>)

  datatype Db = Db(now: nat, control: Control, core: Core, venue: V.VenueLog, nonces: NonceTable)

  datatype NextAction = NextAction(kind: ActionKind, key: Key, payload: Payload)

  datatype StoreError =
    | LeaseLost | InvalidAction | InvalidIntent | MissingIntent | Transition(cause: S.SagaError)
    | CoordinatorHalted | Conflict | MarketAuthorityUnavailable | MarketEvidenceMismatch
    | LighterConfigDrift | VenueEventConflict

  // coordinator/src/worker.rs `is_poison_error`
  predicate IsPoison(e: StoreError) { e.InvalidAction? || e.Transition? }

  datatype CoreResult = CoreOk(core: Core) | CoreErr(error: StoreError)
  datatype DbResult = DbOk(db: Db) | DbErr(error: StoreError)

  // What a worker knows about the action it claimed.
  datatype Claim = Claim(
    actionId: nat, worker: nat, token: nat, intent: P.PairIntent, saga: S.Saga, kind: ActionKind,
    payload: Payload, results: Results, controlVersion: nat, haltsAtClaim: nat)

  predicate OrderKind(k: ActionKind) { k.SubmitPerp? || k.UnwindPerp? }

  predicate SpotKind(k: ActionKind) { k.SubmitSpot? || k.UnwindSpot? }
}
