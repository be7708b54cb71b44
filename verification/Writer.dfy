/**
 * The writer of signer/robinhood/writer.go: Submit journals a transaction before it sends it,
 * and a reconciliation pass settles pending records against one view of the chain.
 */
module Writers {
  import opened Common
  import opened Journals

  // ---------------------------------------------------------------- fees

  // One eighth more, and at least one more.
  function Bumped(v: nat): (r: nat)
    ensures r > v
  {
    var more := v * 9 / 8;
    if more <= v then v + 1 else more
  }

  lemma BumpedMonotone(u: nat, v: nat)
    requires u <= v
    ensures Bumped(u) <= Bumped(v)
  {
  }

  // The tip and fee cap Submit settles on, over those of the transaction it replaces.
  function Tip(suggested: nat, was: Option<Row>): (r: nat) {
    match was case None => suggested case Some(row) => Max(suggested, Bumped(row.tip))
  }

  function FeeCap(suggested: nat, baseFee: nat, was: Option<Row>): (r: nat) {
    var current := 2 * baseFee + suggested;
    match was case None => current case Some(row) => Max(current, Bumped(row.maxFee))
  }

  function GasLimit(estimate: nat, was: Option<Row>): (r: nat) {
    var limit := estimate + estimate / 5;
    match was case None => limit case Some(row) => Max(limit, row.gas)
  }

  /** Replacements pay strictly more on both fees, and no tip ever exceeds its fee cap. */
  lemma FeesStayOrdered(suggested: nat, baseFee: nat, was: Option<Row>)
    requires was.Some? ==> was.value.tip <= was.value.maxFee
    ensures Tip(suggested, was) <= FeeCap(suggested, baseFee, was)
    ensures was.Some? ==> was.value.tip < Tip(suggested, was) && was.value.maxFee < FeeCap(suggested, baseFee, was)
  {
    if was.Some? { BumpedMonotone(was.value.tip, was.value.maxFee); }
  }

  // ---------------------------------------------------------------- submitting

  datatype Request = Request(id: nat, target: Option<nat>, intent: SpotIntent, digest: nat)

  datatype SendOutcome = Delivered | KnownAlready | NonceConsumed | Failed

  // What Submit reads from outside; a missing value is a failed call.
  datatype Readings = Readings(
    wellFormed: bool, verified: bool, simulated: bool, gas: Option<nat>, tip: Option<nat>, baseFee: Option<nat>,
    observed: Option<nat>, balance: Option<nat>, txHash: Option<nat>,
    commits: bool, send: SendOutcome, updates: bool, now: nat)

  datatype Outcome =
    | Refused                 // nothing was journaled, nothing was sent
    | Known(row: Row)         // the request was journaled before
    | Accepted(status: TxStatus)
    | Unclear(status: TxStatus)

  datatype Sent = Sent(key: RowKey, txHash: nat)

  function RecordOf(q: Request, r: Readings, nonce: nat, was: Option<Row>): (s: SignedRecord)
    requires r.gas.Some? && r.tip.Some? && r.baseFee.Some? && r.txHash.Some?
  {
    SignedRecord(q.id, q.intent, q.digest, nonce, r.txHash.value,
                 FeeCap(r.tip.value, r.baseFee.value, was), Tip(r.tip.value, was), GasLimit(r.gas.value, was))
  }

  // The checks between the fee computation and the signature.
  predicate Affordable(record: SignedRecord, caps: Caps, balance: Option<nat>) {
    && record.tip <= caps.maxTip && record.maxFee <= caps.maxFee && record.gas <= caps.maxGas
    && record.gas * record.maxFee <= caps.maxCost
    && balance.Some? && balance.value >= record.gas * record.maxFee + caps.reserve
  }

  lemma AffordableIsWithinCaps(q: Request, r: Readings, nonce: nat, was: Option<Row>, caps: Caps, parent: Option<nat>,
                               depth: nat, at: nat)
    requires r.gas.Some? && r.tip.Some? && r.baseFee.Some? && r.txHash.Some?
    requires was.Some? ==> was.value.tip <= was.value.maxFee
    requires Affordable(RecordOf(q, r, nonce, was), caps, r.balance) && depth <= caps.maxReplacements
    ensures WithinCaps(NewRow(RecordOf(q, r, nonce, was), parent, depth, at), caps)
  {
    FeesStayOrdered(r.tip.value, r.baseFee.value, was);
  }

  lemma ReplacementContinues(q: Request, r: Readings, was: Row, target: nat)
    requires r.gas.Some? && r.tip.Some? && r.baseFee.Some? && r.txHash.Some?
    requires was.tip <= was.maxFee && q.intent == was.intent
    ensures Continues(NewRow(RecordOf(q, r, was.nonce, Some(was)), Some(target), was.depth + 1, was.familyAt), was)
  {
    FeesStayOrdered(r.tip.value, r.baseFee.value, Some(was));
  }

  // ---------------------------------------------------------------- reconciling

  // A row as `Pending` read it when the pass began.
  datatype PendingRecord = PendingRecord(request: nat, intentId: nat, nonce: nat, txHash: nat, status: TxStatus)

  // What one pass finds out about a record.  `writes` counts the journal updates that succeed while
  // the record is settled; one that fails stops the pass where it stands.
  datatype Probe =
    | Invalid(written: bool)                            // fails validateRecord; a failed quarantine goes unnoticed
    | Unreadable                                        // receipt or canonical header unavailable or in dispute
    | Missing(send: SendOutcome, writes: nat)           // no receipt; what a rebroadcast would say
    | Mined(block: nat, success: bool, writes: nat)

  predicate Confirmed(s: TxStatus) { s.SoftConfirmed? || s.L1Posted? }

  function MinedStatus(block: nat, success: bool, safe: nat, finalized: nat): (s: TxStatus) {
    if !success then Reverted
    else if finalized >= block then EthereumFinal
    else if safe >= block then L1Posted
    else SoftConfirmed
  }

  // Receipt, siblings, and one update for each level of finality the block has reached.
  function MinedWrites(block: nat, success: bool, safe: nat, finalized: nat): (n: nat) {
    if !success then 2 else 2 + (if safe >= block then 1 else 0) + (if finalized >= block then 1 else 0)
  }

  // The journal after the first `n` of those updates.
  function MinedAfter(db: JournalDb, k: RowKey, r: PendingRecord, block: nat, success: bool, safe: nat, finalized: nat,
                      n: nat): (out: JournalDb)
    requires k in db.rows
  {
    var status := if !success then Reverted
                  else if n >= MinedWrites(block, success, safe, finalized) then MinedStatus(block, success, safe, finalized)
                  else if n == 3 then L1Posted else SoftConfirmed;
    var placed := WithStatus(db, k, status, Some(block));
    if n == 0 then db else if n == 1 then placed else SupersededIn(placed, k, r.intentId, r.nonce)
  }

  function SettleMissing(db: JournalDb, k: RowKey, status: TxStatus, send: SendOutcome, writes: nat)
    : (r: (JournalDb, bool))
  {
    var lost := if !Confirmed(status) then Some(db) else if writes == 0 then None else AmbiguousIn(db, k);
    var left := if Confirmed(status) && writes > 0 then writes - 1 else writes;
    if lost.None? then (db, false)
    else if status.Replaced? || send.NonceConsumed? then (lost.value, left > 0)
    else if send.Failed? || left == 0 || SubmittedIn(lost.value, k).None? then (lost.value, false)
    else (SubmittedIn(lost.value, k).value, left > 1)
  }

  // One record: the new journal, and whether the pass goes on.
  function Settle(db: JournalDb, d: nat, r: PendingRecord, probe: Probe, safe: nat, finalized: nat)
    : (n: (JournalDb, bool))
  {
    var k := RowKey(d, r.request);
    match probe
    case Invalid(written) => (if written then QuarantinedIn(db, k) else db, false)
    case Unreadable => (db, false)
    case Missing(send, writes) => SettleMissing(db, k, r.status, send, writes)
    case Mined(block, success, writes) =>
      if k !in db.rows then (db, false)
      else (MinedAfter(db, k, r, block, success, safe, finalized, writes),
            writes >= MinedWrites(block, success, safe, finalized))
  }

  function Pass(db: JournalDb, d: nat, records: seq<PendingRecord>, probes: map<nat, Probe>, safe: nat, finalized: nat)
    : (n: (JournalDb, bool))
    decreases |records|
  {
    if records == [] then (db, true) else
    var last := records[|records|-1];
    var front := Pass(db, d, records[..|records|-1], probes, safe, finalized);
    if !front.1 then front
    else Settle(front.0, d, last, ProbeOf(probes, last), safe, finalized)
  }

  function ProbeOf(probes: map<nat, Probe>, r: PendingRecord): (p: Probe) {
    if r.request in probes then probes[r.request] else Unreadable
  }

  // The list is a snapshot of distinct, pending rows.
  ghost predicate IsSnapshot(db: JournalDb, d: nat, records: seq<PendingRecord>) {
    && (forall i | 0 <= i < |records| ::
          && RowKey(d, records[i].request) in db.rows
          && var row := db.rows[RowKey(d, records[i].request)];
             row.nonce == records[i].nonce && row.intent.id == records[i].intentId && row.txHash == records[i].txHash
             && row.status == records[i].status && !row.status.Terminal())
    && (forall i, j | 0 <= i < j < |records| :: records[i].request != records[j].request)
  }

  // The chain includes at most one transaction of a signer per nonce.
  ghost predicate OneReceipt(records: seq<PendingRecord>, probes: map<nat, Probe>) {
    forall i, j | 0 <= i < j < |records| && records[i].nonce == records[j].nonce ::
      !(ProbeOf(probes, records[i]).Mined? && ProbeOf(probes, records[j]).Mined?)
  }

  // ---------------------------------------------------------------- one record

  lemma SettleOnlyStatus(db: JournalDb, d: nat, r: PendingRecord, probe: Probe, safe: nat, finalized: nat)
    ensures OnlyStatus(db, Settle(db, d, r, probe, safe, finalized).0)
  {
  }

  // Settling touches its own row and, when mined, its pending siblings.
  lemma SettleElsewhere(db: JournalDb, d: nat, r: PendingRecord, probe: Probe, safe: nat, finalized: nat, k: RowKey)
    requires k in db.rows && k != RowKey(d, r.request)
    ensures var n := Settle(db, d, r, probe, safe, finalized).0;
            k in n.rows
            && n.rows[k] == if probe.Mined? && probe.writes >= 2 && RowKey(d, r.request) in db.rows
                               && Supersedes(db, RowKey(d, r.request), k, r.intentId, r.nonce)
                            then db.rows[k].(status := TxStatus.Superseded) else db.rows[k]
  {
  }

  /** Without a receipt a settled row is never reopened: the update is refused and the pass stops. */
  lemma MissingKeepsTerminal(db: JournalDb, k: RowKey, status: TxStatus, send: SendOutcome, writes: nat)
    requires k in db.rows && db.rows[k].status.Terminal()
    ensures SettleMissing(db, k, status, send, writes).0 == db
  {
  }

  // ---------------------------------------------------------------- the pass

  // What holds after the first records: each mined one stands, its family is settled, and
  // every row that became terminal did so for one of them.
  ghost predicate Settled(db: JournalDb, now: JournalDb, d: nat, records: seq<PendingRecord>, probes: map<nat, Probe>,
                          safe: nat, finalized: nat)
  {
    && OnlyStatus(db, now)
    && (forall k | k in db.rows && db.rows[k].status.Terminal() :: now.rows[k] == db.rows[k])
    && (forall i | 0 <= i < |records| && ProbeOf(probes, records[i]).Mined? ::
          MinedAlone(db, now, d, records[i], ProbeOf(probes, records[i]), safe, finalized))
    && (forall k | k in db.rows && !db.rows[k].status.Terminal() && now.rows[k].status.Terminal() ::
          SettledBySome(db, now, d, records, probes, k))
  }

  // Some mined record of the list shares the row's nonce: the row is that record's, or superseded by it.
  ghost predicate SettledBySome(db: JournalDb, now: JournalDb, d: nat, records: seq<PendingRecord>,
                                probes: map<nat, Probe>, k: RowKey)
    requires k in db.rows && k in now.rows
  {
    exists i :: 0 <= i < |records| && ProbeOf(probes, records[i]).Mined? && SettledBy(db, now, d, records[i], k)
  }

  predicate SettledBy(db: JournalDb, now: JournalDb, d: nat, r: PendingRecord, k: RowKey)
    requires k in db.rows && k in now.rows
  {
    k.deployment == d && db.rows[k].nonce == r.nonce && (now.rows[k].status.Superseded? || k == RowKey(d, r.request))
  }

  // A sibling was settled before the pass, or is superseded now.
  predicate OutOfTheWay(db: JournalDb, now: JournalDb, o: RowKey) {
    && o in db.rows && o in now.rows
    && if db.rows[o].status.Terminal() then now.rows[o] == db.rows[o] else now.rows[o].status.Superseded?
  }

  ghost predicate MinedAlone(db: JournalDb, now: JournalDb, d: nat, r: PendingRecord, probe: Probe, safe: nat,
                             finalized: nat)
    requires probe.Mined?
  {
    var k := RowKey(d, r.request);
    && k in now.rows && now.rows[k].status == MinedStatus(probe.block, probe.success, safe, finalized)
    && now.rows[k].block == Some(probe.block)
    && forall o | o in now.rows && o != k && o.deployment == d && now.rows[o].intent.id == r.intentId
                  && now.rows[o].nonce == r.nonce :: OutOfTheWay(db, now, o)
  }

  // A row of the last mined record's nonce was not settled by an earlier one, unless before the pass.
  lemma SiblingWasOpen(db: JournalDb, now: JournalDb, d: nat, records: seq<PendingRecord>, probes: map<nat, Probe>,
                       safe: nat, finalized: nat, o: RowKey)
    requires |records| > 0 && OneReceipt(records, probes)
    requires ProbeOf(probes, records[|records|-1]).Mined?
    requires Settled(db, now, d, records[..|records|-1], probes, safe, finalized)
    requires o in db.rows && o in now.rows && db.rows[o].nonce == records[|records|-1].nonce
    ensures !db.rows[o].status.Terminal() ==> !now.rows[o].status.Terminal()
  {
    var front := records[..|records|-1];
    assert forall i | 0 <= i < |front| :: front[i] == records[i];
  }

  // A mined row had no settled sibling of this pass, so recording its receipt overwrites nothing settled.
  lemma MinedWasPending(db: JournalDb, now: JournalDb, d: nat, records: seq<PendingRecord>, probes: map<nat, Probe>,
                        safe: nat, finalized: nat)
    requires |records| > 0 && IsSnapshot(db, d, records) && OneReceipt(records, probes)
    requires ProbeOf(probes, records[|records|-1]).Mined?
    requires Settled(db, now, d, records[..|records|-1], probes, safe, finalized)
    ensures RowKey(d, records[|records|-1].request) in now.rows
    ensures !now.rows[RowKey(d, records[|records|-1].request)].status.Terminal()
  {
    var k := RowKey(d, records[|records|-1].request);
    assert k in db.rows.Keys;
    SiblingWasOpen(db, now, d, records, probes, safe, finalized, k);
  }

  lemma MinedStays(db: JournalDb, now: JournalDb, n: JournalDb, d: nat, r: PendingRecord, probe: Probe, last: PendingRecord,
                   lastProbe: Probe, safe: nat, finalized: nat)
    requires probe.Mined? && MinedAlone(db, now, d, r, probe, safe, finalized) && r.request != last.request
    requires RowKey(d, last.request) in now.rows
    requires now.rows[RowKey(d, last.request)].nonce == last.nonce
    requires RowKey(d, r.request) in now.rows && now.rows[RowKey(d, r.request)].nonce == r.nonce
    requires Settle(now, d, last, lastProbe, safe, finalized) == (n, true)
    requires lastProbe.Mined? ==> r.nonce != last.nonce
    ensures MinedAlone(db, n, d, r, probe, safe, finalized)
  {
    var k := RowKey(d, r.request);
    SettleOnlyStatus(now, d, last, lastProbe, safe, finalized);
    SettleElsewhere(now, d, last, lastProbe, safe, finalized, k);
    forall o | o in n.rows && o != k && o.deployment == d && n.rows[o].intent.id == r.intentId && n.rows[o].nonce == r.nonce
      ensures OutOfTheWay(db, n, o)
    {
      assert o in now.rows.Keys && OutOfTheWay(db, now, o);
      SettledRowStays(now, n, d, last, lastProbe, safe, finalized, o);
    }
  }

  lemma SettledFront(db: JournalDb, now: JournalDb, n: JournalDb, d: nat, records: seq<PendingRecord>,
                     probes: map<nat, Probe>, safe: nat, finalized: nat, i: nat)
    requires |records| > 0 && IsSnapshot(db, d, records) && OneReceipt(records, probes) && i < |records| - 1
    requires Settled(db, now, d, records[..|records|-1], probes, safe, finalized)
    requires ProbeOf(probes, records[i]).Mined?
    requires var last := records[|records|-1];
             Settle(now, d, last, ProbeOf(probes, last), safe, finalized) == (n, true)
    ensures MinedAlone(db, n, d, records[i], ProbeOf(probes, records[i]), safe, finalized)
  {
    var last, front := records[|records|-1], records[..|records|-1];
    assert front[i] == records[i];
    assert RowKey(d, records[i].request) in db.rows.Keys && RowKey(d, last.request) in db.rows.Keys;
    assert SameTerms(db.rows[RowKey(d, last.request)], now.rows[RowKey(d, last.request)]);
    assert SameTerms(db.rows[RowKey(d, records[i].request)], now.rows[RowKey(d, records[i].request)]);
    assert RowKey(d, last.request) in now.rows.Keys && RowKey(d, records[i].request) in now.rows.Keys;
    MinedStays(db, now, n, d, records[i], ProbeOf(probes, records[i]), last, ProbeOf(probes, last), safe, finalized);
  }

  lemma SettledLast(db: JournalDb, now: JournalDb, n: JournalDb, d: nat, records: seq<PendingRecord>,
                    probes: map<nat, Probe>, safe: nat, finalized: nat)
    requires |records| > 0 && IsSnapshot(db, d, records) && OneReceipt(records, probes)
    requires Settled(db, now, d, records[..|records|-1], probes, safe, finalized)
    requires var last := records[|records|-1];
             && ProbeOf(probes, last).Mined?
             && Settle(now, d, last, ProbeOf(probes, last), safe, finalized) == (n, true)
    ensures var last := records[|records|-1];
            MinedAlone(db, n, d, last, ProbeOf(probes, last), safe, finalized)
  {
    var last := records[|records|-1];
    var probe := ProbeOf(probes, last);
    var k := RowKey(d, last.request);
    assert k in db.rows.Keys && k in now.rows.Keys;
    SettleOnlyStatus(now, d, last, probe, safe, finalized);
    OnlyStatusChains(db, now, n);
    forall o | o in n.rows && o != k && o.deployment == d && n.rows[o].intent.id == last.intentId
               && n.rows[o].nonce == last.nonce
      ensures OutOfTheWay(db, n, o)
    {
      assert o in db.rows.Keys && SameTerms(db.rows[o], n.rows[o]) && SameTerms(db.rows[o], now.rows[o]);
      SiblingWasOpen(db, now, d, records, probes, safe, finalized, o);
      SettleElsewhere(now, d, last, probe, safe, finalized, o);
    }
  }

  // A row settled before this record stays as it is, unless the record is invalid and the row is its own.
  lemma SettledRowStays(now: JournalDb, n: JournalDb, d: nat, last: PendingRecord, probe: Probe, safe: nat, finalized: nat,
                        k: RowKey)
    requires k in now.rows && now.rows[k].status.Terminal() && n == Settle(now, d, last, probe, safe, finalized).0
    requires k == RowKey(d, last.request) ==> !probe.Mined? && !probe.Invalid?
    ensures k in n.rows && n.rows[k] == now.rows[k]
  {
    if k == RowKey(d, last.request) {
      if probe.Missing? { MissingKeepsTerminal(now, k, last.status, probe.send, probe.writes); }
    } else {
      SettleElsewhere(now, d, last, probe, safe, finalized, k);
    }
  }

  // A row that this record settles shares its nonce with a mined transaction.
  lemma NewlySettled(now: JournalDb, n: JournalDb, d: nat, last: PendingRecord, probe: Probe, safe: nat, finalized: nat,
                     k: RowKey)
    requires k in now.rows && !now.rows[k].status.Terminal()
    requires Settle(now, d, last, probe, safe, finalized) == (n, true) && k in n.rows && n.rows[k].status.Terminal()
    requires RowKey(d, last.request) in now.rows && now.rows[RowKey(d, last.request)].nonce == last.nonce
    ensures probe.Mined? && SettledBy(now, n, d, last, k)
  {
    if k != RowKey(d, last.request) { SettleElsewhere(now, d, last, probe, safe, finalized, k); }
  }

  lemma SettledOrigin(db: JournalDb, now: JournalDb, n: JournalDb, d: nat, records: seq<PendingRecord>,
                      probes: map<nat, Probe>, safe: nat, finalized: nat, k: RowKey)
    requires |records| > 0 && IsSnapshot(db, d, records) && OneReceipt(records, probes)
    requires Settled(db, now, d, records[..|records|-1], probes, safe, finalized)
    requires var last := records[|records|-1];
             Settle(now, d, last, ProbeOf(probes, last), safe, finalized) == (n, true)
    requires k in db.rows && !db.rows[k].status.Terminal() && k in n.rows && n.rows[k].status.Terminal()
    ensures SettledBySome(db, n, d, records, probes, k)
  {
    var last, front := records[|records|-1], records[..|records|-1];
    assert k in db.rows.Keys && RowKey(d, last.request) in db.rows.Keys;
    assert SameTerms(db.rows[k], now.rows[k])
           && SameTerms(db.rows[RowKey(d, last.request)], now.rows[RowKey(d, last.request)]);
    assert k in now.rows.Keys && RowKey(d, last.request) in now.rows.Keys;
    if now.rows[k].status.Terminal() {
      var i :| 0 <= i < |front| && ProbeOf(probes, front[i]).Mined? && SettledBy(db, now, d, front[i], k);
      assert records[i] == front[i];
      if ProbeOf(probes, last).Mined? { MinedWasPending(db, now, d, records, probes, safe, finalized); }
      SettledRowStays(now, n, d, last, ProbeOf(probes, last), safe, finalized, k);
      assert SettledBy(db, n, d, records[i], k);
    } else {
      NewlySettled(now, n, d, last, ProbeOf(probes, last), safe, finalized, k);
      assert SettledBy(db, n, d, records[|records|-1], k);
    }
  }

  lemma SettledGrows(db: JournalDb, now: JournalDb, n: JournalDb, d: nat, records: seq<PendingRecord>,
                     probes: map<nat, Probe>, safe: nat, finalized: nat)
    requires |records| > 0 && IsSnapshot(db, d, records) && OneReceipt(records, probes)
    requires Settled(db, now, d, records[..|records|-1], probes, safe, finalized)
    requires var last := records[|records|-1];
             Settle(now, d, last, ProbeOf(probes, last), safe, finalized) == (n, true)
    ensures Settled(db, n, d, records, probes, safe, finalized)
  {
    var last := records[|records|-1];
    var probe := ProbeOf(probes, last);
    SettleOnlyStatus(now, d, last, probe, safe, finalized);
    OnlyStatusChains(db, now, n);
    forall k | k in db.rows && db.rows[k].status.Terminal() ensures n.rows[k] == db.rows[k] {
      assert k in db.rows.Keys && k != RowKey(d, last.request);
      SettledRowStays(now, n, d, last, probe, safe, finalized, k);
    }
    forall i | 0 <= i < |records| && ProbeOf(probes, records[i]).Mined?
      ensures MinedAlone(db, n, d, records[i], ProbeOf(probes, records[i]), safe, finalized)
    {
      if i < |records| - 1 { SettledFront(db, now, n, d, records, probes, safe, finalized, i); }
      else {
        SettledLast(db, now, n, d, records, probes, safe, finalized);
      }
    }
    forall k | k in db.rows && !db.rows[k].status.Terminal() && n.rows[k].status.Terminal()
      ensures SettledBySome(db, n, d, records, probes, k)
    {
      SettledOrigin(db, now, n, d, records, probes, safe, finalized, k);
    }
  }

  /**
   * A completed pass leaves every mined record with the status its block deserves, alone in its
   * family, and changes no status that was terminal when it began.
   */
  lemma {:induction false} CompletedPassSettles(db: JournalDb, d: nat, records: seq<PendingRecord>,
                                                probes: map<nat, Probe>, safe: nat, finalized: nat)
    requires IsSnapshot(db, d, records) && OneReceipt(records, probes)
    requires Pass(db, d, records, probes, safe, finalized).1
    ensures Settled(db, Pass(db, d, records, probes, safe, finalized).0, d, records, probes, safe, finalized)
    decreases |records|
  {
    if records != [] {
      var front := records[..|records|-1];
      CompletedPassSettles(db, d, front, probes, safe, finalized);
      SettledGrows(db, Pass(db, d, front, probes, safe, finalized).0, Pass(db, d, records, probes, safe, finalized).0, d,
                   records, probes, safe, finalized);
    }
  }

  /**
   * In terms of families: after a completed pass every sibling of a mined transaction, wherever it
   * came from, is superseded, or was terminal before the pass and is as it was.
   */
  lemma MinedStandsAlone(db: JournalDb, d: nat, records: seq<PendingRecord>, probes: map<nat, Probe>, safe: nat,
                         finalized: nat, caps: Caps, i: nat, k: RowKey)
    requires Inv(db, caps) && IsSnapshot(db, d, records) && OneReceipt(records, probes)
    requires Pass(db, d, records, probes, safe, finalized).1
    requires i < |records| && ProbeOf(probes, records[i]).Mined?
    requires k in db.rows && k != RowKey(d, records[i].request) && db.rows[k].nonce == records[i].nonce
    ensures var n := Pass(db, d, records, probes, safe, finalized).0;
            && k.deployment == d && k in n.rows
            && if db.rows[k].status.Terminal() then n.rows[k] == db.rows[k] else n.rows[k].status.Superseded?
  {
    CompletedPassSettles(db, d, records, probes, safe, finalized);
    var n := Pass(db, d, records, probes, safe, finalized).0;
    SharedNonceMeansOneFamily(db, caps, k, RowKey(d, records[i].request));
    assert k in db.rows.Keys && SameTerms(db.rows[k], n.rows[k]);
  }

  /** Even a pass that stops half-way touches statuses only, and none that was terminal when it began. */
  lemma {:induction false} AnyPassKeepsSettledRows(db: JournalDb, d: nat, records: seq<PendingRecord>,
                                                   probes: map<nat, Probe>, safe: nat, finalized: nat)
    requires IsSnapshot(db, d, records)
    ensures var n := Pass(db, d, records, probes, safe, finalized).0;
            OnlyStatus(db, n) && forall k | k in db.rows && db.rows[k].status.Terminal() :: n.rows[k] == db.rows[k]
    decreases |records|
  {
    if records != [] {
      var front, last := records[..|records|-1], records[|records|-1];
      AnyPassKeepsSettledRows(db, d, front, probes, safe, finalized);
      var now := Pass(db, d, front, probes, safe, finalized);
      if now.1 {
        var n := Pass(db, d, records, probes, safe, finalized).0;
        SettleOnlyStatus(now.0, d, last, ProbeOf(probes, last), safe, finalized);
        OnlyStatusChains(db, now.0, n);
        forall k | k in db.rows && db.rows[k].status.Terminal() ensures n.rows[k] == db.rows[k] {
          assert k in db.rows.Keys && k != RowKey(d, last.request);
          SettledRowStays(now.0, n, d, last, ProbeOf(probes, last), safe, finalized, k);
        }
      }
    }
  }

  /**
   * Inside a pass a settled row changes exactly when it belongs to the record being settled and
   * that record fails validation: then quarantine overwrites what the pass had decided.
   */
  lemma SettledRowChangesExactly(db: JournalDb, d: nat, records: seq<PendingRecord>, probes: map<nat, Probe>, safe: nat,
                                 finalized: nat, k: RowKey)
    requires |records| > 0 && IsSnapshot(db, d, records) && OneReceipt(records, probes)
    requires Pass(db, d, records[..|records|-1], probes, safe, finalized).1
    requires var now := Pass(db, d, records[..|records|-1], probes, safe, finalized).0;
             k in now.rows && now.rows[k].status.Terminal()
    ensures var last := records[|records|-1];
            var now := Pass(db, d, records[..|records|-1], probes, safe, finalized).0;
            var n := Pass(db, d, records, probes, safe, finalized).0;
            k in n.rows
            && (n.rows[k].status != now.rows[k].status
                <==> ProbeOf(probes, last).Invalid? && ProbeOf(probes, last).written && k == RowKey(d, last.request)
                     && !now.rows[k].status.Quarantined?)
  {
    var front, last := records[..|records|-1], records[|records|-1];
    var now := Pass(db, d, front, probes, safe, finalized).0;
    var n := Pass(db, d, records, probes, safe, finalized).0;
    CompletedPassSettles(db, d, front, probes, safe, finalized);
    var probe := ProbeOf(probes, last);
    if probe.Mined? { MinedWasPending(db, now, d, records, probes, safe, finalized); }
    if k != RowKey(d, last.request) || !probe.Invalid? { SettledRowStays(now, n, d, last, probe, safe, finalized, k); }
  }

  lemma {:induction false} PassStops(db: JournalDb, d: nat, records: seq<PendingRecord>, probes: map<nat, Probe>, safe: nat,
                                     finalized: nat, i: nat)
    requires i <= |records| && !Pass(db, d, records[..i], probes, safe, finalized).1
    ensures Pass(db, d, records, probes, safe, finalized) == Pass(db, d, records[..i], probes, safe, finalized)
    decreases |records|
  {
    if i == |records| { assert records[..i] == records; }
    else {
      assert records[..|records|-1][..i] == records[..i];
      PassStops(db, d, records[..|records|-1], probes, safe, finalized, i);
    }
  }

  // The pass has gone through the first `i` records and arrived at `now`.
  ghost predicate Reached(db: JournalDb, now: JournalDb, d: nat, records: seq<PendingRecord>, probes: map<nat, Probe>,
                          safe: nat, finalized: nat, i: nat)
    requires i <= |records|
  {
    OnlyStatus(db, now) && Pass(db, d, records[..i], probes, safe, finalized) == (now, true)
  }

  lemma PassNext(db: JournalDb, now: JournalDb, n: JournalDb, ok: bool, d: nat, records: seq<PendingRecord>,
                 probes: map<nat, Probe>, safe: nat, finalized: nat, i: nat)
    requires i < |records| && Reached(db, now, d, records, probes, safe, finalized, i)
    requires (n, ok) == Settle(now, d, records[i], ProbeOf(probes, records[i]), safe, finalized)
    ensures ok ==> Reached(db, n, d, records, probes, safe, finalized, i + 1)
    ensures !ok ==> Pass(db, d, records, probes, safe, finalized) == (n, false)
  {
    assert records[..i + 1][..i] == records[..i];
    SettleOnlyStatus(now, d, records[i], ProbeOf(probes, records[i]), safe, finalized);
    OnlyStatusChains(db, now, n);
    if !ok { PassStops(db, d, records, probes, safe, finalized, i + 1); }
  }

  lemma SnapshotRow(db: JournalDb, now: JournalDb, d: nat, records: seq<PendingRecord>, i: nat)
    requires i < |records| && IsSnapshot(db, d, records) && OnlyStatus(db, now)
    ensures RowKey(d, records[i].request) in now.rows
    ensures now.rows[RowKey(d, records[i].request)].txHash == records[i].txHash
  {
    var k := RowKey(d, records[i].request);
    assert k in db.rows.Keys && SameTerms(db.rows[k], now.rows[k]);
  }

  // Recording a receipt and raising its finality afterwards is recording the final status at once.
  lemma FinalityCollapses(db: JournalDb, k: RowKey, first: TxStatus, later: TxStatus, block: Option<nat>, intentId: nat,
                          nonce: nat)
    requires k in db.rows
    ensures k in SupersededIn(WithStatus(db, k, first, block), k, intentId, nonce).rows
    ensures SupersededIn(WithStatus(db, k, first, block), k, intentId, nonce).rows[k].status == first
    ensures SupersededIn(WithStatus(db, k, first, block), k, intentId, nonce).rows[k].block == block
    ensures WithStatus(SupersededIn(WithStatus(db, k, first, block), k, intentId, nonce), k, later, block)
            == SupersededIn(WithStatus(db, k, later, block), k, intentId, nonce)
  {
    var left := WithStatus(SupersededIn(WithStatus(db, k, first, block), k, intentId, nonce), k, later, block);
    var right := SupersededIn(WithStatus(db, k, later, block), k, intentId, nonce);
    assert left.rows == right.rows;
  }

  // ---------------------------------------------------------------- the object

  class Writer {
    const caps: Caps
    const journal: Journal
    var ready: bool
    var sent: seq<Sent>

    // The journal is sound, and everything ever sent stands in it under its own hash.
    ghost predicate Valid()
      reads this, journal
    {
      Inv(journal.View(), caps) && SentIn(journal.View())
    }

    ghost predicate SentIn(db: JournalDb)
      reads this
    {
      forall i | 0 <= i < |sent| :: sent[i].key in db.rows && db.rows[sent[i].key].txHash == sent[i].txHash
    }

    constructor (c: Caps, j: Journal)
      requires Inv(j.View(), c)
      ensures caps == c && journal == j && !ready && sent == [] && Valid()
    {
      caps := c;
      journal := j;
      ready := false;
      sent := [];
    }

    /** Nothing is handed to the chain that is not journaled at that moment. */
    method Broadcast(key: RowKey, txHash: nat)
      requires key in journal.rows && journal.rows[key].txHash == txHash
      modifies this`sent
      ensures sent == old(sent) + [Sent(key, txHash)]
    {
      sent := sent + [Sent(key, txHash)];
    }

    // The journal a successful insertion leaves, before any status update.
    ghost function Journaled(db: JournalDb, q: Request, record: SignedRecord, now: nat): (n: JournalDb)
      requires q.target.Some? ==> RowKey(journal.deployment, q.target.value) in db.rows
    {
      if q.target.None? then WithRoot(db, journal.deployment, record, now)
      else WithReplacement(db, journal.deployment, record, q.target.value)
    }

    method Insert(q: Request, record: SignedRecord, was: Option<Row>, reservation: NonceReservation?, r: Readings)
      returns (ok: bool)
      requires q.target.Some? <==> was.Some?
      requires q.target.Some? ==> RowKey(journal.deployment, q.target.value) in journal.rows
                                  && was.value == journal.rows[RowKey(journal.deployment, q.target.value)]
      requires was.None? ==>
                 && reservation != null && reservation.journal == journal && !reservation.done
                 && reservation.locked == journal.next && reservation.nonce == record.nonce
                 && (journal.next.Some? ==> journal.next.value <= record.nonce)
      modifies journal, reservation
      ensures !ok ==> journal.View() == old(journal.View())
      ensures ok ==> journal.View() == Journaled(old(journal.View()), q, record, r.now)
      ensures ok ==> Insertable(old(journal.View()), journal.deployment, record, was.None?)
      ensures ok && was.Some? ==> was.value.replacedBy.None?
    {
      if q.target.None? {
        ok := reservation.Commit(record, r.now, r.commits);
      } else {
        ok := journal.InsertReplacement(record, q.target.value, was.value.depth, was.value.familyAt, r.commits);
      }
    }

    lemma InsertedIsSound(db: JournalDb, q: Request, r: Readings, nonce: nat, was: Option<Row>)
      requires Inv(db, caps) && r.gas.Some? && r.tip.Some? && r.baseFee.Some? && r.txHash.Some?
      requires q.target.Some? <==> was.Some?
      requires was.Some? ==>
                 && RowKey(journal.deployment, q.target.value) in db.rows
                 && was.value == db.rows[RowKey(journal.deployment, q.target.value)]
                 && q.intent == was.value.intent && nonce == was.value.nonce && was.value.depth < caps.maxReplacements
                 && was.value.replacedBy.None?
      requires was.None? ==> db.next.Some? ==> db.next.value <= nonce
      requires var record := RecordOf(q, r, nonce, was);
               Affordable(record, caps, r.balance) && Insertable(db, journal.deployment, record, was.None?)
      ensures Inv(Journaled(db, q, RecordOf(q, r, nonce, was), r.now), caps)
    {
      var record := RecordOf(q, r, nonce, was);
      if was.None? {
        AffordableIsWithinCaps(q, r, nonce, was, caps, None, 0, r.now);
        RootKeepsInv(db, journal.deployment, record, r.now, caps);
      } else {
        assert RowOk(db, RowKey(journal.deployment, q.target.value), caps);
        AffordableIsWithinCaps(q, r, nonce, was, caps, q.target, was.value.depth + 1, was.value.familyAt);
        ReplacementContinues(q, r, was.value, q.target.value);
        ReplacementKeepsInv(db, journal.deployment, record, q.target.value, caps);
      }
    }

    // The replacement target, if the request names one that may still be replaced by it.
    method Target(q: Request, now: nat) returns (ok: bool, was: Option<Row>)
      ensures ok ==> (q.target.Some? <==> was.Some?)
      ensures ok && was.Some? ==>
                && RowKey(journal.deployment, q.target.value) in journal.rows
                && was.value == journal.rows[RowKey(journal.deployment, q.target.value)]
                && was.value.status.Replaceable() && was.value.intent == q.intent
                && was.value.depth < caps.maxReplacements && now <= was.value.familyAt + caps.maxFamilyAge
    {
      if q.target.None? { return true, None; }
      was := journal.Replacement(q.target.value);
      if was.None? || was.value.intent != q.intent || was.value.depth >= caps.maxReplacements
         || now > was.value.familyAt + caps.maxFamilyAge
      {
        return false, None;
      }
      ok := true;
    }

    /**
     * Either nothing happens, or exactly one new row is journaled and then sent: every row before
     * it keeps its terms, and only a named target is marked replaced.
     */
    method Submit(q: Request, r: Readings) returns (out: Outcome)
      requires Valid()
      modifies this, journal
      ensures Valid()
      ensures out.Refused? || out.Known? ==> journal.View() == old(journal.View()) && sent == old(sent)
      ensures !old(ready) ==> out.Refused? || out.Known?
      ensures RowKey(journal.deployment, q.id) in old(journal.rows) ==> out.Refused? || out.Known?
      ensures out.Known? ==> RowKey(journal.deployment, q.id) in old(journal.rows)
                             && out.row == old(journal.rows)[RowKey(journal.deployment, q.id)] && out.row.digest == q.digest
      ensures out.Unclear? ==> !ready
      ensures out.Accepted? || out.Unclear? ==>
                var k := RowKey(journal.deployment, q.id);
                && (q.target.Some? ==> RowKey(journal.deployment, q.target.value) in old(journal.rows))
                && k in journal.rows && journal.rows[k].intent == q.intent && journal.rows[k].parent == q.target
                && journal.rows[k].status == out.status
                && sent == old(sent) + [Sent(k, journal.rows[k].txHash)]
                && exists record: SignedRecord ::
                     record.request == q.id && Follows(Journaled(old(journal.View()), q, record, r.now), journal.View(), k)
    {
      out := Refused;
      if !r.wellFormed || q.target == Some(q.id) { return; }
      var existing := journal.Existing(q.id, q.digest);
      if existing.Reused? { return; }
      if existing.Found? { return Known(existing.row); }
      if !ready { return; }
      if !r.verified { ready := false; return; }
      var ok, was := Target(q, r.now);
      if !ok || !r.simulated || r.gas.None? || r.gas.value + r.gas.value / 5 > caps.maxGas { return; }
      if r.tip.None? || r.tip.value == 0 || r.baseFee.None? { return; }
      var reservation: NonceReservation? := null;
      var nonce := 0;
      if was.Some? {
        nonce := was.value.nonce;
      } else {
        if r.observed.None? { return; }
        reservation := journal.BeginNonce(r.observed.value);
        if reservation == null { return; }
        nonce := reservation.nonce;
      }
      if r.txHash.None? || !Affordable(RecordOf(q, r, nonce, was), caps, r.balance) {
        if reservation != null { reservation.Rollback(); }
        return;
      }
      var record := RecordOf(q, r, nonce, was);
      ghost var before := journal.View();
      var inserted := Insert(q, record, was, reservation, r);
      if reservation != null { reservation.Rollback(); }
      if !inserted { ready := false; return; }
      InsertedIsSound(before, q, r, nonce, was);
      HashesStay(before, q, record, r.now, journal.View());
      out := Send(q.id, r);
    }

    // Status changes of row `k` alone.
    ghost predicate Follows(db: JournalDb, n: JournalDb, k: RowKey) {
      OnlyStatus(db, n) && forall o | o in db.rows && o != k :: n.rows[o] == db.rows[o]
    }

    method Send(request: nat, r: Readings) returns (out: Outcome)
      requires Valid() && RowKey(journal.deployment, request) in journal.rows
      requires journal.rows[RowKey(journal.deployment, request)].status.Signed?
      modifies this, journal
      ensures Valid() && (out.Accepted? || out.Unclear?) && (out.Unclear? ==> !ready)
      ensures var k := RowKey(journal.deployment, request);
              && Follows(old(journal.View()), journal.View(), k) && journal.rows[k].status == out.status
              && sent == old(sent) + [Sent(k, old(journal.rows)[k].txHash)]
    {
      var k := RowKey(journal.deployment, request);
      ghost var placed := journal.View();
      Broadcast(k, journal.rows[k].txHash);
      out := RecordSend(request, r);
      StatusKeepsInv(placed, journal.View(), caps);
      forall i | 0 <= i < |sent| ensures sent[i].key in journal.rows && journal.rows[sent[i].key].txHash == sent[i].txHash {
        assert sent[i].key in placed.rows.Keys && SameTerms(placed.rows[sent[i].key], journal.rows[sent[i].key]);
      }
    }

    lemma HashesStay(before: JournalDb, q: Request, record: SignedRecord, now: nat, n: JournalDb)
      requires record.request == q.id && RowKey(journal.deployment, q.id) !in before.rows
      requires q.target.Some? ==> RowKey(journal.deployment, q.target.value) in before.rows
      requires OnlyStatus(Journaled(before, q, record, now), n)
      ensures forall k | k in before.rows :: k in n.rows && n.rows[k].txHash == before.rows[k].txHash
      ensures var k := RowKey(journal.deployment, q.id);
              k in n.rows && n.rows[k].txHash == record.txHash && n.rows[k].intent == record.intent
              && n.rows[k].parent == q.target && (n == Journaled(before, q, record, now) ==> n.rows[k].status.Signed?)
    {
      var placed := Journaled(before, q, record, now);
      forall k | k in before.rows ensures k in n.rows && n.rows[k].txHash == before.rows[k].txHash {
        assert k in placed.rows.Keys && SameTerms(placed.rows[k], n.rows[k]);
      }
      var k := RowKey(journal.deployment, q.id);
      assert k in placed.rows.Keys && SameTerms(placed.rows[k], n.rows[k]);
    }

    // What Submit records about a send it just made.
    method RecordSend(request: nat, r: Readings) returns (out: Outcome)
      requires RowKey(journal.deployment, request) in journal.rows
      requires journal.rows[RowKey(journal.deployment, request)].status.Signed?
      modifies this`ready, journal`rows
      ensures (out.Accepted? || out.Unclear?) && (out.Unclear? ==> !ready)
      ensures Follows(old(journal.View()), journal.View(), RowKey(journal.deployment, request))
      ensures journal.rows[RowKey(journal.deployment, request)].status == out.status
    {
      if r.send.Delivered? || r.send.KnownAlready? {
        if r.updates {
          var done := journal.SetSubmitted(request);
          return Accepted(Submitted);
        }
        ready := false;
        return Unclear(Signed);
      }
      ready := false;
      if r.updates {
        var done := journal.SetAmbiguous(request);
        return Unclear(Ambiguous);
      }
      return Unclear(Signed);
    }

    // ---------------------------------------------------------------- reconciling

    // Receipt, siblings, finality, one update after the other; `writes` of them succeed.
    method SettleMinedRecord(r: PendingRecord, block: nat, success: bool, writes: nat, safe: nat, finalized: nat)
      returns (ok: bool)
      requires RowKey(journal.deployment, r.request) in journal.rows
      modifies journal`rows
      ensures (journal.View(), ok)
              == Settle(old(journal.View()), journal.deployment, r, Mined(block, success, writes), safe, finalized)
    {
      var k := RowKey(journal.deployment, r.request);
      ghost var db := journal.View();
      var left := writes;
      if left == 0 { return false; }
      left := left - 1;
      ok := journal.SetReceipt(r.request, if success then SoftConfirmed else Reverted, block);
      if left == 0 { return false; }
      left := left - 1;
      journal.SetSuperseded(r.request, r.intentId, r.nonce);
      if !success { return true; }
      FinalityCollapses(db, k, SoftConfirmed, L1Posted, Some(block), r.intentId, r.nonce);
      FinalityCollapses(db, k, SoftConfirmed, EthereumFinal, Some(block), r.intentId, r.nonce);
      FinalityCollapses(db, k, L1Posted, EthereumFinal, Some(block), r.intentId, r.nonce);
      if safe >= block {
        if left == 0 { return false; }
        left := left - 1;
        ok := journal.SetFinality(r.request, L1Posted);
      }
      if finalized >= block {
        if left == 0 { return false; }
        ok := journal.SetFinality(r.request, EthereumFinal);
      }
      ok := true;
    }

    // Rebroadcasts only what the journal holds.
    method SettleMissingRecord(r: PendingRecord, send: SendOutcome, writes: nat) returns (ok: bool)
      requires RowKey(journal.deployment, r.request) in journal.rows
      requires journal.rows[RowKey(journal.deployment, r.request)].txHash == r.txHash
      modifies this`sent, journal`rows
      ensures (journal.View(), ok)
              == SettleMissing(old(journal.View()), RowKey(journal.deployment, r.request), r.status, send, writes)
      ensures sent == old(sent) || sent == old(sent) + [Sent(RowKey(journal.deployment, r.request), r.txHash)]
    {
      var left := writes;
      if r.status.SoftConfirmed? || r.status.L1Posted? {
        if left == 0 { return false; }
        ok := journal.SetAmbiguous(r.request);
        if !ok { return; }
        left := left - 1;
      }
      if !r.status.Replaced? {
        Broadcast(RowKey(journal.deployment, r.request), r.txHash);
        if send.Delivered? || send.KnownAlready? {
          if left == 0 { return false; }
          ok := journal.SetSubmitted(r.request);
          if !ok { return; }
          left := left - 1;
        } else if !send.NonceConsumed? {
          return false;
        }
      }
      ok := left > 0;
    }

    method SettleRecord(r: PendingRecord, probe: Probe, safe: nat, finalized: nat) returns (ok: bool)
      requires Valid() && RowKey(journal.deployment, r.request) in journal.rows
      requires journal.rows[RowKey(journal.deployment, r.request)].txHash == r.txHash
      modifies this`sent, journal`rows
      ensures (journal.View(), ok) == Settle(old(journal.View()), journal.deployment, r, probe, safe, finalized)
      ensures Valid()
    {
      ghost var db := journal.View();
      match probe {
        case Invalid(written) => if written { journal.Quarantine(r.request); } ok := false;
        case Unreadable => ok := false;
        case Missing(send, writes) => ok := SettleMissingRecord(r, send, writes);
        case Mined(block, success, writes) => ok := SettleMinedRecord(r, block, success, writes, safe, finalized);
      }
      SettleOnlyStatus(db, journal.deployment, r, probe, safe, finalized);
      StatusKeepsInv(db, journal.View(), caps);
      forall i | 0 <= i < |sent| ensures sent[i].key in journal.rows && journal.rows[sent[i].key].txHash == sent[i].txHash {
        assert sent[i].key in db.rows.Keys && SameTerms(db.rows[sent[i].key], journal.rows[sent[i].key]);
      }
    }

    /** One pass over the pending records does exactly what `Pass` says, and stops at the first trouble. */
    method Reconcile(records: seq<PendingRecord>, probes: map<nat, Probe>, verified: bool, safe: nat, finalized: nat)
      returns (completed: bool)
      requires Valid() && IsSnapshot(journal.View(), journal.deployment, records)
      modifies this`sent, journal`rows
      ensures Valid()
      ensures if !verified || finalized > safe then !completed && journal.View() == old(journal.View()) && sent == old(sent)
              else (journal.View(), completed)
                   == Pass(old(journal.View()), journal.deployment, records, probes, safe, finalized)
    {
      completed := false;
      if !verified || finalized > safe { return; }
      ghost var db, d := journal.View(), journal.deployment;
      var i := 0;
      while i < |records|
        invariant 0 <= i <= |records| && Valid()
        invariant Reached(db, journal.View(), d, records, probes, safe, finalized, i)
      {
        ghost var now := journal.View();
        SnapshotRow(db, now, d, records, i);
        var ok := SettleRecord(records[i], ProbeOf(probes, records[i]), safe, finalized);
        PassNext(db, now, journal.View(), ok, d, records, probes, safe, finalized, i);
        if !ok { return; }
        i := i + 1;
      }
      assert records[..i] == records;
      completed := true;
    }

    /** The writer becomes ready only through a completed pass. */
    method Recover(records: seq<PendingRecord>, probes: map<nat, Probe>, verified: bool, safe: nat, finalized: nat)
      returns (completed: bool)
      requires Valid() && IsSnapshot(journal.View(), journal.deployment, records)
      modifies this, journal`rows
      ensures Valid() && ready == completed
      ensures completed ==> finalized <= safe
                            && (journal.View(), true)
                               == Pass(old(journal.View()), journal.deployment, records, probes, safe, finalized)
    {
      ready := false;
      completed := Reconcile(records, probes, verified, safe, finalized);
      if completed { ready := true; }
    }
  }
}
