/**
 * The Robinhood signer's journal of signer/robinhood/journal.go: one nonce row per signer, and
 * signed transactions that may be replaced at rising fees.  `JournalDb` is the committed database;
 * the class `Journal` and its reservations update it in place.
 */
module Journals {
  import opened Common

  // The spot intent as requested; `body` stands for every field beside its id.
  datatype SpotIntent = SpotIntent(id: nat, body: nat)

  datatype TxStatus =
    | Signed | Submitted | SoftConfirmed | L1Posted | Ambiguous | Replaced
    | EthereumFinal | Reverted | Superseded | Quarantined
  {
    predicate Terminal() { EthereumFinal? || Reverted? || Superseded? || Quarantined? }
    predicate Replaceable() { Signed? || Submitted? || Ambiguous? }
  }

  datatype RowKey = RowKey(deployment: nat, request: nat)

  datatype Row = Row(
    intent: SpotIntent, digest: nat, nonce: nat, txHash: nat, maxFee: nat, tip: nat, gas: nat,
    status: TxStatus, block: Option<nat>, parent: Option<nat>, replacedBy: Option<nat>, depth: nat, familyAt: nat)

  // What Submit signs: everything the journal stores but its own bookkeeping.
  datatype SignedRecord = SignedRecord(
    request: nat, intent: SpotIntent, digest: nat, nonce: nat, txHash: nat, maxFee: nat, tip: nat, gas: nat)

  datatype JournalDb = JournalDb(rows: map<RowKey, Row>, next: Option<nat>)

  // The configured limits of signer/robinhood/config.go.
  datatype Caps = Caps(
    maxReplacements: nat, maxGas: nat, maxTip: nat, maxFee: nat, maxCost: nat, reserve: nat, maxFamilyAge: nat)

  // ---------------------------------------------------------------- inserting

  function NewRow(r: SignedRecord, parent: Option<nat>, depth: nat, familyAt: nat): (row: Row) {
    Row(r.intent, r.digest, r.nonce, r.txHash, r.maxFee, r.tip, r.gas, Signed, None, parent, None, depth, familyAt)
  }

  // The unique constraints of migrations/0001_journal.sql.
  predicate Insertable(db: JournalDb, d: nat, r: SignedRecord, root: bool) {
    && RowKey(d, r.request) !in db.rows
    && (forall k | k in db.rows && k.deployment == d :: db.rows[k].txHash != r.txHash)
    && (root ==> forall k | k in db.rows && k.deployment == d && db.rows[k].parent.None? ::
                   db.rows[k].intent.id != r.intent.id)
  }

  function NextNonce(db: JournalDb, observed: nat): (n: nat) { Max(db.next.Or(observed), observed) }

  function WithRoot(db: JournalDb, d: nat, r: SignedRecord, at: nat): (n: JournalDb) {
    JournalDb(db.rows[RowKey(d, r.request) := NewRow(r, None, 0, at)], Some(r.nonce + 1))
  }

  function WithReplacement(db: JournalDb, d: nat, r: SignedRecord, target: nat): (n: JournalDb)
    requires RowKey(d, target) in db.rows
  {
    var was := db.rows[RowKey(d, target)];
    db.(rows := db.rows[RowKey(d, target) := was.(status := Replaced, replacedBy := Some(r.request))]
                       [RowKey(d, r.request) := NewRow(r, Some(target), was.depth + 1, was.familyAt)])
  }

  // ---------------------------------------------------------------- status updates

  function WithStatus(db: JournalDb, k: RowKey, status: TxStatus, block: Option<nat>): (n: JournalDb)
    requires k in db.rows
  {
    db.(rows := db.rows[k := db.rows[k].(status := status, block := block)])
  }

  function SubmittedIn(db: JournalDb, k: RowKey): (r: Option<JournalDb>) {
    if k in db.rows && db.rows[k].status.Replaceable() then Some(WithStatus(db, k, Submitted, db.rows[k].block)) else None
  }

  function AmbiguousIn(db: JournalDb, k: RowKey): (r: Option<JournalDb>) {
    if k in db.rows && (db.rows[k].status.Signed? || db.rows[k].status.SoftConfirmed? || db.rows[k].status.L1Posted?)
    then Some(WithStatus(db, k, Ambiguous, None)) else None
  }

  function ReceiptIn(db: JournalDb, k: RowKey, status: TxStatus, block: nat): (r: Option<JournalDb>) {
    if k in db.rows then Some(WithStatus(db, k, status, Some(block))) else None
  }

  function FinalityIn(db: JournalDb, k: RowKey, status: TxStatus): (r: Option<JournalDb>) {
    if (status.L1Posted? || status.EthereumFinal?)
       && k in db.rows && (db.rows[k].status.SoftConfirmed? || db.rows[k].status.L1Posted?)
    then Some(WithStatus(db, k, status, db.rows[k].block)) else None
  }

  function QuarantinedIn(db: JournalDb, k: RowKey): (n: JournalDb) {
    if k in db.rows then WithStatus(db, k, Quarantined, db.rows[k].block) else db
  }

  predicate Supersedes(db: JournalDb, k: RowKey, other: RowKey, intentId: nat, nonce: nat)
    requires other in db.rows
  {
    && other.deployment == k.deployment && other != k
    && db.rows[other].intent.id == intentId && db.rows[other].nonce == nonce && !db.rows[other].status.Terminal()
  }

  function SupersededIn(db: JournalDb, k: RowKey, intentId: nat, nonce: nat): (n: JournalDb) {
    db.(rows := map o | o in db.rows ::
                  if Supersedes(db, k, o, intentId, nonce) then db.rows[o].(status := TxStatus.Superseded) else db.rows[o])
  }

  // ---------------------------------------------------------------- the invariant

  predicate WithinCaps(r: Row, caps: Caps) {
    && r.tip <= r.maxFee && r.tip <= caps.maxTip && r.maxFee <= caps.maxFee && r.gas <= caps.maxGas
    && r.gas * r.maxFee <= caps.maxCost && r.depth <= caps.maxReplacements
  }

  // A replacement continues its target: same nonce and intent, one deeper, strictly dearer.
  predicate Continues(r: Row, target: Row) {
    && r.nonce == target.nonce && r.intent == target.intent && r.familyAt == target.familyAt
    && r.depth == target.depth + 1 && target.tip < r.tip && target.maxFee < r.maxFee && target.gas <= r.gas
  }

  ghost predicate RowOk(db: JournalDb, k: RowKey, caps: Caps)
    requires k in db.rows
  {
    var r := db.rows[k];
    && db.next.Some? && r.nonce < db.next.value
    && WithinCaps(r, caps)
    && (r.parent.None? <==> r.depth == 0)
    && (r.parent.Some? ==>
          && RowKey(k.deployment, r.parent.value) in db.rows
          && Continues(r, db.rows[RowKey(k.deployment, r.parent.value)])
          && db.rows[RowKey(k.deployment, r.parent.value)].replacedBy == Some(k.request))
  }

  ghost predicate RootsUnique(db: JournalDb) {
    forall j, k | j in db.rows && k in db.rows && db.rows[j].parent.None? && db.rows[k].parent.None?
                  && db.rows[j].nonce == db.rows[k].nonce :: j == k
  }

  ghost predicate Inv(db: JournalDb, caps: Caps) {
    (forall k | k in db.rows :: RowOk(db, k, caps)) && RootsUnique(db)
  }

  // ---------------------------------------------------------------- preservation

  /** A root at a nonce no smaller than the stored one keeps every family apart. */
  lemma RootKeepsInv(db: JournalDb, d: nat, r: SignedRecord, at: nat, caps: Caps)
    requires Inv(db, caps) && Insertable(db, d, r, true)
    requires db.next.Some? ==> db.next.value <= r.nonce
    requires WithinCaps(NewRow(r, None, 0, at), caps)
    ensures Inv(WithRoot(db, d, r, at), caps)
  {
    var n := WithRoot(db, d, r, at);
    forall k | k in n.rows ensures RowOk(n, k, caps) {
      if k in db.rows { assert RowOk(db, k, caps); }
    }
  }

  lemma ReplacementKeepsRow(db: JournalDb, d: nat, r: SignedRecord, target: nat, caps: Caps, k: RowKey)
    requires Inv(db, caps) && RowKey(d, target) in db.rows && RowKey(d, r.request) !in db.rows
    requires var was := db.rows[RowKey(d, target)];
             was.replacedBy.None?
             && Continues(NewRow(r, Some(target), was.depth + 1, was.familyAt), was)
             && WithinCaps(NewRow(r, Some(target), was.depth + 1, was.familyAt), caps)
    requires k in WithReplacement(db, d, r, target).rows
    ensures RowOk(WithReplacement(db, d, r, target), k, caps)
  {
    if k in db.rows { assert RowOk(db, k, caps); } else { assert RowOk(db, RowKey(d, target), caps); }
  }

  /** A replacement of a row nobody replaced yet extends its family at the end. */
  lemma ReplacementKeepsInv(db: JournalDb, d: nat, r: SignedRecord, target: nat, caps: Caps)
    requires Inv(db, caps) && RowKey(d, target) in db.rows && RowKey(d, r.request) !in db.rows
    requires var was := db.rows[RowKey(d, target)];
             was.replacedBy.None?
             && Continues(NewRow(r, Some(target), was.depth + 1, was.familyAt), was)
             && WithinCaps(NewRow(r, Some(target), was.depth + 1, was.familyAt), caps)
    ensures Inv(WithReplacement(db, d, r, target), caps)
  {
    var n := WithReplacement(db, d, r, target);
    forall k | k in n.rows ensures RowOk(n, k, caps) { ReplacementKeepsRow(db, d, r, target, caps, k); }
  }

  // The columns no status update touches.
  predicate SameTerms(r: Row, n: Row) { n == r.(status := n.status, block := n.block) }

  ghost predicate OnlyStatus(db: JournalDb, n: JournalDb) {
    && n.next == db.next && n.rows.Keys == db.rows.Keys
    && forall k | k in db.rows :: SameTerms(db.rows[k], n.rows[k])
  }

  lemma StatusKeepsInv(db: JournalDb, n: JournalDb, caps: Caps)
    requires Inv(db, caps) && OnlyStatus(db, n)
    ensures Inv(n, caps)
  {
    forall k | k in n.rows ensures RowOk(n, k, caps) {
      assert k in db.rows.Keys && RowOk(db, k, caps);
      if db.rows[k].parent.Some? { assert RowKey(k.deployment, db.rows[k].parent.value) in db.rows.Keys; }
    }
    forall j, k | j in n.rows && k in n.rows && n.rows[j].parent.None? && n.rows[k].parent.None?
                  && n.rows[j].nonce == n.rows[k].nonce ensures j == k
    {
      assert j in db.rows.Keys && k in db.rows.Keys;
    }
  }

  lemma OnlyStatusChains(a: JournalDb, b: JournalDb, c: JournalDb)
    requires OnlyStatus(a, b) && OnlyStatus(b, c)
    ensures OnlyStatus(a, c)
  {
    forall k | k in a.rows ensures SameTerms(a.rows[k], c.rows[k]) {
      assert k in b.rows.Keys;
    }
  }

  // ---------------------------------------------------------------- families

  // The transaction a family started with.
  ghost function RootOf(db: JournalDb, k: RowKey, caps: Caps): (root: RowKey)
    requires Inv(db, caps) && k in db.rows
    ensures root in db.rows && db.rows[root].parent.None? && root.deployment == k.deployment
    ensures db.rows[root].nonce == db.rows[k].nonce && db.rows[root].intent == db.rows[k].intent
    ensures db.rows[root].tip <= db.rows[k].tip && db.rows[root].maxFee <= db.rows[k].maxFee
    decreases db.rows[k].depth
  {
    assert RowOk(db, k, caps);
    if db.rows[k].parent.None? then k else RootOf(db, RowKey(k.deployment, db.rows[k].parent.value), caps)
  }

  /** Two transactions share a nonce only inside one family: one deployment, one spot intent. */
  lemma SharedNonceMeansOneFamily(db: JournalDb, caps: Caps, j: RowKey, k: RowKey)
    requires Inv(db, caps) && j in db.rows && k in db.rows && db.rows[j].nonce == db.rows[k].nonce
    ensures RootOf(db, j, caps) == RootOf(db, k, caps)
    ensures j.deployment == k.deployment && db.rows[j].intent == db.rows[k].intent
  {
    var a, b := RootOf(db, j, caps), RootOf(db, k, caps);
    assert db.rows[a].nonce == db.rows[b].nonce;
  }

  /** A family is a line: no two of its transactions stand at the same depth. */
  lemma {:induction false} FamiliesAreLinear(db: JournalDb, caps: Caps, j: RowKey, k: RowKey)
    requires Inv(db, caps) && j in db.rows && k in db.rows
    requires db.rows[j].nonce == db.rows[k].nonce && db.rows[j].depth == db.rows[k].depth
    ensures j == k
    decreases db.rows[j].depth
  {
    assert RowOk(db, j, caps) && RowOk(db, k, caps);
    if db.rows[j].parent.Some? {
      var p, q := RowKey(j.deployment, db.rows[j].parent.value), RowKey(k.deployment, db.rows[k].parent.value);
      FamiliesAreLinear(db, caps, p, q);
      assert Some(j.request) == Some(k.request);
    }
  }

  /** Along it tip and fee cap rise strictly, so of two members the deeper one always pays more. */
  lemma {:induction false} FeesRise(db: JournalDb, caps: Caps, j: RowKey, k: RowKey)
    requires Inv(db, caps) && j in db.rows && k in db.rows
    requires db.rows[j].nonce == db.rows[k].nonce && db.rows[j].depth < db.rows[k].depth
    ensures db.rows[j].tip < db.rows[k].tip && db.rows[j].maxFee < db.rows[k].maxFee
    decreases db.rows[k].depth
  {
    assert RowOk(db, k, caps);
    var p := RowKey(k.deployment, db.rows[k].parent.value);
    if db.rows[j].depth < db.rows[p].depth { FeesRise(db, caps, j, p); }
    else { FamiliesAreLinear(db, caps, j, p); }
  }

  function FamilyAt(db: JournalDb, nonce: nat): (r: set<RowKey>) {
    set k | k in db.rows && db.rows[k].nonce == nonce
  }

  lemma {:induction false} DepthsBoundSize(db: JournalDb, caps: Caps, keys: set<RowKey>, n: nat)
    requires Inv(db, caps) && forall k | k in keys :: k in db.rows && db.rows[k].depth < n
    requires forall j, k | j in keys && k in keys :: db.rows[j].nonce == db.rows[k].nonce
    ensures |keys| <= n
    decreases n
  {
    if keys != {} {
      if exists k :: k in keys && db.rows[k].depth == n - 1 {
        var k :| k in keys && db.rows[k].depth == n - 1;
        forall j | j in keys - {k} ensures db.rows[j].depth < n - 1 {
          if db.rows[j].depth == n - 1 { FamiliesAreLinear(db, caps, j, k); }
        }
        DepthsBoundSize(db, caps, keys - {k}, n - 1);
      } else {
        DepthsBoundSize(db, caps, keys, n - 1);
      }
    }
  }

  /** A nonce is signed at most once plus the configured number of replacements. */
  lemma FamiliesAreBounded(db: JournalDb, caps: Caps, nonce: nat)
    requires Inv(db, caps)
    ensures |FamilyAt(db, nonce)| <= caps.maxReplacements + 1
  {
    forall k | k in FamilyAt(db, nonce) ensures db.rows[k].depth < caps.maxReplacements + 1 {
      assert RowOk(db, k, caps);
    }
    DepthsBoundSize(db, caps, FamilyAt(db, nonce), caps.maxReplacements + 1);
  }

  // ---------------------------------------------------------------- the objects

  datatype Lookup = Unknown | Reused | Found(row: Row)

  class Journal {
    const deployment: nat
    var rows: map<RowKey, Row>
    var next: Option<nat>

    function View(): (db: JournalDb)
      reads this
    {
      JournalDb(rows, next)
    }

    constructor (d: nat)
      ensures deployment == d && View() == JournalDb(map[], None)
    {
      deployment := d;
      rows := map[];
      next := None;
    }

    /** The next nonce is the larger of the stored and the observed one; nothing is written before the commit. */
    method BeginNonce(observed: nat) returns (r: NonceReservation?)
      ensures r == null <==> observed > I64_MAX || NextNonce(View(), observed) >= I64_MAX
      ensures r != null ==>
                && fresh(r) && r.journal == this && r.locked == next && !r.done
                && r.nonce == NextNonce(View(), observed)
                && (next.Some? ==> next.value <= r.nonce) && observed <= r.nonce < I64_MAX
    {
      if observed > I64_MAX { return null; }
      var stored := observed;
      if next.Some? { stored := next.value; }
      var nonce := if stored >= observed then stored else observed;
      if nonce >= I64_MAX { return null; }
      r := new NonceReservation(this, next, nonce);
    }

    method Existing(request: nat, digest: nat) returns (r: Lookup)
      ensures r.Unknown? <==> RowKey(deployment, request) !in rows
      ensures r.Found? ==> RowKey(deployment, request) in rows && r.row == rows[RowKey(deployment, request)]
                           && r.row.digest == digest
      ensures r.Reused? ==> RowKey(deployment, request) in rows && rows[RowKey(deployment, request)].digest != digest
    {
      var k := RowKey(deployment, request);
      if k !in rows { return Unknown; }
      if rows[k].digest != digest { return Reused; }
      return Found(rows[k]);
    }

    method Replacement(request: nat) returns (r: Option<Row>)
      ensures r.Some? <==> RowKey(deployment, request) in rows && rows[RowKey(deployment, request)].status.Replaceable()
      ensures r.Some? ==> r.value == rows[RowKey(deployment, request)]
    {
      var k := RowKey(deployment, request);
      if k !in rows || !rows[k].status.Replaceable() { return None; }
      return Some(rows[k]);
    }

    /** Both rows change or none: a target that is gone, settled or already replaced refuses. */
    method InsertReplacement(record: SignedRecord, target: nat, depth: nat, familyAt: nat, commits: bool)
      returns (ok: bool)
      modifies this
      ensures ok <==> old(
                && depth != U16_MAX && commits && RowKey(deployment, target) in rows
                && Insertable(View(), deployment, record, false)
                && rows[RowKey(deployment, target)].replacedBy.None?
                && rows[RowKey(deployment, target)].status.Replaceable())
      ensures !ok ==> View() == old(View())
      ensures ok ==>
                && next == old(next)
                && rows == old(rows[RowKey(deployment, target)
                                     := rows[RowKey(deployment, target)].(status := Replaced,
                                                                         replacedBy := Some(record.request))]
                                   [RowKey(deployment, record.request)
                                     := NewRow(record, Some(target), depth + 1, familyAt)])
    {
      var k := RowKey(deployment, target);
      ok := false;
      if depth == U16_MAX || !Insertable(View(), deployment, record, false) || k !in rows { return; }
      if rows[k].replacedBy.Some? || !rows[k].status.Replaceable() || !commits { return; }
      rows := rows[k := rows[k].(status := Replaced, replacedBy := Some(record.request))]
                  [RowKey(deployment, record.request) := NewRow(record, Some(target), depth + 1, familyAt)];
      ok := true;
    }

    method SetSubmitted(request: nat) returns (ok: bool)
      modifies this`rows
      ensures ok <==> old(SubmittedIn(View(), RowKey(deployment, request))).Some?
      ensures View() == if ok then old(SubmittedIn(View(), RowKey(deployment, request))).value else old(View())
    {
      var k := RowKey(deployment, request);
      ok := k in rows && rows[k].status.Replaceable();
      if ok { rows := rows[k := rows[k].(status := Submitted)]; }
    }

    method SetAmbiguous(request: nat) returns (ok: bool)
      modifies this`rows
      ensures ok <==> old(AmbiguousIn(View(), RowKey(deployment, request))).Some?
      ensures View() == if ok then old(AmbiguousIn(View(), RowKey(deployment, request))).value else old(View())
    {
      var k := RowKey(deployment, request);
      ok := k in rows && (rows[k].status.Signed? || rows[k].status.SoftConfirmed? || rows[k].status.L1Posted?);
      if ok { rows := rows[k := rows[k].(status := Ambiguous, block := None)]; }
    }

    method SetReceipt(request: nat, status: TxStatus, block: nat) returns (ok: bool)
      modifies this`rows
      ensures ok <==> RowKey(deployment, request) in old(rows)
      ensures View() == if ok then old(ReceiptIn(View(), RowKey(deployment, request), status, block)).value else old(View())
    {
      var k := RowKey(deployment, request);
      ok := k in rows;
      if ok { rows := rows[k := rows[k].(status := status, block := Some(block))]; }
    }

    method SetSuperseded(request: nat, intentId: nat, nonce: nat)
      modifies this`rows
      ensures View() == old(SupersededIn(View(), RowKey(deployment, request), intentId, nonce))
    {
      var k := RowKey(deployment, request);
      rows := map o | o in rows ::
                if o.deployment == deployment && o.request != request && rows[o].intent.id == intentId
                   && rows[o].nonce == nonce && !rows[o].status.Terminal()
                then rows[o].(status := TxStatus.Superseded) else rows[o];
    }

    method SetFinality(request: nat, status: TxStatus) returns (ok: bool)
      modifies this`rows
      ensures ok <==> old(FinalityIn(View(), RowKey(deployment, request), status)).Some?
      ensures View() == if ok then old(FinalityIn(View(), RowKey(deployment, request), status)).value else old(View())
    {
      var k := RowKey(deployment, request);
      ok := (status.L1Posted? || status.EthereumFinal?)
            && k in rows && (rows[k].status.SoftConfirmed? || rows[k].status.L1Posted?);
      if ok { rows := rows[k := rows[k].(status := status)]; }
    }

    method Quarantine(request: nat)
      modifies this`rows
      ensures View() == old(QuarantinedIn(View(), RowKey(deployment, request)))
    {
      var k := RowKey(deployment, request);
      if k in rows { rows := rows[k := rows[k].(status := Quarantined)]; }
    }
  }

  class NonceReservation {
    const journal: Journal
    const locked: Option<nat>
    const nonce: nat
    var done: bool

    constructor (j: Journal, stored: Option<nat>, n: nat)
      ensures journal == j && locked == stored && nonce == n && !done
    {
      journal := j;
      locked := stored;
      nonce := n;
      done := false;
    }

    /** Record and nonce advance together; the row lock keeps the nonce row as the reservation found it. */
    method Commit(record: SignedRecord, at: nat, commits: bool) returns (ok: bool)
      requires !done ==> journal.next == locked && (locked.Some? ==> locked.value <= nonce)
      modifies this, journal
      ensures ok <==> old(!done && record.nonce == nonce && commits
                          && Insertable(journal.View(), journal.deployment, record, true))
      ensures ok ==> done && journal.View() == WithRoot(old(journal.View()), journal.deployment, record, at)
      ensures !ok ==> done == old(done) && journal.View() == old(journal.View())
    {
      ok := false;
      if done || record.nonce != nonce { return; }
      if !Insertable(journal.View(), journal.deployment, record, true) { return; }
      if journal.next.Or(nonce) > nonce + 1 || !commits { return; }
      journal.rows := journal.rows[RowKey(journal.deployment, record.request) := NewRow(record, None, 0, at)];
      journal.next := Some(nonce + 1);
      done := true;
      ok := true;
    }

    // Drops the open transaction; after a commit there is nothing left to drop.
    method Rollback()
      modifies this`done
      ensures done
    {
      if !done { done := true; }
    }
  }
}
