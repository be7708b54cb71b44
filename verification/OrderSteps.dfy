/** submit_perp, await by await, keeps the world invariant. */
module OrderSteps {
  import opened Common
  import opened CoordinatorTypes
  import opened StoreOps
  import opened WorkerDecisions
  import opened Worlds
  import opened CoreInvariants
  import opened CoreSteps
  import opened CoreMoves
  import opened WorkerFits
  import opened WorldInvariants
  import opened WorldSteps
  import opened WorkSteps
  import S = Sagas
  import X = ExitAuthorities

  // ---------------------------------------------------------------- rewriting the held row

  // A leaseholder may replace its row by one that keeps the lease.
  predicate Rewrites(row: ActionRow, irow: IntentRow, after: ActionRow) {
    after.status == row.status && ActionGrows(row, after) && ActionOk(after, irow) && LiveOk(after, irow.saga)
  }

  lemma RewrittenRun(w: World, t: nat, row: ActionRow, pc: Pc)
    requires Working(w, t) && Current(w.db, w.runs[t].claim)
    requires row.status == RowOf(w, t).status && ActionGrows(RowOf(w, t), row)
    requires pc.Bound? || row.payload == RowOf(w, t).payload
    requires ResultsAt(w.runs[t].claim, pc, row.results) && PcFits(w.runs[t].claim.kind, pc)
    requires Durable(PutAction(w.db, w.runs[t].claim.actionId, row), w.runs[t].claim, pc)
    ensures RunOk(PutAction(w.db, w.runs[t].claim.actionId, row), t, w.runs[t].(pc := pc))
  {
    RunOf(w, t);
  }

  lemma RewriteKeeps(w: World, t: nat, row: ActionRow, pc: Pc)
    requires Working(w, t) && Current(w.db, w.runs[t].claim) && row.intentId in w.db.core.intents
    requires Rewrites(RowOf(w, t), w.db.core.intents[row.intentId], row)
    requires pc.Bound? || row.payload == RowOf(w, t).payload
    requires ResultsAt(w.runs[t].claim, pc, row.results) && PcFits(w.runs[t].claim.kind, pc)
    requires Durable(PutAction(w.db, w.runs[t].claim.actionId, row), w.runs[t].claim, pc)
    requires SignedNonce(PutAction(w.db, w.runs[t].claim.actionId, row), w.runs[t].claim.actionId)
    requires GrantBacked(w, w.runs[t].claim.actionId, row)
    ensures WorldInv(Goto(w.(db := PutAction(w.db, w.runs[t].claim.actionId, row)), t, pc))
  {
    var a := w.runs[t].claim.actionId;
    DbOf(w);
    PutKeepsDb(w.db, a, row);
    PutGrows(w.db, a, row);
    RewrittenRun(w, t, row, pc);
    RunKeepsWorld(w, t, PutAction(w.db, a, row), pc);
  }

  lemma SameSignature(w: World, t: nat, row: ActionRow)
    requires Working(w, t) && Current(w.db, w.runs[t].claim)
    requires row.kind == RowOf(w, t).kind && row.results.signed == RowOf(w, t).results.signed
    ensures SignedNonce(PutAction(w.db, w.runs[t].claim.actionId, row), w.runs[t].claim.actionId)
  {
    DbOf(w);
    assert DbKeeps(w.db, SignatureFacet);
    assert SignedNonce(w.db, w.runs[t].claim.actionId);
  }

  // ---------------------------------------------------------------- exit authority

  lemma BindFits(row: ActionRow, irow: IntentRow, c: Claim, authority: X.ExitAuthority)
    requires Held(row, irow, c) && c.kind.UnwindPerp? && row.payload.authority.None?
    requires X.WorkerAccepts(authority, irow.saga.spot)
    ensures Rewrites(row, irow, row.(payload := row.payload.(authority := Some(authority))))
  {
  }

  lemma BindKeeps(w: World, t: nat, env: Env)
    requires Working(w, t) && w.runs[t].claim.kind.UnwindPerp?
    requires env.quote.Some? ==> X.ValidQuote(env.quote.value)
    ensures var c := w.runs[t].claim;
            WorldInv(Commit(w, t, BindExitAuthority(w.db, c.actionId, c.worker, c.token, env.now, env.quote), Bound))
  {
    var c := w.runs[t].claim;
    match BindExitAuthority(w.db, c.actionId, c.worker, c.token, env.now, env.quote) {
      case DbErr(e) => FailKeepsWorld(w, t, e);
      case DbOk(db) =>
        CurrentIsHeld(w, t);
        var row := RowOf(w, t);
        if row.payload.authority.Some? || env.quote.None? {
          RunOf(w, t);
          PcKeepsWorld(w, t, Bound);
        } else {
          var q := env.quote.value;
          var spot := w.db.core.intents[row.intentId].saga.spot;
          var until := env.now + X.MAX_EXIT_RECONCILIATION_WINDOW_MS;
          X.BuiltIsAccepted(spot, q, env.now, q.expiresAt, until, None, None);
          var authority := X.Build(spot, q, env.now, q.expiresAt, until, None, None).value;
          var after := row.(payload := row.payload.(authority := Some(authority)));
          BindFits(row, w.db.core.intents[row.intentId], c, authority);
          SameSignature(w, t, after);
          RewriteKeeps(w, t, after, Bound);
        }
    }
  }

  // ---------------------------------------------------------------- nonces

  lemma ReserveKeepsNonces(n: NonceTable, a: nat, scope: Scope, observed: nat)
    requires NonceInv(n) && a !in n.reservations
    ensures NonceInv(ReserveNonce(n, a, scope, observed).0)
    ensures NoncesGrow(n, ReserveNonce(n, a, scope, observed).0)
  {
  }

  lemma ReserveKeepsDb(db: Db, a: nat, scope: Scope, observed: nat)
    requires DbInv(db) && a !in db.nonces.reservations
    ensures DbInv(db.(nonces := ReserveNonce(db.nonces, a, scope, observed).0))
    ensures NoncesGrow(db.nonces, ReserveNonce(db.nonces, a, scope, observed).0)
  {
    assert DbKeeps(db, NonceFacet);
    ReserveKeepsNonces(db.nonces, a, scope, observed);
    var n := db.(nonces := ReserveNonce(db.nonces, a, scope, observed).0);
    forall f ensures DbKeeps(n, f) {
      assert DbKeeps(db, f);
      if f.SignatureFacet? {
        forall b | b in n.core.actions ensures SignedNonce(n, b) { assert SignedNonce(db, b); }
      }
    }
  }

  lemma NonceKeeps(w: World, t: nat, n: Db, nonce: nat)
    requires Working(w, t) && w.runs[t].pc.Start? && OrderKind(w.runs[t].claim.kind)
    requires w.runs[t].claim.results.signed.None?
    requires DbInv(n) && n == w.db.(nonces := n.nonces) && NoncesGrow(w.db.nonces, n.nonces)
    requires var a := w.runs[t].claim.actionId;
             a in n.nonces.reservations && n.nonces.reservations[a].nonce == nonce
    ensures WorldInv(Goto(w.(db := n), t, NonceAssigned(nonce)))
  {
    AsideKeepsWorld(w, n);
    RunOf(w, t);
    PcKeepsWorld(w.(db := n), t, NonceAssigned(nonce));
  }

  lemma DriftKeeps(w: World, t: nat)
    requires Working(w, t)
    ensures WorldInv(Goto(w.(db := w.db.(control := Halt(w.db.control))), t, Done))
  {
    HaltKeepsWorld(w);
    DoneKeepsWorld(w.(db := w.db.(control := Halt(w.db.control))), t);
  }

  lemma AssignKeeps(w: World, t: nat, env: Env)
    requires Working(w, t) && w.runs[t].pc.Start? && OrderKind(w.runs[t].claim.kind) && env.observed.Some?
    requires w.runs[t].claim.results.signed.None?
    ensures var c := w.runs[t].claim;
            WorldInv(match AssignLighterNonce(w.db, c.actionId, c.worker, c.token, env.scope, env.observed.value)
                     case NonceOk(db, nonce) => Goto(w.(db := db), t, NonceAssigned(nonce))
                     case NonceDrift(db) => Goto(w.(db := db), t, Done)
                     case NonceErr(e) => Goto(w, t, FailPc(e)))
  {
    var c := w.runs[t].claim;
    match AssignLighterNonce(w.db, c.actionId, c.worker, c.token, env.scope, env.observed.value) {
      case NonceErr(e) => FailKeepsWorld(w, t, e);
      case NonceDrift(db) => DriftKeeps(w, t);
      case NonceOk(db, nonce) =>
        DbOf(w);
        if c.actionId !in w.db.nonces.reservations {
          ReserveKeepsDb(w.db, c.actionId, env.scope, env.observed.value);
        }
        NonceKeeps(w, t, db, nonce);
    }
  }

  // ---------------------------------------------------------------- starting and signing

  // Without a durable authorization next to a signed transaction nothing can have been sent.
  lemma QuietAtStart(w: World, t: nat)
    requires Working(w, t) && w.runs[t].pc.Start? && OrderKind(w.runs[t].claim.kind)
    requires w.runs[t].claim.results.authorized.None? || w.runs[t].claim.results.signed.None?
    ensures Current(w.db, w.runs[t].claim) ==> Unsendable(RowOf(w, t).results)
  {
    if Current(w.db, w.runs[t].claim) { CurrentIsHeld(w, t); }
  }

  lemma HaveSignedKeeps(w: World, t: nat, tx: SignedTx)
    requires Working(w, t) && w.runs[t].pc.Start? && OrderKind(w.runs[t].claim.kind)
    requires w.runs[t].claim.results.signed == Some(tx)
    ensures WorldInv(Goto(w, t, HaveSigned(tx)))
  {
    RunOf(w, t);
    PcKeepsWorld(w, t, HaveSigned(tx));
  }

  lemma PerpStartKeeps(w: World, t: nat, env: Env)
    requires Working(w, t) && w.runs[t].pc.Start? && OrderKind(w.runs[t].claim.kind)
    requires env.quote.Some? ==> X.ValidQuote(env.quote.value)
    ensures WorldInv(PerpStart(w, t, env))
  {
    var c := w.runs[t].claim;
    var unwind := c.kind.UnwindPerp?;
    var live := c.results.authorized.Some? && c.results.signed.Some?;
    if c.results.submission.Some? { CompletePerpKeeps(w, t, c.results.submission.value, env); }
    else if unwind && ExitAuthorityOf(c).None? {
      if env.now > c.intent.emergencyDeadline { FailSafeKeeps(w, t, None); } else { BindKeeps(w, t, env); }
    }
    else if unwind && env.now > SubmissionDeadline(c) {
      if live { ContinuePerpKeeps(w, t, c.results.signed.value.txHash, env); }
      else { FailSafeKeeps(w, t, Some(S.Event.Unhedged)); }
    }
    else if !unwind && env.now > c.intent.deadline {
      if live { ContinuePerpKeeps(w, t, c.results.signed.value.txHash, env); }
      else { QuietAtStart(w, t); RejectKeeps(w, t, S.Event.Expired); }
    }
    else if c.results.signed.Some? { HaveSignedKeeps(w, t, c.results.signed.value); }
    else if env.observed.None? { RetryKeeps(w, t, env); }
    else { AssignKeeps(w, t, env); }
  }

  /** The order a worker signs is the one its intent or its exit authority describes. */
  lemma SigningFits(row: ActionRow, irow: IntentRow, c: Claim, nonce: nat, tx: SignedTx)
    requires Held(row, irow, c) && OrderKind(c.kind) && row.results.signed.None?
    requires LighterRequest(c, nonce) == Some(tx.order)
    ensures Rewrites(row, irow, row.(results := row.results.(signed := Some(tx)))) && tx.order.nonce == nonce
  {
  }

  lemma SignKeeps(w: World, t: nat, nonce: nat, tx: SignedTx)
    requires Working(w, t) && w.runs[t].pc == NonceAssigned(nonce)
    requires LighterRequest(w.runs[t].claim, nonce) == Some(tx.order)
    ensures var c := w.runs[t].claim;
            WorldInv(Commit(w, t, RecordSigned(w.db, c.actionId, c.worker, c.token, tx), HaveSigned(tx)))
  {
    var c := w.runs[t].claim;
    if !Holds(w.db, c.actionId, c.worker, c.token) { FailKeepsWorld(w, t, LeaseLost); }
    else {
      RunOf(w, t);
      CurrentIsHeld(w, t);
      var row := RowOf(w, t);
      SigningFits(row, w.db.core.intents[row.intentId], c, nonce, tx);
      RewriteKeeps(w, t, row.(results := row.results.(signed := Some(tx))), HaveSigned(tx));
    }
  }

  lemma QuietBeforeSigning(w: World, t: nat, nonce: nat)
    requires Working(w, t) && w.runs[t].pc == NonceAssigned(nonce)
    ensures OrderKind(w.runs[t].claim.kind)
    ensures Current(w.db, w.runs[t].claim) ==> Unsendable(RowOf(w, t).results)
  {
    RunOf(w, t);
    if Current(w.db, w.runs[t].claim) { CurrentIsHeld(w, t); }
  }

  lemma PerpSignKeeps(w: World, t: nat, nonce: nat, env: Env)
    requires Working(w, t) && w.runs[t].pc == NonceAssigned(nonce)
    ensures WorldInv(PerpSign(w, t, nonce, env))
  {
    var c := w.runs[t].claim;
    QuietBeforeSigning(w, t, nonce);
    match LighterRequest(c, nonce) {
      case None => PoisonKeepsWorld(w, t);
      case Some(order) =>
        match env.signer {
          case SignedBy(hash, encodable) => SignKeeps(w, t, nonce, SignedTx(hash, order, encodable));
          case SignerBusy => RetryKeeps(w, t, env);
          case SignerRefused =>
            if c.kind.UnwindPerp? { FailSafeKeeps(w, t, Some(S.Event.Unhedged)); }
            else { RejectKeeps(w, t, S.Event.Cancelled); }
        }
    }
  }

  lemma ClearKeeps(w: World, t: nat, tx: SignedTx, env: Env)
    requires Working(w, t) && w.runs[t].pc == HaveSigned(tx)
    ensures WorldInv(if ScopeDrifted(w.db, w.runs[t].claim.actionId, env.scope) then HaltAnd(w, t, Retrying)
                     else Goto(w, t, Cleared(tx)))
  {
    RunOf(w, t);
    if ScopeDrifted(w.db, w.runs[t].claim.actionId, env.scope) {
      HaltAndKeepsWorld(w, t, Retrying);
    } else {
      PcKeepsWorld(w, t, Cleared(tx));
    }
  }

  // ---------------------------------------------------------------- authorizing and sending

  lemma AuthorizingFits(row: ActionRow, irow: IntentRow, c: Claim, g: SendAuthorization)
    requires Held(row, irow, c) && (OrderKind(c.kind) ==> row.results.signed.Some?)
    ensures Rewrites(row, irow, row.(results := row.results.(authorized := Some(g))))
  {
  }

  lemma GrantKeeps(w: World, t: nat, tx: SignedTx, g: SendAuthorization)
    requires Working(w, t) && w.runs[t].pc == Cleared(tx) && Current(w.db, w.runs[t].claim)
    requires w.runs[t].claim.kind.SubmitPerp? ==> Granted(w.entryAuthorizations, w.runs[t].claim.actionId)
    ensures var row := RowOf(w, t).(results := RowOf(w, t).results.(authorized := Some(g)));
            WorldInv(Goto(w.(db := PutAction(w.db, w.runs[t].claim.actionId, row)), t, MaySend(tx)))
  {
    RunOf(w, t);
    CurrentIsHeld(w, t);
    var row := RowOf(w, t);
    var after := row.(results := row.results.(authorized := Some(g)));
    AuthorizingFits(row, w.db.core.intents[row.intentId], w.runs[t].claim, g);
    SameSignature(w, t, after);
    RewriteKeeps(w, t, after, MaySend(tx));
  }

  lemma RecordGrants(w: World, granted: set<EntryAuthorization>)
    requires WorldInv(w) && forall g | g in granted :: g.haltsAtClaim == g.haltsAtSend
    ensures WorldInv(w.(entryAuthorizations := w.entryAuthorizations + granted))
  {
    var n := w.(entryAuthorizations := w.entryAuthorizations + granted);
    forall f ensures Keeps(n, f) {
      assert Keeps(w, f);
      if f.LeaseFacet? {
        forall b | b in n.db.core.actions ensures LeaseOf(n, b) { assert LeaseOf(w, b); }
      } else if f.FenceFacet? {
        forall b | b in n.db.core.actions ensures GrantOf(n, b) {
          assert GrantOf(w, b);
          if Granted(w.entryAuthorizations, b) {
            var g :| g in w.entryAuthorizations && g.actionId == b;
            assert g in n.entryAuthorizations;
          }
        }
      }
    }
  }

  lemma PerpAuthorizeKeeps(w: World, t: nat, tx: SignedTx, env: Env)
    requires Working(w, t) && w.runs[t].pc == Cleared(tx)
    ensures WorldInv(PerpAuthorize(w, t, tx, env))
  {
    var c := w.runs[t].claim;
    RunOf(w, t);
    var result := if c.kind.UnwindPerp?
                  then AuthorizeUnwindSend(w.db, c.actionId, c.worker, c.token, env.now, env.quote)
                  else AuthorizeEntrySend(w.db, c.actionId, c.worker, c.token, c.controlVersion);
    match result {
      case DbErr(e) =>
        if (c.kind.UnwindPerp? && e.MarketAuthorityUnavailable?) || (c.kind.SubmitPerp? && e.CoordinatorHalted?) {
          PcKeepsWorld(w, t, SendRefused(tx));
        } else { FailKeepsWorld(w, t, e); }
      case DbOk(db) =>
        var row := RowOf(w, t);
        var g := if c.kind.UnwindPerp? then UnwindSend(row.payload.authority.value.session, row.payload.authority.value.eventId)
                 else EntrySend(w.db.control.version);
        var grant := EntryAuthorization(c.actionId, t, c.haltsAtClaim, w.db.control.halts);
        var granted := if c.kind.UnwindPerp? then {} else {grant};
        RecordGrants(w, granted);
        assert c.kind.SubmitPerp? ==> grant in w.entryAuthorizations + granted;
        GrantKeeps(w.(entryAuthorizations := w.entryAuthorizations + granted), t, tx, g);
    }
  }

  lemma RecordSend(w: World, p: (nat, SignedTx))
    requires WorldInv(w) && SentOk(w.db.core, p)
    ensures WorldInv(w.(sent := w.sent + [p]))
  {
    var n := w.(sent := w.sent + [p]);
    forall f ensures Keeps(n, f) {
      assert Keeps(w, f);
      if f.LeaseFacet? {
        forall b | b in n.db.core.actions ensures LeaseOf(n, b) { assert LeaseOf(w, b); }
      } else if f.FenceFacet? {
        forall b | b in n.db.core.actions ensures GrantOf(n, b) {
          assert GrantOf(w, b);
          if Granted(w.entryAuthorizations, b) {
            var g :| g in w.entryAuthorizations && g.actionId == b;
            assert g in n.entryAuthorizations;
          }
        }
      }
    }
  }

  lemma PerpBroadcastKeeps(w: World, t: nat, tx: SignedTx, env: Env)
    requires Working(w, t) && w.runs[t].pc == MaySend(tx)
    ensures WorldInv(PerpBroadcast(w, t, tx, env))
  {
    RunOf(w, t);
    if !tx.encodable { PcKeepsWorld(w, t, CannotEncode(tx)); }
    else {
      var sent := w.(sent := w.sent + [(w.runs[t].claim.actionId, tx)]);
      RecordSend(w, (w.runs[t].claim.actionId, tx));
      PcKeepsWorld(sent, t, if env.acknowledged then Accepted(Submission(0, tx.txHash)) else Unclear(tx));
    }
  }

  lemma PerpGiveUpKeeps(w: World, t: nat, tx: SignedTx, refused: bool, env: Env)
    requires Working(w, t) && w.runs[t].pc == if refused then SendRefused(tx) else CannotEncode(tx)
    ensures WorldInv(PerpGiveUp(w, t, tx, refused, env))
  {
    var c := w.runs[t].claim;
    RunOf(w, t);
    if refused && c.results.authorized.Some? { ContinuePerpKeeps(w, t, tx.txHash, env); }
    else if c.kind.UnwindPerp? { FailSafeKeeps(w, t, if refused then None else Some(S.Event.Unhedged)); }
    else { RejectKeeps(w, t, S.Event.Cancelled); }
  }
}
