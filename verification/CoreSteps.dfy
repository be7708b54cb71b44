/** The primitive updates of the core tables keep the core invariant. */
module CoreSteps {
  import opened Common
  import opened CoordinatorTypes
  import opened StoreOps
  import opened CoreInvariants

  function SetAction(core: Core, a: nat, row: ActionRow): (r: Core) {
    core.(actions := core.actions[a := row])
  }

  function SetIntent(core: Core, i: nat, row: IntentRow): (r: Core) {
    core.(intents := core.intents[i := row])
  }

  // ---------------------------------------------------------------- identifiers stay with their owners

  ghost predicate OwnersKept(taken: map<nat, nat>, n: map<nat, nat>) {
    forall v | v in taken :: v in n && n[v] == taken[v]
  }

  lemma IntentIndexStays(core: Core, next: Core, i: nat)
    requires i in core.intents && IntentIndexOk(core, i)
    requires i in next.intents && next.intents[i].intent == core.intents[i].intent
    requires Cursor(next, i) <= core.intents[i].intent.maxUnwindAttempts
    requires OwnersKept(core.orderIndexes, next.orderIndexes) && OwnersKept(core.spotIds, next.spotIds)
    ensures IntentIndexOk(next, i)
  {
  }

  lemma OrderIndexStays(core: Core, next: Core, a: nat)
    requires a in core.actions && Owned(core, a) && OrderIndexOk(core, a)
    requires a in next.actions && ActionGrows(core.actions[a], next.actions[a])
    requires var i := core.actions[a].intentId;
             && i in next.intents && next.intents[i].intent == core.intents[i].intent
             && Cursor(core, i) <= Cursor(next, i)
    requires OwnersKept(core.orderIndexes, next.orderIndexes)
    ensures Owned(next, a) && OrderIndexOk(next, a)
  {
  }

  lemma SameRowGrows(r: ActionRow)
    ensures ActionGrows(r, r)
  {
  }

  // ---------------------------------------------------------------- one row

  // The row put at `a` is sound for its intent, live only where a live one may stand.
  ghost predicate Placeable(core: Core, a: nat, row: ActionRow) {
    && row.intentId in core.intents
    && ActionOk(row, core.intents[row.intentId])
    && (row.Live() ==> LiveOk(row, core.intents[row.intentId].saga))
  }

  lemma SetActionKeepsActions(core: Core, a: nat, row: ActionRow)
    requires ActionsOk(core) && Placeable(core, a, row)
    ensures ActionsOk(SetAction(core, a, row))
  {
    var next := SetAction(core, a, row);
    forall b | b in next.actions
      ensures Owned(next, b) && ActionOk(next.actions[b], next.intents[next.actions[b].intentId])
    {
      if b != a { assert Owned(core, b); }
    }
  }

  lemma SetActionKeepsLive(core: Core, a: nat, row: ActionRow)
    requires LiveActionsOk(core) && Placeable(core, a, row)
    ensures LiveActionsOk(SetAction(core, a, row))
  {
    var next := SetAction(core, a, row);
    forall b | b in next.actions && next.actions[b].Live()
      ensures Owned(next, b) && LiveOk(next.actions[b], SagaOf(next, b))
    {
      if b != a { assert Owned(core, b); }
    }
  }

  lemma SetActionKeepsInv(core: Core, a: nat, row: ActionRow)
    requires CoreInv(core) && a in core.actions
    requires ActionGrows(core.actions[a], row) && Placeable(core, a, row)
    requires row.Live() ==> core.actions[a].Live()
    ensures CoreInv(SetAction(core, a, row))
  {
    SetActionKeepsActions(core, a, row);
    SetActionKeepsLive(core, a, row);
    SetActionStaysUnique(core, a, row);
    SetActionKeepsPurchase(core, a, row);
  }

  lemma SetActionStaysUnique(core: Core, a: nat, row: ActionRow)
    requires OneLive(core) && OneEntry(core) && OneActive(core) && a in core.actions
    requires ActionGrows(core.actions[a], row) && (row.Live() ==> core.actions[a].Live())
    ensures var next := SetAction(core, a, row); OneLive(next) && OneEntry(next) && OneActive(next)
  {
  }

  lemma SetActionKeepsPurchase(core: Core, a: nat, row: ActionRow)
    requires OnePurchase(core) && a in core.actions && ActionGrows(core.actions[a], row)
    ensures OnePurchase(SetAction(core, a, row))
  {
    var next := SetAction(core, a, row);
    forall b, c | b in next.actions && c in next.actions && b != c
                  && Purchases(next, c, next.actions[b].intentId) && next.actions[b].kind.SubmitSpot?
      ensures KnownId(next.actions[b]).Some? && KnownId(next.actions[b]) == KnownId(next.actions[c])
    {
      assert Purchases(core, c, core.actions[b].intentId) && Purchases(core, b, core.actions[c].intentId);
    }
  }

  lemma SetActionKeepsIndex(core: Core, a: nat, row: ActionRow)
    requires IndexInv(core) && a in core.actions && ActionGrows(core.actions[a], row)
    ensures IndexInv(SetAction(core, a, row))
  {
    var next := SetAction(core, a, row);
    forall i | i in next.intents ensures IntentIndexOk(next, i) {
      assert IntentIndexOk(core, i);
      IntentIndexStays(core, next, i);
    }
    forall b | b in next.actions && next.actions[b].kind.UnwindPerp?
      ensures Owned(next, b) && OrderIndexOk(next, b)
    {
      assert b in core.actions && core.actions[b].kind.UnwindPerp?;
      if b != a { SameRowGrows(core.actions[b]); }
      OrderIndexStays(core, next, b);
    }
  }

  // ---------------------------------------------------------------- one saga

  lemma AdvanceKeepsAction(r: ActionRow, irow: IntentRow, nrow: IntentRow)
    requires ActionOk(r, irow) && SagaAdvances(irow.saga, nrow.saga) && SagaOk(irow.saga) && SagaOk(nrow.saga)
    requires nrow.intent == irow.intent
    requires r.kind.SubmitPerp? && Voided(nrow.log) ==> r.status.Rejected?
    ensures ActionOk(r, nrow)
  {
  }

  // The new row of intent `i` suits its live action and its rejected entry.
  ghost predicate Suits(core: Core, i: nat, row: IntentRow) {
    forall a | a in core.actions && core.actions[a].intentId == i ::
      && (core.actions[a].Live() ==> LiveOk(core.actions[a], row.saga))
      && (core.actions[a].kind.SubmitPerp? && Voided(row.log) ==> core.actions[a].status.Rejected?)
  }

  lemma SetIntentKeepsActions(core: Core, i: nat, row: IntentRow)
    requires ActionsOk(core) && i in core.intents
    requires SagaOk(core.intents[i].saga) && SagaOk(row.saga)
    requires row.intent == core.intents[i].intent && SagaAdvances(core.intents[i].saga, row.saga)
    requires Suits(core, i, row)
    ensures ActionsOk(SetIntent(core, i, row))
  {
    var next := SetIntent(core, i, row);
    forall a | a in next.actions
      ensures Owned(next, a) && ActionOk(next.actions[a], next.intents[next.actions[a].intentId])
    {
      assert Owned(core, a);
      if core.actions[a].intentId == i { AdvanceKeepsAction(core.actions[a], core.intents[i], row); }
    }
  }

  lemma SetIntentKeepsLive(core: Core, i: nat, row: IntentRow)
    requires ActionsOk(core) && LiveActionsOk(core) && i in core.intents && Suits(core, i, row)
    ensures LiveActionsOk(SetIntent(core, i, row))
  {
    var next := SetIntent(core, i, row);
    forall a | a in next.actions && next.actions[a].Live()
      ensures Owned(next, a) && LiveOk(next.actions[a], SagaOf(next, a))
    {
      assert Owned(core, a);
    }
  }

  lemma SetIntentKeepsInv(core: Core, i: nat, row: IntentRow)
    requires CoreInv(core) && i in core.intents && IntentOk(row, i)
    requires row.intent == core.intents[i].intent && SagaAdvances(core.intents[i].saga, row.saga)
    requires Suits(core, i, row)
    ensures CoreInv(SetIntent(core, i, row))
  {
    SetIntentKeepsActions(core, i, row);
    SetIntentKeepsLive(core, i, row);
    SetIntentKeepsActive(core, i, row);
  }

  lemma SetIntentKeepsActive(core: Core, i: nat, row: IntentRow)
    requires IntentsOk(core) && OneActive(core) && i in core.intents && IntentOk(row, i)
    requires SagaAdvances(core.intents[i].saga, row.saga)
    ensures IntentsOk(SetIntent(core, i, row)) && OneActive(SetIntent(core, i, row))
  {
    assert row.active ==> core.intents[i].active;
  }

  lemma SetIntentKeepsIndex(core: Core, i: nat, row: IntentRow)
    requires IndexInv(core) && i in core.intents && row.intent == core.intents[i].intent
    ensures IndexInv(SetIntent(core, i, row))
  {
    var next := SetIntent(core, i, row);
    forall j | j in next.intents ensures IntentIndexOk(next, j) {
      assert IntentIndexOk(core, j);
      IntentIndexStays(core, next, j);
    }
    forall a | a in next.actions && next.actions[a].kind.UnwindPerp?
      ensures Owned(next, a) && OrderIndexOk(next, a)
    {
      assert a in core.actions && core.actions[a].kind.UnwindPerp?;
      SameRowGrows(core.actions[a]);
      OrderIndexStays(core, next, a);
    }
  }

  // ---------------------------------------------------------------- a new action

  lemma AddActionKeepsInv(core: Core, id: nat, row: ActionRow)
    requires CoreInv(core) && id !in core.actions && !HasLive(core, row.intentId)
    requires Placeable(core, id, row)
    requires row.kind.SubmitPerp? ==>
               forall a | a in core.actions && core.actions[a].intentId == row.intentId :: !core.actions[a].kind.SubmitPerp?
    requires row.kind.SubmitSpot? ==> Joins(core, row.intentId, KnownId(row))
    ensures CoreInv(SetAction(core, id, row))
  {
    SetActionKeepsActions(core, id, row);
    SetActionKeepsLive(core, id, row);
    AddActionStaysUnique(core, id, row);
    AddActionKeepsPurchase(core, id, row);
  }

  // The id is that of every purchase the intent has so far.
  ghost predicate Joins(core: Core, i: nat, id: Option<nat>) {
    forall a | Purchases(core, a, i) :: id.Some? && KnownId(core.actions[a]) == id
  }

  lemma AddActionKeepsPurchase(core: Core, id: nat, row: ActionRow)
    requires OnePurchase(core) && id !in core.actions
    requires row.kind.SubmitSpot? ==> Joins(core, row.intentId, KnownId(row))
    ensures OnePurchase(SetAction(core, id, row))
  {
    var next := SetAction(core, id, row);
    forall b, c | b in next.actions && c in next.actions && b != c
                  && Purchases(next, c, next.actions[b].intentId) && next.actions[b].kind.SubmitSpot?
      ensures KnownId(next.actions[b]).Some? && KnownId(next.actions[b]) == KnownId(next.actions[c])
    {
      if b == id { assert Purchases(core, c, row.intentId); }
      else if c == id { assert Purchases(core, b, row.intentId); }
      else { assert Purchases(core, c, core.actions[b].intentId); }
    }
  }

  lemma AddActionStaysUnique(core: Core, id: nat, row: ActionRow)
    requires OneLive(core) && OneEntry(core) && id !in core.actions && !HasLive(core, row.intentId)
    requires row.kind.SubmitPerp? ==>
               forall a | a in core.actions && core.actions[a].intentId == row.intentId :: !core.actions[a].kind.SubmitPerp?
    ensures OneLive(SetAction(core, id, row)) && OneEntry(SetAction(core, id, row))
  {
  }

  lemma AddActionKeepsIndex(core: Core, id: nat, row: ActionRow)
    requires IndexInv(core) && id !in core.actions && row.intentId in core.intents
    requires !row.kind.UnwindPerp?
    ensures IndexInv(SetAction(core, id, row))
  {
    var next := SetAction(core, id, row);
    forall j | j in next.intents ensures IntentIndexOk(next, j) {
      assert IntentIndexOk(core, j);
      IntentIndexStays(core, next, j);
    }
    forall a | a in next.actions && next.actions[a].kind.UnwindPerp?
      ensures Owned(next, a) && OrderIndexOk(next, a)
    {
      assert a in core.actions && core.actions[a].kind.UnwindPerp?;
      SameRowGrows(core.actions[a]);
      OrderIndexStays(core, next, a);
    }
  }
}
