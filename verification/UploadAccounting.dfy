/**
 Storage accounting over runs: stored plus reserved bytes and slots grow only
 when an upload is admitted, so an admitted budget is never exceeded.
 */
module UploadAccounting {
  import opened Options
  import opened Sums
  import opened UploadIntents
  import opened UploadMachine
  import opened UploadTheorems

  /** The intent reserves no more than before, in the same workspace. */
  predicate Lighter(x: Intent, y: Intent) {
    && x.workspace == y.workspace && x.reserved <= y.reserved
    && (Counts(x.state) && x.reserved > 0 ==> Counts(y.state))
  }

  predicate NoHeavier(s: Store, t: Store, ws: int) {
    Bytes(s, ws) <= Bytes(t, ws) && Slots(s, ws) <= Slots(t, ws) && Reserved(s, ws) <= Reserved(t, ws)
  }

  lemma PutWeighs(s: Store, i: nat, x: Intent, ws: int)
    requires i < |s.intents|
    ensures Reserved(Put(s, i, x), ws) == Reserved(s, ws) - ReservedOf(ws)(s.intents[i]) + ReservedOf(ws)(x)
    ensures Bytes(Put(s, i, x), ws) == Bytes(s, ws) - ReservedOf(ws)(s.intents[i]) + ReservedOf(ws)(x)
    ensures Slots(Put(s, i, x), ws) == Slots(s, ws) - SlotOf(ws)(s.intents[i]) + SlotOf(ws)(x)
  {
    SumUpdate(s.intents, ReservedOf(ws), i, x);
    SumUpdate(s.intents, SlotOf(ws), i, x);
  }

  /** At most one intent changes, and only towards a lighter one. */
  ghost predicate OneLighter(m: Machine, n: Machine) {
    || n.store.intents == m.store.intents
    || exists i: nat :: i < |m.store.intents| == |n.store.intents| && Lighter(n.store.intents[i], m.store.intents[i])
                        && n.store.intents == m.store.intents[i := n.store.intents[i]]
  }

  lemma CompensationIsLighter(m: Machine, i: nat)
    requires Ok(m)
    ensures OneLighter(m, NextCompensation(m, i)) && NextCompensation(m, i).store.assets == m.store.assets
  {
    if i < |m.pcs| && (At(m, i, Cleaned) || At(m, i, Unclean)) {
      assert IntentOk(m, i);
      assert Lighter(NextCompensation(m, i).store.intents[i], m.store.intents[i]);
    }
  }

  lemma RecordIsLighter(m: Machine, token: Token, expires: int, maxRetries: nat)
    requires Ok(m)
    ensures var n := NextRecord(m, token, expires, maxRetries);
            OneLighter(m, n) && n.store.assets == m.store.assets
  {
    if Working(m, token, Gone) || Working(m, token, Stuck) {
      var i := m.items[token].intent;
      assert Lighter(NextRecord(m, token, expires, maxRetries).store.intents[i], m.store.intents[i]);
    }
  }

  lemma CheckIsLighter(m: Machine, token: Token)
    requires Ok(m)
    ensures OneLighter(m, NextCheck(m, token)) && NextCheck(m, token).store.assets == m.store.assets
  {
    if Working(m, token, Fresh) {
      assert ItemOk(m, token);
    }
  }

  lemma ClaimIsLighter(m: Machine, i: nat, now: int, lease: int)
    requires Ok(m)
    ensures OneLighter(m, NextClaim(m, i, now, lease)) && NextClaim(m, i, now, lease).store.assets == m.store.assets
  {
    if i < |m.store.intents| && Claimable(m.store.intents[i], now) {
      assert Lighter(NextClaim(m, i, now, lease).store.intents[i], m.store.intents[i]);
    }
  }

  lemma OtherStepIsLighter(m: Machine, st: Step)
    requires Ok(m) && !st.Create? && !st.Save? && !st.RetainRow?
    ensures OneLighter(m, Next(m, st)) && Next(m, st).store.assets == m.store.assets
  {
    match st
    case Compensation(i) => CompensationIsLighter(m, i);
    case SweepRecord(token, expires, maxRetries) => RecordIsLighter(m, token, expires, maxRetries);
    case SweepCheck(token) => CheckIsLighter(m, token);
    case SweepClaim(i, now, lease) => ClaimIsLighter(m, i, now, lease);
    case Cancel(i) =>
      if At(m, i, Created) {
        assert IntentOk(m, i);
        assert Lighter(Next(m, st).store.intents[i], m.store.intents[i]);
      }
    case Mark(i) =>
      if At(m, i, Pc.Stored) {
        assert Lighter(Next(m, st).store.intents[i], m.store.intents[i]);
      }
    case _ =>
  }

  lemma LighterWeighs(m: Machine, n: Machine, ws: int)
    requires OneLighter(m, n) && n.store.assets == m.store.assets
    ensures NoHeavier(n.store, m.store, ws)
  {
    if n.store.intents != m.store.intents {
      var i: nat :| i < |m.store.intents| == |n.store.intents| && Lighter(n.store.intents[i], m.store.intents[i])
                    && n.store.intents == m.store.intents[i := n.store.intents[i]];
      PutWeighs(m.store, i, n.store.intents[i], ws);
      assert Put(m.store, i, n.store.intents[i]).intents == n.store.intents;
    }
  }

  /** The save that a step commits. */
  predicate Commits(m: Machine, st: Step) {
    st.Save? && At(m, st.i, Marked) && st.fate == Normal && m.store.intents[st.i].state == Uploaded
  }

  lemma AddWeighs(s: Store, a: Asset, ws: int)
    ensures var after := s.(assets := s.assets + [a], nextId := s.nextId + 1);
            && Bytes(after, ws) == Bytes(s, ws) + StoredOf(ws)(a) && Reserved(after, ws) == Reserved(s, ws)
            && Slots(after, ws) == Slots(s, ws) + StoredSlotOf(ws)(a)
  {
    SumAppend(s.assets, StoredOf(ws), a);
    SumAppend(s.assets, StoredSlotOf(ws), a);
  }

  lemma SaveWeighs(m: Machine, i: nat, size: nat, ws: int)
    requires At(m, i, Marked) && m.store.intents[i].state == Uploaded
    ensures var n, intent := NextSave(m, i, size, Normal), m.store.intents[i];
            && Reserved(n.store, ws) == Reserved(m.store, ws) - (if intent.workspace == ws then intent.reserved else 0)
            && Bytes(n.store, ws) == Bytes(m.store, ws) + (if intent.workspace == ws then size - intent.reserved else 0)
            && Slots(n.store, ws) == Slots(m.store, ws)
                                     + (if intent.workspace == ws && intent.reserved == 0 then 1 else 0)
  {
    var intent := m.store.intents[i];
    var asset := Asset(m.store.nextId, intent.workspace, intent.key, size);
    PutWeighs(m.store, i, intent.(state := Completed), ws);
    AddWeighs(Put(m.store, i, intent.(state := Completed)), asset, ws);
  }

  lemma RetainWeighs(m: Machine, k: nat, ws: int)
    ensures var n := NextRetainRow(m, k);
            NoHeavier(n.store, m.store, ws)
  {
    if k < |m.store.assets| && m.store.assets[k].key in m.erased {
      SumRemove(m.store.assets, StoredOf(ws), k);
      SumRemove(m.store.assets, StoredSlotOf(ws), k);
    }
  }

  lemma CreateWeighs(m: Machine, st: Step, ws: int)
    requires st.Create? && Next(m, st) != m
    ensures var n := Next(m, st);
            && WithinBudget(m.store, st.ws, st.incoming, st.policy)
            && Reserved(n.store, ws) == Reserved(m.store, ws) + (if st.ws == ws then st.incoming else 0)
            && Bytes(n.store, ws) == Bytes(m.store, ws) + (if st.ws == ws then st.incoming else 0)
            && Slots(n.store, ws) == Slots(m.store, ws) + (if st.ws == ws && st.incoming > 0 then 1 else 0)
  {
    var intent := Intent(st.owner, st.ws, st.key, Pending, st.lease, 0, None, st.incoming);
    SumAppend(m.store.intents, ReservedOf(ws), intent);
    SumAppend(m.store.intents, SlotOf(ws), intent);
  }

  /**
   Conservation: stored plus reserved bytes and slots of a workspace grow only by
   an admitted upload into it, by exactly its size and by exactly one slot.
   */
  lemma AccountingStep(m: Machine, st: Step, ws: int)
    requires Ok(m) && GoodStep(m, st)
    ensures var n := Next(m, st);
            if st.Create? && n != m then
              && WithinBudget(m.store, st.ws, st.incoming, st.policy)
              && Reserved(n.store, ws) == Reserved(m.store, ws) + (if st.ws == ws then st.incoming else 0)
              && Bytes(n.store, ws) == Bytes(m.store, ws) + (if st.ws == ws then st.incoming else 0)
              && Slots(n.store, ws) == Slots(m.store, ws) + (if st.ws == ws then 1 else 0)
            else NoHeavier(n.store, m.store, ws)
  {
    var n := Next(m, st);
    if st.Create? {
      if n != m {
        CreateWeighs(m, st, ws);
      }
    } else if st.Save? {
      if Commits(m, st) {
        assert IntentOk(m, st.i);
        SaveWeighs(m, st.i, st.size, ws);
      }
    } else if st.RetainRow? {
      RetainWeighs(m, st.k, ws);
    } else {
      OtherStepIsLighter(m, st);
      LighterWeighs(m, n, ws);
    }
  }

  /** Every upload into the workspace is admitted under the policy. */
  ghost predicate AdmittedUnder(steps: seq<Step>, ws: int, policy: Policy) {
    forall k :: 0 <= k < |steps| && steps[k].Create? && steps[k].ws == ws ==> steps[k].policy == policy
  }

  lemma EmptyWeighsNothing(ws: int)
    ensures Bytes(Initial.store, ws) == 0 && Slots(Initial.store, ws) == 0 && Reserved(Initial.store, ws) == 0
  {
  }

  /** The workspace keeps within the limits of the policy. */
  predicate WithinLimits(s: Store, ws: int, policy: Policy) {
    && (policy.maxStoredBytes > 0 ==> Bytes(s, ws) <= policy.maxStoredBytes)
    && (policy.maxAssetCount > 0 ==> Slots(s, ws) <= policy.maxAssetCount)
    && (policy.maxReservedBytes > 0 ==> Reserved(s, ws) <= policy.maxReservedBytes)
  }

  lemma LimitsStep(m: Machine, st: Step, ws: int, policy: Policy)
    requires Ok(m) && GoodStep(m, st) && (st.Create? && st.ws == ws ==> st.policy == policy)
    requires WithinLimits(m.store, ws, policy)
    ensures WithinLimits(Next(m, st).store, ws, policy)
  {
    AccountingStep(m, st, ws);
  }

  /** No byte budget, asset count or reservation limit is ever exceeded, at any moment of any run. */
  lemma {:induction false} BudgetsHold(ms: seq<Machine>, steps: seq<Step>, n: nat, ws: int, policy: Policy)
    requires IsRun(ms, steps) && n < |ms| && AdmittedUnder(steps, ws, policy)
    ensures WithinLimits(ms[n].store, ws, policy)
  {
    if n == 0 {
      EmptyWeighsNothing(ws);
    } else {
      BudgetsHold(ms, steps, n - 1, ws, policy);
      RunIsOk(ms, steps, n - 1);
      LimitsStep(ms[n - 1], steps[n - 1], ws, policy);
    }
  }
}
