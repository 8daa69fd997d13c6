/**
 * Properties of sequences of merchant callbacks: idempotent create,
 * credit applied once however often PerformTransaction is retried, and the
 * places where the handlers' behaviour is weaker than that.
 */
module EngineLaws {
  import opened Wrappers
  import opened Tables
  import opened Engine

  /** CheckPerformTransaction allowing a request means CreateTransaction adds its row. */
  lemma AllowedCreateAddsRow(s: Store, u: UserId, amount: int, time: int, p: PaycomId)
    requires CheckPerform(s, Given(u), p, Healthy).response == ResultBody(Allow(true))
    ensures var r := Create(s, Given(u), Given(amount), time, p, Healthy);
            && r.store.txns.Keys == s.txns.Keys + {p}
            && r.store.txns[p] == Txn(s.nextId, u, amount, CallbackUses(amount), Pending, time, 0, 0, None)
            && |r.store.txns| == |s.txns| + 1
  {
    var r := Create(s, Given(u), Given(amount), time, p, Healthy);
    assert r.store.txns.Keys == s.txns.Keys + {p};
    assert |r.store.txns.Keys| == |s.txns.Keys| + 1;
  }

  /**
   * Idempotent create: repeating CreateTransaction for the same gateway id
   * answers with what the first call answered and adds no row, whatever
   * amount and time the repeat carries.
   */
  lemma CreateIsIdempotent(s: Store, u: UserId, amount: int, time: int, p: PaycomId,
                           amount2: Param<int>, time2: int)
    requires u in s.accounts
    ensures var first := Create(s, Given(u), Given(amount), time, p, Healthy);
            var second := Create(first.store, Given(u), amount2, time2, p, Healthy);
            && first.response.ResultBody?
            && second.store == first.store
            && second.response == first.response
  {
    var first := Create(s, Given(u), Given(amount), time, p, Healthy);
    if p !in s.txns {
      assert first.store.txns[p].state.Code() == 1;
    }
  }

  /** A perform that gets through pays the row and credits its owner by exactly its uses. */
  lemma PerformPaysAndCredits(s: Store, p: PaycomId, now: int, fault: Fault)
    requires p in s.txns && s.txns[p].state != Paid && Succeeds(fault)
    ensures var t := s.txns[p];
            var r := Perform(s, p, now, fault);
            && r.response == ResultBody(Performed(t.id, now, 2))
            && r.store.txns == s.txns[p := t.(state := Paid, performTime := now, cancelTime := 0)]
            && forall v :: Purchased(r.store, v) ==
                           Purchased(s, v) + (if v == t.userId && v in s.accounts then t.uses else 0)
  {
    var t := s.txns[p];
    var paid := UpdateStatus(s, p, Paid, Set(now), Set(0), Keep);
    assert paid.txns == s.txns[p := t.(state := Paid, performTime := now, cancelTime := 0)];
    assert forall v :: Purchased(paid, v) == Purchased(s, v);
  }

  /** Replaying PerformTransaction on a paid row answers with the stored perform time. */
  lemma PerformReplayEchoes(s: Store, p: PaycomId, now: int, fault: Fault)
    requires p in s.txns && s.txns[p].state == Paid && !fault.Raises(0)
    ensures var r := Perform(s, p, now, fault);
            r.store == s && r.response == ResultBody(Performed(s.txns[p].id, s.txns[p].performTime, 2))
  {
  }

  /** Performing twice in a row credits the owner once. */
  lemma PerformTwiceCreditsOnce(s: Store, p: PaycomId, now1: int, now2: int)
    requires p in s.txns && s.txns[p].state != Paid
    ensures var t := s.txns[p];
            var once := Perform(s, p, now1, Healthy);
            var twice := Perform(once.store, p, now2, Healthy);
            && twice.store == once.store
            && twice.response == once.response
            && Purchased(twice.store, t.userId) ==
               Purchased(s, t.userId) + (if t.userId in s.accounts then t.uses else 0)
  {
    PerformPaysAndCredits(s, p, now1, Healthy);
  }

  /** The store after a sequence of PerformTransaction attempts for one id, each with its time and fault. */
  function PerformAll(s: Store, p: PaycomId, attempts: seq<(int, Fault)>): Store
    decreases |attempts|
  {
    if |attempts| == 0 then s
    else PerformAll(Perform(s, p, attempts[0].0, attempts[0].1).store, p, attempts[1..])
  }

  predicate IsPaid(s: Store, p: PaycomId) {
    p in s.txns && s.txns[p].state == Paid
  }

  /**
   * Exactly-once credit under retries: after any sequence of perform
   * attempts, some of which may fail, the row is paid exactly when it was
   * already or some attempt got through, and its owner has been credited
   * exactly once if it became paid and not at all otherwise. No other
   * account changes.
   */
  lemma {:induction false} RetriedPerformCreditsOnce(s: Store, p: PaycomId, attempts: seq<(int, Fault)>)
    requires p in s.txns
    ensures var s' := PerformAll(s, p, attempts);
            var t := s.txns[p];
            && p in s'.txns
            && s'.txns[p].userId == t.userId && s'.txns[p].uses == t.uses
            && (IsPaid(s', p) <==> IsPaid(s, p) || exists i :: 0 <= i < |attempts| && Succeeds(attempts[i].1))
            && s'.accounts == (if !IsPaid(s, p) && IsPaid(s', p)
                               then AddPurchasedUses(s, t.userId, t.uses).accounts
                               else s.accounts)
    decreases |attempts|
  {
    if |attempts| > 0 {
      var t := s.txns[p];
      var s1 := Perform(s, p, attempts[0].0, attempts[0].1).store;
      if !IsPaid(s, p) && Succeeds(attempts[0].1) {
        PerformPaysAndCredits(s, p, attempts[0].0, attempts[0].1);
      }
      assert p in s1.txns && s1.txns[p].userId == t.userId && s1.txns[p].uses == t.uses;
      RetriedPerformCreditsOnce(s1, p, attempts[1..]);
      var s' := PerformAll(s, p, attempts);
      if IsPaid(s', p) && !IsPaid(s, p) && !Succeeds(attempts[0].1) {
        var i :| 0 <= i < |attempts[1..]| && Succeeds(attempts[1..][i].1);
        assert Succeeds(attempts[i + 1].1);
      }
      if exists i :: 0 <= i < |attempts| && Succeeds(attempts[i].1) {
        var i :| 0 <= i < |attempts| && Succeeds(attempts[i].1);
        if i > 0 {
          assert Succeeds(attempts[1..][i - 1].1);
        }
      }
    }
  }

  /**
   * The as-written handler loses the credit: when the credit call raises
   * after the status write, the row is paid, and the gateway's retry takes
   * the already-paid branch, so the owner is never credited.
   */
  lemma PartialPerformLosesCredit()
    ensures var s := Store(map["tx" := Txn(0, 7, 500000, 5, Pending, 1, 0, 0, None)],
                           map[7 := Account(0, 0)], 1);
            var failed := PerformAsWritten(s, "tx", 10, RaisesAt(2, "database is locked"));
            var retried := PerformAsWritten(failed.store, "tx", 20, Healthy);
            && failed.response.ErrorBody?
            && retried.response == ResultBody(Performed(0, 10, 2))
            && IsPaid(retried.store, "tx")
            && Purchased(retried.store, 7) == 0
  {
  }

  /** Cancelling a row changes what CheckTransaction reports for it, and nothing else. */
  lemma CancelThenStatus(s: Store, p: PaycomId, reason: Option<int>, now: int)
    requires p in s.txns
    ensures var t := s.txns[p];
            var c := Cancel(s, p, reason, now, Healthy);
            && c.response == ResultBody(CancelledAt(t.id, now, -1))
            && c.store.txns == s.txns[p := t.(state := Cancelled, performTime := 0, cancelTime := now,
                                             reason := reason)]
            && Status(c.store, p, Healthy).response ==
               ResultBody(StatusOf(t.createTime, 0, now, t.id, -1, ReportedReason(reason)))
  {
  }

  /** After a perform gets through, CheckTransaction reports the row paid at that time. */
  lemma PerformThenStatus(s: Store, p: PaycomId, now: int)
    requires p in s.txns && s.txns[p].state != Paid
    ensures var t := s.txns[p];
            Status(Perform(s, p, now, Healthy).store, p, Healthy).response ==
            ResultBody(StatusOf(t.createTime, now, 0, t.id, 2, ReportedReason(t.reason)))
  {
    PerformPaysAndCredits(s, p, now, Healthy);
  }

  /**
   * The handlers neither refuse to perform a cancelled row nor reverse a
   * credit on cancel, so perform, cancel, perform credits the owner twice.
   */
  lemma CancelThenPerformCreditsTwice(s: Store, p: PaycomId, t1: int, t2: int, t3: int, reason: Option<int>)
    requires p in s.txns && s.txns[p].state == Pending && s.txns[p].userId in s.accounts
    ensures var t := s.txns[p];
            var s1 := Perform(s, p, t1, Healthy).store;
            var s2 := Cancel(s1, p, reason, t2, Healthy).store;
            var s3 := Perform(s2, p, t3, Healthy).store;
            IsPaid(s3, p) && Purchased(s3, t.userId) == Purchased(s, t.userId) + 2 * t.uses
  {
    var t := s.txns[p];
    PerformPaysAndCredits(s, p, t1, Healthy);
    var s1 := Perform(s, p, t1, Healthy).store;
    var s2 := Cancel(s1, p, reason, t2, Healthy).store;
    assert s2.txns[p].state == Cancelled && s2.txns[p].userId == t.userId && s2.txns[p].uses == t.uses;
    PerformPaysAndCredits(s2, p, t3, Healthy);
  }
}
