/**
 * The reminder sweep of `CheckDueSubscriptionsJob`: load the active
 * subscriptions, keep those due soon, send one notification for each in
 * load order, and count the sends that returned and the sends that threw.
 * The job repeats the sweep, and an exception escaping one sweep does not
 * stop the next.
 */
module Notifications {
  import opened Calendar
  import opened Subscriptions

  /** What one call of `INotificationService.SendAsync` does: return normally, or throw. */
  datatype SendOutcome = Sent | Threw

  /** What a sweep that ran to its end did: the subscriptions it notified, in call order, and its two counters. */
  datatype SweepReport = SweepReport(notified: seq<SubscriptionState>, successCount: nat, failureCount: nat)

  /** A sweep either completes or lets an exception, such as a failed store read, escape. */
  datatype SweepResult = Completed(report: SweepReport) | Failed

  /** One wake-up of the job: the clock, whether the store read throws, and the outcome of each send by call number. */
  datatype Tick = Tick(now: DateTime, readFails: bool, notifier: nat -> SendOutcome)

  // ---------------------------------------------------------------------------
  // Filtering

  /** `Where(keep)` on a list of rows. */
  function Filter(rows: seq<SubscriptionState>, keep: SubscriptionState -> bool): seq<SubscriptionState> {
    if rows == [] then []
    else Filter(rows[..|rows| - 1], keep) + (if keep(rows[|rows| - 1]) then [rows[|rows| - 1]] else [])
  }

  /** `Filter` keeps every row that passes, as often as it occurs, and nothing else. */
  lemma {:induction false} FilterCounts(rows: seq<SubscriptionState>, keep: SubscriptionState -> bool, x: SubscriptionState)
    ensures multiset(Filter(rows, keep))[x] == if keep(x) then multiset(rows)[x] else 0
  {
    if rows != [] {
      var init, last := rows[..|rows| - 1], rows[|rows| - 1];
      FilterCounts(init, keep, x);
      assert rows == init + [last];
    }
  }

  /** A row is kept exactly when it is one of the rows and passes. */
  lemma FilterMembers(rows: seq<SubscriptionState>, keep: SubscriptionState -> bool, x: SubscriptionState)
    ensures x in Filter(rows, keep) <==> x in rows && keep(x)
  {
    FilterCounts(rows, keep, x);
    assert x in rows <==> multiset(rows)[x] > 0;
    assert x in Filter(rows, keep) <==> multiset(Filter(rows, keep))[x] > 0;
  }

  /** `Filter` keeps the order of the rows: it distributes over concatenation. */
  lemma {:induction false} FilterAppend(a: seq<SubscriptionState>, b: seq<SubscriptionState>, keep: SubscriptionState -> bool)
    ensures Filter(a + b, keep) == Filter(a, keep) + Filter(b, keep)
    decreases |b|
  {
    if b != [] {
      var init, last := b[..|b| - 1], b[|b| - 1];
      FilterAppend(a, init, keep);
      assert (a + b)[..|a + b| - 1] == a + init;
      assert (a + b)[|a + b| - 1] == last;
    } else {
      assert a + b == a;
    }
  }

  /** Filtering by a weaker condition first changes nothing. */
  lemma {:induction false} FilterWeakerFirst(rows: seq<SubscriptionState>, weak: SubscriptionState -> bool,
                                             strong: SubscriptionState -> bool)
    requires forall x :: strong(x) ==> weak(x)
    ensures Filter(Filter(rows, weak), strong) == Filter(rows, strong)
  {
    if rows != [] {
      var init, last := rows[..|rows| - 1], rows[|rows| - 1];
      FilterWeakerFirst(init, weak, strong);
      var tail := if weak(last) then [last] else [];
      FilterAppend(Filter(init, weak), tail, strong);
      assert Filter(tail, strong) == if strong(last) then [last] else [] by {
        if weak(last) {
          assert tail[..0] == [];
        }
      }
    }
  }

  // ---------------------------------------------------------------------------
  // The sweep

  /** The rows of the store, in row order. */
  function StatesOf(subs: seq<Subscription>): (rows: seq<SubscriptionState>)
    reads subs
    ensures |rows| == |subs|
  {
    if subs == [] then [] else StatesOf(subs[..|subs| - 1]) + [StateOf(subs[|subs| - 1])]
  }

  lemma {:induction false} StatesOfAt(subs: seq<Subscription>, i: nat)
    requires i < |subs|
    ensures StatesOf(subs)[i] == StateOf(subs[i])
  {
    if i < |subs| - 1 {
      StatesOfAt(subs[..|subs| - 1], i);
    }
  }

  predicate IsActiveRow(row: SubscriptionState) {
    row.isActive
  }

  /** `DueSoon` at `now`, as a filter condition. */
  function DueAt(now: DateTime): SubscriptionState -> bool {
    row => DueSoon(row, now)
  }

  /** `db.Subscriptions.Where(s => s.IsActive)`. */
  function ActiveRows(rows: seq<SubscriptionState>): seq<SubscriptionState> {
    Filter(rows, IsActiveRow)
  }

  /** `Where(s => s.IsDueSoon(now))` on the loaded rows: the ones the sweep notifies, in load order. */
  function DueRows(loaded: seq<SubscriptionState>, now: DateTime): seq<SubscriptionState> {
    Filter(loaded, DueAt(now))
  }

  /** How many of the first `n` sends have outcome `o`. */
  function Count(notifier: nat -> SendOutcome, n: nat, o: SendOutcome): nat {
    if n == 0 then 0 else Count(notifier, n - 1, o) + (if notifier(n - 1) == o then 1 else 0)
  }

  /** `result` is what a sweep of `rows` does on `tick`. */
  predicate SweptAs(result: SweepResult, rows: seq<SubscriptionState>, tick: Tick) {
    if tick.readFails then result == Failed
    else
      var due := DueRows(ActiveRows(rows), tick.now);
      result == Completed(SweepReport(due, Count(tick.notifier, |due|, Sent), Count(tick.notifier, |due|, Threw)))
  }

  /**
   * `CheckAndNotifyAsync`: the store read either throws, which ends the sweep
   * with the exception, or gives the active rows; each due one is sent in
   * turn, and a send that throws is counted and the loop goes on.
   */
  method CheckAndNotify(store: SubscriptionStore, now: DateTime, readFails: bool, notifier: nat -> SendOutcome)
    returns (result: SweepResult)
    ensures SweptAs(result, StatesOf(store.subscriptions), Tick(now, readFails, notifier))
  {
    if readFails {
      return Failed;
    }
    var loaded := ActiveRows(StatesOf(store.subscriptions));
    var due := DueRows(loaded, now);
    var notified: seq<SubscriptionState> := [];
    var successCount := 0;
    var failureCount := 0;
    for k := 0 to |due|
      invariant notified == due[..k]
      invariant successCount == Count(notifier, k, Sent)
      invariant failureCount == Count(notifier, k, Threw)
    {
      notified := notified + [due[k]];
      if notifier(k) == Sent {
        successCount := successCount + 1;
      } else {
        failureCount := failureCount + 1;
      }
    }
    assert notified == due;
    result := Completed(SweepReport(notified, successCount, failureCount));
  }

  /**
   * `ExecuteAsync` over a finite run of wake-ups: every wake-up runs a sweep
   * over the store as it is at that wake-up, whatever became of the sweeps
   * before it. `stores[i]` is the store the `i`-th wake-up reads; other
   * endpoints may have written it since the wake-up before.
   */
  method Execute(stores: seq<SubscriptionStore>, ticks: seq<Tick>) returns (results: seq<SweepResult>)
    requires |stores| == |ticks|
    ensures |results| == |ticks|
    ensures forall i :: 0 <= i < |ticks| ==> SweptAs(results[i], StatesOf(stores[i].subscriptions), ticks[i])
  {
    results := [];
    for i := 0 to |ticks|
      invariant |results| == i
      invariant forall j :: 0 <= j < i ==> SweptAs(results[j], StatesOf(stores[j].subscriptions), ticks[j])
    {
      var result := CheckAndNotify(stores[i], ticks[i].now, ticks[i].readFails, ticks[i].notifier);
      results := results + [result];
    }
  }

  // ---------------------------------------------------------------------------
  // What a sweep does

  /**
   * The sweep notifies exactly the active subscriptions that are due soon,
   * each as often as it is loaded, and in load order.
   */
  lemma NotifiedAreTheDueOnes(rows: seq<SubscriptionState>, now: DateTime, x: SubscriptionState)
    ensures x in DueRows(ActiveRows(rows), now) <==> x in rows && DueSoon(x, now)
    ensures multiset(DueRows(ActiveRows(rows), now))[x] == if DueSoon(x, now) then multiset(rows)[x] else 0
  {
    FilterWeakerFirst(rows, IsActiveRow, DueAt(now));
    FilterMembers(rows, DueAt(now), x);
    FilterCounts(rows, DueAt(now), x);
  }

  /** Order: the rows due from a concatenation are those due from each part, one part after the other. */
  lemma NotifiedInLoadOrder(a: seq<SubscriptionState>, b: seq<SubscriptionState>, now: DateTime)
    ensures DueRows(ActiveRows(a + b), now) == DueRows(ActiveRows(a), now) + DueRows(ActiveRows(b), now)
  {
    FilterAppend(a, b, IsActiveRow);
    FilterAppend(ActiveRows(a), ActiveRows(b), DueAt(now));
  }

  /** A row loaded from the store is notified exactly when its subscription `IsDueSoon`. */
  lemma NotifiedIffIsDueSoon(subs: seq<Subscription>, now: DateTime, i: nat)
    requires i < |subs|
    ensures StateOf(subs[i]) in DueRows(ActiveRows(StatesOf(subs)), now) <==> subs[i].IsDueSoon(now)
  {
    StatesOfAt(subs, i);
    NotifiedAreTheDueOnes(StatesOf(subs), now, StateOf(subs[i]));
  }

  /** Every due subscription is answered by exactly one of the two counters. */
  lemma {:induction false} CountsAddUp(notifier: nat -> SendOutcome, n: nat)
    ensures Count(notifier, n, Sent) + Count(notifier, n, Threw) == n
  {
    if n > 0 {
      CountsAddUp(notifier, n - 1);
    }
  }

  /** `Count` is the number of calls among the first `n` with that outcome. */
  lemma {:induction false} CountIsNumberOfCalls(notifier: nat -> SendOutcome, n: nat, o: SendOutcome)
    ensures Count(notifier, n, o) == |set k | 0 <= k < n && notifier(k) == o|
  {
    if n > 0 {
      CountIsNumberOfCalls(notifier, n - 1, o);
      var before := set k | 0 <= k < n - 1 && notifier(k) == o;
      var after := set k | 0 <= k < n && notifier(k) == o;
      if notifier(n - 1) == o {
        assert after == before + {n - 1};
      } else {
        assert after == before;
      }
    }
  }

  /** A completed sweep's report: one counter entry per notified subscription, and the failures are the sends that threw. */
  lemma CompletedSweep(result: SweepResult, rows: seq<SubscriptionState>, tick: Tick)
    requires SweptAs(result, rows, tick) && !tick.readFails
    ensures result.Completed?
    ensures result.report.successCount + result.report.failureCount == |result.report.notified|
    ensures result.report.failureCount == |set k | 0 <= k < |result.report.notified| && tick.notifier(k) == Threw|
    ensures result.report.successCount == |set k | 0 <= k < |result.report.notified| && tick.notifier(k) == Sent|
  {
    var n := |DueRows(ActiveRows(rows), tick.now)|;
    CountsAddUp(tick.notifier, n);
    CountIsNumberOfCalls(tick.notifier, n, Threw);
    CountIsNumberOfCalls(tick.notifier, n, Sent);
  }

  /** Whatever the sends do, the same subscriptions are notified: one failed send never stops the rest. */
  lemma FailuresDoNotStopTheSweep(result1: SweepResult, result2: SweepResult, rows: seq<SubscriptionState>,
                                  now: DateTime, notifier1: nat -> SendOutcome, notifier2: nat -> SendOutcome)
    requires SweptAs(result1, rows, Tick(now, false, notifier1))
    requires SweptAs(result2, rows, Tick(now, false, notifier2))
    ensures result1.Completed? && result2.Completed?
    ensures result1.report.notified == result2.report.notified
  {
  }
}
