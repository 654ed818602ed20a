/**
 * The subscription domain object: its billing schedule, the due-soon
 * predicate, and creation and full-field update, which recompute the cached
 * next billing date.
 */
module Subscriptions {
  import opened Calendar
  import opened Wrappers

  /**
   * The billing cadence. `Unknown` stands for any other value of the
   * underlying enum, which the schedule steps monthly.
   */
  datatype BillingCycle = Weekly | Monthly | Quarterly | Yearly | Unknown

  /** The category enum is not part of this model; a category is its name. */
  datatype SubscriptionCategory = SubscriptionCategory(name: string)

  type Guid = int

  /** Calendar months one step of a month-based cycle moves. */
  function MonthsPerStep(cycle: BillingCycle): nat {
    match cycle
    case Quarterly => 3
    case Yearly => 12
    case _ => 1
  }

  /** One billing period on from `t`: the `switch` in `CalculateNextBillingDate`. */
  function Step(t: DateTime, cycle: BillingCycle): (r: DateTime)
    ensures After(r, t)
  {
    match cycle
    case Weekly => AddDays(t, 7)
    case Monthly => AddMonths(t, 1)
    case Quarterly => AddMonths(t, 3)
    case Yearly => AddYears(t, 1)
    case Unknown => AddMonths(t, 1)
  }

  /**
   * What one step is on the calendar: a weekly step is exactly seven days of
   * ticks; every other cycle moves `MonthsPerStep` months on, keeping the day
   * of the month where the target month has it and clamping it otherwise.
   */
  lemma StepByCycle(t: DateTime, cycle: BillingCycle)
    ensures cycle == Weekly ==> Ticks(Step(t, cycle)) == Ticks(t) + 7 * TicksPerDay
    ensures cycle != Weekly ==>
              var r := Step(t, cycle);
              MonthIndex(r) == MonthIndex(t) + MonthsPerStep(cycle)
              && r.day == Min(t.day, DaysInMonth(r.year, r.month))
              && r.tickOfDay == t.tickOfDay
  {
    AddDaysTicks(t, 7);
  }

  /** The instant `k` billing periods after `start`. */
  function Iterate(start: DateTime, cycle: BillingCycle, k: nat): DateTime
    decreases k
  {
    if k == 0 then start else Iterate(Step(start, cycle), cycle, k - 1)
  }

  /**
   * The billing schedule: the first instant of `start`, `Step(start)`,
   * `Step(Step(start))`, ... that lies strictly after `now`.
   */
  function NextOccurrence(start: DateTime, cycle: BillingCycle, now: DateTime): (r: DateTime)
    ensures After(r, now)
    ensures !After(start, r)
    ensures r == start <==> After(start, now)
    decreases Key(now) - Key(start)
  {
    if After(start, now) then start else NextOccurrence(Step(start, cycle), cycle, now)
  }

  /** How many periods `NextOccurrence` steps over. */
  function StepCount(start: DateTime, cycle: BillingCycle, now: DateTime): nat
    decreases Key(now) - Key(start)
  {
    if After(start, now) then 0 else 1 + StepCount(Step(start, cycle), cycle, now)
  }

  // ---------------------------------------------------------------------------
  // The schedule is the earliest reachable instant after now

  lemma {:induction false} IterateShift(start: DateTime, cycle: BillingCycle, k: nat)
    ensures Iterate(start, cycle, k + 1) == Step(Iterate(start, cycle, k), cycle)
    decreases k
  {
    if k > 0 {
      IterateShift(Step(start, cycle), cycle, k - 1);
    }
  }

  /** Iterates never go back in time. */
  lemma {:induction false} IterateMonotone(start: DateTime, cycle: BillingCycle, j: nat, k: nat)
    requires j <= k
    ensures !After(Iterate(start, cycle, j), Iterate(start, cycle, k))
    decreases k
  {
    if j < k {
      IterateMonotone(start, cycle, j, k - 1);
      IterateShift(start, cycle, k - 1);
    }
  }

  /** One step of the search in `NextOccurrence` and the count in `StepCount`. */
  lemma NextOccurrenceStep(start: DateTime, cycle: BillingCycle, now: DateTime)
    requires !After(start, now)
    ensures NextOccurrence(start, cycle, now) == NextOccurrence(Step(start, cycle), cycle, now)
    ensures StepCount(start, cycle, now) == StepCount(Step(start, cycle), cycle, now) + 1
  {
  }

  /**
   * The induction step of `NextOccurrenceIsIterate`, split out as a lemma of
   * its own: the hypothesis for `Step(start)` is its `requires`, and the
   * recursive lemma only supplies it.
   */
  lemma IsIterateStep(start: DateTime, cycle: BillingCycle, now: DateTime)
    requires !After(start, now)
    requires NextOccurrence(Step(start, cycle), cycle, now)
             == Iterate(Step(start, cycle), cycle, StepCount(Step(start, cycle), cycle, now))
    ensures NextOccurrence(start, cycle, now) == Iterate(start, cycle, StepCount(start, cycle, now))
  {
    NextOccurrenceStep(start, cycle, now);
  }

  /** `NextOccurrence` is the `StepCount`-th iterate of `start`. */
  lemma {:induction false} NextOccurrenceIsIterate(start: DateTime, cycle: BillingCycle, now: DateTime)
    ensures NextOccurrence(start, cycle, now) == Iterate(start, cycle, StepCount(start, cycle, now))
    decreases Key(now) - Key(start)
  {
    if !After(start, now) {
      NextOccurrenceIsIterate(Step(start, cycle), cycle, now);
      IsIterateStep(start, cycle, now);
    }
  }

  /** Every iterate before the `StepCount`-th is at or before `now`. */
  lemma {:induction false} EarlierIteratesNotAfter(start: DateTime, cycle: BillingCycle, now: DateTime, j: nat)
    requires j < StepCount(start, cycle, now)
    ensures !After(Iterate(start, cycle, j), now)
    decreases j
  {
    if j > 0 {
      EarlierIteratesNotAfter(Step(start, cycle), cycle, now, j - 1);
    }
  }

  /**
   * Minimality: no instant reachable from `start` lies after `now` and
   * before `NextOccurrence`.
   */
  lemma NextOccurrenceIsLeast(start: DateTime, cycle: BillingCycle, now: DateTime, k: nat)
    requires After(Iterate(start, cycle, k), now)
    ensures !After(NextOccurrence(start, cycle, now), Iterate(start, cycle, k))
  {
    NextOccurrenceIsIterate(start, cycle, now);
    var n := StepCount(start, cycle, now);
    if k < n {
      EarlierIteratesNotAfter(start, cycle, now, k);
    } else {
      IterateMonotone(start, cycle, n, k);
    }
  }

  /**
   * The cached date can be rolled forward: recomputing from a date computed
   * at an earlier `now1` gives the date computed from `start` at `now2`.
   */
  lemma {:induction false} NextOccurrenceRecompute(start: DateTime, cycle: BillingCycle, now1: DateTime, now2: DateTime)
    requires !After(now1, now2)
    ensures NextOccurrence(NextOccurrence(start, cycle, now1), cycle, now2) == NextOccurrence(start, cycle, now2)
    decreases Key(now1) - Key(start)
  {
    if !After(start, now1) {
      NextOccurrenceRecompute(Step(start, cycle), cycle, now1, now2);
    }
  }

  // ---------------------------------------------------------------------------
  // Worked examples, at 2026-02-06T12:00

  const ExampleNow: DateTime := Civil(2026, 2, 6, 12 * TicksPerHour)

  lemma MonthlyExample()
    ensures NextOccurrence(Civil(2026, 1, 15, 0), Monthly, ExampleNow) == Civil(2026, 2, 15, 0)
  {
    var s: DateTime := Civil(2026, 1, 15, 0);
    assert Step(s, Monthly) == Civil(2026, 2, 15, 0);
  }

  lemma WeeklyExample()
    ensures NextOccurrence(Civil(2026, 2, 1, 0), Weekly, ExampleNow) == Civil(2026, 2, 8, 0)
  {
    var s: DateTime := Civil(2026, 2, 1, 0);
    assert Step(s, Weekly) == Civil(2026, 2, 8, 0);
  }

  lemma YearlyExample()
    ensures NextOccurrence(Civil(2025, 3, 1, 0), Yearly, ExampleNow) == Civil(2026, 3, 1, 0)
  {
    var s: DateTime := Civil(2025, 3, 1, 0);
    assert Step(s, Yearly) == Civil(2026, 3, 1, 0);
  }

  /** Sequential month steps drift: 31 January, 28 February, 28 March. */
  lemma ClampingDrifts()
    ensures Iterate(Civil(2026, 1, 31, 0), Monthly, 2) == Civil(2026, 3, 28, 0)
  {
    var s: DateTime := Civil(2026, 1, 31, 0);
    assert Step(s, Monthly) == Civil(2026, 2, 28, 0);
    var f: DateTime := Civil(2026, 2, 28, 0);
    assert Step(f, Monthly) == Civil(2026, 3, 28, 0);
    assert Iterate(s, Monthly, 2) == Iterate(f, Monthly, 1);
  }

  // ---------------------------------------------------------------------------
  // The entity

  /** The column values of a `Subscription` at one moment. */
  datatype SubscriptionState = SubscriptionState(
    id: Guid,
    name: string,
    description: Option<string>,
    amount: real,
    currency: string,
    billingCycle: BillingCycle,
    category: SubscriptionCategory,
    startDate: DateTime,
    nextBillingDate: DateTime,
    isActive: bool,
    url: Option<string>,
    reminderDaysBefore: int,
    createdAt: DateTime,
    updatedAt: DateTime)

  /** Active, and the next billing date is at most `reminderDaysBefore` days away, or already past. */
  predicate DueSoon(st: SubscriptionState, utcNow: DateTime) {
    st.isActive && TotalDaysAtMost(Subtract(st.nextBillingDate, utcNow), st.reminderDaysBefore)
  }

  class Subscription {
    var id: Guid
    var name: string
    var description: Option<string>
    var amount: real
    var currency: string
    var billingCycle: BillingCycle
    var category: SubscriptionCategory
    var startDate: DateTime
    var nextBillingDate: DateTime
    var isActive: bool
    var url: Option<string>
    var reminderDaysBefore: int
    var createdAt: DateTime
    var updatedAt: DateTime

    /** `Subscription.Create`; the fresh `Guid` is supplied as `id`. */
    constructor Create(id: Guid, name: string, description: Option<string>, amount: real,
                       currency: string, billingCycle: BillingCycle, category: SubscriptionCategory,
                       startDate: DateTime, url: Option<string>, reminderDaysBefore: int,
                       utcNow: DateTime)
      ensures this.id == id && this.name == name && this.description == description
      ensures this.amount == amount && this.currency == currency
      ensures this.billingCycle == billingCycle && this.category == category
      ensures this.startDate == startDate && this.url == url
      ensures this.reminderDaysBefore == reminderDaysBefore
      ensures nextBillingDate == NextOccurrence(startDate, billingCycle, utcNow)
      ensures isActive
      ensures createdAt == utcNow && updatedAt == utcNow
    {
      var next := CalculateNextBillingDate(startDate, billingCycle, utcNow);
      this.id := id;
      this.name := name;
      this.description := description;
      this.amount := amount;
      this.currency := currency;
      this.billingCycle := billingCycle;
      this.category := category;
      this.startDate := startDate;
      this.nextBillingDate := next;
      this.url := url;
      this.reminderDaysBefore := reminderDaysBefore;
      this.isActive := true;
      this.createdAt := utcNow;
      this.updatedAt := utcNow;
    }

    /** Overwrites every editable field and recomputes the next billing date. */
    method Update(name: string, description: Option<string>, amount: real,
                  currency: string, billingCycle: BillingCycle, category: SubscriptionCategory,
                  startDate: DateTime, url: Option<string>, reminderDaysBefore: int,
                  isActive: bool, utcNow: DateTime)
      modifies this`name, this`description, this`amount, this`currency, this`billingCycle, this`category,
               this`startDate, this`nextBillingDate, this`url, this`reminderDaysBefore, this`isActive, this`updatedAt
      ensures this.name == name && this.description == description
      ensures this.amount == amount && this.currency == currency
      ensures this.billingCycle == billingCycle && this.category == category
      ensures this.startDate == startDate && this.url == url
      ensures this.reminderDaysBefore == reminderDaysBefore && this.isActive == isActive
      ensures nextBillingDate == NextOccurrence(startDate, billingCycle, utcNow)
      ensures updatedAt == utcNow
    {
      SetDetails(name, description, amount, currency, category, url, reminderDaysBefore);
      Reschedule(billingCycle, startDate, utcNow);
      this.isActive := isActive;
      this.updatedAt := utcNow;
    }

    /** The fields of `Update` that play no part in computing the billing date. */
    method SetDetails(name: string, description: Option<string>, amount: real, currency: string,
                      category: SubscriptionCategory, url: Option<string>, reminderDaysBefore: int)
      modifies this`name, this`description, this`amount, this`currency, this`category, this`url,
               this`reminderDaysBefore
      ensures this.name == name && this.description == description
      ensures this.amount == amount && this.currency == currency
      ensures this.category == category && this.url == url
      ensures this.reminderDaysBefore == reminderDaysBefore
    {
      this.name := name;
      this.description := description;
      this.amount := amount;
      this.currency := currency;
      this.category := category;
      this.url := url;
      this.reminderDaysBefore := reminderDaysBefore;
    }

    /** The schedule fields of `Update`: a new cycle and start, and the billing date they give at `utcNow`. */
    method Reschedule(billingCycle: BillingCycle, startDate: DateTime, utcNow: DateTime)
      modifies this`billingCycle, this`startDate, this`nextBillingDate
      ensures this.billingCycle == billingCycle && this.startDate == startDate
      ensures nextBillingDate == NextOccurrence(startDate, billingCycle, utcNow)
    {
      this.billingCycle := billingCycle;
      this.startDate := startDate;
      this.nextBillingDate := CalculateNextBillingDate(startDate, billingCycle, utcNow);
    }

    /**
     * Marks the subscription inactive. The source calls a `Deactivate`
     * method that its domain class does not define; this is the behaviour
     * its callers and tests expect of it.
     */
    method Deactivate(utcNow: DateTime)
      modifies this`isActive, this`updatedAt
      ensures !isActive && updatedAt == utcNow
    {
      isActive := false;
      updatedAt := utcNow;
    }

    /** `DueSoon` of the current values. */
    predicate IsDueSoon(utcNow: DateTime)
      reads this
    {
      DueSoon(StateOf(this), utcNow)
    }

    /** The loop that steps from the start date to the first instant after `utcNow`. */
    static method CalculateNextBillingDate(startDate: DateTime, cycle: BillingCycle, utcNow: DateTime)
      returns (next: DateTime)
      ensures After(next, utcNow)
      ensures next == NextOccurrence(startDate, cycle, utcNow)
    {
      next := startDate;
      while !After(next, utcNow)
        invariant NextOccurrence(next, cycle, utcNow) == NextOccurrence(startDate, cycle, utcNow)
        decreases Key(utcNow) - Key(next)
      {
        next := Step(next, cycle);
      }
    }
  }

  /** The current values of all fields of `s`. */
  function StateOf(s: Subscription): SubscriptionState
    reads s
  {
    SubscriptionState(s.id, s.name, s.description, s.amount, s.currency, s.billingCycle, s.category, s.startDate,
                      s.nextBillingDate, s.isActive, s.url, s.reminderDaysBefore, s.createdAt, s.updatedAt)
  }

  // ---------------------------------------------------------------------------
  // The due-soon predicate

  /** An inactive subscription is never due soon. */
  lemma InactiveIsNeverDueSoon(s: Subscription, utcNow: DateTime)
    requires !s.isActive
    ensures !s.IsDueSoon(utcNow)
  {
  }

  /** An overdue billing date still counts as due soon: the window has no lower bound. */
  lemma OverdueIsDueSoon(s: Subscription, utcNow: DateTime)
    requires s.isActive && s.reminderDaysBefore >= 0 && !After(s.nextBillingDate, utcNow)
    ensures s.IsDueSoon(utcNow)
  {
    AfterIsLaterInTicks(s.nextBillingDate, utcNow);
  }

  /**
   * Now 2026-02-06T12:00 and a three-day window: a billing date of
   * 2026-02-08 is due soon, one of 2026-02-16 is not.
   */
  lemma DueSoonExample(s: Subscription)
    requires s.isActive && s.reminderDaysBefore == 3
    ensures s.nextBillingDate == Civil(2026, 2, 8, 0) ==> s.IsDueSoon(ExampleNow)
    ensures s.nextBillingDate == Civil(2026, 2, 16, 0) ==> !s.IsDueSoon(ExampleNow)
  {
  }

  // ---------------------------------------------------------------------------
  // The store

  /** The `Subscriptions` table of the database, in row order. */
  class SubscriptionStore {
    var subscriptions: seq<Subscription>

    constructor ()
      ensures subscriptions == []
    {
      subscriptions := [];
    }
  }
}
