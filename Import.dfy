/**
 * The all-or-nothing import of a list of subscriptions: every item is
 * validated by an ordered chain of checks, the first failing check giving
 * the item's error; the valid items are committed to the store only when no
 * item failed.
 */
module Import {
  import opened Calendar
  import opened Wrappers
  import opened Subscriptions

  /** One element of the request body. */
  datatype ImportItem = ImportItem(
    name: string,
    description: Option<string>,
    amount: real,
    currency: string,
    billingCycle: string,
    category: string,
    startDate: DateTime,
    url: Option<string>,
    reminderDaysBefore: int,
    isActive: bool)

  /** An item with every property left at its initialiser. */
  const DefaultItem: ImportItem :=
    ImportItem("", None, 0.0, "EUR", "Monthly", "Other", MinValue, None, 2, true)

  datatype ImportError = ImportError(index: int, message: string)

  datatype Response = Response(imported: int, errors: seq<ImportError>)

  const ValidCurrencies: set<string> := {"EUR", "USD", "GBP"}

  const MaxNameLength: int := 100
  const MaxReminderDays: int := 30

  /** `char.IsWhiteSpace`: the Unicode separators and the ASCII and Latin-1 control spaces. */
  predicate IsWhiteSpace(c: char) {
    var n := c as int;
    (0x09 <= n <= 0x0D) || n == 0x20 || n == 0x85 || n == 0xA0 || n == 0x1680
    || (0x2000 <= n <= 0x200A) || n == 0x2028 || n == 0x2029 || n == 0x202F
    || n == 0x205F || n == 0x3000
  }

  /** `string.IsNullOrWhiteSpace` on a non-null string. */
  predicate IsNullOrWhiteSpace(s: string) {
    forall i :: 0 <= i < |s| ==> IsWhiteSpace(s[i])
  }

  /** `string.Length`: UTF-16 code units, two for a character outside the basic plane. */
  function Utf16Length(s: string): (n: nat)
    ensures |s| <= n <= 2 * |s|
    ensures (forall i :: 0 <= i < |s| ==> s[i] as int <= 0xFFFF) ==> n == |s|
  {
    if s == [] then 0
    else (if s[0] as int > 0xFFFF then 2 else 1) + Utf16Length(s[1..])
  }

  /** `Enum.TryParse<BillingCycle>`, by exact member name. */
  function ParseBillingCycle(s: string): (r: Option<BillingCycle>)
    ensures r.Some? ==> r.value != Unknown
  {
    if s == "Weekly" then Some(Weekly)
    else if s == "Monthly" then Some(Monthly)
    else if s == "Quarterly" then Some(Quarterly)
    else if s == "Yearly" then Some(Yearly)
    else None
  }

  /** `Enum.TryParse<SubscriptionCategory>`, by exact member name. */
  function ParseCategory(s: string, categoryNames: seq<string>): (r: Option<SubscriptionCategory>)
    ensures r.Some? <==> s in categoryNames
    ensures r.Some? ==> r.value.name == s
  {
    if s in categoryNames then Some(SubscriptionCategory(s)) else None
  }

  datatype ValidationError =
    | NameRequired
    | NameTooLong
    | AmountNotPositive
    | InvalidCurrency(currency: string)
    | InvalidBillingCycle(billingCycle: string)
    | InvalidCategory(category: string)
    | StartDateRequired
    | StartDateTooFarInFuture
    | ReminderDaysOutOfRange

  const RuleCount: nat := 9

  /** The position of the check that reports `e` in the validation order. */
  function Rule(e: ValidationError): nat {
    match e
    case NameRequired => 0
    case NameTooLong => 1
    case AmountNotPositive => 2
    case InvalidCurrency(_) => 3
    case InvalidBillingCycle(_) => 4
    case InvalidCategory(_) => 5
    case StartDateRequired => 6
    case StartDateTooFarInFuture => 7
    case ReminderDaysOutOfRange => 8
  }

  /** The rules of an import item, each on its own, by position. */
  predicate Violates(item: ImportItem, utcNow: DateTime, categoryNames: seq<string>, rule: nat) {
    match rule
    case 0 => IsNullOrWhiteSpace(item.name)
    case 1 => Utf16Length(item.name) > MaxNameLength
    case 2 => item.amount <= 0.0
    case 3 => item.currency !in ValidCurrencies
    case 4 => ParseBillingCycle(item.billingCycle).None?
    case 5 => ParseCategory(item.category, categoryNames).None?
    case 6 => item.startDate == MinValue
    case 7 => After(item.startDate, AddYears(utcNow, 1))
    case 8 => item.reminderDaysBefore < 0 || item.reminderDaysBefore > MaxReminderDays
    case _ => false
  }

  /** The error the check at position `rule` reports for `item`. */
  function ErrorFor(item: ImportItem, rule: nat): (e: ValidationError)
    requires rule < RuleCount
    ensures Rule(e) == rule
  {
    match rule
    case 0 => NameRequired
    case 1 => NameTooLong
    case 2 => AmountNotPositive
    case 3 => InvalidCurrency(item.currency)
    case 4 => InvalidBillingCycle(item.billingCycle)
    case 5 => InvalidCategory(item.category)
    case 6 => StartDateRequired
    case 7 => StartDateTooFarInFuture
    case 8 => ReminderDaysOutOfRange
  }

  /** `ImportEndpoint.Validate`: the checks in order, the first failing one giving the error. */
  function Validate(item: ImportItem, utcNow: DateTime, categoryNames: seq<string>): Option<ValidationError> {
    if IsNullOrWhiteSpace(item.name) then Some(NameRequired)
    else if Utf16Length(item.name) > MaxNameLength then Some(NameTooLong)
    else if item.amount <= 0.0 then Some(AmountNotPositive)
    else if item.currency !in ValidCurrencies then Some(InvalidCurrency(item.currency))
    else if ParseBillingCycle(item.billingCycle).None? then Some(InvalidBillingCycle(item.billingCycle))
    else if ParseCategory(item.category, categoryNames).None? then Some(InvalidCategory(item.category))
    else if item.startDate == MinValue then Some(StartDateRequired)
    else if After(item.startDate, AddYears(utcNow, 1)) then Some(StartDateTooFarInFuture)
    else if item.reminderDaysBefore < 0 || item.reminderDaysBefore > MaxReminderDays then Some(ReminderDaysOutOfRange)
    else None
  }

  /**
   * `Validate` reports the first rule, in order, that the item breaks, with
   * that rule's error; it reports nothing exactly when the item breaks none.
   */
  lemma ValidateReportsFirstFailure(item: ImportItem, utcNow: DateTime, categoryNames: seq<string>)
    ensures var r := Validate(item, utcNow, categoryNames);
            (r.None? <==> forall k :: 0 <= k < RuleCount ==> !Violates(item, utcNow, categoryNames, k))
            && (r.Some? ==>
                  Rule(r.value) < RuleCount
                  && Violates(item, utcNow, categoryNames, Rule(r.value))
                  && r.value == ErrorFor(item, Rule(r.value))
                  && forall k :: 0 <= k < Rule(r.value) ==> !Violates(item, utcNow, categoryNames, k))
  {
    var r := Validate(item, utcNow, categoryNames);
    if r.Some? {
      assert Violates(item, utcNow, categoryNames, Rule(r.value));
    }
  }

  /** `string.Join(separator, parts)`. */
  function Join(parts: seq<string>, separator: string): string {
    if parts == [] then ""
    else if |parts| == 1 then parts[0]
    else parts[0] + separator + Join(parts[1..], separator)
  }

  /** The text `Validate` returns for each error. */
  function Message(e: ValidationError, categoryNames: seq<string>): string {
    match e
    case NameRequired => "Name is required"
    case NameTooLong => "Name must not exceed 100 characters"
    case AmountNotPositive => "Amount must be greater than 0"
    case InvalidCurrency(c) => "Invalid currency: " + c + ". Must be one of: EUR, USD, GBP"
    case InvalidBillingCycle(c) =>
      "Invalid billing cycle: " + c + ". Must be one of: Weekly, Monthly, Quarterly, Yearly"
    case InvalidCategory(c) =>
      "Invalid category: " + c + ". Must be one of: " + Join(categoryNames, ", ")
    case StartDateRequired => "Start date is required"
    case StartDateTooFarInFuture => "Start date cannot be more than 1 year in the future"
    case ReminderDaysOutOfRange => "Reminder days before must be between 0 and 30"
  }

  /** `Message` for one list of category names. */
  function Render(categoryNames: seq<string>): ValidationError -> string {
    e => Message(e, categoryNames)
  }

  /** The outcome of `Validate` on each item, by index. */
  function ValidationResults(items: seq<ImportItem>, utcNow: DateTime, categoryNames: seq<string>)
    : (results: seq<Option<ValidationError>>)
    ensures |results| == |items|
  {
    if items == [] then []
    else [Validate(items[0], utcNow, categoryNames)] + ValidationResults(items[1..], utcNow, categoryNames)
  }

  lemma {:induction false} ValidationResultsAt(items: seq<ImportItem>, utcNow: DateTime, categoryNames: seq<string>, i: nat)
    requires i < |items|
    ensures ValidationResults(items, utcNow, categoryNames)[i] == Validate(items[i], utcNow, categoryNames)
  {
    if i > 0 {
      ValidationResultsAt(items[1..], utcNow, categoryNames, i - 1);
    }
  }

  /** The error entries for the first `n` outcomes, in index order. */
  function Collect(results: seq<Option<ValidationError>>, n: nat, render: ValidationError -> string): seq<ImportError>
    requires n <= |results|
  {
    if n == 0 then []
    else
      Collect(results, n - 1, render)
      + match results[n - 1]
        case Some(e) => [ImportError(n - 1, render(e))]
        case None => []
  }

  /** The `errors` list of the response: one entry per invalid item, in index order. */
  function ImportErrors(items: seq<ImportItem>, utcNow: DateTime, categoryNames: seq<string>): seq<ImportError> {
    Collect(ValidationResults(items, utcNow, categoryNames), |items|, Render(categoryNames))
  }

  // ---------------------------------------------------------------------------
  // The error list

  /**
   * Every entry of `errors` names one of the first `n` outcomes that is an
   * error and carries that error's message; the indices strictly increase.
   */
  predicate SoundErrors(errors: seq<ImportError>, results: seq<Option<ValidationError>>, n: nat,
                        render: ValidationError -> string)
    requires n <= |results|
  {
    (forall k :: 0 <= k < |errors| ==>
       0 <= errors[k].index < n
       && results[errors[k].index].Some?
       && errors[k].message == render(results[errors[k].index].value))
    && (forall k, l :: 0 <= k < l < |errors| ==> errors[k].index < errors[l].index)
  }

  lemma {:induction false} CollectSound(results: seq<Option<ValidationError>>, n: nat, render: ValidationError -> string)
    requires n <= |results|
    ensures SoundErrors(Collect(results, n, render), results, n, render)
  {
    if n > 0 {
      CollectSound(results, n - 1, render);
      var prev := Collect(results, n - 1, render);
      var errors := Collect(results, n, render);
      if results[n - 1].None? {
        assert errors == prev;
      } else {
        SoundErrorsSnoc(prev, ImportError(n - 1, render(results[n - 1].value)), results, n, render);
      }
    }
  }

  lemma SoundErrorsSnoc(prev: seq<ImportError>, last: ImportError, results: seq<Option<ValidationError>>, n: nat,
                        render: ValidationError -> string)
    requires 0 < n <= |results| && SoundErrors(prev, results, n - 1, render)
    requires results[n - 1].Some? && last.index == n - 1
    requires last.message == render(results[n - 1].value)
    ensures SoundErrors(prev + [last], results, n, render)
  {
    var errors := prev + [last];
    assert forall k :: 0 <= k < |prev| ==> errors[k] == prev[k];
    assert errors[|prev|] == last;
  }

  /** Every error among the first `n` outcomes has an entry. */
  lemma {:induction false} CollectComplete(results: seq<Option<ValidationError>>, n: nat, render: ValidationError -> string, i: nat)
    requires i < n <= |results|
    requires results[i].Some?
    ensures exists k :: 0 <= k < |Collect(results, n, render)|
                        && Collect(results, n, render)[k].index == i
  {
    var errors := Collect(results, n, render);
    var prev := Collect(results, n - 1, render);
    if i == n - 1 {
      assert errors[|errors| - 1].index == i;
    } else {
      CollectComplete(results, n - 1, render, i);
      var k :| 0 <= k < |prev| && prev[k].index == i;
      assert errors[k] == prev[k];
    }
  }

  /** The list is empty exactly when none of the first `n` outcomes is an error. */
  lemma {:induction false} CollectEmptyIffNoErrors(results: seq<Option<ValidationError>>, n: nat, render: ValidationError -> string)
    requires n <= |results|
    ensures Collect(results, n, render) == [] <==> forall i :: 0 <= i < n ==> results[i].None?
  {
    if n > 0 {
      CollectEmptyIffNoErrors(results, n - 1, render);
      var prev := Collect(results, n - 1, render);
      if results[n - 1].None? {
        assert Collect(results, n, render) == prev;
      } else {
        assert |Collect(results, n, render)| == |prev| + 1;
      }
    }
  }

  /**
   * The response's error list is sound, complete and ordered: its entries
   * are exactly the invalid items, each with its first failing rule's message.
   */
  lemma ImportErrorsExact(items: seq<ImportItem>, utcNow: DateTime, categoryNames: seq<string>)
    ensures var errors := ImportErrors(items, utcNow, categoryNames);
            (forall k :: 0 <= k < |errors| ==>
               0 <= errors[k].index < |items|
               && Validate(items[errors[k].index], utcNow, categoryNames).Some?
               && errors[k].message
                  == Message(Validate(items[errors[k].index], utcNow, categoryNames).value, categoryNames))
            && (forall k, l :: 0 <= k < l < |errors| ==> errors[k].index < errors[l].index)
            && (forall i :: 0 <= i < |items| && Validate(items[i], utcNow, categoryNames).Some? ==>
                  exists k :: 0 <= k < |errors| && errors[k].index == i)
            && (errors == [] <==> forall i :: 0 <= i < |items| ==> Validate(items[i], utcNow, categoryNames).None?)
  {
    var results := ValidationResults(items, utcNow, categoryNames);
    forall i | 0 <= i < |items| {
      ValidationResultsAt(items, utcNow, categoryNames, i);
    }
    CollectSound(results, |items|, Render(categoryNames));
    assert SoundErrors(ImportErrors(items, utcNow, categoryNames), results, |items|, Render(categoryNames));
    CollectEmptyIffNoErrors(results, |items|, Render(categoryNames));
    forall i | 0 <= i < |items| && Validate(items[i], utcNow, categoryNames).Some?
      ensures exists k :: 0 <= k < |ImportErrors(items, utcNow, categoryNames)|
                          && ImportErrors(items, utcNow, categoryNames)[k].index == i
    {
      CollectComplete(results, |items|, Render(categoryNames), i);
    }
  }

  // ---------------------------------------------------------------------------
  // Defaults and boundaries

  /** A request item left entirely at its defaults is refused for its empty name. */
  lemma DefaultItemHasNoName(utcNow: DateTime, categoryNames: seq<string>)
    ensures Validate(DefaultItem, utcNow, categoryNames) == Some(NameRequired)
  {
  }

  /**
   * The defaults of currency, cycle, category and reminder window pass their
   * checks: an item that sets only a name, an amount and a start date is
   * accepted when those are acceptable and `Other` is a category.
   */
  lemma DefaultsAreAccepted(name: string, amount: real, startDate: DateTime, utcNow: DateTime, categoryNames: seq<string>)
    requires !IsNullOrWhiteSpace(name) && Utf16Length(name) <= MaxNameLength && amount > 0.0
    requires startDate != MinValue && !After(startDate, AddYears(utcNow, 1))
    requires "Other" in categoryNames
    ensures Validate(DefaultItem.(name := name, amount := amount, startDate := startDate), utcNow, categoryNames) == None
  {
  }

  /** Once the first eight rules pass, the reminder window alone decides. */
  lemma ReminderWindowDecides(item: ImportItem, utcNow: DateTime, categoryNames: seq<string>, days: int)
    requires forall k :: 0 <= k < 8 ==> !Violates(item, utcNow, categoryNames, k)
    ensures Validate(item.(reminderDaysBefore := days), utcNow, categoryNames)
            == if days < 0 || days > MaxReminderDays then Some(ReminderDaysOutOfRange) else None
  {
    assert !Violates(item, utcNow, categoryNames, 0) && !Violates(item, utcNow, categoryNames, 1);
    assert !Violates(item, utcNow, categoryNames, 2) && !Violates(item, utcNow, categoryNames, 3);
    assert !Violates(item, utcNow, categoryNames, 4) && !Violates(item, utcNow, categoryNames, 5);
    assert !Violates(item, utcNow, categoryNames, 6) && !Violates(item, utcNow, categoryNames, 7);
  }

  /** Reminder windows of -1 and 31 days are refused, 0 and 30 days accepted. */
  lemma ReminderDaysBoundaries(item: ImportItem, utcNow: DateTime, categoryNames: seq<string>)
    requires forall k :: 0 <= k < 8 ==> !Violates(item, utcNow, categoryNames, k)
    ensures Validate(item.(reminderDaysBefore := -1), utcNow, categoryNames) == Some(ReminderDaysOutOfRange)
    ensures Validate(item.(reminderDaysBefore := 31), utcNow, categoryNames) == Some(ReminderDaysOutOfRange)
    ensures Validate(item.(reminderDaysBefore := 0), utcNow, categoryNames) == None
    ensures Validate(item.(reminderDaysBefore := 30), utcNow, categoryNames) == None
  {
    ReminderWindowDecides(item, utcNow, categoryNames, -1);
    ReminderWindowDecides(item, utcNow, categoryNames, 31);
    ReminderWindowDecides(item, utcNow, categoryNames, 0);
    ReminderWindowDecides(item, utcNow, categoryNames, 30);
  }

  /**
   * Once the first six rules pass and the reminder window is in range, a
   * start date other than the default is refused exactly when it is later
   * than one year from now.
   */
  lemma StartDateDecides(item: ImportItem, utcNow: DateTime, categoryNames: seq<string>, startDate: DateTime)
    requires forall k :: 0 <= k < 6 ==> !Violates(item, utcNow, categoryNames, k)
    requires 0 <= item.reminderDaysBefore <= MaxReminderDays
    requires startDate != MinValue
    ensures Validate(item.(startDate := startDate), utcNow, categoryNames)
            == if After(startDate, AddYears(utcNow, 1)) then Some(StartDateTooFarInFuture) else None
  {
    assert !Violates(item, utcNow, categoryNames, 0) && !Violates(item, utcNow, categoryNames, 1);
    assert !Violates(item, utcNow, categoryNames, 2) && !Violates(item, utcNow, categoryNames, 3);
    assert !Violates(item, utcNow, categoryNames, 4) && !Violates(item, utcNow, categoryNames, 5);
  }

  /** A start date one year and one day after now is refused; one year after now is not. */
  lemma StartDateBoundary(item: ImportItem, utcNow: DateTime, categoryNames: seq<string>)
    requires forall k :: 0 <= k < 6 ==> !Violates(item, utcNow, categoryNames, k)
    requires 0 <= item.reminderDaysBefore <= MaxReminderDays
    ensures Validate(item.(startDate := AddDays(AddYears(utcNow, 1), 1)), utcNow, categoryNames)
            == Some(StartDateTooFarInFuture)
    ensures Validate(item.(startDate := AddYears(utcNow, 1)), utcNow, categoryNames) == None
  {
    var yearOn := AddYears(utcNow, 1);
    var dayAfter := AddDays(yearOn, 1);
    assert yearOn.year >= 2 && dayAfter.year >= 2;
    StartDateDecides(item, utcNow, categoryNames, dayAfter);
    StartDateDecides(item, utcNow, categoryNames, yearOn);
  }

  // ---------------------------------------------------------------------------
  // The endpoint

  /**
   * The values `HandleAsync` gives the entity it builds from `item`, or
   * nothing when the item's cycle or category does not parse.
   */
  function ImportedEntity(item: ImportItem, id: Guid, utcNow: DateTime, categoryNames: seq<string>)
    : Option<SubscriptionState>
  {
    match (ParseBillingCycle(item.billingCycle), ParseCategory(item.category, categoryNames))
    case (Some(cycle), Some(category)) =>
      Some(SubscriptionState(id, item.name, item.description, item.amount, item.currency, cycle, category,
                             item.startDate, NextOccurrence(item.startDate, cycle, utcNow), item.isActive,
                             item.url, item.reminderDaysBefore, utcNow, utcNow))
    case _ => None
  }

  /**
   * Every item that passes validation yields an entity: active as the item
   * says, stamped with the import's instant, and billed next at the first
   * occurrence of its schedule after that instant.
   */
  lemma ValidItemIsImported(item: ImportItem, id: Guid, utcNow: DateTime, categoryNames: seq<string>)
    requires Validate(item, utcNow, categoryNames).None?
    ensures var e := ImportedEntity(item, id, utcNow, categoryNames);
            e.Some?
            && e.value.id == id && e.value.name == item.name && e.value.startDate == item.startDate
            && e.value.isActive == item.isActive
            && e.value.createdAt == utcNow && e.value.updatedAt == utcNow
            && After(e.value.nextBillingDate, utcNow)
            && !After(item.startDate, e.value.nextBillingDate)
            && (e.value.nextBillingDate == item.startDate <==> After(item.startDate, utcNow))
  {
  }

  /** `ImportedEntity` of every item, the `i`-th with identifier `newId(i)`. */
  function ImportedEntities(items: seq<ImportItem>, newId: nat -> Guid, utcNow: DateTime, categoryNames: seq<string>)
    : (entities: seq<Option<SubscriptionState>>)
    ensures |entities| == |items|
  {
    if items == [] then []
    else ImportedEntities(items[..|items| - 1], newId, utcNow, categoryNames)
         + [ImportedEntity(items[|items| - 1], newId(|items| - 1), utcNow, categoryNames)]
  }

  lemma {:induction false} ImportedEntitiesAt(items: seq<ImportItem>, newId: nat -> Guid, utcNow: DateTime,
                                              categoryNames: seq<string>, i: nat)
    requires i < |items|
    ensures ImportedEntities(items, newId, utcNow, categoryNames)[i] == ImportedEntity(items[i], newId(i), utcNow, categoryNames)
  {
    if i < |items| - 1 {
      ImportedEntitiesAt(items[..|items| - 1], newId, utcNow, categoryNames, i);
    }
  }

  /**
   * The entity the endpoint builds for a valid item: `Subscription.Create`
   * on the parsed cycle and category, then `Deactivate` when the item is
   * inactive.
   */
  method NewSubscription(item: ImportItem, id: Guid, utcNow: DateTime, categoryNames: seq<string>)
    returns (s: Subscription)
    requires Validate(item, utcNow, categoryNames).None?
    ensures fresh(s) && ImportedEntity(item, id, utcNow, categoryNames) == Some(StateOf(s))
  {
    var cycle := ParseBillingCycle(item.billingCycle).value;
    var category := ParseCategory(item.category, categoryNames).value;
    s := new Subscription.Create(id, item.name, item.description, item.amount, item.currency,
                                 cycle, category, item.startDate, item.url, item.reminderDaysBefore, utcNow);
    if !item.isActive {
      s.Deactivate(utcNow);
    }
  }

  /** `Validate` on the `i`-th item. */
  method ValidateAt(items: seq<ImportItem>, i: nat, utcNow: DateTime, categoryNames: seq<string>)
    returns (error: Option<ValidationError>)
    requires i < |items|
    ensures error == ValidationResults(items, utcNow, categoryNames)[i]
  {
    error := Validate(items[i], utcNow, categoryNames);
    ValidationResultsAt(items, utcNow, categoryNames, i);
  }

  /** `NewSubscription` for the `i`-th item, with identifier `newId(i)`. */
  method NewSubscriptionAt(items: seq<ImportItem>, i: nat, utcNow: DateTime, categoryNames: seq<string>, newId: nat -> Guid)
    returns (s: Subscription)
    requires i < |items| && ValidationResults(items, utcNow, categoryNames)[i].None?
    ensures fresh(s) && ImportedEntities(items, newId, utcNow, categoryNames)[i] == Some(StateOf(s))
  {
    ValidationResultsAt(items, utcNow, categoryNames, i);
    s := NewSubscription(items[i], newId(i), utcNow, categoryNames);
    ImportedEntitiesAt(items, newId, utcNow, categoryNames, i);
  }

  /**
   * The first pass of `ImportEndpoint.HandleAsync`: every item is validated,
   * its error recorded, and an entity built for each valid one. Nothing is
   * written to the store. `newId(i)` is the fresh `Guid` of the `i`-th item.
   */
  method ValidateAll(items: seq<ImportItem>, utcNow: DateTime, categoryNames: seq<string>, newId: nat -> Guid)
    returns (errors: seq<ImportError>, toCreate: seq<Subscription>)
    ensures errors == ImportErrors(items, utcNow, categoryNames)
    ensures errors == [] ==>
              |toCreate| == |items|
              && forall i :: 0 <= i < |items| ==>
                   fresh(toCreate[i]) && ImportedEntities(items, newId, utcNow, categoryNames)[i] == Some(StateOf(toCreate[i]))
  {
    ghost var results := ValidationResults(items, utcNow, categoryNames);
    ghost var clean := true;
    ghost var entities := ImportedEntities(items, newId, utcNow, categoryNames);
    errors := [];
    toCreate := [];
    for i := 0 to |items|
      invariant errors == Collect(results, i, Render(categoryNames))
      invariant clean == (|errors| == 0)
      invariant clean ==>
                  |toCreate| == i
                  && forall j :: 0 <= j < i ==> fresh(toCreate[j]) && entities[j] == Some(StateOf(toCreate[j]))
    {
      var validationError := ValidateAt(items, i, utcNow, categoryNames);
      if validationError.Some? {
        errors := errors + [ImportError(i, Message(validationError.value, categoryNames))];
        clean := false;
        assert errors == Collect(results, i + 1, Render(categoryNames));
        continue;
      }
      assert Collect(results, i + 1, Render(categoryNames)) == errors;
      var subscription := NewSubscriptionAt(items, i, utcNow, categoryNames, newId);
      toCreate := toCreate + [subscription];
    }
    assert errors == Collect(results, |items|, Render(categoryNames));
  }

  /**
   * `ImportEndpoint.HandleAsync`: the store gains every item's entity when
   * no item fails validation, and nothing otherwise.
   */
  method HandleAsync(store: SubscriptionStore, items: seq<ImportItem>, utcNow: DateTime,
                     categoryNames: seq<string>, newId: nat -> Guid)
    returns (response: Response)
    modifies store
    ensures response.errors == ImportErrors(items, utcNow, categoryNames)
    ensures response.errors != [] ==>
              response.imported == 0 && store.subscriptions == old(store.subscriptions)
    ensures response.errors == [] ==>
              var before := |old(store.subscriptions)|;
              response.imported == |items|
              && |store.subscriptions| == before + |items|
              && store.subscriptions[..before] == old(store.subscriptions)
              && forall i :: 0 <= i < |items| ==>
                   fresh(store.subscriptions[before + i])
                   && ImportedEntities(items, newId, utcNow, categoryNames)[i] == Some(StateOf(store.subscriptions[before + i]))
  {
    var errors, toCreate := ValidateAll(items, utcNow, categoryNames, newId);
    if |errors| > 0 {
      return Response(0, errors);
    }
    ghost var before := store.subscriptions;
    store.subscriptions := store.subscriptions + toCreate;
    assert forall i :: 0 <= i < |toCreate| ==> store.subscriptions[|before| + i] == toCreate[i];
    response := Response(|toCreate|, []);
  }
}
