/**
 * The aggregator (`cost-explorer-agrregation.py`): for each configured
 * account, pick the latest report the collector stored for the current
 * month, fold its groups into the per-account total, the per-account
 * per-service map and the run-wide per-service map, record a failing
 * account with total zero and an error, and rank accounts and services.
 * The S3 client is replaced by `storage`, the bucket contents by name;
 * the KST clock reading `now` is a parameter.
 */
module Aggregator {
  import opened Wrappers
  import opened Calendar
  import opened CostReport
  import opened Ranking
  import Collector

  /** Folder the aggregator lists; the collector writes under the same one. */
  const ReportFolder: string := "cost-reports/monthly/"

  /** How many services the notification ranks. */
  const TopServiceCount: nat := 5

  /** One entry of the configured account list. */
  datatype Account = Account(accountId: string, alias: string, bucket: string)

  /** What `get_object` plus `json.loads` yields: the report's `monthly_costs`, or the text of the exception. */
  datatype Body = Document(monthlyCosts: MonthlyCosts) | Unreadable(reason: string)

  /** A stored object as `list_objects_v2` describes it, with the body `get_object` would return. */
  datatype StoredObject = StoredObject(key: string, lastModified: int, body: Body)

  /** A bucket's objects, or the exception raised when listing it. */
  datatype Bucket = Bucket(objects: seq<StoredObject>) | Inaccessible(reason: string)

  /** Why an account's data could not be used (the exception the per-account `try` catches). */
  datatype AccountError =
    | NoCostDataFiles(accountId: string)
    | StorageFailure(reason: string)
    | UnreadableReport(reason: string)
    | MalformedGroupFailure(reason: string)

  /** `str(e)` of the caught exception. */
  function ErrorText(e: AccountError): string {
    match e
    case NoCostDataFiles(id) => "No cost data files found for account " + id
    case StorageFailure(r) => r
    case UnreadableReport(r) => r
    case MalformedGroupFailure(r) => r
  }

  /** An entry of `account_costs`; `error` is present exactly for a failed account. */
  datatype AccountCost = AccountCost(alias: string, total: real, services: map<string, real>, error: Option<AccountError>)

  /** `cost-reports/monthly/{account_id}_{current_month}`. */
  function SearchPrefix(accountId: string, month: string): string {
    ReportFolder + accountId + "_" + month
  }

  predicate HasPrefix(s: string, p: string) {
    |p| <= |s| && s[..|p|] == p
  }

  /** `list_objects_v2(Prefix=prefix)['Contents']`: the objects whose key starts with the prefix. */
  function ListByPrefix(objects: seq<StoredObject>, prefix: string): (r: seq<StoredObject>)
    ensures forall o :: o in r <==> o in objects && HasPrefix(o.key, prefix)
  {
    if objects == [] then []
    else
      var n := |objects|;
      var o := objects[n - 1];
      assert objects == objects[..n - 1] + [o];
      var init := ListByPrefix(objects[..n - 1], prefix);
      if HasPrefix(o.key, prefix) then init + [o] else init
  }

  function LastModified(o: StoredObject): real {
    o.lastModified as real
  }

  /**
   * The object the account's report is read from: the listed object with
   * the greatest `LastModified`, or the failure that stops the account
   * before it is read.
   */
  function LatestListed(a: Account, storage: string -> Bucket, month: string): (r: Result<StoredObject, AccountError>)
    ensures storage(a.bucket).Inaccessible? ==> r == Err(StorageFailure(storage(a.bucket).reason))
    ensures storage(a.bucket).Bucket? ==>
      var objects := storage(a.bucket).objects;
      var prefix := SearchPrefix(a.accountId, month);
      && (r.Err? <==> forall o :: o in objects ==> !HasPrefix(o.key, prefix))
      && (r.Err? ==> r.error == NoCostDataFiles(a.accountId))
      && (r.Ok? ==> && r.value in objects && HasPrefix(r.value.key, prefix)
                    && forall o :: o in objects && HasPrefix(o.key, prefix) ==> o.lastModified <= r.value.lastModified)
  {
    match storage(a.bucket)
    case Inaccessible(reason) => Err(StorageFailure(reason))
    case Bucket(objects) =>
      var listed := ListByPrefix(objects, SearchPrefix(a.accountId, month));
      if |listed| == 0 then Err(NoCostDataFiles(a.accountId))
      else
        var k := ArgMax(listed, LastModified);
        assert forall o :: o in listed ==> o.lastModified <= listed[k].lastModified by {
          forall o | o in listed ensures o.lastModified <= listed[k].lastModified {
            var j :| 0 <= j < |listed| && listed[j] == o;
            assert LastModified(listed[j]) <= LastModified(listed[k]);
          }
        }
        Ok(listed[k])
  }

  /** What processing one account produces: its entry, and the groups it added to `service_costs`. */
  datatype Outcome = Outcome(entry: AccountCost, folded: seq<Group>)

  function Failed(a: Account, e: AccountError): AccountCost {
    AccountCost(a.alias, 0.0, map[], Some(e))
  }

  /**
   * The specification of one iteration of the account loop. A malformed
   * group raises after the groups before it were already added to
   * `service_costs`; those groups are the failed account's `folded`.
   */
  function AccountOutcome(a: Account, storage: string -> Bucket, month: string): (r: Outcome)
    ensures WellFormed(r.folded)
    ensures r.entry.alias == a.alias
    ensures r.entry.error.Some? ==> r.entry.total == 0.0 && r.entry.services == map[]
    ensures r.entry.error.None? ==> Total(r.folded) == r.entry.total && r.entry.services == ByService(map[], r.folded)
    ensures LatestListed(a, storage, month).Err? ==>
      r.entry.error == Some(LatestListed(a, storage, month).error) && r.folded == []
    ensures
      var l := LatestListed(a, storage, month);
      l.Ok? && l.value.body.Unreadable? ==> r == Outcome(Failed(a, UnreadableReport(l.value.body.reason)), [])
    ensures
      var l := LatestListed(a, storage, month);
      l.Ok? && l.value.body.Document? ==>
        var gs := Flatten(l.value.body.monthlyCosts);
        && (WellFormed(gs) ==> r.entry.error.None? && r.folded == gs)
        && (!WellFormed(gs) ==>
              var k := FirstMalformed(gs);
              k < |gs| && r == Outcome(Failed(a, MalformedGroupFailure(gs[k].reason)), gs[..k]))
  {
    match LatestListed(a, storage, month)
    case Err(e) => Outcome(Failed(a, e), [])
    case Ok(latest) =>
      match latest.body
      case Unreadable(reason) => Outcome(Failed(a, UnreadableReport(reason)), [])
      case Document(mc) =>
        var gs := Flatten(mc);
        var k := FirstMalformed(gs);
        if k < |gs| then
          Outcome(Failed(a, MalformedGroupFailure(gs[k].reason)), gs[..k])
        else
          Outcome(AccountCost(a.alias, Total(gs), ByService(map[], gs), None), gs)
  }

  /**
   * A successful account read the latest listed report, and its total and
   * services are the sums over that report's groups: the services' values
   * add up to the total, and each service holds the sum of the groups
   * charged to it.
   */
  lemma SuccessfulAccount(a: Account, storage: string -> Bucket, month: string)
    requires AccountOutcome(a, storage, month).entry.error.None?
    ensures LatestListed(a, storage, month).Ok? && LatestListed(a, storage, month).value.body.Document?
    ensures
      var gs := Flatten(LatestListed(a, storage, month).value.body.monthlyCosts);
      var e := AccountOutcome(a, storage, month).entry;
      && WellFormed(gs)
      && e.total == Total(gs)
      && MapSum(e.services) == e.total
      && (forall s :: s in e.services <==> Mentions(gs, s))
      && (forall s :: s in e.services ==> e.services[s] == ServiceTotal(gs, s))
  {
    var gs := Flatten(LatestListed(a, storage, month).value.body.monthlyCosts);
    assert FirstMalformed(gs) == |gs|;
    assert gs[..|gs|] == gs;
    MapSumByService(map[], gs);
    forall s ensures s in ByService(map[], gs) <==> Mentions(gs, s) {
      ByServiceIsPerServiceSum(map[], gs, s);
    }
    forall s | s in ByService(map[], gs) ensures ByService(map[], gs)[s] == ServiceTotal(gs, s) {
      ByServiceIsPerServiceSum(map[], gs, s);
    }
  }

  /**
   * An account whose bucket holds nothing under the month's prefix is
   * recorded with total zero, no services, nothing folded, and the error
   * text "No cost data files found for account <id>".
   */
  lemma EmptyListingRecorded(a: Account, storage: string -> Bucket, month: string)
    requires storage(a.bucket).Bucket?
    requires forall o :: o in storage(a.bucket).objects ==> !HasPrefix(o.key, SearchPrefix(a.accountId, month))
    ensures
      var r := AccountOutcome(a, storage, month);
      && r.folded == []
      && r.entry == AccountCost(a.alias, 0.0, map[], r.entry.error)
      && r.entry.error.Some?
      && ErrorText(r.entry.error.value) == "No cost data files found for account " + a.accountId
  {
  }

  /**
   * A latest report without `ResultsByTime`, or whose results carry no
   * `Groups`, is not an error: the account is recorded with total zero,
   * no services and no error field.
   */
  lemma ReportWithoutGroupsSucceeds(a: Account, storage: string -> Bucket, month: string)
    requires LatestListed(a, storage, month).Ok? && LatestListed(a, storage, month).value.body.Document?
    requires
      var mc := LatestListed(a, storage, month).value.body.monthlyCosts;
      mc.resultsByTime.Some? ==>
        forall i :: 0 <= i < |mc.resultsByTime.value| ==> mc.resultsByTime.value[i].groups.None?
    ensures AccountOutcome(a, storage, month) == Outcome(AccountCost(a.alias, 0.0, map[], None), [])
  {
    var mc := LatestListed(a, storage, month).value.body.monthlyCosts;
    if mc.resultsByTime.Some? {
      FlattenResultsWithoutGroups(mc.resultsByTime.value);
    }
    assert Flatten(mc) == [];
  }

  // ---------------------------------------------------------------------
  // Specification of the whole account loop

  /** `f` applied to each account, in order. */
  function MapAccounts(accounts: seq<Account>, f: Account -> Outcome): (os: seq<Outcome>)
    ensures |os| == |accounts|
  {
    seq(|accounts|, i requires 0 <= i < |accounts| => f(accounts[i]))
  }

  lemma MapAccountsStep(accounts: seq<Account>, f: Account -> Outcome, i: nat)
    requires i < |accounts|
    ensures MapAccounts(accounts[..i + 1], f) == MapAccounts(accounts[..i], f) + [f(accounts[i])]
  {
    assert accounts[..i + 1][i] == accounts[i];
    assert forall j :: 0 <= j < i ==> accounts[..i + 1][j] == accounts[..i][j];
  }

  /** The per-account specification with the storage and month of the run fixed. */
  function OutcomeIn(storage: string -> Bucket, month: string): Account -> Outcome {
    a => AccountOutcome(a, storage, month)
  }

  /** The outcomes of the accounts, in the order the loop visits them. */
  function Outcomes(accounts: seq<Account>, storage: string -> Bucket, month: string): (os: seq<Outcome>)
    ensures |os| == |accounts|
  {
    MapAccounts(accounts, OutcomeIn(storage, month))
  }

  lemma OutcomesStep(accounts: seq<Account>, storage: string -> Bucket, month: string, i: nat)
    requires i < |accounts|
    ensures Outcomes(accounts[..i + 1], storage, month)
            == Outcomes(accounts[..i], storage, month) + [AccountOutcome(accounts[i], storage, month)]
  {
    MapAccountsStep(accounts, OutcomeIn(storage, month), i);
  }

  /** What every outcome of `AccountOutcome` satisfies. */
  ghost predicate Consistent(o: Outcome) {
    && WellFormed(o.folded)
    && (o.entry.error.Some? ==> o.entry.total == 0.0)
    && (o.entry.error.None? ==> o.entry.total == Total(o.folded))
  }

  ghost predicate AllConsistent(os: seq<Outcome>) {
    forall i :: 0 <= i < |os| ==> Consistent(os[i])
  }

  lemma OutcomesConsistent(accounts: seq<Account>, storage: string -> Bucket, month: string)
    ensures AllConsistent(Outcomes(accounts, storage, month))
  {
    var os := Outcomes(accounts, storage, month);
    forall i | 0 <= i < |os| ensures Consistent(os[i]) {
      assert os[i] == AccountOutcome(accounts[i], storage, month);
    }
  }

  /** `total_cost`: the totals of the successful accounts (`total_cost += account_total` runs only when the account's `try` completes). */
  function TotalCost(os: seq<Outcome>): real {
    if os == [] then 0.0
    else
      var e := os[|os| - 1].entry;
      TotalCost(os[..|os| - 1]) + (if e.error.None? then e.total else 0.0)
  }

  /** `account_costs`: every account's entry, a later account overwriting an earlier one with the same id. */
  function AccountCosts(accounts: seq<Account>, os: seq<Outcome>): map<string, AccountCost>
    requires |os| == |accounts|
  {
    if accounts == [] then map[]
    else
      var n := |accounts|;
      AccountCosts(accounts[..n - 1], os[..n - 1])[accounts[n - 1].accountId := os[n - 1].entry]
  }

  /** Every group the run added to `service_costs`, in order. */
  function Folded(os: seq<Outcome>): (gs: seq<Group>)
    requires AllConsistent(os)
    ensures WellFormed(gs)
  {
    if os == [] then []
    else
      var n := |os|;
      assert forall i :: 0 <= i < n - 1 ==> os[..n - 1][i] == os[i];
      var init := Folded(os[..n - 1]);
      TotalAppend(init, os[n - 1].folded);
      init + os[n - 1].folded
  }

  /** The amounts failed accounts left in `service_costs` before they raised. */
  function Leaked(os: seq<Outcome>): real
    requires AllConsistent(os)
  {
    if os == [] then 0.0
    else
      var n := |os|;
      assert forall i :: 0 <= i < n - 1 ==> os[..n - 1][i] == os[i];
      var o := os[n - 1];
      Leaked(os[..n - 1]) + (if o.entry.error.Some? then Total(o.folded) else 0.0)
  }

  /** Every configured account has an entry in `account_costs`, and nothing else does. */
  lemma {:induction false} EveryAccountRecorded(accounts: seq<Account>, os: seq<Outcome>)
    requires |os| == |accounts|
    ensures AccountCosts(accounts, os).Keys == set a | a in accounts :: a.accountId
  {
    if accounts != [] {
      var n := |accounts|;
      EveryAccountRecorded(accounts[..n - 1], os[..n - 1]);
      assert accounts == accounts[..n - 1] + [accounts[n - 1]];
    }
  }

  /** An account's entry is the outcome of its own processing, unless a later account reuses its id. */
  lemma {:induction false} EntryOfAccount(accounts: seq<Account>, os: seq<Outcome>, i: nat)
    requires |os| == |accounts| && i < |accounts|
    requires forall j :: i < j < |accounts| ==> accounts[j].accountId != accounts[i].accountId
    ensures accounts[i].accountId in AccountCosts(accounts, os)
    ensures AccountCosts(accounts, os)[accounts[i].accountId] == os[i].entry
  {
    var n := |accounts|;
    if i < n - 1 {
      var init := accounts[..n - 1];
      assert init[i] == accounts[i] && os[..n - 1][i] == os[i];
      assert forall j :: i < j < |init| ==> init[j] == accounts[j];
      EntryOfAccount(init, os[..n - 1], i);
    }
  }

  predicate DistinctIds(accounts: seq<Account>) {
    forall i, j :: 0 <= i < j < |accounts| ==> accounts[i].accountId != accounts[j].accountId
  }

  function Totals(accountCosts: map<string, AccountCost>): map<string, real> {
    map id | id in accountCosts :: accountCosts[id].total
  }

  lemma TotalsUpdate(m: map<string, AccountCost>, k: string, e: AccountCost)
    ensures Totals(m[k := e]) == Totals(m)[k := e.total]
  {
  }

  /** Adding an entry under a new id adds its total to the sum of totals. */
  lemma TotalsAddEntry(m: map<string, AccountCost>, k: string, e: AccountCost)
    requires k !in m
    ensures MapSum(Totals(m[k := e])) == MapSum(Totals(m)) + e.total
  {
    TotalsUpdate(m, k, e);
    MapSumUpdate(Totals(m), k, e.total);
    assert Totals(m) - {k} == Totals(m);
  }

  /**
   * With distinct account ids, `total_cost` is the sum of the totals in
   * `account_costs`: failed accounts are there with total zero.
   */
  lemma {:induction false} TotalIsSumOfAccountTotals(accounts: seq<Account>, os: seq<Outcome>)
    requires |os| == |accounts| && DistinctIds(accounts) && AllConsistent(os)
    ensures TotalCost(os) == MapSum(Totals(AccountCosts(accounts, os)))
  {
    if accounts == [] {
      assert Totals(map[]) == map[];
    } else {
      var n := |accounts|;
      var init := accounts[..n - 1];
      var a := accounts[n - 1];
      var e := os[n - 1].entry;
      var prev := AccountCosts(init, os[..n - 1]);
      assert DistinctIds(init);
      assert AllConsistent(os[..n - 1]) by {
        assert forall i :: 0 <= i < n - 1 ==> os[..n - 1][i] == os[i];
      }
      TotalIsSumOfAccountTotals(init, os[..n - 1]);
      EveryAccountRecorded(init, os[..n - 1]);
      assert a.accountId !in prev by {
        assert forall b :: b in init ==> b.accountId != a.accountId;
      }
      TotalsAddEntry(prev, a.accountId, e);
      assert Consistent(os[n - 1]);
      assert TotalCost(os) == TotalCost(os[..n - 1]) + e.total;
      assert AccountCosts(accounts, os) == prev[a.accountId := e];
    }
  }

  lemma {:induction false} FoldedTotal(os: seq<Outcome>)
    requires AllConsistent(os)
    ensures Total(Folded(os)) == TotalCost(os) + Leaked(os)
  {
    if os != [] {
      var n := |os|;
      assert forall i :: 0 <= i < n - 1 ==> os[..n - 1][i] == os[i];
      FoldedTotal(os[..n - 1]);
      TotalAppend(Folded(os[..n - 1]), os[n - 1].folded);
      assert Consistent(os[n - 1]);
    }
  }

  /**
   * `service_costs` adds up to `total_cost` plus what failed accounts
   * left in it: the groups a failing account folded before it raised are
   * counted by service but not in the total.
   */
  lemma ServiceCostsBalance(os: seq<Outcome>)
    requires AllConsistent(os)
    ensures MapSum(ByService(map[], Folded(os))) == TotalCost(os) + Leaked(os)
  {
    MapSumByService(map[], Folded(os));
    FoldedTotal(os);
  }

  lemma {:induction false} NothingLeaked(os: seq<Outcome>)
    requires AllConsistent(os)
    requires forall i :: 0 <= i < |os| ==> os[i].entry.error.Some? ==> os[i].folded == []
    ensures Leaked(os) == 0.0
  {
    if os != [] {
      var n := |os|;
      assert forall i :: 0 <= i < n - 1 ==> os[..n - 1][i] == os[i];
      NothingLeaked(os[..n - 1]);
    }
  }

  /** When no account fails part-way through its groups, `service_costs` adds up to `total_cost`. */
  lemma ServiceCostsMatchTotal(os: seq<Outcome>)
    requires AllConsistent(os)
    requires forall i :: 0 <= i < |os| ==> os[i].entry.error.Some? ==> os[i].folded == []
    ensures MapSum(ByService(map[], Folded(os))) == TotalCost(os)
  {
    ServiceCostsBalance(os);
    NothingLeaked(os);
  }

  /**
   * An account whose latest report has a malformed group fails with that
   * group's error, after the groups before it were folded.
   */
  lemma MalformedReportOutcome(a: Account, storage: string -> Bucket, month: string, latest: StoredObject)
    requires LatestListed(a, storage, month) == Ok(latest) && latest.body.Document?
    requires FirstMalformed(Flatten(latest.body.monthlyCosts)) < |Flatten(latest.body.monthlyCosts)|
    ensures
      var gs := Flatten(latest.body.monthlyCosts);
      var k := FirstMalformed(gs);
      AccountOutcome(a, storage, month) == Outcome(Failed(a, MalformedGroupFailure(gs[k].reason)), gs[..k])
  {
  }

  // A report whose second group is malformed.
  const LeakGroup: Group := Group(["Amazon EC2"], 5.0)
  const LeakResults: seq<TimeResult> := [TimeResult(Some([LeakGroup, MalformedGroup("InvalidOperation")]))]
  const LeakReport: MonthlyCosts := MonthlyCosts(Some(LeakResults))

  lemma LeakReportGroups()
    ensures Flatten(LeakReport) == [LeakGroup, MalformedGroup("InvalidOperation")]
    ensures FirstMalformed(Flatten(LeakReport)) == 1
  {
    FlattenResultsStep(LeakResults, 0);
    assert LeakResults[..1] == LeakResults && LeakResults[..0] == [];
    FirstMalformedAt(Flatten(LeakReport), 1);
  }

  /**
   * The identity above needs its condition: a single account whose latest
   * report is that one leaves its first group's 5.00 in `service_costs`
   * while `total_cost` stays 0.
   */
  lemma PartialFailureLeaks(a: Account, storage: string -> Bucket, month: string, latest: StoredObject)
    requires LatestListed(a, storage, month) == Ok(latest) && latest.body == Document(LeakReport)
    ensures
      var os := Outcomes([a], storage, month);
      && AllConsistent(os)
      && TotalCost(os) == 0.0
      && MapSum(ByService(map[], Folded(os))) == 5.0
  {
    LeakReportGroups();
    MalformedReportOutcome(a, storage, month, latest);
    var gs := [LeakGroup, MalformedGroup("InvalidOperation")];
    assert gs[..1] == [LeakGroup];
    var o := Outcome(Failed(a, MalformedGroupFailure("InvalidOperation")), [LeakGroup]);
    assert AccountOutcome(a, storage, month) == o;
    var os := Outcomes([a], storage, month);
    assert os[0] == AccountOutcome(a, storage, month);
    assert os == [o];
    OutcomesConsistent([a], storage, month);
    LeakTotals(a, os);
  }

  lemma LeakTotals(a: Account, os: seq<Outcome>)
    requires os == [Outcome(Failed(a, MalformedGroupFailure("InvalidOperation")), [LeakGroup])]
    ensures AllConsistent(os)
    ensures TotalCost(os) == 0.0
    ensures MapSum(ByService(map[], Folded(os))) == 5.0
  {
    assert os[..0] == [];
    assert [LeakGroup][..0] == [];
    ServiceCostsBalance(os);
  }

  /** Such an account exists: a bucket holding that report under the month's prefix. */
  lemma LeakReportIsReachable()
    ensures
      var a := Account("111111111111", "alpha", "cost-data-111111111111");
      var latest := StoredObject(SearchPrefix(a.accountId, "202407") + ".json", 1, Document(LeakReport));
      LatestListed(a, (b: string) => Bucket([latest]), "202407") == Ok(latest)
  {
    var a := Account("111111111111", "alpha", "cost-data-111111111111");
    var latest := StoredObject(SearchPrefix(a.accountId, "202407") + ".json", 1, Document(LeakReport));
    assert ListByPrefix([latest], SearchPrefix(a.accountId, "202407")) == [latest];
  }

  // ---------------------------------------------------------------------
  // The loops of the handler

  /**
   * What the walk carries after folding `prefix`: the account total, the
   * account's per-service map and the run-wide `service_costs`, which was
   * `serviceCosts` before the account.
   */
  ghost predicate FoldedState(prefix: seq<Group>, serviceCosts: map<string, real>,
                              accountTotal: real, accountServices: map<string, real>, newServiceCosts: map<string, real>) {
    && WellFormed(prefix)
    && accountTotal == Total(prefix)
    && accountServices == ByService(map[], prefix)
    && newServiceCosts == ByService(serviceCosts, prefix)
  }

  /**
   * The walk over `ResultsByTime[].Groups[]` of one report: adds each
   * group's amount to the account total, to the account's per-service map
   * and to the run-wide `service_costs`, and stops at the first group
   * whose keys or amount cannot be read.
   */
  method FoldDocument(mc: MonthlyCosts, serviceCosts: map<string, real>)
    returns (accountTotal: real, accountServices: map<string, real>, failure: Option<string>, newServiceCosts: map<string, real>)
    ensures
      var gs := Flatten(mc);
      var k := FirstMalformed(gs);
      && WellFormed(gs[..k])
      && newServiceCosts == ByService(serviceCosts, gs[..k])
      && (failure.None? <==> k == |gs|)
      && (k < |gs| ==> failure == Some(gs[k].reason))
      && (k == |gs| ==> accountTotal == Total(gs) && accountServices == ByService(map[], gs))
  {
    accountTotal := 0.0;
    accountServices := map[];
    newServiceCosts := serviceCosts;
    failure := None;
    if mc.resultsByTime.None? {
      assert Flatten(mc) == [];
      return;
    }
    var rs := mc.resultsByTime.value;
    assert Flatten(mc) == FlattenResults(rs);
    var i := 0;
    while i < |rs|
      invariant 0 <= i <= |rs|
      invariant failure.None?
      invariant FoldedState(FlattenResults(rs[..i]), serviceCosts, accountTotal, accountServices, newServiceCosts)
    {
      FlattenResultsStep(rs, i);
      ghost var done := FlattenResults(rs[..i]);
      if rs[i].groups.None? {
        assert FlattenResults(rs[..i + 1]) == done + [] == done;
      } else {
        var groups := rs[i].groups.value;
        accountTotal, accountServices, failure, newServiceCosts :=
          FoldGroups(groups, done, serviceCosts, accountTotal, accountServices, newServiceCosts);
        if failure.Some? {
          StopsAtMalformed(rs, i, FirstMalformed(groups));
          return;
        }
        assert groups[..|groups|] == groups;
      }
      i := i + 1;
    }
    assert rs[..i] == rs;
    assert FirstMalformed(Flatten(mc)) == |Flatten(mc)|;
    assert Flatten(mc)[..|Flatten(mc)|] == Flatten(mc);
  }

  /** The inner loop of the walk, over one time bucket's groups; `done` are the groups folded before it. */
  method FoldGroups(groups: seq<Group>, ghost done: seq<Group>, ghost serviceCosts: map<string, real>,
                    total0: real, services0: map<string, real>, serviceCosts0: map<string, real>)
    returns (accountTotal: real, accountServices: map<string, real>, failure: Option<string>, newServiceCosts: map<string, real>)
    requires FoldedState(done, serviceCosts, total0, services0, serviceCosts0)
    ensures
      var k := FirstMalformed(groups);
      && FoldedState(done + groups[..k], serviceCosts, accountTotal, accountServices, newServiceCosts)
      && (failure.None? <==> k == |groups|)
      && (k < |groups| ==> failure == Some(groups[k].reason))
  {
    accountTotal, accountServices, newServiceCosts := total0, services0, serviceCosts0;
    failure := None;
    var j := 0;
    assert done + groups[..0] == done;
    while j < |groups|
      invariant 0 <= j <= |groups|
      invariant forall i :: 0 <= i < j ==> groups[i].Group?
      invariant FoldedState(done + groups[..j], serviceCosts, accountTotal, accountServices, newServiceCosts)
    {
      match groups[j]
      case MalformedGroup(reason) =>
        FirstMalformedAt(groups, j);
        failure := Some(reason);
        return;
      case Group(keys, amount) =>
        FoldStep(done, groups, j, serviceCosts, accountTotal, accountServices, newServiceCosts);
        var serviceName := if |keys| > 0 then keys[0] else UnknownService;
        accountServices := AddCost(accountServices, serviceName, amount);
        newServiceCosts := AddCost(newServiceCosts, serviceName, amount);
        accountTotal := accountTotal + amount;
        j := j + 1;
    }
    assert groups[..j] == groups;
  }

  /** `m[k] = m.get-or-zero(k) + x`, written as the handler does: a missing key is first set to zero. */
  method AddCost(m: map<string, real>, k: string, x: real) returns (r: map<string, real>)
    ensures r == AddTo(m, k, x)
  {
    r := m;
    if k !in r {
      r := r[k := 0.0];
    }
    r := r[k := r[k] + x];
  }

  /** Folding group `j` of a bucket carries the walk's state from `groups[..j]` to `groups[..j + 1]`. */
  lemma FoldStep(done: seq<Group>, groups: seq<Group>, j: nat, serviceCosts: map<string, real>,
                 accountTotal: real, accountServices: map<string, real>, newServiceCosts: map<string, real>)
    requires j < |groups| && groups[j].Group?
    requires FoldedState(done + groups[..j], serviceCosts, accountTotal, accountServices, newServiceCosts)
    ensures
      var g := groups[j];
      FoldedState(done + groups[..j + 1], serviceCosts, accountTotal + g.amount,
                  AddTo(accountServices, ServiceName(g), g.amount), AddTo(newServiceCosts, ServiceName(g), g.amount))
  {
    var before := done + groups[..j];
    ExtendPrefix(done, groups, j);
    FoldOne(before, groups[j], map[]);
    FoldOne(before, groups[j], serviceCosts);
  }

  lemma ExtendPrefix(done: seq<Group>, groups: seq<Group>, j: nat)
    requires j < |groups|
    ensures done + groups[..j + 1] == (done + groups[..j]) + [groups[j]]
  {
    assert groups[..j + 1] == groups[..j] + [groups[j]];
  }

  /** Folding one more well-formed group adds its amount to the total and under its service name. */
  lemma FoldOne(before: seq<Group>, g: Group, m: map<string, real>)
    requires WellFormed(before) && g.Group?
    ensures WellFormed(before + [g])
    ensures Total(before + [g]) == Total(before) + g.amount
    ensures ByService(m, before + [g]) == AddTo(ByService(m, before), ServiceName(g), g.amount)
  {
    assert (before + [g])[..|before|] == before;
  }

  /** Where the walk raises: past a well-formed prefix of the flattened groups, at the first malformed one. */
  lemma StopsAtMalformed(rs: seq<TimeResult>, i: nat, j: nat)
    requires i < |rs| && rs[i].groups.Some?
    requires j < |rs[i].groups.value| && rs[i].groups.value[j].MalformedGroup?
    requires WellFormed(FlattenResults(rs[..i]) + rs[i].groups.value[..j])
    ensures
      var p := FlattenResults(rs[..i]) + rs[i].groups.value[..j];
      && |p| < |FlattenResults(rs)|
      && FirstMalformed(FlattenResults(rs)) == |p|
      && FlattenResults(rs)[|p|] == rs[i].groups.value[j]
      && FlattenResults(rs)[..|p|] == p
  {
    var groups := rs[i].groups.value;
    var p := FlattenResults(rs[..i]) + groups[..j];
    var all := FlattenResults(rs);
    FlattenResultsStep(rs, i);
    FlattenResultsPrefix(rs, i + 1);
    var upto := FlattenResults(rs[..i + 1]);
    assert upto == FlattenResults(rs[..i]) + groups;
    assert all[..|upto|] == upto;
    assert all[|p|] == upto[|p|] == groups[j];
    assert all[..|p|] == upto[..|p|] == p;
    FirstMalformedAt(all, |p|);
  }

  /**
   * One iteration of `for account in accounts`: list the month's
   * objects, take the latest, read it and fold it; any failure records the
   * account with total zero, no services and the error.
   */
  method ProcessAccount(a: Account, storage: string -> Bucket, month: string, serviceCosts: map<string, real>)
    returns (entry: AccountCost, newServiceCosts: map<string, real>)
    ensures entry == AccountOutcome(a, storage, month).entry
    ensures newServiceCosts == ByService(serviceCosts, AccountOutcome(a, storage, month).folded)
  {
    var latest := LatestListed(a, storage, month);
    ghost var outcome := AccountOutcome(a, storage, month);
    if latest.Err? {
      assert outcome == Outcome(Failed(a, latest.error), []);
      return Failed(a, latest.error), serviceCosts;
    }
    match latest.value.body
    case Unreadable(reason) =>
      assert outcome == Outcome(Failed(a, UnreadableReport(reason)), []);
      return Failed(a, UnreadableReport(reason)), serviceCosts;
    case Document(mc) =>
      var total, services, failure, svc := FoldDocument(mc, serviceCosts);
      ghost var gs := Flatten(mc);
      ghost var k := FirstMalformed(gs);
      if failure.Some? {
        assert outcome == Outcome(Failed(a, MalformedGroupFailure(gs[k].reason)), gs[..k]);
        return Failed(a, MalformedGroupFailure(failure.value)), svc;
      }
      assert gs[..k] == gs;
      assert outcome == Outcome(AccountCost(a.alias, Total(gs), ByService(map[], gs), None), gs);
      return AccountCost(a.alias, total, services, None), svc;
  }

  /** The account loop, accumulating `total_cost`, `account_costs` and `service_costs`. */
  method Aggregate(accounts: seq<Account>, storage: string -> Bucket, month: string)
    returns (totalCost: real, accountCosts: map<string, AccountCost>, serviceCosts: map<string, real>)
    ensures AllConsistent(Outcomes(accounts, storage, month))
    ensures totalCost == TotalCost(Outcomes(accounts, storage, month))
    ensures accountCosts == AccountCosts(accounts, Outcomes(accounts, storage, month))
    ensures serviceCosts == ByService(map[], Folded(Outcomes(accounts, storage, month)))
  {
    totalCost := 0.0;
    accountCosts := map[];
    serviceCosts := map[];
    var i := 0;
    while i < |accounts|
      invariant 0 <= i <= |accounts|
      invariant AllConsistent(Outcomes(accounts[..i], storage, month))
      invariant totalCost == TotalCost(Outcomes(accounts[..i], storage, month))
      invariant accountCosts == AccountCosts(accounts[..i], Outcomes(accounts[..i], storage, month))
      invariant serviceCosts == ByService(map[], Folded(Outcomes(accounts[..i], storage, month)))
    {
      var account := accounts[i];
      RunStep(accounts, storage, month, i);
      var entry, svc := ProcessAccount(account, storage, month, serviceCosts);
      accountCosts := accountCosts[account.accountId := entry];
      if entry.error.None? {
        totalCost := totalCost + entry.total;
      }
      serviceCosts := svc;
      i := i + 1;
    }
    assert accounts[..i] == accounts;
  }

  /** `items` lists the entries of `m`, each key once. */
  ghost predicate ListsMap(items: seq<Entry>, m: map<string, real>) {
    && DistinctNames(items)
    && forall e :: e in items <==> e.name in m && e.cost == m[e.name]
  }

  /** How one more account extends the run's figures. */
  lemma RunStep(accounts: seq<Account>, storage: string -> Bucket, month: string, i: nat)
    requires i < |accounts|
    ensures
      var before := Outcomes(accounts[..i], storage, month);
      var after := Outcomes(accounts[..i + 1], storage, month);
      var o := AccountOutcome(accounts[i], storage, month);
      && AllConsistent(before)
      && AllConsistent(after)
      && TotalCost(after) == TotalCost(before) + (if o.entry.error.None? then o.entry.total else 0.0)
      && AccountCosts(accounts[..i + 1], after) == AccountCosts(accounts[..i], before)[accounts[i].accountId := o.entry]
      && ByService(map[], Folded(after)) == ByService(ByService(map[], Folded(before)), o.folded)
  {
    var before := Outcomes(accounts[..i], storage, month);
    var after := Outcomes(accounts[..i + 1], storage, month);
    var o := AccountOutcome(accounts[i], storage, month);
    OutcomesStep(accounts, storage, month, i);
    assert after[..i] == before;
    assert accounts[..i + 1][..i] == accounts[..i];
    OutcomesConsistent(accounts[..i], storage, month);
    OutcomesConsistent(accounts[..i + 1], storage, month);
    ByServiceAppend(map[], Folded(before), o.folded);
  }

  /** `dict.items()` of a cost map, in some order. */
  method Entries(m: map<string, real>) returns (items: seq<Entry>)
    ensures ListsMap(items, m)
  {
    items := [];
    var rest := m.Keys;
    while rest != {}
      invariant rest <= m.Keys
      invariant DistinctNames(items)
      invariant forall e :: e in items <==> e.name in m && e.name !in rest && e.cost == m[e.name]
      decreases |rest|
    {
      var k :| k in rest;
      items := items + [Entry(k, m[k])];
      rest := rest - {k};
    }
  }

  /**
   * Ranking the entries of a map and keeping the positive ones yields
   * exactly the keys with a positive value, most expensive first, each
   * once.
   */
  lemma RankedPositive(m: map<string, real>, items: seq<Entry>)
    requires ListsMap(items, m)
    ensures
      var p := Positive(SortDescending(items));
      && (forall x :: x in p <==> x.name in m && x.cost == m[x.name] && x.cost > 0.0)
      && NonIncreasing(p)
      && DistinctNames(p)
      && |p| == |set k | k in m && m[k] > 0.0|
  {
    var sorted := SortDescending(items);
    var p := Positive(sorted);
    PositiveMembers(sorted);
    PositiveSorted(sorted);
    SortKeepsNamesDistinct(items);
    PositiveDistinct(sorted);
    forall x ensures x in p <==> x.name in m && x.cost == m[x.name] && x.cost > 0.0 {
      SortMembers(items, x);
    }
    var paying := set k | k in m && m[k] > 0.0;
    forall k | k in paying ensures k in Names(p) {
      assert Entry(k, m[k]) in p;
    }
    forall k | k in Names(p) ensures k in paying {
      var x :| x in p && x.name == k;
    }
    assert Names(p) == paying;
    NamesCount(p);
  }

  /**
   * The positive entries among the first `n` of the ranking: at most `n`
   * of them, each a positive entry of the map, most expensive first, none
   * cheaper than an entry left out, and all positive entries when fewer
   * than `n` are kept.
   */
  lemma RankedTop(m: map<string, real>, items: seq<Entry>, n: nat)
    requires ListsMap(items, m)
    ensures
      var top := TopPositive(SortDescending(items), n);
      && |top| <= n
      && (forall x :: x in top ==> x.name in m && x.cost == m[x.name] && x.cost > 0.0)
      && NonIncreasing(top)
      && DistinctNames(top)
      && (forall k :: k in m && k !in Names(top) ==> forall x :: x in top ==> m[k] <= x.cost)
      && (|top| < n ==> forall k :: k in m && m[k] > 0.0 ==> k in Names(top))
  {
    var sorted := SortDescending(items);
    var head := sorted[..Min(n, |sorted|)];
    var top := TopPositive(sorted, n);
    PositiveLength(head);
    PositiveMembers(head);
    PositiveSorted(head);
    SortKeepsNamesDistinct(items);
    PositiveDistinct(head);
    forall x | x in top ensures x.name in m && x.cost == m[x.name] && x.cost > 0.0 {
      SortMembers(items, x);
    }
    forall k | k in m && k !in Names(top) ensures forall x :: x in top ==> m[k] <= x.cost {
      assert Entry(k, m[k]) !in top;
      SortMembers(items, Entry(k, m[k]));
      TopDominates(sorted, n, Entry(k, m[k]));
    }
    if |top| < n {
      forall k | k in m && m[k] > 0.0 ensures k in Names(top) {
        SortMembers(items, Entry(k, m[k]));
        TopComplete(sorted, n, Entry(k, m[k]));
      }
    }
  }

  /** An element of `account_summary`. */
  datatype AccountShare = AccountShare(accountId: string, alias: string, cost: real, percentage: real, displayName: string)

  /** An element of `top_services`. */
  datatype ServiceShare = ServiceShare(service: string, cost: real, percentage: real)

  /** `s` describes a paying account of `account_costs` and its share of `total_cost`. */
  predicate IsAccountShare(s: AccountShare, accountCosts: map<string, AccountCost>, totalCost: real) {
    && s.accountId in accountCosts
    && s.alias == accountCosts[s.accountId].alias
    && s.cost == accountCosts[s.accountId].total
    && s.cost > 0.0
    && s.percentage == Percentage(s.cost, totalCost)
    && s.displayName == s.alias + " (" + s.accountId + ")"
  }

  /** `active_accounts`: how many entries of `account_costs` have a positive total. */
  function ActiveAccounts(accountCosts: map<string, AccountCost>): nat {
    |set id | id in accountCosts && accountCosts[id].total > 0.0|
  }

  lemma ActiveAccountsOfTotals(accountCosts: map<string, AccountCost>)
    ensures ActiveAccounts(accountCosts) == |set id | id in Totals(accountCosts) && Totals(accountCosts)[id] > 0.0|
  {
    var t := Totals(accountCosts);
    assert (set id | id in accountCosts && accountCosts[id].total > 0.0) == (set id | id in t && t[id] > 0.0);
  }

  /** The element of `account_summary` for a ranked entry. */
  function ShareOf(e: Entry, accountCosts: map<string, AccountCost>, totalCost: real): AccountShare
    requires e.name in accountCosts
  {
    var alias := accountCosts[e.name].alias;
    AccountShare(e.name, alias, e.cost, Percentage(e.cost, totalCost), alias + " (" + e.name + ")")
  }

  /** `summary` is the list the append loop builds from the ranked entries `p`: one share per entry, in order. */
  ghost predicate AccountSharesOf(summary: seq<AccountShare>, p: seq<Entry>, accountCosts: map<string, AccountCost>, totalCost: real) {
    && |summary| == |p|
    && forall k :: 0 <= k < |p| ==> p[k].name in accountCosts && summary[k] == ShareOf(p[k], accountCosts, totalCost)
  }

  lemma AccountSharesAreOfPayingAccounts(accountCosts: map<string, AccountCost>, totalCost: real, items: seq<Entry>, summary: seq<AccountShare>)
    requires ListsMap(items, Totals(accountCosts))
    requires AccountSharesOf(summary, Positive(SortDescending(items)), accountCosts, totalCost)
    ensures forall k :: 0 <= k < |summary| ==> IsAccountShare(summary[k], accountCosts, totalCost)
    ensures forall i, j :: 0 <= i < j < |summary| ==>
      summary[i].cost >= summary[j].cost && summary[i].accountId != summary[j].accountId
  {
    var p := Positive(SortDescending(items));
    RankedPositive(Totals(accountCosts), items);
    forall k | 0 <= k < |summary| ensures IsAccountShare(summary[k], accountCosts, totalCost) {
      assert p[k] in p;
    }
  }

  lemma EveryPayingAccountShared(accountCosts: map<string, AccountCost>, totalCost: real, items: seq<Entry>, summary: seq<AccountShare>)
    requires ListsMap(items, Totals(accountCosts))
    requires AccountSharesOf(summary, Positive(SortDescending(items)), accountCosts, totalCost)
    ensures forall id :: id in accountCosts && accountCosts[id].total > 0.0 ==>
      exists k :: 0 <= k < |summary| && summary[k].accountId == id
    ensures |summary| == ActiveAccounts(accountCosts)
  {
    var totals := Totals(accountCosts);
    var p := Positive(SortDescending(items));
    RankedPositive(totals, items);
    forall id | id in accountCosts && accountCosts[id].total > 0.0
      ensures exists k :: 0 <= k < |summary| && summary[k].accountId == id
    {
      assert Entry(id, totals[id]) in p;
      var k :| 0 <= k < |p| && p[k] == Entry(id, totals[id]);
      assert summary[k].accountId == id;
    }
    ActiveAccountsOfTotals(accountCosts);
  }

  /** The append loop of `account_summary`: one share per ranked account of positive total, in order. */
  method ShareAccounts(sorted: seq<Entry>, accountCosts: map<string, AccountCost>, totalCost: real) returns (summary: seq<AccountShare>)
    requires forall x :: x in sorted ==> x.name in accountCosts
    ensures AccountSharesOf(summary, Positive(sorted), accountCosts, totalCost)
  {
    summary := [];
    var i := 0;
    while i < |sorted|
      invariant 0 <= i <= |sorted|
      invariant AccountSharesOf(summary, Positive(sorted[..i]), accountCosts, totalCost)
    {
      PositiveStep(sorted, i);
      var e := sorted[i];
      if e.cost > 0.0 {
        summary := summary + [ShareOf(e, accountCosts, totalCost)];
      }
      i := i + 1;
    }
    assert sorted[..i] == sorted;
  }

  /**
   * `account_summary`: the accounts with a positive total,
   * most expensive first, each with its share of `total_cost`.
   */
  method AccountSummary(accountCosts: map<string, AccountCost>, totalCost: real) returns (summary: seq<AccountShare>)
    ensures forall k :: 0 <= k < |summary| ==> IsAccountShare(summary[k], accountCosts, totalCost)
    ensures forall id :: id in accountCosts && accountCosts[id].total > 0.0 ==>
      exists k :: 0 <= k < |summary| && summary[k].accountId == id
    ensures forall i, j :: 0 <= i < j < |summary| ==>
      summary[i].cost >= summary[j].cost && summary[i].accountId != summary[j].accountId
    ensures |summary| == ActiveAccounts(accountCosts)
  {
    var totals := Totals(accountCosts);
    var items := Entries(totals);
    var sorted := SortDescending(items);
    forall x | x in sorted ensures x.name in accountCosts {
      SortMembers(items, x);
    }
    summary := ShareAccounts(sorted, accountCosts, totalCost);
    AccountSharesAreOfPayingAccounts(accountCosts, totalCost, items, summary);
    EveryPayingAccountShared(accountCosts, totalCost, items, summary);
  }

  /** `top` is the list the append loop builds from the ranked entries `p`: one share per entry, in order. */
  ghost predicate ServiceSharesOf(top: seq<ServiceShare>, p: seq<Entry>, totalCost: real) {
    && |top| == |p|
    && forall k :: 0 <= k < |p| ==> top[k] == ServiceShare(p[k].name, p[k].cost, Percentage(p[k].cost, totalCost))
  }

  lemma ServiceSharesAreOfCostlyServices(serviceCosts: map<string, real>, totalCost: real, items: seq<Entry>, top: seq<ServiceShare>)
    requires ListsMap(items, serviceCosts)
    requires ServiceSharesOf(top, TopPositive(SortDescending(items), TopServiceCount), totalCost)
    ensures |top| <= TopServiceCount
    ensures forall k :: 0 <= k < |top| ==>
      && top[k].service in serviceCosts
      && top[k].cost == serviceCosts[top[k].service]
      && top[k].cost > 0.0
      && top[k].percentage == Percentage(top[k].cost, totalCost)
    ensures forall i, j :: 0 <= i < j < |top| ==> top[i].cost >= top[j].cost && top[i].service != top[j].service
  {
    var p := TopPositive(SortDescending(items), TopServiceCount);
    RankedTop(serviceCosts, items, TopServiceCount);
    forall k | 0 <= k < |top| ensures top[k].service in serviceCosts && top[k].cost == serviceCosts[top[k].service] && top[k].cost > 0.0 {
      assert p[k] in p;
    }
  }

  /** The services named in a list of shares. */
  function Services(top: seq<ServiceShare>): set<string> {
    set k | 0 <= k < |top| :: top[k].service
  }

  lemma SharedServices(top: seq<ServiceShare>, p: seq<Entry>, totalCost: real)
    requires ServiceSharesOf(top, p, totalCost)
    ensures Services(top) == Names(p)
    ensures forall x :: x in p ==> exists k :: 0 <= k < |top| && top[k].cost == x.cost
  {
    forall x | x in p ensures exists k :: 0 <= k < |top| && top[k].cost == x.cost {
      var k :| 0 <= k < |p| && p[k] == x;
      assert top[k].cost == x.cost;
    }
    forall s | s in Names(p) ensures s in Services(top) {
      var x :| x in p && x.name == s;
      var k :| 0 <= k < |p| && p[k] == x;
      assert top[k].service == s;
    }
  }

  lemma ServiceSharesDominate(serviceCosts: map<string, real>, totalCost: real, items: seq<Entry>, top: seq<ServiceShare>)
    requires ListsMap(items, serviceCosts)
    requires ServiceSharesOf(top, TopPositive(SortDescending(items), TopServiceCount), totalCost)
    ensures forall s :: s in serviceCosts && s !in Services(top) ==>
      forall k :: 0 <= k < |top| ==> serviceCosts[s] <= top[k].cost
    ensures |top| < TopServiceCount ==>
      forall s :: s in serviceCosts && serviceCosts[s] > 0.0 ==> s in Services(top)
  {
    var p := TopPositive(SortDescending(items), TopServiceCount);
    RankedTop(serviceCosts, items, TopServiceCount);
    SharedServices(top, p, totalCost);
    forall s, k | s in serviceCosts && s !in Services(top) && 0 <= k < |top| ensures serviceCosts[s] <= top[k].cost {
      assert p[k] in p;
    }
  }

  /** The append loop of `top_services`: one share per entry of positive cost, in order. */
  method ShareServices(head: seq<Entry>, totalCost: real) returns (top: seq<ServiceShare>)
    ensures ServiceSharesOf(top, Positive(head), totalCost)
  {
    top := [];
    var i := 0;
    while i < |head|
      invariant 0 <= i <= |head|
      invariant ServiceSharesOf(top, Positive(head[..i]), totalCost)
    {
      PositiveStep(head, i);
      var e := head[i];
      if e.cost > 0.0 {
        top := top + [ServiceShare(e.name, e.cost, Percentage(e.cost, totalCost))];
      }
      i := i + 1;
    }
    assert head[..i] == head;
  }

  /**
   * `top_services`: of the five most expensive services,
   * those with a positive total, each with its share of `total_cost`.
   */
  method TopServices(serviceCosts: map<string, real>, totalCost: real) returns (top: seq<ServiceShare>)
    ensures |top| <= TopServiceCount
    ensures forall k :: 0 <= k < |top| ==>
      && top[k].service in serviceCosts
      && top[k].cost == serviceCosts[top[k].service]
      && top[k].cost > 0.0
      && top[k].percentage == Percentage(top[k].cost, totalCost)
    ensures forall i, j :: 0 <= i < j < |top| ==> top[i].cost >= top[j].cost && top[i].service != top[j].service
    ensures forall s :: s in serviceCosts && s !in Services(top) ==>
      forall k :: 0 <= k < |top| ==> serviceCosts[s] <= top[k].cost
    ensures |top| < TopServiceCount ==>
      forall s :: s in serviceCosts && serviceCosts[s] > 0.0 ==> s in Services(top)
  {
    var items := Entries(serviceCosts);
    var sorted := SortDescending(items);
    var head := sorted[..Min(TopServiceCount, |sorted|)];
    top := ShareServices(head, totalCost);
    ServiceSharesAreOfCostlyServices(serviceCosts, totalCost, items, top);
    ServiceSharesDominate(serviceCosts, totalCost, items, top);
  }

  /** `summary.top_service`: a service of greatest total, or `"None"` when there is none. */
  method TopService(serviceCosts: map<string, real>) returns (name: string)
    ensures serviceCosts == map[] ==> name == "None"
    ensures serviceCosts != map[] ==>
      name in serviceCosts && forall s :: s in serviceCosts ==> serviceCosts[s] <= serviceCosts[name]
  {
    if serviceCosts == map[] {
      return "None";
    }
    var items := Entries(serviceCosts);
    var some :| some in serviceCosts;
    assert Entry(some, serviceCosts[some]) in items;
    var k := ArgMax(items, (e: Entry) => e.cost);
    name := items[k].name;
    assert items[k] in items;
    forall s | s in serviceCosts ensures serviceCosts[s] <= serviceCosts[name] {
      var x := Entry(s, serviceCosts[s]);
      assert x in items;
      var j :| 0 <= j < |items| && items[j] == x;
    }
  }

  /** The handler's success result: the figures of `result_data` and of the response body. */
  datatype AggregationReport = AggregationReport(
    statusCode: int,
    month: string,
    totalCost: real,
    accountCosts: map<string, AccountCost>,
    serviceCosts: map<string, real>,
    totalAccounts: nat,
    activeAccounts: nat,
    topService: string,
    accountSummary: seq<AccountShare>,
    topServices: seq<ServiceShare>)

  /**
   * One aggregator run: the account loop, then the figures derived from
   * it. Per-account failures never reach the outer handler, so the run
   * reports status 200.
   */
  method LambdaHandler(accounts: seq<Account>, storage: string -> Bucket, now: DateTime) returns (r: AggregationReport)
    requires ValidDateTime(now)
    ensures r.statusCode == 200 && r.month == YearMonth(now) && r.totalAccounts == |accounts|
    ensures
      var os := Outcomes(accounts, storage, r.month);
      && AllConsistent(os)
      && r.totalCost == TotalCost(os)
      && r.accountCosts == AccountCosts(accounts, os)
      && r.serviceCosts == ByService(map[], Folded(os))
    ensures forall a :: a in accounts ==> a.accountId in r.accountCosts
    ensures r.activeAccounts == ActiveAccounts(r.accountCosts) == |r.accountSummary|
    ensures forall k :: 0 <= k < |r.accountSummary| ==> IsAccountShare(r.accountSummary[k], r.accountCosts, r.totalCost)
    ensures |r.topServices| <= TopServiceCount
    ensures r.serviceCosts == map[] ==> r.topService == "None"
    ensures r.serviceCosts != map[] ==>
      r.topService in r.serviceCosts && forall s :: s in r.serviceCosts ==> r.serviceCosts[s] <= r.serviceCosts[r.topService]
  {
    var month := YearMonth(now);
    var totalCost, accountCosts, serviceCosts := Aggregate(accounts, storage, month);
    EveryAccountRecorded(accounts, Outcomes(accounts, storage, month));
    var summary := AccountSummary(accountCosts, totalCost);
    var top := TopServices(serviceCosts, totalCost);
    var topService := TopService(serviceCosts);
    r := AggregationReport(200, month, totalCost, accountCosts, serviceCosts, |accounts|,
                           ActiveAccounts(accountCosts), topService, summary, top);
  }

  // ---------------------------------------------------------------------
  // The storage layout shared with the collector

  /**
   * The aggregator's search prefix for a month matches the key the
   * collector writes exactly when the collector ran in that same calendar
   * month: this month's reports are found, other months' are not.
   */
  lemma {:induction false} CollectorKeyMatchesSearchPrefix(accountId: string, written: DateTime, now: DateTime)
    requires ValidDateTime(written) && ValidDateTime(now)
    ensures HasPrefix(Collector.ObjectKey(accountId, written), SearchPrefix(accountId, YearMonth(now)))
            <==> (written.year == now.year && written.month == now.month)
  {
    var key := Collector.ObjectKey(accountId, written);
    var lead := ReportFolder + accountId + "_";
    var p := SearchPrefix(accountId, YearMonth(now));
    assert key == lead + YearMonth(written) + (Pad2(written.day) + "_" + Pad2(written.hour) + Pad2(written.minute) + Pad2(written.second) + ".json");
    assert key[..|p|] == lead + YearMonth(written);
    YearMonthInjective(written, now);
    if HasPrefix(key, p) {
      assert (lead + YearMonth(written))[|lead|..] == YearMonth(written);
      assert p[|lead|..] == YearMonth(now);
    }
  }
}
