/**
 * The Cost Explorer response that the collector stores verbatim under
 * `monthly_costs`, as far as the aggregator reads it, and the
 * specification of the aggregator's fold over it: the groups of every
 * time bucket in order, the exact sum of their amounts, and the sums per
 * service name.
 */
module CostReport {
  import opened Wrappers

  /**
   * One entry of `Groups`. `Group` is an entry whose `Keys` list and
   * `Metrics.BlendedCost.Amount` decimal string could be read; an entry
   * where either raises (a missing key, a string `Decimal` rejects) is
   * `MalformedGroup`, carrying the exception text.
   */
  datatype Group = Group(keys: seq<string>, amount: real) | MalformedGroup(reason: string)

  /** One entry of `ResultsByTime`; `groups` is absent when it has no `Groups` key. */
  datatype TimeResult = TimeResult(groups: Option<seq<Group>>)

  /**
   * The `monthly_costs` object; `resultsByTime` is absent when it has no
   * `ResultsByTime` key (also when the envelope has no `monthly_costs`,
   * which the aggregator reads as an empty object).
   */
  datatype MonthlyCosts = MonthlyCosts(resultsByTime: Option<seq<TimeResult>>)

  /** The service name used for a group whose `Keys` list is empty. */
  const UnknownService: string := "Unknown"

  function ServiceName(g: Group): string
    requires g.Group?
  {
    if |g.keys| > 0 then g.keys[0] else UnknownService
  }

  predicate WellFormed(gs: seq<Group>) {
    forall i :: 0 <= i < |gs| ==> gs[i].Group?
  }

  function GroupsOf(r: TimeResult): seq<Group> {
    if r.groups.Some? then r.groups.value else []
  }

  /** The groups of all time buckets, in the order the nested loops visit them. */
  function FlattenResults(rs: seq<TimeResult>): seq<Group> {
    if rs == [] then [] else FlattenResults(rs[..|rs| - 1]) + GroupsOf(rs[|rs| - 1])
  }

  function Flatten(mc: MonthlyCosts): seq<Group> {
    if mc.resultsByTime.Some? then FlattenResults(mc.resultsByTime.value) else []
  }

  /** The position of the first malformed group, or `|gs|` when there is none. */
  function FirstMalformed(gs: seq<Group>): (k: nat)
    ensures k <= |gs|
    ensures forall i :: 0 <= i < k ==> gs[i].Group?
    ensures k < |gs| ==> gs[k].MalformedGroup?
  {
    if gs == [] || gs[0].MalformedGroup? then 0 else 1 + FirstMalformed(gs[1..])
  }

  /** Exact sum of the amounts of well-formed groups. */
  function Total(gs: seq<Group>): real
    requires WellFormed(gs)
  {
    if gs == [] then 0.0 else Total(gs[..|gs| - 1]) + gs[|gs| - 1].amount
  }

  /** Sum of the amounts of the groups whose service name is `s`. */
  function ServiceTotal(gs: seq<Group>, s: string): real
    requires WellFormed(gs)
  {
    if gs == [] then 0.0
    else
      var g := gs[|gs| - 1];
      ServiceTotal(gs[..|gs| - 1], s) + (if ServiceName(g) == s then g.amount else 0.0)
  }

  /** Some group in `gs` is charged to service `s`. */
  predicate Mentions(gs: seq<Group>, s: string)
    requires WellFormed(gs)
  {
    exists i :: 0 <= i < |gs| && ServiceName(gs[i]) == s
  }

  /** `m[k] += x`, with a missing key first set to zero. */
  function AddTo(m: map<string, real>, k: string, x: real): map<string, real> {
    m[k := (if k in m then m[k] else 0.0) + x]
  }

  /** The map `m` after each group's amount is added under its service name. */
  function ByService(m: map<string, real>, gs: seq<Group>): map<string, real>
    requires WellFormed(gs)
  {
    if gs == [] then m
    else
      var g := gs[|gs| - 1];
      AddTo(ByService(m, gs[..|gs| - 1]), ServiceName(g), g.amount)
  }

  // ---------------------------------------------------------------------
  // Structure of the flattened walk

  lemma FlattenResultsStep(rs: seq<TimeResult>, i: nat)
    requires i < |rs|
    ensures FlattenResults(rs[..i + 1]) == FlattenResults(rs[..i]) + GroupsOf(rs[i])
  {
    assert rs[..i + 1][..i] == rs[..i];
  }

  /** Time buckets without a `Groups` key contribute no groups to the walk. */
  lemma {:induction false} FlattenResultsWithoutGroups(rs: seq<TimeResult>)
    requires forall i :: 0 <= i < |rs| ==> rs[i].groups.None?
    ensures FlattenResults(rs) == []
  {
    if rs != [] {
      var n := |rs|;
      assert forall i :: 0 <= i < n - 1 ==> rs[..n - 1][i] == rs[i];
      FlattenResultsWithoutGroups(rs[..n - 1]);
    }
  }

  /** Walking the first `i` time buckets visits a prefix of all the groups. */
  lemma {:induction false} FlattenResultsPrefix(rs: seq<TimeResult>, i: nat)
    requires i <= |rs|
    ensures |FlattenResults(rs[..i])| <= |FlattenResults(rs)|
    ensures FlattenResults(rs)[..|FlattenResults(rs[..i])|] == FlattenResults(rs[..i])
    decreases |rs| - i
  {
    if i == |rs| {
      assert rs[..i] == rs;
    } else {
      var n := |rs|;
      FlattenResultsPrefix(rs[..n - 1], i);
      assert rs[..n - 1][..i] == rs[..i];
      assert FlattenResults(rs) == FlattenResults(rs[..n - 1]) + GroupsOf(rs[n - 1]);
    }
  }

  /** The first malformed group is the one after a well-formed prefix ending in a malformed group. */
  lemma FirstMalformedAt(gs: seq<Group>, k: nat)
    requires k < |gs| && gs[k].MalformedGroup?
    requires forall i :: 0 <= i < k ==> gs[i].Group?
    ensures FirstMalformed(gs) == k
  {
  }

  // ---------------------------------------------------------------------
  // Properties of the sums

  lemma {:induction false} TotalAppend(a: seq<Group>, b: seq<Group>)
    requires WellFormed(a) && WellFormed(b)
    ensures WellFormed(a + b)
    ensures Total(a + b) == Total(a) + Total(b)
    decreases |b|
  {
    if b != [] {
      var n := |b|;
      assert (a + b)[..|a + b| - 1] == a + b[..n - 1];
      TotalAppend(a, b[..n - 1]);
    } else {
      assert a + b == a;
    }
  }

  lemma {:induction false} ByServiceAppend(m: map<string, real>, a: seq<Group>, b: seq<Group>)
    requires WellFormed(a) && WellFormed(b)
    ensures WellFormed(a + b)
    ensures ByService(m, a + b) == ByService(ByService(m, a), b)
    decreases |b|
  {
    if b != [] {
      var n := |b|;
      assert (a + b)[..|a + b| - 1] == a + b[..n - 1];
      ByServiceAppend(m, a, b[..n - 1]);
    } else {
      assert a + b == a;
    }
  }

  /**
   * The per-service map holds exactly the services named by some group
   * (besides those already in `m`), and under each the sum of the amounts
   * of the groups with that name.
   */
  lemma {:induction false} ByServiceIsPerServiceSum(m: map<string, real>, gs: seq<Group>, s: string)
    requires WellFormed(gs)
    ensures s in ByService(m, gs) <==> (s in m || Mentions(gs, s))
    ensures s in ByService(m, gs) ==>
      ByService(m, gs)[s] == (if s in m then m[s] else 0.0) + ServiceTotal(gs, s)
  {
    if gs != [] {
      var n := |gs|;
      var init := gs[..n - 1];
      ByServiceIsPerServiceSum(m, init, s);
      assert forall i :: 0 <= i < n - 1 ==> init[i] == gs[i];
      if Mentions(gs, s) && ServiceName(gs[n - 1]) != s {
        var i :| 0 <= i < n && ServiceName(gs[i]) == s;
        assert ServiceName(init[i]) == s;
      }
      if !Mentions(init, s) && s !in m {
        assert ServiceTotal(init, s) == 0.0 by { ServiceTotalUnmentioned(init, s); }
      }
    }
  }

  lemma {:induction false} ServiceTotalUnmentioned(gs: seq<Group>, s: string)
    requires WellFormed(gs) && !Mentions(gs, s)
    ensures ServiceTotal(gs, s) == 0.0
  {
    if gs != [] {
      var n := |gs|;
      var init := gs[..n - 1];
      assert forall i :: 0 <= i < n - 1 ==> init[i] == gs[i];
      ServiceTotalUnmentioned(init, s);
    }
  }

  // ---------------------------------------------------------------------
  // The sum of the values of a map

  ghost function MapSum(m: map<string, real>): real
    decreases |m|
  {
    if m == map[] then 0.0
    else
      var k :| k in m;
      assert (m - {k}).Keys < m.Keys;
      m[k] + MapSum(m - {k})
  }

  /** The sum does not depend on the key the definition happens to pick. */
  lemma {:induction false} MapSumRemove(m: map<string, real>, k: string)
    requires k in m
    ensures MapSum(m) == m[k] + MapSum(m - {k})
    decreases |m|
  {
    var j :| j in m && MapSum(m) == m[j] + MapSum(m - {j});
    if j != k {
      assert (m - {j}).Keys < m.Keys;
      assert (m - {k}).Keys < m.Keys;
      MapSumRemove(m - {j}, k);
      MapSumRemove(m - {k}, j);
      assert m - {j} - {k} == m - {k} - {j};
    }
  }

  lemma MapSumUpdate(m: map<string, real>, k: string, v: real)
    ensures MapSum(m[k := v]) == v + MapSum(m - {k})
  {
    MapSumRemove(m[k := v], k);
    assert m[k := v] - {k} == m - {k};
  }

  lemma MapSumAddTo(m: map<string, real>, k: string, x: real)
    ensures MapSum(AddTo(m, k, x)) == MapSum(m) + x
  {
    MapSumUpdate(m, k, (if k in m then m[k] else 0.0) + x);
    if k in m {
      MapSumRemove(m, k);
    } else {
      assert m - {k} == m;
    }
  }

  /** Adding every group under its service adds exactly the groups' total to the map's sum. */
  lemma {:induction false} MapSumByService(m: map<string, real>, gs: seq<Group>)
    requires WellFormed(gs)
    ensures MapSum(ByService(m, gs)) == MapSum(m) + Total(gs)
  {
    if gs != [] {
      var n := |gs|;
      MapSumByService(m, gs[..n - 1]);
      MapSumAddTo(ByService(m, gs[..n - 1]), ServiceName(gs[n - 1]), gs[n - 1].amount);
    }
  }
}
