/**
 * The two computations of the deal handlers that only read the
 * collection: the filter query built from the optional criteria of
 * `GET /api/deals/filter`, and the group-by aggregations of
 * `GET /api/deals/analytics` (src/controller/deal_Controller.js).
 */
module DealQueries {
  import opened Common
  import opened Text
  import opened DealModel

  // ---------------------------------------------------------------------
  // Filter

  /** The query parameters the filter recognises; `None` is a parameter the
      request leaves out. */
  datatype Criteria = Criteria(
    stage: Option<string>,
    priority: Option<string>,
    status: Option<string>,
    executive: Option<string>,
    manager: Option<string>)

  const NoCriteria: Criteria := Criteria(None, None, None, None, None)

  datatype DealField = StageField | PriorityField | StatusField | ExecutiveField | ManagerField

  /** One entry of the filter object: an exact match, or a case-insensitive
      pattern (the `$regex` with option `i`, taken here as literal text). */
  datatype Condition =
    | Equals(field: DealField, value: string)
    | ContainsText(field: DealField, pattern: string)

  function FieldValue(d: Deal, f: DealField): Option<string> {
    match f
    case StageField => Some(d.stage)
    case PriorityField => Some(d.priority)
    case StatusField => Some(d.status)
    case ExecutiveField => d.executive
    case ManagerField => d.manager
  }

  predicate Holds(c: Condition, d: Deal) {
    match c
    case Equals(f, v) => FieldValue(d, f) == Some(v)
    case ContainsText(f, p) => FieldValue(d, f).Some? && ContainsIgnoringCase(FieldValue(d, f).value, p)
  }

  /** A document satisfies a filter object when it satisfies every entry. */
  predicate Satisfies(q: seq<Condition>, d: Deal) {
    forall i :: 0 <= i < |q| ==> Holds(q[i], d)
  }

  function EntryIf(cond: bool, c: Condition): seq<Condition> {
    if cond then [c] else []
  }

  /** The filter object, one entry per truthy parameter. */
  function BuildFilter(c: Criteria): (q: seq<Condition>)
    ensures |q| <= 5
    ensures (!Truthy(c.stage) && !Truthy(c.priority) && !Truthy(c.status)
             && !Truthy(c.executive) && !Truthy(c.manager)) ==> q == []
  {
    EntryIf(Truthy(c.stage), Equals(StageField, c.stage.GetOr("")))
    + EntryIf(Truthy(c.priority), Equals(PriorityField, c.priority.GetOr("")))
    + EntryIf(Truthy(c.status), Equals(StatusField, c.status.GetOr("")))
    + EntryIf(Truthy(c.executive), ContainsText(ExecutiveField, c.executive.GetOr("")))
    + EntryIf(Truthy(c.manager), ContainsText(ManagerField, c.manager.GetOr("")))
  }

  /** What a caller of the filter asks for: the conjunction of the supplied
      criteria, where an absent or empty criterion asks nothing. */
  predicate Wanted(c: Criteria, d: Deal) {
    && (Truthy(c.stage) ==> d.stage == c.stage.value)
    && (Truthy(c.priority) ==> d.priority == c.priority.value)
    && (Truthy(c.status) ==> d.status == c.status.value)
    && (Truthy(c.executive) ==> d.executive.Some? && ContainsIgnoringCase(d.executive.value, c.executive.value))
    && (Truthy(c.manager) ==> d.manager.Some? && ContainsIgnoringCase(d.manager.value, c.manager.value))
  }

  lemma SatisfiesAppend(a: seq<Condition>, b: seq<Condition>, d: Deal)
    ensures Satisfies(a + b, d) <==> Satisfies(a, d) && Satisfies(b, d)
  {
    if Satisfies(a, d) && Satisfies(b, d) {
      forall i | 0 <= i < |a + b| ensures Holds((a + b)[i], d) {
        if i >= |a| {
          assert (a + b)[i] == b[i - |a|];
        }
      }
    }
    if Satisfies(a + b, d) {
      forall i | 0 <= i < |a| ensures Holds(a[i], d) {
        assert (a + b)[i] == a[i];
      }
      forall i | 0 <= i < |b| ensures Holds(b[i], d) {
        assert (a + b)[|a| + i] == b[i];
      }
    }
  }

  lemma SatisfiesEntry(cond: bool, c: Condition, d: Deal)
    ensures Satisfies(EntryIf(cond, c), d) <==> (cond ==> Holds(c, d))
  {
    if cond {
      assert EntryIf(cond, c)[0] == c;
    }
  }

  /** An exact-match entry, present only for a truthy parameter. */
  lemma EqualsEntry(o: Option<string>, f: DealField, d: Deal)
    ensures Satisfies(EntryIf(Truthy(o), Equals(f, o.GetOr(""))), d)
      <==> (Truthy(o) ==> FieldValue(d, f) == Some(o.value))
  {
    SatisfiesEntry(Truthy(o), Equals(f, o.GetOr("")), d);
  }

  /** A pattern entry, present only for a truthy parameter. */
  lemma ContainsEntry(o: Option<string>, f: DealField, d: Deal)
    ensures Satisfies(EntryIf(Truthy(o), ContainsText(f, o.GetOr(""))), d)
      <==> (Truthy(o) ==> FieldValue(d, f).Some? && ContainsIgnoringCase(FieldValue(d, f).value, o.value))
  {
    SatisfiesEntry(Truthy(o), ContainsText(f, o.GetOr("")), d);
  }

  /** The filter object selects exactly the deals the criteria ask for. */
  lemma {:induction false} FilterMeaning(c: Criteria, d: Deal)
    ensures Satisfies(BuildFilter(c), d) <==> Wanted(c, d)
  {
    EqualsEntry(c.stage, StageField, d);
    EqualsEntry(c.priority, PriorityField, d);
    EqualsEntry(c.status, StatusField, d);
    ContainsEntry(c.executive, ExecutiveField, d);
    ContainsEntry(c.manager, ManagerField, d);
    SatisfiesAll(
      EntryIf(Truthy(c.stage), Equals(StageField, c.stage.GetOr(""))),
      EntryIf(Truthy(c.priority), Equals(PriorityField, c.priority.GetOr(""))),
      EntryIf(Truthy(c.status), Equals(StatusField, c.status.GetOr(""))),
      EntryIf(Truthy(c.executive), ContainsText(ExecutiveField, c.executive.GetOr(""))),
      EntryIf(Truthy(c.manager), ContainsText(ManagerField, c.manager.GetOr(""))),
      d);
  }

  /** A filter object built from five parts is satisfied when each part is. */
  lemma SatisfiesAll(e1: seq<Condition>, e2: seq<Condition>, e3: seq<Condition>,
                     e4: seq<Condition>, e5: seq<Condition>, d: Deal)
    ensures Satisfies(e1 + e2 + e3 + e4 + e5, d)
      <==> Satisfies(e1, d) && Satisfies(e2, d) && Satisfies(e3, d) && Satisfies(e4, d) && Satisfies(e5, d)
  {
    SatisfiesAppend(e1, e2, d);
    SatisfiesAppend(e1 + e2, e3, d);
    SatisfiesAppend(e1 + e2 + e3, e4, d);
    SatisfiesAppend(e1 + e2 + e3 + e4, e5, d);
  }

  /** No criterion is truthy, so the filter object stays empty. */
  predicate Unfiltered(c: Criteria) {
    && !Truthy(c.stage) && !Truthy(c.priority) && !Truthy(c.status)
    && !Truthy(c.executive) && !Truthy(c.manager)
  }

  /** With no usable criterion the filter selects every deal. */
  lemma NoCriteriaSelectsAll(c: Criteria, d: Deal)
    requires Unfiltered(c)
    ensures Satisfies(BuildFilter(c), d)
  {
  }

  /** `executive=ann` selects a deal whose executive is "Anna Smith". */
  lemma ExecutiveMatchIgnoresCase(d: Deal)
    requires d.executive == Some("Anna Smith")
    ensures Satisfies(BuildFilter(NoCriteria.(executive := Some("ann"))), d)
  {
    var c := NoCriteria.(executive := Some("ann"));
    assert Lower("ann") == "ann";
    assert Lower("Anna Smith")[..3] == "ann";
    FilterMeaning(c, d);
  }

  // ---------------------------------------------------------------------
  // Analytics

  /** The document field a `$group` stage groups on. */
  datatype GroupField = ByStage | ByPriority | ByStatus

  function KeyOf(d: Deal, f: GroupField): string {
    match f
    case ByStage => d.stage
    case ByPriority => d.priority
    case ByStatus => d.status
  }

  /** `$sum: '$amount'` adds nothing for a document without an amount. */
  function AmountOf(d: Deal): int {
    if d.amount.Some? then d.amount.value else 0
  }

  /** One output document of a `$group` stage: the key, `$sum: 1`,
      `$sum: '$amount'` and, for the mean probability, the sum it divides
      by `count`. Only the stage grouping computes a mean probability; the
      priority and status groupings compute `count` and `totalAmount` alone,
      so `probabilitySum` means nothing in their groups. */
  datatype Group = Group(key: string, count: nat, totalAmount: int, probabilitySum: int)

  /** A mean carried as its sum and its count; a count of 0 stands for the
      literal 0 of the summary fallback. */
  datatype Mean = Mean(sum: int, count: nat)

  datatype Summary = Summary(totalDeals: nat, totalValue: int, avgAmount: Mean, avgProbability: Mean)

  datatype Analytics = Analytics(
    byStage: seq<Group>,
    byPriority: seq<Group>,
    byStatus: seq<Group>,
    summary: Summary)

  function CountKey(ds: seq<Deal>, f: GroupField, k: string): nat
    decreases |ds|
  {
    if ds == [] then 0
    else CountKey(ds[..|ds| - 1], f, k) + (if KeyOf(ds[|ds| - 1], f) == k then 1 else 0)
  }

  function AmountKey(ds: seq<Deal>, f: GroupField, k: string): int
    decreases |ds|
  {
    if ds == [] then 0
    else AmountKey(ds[..|ds| - 1], f, k) + (if KeyOf(ds[|ds| - 1], f) == k then AmountOf(ds[|ds| - 1]) else 0)
  }

  function ProbabilityKey(ds: seq<Deal>, f: GroupField, k: string): int
    decreases |ds|
  {
    if ds == [] then 0
    else ProbabilityKey(ds[..|ds| - 1], f, k) + (if KeyOf(ds[|ds| - 1], f) == k then ds[|ds| - 1].probability else 0)
  }

  function TotalAmount(ds: seq<Deal>): int
    decreases |ds|
  {
    if ds == [] then 0 else TotalAmount(ds[..|ds| - 1]) + AmountOf(ds[|ds| - 1])
  }

  function TotalProbability(ds: seq<Deal>): int
    decreases |ds|
  {
    if ds == [] then 0 else TotalProbability(ds[..|ds| - 1]) + ds[|ds| - 1].probability
  }

  predicate DistinctKeys(gs: seq<Group>) {
    forall i, j :: 0 <= i < j < |gs| ==> gs[i].key != gs[j].key
  }

  predicate HasGroup(gs: seq<Group>, k: string) {
    exists i :: 0 <= i < |gs| && gs[i].key == k
  }

  function SumCounts(gs: seq<Group>): int
    decreases |gs|
  {
    if gs == [] then 0 else gs[0].count + SumCounts(gs[1..])
  }

  function SumAmounts(gs: seq<Group>): int
    decreases |gs|
  {
    if gs == [] then 0 else gs[0].totalAmount + SumAmounts(gs[1..])
  }

  function SumProbabilities(gs: seq<Group>): int
    decreases |gs|
  {
    if gs == [] then 0 else gs[0].probabilitySum + SumProbabilities(gs[1..])
  }

  /** The position of the group with key `k`, or `|gs|` when there is
      none. */
  function GroupIndex(gs: seq<Group>, k: string): (i: nat)
    ensures i <= |gs|
    ensures i < |gs| ==> gs[i].key == k
    ensures i == |gs| <==> !HasGroup(gs, k)
    decreases |gs|
  {
    if gs == [] then 0
    else if gs[0].key == k then 0
    else
      var i := GroupIndex(gs[1..], k);
      assert HasGroup(gs, k) ==> HasGroup(gs[1..], k) by {
        if HasGroup(gs, k) {
          var j :| 0 <= j < |gs| && gs[j].key == k;
          assert gs[1..][j - 1].key == k;
        }
      }
      assert i < |gs[1..]| ==> gs[1..][i].key == k;
      1 + i
  }

  /** The group `g` after it also accounts for `d`. */
  function Bump(g: Group, d: Deal): Group {
    g.(count := g.count + 1,
       totalAmount := g.totalAmount + AmountOf(d),
       probabilitySum := g.probabilitySum + d.probability)
  }

  /** Accounts for one more document: its group grows, or a new group is
      appended for a key not seen before. */
  function AddToGroups(gs: seq<Group>, d: Deal, f: GroupField): (r: seq<Group>)
    requires DistinctKeys(gs)
    ensures DistinctKeys(r)
  {
    var i := GroupIndex(gs, KeyOf(d, f));
    if i < |gs| then gs[i := Bump(gs[i], d)] else gs + [Group(KeyOf(d, f), 1, AmountOf(d), d.probability)]
  }

  /** `{ $group: { _id: '$<field>', ... } }`. MongoDB promises no order for
      the groups; the model lists them in order of first occurrence of
      their key. */
  function GroupBy(ds: seq<Deal>, f: GroupField): (gs: seq<Group>)
    ensures DistinctKeys(gs)
    decreases |ds|
  {
    if ds == [] then [] else AddToGroups(GroupBy(ds[..|ds| - 1], f), ds[|ds| - 1], f)
  }

  /** Every document's key has a group. */
  lemma {:induction false} GroupsCover(ds: seq<Deal>, f: GroupField)
    ensures forall i :: 0 <= i < |ds| ==> HasGroup(GroupBy(ds, f), KeyOf(ds[i], f))
    decreases |ds|
  {
    if ds != [] {
      var prefix := ds[..|ds| - 1];
      var d := ds[|ds| - 1];
      GroupsCover(prefix, f);
      var before := GroupBy(prefix, f);
      var gs := AddToGroups(before, d, f);
      var at := GroupIndex(before, KeyOf(d, f));
      assert gs == GroupBy(ds, f);
      assert forall i :: 0 <= i < |before| ==> gs[i].key == before[i].key;
      forall i | 0 <= i < |ds| ensures HasGroup(gs, KeyOf(ds[i], f)) {
        if i < |prefix| {
          assert ds[i] == prefix[i];
          var j :| 0 <= j < |before| && before[j].key == KeyOf(prefix[i], f);
          assert gs[j].key == before[j].key;
        } else {
          assert gs[at].key == KeyOf(d, f);
        }
      }
    }
  }

  /** One group per distinct key: each group counts and sums exactly the
      documents with its key, and every document's key has a group. */
  lemma {:induction false} GroupByCorrect(ds: seq<Deal>, f: GroupField)
    ensures var gs := GroupBy(ds, f);
      && (forall i :: 0 <= i < |gs| ==>
            gs[i].count == CountKey(ds, f, gs[i].key) && gs[i].count > 0
            && gs[i].totalAmount == AmountKey(ds, f, gs[i].key))
      && (forall i :: 0 <= i < |ds| ==> HasGroup(gs, KeyOf(ds[i], f)))
    decreases |ds|
  {
    GroupsCover(ds, f);
    if ds != [] {
      var prefix := ds[..|ds| - 1];
      var d := ds[|ds| - 1];
      var k := KeyOf(d, f);
      GroupByCorrect(prefix, f);
      var before := GroupBy(prefix, f);
      var gs := AddToGroups(before, d, f);
      var at := GroupIndex(before, k);
      assert gs == GroupBy(ds, f);
      forall i | 0 <= i < |gs|
        ensures gs[i].count == CountKey(ds, f, gs[i].key) && gs[i].count > 0
        ensures gs[i].totalAmount == AmountKey(ds, f, gs[i].key)
      {
        if i >= |before| {
          CountAbsentKey(prefix, f, k, before);
        } else if i != at {
          assert before[i].key != k;
        }
      }
    }
  }

  /** Each group's `probabilitySum` is the sum of the probabilities of the
      documents in `ds` with its key. */
  predicate ProbabilitiesSummed(ds: seq<Deal>, f: GroupField, gs: seq<Group>) {
    forall i :: 0 <= i < |gs| ==> gs[i].probabilitySum == ProbabilityKey(ds, f, gs[i].key)
  }

  /** The mean probability divides `probabilitySum` by `count`: each group's
      sum is taken over exactly the documents with its key. */
  lemma {:induction false} GroupProbabilities(ds: seq<Deal>, f: GroupField)
    ensures ProbabilitiesSummed(ds, f, GroupBy(ds, f))
    decreases |ds|
  {
    if ds != [] {
      var prefix := ds[..|ds| - 1];
      var d := ds[|ds| - 1];
      var k := KeyOf(d, f);
      GroupProbabilities(prefix, f);
      GroupsCover(prefix, f);
      var before := GroupBy(prefix, f);
      var gs := AddToGroups(before, d, f);
      assert gs == GroupBy(ds, f);
      forall i | 0 <= i < |gs| ensures gs[i].probabilitySum == ProbabilityKey(ds, f, gs[i].key) {
        if i >= |before| {
          ProbabilityAbsentKey(prefix, f, k, before);
        } else {
          assert gs[i].key == before[i].key;
        }
      }
    }
  }

  lemma {:induction false} ProbabilityAbsentKey(ds: seq<Deal>, f: GroupField, k: string, gs: seq<Group>)
    requires forall i :: 0 <= i < |ds| ==> HasGroup(gs, KeyOf(ds[i], f))
    requires !HasGroup(gs, k)
    ensures ProbabilityKey(ds, f, k) == 0
    decreases |ds|
  {
    if ds != [] {
      var prefix := ds[..|ds| - 1];
      assert forall i :: 0 <= i < |prefix| ==> prefix[i] == ds[i];
      ProbabilityAbsentKey(prefix, f, k, gs);
      assert HasGroup(gs, KeyOf(ds[|ds| - 1], f));
    }
  }

  /** A key without a group occurs in no document. */
  lemma {:induction false} CountAbsentKey(ds: seq<Deal>, f: GroupField, k: string, gs: seq<Group>)
    requires forall i :: 0 <= i < |ds| ==> HasGroup(gs, KeyOf(ds[i], f))
    requires !HasGroup(gs, k)
    ensures CountKey(ds, f, k) == 0 && AmountKey(ds, f, k) == 0
    decreases |ds|
  {
    if ds != [] {
      var prefix := ds[..|ds| - 1];
      assert forall i :: 0 <= i < |prefix| ==> prefix[i] == ds[i];
      CountAbsentKey(prefix, f, k, gs);
      assert HasGroup(gs, KeyOf(ds[|ds| - 1], f));
    }
  }

  lemma {:induction false} SumsUpdate(gs: seq<Group>, i: nat, g: Group)
    requires i < |gs|
    ensures SumCounts(gs[i := g]) == SumCounts(gs) - gs[i].count + g.count
    ensures SumAmounts(gs[i := g]) == SumAmounts(gs) - gs[i].totalAmount + g.totalAmount
    ensures SumProbabilities(gs[i := g]) == SumProbabilities(gs) - gs[i].probabilitySum + g.probabilitySum
    decreases |gs|
  {
    if i == 0 {
      assert gs[i := g][1..] == gs[1..];
    } else {
      SumsUpdate(gs[1..], i - 1, g);
      assert gs[i := g][1..] == gs[1..][i - 1 := g];
    }
  }

  lemma {:induction false} SumsAppend(gs: seq<Group>, g: Group)
    ensures SumCounts(gs + [g]) == SumCounts(gs) + g.count
    ensures SumAmounts(gs + [g]) == SumAmounts(gs) + g.totalAmount
    ensures SumProbabilities(gs + [g]) == SumProbabilities(gs) + g.probabilitySum
    decreases |gs|
  {
    if gs != [] {
      SumsAppend(gs[1..], g);
      assert (gs + [g])[1..] == gs[1..] + [g];
    }
  }

  lemma AddToGroupsSums(gs: seq<Group>, d: Deal, f: GroupField)
    requires DistinctKeys(gs)
    ensures SumCounts(AddToGroups(gs, d, f)) == SumCounts(gs) + 1
    ensures SumAmounts(AddToGroups(gs, d, f)) == SumAmounts(gs) + AmountOf(d)
    ensures SumProbabilities(AddToGroups(gs, d, f)) == SumProbabilities(gs) + d.probability
  {
    var i := GroupIndex(gs, KeyOf(d, f));
    if i < |gs| {
      SumsUpdate(gs, i, Bump(gs[i], d));
    } else {
      SumsAppend(gs, Group(KeyOf(d, f), 1, AmountOf(d), d.probability));
    }
  }

  /** The groups partition the collection: their counts add up to the
      number of documents, their totals to the sum of all amounts, and
      their probability sums to the sum of all probabilities. */
  lemma {:induction false} GroupsPartition(ds: seq<Deal>, f: GroupField)
    ensures SumCounts(GroupBy(ds, f)) == |ds|
    ensures SumAmounts(GroupBy(ds, f)) == TotalAmount(ds)
    ensures SumProbabilities(GroupBy(ds, f)) == TotalProbability(ds)
    decreases |ds|
  {
    if ds != [] {
      var prefix := ds[..|ds| - 1];
      GroupsPartition(prefix, f);
      assert GroupBy(ds, f) == AddToGroups(GroupBy(prefix, f), ds[|ds| - 1], f);
      AddToGroupsSums(GroupBy(prefix, f), ds[|ds| - 1], f);
    }
  }

  /** The summary document: `totalStats[0]` when the collection is not
      empty, the all-zero fallback when it is. */
  function SummaryOf(ds: seq<Deal>): (s: Summary)
    ensures ds == [] ==> s == Summary(0, 0, Mean(0, 0), Mean(0, 0))
  {
    if ds == [] then Summary(0, 0, Mean(0, 0), Mean(0, 0))
    else Summary(|ds|, TotalAmount(ds), Mean(TotalAmount(ds), |ds|), Mean(TotalProbability(ds), |ds|))
  }

  /** The analytics answer for the collection scanned in the order `ds`. */
  function AnalyticsOf(ds: seq<Deal>): (a: Analytics)
    ensures a.summary.totalDeals == |ds|
    ensures ds == [] ==> a.byStage == [] && a.byPriority == [] && a.byStatus == []
  {
    Analytics(GroupBy(ds, ByStage), GroupBy(ds, ByPriority), GroupBy(ds, ByStatus), SummaryOf(ds))
  }

  /** Each of the three group-bys partitions the collection the summary
      counts: counts add up to `totalDeals`, totals to `totalValue`. The
      summary's two means divide those totals, and the probability sums of
      the stage groups, by the number of deals. */
  lemma AnalyticsConsistent(ds: seq<Deal>)
    ensures var a := AnalyticsOf(ds);
      && SumCounts(a.byStage) == a.summary.totalDeals
      && SumCounts(a.byPriority) == a.summary.totalDeals
      && SumCounts(a.byStatus) == a.summary.totalDeals
      && SumAmounts(a.byStage) == a.summary.totalValue
      && SumAmounts(a.byPriority) == a.summary.totalValue
      && SumAmounts(a.byStatus) == a.summary.totalValue
      && a.summary.avgAmount == Mean(a.summary.totalValue, a.summary.totalDeals)
      && a.summary.avgProbability == Mean(SumProbabilities(a.byStage), a.summary.totalDeals)
  {
    GroupsPartition(ds, ByStage);
    GroupsPartition(ds, ByPriority);
    GroupsPartition(ds, ByStatus);
  }
}
