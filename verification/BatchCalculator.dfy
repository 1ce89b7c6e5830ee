/** The batch calculator computes once per group of identical miners instead of once per entry. */
module BatchCalculator {
  import opened Values

  // What distinguishes groups: the parsed fields of an entry except its quantity and number.
  datatype GroupKey = GroupKey(
    model: string, power: real, electricityCost: real, hashrate: real, decayRate: real, price: real)

  datatype Entry = Entry(key: GroupKey, quantity: int, number: string)

  datatype Profit = Profit(profit: real, revenue: real, cost: real)

  function Plus(a: Profit, b: Profit): Profit {
    Profit(a.profit + b.profit, a.revenue + b.revenue, a.cost + b.cost)
  }

  const NOTHING := Profit(0.0, 0.0, 0.0)

  datatype ResultEntry = ResultEntry(key: GroupKey, quantity: int, numbers: seq<string>, totalCost: real, daily: Profit)

  // The profitability calculation for a key and a quantity; None where it raises.
  type Calculation = (GroupKey, int) -> Option<Profit>

  // ---------------------------------------------------------------- what a group contains

  function QuantityOf(entries: seq<Entry>, k: GroupKey): int {
    if entries == [] then 0 else
      var e := entries[|entries| - 1];
      QuantityOf(entries[..|entries| - 1], k) + if e.key == k then e.quantity else 0
  }

  /** The in-order subsequence of the non-empty miner numbers with this key. */
  function NumbersOf(entries: seq<Entry>, k: GroupKey): seq<string> {
    if entries == [] then [] else
      var rest := NumbersOf(entries[..|entries| - 1], k);
      var e := entries[|entries| - 1];
      if e.key == k && e.number != "" then rest + [e.number] else rest
  }

  /** The keys in the order of their first appearance. */
  function KeysOf(entries: seq<Entry>): seq<GroupKey> {
    if entries == [] then [] else
      var rest := KeysOf(entries[..|entries| - 1]);
      var k := entries[|entries| - 1].key;
      if k in rest then rest else rest + [k]
  }

  ghost predicate Distinct<T>(s: seq<T>) {
    forall i, j :: 0 <= i < j < |s| ==> s[i] != s[j]
  }

  lemma {:induction false} KeysAreDistinct(entries: seq<Entry>)
    ensures Distinct(KeysOf(entries))
  {
    if entries != [] {
      KeysAreDistinct(entries[..|entries| - 1]);
    }
  }

  lemma {:induction false} KeysAreTheKeys(entries: seq<Entry>)
    ensures forall e :: e in entries ==> e.key in KeysOf(entries)
    ensures forall k :: k in KeysOf(entries) ==> exists e :: e in entries && e.key == k
  {
    if entries != [] {
      var n := |entries| - 1;
      KeysAreTheKeys(entries[..n]);
      assert entries == entries[..n] + [entries[n]];
      forall k | k in KeysOf(entries) ensures exists e :: e in entries && e.key == k {
        if k in KeysOf(entries[..n]) {
          var e :| e in entries[..n] && e.key == k;
          assert e in entries;
        } else {
          assert entries[n] in entries;
        }
      }
    }
  }

  lemma KeysAppend(entries: seq<Entry>, e: Entry)
    ensures KeysOf(entries + [e]) == if e.key in KeysOf(entries) then KeysOf(entries) else KeysOf(entries) + [e.key]
  {
    assert (entries + [e])[..|entries|] == entries;
  }

  lemma QuantityAppend(entries: seq<Entry>, e: Entry, k: GroupKey)
    ensures QuantityOf(entries + [e], k) == QuantityOf(entries, k) + if e.key == k then e.quantity else 0
  {
    assert (entries + [e])[..|entries|] == entries;
  }

  lemma NumbersAppend(entries: seq<Entry>, e: Entry, k: GroupKey)
    ensures NumbersOf(entries + [e], k) ==
            if e.key == k && e.number != "" then NumbersOf(entries, k) + [e.number] else NumbersOf(entries, k)
  {
    assert (entries + [e])[..|entries|] == entries;
  }

  lemma {:induction false} AbsentIsEmpty(entries: seq<Entry>, k: GroupKey)
    requires k !in KeysOf(entries)
    ensures QuantityOf(entries, k) == 0 && NumbersOf(entries, k) == []
  {
    if entries != [] {
      AbsentIsEmpty(entries[..|entries| - 1], k);
    }
  }

  /** The insertion order of the dictionaries and the dictionaries themselves, after these entries. */
  ghost predicate Tallied(entries: seq<Entry>, order: seq<GroupKey>,
                          groups: map<GroupKey, int>, numbers: map<GroupKey, seq<string>>) {
    && order == KeysOf(entries)
    && (forall k :: k in groups <==> k in order)
    && (forall k :: k in numbers <==> k in order)
    && (forall k :: k in order ==> groups[k] == QuantityOf(entries, k))
    && (forall k :: k in order ==> numbers[k] == NumbersOf(entries, k))
  }

  function Lengthened(known: seq<string>, number: string): seq<string> {
    if number != "" then known + [number] else known
  }

  /** The body of the grouping loop. */
  method AddMiner(miner: Entry, order: seq<GroupKey>, groups: map<GroupKey, int>, numbers: map<GroupKey, seq<string>>)
      returns (order': seq<GroupKey>, groups': map<GroupKey, int>, numbers': map<GroupKey, seq<string>>)
    requires groups.Keys == numbers.Keys
    ensures var k := miner.key;
            if k in groups then
              && order' == order
              && groups' == groups[k := groups[k] + miner.quantity]
              && numbers' == numbers[k := Lengthened(numbers[k], miner.number)]
            else
              && order' == order + [k]
              && groups' == groups[k := miner.quantity]
              && numbers' == numbers[k := Lengthened([], miner.number)]
  {
    order', groups', numbers' := order, groups, numbers;
    var k := miner.key;
    if k !in groups {
      order' := order + [k];
      groups' := groups'[k := 0];
      numbers' := numbers'[k := []];
    }
    groups' := groups'[k := groups'[k] + miner.quantity];
    if miner.number != "" {
      numbers' := numbers'[k := numbers'[k] + [miner.number]];
    }
  }

  lemma KnownKey(entries: seq<Entry>, e: Entry, order: seq<GroupKey>,
                 groups: map<GroupKey, int>, numbers: map<GroupKey, seq<string>>)
    requires Tallied(entries, order, groups, numbers) && e.key in groups
    ensures Tallied(entries + [e], order, groups[e.key := groups[e.key] + e.quantity],
                    numbers[e.key := Lengthened(numbers[e.key], e.number)])
  {
    KeysAppend(entries, e);
    forall k | k in order
      ensures QuantityOf(entries + [e], k) == groups[e.key := groups[e.key] + e.quantity][k]
      ensures NumbersOf(entries + [e], k) == numbers[e.key := Lengthened(numbers[e.key], e.number)][k]
    {
      QuantityAppend(entries, e, k);
      NumbersAppend(entries, e, k);
    }
  }

  lemma NewKey(entries: seq<Entry>, e: Entry, order: seq<GroupKey>,
               groups: map<GroupKey, int>, numbers: map<GroupKey, seq<string>>)
    requires Tallied(entries, order, groups, numbers) && e.key !in groups
    ensures Tallied(entries + [e], order + [e.key], groups[e.key := e.quantity],
                    numbers[e.key := Lengthened([], e.number)])
  {
    KeysAppend(entries, e);
    AbsentIsEmpty(entries, e.key);
    forall k | k in order + [e.key]
      ensures QuantityOf(entries + [e], k) == groups[e.key := e.quantity][k]
      ensures NumbersOf(entries + [e], k) == numbers[e.key := Lengthened([], e.number)][k]
    {
      QuantityAppend(entries, e, k);
      NumbersAppend(entries, e, k);
    }
  }

  /** Counts one more miner among those seen. */
  method CountMiner(ghost seen: seq<Entry>, miner: Entry,
                    order: seq<GroupKey>, groups: map<GroupKey, int>, numbers: map<GroupKey, seq<string>>)
      returns (order': seq<GroupKey>, groups': map<GroupKey, int>, numbers': map<GroupKey, seq<string>>)
    requires Tallied(seen, order, groups, numbers)
    ensures Tallied(seen + [miner], order', groups', numbers')
  {
    assert groups.Keys == numbers.Keys;
    order', groups', numbers' := AddMiner(miner, order, groups, numbers);
    if miner.key in groups {
      KnownKey(seen, miner, order, groups, numbers);
    } else {
      NewKey(seen, miner, order, groups, numbers);
    }
  }

  /** The grouping loop; `order` is the insertion order of the dictionaries. */
  method GroupMiners(miners: seq<Entry>)
      returns (order: seq<GroupKey>, groups: map<GroupKey, int>, numbers: map<GroupKey, seq<string>>)
    ensures Tallied(miners, order, groups, numbers)
  {
    order, groups, numbers := [], map[], map[];
    for i := 0 to |miners|
      invariant Tallied(miners[..i], order, groups, numbers)
    {
      order, groups, numbers := CountMiner(miners[..i], miners[i], order, groups, numbers);
      assert miners[..i + 1] == miners[..i] + [miners[i]];
    }
    assert miners[..|miners|] == miners;
  }

  // ---------------------------------------------------------------- totals

  /** What a calculation adds to the totals: nothing if it raises. */
  function Contribution(compute: Calculation, k: GroupKey, quantity: int): Profit {
    match compute(k, quantity)
    case None => NOTHING
    case Some(p) => p
  }

  /** One calculation per key of the list, for the quantity of that key; failures are skipped. */
  function GroupedTotal(compute: Calculation, keys: seq<GroupKey>, entries: seq<Entry>): Profit {
    if keys == [] then NOTHING else
      var k := keys[|keys| - 1];
      Plus(GroupedTotal(compute, keys[..|keys| - 1], entries), Contribution(compute, k, QuantityOf(entries, k)))
  }

  /** One calculation per entry. */
  function PerEntryTotal(compute: Calculation, entries: seq<Entry>): Profit {
    if entries == [] then NOTHING else
      var e := entries[|entries| - 1];
      Plus(PerEntryTotal(compute, entries[..|entries| - 1]), Contribution(compute, e.key, e.quantity))
  }

  function Investment(k: GroupKey, quantity: int): real {
    k.price * quantity as real
  }

  /** One result per key whose calculation succeeds, in the order of the keys. */
  function ResultsOf(compute: Calculation, keys: seq<GroupKey>, entries: seq<Entry>): seq<ResultEntry> {
    if keys == [] then [] else
      var k := keys[|keys| - 1];
      var q := QuantityOf(entries, k);
      var rest := ResultsOf(compute, keys[..|keys| - 1], entries);
      match compute(k, q)
      case None => rest
      case Some(p) => rest + [ResultEntry(k, q, NumbersOf(entries, k), Investment(k, q), p)]
  }

  /** The accumulation loop. */
  method Accumulate(compute: Calculation, miners: seq<Entry>) returns (results: seq<ResultEntry>, total: Profit)
    ensures total == GroupedTotal(compute, KeysOf(miners), miners)
    ensures results == ResultsOf(compute, KeysOf(miners), miners)
  {
    var order, groups, numbers := GroupMiners(miners);
    results, total := [], NOTHING;
    for i := 0 to |order|
      invariant total == GroupedTotal(compute, order[..i], miners)
      invariant results == ResultsOf(compute, order[..i], miners)
    {
      assert order[..i + 1][..i] == order[..i];
      var k := order[i];
      var quantity := groups[k];
      var totalInvestment := Investment(k, quantity);
      match compute(k, quantity) {
        case None =>
        case Some(p) =>
          results := results + [ResultEntry(k, quantity, numbers[k], totalInvestment, p)];
          total := Plus(total, p);
      }
    }
    assert order[..|order|] == order;
  }

  function SumOf(r: seq<ResultEntry>): Profit {
    if r == [] then NOTHING else Plus(SumOf(r[..|r| - 1]), r[|r| - 1].daily)
  }

  function KeysIn(r: seq<ResultEntry>): seq<GroupKey> {
    if r == [] then [] else KeysIn(r[..|r| - 1]) + [r[|r| - 1].key]
  }

  lemma SumAppend(r: seq<ResultEntry>, x: ResultEntry)
    ensures SumOf(r + [x]) == Plus(SumOf(r), x.daily) && KeysIn(r + [x]) == KeysIn(r) + [x.key]
  {
    assert (r + [x])[..|r|] == r;
  }

  lemma {:induction false} ResultsSum(compute: Calculation, keys: seq<GroupKey>, entries: seq<Entry>)
    ensures SumOf(ResultsOf(compute, keys, entries)) == GroupedTotal(compute, keys, entries)
  {
    if keys != [] {
      var n := |keys| - 1;
      var k, before := keys[n], ResultsOf(compute, keys[..n], entries);
      ResultsSum(compute, keys[..n], entries);
      match compute(k, QuantityOf(entries, k)) {
        case None =>
        case Some(p) =>
          var q := QuantityOf(entries, k);
          SumAppend(before, ResultEntry(k, q, NumbersOf(entries, k), Investment(k, q), p));
      }
    }
  }

  lemma {:induction false} ResultsKeys(compute: Calculation, keys: seq<GroupKey>, entries: seq<Entry>)
    requires Distinct(keys)
    ensures var r := KeysIn(ResultsOf(compute, keys, entries));
            Distinct(r) && forall k :: k in r <==> k in keys && compute(k, QuantityOf(entries, k)).Some?
  {
    if keys != [] {
      var n := |keys| - 1;
      var k, before := keys[n], ResultsOf(compute, keys[..n], entries);
      ResultsKeys(compute, keys[..n], entries);
      assert keys == keys[..n] + [k];
      assert k !in keys[..n];
      match compute(k, QuantityOf(entries, k)) {
        case None =>
        case Some(p) =>
          var q := QuantityOf(entries, k);
          SumAppend(before, ResultEntry(k, q, NumbersOf(entries, k), Investment(k, q), p));
      }
    }
  }

  /** The displayed results add up to the totals, and name each key at most once. */
  lemma ResultsAddUp(compute: Calculation, keys: seq<GroupKey>, entries: seq<Entry>)
    requires Distinct(keys)
    ensures var r := ResultsOf(compute, keys, entries);
            && SumOf(r) == GroupedTotal(compute, keys, entries)
            && (forall k :: k in KeysIn(r) <==> k in keys && compute(k, QuantityOf(entries, k)).Some?)
            && Distinct(KeysIn(r))
  {
    ResultsSum(compute, keys, entries);
    ResultsKeys(compute, keys, entries);
  }

  /** The calculation fails for both quantities or neither, and gives the sum for their sum. */
  predicate AddsUp(compute: Calculation, k: GroupKey, p: int, q: int) {
    && (compute(k, p).Some? <==> compute(k, q).Some?)
    && (compute(k, p).Some? && compute(k, q).Some? && compute(k, p + q).Some? ==>
          compute(k, p + q).value == Plus(compute(k, p).value, compute(k, q).value))
  }

  /** Additive in the quantity, and failing or not by key alone. */
  ghost predicate Additive(compute: Calculation) {
    forall k, p, q :: AddsUp(compute, k, p, q)
  }

  lemma ContributionsAdd(compute: Calculation, k: GroupKey, p: int, q: int)
    requires Additive(compute)
    ensures Contribution(compute, k, p + q) == Plus(Contribution(compute, k, p), Contribution(compute, k, q))
    ensures Contribution(compute, k, 0) == NOTHING
  {
    assert AddsUp(compute, k, p, q) && AddsUp(compute, k, p, p + q) && AddsUp(compute, k, 0, 0);
  }

  /** An entry of another key changes no contribution of these. */
  lemma {:induction false} OtherKeysKeep(compute: Calculation, keys: seq<GroupKey>, entries: seq<Entry>, e: Entry)
    requires e.key !in keys
    ensures GroupedTotal(compute, keys, entries + [e]) == GroupedTotal(compute, keys, entries)
  {
    if keys != [] {
      var n := |keys| - 1;
      OtherKeysKeep(compute, keys[..n], entries, e);
      QuantityAppend(entries, e, keys[n]);
    }
  }

  lemma PlusMoves(a: Profit, b: Profit, c: Profit)
    ensures Plus(Plus(a, b), c) == Plus(Plus(a, c), b) == Plus(a, Plus(b, c))
  {
  }

  /** What one more entry adds to a grouped total whose keys include its own. */
  lemma {:induction false} OneMoreEntry(compute: Calculation, keys: seq<GroupKey>, entries: seq<Entry>, e: Entry)
    requires Additive(compute) && Distinct(keys) && e.key in keys
    ensures GroupedTotal(compute, keys, entries + [e]) ==
            Plus(GroupedTotal(compute, keys, entries), Contribution(compute, e.key, e.quantity))
  {
    var n := |keys| - 1;
    var k := keys[n];
    var before, more := GroupedTotal(compute, keys[..n], entries), Contribution(compute, e.key, e.quantity);
    var own := Contribution(compute, k, QuantityOf(entries, k));
    QuantityAppend(entries, e, k);
    PlusMoves(before, own, more);
    if k == e.key {
      OtherKeysKeep(compute, keys[..n], entries, e);
      ContributionsAdd(compute, k, QuantityOf(entries, k), e.quantity);
    } else {
      OneMoreEntry(compute, keys[..n], entries, e);
    }
  }

  lemma GroupedAppendKey(compute: Calculation, keys: seq<GroupKey>, entries: seq<Entry>, k: GroupKey)
    ensures GroupedTotal(compute, keys + [k], entries) ==
            Plus(GroupedTotal(compute, keys, entries), Contribution(compute, k, QuantityOf(entries, k)))
  {
    assert (keys + [k])[..|keys|] == keys;
  }

  lemma TotalAppend(compute: Calculation, entries: seq<Entry>, e: Entry)
    ensures PerEntryTotal(compute, entries + [e]) ==
            Plus(PerEntryTotal(compute, entries), Contribution(compute, e.key, e.quantity))
  {
    assert (entries + [e])[..|entries|] == entries;
  }

  /** The first entry of a key gives that key its quantity. */
  lemma FirstOfKey(entries: seq<Entry>, e: Entry)
    requires e.key !in KeysOf(entries)
    ensures KeysOf(entries + [e]) == KeysOf(entries) + [e.key] && QuantityOf(entries + [e], e.key) == e.quantity
  {
    KeysAppend(entries, e);
    AbsentIsEmpty(entries, e.key);
    QuantityAppend(entries, e, e.key);
  }

  lemma GroupedAppendNew(compute: Calculation, entries: seq<Entry>, e: Entry)
    requires e.key !in KeysOf(entries)
    ensures GroupedTotal(compute, KeysOf(entries + [e]), entries + [e]) ==
            Plus(GroupedTotal(compute, KeysOf(entries), entries), Contribution(compute, e.key, e.quantity))
  {
    FirstOfKey(entries, e);
    GroupedAppendKey(compute, KeysOf(entries), entries + [e], e.key);
    OtherKeysKeep(compute, KeysOf(entries), entries, e);
  }

  /** Appending an entry adds its own contribution to the grouped total, whether its key is new or not. */
  lemma GroupedAppend(compute: Calculation, entries: seq<Entry>, e: Entry)
    requires Additive(compute)
    ensures GroupedTotal(compute, KeysOf(entries + [e]), entries + [e]) ==
            Plus(GroupedTotal(compute, KeysOf(entries), entries), Contribution(compute, e.key, e.quantity))
  {
    if e.key in KeysOf(entries) {
      KeysAreDistinct(entries);
      KeysAppend(entries, e);
      OneMoreEntry(compute, KeysOf(entries), entries, e);
    } else {
      GroupedAppendNew(compute, entries, e);
    }
  }

  /** Grouping changes no total, for any list of entries in any order. */
  lemma {:induction false} GroupedEqualsPerEntry(compute: Calculation, entries: seq<Entry>)
    requires Additive(compute)
    ensures GroupedTotal(compute, KeysOf(entries), entries) == PerEntryTotal(compute, entries)
  {
    if entries != [] {
      var n := |entries| - 1;
      assert entries == entries[..n] + [entries[n]];
      GroupedEqualsPerEntry(compute, entries[..n]);
      GroupedAppend(compute, entries[..n], entries[n]);
      TotalAppend(compute, entries[..n], entries[n]);
    }
  }

  lemma {:induction false} TotalOfConcat(compute: Calculation, a: seq<Entry>, b: seq<Entry>)
    ensures PerEntryTotal(compute, a + b) == Plus(PerEntryTotal(compute, a), PerEntryTotal(compute, b))
  {
    if b == [] {
      assert a + b == a;
    } else {
      var n := |b| - 1;
      TotalOfConcat(compute, a, b[..n]);
      assert (a + b)[..|a + b| - 1] == a + b[..n] && (a + b)[|a + b| - 1] == b[n];
    }
  }

  /** Where an entry stands does not matter to the total. */
  lemma TotalWithout(compute: Calculation, left: seq<Entry>, e: Entry, right: seq<Entry>)
    ensures PerEntryTotal(compute, left + [e] + right) ==
            Plus(PerEntryTotal(compute, left + right), Contribution(compute, e.key, e.quantity))
  {
    TotalOfConcat(compute, left + [e], right);
    TotalAppend(compute, left, e);
    TotalOfConcat(compute, left, right);
    PlusMoves(PerEntryTotal(compute, left), Contribution(compute, e.key, e.quantity), PerEntryTotal(compute, right));
  }

  lemma WithoutOne(b: seq<Entry>, e: Entry) returns (left: seq<Entry>, right: seq<Entry>)
    requires e in multiset(b)
    ensures b == left + [e] + right && multiset(left + right) == multiset(b) - multiset{e}
  {
    var j :| 0 <= j < |b| && b[j] == e;
    left, right := b[..j], b[j + 1..];
    assert b == left + [e] + right;
  }

  lemma {:induction false} PermutedTotal(compute: Calculation, a: seq<Entry>, b: seq<Entry>)
    requires multiset(a) == multiset(b)
    ensures PerEntryTotal(compute, a) == PerEntryTotal(compute, b)
  {
    if a == [] {
      assert |multiset(b)| == 0;
    } else {
      var n := |a| - 1;
      var front, e := a[..n], a[n];
      assert a == front + [e];
      assert e in multiset(a) && multiset(front) == multiset(a) - multiset{e};
      var left, right := WithoutOne(b, e);
      PermutedTotal(compute, front, left + right);
      TotalWithout(compute, left, e, right);
    }
  }

  /** Reordering the entries changes no grouped total. */
  lemma OrderIsIrrelevant(compute: Calculation, a: seq<Entry>, b: seq<Entry>)
    requires Additive(compute) && multiset(a) == multiset(b)
    ensures GroupedTotal(compute, KeysOf(a), a) == GroupedTotal(compute, KeysOf(b), b)
  {
    GroupedEqualsPerEntry(compute, a);
    GroupedEqualsPerEntry(compute, b);
    PermutedTotal(compute, a, b);
  }

  function QuantitySum(entries: seq<Entry>): int {
    if entries == [] then 0 else QuantitySum(entries[..|entries| - 1]) + entries[|entries| - 1].quantity
  }

  function GroupQuantitySum(keys: seq<GroupKey>, entries: seq<Entry>): int {
    if keys == [] then 0
    else GroupQuantitySum(keys[..|keys| - 1], entries) + QuantityOf(entries, keys[|keys| - 1])
  }

  lemma {:induction false} OneMoreQuantity(keys: seq<GroupKey>, entries: seq<Entry>, e: Entry)
    requires Distinct(keys)
    ensures GroupQuantitySum(keys, entries + [e]) ==
            GroupQuantitySum(keys, entries) + if e.key in keys then e.quantity else 0
  {
    if keys != [] {
      var n := |keys| - 1;
      OneMoreQuantity(keys[..n], entries, e);
      QuantityAppend(entries, e, keys[n]);
      assert keys == keys[..n] + [keys[n]];
    }
  }

  /** No miner is lost or counted twice: the group quantities sum to the input quantities. */
  lemma {:induction false} QuantitiesAreConserved(entries: seq<Entry>)
    ensures GroupQuantitySum(KeysOf(entries), entries) == QuantitySum(entries)
  {
    if entries != [] {
      var n := |entries| - 1;
      var front, e := entries[..n], entries[n];
      assert entries == front + [e];
      QuantitiesAreConserved(front);
      KeysAreDistinct(front);
      KeysAppend(front, e);
      OneMoreQuantity(KeysOf(front), front, e);
      if e.key !in KeysOf(front) {
        assert (KeysOf(front) + [e.key])[..|KeysOf(front)|] == KeysOf(front);
        AbsentIsEmpty(front, e.key);
        QuantityAppend(front, e, e.key);
      }
    }
  }

  // ---------------------------------------------------------------- what a group and a result contain

  lemma {:induction false} KeysKeepOrder(a: seq<Entry>, b: seq<Entry>)
    ensures KeysOf(a) <= KeysOf(a + b)
  {
    if b == [] {
      assert a + b == a;
    } else {
      var n := |b| - 1;
      KeysKeepOrder(a, b[..n]);
      assert a + b == a + b[..n] + [b[n]];
      KeysAppend(a + b[..n], b[n]);
    }
  }

  /** A group's quantity is the sum, and its list of numbers the concatenation, over any two parts of the list. */
  lemma {:induction false} GroupOfConcat(a: seq<Entry>, b: seq<Entry>, k: GroupKey)
    ensures QuantityOf(a + b, k) == QuantityOf(a, k) + QuantityOf(b, k)
    ensures NumbersOf(a + b, k) == NumbersOf(a, k) + NumbersOf(b, k)
  {
    if b == [] {
      assert a + b == a;
    } else {
      var n := |b| - 1;
      GroupOfConcat(a, b[..n], k);
      assert a + b == a + b[..n] + [b[n]] && b == b[..n] + [b[n]];
      QuantityAppend(a + b[..n], b[n], k);
      QuantityAppend(b[..n], b[n], k);
      NumbersAppend(a + b[..n], b[n], k);
      NumbersAppend(b[..n], b[n], k);
    }
  }

  /** And one entry gives its quantity, and its number unless that is empty, to its own group alone. */
  lemma GroupOfOne(e: Entry, k: GroupKey)
    ensures QuantityOf([e], k) == if e.key == k then e.quantity else 0
    ensures NumbersOf([e], k) == if e.key == k && e.number != "" then [e.number] else []
    ensures KeysOf([e]) == [e.key]
  {
    assert [e][..0] == [];
  }

  /** A result shows its group's quantity, numbers and cost, and what the calculation gave for that quantity. */
  ghost predicate Shows(compute: Calculation, entries: seq<Entry>, r: ResultEntry) {
    && r.quantity == QuantityOf(entries, r.key) && r.numbers == NumbersOf(entries, r.key)
    && r.totalCost == r.key.price * r.quantity as real
    && compute(r.key, r.quantity) == Some(r.daily)
  }

  lemma {:induction false} ResultsShow(compute: Calculation, keys: seq<GroupKey>, entries: seq<Entry>, r: ResultEntry)
    requires r in ResultsOf(compute, keys, entries)
    ensures Shows(compute, entries, r) && r.key in keys
  {
    var n := |keys| - 1;
    if r in ResultsOf(compute, keys[..n], entries) {
      ResultsShow(compute, keys[..n], entries, r);
    }
  }

  function SumBy(r: seq<ResultEntry>, field: ResultEntry -> real): real {
    if r == [] then 0.0 else SumBy(r[..|r| - 1], field) + field(r[|r| - 1])
  }

  lemma {:induction false} SumByField(r: seq<ResultEntry>)
    ensures SumOf(r).profit == SumBy(r, (x: ResultEntry) => x.daily.profit)
    ensures SumOf(r).revenue == SumBy(r, (x: ResultEntry) => x.daily.revenue)
    ensures SumOf(r).cost == SumBy(r, (x: ResultEntry) => x.daily.cost)
  {
    if r != [] {
      SumByField(r[..|r| - 1]);
    }
  }

  /** Each daily total is the sum of its own column over the displayed results. */
  lemma TotalsAreColumnSums(compute: Calculation, entries: seq<Entry>)
    ensures var r := ResultsOf(compute, KeysOf(entries), entries);
            var total := GroupedTotal(compute, KeysOf(entries), entries);
            && total.profit == SumBy(r, (x: ResultEntry) => x.daily.profit)
            && total.revenue == SumBy(r, (x: ResultEntry) => x.daily.revenue)
            && total.cost == SumBy(r, (x: ResultEntry) => x.daily.cost)
  {
    ResultsSum(compute, KeysOf(entries), entries);
    SumByField(ResultsOf(compute, KeysOf(entries), entries));
  }
}
