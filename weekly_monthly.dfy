/** `generateWeeklyData` and `generateMonthlyData`: daily rows are folded into one
    accumulator per week (keyed by its Monday) or per month (keyed by its first day),
    summing the token kinds and the cost, collecting the models in a `Set` and merging the
    per-model breakdowns by model name; the accumulators are then emitted in ascending key
    order. The two generators differ only in the bucket key, so one definition serves both. */
module WeeklyMonthly {
  import opened Seqs
  import opened Grouping
  import opened Strings
  import opened Sorting
  import opened CivilDate
  import opened Types

  datatype Granularity = Week | Month

  /** A bucket under construction: the `weeklyMap`/`monthlyMap` value, whose
      `modelBreakdowns` is still a `Map` from model name. */
  datatype Acc = Acc(
    key: string,
    inputTokens: nat,
    outputTokens: nat,
    cacheCreationTokens: nat,
    cacheReadTokens: nat,
    totalTokens: nat,
    totalCost: real,
    modelsUsed: seq<string>,
    modelBreakdowns: Groups<string, ModelBreakdown>)

  // The `x || 0` reading of each field of a daily row.
  function InputOf(e: DailyRecord): nat { Or0(e.inputTokens) }
  function OutputOf(e: DailyRecord): nat { Or0(e.outputTokens) }
  function CacheCreationOf(e: DailyRecord): nat { Or0(e.cacheCreationTokens) }
  function CacheReadOf(e: DailyRecord): nat { Or0(e.cacheReadTokens) }
  function TotalOf(e: DailyRecord): nat { Or0(e.totalTokens) }
  function CostOf(e: DailyRecord): real { Or0Real(e.totalCost) }
  function ModelsOf(e: DailyRecord): seq<string> { if e.modelsUsed.Some? then e.modelsUsed.value else [] }
  function BreakdownsOf(e: DailyRecord): seq<RawBreakdown> { if e.modelBreakdowns.Some? then e.modelBreakdowns.value else [] }

  function BdName(b: RawBreakdown): string { b.modelName }
  function BdInputOf(b: RawBreakdown): nat { Or0(b.inputTokens) }
  function BdOutputOf(b: RawBreakdown): nat { Or0(b.outputTokens) }
  function BdCacheCreationOf(b: RawBreakdown): nat { Or0(b.cacheCreationTokens) }
  function BdCacheReadOf(b: RawBreakdown): nat { Or0(b.cacheReadTokens) }
  function BdCostOf(b: RawBreakdown): real { Or0Real(b.cost) }

  // Projections of the emitted buckets.
  function BucketKey(b: Bucket): string { b.key }
  function BInput(b: Bucket): nat { b.inputTokens }
  function BOutput(b: Bucket): nat { b.outputTokens }
  function BCacheCreation(b: Bucket): nat { b.cacheCreationTokens }
  function BCacheRead(b: Bucket): nat { b.cacheReadTokens }
  function BTotal(b: Bucket): nat { b.totalTokens }
  function BCost(b: Bucket): real { b.totalCost }
  function MbName(b: ModelBreakdown): string { b.modelName }

  /** The day a row is bucketed by, when its date reads as one. */
  function DateOf(e: DailyRecord): Option<Date>
  {
    if e.date.Some? then ParseDate(e.date.value) else None
  }

  lemma ParsedDateValid(s: string)
    requires ParseDate(s).Some?
    ensures Valid(ParseDate(s).value)
  {
  }

  function WeekKey(e: DailyRecord): string
  {
    match DateOf(e)
    case None => ""
    case Some(d) =>
      ParsedDateValid(e.date.value);
      WeekStartSpec(d);
      FormatDate(WeekStart(d))
  }

  function MonthKey(e: DailyRecord): string
  {
    match DateOf(e)
    case None => ""
    case Some(d) =>
      ParsedDateValid(e.date.value);
      FormatDate(MonthStart(d))
  }

  /** `formatDate(getWeekStart(date))` or `formatDate(getMonthStart(date))`. */
  function KeyFn(g: Granularity): DailyRecord -> string
  {
    match g
    case Week => WeekKey
    case Month => MonthKey
  }

  /** A row on which the generator throws: its date is an Invalid Date (`toISOString`
      raises), or it has no `modelsUsed` or no `modelBreakdowns` array to iterate. */
  predicate Throws(e: DailyRecord)
  {
    DateOf(e).None? || e.modelsUsed.None? || e.modelBreakdowns.None?
  }

  function EmptyAcc(k: string): Acc
  {
    Acc(k, 0, 0, 0, 0, 0, 0.0, [], Groups([], map[]))
  }

  function EmptyBreakdown(name: string): ModelBreakdown
  {
    ModelBreakdown(name, 0, 0, 0, 0, 0.0)
  }

  /** `existing.inputTokens += breakdown.inputTokens || 0; ...`. */
  function AddBreakdown(mb: ModelBreakdown, b: RawBreakdown): ModelBreakdown
  {
    ModelBreakdown(mb.modelName,
      mb.inputTokens + BdInputOf(b), mb.outputTokens + BdOutputOf(b),
      mb.cacheCreationTokens + BdCacheCreationOf(b), mb.cacheReadTokens + BdCacheReadOf(b),
      mb.cost + BdCostOf(b))
  }

  /** The body of the `forEach` for one daily row. */
  function AddDay(acc: Acc, e: DailyRecord): Acc
  {
    Acc(acc.key,
      acc.inputTokens + InputOf(e), acc.outputTokens + OutputOf(e),
      acc.cacheCreationTokens + CacheCreationOf(e), acc.cacheReadTokens + CacheReadOf(e),
      acc.totalTokens + TotalOf(e), acc.totalCost + CostOf(e),
      AddAll(acc.modelsUsed, ModelsOf(e)),
      GroupFoldFrom(acc.modelBreakdowns, BreakdownsOf(e), BdName, EmptyBreakdown, AddBreakdown))
  }

  /** The `.map(week => ({ ..., modelsUsed: Array.from(...), modelBreakdowns: Array.from(...values()) }))`. */
  function ToBucket(acc: Acc): Bucket
  {
    Bucket(acc.key, acc.inputTokens, acc.outputTokens, acc.cacheCreationTokens, acc.cacheReadTokens,
      acc.totalTokens, acc.totalCost, acc.modelsUsed, Values(acc.modelBreakdowns))
  }

  /** What the generator returns; `None` when it throws. */
  function Generate(entries: seq<DailyRecord>, g: Granularity): Option<seq<Bucket>>
  {
    if exists i :: 0 <= i < |entries| && Throws(entries[i]) then None
    else Some(Emit(entries, KeyFn(g)))
  }

  /** The emitted list for rows bucketed by `key`: one bucket per accumulator, sorted by key. */
  function Emit(entries: seq<DailyRecord>, key: DailyRecord -> string): seq<Bucket>
  {
    SortAsc(MapSeq(Values(GroupFold(entries, key, EmptyAcc, AddDay)), ToBucket), BucketKey)
  }

  /** The generator itself: the `forEach` filling the keyed map, then conversion and sort. */
  method GenerateBuckets(entries: seq<DailyRecord>, g: Granularity) returns (r: Option<seq<Bucket>>)
    ensures r == Generate(entries, g)
    ensures r.None? <==> exists i :: 0 <= i < |entries| && Throws(entries[i])
  {
    var ok, keys, m := GroupInto(entries, KeyFn(g), EmptyAcc, AddDay, Throws);
    if !ok {
      r := None;
    } else {
      var buckets := MapSeq(Values(Groups(keys, m)), ToBucket);
      r := Some(SortAsc(buckets, BucketKey));
    }
  }

  /** One model name's breakdown is the field-wise sum over the raw breakdowns with that name. */
  lemma {:induction false} BreakdownFold(bs: seq<RawBreakdown>, name: string)
    ensures LeftFold(bs, EmptyBreakdown(name), AddBreakdown)
         == ModelBreakdown(name, SumNat(bs, BdInputOf), SumNat(bs, BdOutputOf),
              SumNat(bs, BdCacheCreationOf), SumNat(bs, BdCacheReadOf), SumReal(bs, BdCostOf))
    decreases |bs|
  {
    if bs != [] {
      BreakdownFold(Init(bs), name);
    }
  }

  /** The rows' model lists and breakdown lists, concatenated in row order. */
  function AllModels(sel: seq<DailyRecord>): seq<string>
  {
    Flatten(MapSeq(sel, ModelsOf))
  }

  function AllBreakdowns(sel: seq<DailyRecord>): seq<RawBreakdown>
  {
    Flatten(MapSeq(sel, BreakdownsOf))
  }

  /** Folding rows into a fresh accumulator sums each field, unions the model lists and
      merges every breakdown of every row by name. */
  lemma {:induction false} DayFold(sel: seq<DailyRecord>, k: string)
    ensures LeftFold(sel, EmptyAcc(k), AddDay)
         == Acc(k, SumNat(sel, InputOf), SumNat(sel, OutputOf), SumNat(sel, CacheCreationOf),
              SumNat(sel, CacheReadOf), SumNat(sel, TotalOf), SumReal(sel, CostOf),
              Dedup(AllModels(sel)),
              GroupFold(AllBreakdowns(sel), BdName, EmptyBreakdown, AddBreakdown))
    decreases |sel|
  {
    if sel == [] {
      GroupFoldFromEmpty([], BdName, EmptyBreakdown, AddBreakdown);
    } else {
      var front, e := Init(sel), Last(sel);
      DayFold(front, k);
      assert MapSeq(sel, ModelsOf) == MapSeq(front, ModelsOf) + [ModelsOf(e)];
      assert MapSeq(sel, BreakdownsOf) == MapSeq(front, BreakdownsOf) + [BreakdownsOf(e)];
      InitOfSnoc(MapSeq(front, ModelsOf), ModelsOf(e));
      InitOfSnoc(MapSeq(front, BreakdownsOf), BreakdownsOf(e));
      AddAllAppend([], AllModels(front), ModelsOf(e));
      GroupFoldFromEmpty(AllBreakdowns(front), BdName, EmptyBreakdown, AddBreakdown);
      GroupFoldFromEmpty(AllBreakdowns(sel), BdName, EmptyBreakdown, AddBreakdown);
      GroupFoldFromAppend(Groups([], map[]), AllBreakdowns(front), BreakdownsOf(e), BdName, EmptyBreakdown, AddBreakdown);
    }
  }

  /** The merged breakdown list: one entry per model name, in order of first appearance,
      each the field-wise sum over the raw breakdowns with that name. */
  ghost predicate BreakdownsMatch(raw: seq<RawBreakdown>, out: seq<ModelBreakdown>)
  {
    && MapSeq(out, MbName) == Dedup(MapSeq(raw, BdName))
    && forall i :: 0 <= i < |out| ==>
         var sel := Select(raw, BdName, out[i].modelName);
         && out[i].inputTokens == SumNat(sel, BdInputOf)
         && out[i].outputTokens == SumNat(sel, BdOutputOf)
         && out[i].cacheCreationTokens == SumNat(sel, BdCacheCreationOf)
         && out[i].cacheReadTokens == SumNat(sel, BdCacheReadOf)
         && out[i].cost == SumReal(sel, BdCostOf)
  }

  /** A bucket agrees with the rows whose date maps to its key. */
  ghost predicate BucketMatches(entries: seq<DailyRecord>, key: DailyRecord -> string, b: Bucket)
  {
    var sel := Select(entries, key, b.key);
    && b.inputTokens == SumNat(sel, InputOf)
    && b.outputTokens == SumNat(sel, OutputOf)
    && b.cacheCreationTokens == SumNat(sel, CacheCreationOf)
    && b.cacheReadTokens == SumNat(sel, CacheReadOf)
    && b.totalTokens == SumNat(sel, TotalOf)
    && b.totalCost == SumReal(sel, CostOf)
    && b.modelsUsed == Dedup(AllModels(sel))
    && BreakdownsMatch(AllBreakdowns(sel), b.modelBreakdowns)
  }

  lemma MergedBreakdowns(raw: seq<RawBreakdown>)
    ensures BreakdownsMatch(raw, Values(GroupFold(raw, BdName, EmptyBreakdown, AddBreakdown)))
  {
    var gb := GroupFold(raw, BdName, EmptyBreakdown, AddBreakdown);
    GroupFoldSpec(raw, BdName, EmptyBreakdown, AddBreakdown);
    var out := Values(gb);
    forall i | 0 <= i < |out|
      ensures out[i] == MergedBreakdown(raw, gb.keys[i])
    {
      assert gb.keys[i] in gb.keys;
      MergedBreakdownAt(raw, gb.keys[i]);
    }
    assert MapSeq(out, MbName) == gb.keys;
  }

  /** The field-wise sums over the raw breakdowns named `name`. */
  function MergedBreakdown(raw: seq<RawBreakdown>, name: string): ModelBreakdown
  {
    var sel := Select(raw, BdName, name);
    ModelBreakdown(name, SumNat(sel, BdInputOf), SumNat(sel, BdOutputOf),
      SumNat(sel, BdCacheCreationOf), SumNat(sel, BdCacheReadOf), SumReal(sel, BdCostOf))
  }

  lemma MergedBreakdownAt(raw: seq<RawBreakdown>, name: string)
    requires name in GroupFold(raw, BdName, EmptyBreakdown, AddBreakdown).m
    ensures GroupFold(raw, BdName, EmptyBreakdown, AddBreakdown).m[name] == MergedBreakdown(raw, name)
  {
    GroupFoldSpec(raw, BdName, EmptyBreakdown, AddBreakdown);
    BreakdownFold(Select(raw, BdName, name), name);
  }

  /** Each accumulator of the loop, converted, agrees with its rows. */
  lemma AccumulatorMatches(entries: seq<DailyRecord>, key: DailyRecord -> string, k: string)
    requires k in GroupFold(entries, key, EmptyAcc, AddDay).m
    ensures var b := ToBucket(GroupFold(entries, key, EmptyAcc, AddDay).m[k]);
            b.key == k && BucketMatches(entries, key, b)
  {
    GroupFoldSpec(entries, key, EmptyAcc, AddDay);
    DayFold(Select(entries, key, k), k);
    MergedBreakdowns(AllBreakdowns(Select(entries, key, k)));
  }

  /** Before sorting: one bucket per key, in order of first appearance, each agreeing with its rows. */
  lemma UnsortedBuckets(entries: seq<DailyRecord>, key: DailyRecord -> string)
    ensures var groups := GroupFold(entries, key, EmptyAcc, AddDay);
            var buckets := MapSeq(Values(groups), ToBucket);
            && MapSeq(buckets, BucketKey) == groups.keys
            && NoDup(groups.keys)
            && groups.keys == Dedup(MapSeq(entries, key))
            && forall b :: b in buckets ==> BucketMatches(entries, key, b)
  {
    var groups := GroupFold(entries, key, EmptyAcc, AddDay);
    GroupFoldSpec(entries, key, EmptyAcc, AddDay);
    var buckets := MapSeq(Values(groups), ToBucket);
    forall i | 0 <= i < |buckets|
      ensures buckets[i].key == groups.keys[i] && BucketMatches(entries, key, buckets[i])
    {
      assert groups.keys[i] in groups.keys;
      AccumulatorMatches(entries, key, groups.keys[i]);
    }
  }

  /** The emitted buckets: strictly ascending keys, exactly one per key that some row maps
      to, and each agreeing with the rows mapped to it. */
  lemma EmitSpec(entries: seq<DailyRecord>, key: DailyRecord -> string)
    ensures var bs := Emit(entries, key);
            && StrictlyAscending(bs, BucketKey)
            && (forall k :: k in MapSeq(bs, BucketKey) <==> k in MapSeq(entries, key))
            && forall b :: b in bs ==> BucketMatches(entries, key, b)
  {
    var buckets := MapSeq(Values(GroupFold(entries, key, EmptyAcc, AddDay)), ToBucket);
    UnsortedBuckets(entries, key);
    DedupSpec(MapSeq(entries, key));
    SortAscMembers(buckets, BucketKey);
  }

  /** One field's conservation, given that each accumulator holds its rows' sum. */
  lemma FieldConservesNat(entries: seq<DailyRecord>, key: DailyRecord -> string, f: DailyRecord -> nat, h: Bucket -> nat)
    requires var groups := GroupFold(entries, key, EmptyAcc, AddDay);
             forall k :: k in groups.m ==> h(ToBucket(groups.m[k])) == SumNat(Select(entries, key, k), f)
    ensures SumNat(Emit(entries, key), h) == SumNat(entries, f)
  {
    var groups := GroupFold(entries, key, EmptyAcc, AddDay);
    GroupedSumNat(entries, key, EmptyAcc, AddDay, ToBucket, h, f);
    SortAscSums(MapSeq(Values(groups), ToBucket), BucketKey, h, BCost);
  }

  lemma FieldConservesReal(entries: seq<DailyRecord>, key: DailyRecord -> string, f: DailyRecord -> real, h: Bucket -> real)
    requires var groups := GroupFold(entries, key, EmptyAcc, AddDay);
             forall k :: k in groups.m ==> h(ToBucket(groups.m[k])) == SumReal(Select(entries, key, k), f)
    ensures SumReal(Emit(entries, key), h) == SumReal(entries, f)
  {
    var groups := GroupFold(entries, key, EmptyAcc, AddDay);
    GroupedSumReal(entries, key, EmptyAcc, AddDay, ToBucket, h, f);
    SortAscSums(MapSeq(Values(groups), ToBucket), BucketKey, BInput, h);
  }

  /** Conservation: over all buckets, every token field and the cost add up to the same
      total as over all rows. */
  lemma EmitConserves(entries: seq<DailyRecord>, key: DailyRecord -> string)
    ensures var bs := Emit(entries, key);
            && SumNat(bs, BInput) == SumNat(entries, InputOf)
            && SumNat(bs, BOutput) == SumNat(entries, OutputOf)
            && SumNat(bs, BCacheCreation) == SumNat(entries, CacheCreationOf)
            && SumNat(bs, BCacheRead) == SumNat(entries, CacheReadOf)
            && SumNat(bs, BTotal) == SumNat(entries, TotalOf)
            && SumReal(bs, BCost) == SumReal(entries, CostOf)
  {
    var m := GroupFold(entries, key, EmptyAcc, AddDay).m;
    forall k | k in m
      ensures var a := m[k];
              && a.inputTokens == SumNat(Select(entries, key, k), InputOf)
              && a.outputTokens == SumNat(Select(entries, key, k), OutputOf)
              && a.cacheCreationTokens == SumNat(Select(entries, key, k), CacheCreationOf)
              && a.cacheReadTokens == SumNat(Select(entries, key, k), CacheReadOf)
              && a.totalTokens == SumNat(Select(entries, key, k), TotalOf)
              && a.totalCost == SumReal(Select(entries, key, k), CostOf)
    {
      GroupFoldSpec(entries, key, EmptyAcc, AddDay);
      DayFold(Select(entries, key, k), k);
    }
    FieldConservesNat(entries, key, InputOf, BInput);
    FieldConservesNat(entries, key, OutputOf, BOutput);
    FieldConservesNat(entries, key, CacheCreationOf, BCacheCreation);
    FieldConservesNat(entries, key, CacheReadOf, BCacheRead);
    FieldConservesNat(entries, key, TotalOf, BTotal);
    FieldConservesReal(entries, key, CostOf, BCost);
  }

  /** What the weekly and the monthly generators return, when they do not throw. */
  lemma GenerateSpec(entries: seq<DailyRecord>, g: Granularity)
    requires Generate(entries, g).Some?
    ensures Generate(entries, g).value == Emit(entries, KeyFn(g))
    ensures var bs := Generate(entries, g).value;
            && StrictlyAscending(bs, BucketKey)
            && (forall k :: k in MapSeq(bs, BucketKey) <==> k in MapSeq(entries, KeyFn(g)))
            && (forall b :: b in bs ==> BucketMatches(entries, KeyFn(g), b))
            && SumNat(bs, BTotal) == SumNat(entries, TotalOf)
            && SumReal(bs, BCost) == SumReal(entries, CostOf)
  {
    EmitSpec(entries, KeyFn(g));
    EmitConserves(entries, KeyFn(g));
  }

  /** The generator throws exactly when some row has no date, a date that does not read
      as a calendar day, or no `modelsUsed` or `modelBreakdowns` array. */
  lemma GenerateFails(entries: seq<DailyRecord>, g: Granularity)
    ensures Generate(entries, g).None? <==>
              exists i :: 0 <= i < |entries| &&
                (|| entries[i].date.None? || ParseDate(entries[i].date.value).None?
                 || entries[i].modelsUsed.None? || entries[i].modelBreakdowns.None?)
  {
    if Generate(entries, g).None? {
      var i :| 0 <= i < |entries| && Throws(entries[i]);
    }
  }

  /** Week keys are Mondays, at most six days before the row's date; month keys are day 1. */
  lemma KeysAreBucketStarts(e: DailyRecord)
    requires DateOf(e).Some?
    ensures var d := DateOf(e).value;
            && Valid(d)
            && ParseDate(WeekKey(e)).Some? && JsGetDay(ParseDate(WeekKey(e)).value) == 1
            && DayNumber(d) - 6 <= DayNumber(ParseDate(WeekKey(e)).value) <= DayNumber(d)
            && ParseDate(MonthKey(e)) == Some(Date(d.year, d.month, 1))
  {
    var d := DateOf(e).value;
    ParsedDateValid(e.date.value);
    WeekStartSpec(d);
    ParseFormat(WeekStart(d));
    MonthStartSpec(d);
    ParseFormat(MonthStart(d));
  }
}
