/**
 * The control logic of the JAX framework-level benchmark harness: the lookup of a
 * benchmark id in the model registry, one benchmark run (warmup and measurement
 * loops, the summary record and its all-or-nothing commit into the shared result
 * dictionary) and the merge of a result into the results document.
 *
 * Timings, the device, the model and JAX itself are outside the model: a run is
 * given the outcome of its setup and of every model call as inputs.
 */
module BenchmarkModel {
  import opened Wrappers
  import opened Text
  import opened Dicts
  import opened Statistics

  // ---------------------------------------------------------------------------
  // Tables
  // ---------------------------------------------------------------------------

  /** The model implementations a benchmark id can select. */
  datatype ModelClass = ResNet50 | BertLarge | T5Large

  datatype SourceModel = SourceModel(name: string, modelClass: ModelClass)

  /**
   * The nine model ids of the benchmark-definition suite used as prefixes. Their
   * string values live in a package that is not part of this model.
   */
  datatype UniqueIds = UniqueIds(
    resnet50Fp32: string, resnet50Fp16: string, resnet50Bf16: string,
    bertLargeFp32: string, bertLargeFp16: string, bertLargeBf16: string,
    t5LargeFp32: string, t5LargeFp16: string, t5LargeBf16: string)
  {
    function ResNet50Group(): seq<string> { [resnet50Fp32, resnet50Fp16, resnet50Bf16] }
    function BertLargeGroup(): seq<string> { [bertLargeFp32, bertLargeFp16, bertLargeBf16] }
    function T5LargeGroup(): seq<string> { [t5LargeFp32, t5LargeFp16, t5LargeBf16] }
  }

  /** Groups of id prefixes, each with the model it selects, in search order. */
  type ModelTable = seq<(seq<string>, SourceModel)>

  const ResNet50Model := SourceModel("RESNET50", ResNet50)
  const BertLargeModel := SourceModel("BERT_LARGE", BertLarge)
  const T5LargeModel := SourceModel("T5_LARGE", T5Large)

  /** The entries of the `IDS_TO_SOURCE_MODEL` display, as written. */
  function SourceModelEntries(u: UniqueIds): ModelTable {
    [ (u.ResNet50Group(), ResNet50Model),
      (u.BertLargeGroup(), BertLargeModel),
      (u.T5LargeGroup(), T5LargeModel) ]
  }

  /**
   * `IDS_TO_SOURCE_MODEL`, in its iteration order: the dict its display builds.
   * With three different id tuples it is the three groups in the order written.
   */
  function IdsToSourceModel(u: UniqueIds): (r: ModelTable)
    ensures GroupsDistinct(u) ==> r == SourceModelEntries(u) && |r| == 3
  {
    DictDisplay(SourceModelEntries(u))
  }

  /** The three id tuples are pairwise different. */
  predicate GroupsDistinct(u: UniqueIds) {
    && u.ResNet50Group() != u.BertLargeGroup()
    && u.ResNet50Group() != u.T5LargeGroup()
    && u.BertLargeGroup() != u.T5LargeGroup()
  }

  /**
   * Equal ResNet50 and BERT tuples collapse into one key: it keeps the first
   * position and holds the later value, BERT_LARGE.
   */
  lemma IdsToSourceModelCollision(u: UniqueIds)
    requires u.ResNet50Group() == u.BertLargeGroup() && u.ResNet50Group() != u.T5LargeGroup()
    ensures IdsToSourceModel(u)
      == [(u.ResNet50Group(), BertLargeModel), (u.T5LargeGroup(), T5LargeModel)]
  {
    DictDisplayRepeatedKey(u.ResNet50Group(), u.T5LargeGroup(), ResNet50Model, BertLargeModel, T5LargeModel);
  }

  /** The precisions of the suite; other members of its enumeration are not visible here. */
  datatype DataType = FP32 | FP16 | BF16 | OtherDataType(name: string)

  datatype JaxDType = Float32 | Float16 | BFloat16

  /** `DTYPE_MAPPING[d]`, `None` where Python raises `KeyError`. */
  function DtypeMapping(d: DataType): (r: Option<JaxDType>)
    ensures r.Some? <==> !d.OtherDataType?
  {
    match d
    case FP32 => Some(Float32)
    case FP16 => Some(Float16)
    case BF16 => Some(BFloat16)
    case OtherDataType(_) => None
  }

  /** Distinct precisions map to distinct JAX types. */
  lemma DtypeMappingInjective(a: DataType, b: DataType)
    requires DtypeMapping(a).Some? && DtypeMapping(a) == DtypeMapping(b)
    ensures a == b
  {
  }

  // ---------------------------------------------------------------------------
  // benchmark_lookup
  // ---------------------------------------------------------------------------

  /** Some id of the group is a prefix of `uniqueId`. */
  predicate GroupMatches(ids: seq<string>, uniqueId: string) {
    exists i :: 0 <= i < |ids| && StartsWith(uniqueId, ids[i])
  }

  /** Group `g` is the first group of the table that matches `uniqueId`. */
  predicate IsFirstMatch(table: ModelTable, uniqueId: string, g: int) {
    0 <= g < |table| && GroupMatches(table[g].0, uniqueId)
    && forall h :: 0 <= h < g ==> !GroupMatches(table[h].0, uniqueId)
  }

  /** The nested prefix search: the index of the first matching group. */
  function FirstMatchingGroup(table: ModelTable, uniqueId: string): (r: Option<nat>)
    ensures r.Some? ==> IsFirstMatch(table, uniqueId, r.value)
    ensures r.None? ==> forall g :: 0 <= g < |table| ==> !GroupMatches(table[g].0, uniqueId)
    decreases |table|
  {
    if table == [] then None
    else if GroupMatches(table[0].0, uniqueId) then Some(0)
    else match FirstMatchingGroup(table[1..], uniqueId)
      case None =>
        assert forall g :: 1 <= g < |table| ==> table[g] == table[1..][g - 1];
        None
      case Some(g) =>
        assert forall h :: 1 <= h < g + 1 ==> table[h] == table[1..][h - 1];
        Some(g + 1)
  }

  /** The two `ValueError`s of the lookup, with their messages. */
  datatype LookupError = UnknownId(message: string) | NotSupported(message: string)

  function UnknownIdMessage(uniqueId: string, ids: seq<string>): string {
    "Id " + uniqueId + " does not exist in model suite. Expected one of:\n  " + Join("\n  ", ids)
  }

  const NotSupportedMessage: string := "Model definition not supported"

  /**
   * `benchmark_lookup(unique_id)` against the definitions dict `defs`
   * (`JAX_MODELS_DICT`) and the prefix table `table`: the model's name and class
   * and the id's definition.
   */
  function BenchmarkLookup<D>(defs: Dict<D>, table: ModelTable, uniqueId: string)
    : (r: Result<(string, ModelClass, D), LookupError>)
    ensures !HasKey(defs, uniqueId) ==> r == Failure(UnknownId(UnknownIdMessage(uniqueId, Keys(defs))))
    ensures HasKey(defs, uniqueId) && (forall g :: 0 <= g < |table| ==> !GroupMatches(table[g].0, uniqueId))
      ==> r == Failure(NotSupported("Model definition not supported"))
    ensures r.Success? <==>
      HasKey(defs, uniqueId) && exists g :: 0 <= g < |table| && GroupMatches(table[g].0, uniqueId)
    ensures r.Success? ==> exists g :: (
      && IsFirstMatch(table, uniqueId, g)
      && r.value.0 == table[g].1.name && r.value.1 == table[g].1.modelClass
      && Get(defs, uniqueId) == Some(r.value.2))
  {
    if !HasKey(defs, uniqueId) then Failure(UnknownId(UnknownIdMessage(uniqueId, Keys(defs))))
    else
      var definition := Get(defs, uniqueId).value;
      match FirstMatchingGroup(table, uniqueId)
      case None => Failure(NotSupported(NotSupportedMessage))
      case Some(g) => Success((table[g].1.name, table[g].1.modelClass, definition))
  }

  /** The unknown-id error lists every id of the definitions dict. */
  lemma UnknownIdListsEveryId<D>(defs: Dict<D>, table: ModelTable, uniqueId: string, j: nat)
    requires !HasKey(defs, uniqueId) && j < |defs|
    ensures BenchmarkLookup(defs, table, uniqueId).error.UnknownId?
    ensures Occurs(defs[j].0, BenchmarkLookup(defs, table, uniqueId).error.message)
  {
    var keys := Keys(defs);
    var prefix := "Id " + uniqueId + " does not exist in model suite. Expected one of:\n  ";
    JoinContainsEach("\n  ", keys, j);
    OccursRight(keys[j], prefix, Join("\n  ", keys));
  }

  /** An id with a ResNet50 prefix selects ResNet50: the ResNet50 group is searched first. */
  lemma ResNet50IdsResolve<D>(u: UniqueIds, defs: Dict<D>, uniqueId: string)
    requires GroupsDistinct(u)
    requires HasKey(defs, uniqueId)
    requires StartsWith(uniqueId, u.resnet50Fp32) || StartsWith(uniqueId, u.resnet50Fp16)
      || StartsWith(uniqueId, u.resnet50Bf16)
    ensures BenchmarkLookup(defs, IdsToSourceModel(u), uniqueId)
      == Success(("RESNET50", ResNet50, Get(defs, uniqueId).value))
  {
    var t := IdsToSourceModel(u);
    assert GroupMatches(t[0].0, uniqueId) by {
      if StartsWith(uniqueId, u.resnet50Fp32) { assert t[0].0[0] == u.resnet50Fp32; }
      else if StartsWith(uniqueId, u.resnet50Fp16) { assert t[0].0[1] == u.resnet50Fp16; }
      else { assert t[0].0[2] == u.resnet50Bf16; }
    }
  }

  /** When the ResNet50 and BERT tuples are equal, a ResNet50 id resolves to BERT_LARGE. */
  lemma CollidingIdsResolveToLaterModel<D>(u: UniqueIds, defs: Dict<D>, uniqueId: string)
    requires u.ResNet50Group() == u.BertLargeGroup() && u.ResNet50Group() != u.T5LargeGroup()
    requires HasKey(defs, uniqueId) && StartsWith(uniqueId, u.resnet50Fp32)
    ensures BenchmarkLookup(defs, IdsToSourceModel(u), uniqueId)
      == Success(("BERT_LARGE", BertLarge, Get(defs, uniqueId).value))
  {
    IdsToSourceModelCollision(u);
    var t := IdsToSourceModel(u);
    assert t[0].0[0] == u.resnet50Fp32;
    assert GroupMatches(t[0].0, uniqueId);
  }

  // ---------------------------------------------------------------------------
  // run_framework_benchmark
  // ---------------------------------------------------------------------------

  /** What one call of the compiled model did: returned after `latencyMs`, or raised. */
  datatype CallResult = Timed(latencyMs: real) | Raised

  /**
   * Device selection, model construction, input transfer and jit: either all of
   * them succeed, taking `transferMs` for the transfer, or one of them raises.
   */
  datatype Setup = SetupOk(transferMs: real) | SetupRaised

  /** The exception that ends a run without committing results. */
  datatype RunError =
    | SetupFailed          // raised by device selection, model construction, transfer or jit
    | CallFailed           // raised by a model call
    | StdevFailed          // `statistics.stdev` of exactly one sample
    | CompileTimeUnbound   // `compile_time_s` read without a warmup iteration

  /** The values of the result record. */
  datatype Value = Null | Float(x: real) | Int(n: int) | Std(sd: StdDev)

  /** The number of iterations of `range(n)`. */
  function Iterations(n: int): nat {
    if n < 0 then 0 else n
  }

  /** None of the first `n` calls raised. */
  predicate AllTimed(calls: nat -> CallResult, n: nat) {
    forall i :: 0 <= i < n ==> calls(i).Timed?
  }

  /** The latencies of the first `n` calls, in call order, or `None` if one of them raised. */
  function Collect(calls: nat -> CallResult, n: nat): (r: Option<seq<real>>)
    ensures r.Some? <==> forall i :: 0 <= i < n ==> calls(i).Timed?
    ensures r.Some? ==> |r.value| == n && forall i :: 0 <= i < n ==> r.value[i] == calls(i).latencyMs
    decreases n
  {
    if n == 0 then Some([])
    else match Collect(calls, n - 1)
      case None => None
      case Some(xs) => if calls(n - 1).Raised? then None else Some(xs + [calls(n - 1).latencyMs])
  }

  /** The statistics recorded for one list of latencies. */
  datatype Summary = Summary(
    min: Option<real>, max: Option<real>, mean: Option<real>, median: Option<real>, stddev: Option<StdDev>)

  /**
   * `min(xs, default=None)`, `max(xs, default=None)` and, unless `xs` is empty,
   * `statistics.mean`, `statistics.median` and `statistics.stdev` of `xs`.
   */
  function Summarize(xs: seq<real>): (r: Result<Summary, RunError>)
    ensures r.Success? <==> |xs| != 1
    ensures r.Failure? ==> r.error == StdevFailed
    ensures xs == [] ==> r == Success(Summary(None, None, None, None, None))
  {
    if xs == [] then Success(Summary(None, None, None, None, None))
    else match Stdev(xs)
      case Failure(_) => Failure(StdevFailed)
      case Success(sd) => Success(Summary(Some(Min(xs)), Some(Max(xs)), Some(Mean(xs)), Some(Median(xs)), Some(sd)))
  }

  /** The summary of a non-empty list is complete and ordered: min <= median, mean <= max. */
  lemma SummarizeBounds(xs: seq<real>)
    requires Summarize(xs).Success? && xs != []
    ensures var s := Summarize(xs).value;
      && s.min == Some(Min(xs)) && s.max == Some(Max(xs))
      && s.mean.Some? && s.median.Some? && s.stddev.Some?
      && Min(xs) <= s.median.value <= Max(xs)
      && Min(xs) <= s.mean.value <= Max(xs)
      && s.stddev.value.variance >= 0.0
  {
  }

  function OrNull(x: Option<real>): Value {
    if x.Some? then Float(x.value) else Null
  }

  function StdOrNull(x: Option<StdDev>): Value {
    if x.Some? then Std(x.value) else Null
  }

  /** The contents of `result_dict`, before they are laid out under its keys. */
  datatype RunRecord = RunRecord(
    warmup: Summary, warmupIterations: int, latency: Summary, benchmarkIterations: int,
    compileTimeS: real, inputDataTransferMs: real)

  /** The keys of `result_dict`. */
  datatype Field =
    | MinWarmupLatencyMs | MaxWarmupLatencyMs | MeanWarmupLatencyMs | MedianWarmupLatencyMs
    | StddevWarmupLatencyMs | WarmupIterations
    | MinLatencyMs | MaxLatencyMs | MeanLatencyMs | MedianLatencyMs | StddevLatencyMs | BenchmarkIterations
    | CompileTimeS | InputDataTransferMs

  /** The text of each key, as the caller reads it from the shared dict. */
  function FieldName(f: Field): string {
    match f
    case MinWarmupLatencyMs => "min_warmup_latency_ms"
    case MaxWarmupLatencyMs => "max_warmup_latency_ms"
    case MeanWarmupLatencyMs => "mean_warmup_latency_ms"
    case MedianWarmupLatencyMs => "median_warmup_latency_ms"
    case StddevWarmupLatencyMs => "stddev_warmup_latency_ms"
    case WarmupIterations => "warmup_iterations"
    case MinLatencyMs => "min_latency_ms"
    case MaxLatencyMs => "max_latency_ms"
    case MeanLatencyMs => "mean_latency_ms"
    case MedianLatencyMs => "median_latency_ms"
    case StddevLatencyMs => "stddev_latency_ms"
    case BenchmarkIterations => "benchmark_iterations"
    case CompileTimeS => "compile_time_s"
    case InputDataTransferMs => "input_data_transfer_ms"
  }

  /** The record `result_dict` built at the end of a run. */
  function ResultDict(r: RunRecord): map<Field, Value>
  {
    map[
      MinWarmupLatencyMs := OrNull(r.warmup.min),
      MaxWarmupLatencyMs := OrNull(r.warmup.max),
      MeanWarmupLatencyMs := OrNull(r.warmup.mean),
      MedianWarmupLatencyMs := OrNull(r.warmup.median),
      StddevWarmupLatencyMs := StdOrNull(r.warmup.stddev),
      WarmupIterations := Int(r.warmupIterations),
      MinLatencyMs := OrNull(r.latency.min),
      MaxLatencyMs := OrNull(r.latency.max),
      MeanLatencyMs := OrNull(r.latency.mean),
      MedianLatencyMs := OrNull(r.latency.median),
      StddevLatencyMs := StdOrNull(r.latency.stddev),
      BenchmarkIterations := Int(r.benchmarkIterations),
      CompileTimeS := Float(r.compileTimeS),
      InputDataTransferMs := Float(r.inputDataTransferMs)
    ]
  }

  /** `compile_time_s`: the latency of the first warmup iteration in seconds, unbound without one. */
  function CompileTime(warm: seq<real>): (c: Option<real>)
    ensures c.Some? <==> warm != []
  {
    if warm == [] then None else Some(warm[0] / 1000.0)
  }

  /**
   * The expression `result_dict`: from the latency lists, the bound or unbound
   * `compile_time_s` and the transfer time, the record or the exception raised
   * on the way: the warmup statistics, then the measurement statistics, then
   * the read of `compile_time_s`.
   */
  function Record(w: int, b: int, warm: seq<real>, lat: seq<real>, compileTimeS: Option<real>, transferMs: real)
    : (r: Result<RunRecord, RunError>)
    ensures r.Success? <==> |warm| != 1 && |lat| != 1 && compileTimeS.Some?
    ensures r.Failure? ==> (r.error == StdevFailed <==> |warm| == 1 || |lat| == 1)
    ensures r.Failure? ==> r.error == StdevFailed || r.error == CompileTimeUnbound
  {
    match Summarize(warm)
    case Failure(e) => Failure(e)
    case Success(ws) =>
      match Summarize(lat)
      case Failure(e) => Failure(e)
      case Success(ls) =>
        match compileTimeS
        case None => Failure(CompileTimeUnbound)
        case Some(c) => Success(RunRecord(ws, w, ls, b, c, transferMs))
  }

  /**
   * What a run commits: the record, or the first exception raised, in the order
   * the source evaluates: setup, the warmup calls, the measurement calls, then
   * the record.
   */
  function RunSpec(setup: Setup, warmupIterations: int, benchmarkIterations: int,
                   warmupCalls: nat -> CallResult, benchmarkCalls: nat -> CallResult)
    : (r: Result<RunRecord, RunError>)
    ensures r == Failure(SetupFailed) <==> setup.SetupRaised?
    ensures r == Failure(CallFailed) <==> (
      && setup.SetupOk?
      && !(AllTimed(warmupCalls, Iterations(warmupIterations)) && AllTimed(benchmarkCalls, Iterations(benchmarkIterations))))
    ensures r == Failure(StdevFailed) <==> (
      && setup.SetupOk?
      && AllTimed(warmupCalls, Iterations(warmupIterations)) && AllTimed(benchmarkCalls, Iterations(benchmarkIterations))
      && (Iterations(warmupIterations) == 1 || Iterations(benchmarkIterations) == 1))
    ensures r == Failure(CompileTimeUnbound) <==> (
      && setup.SetupOk?
      && AllTimed(warmupCalls, Iterations(warmupIterations)) && AllTimed(benchmarkCalls, Iterations(benchmarkIterations))
      && warmupIterations <= 0 && benchmarkIterations != 1)
  {
    if setup.SetupRaised? then Failure(SetupFailed)
    else match Collect(warmupCalls, Iterations(warmupIterations))
      case None => Failure(CallFailed)
      case Some(warm) =>
        match Collect(benchmarkCalls, Iterations(benchmarkIterations))
        case None => Failure(CallFailed)
        case Some(lat) => Record(warmupIterations, benchmarkIterations, warm, lat, CompileTime(warm), setup.transferMs)
  }

  /**
   * A run commits exactly when its setup and all its calls succeed, there are
   * at least two warmup iterations and the number of measurement iterations is
   * not one.
   */
  lemma RunCommitsIff(setup: Setup, w: int, b: int, warmupCalls: nat -> CallResult, benchmarkCalls: nat -> CallResult)
    ensures RunSpec(setup, w, b, warmupCalls, benchmarkCalls).Success? <==>
      && setup.SetupOk?
      && (forall i :: 0 <= i < Iterations(w) ==> warmupCalls(i).Timed?)
      && (forall i :: 0 <= i < Iterations(b) ==> benchmarkCalls(i).Timed?)
      && w >= 2 && b != 1
  {
  }

  /** A committed record holds the iteration counts, the transfer time and the first warmup latency in seconds. */
  lemma RunRecordsCounts(setup: Setup, w: int, b: int, warmupCalls: nat -> CallResult, benchmarkCalls: nat -> CallResult)
    requires RunSpec(setup, w, b, warmupCalls, benchmarkCalls).Success?
    ensures var r := RunSpec(setup, w, b, warmupCalls, benchmarkCalls).value;
      && r.warmupIterations == w && r.benchmarkIterations == b
      && r.compileTimeS == warmupCalls(0).latencyMs / 1000.0
      && r.inputDataTransferMs == setup.transferMs
  {
  }

  /**
   * A committed record summarizes the latencies of the calls in call order:
   * the warmup list has `w` samples and the measurement list `b` samples (none
   * when `b <= 0`, in which case its statistics are absent), and for each
   * non-empty list min <= median <= max and min <= mean <= max.
   */
  lemma RunRecordsStatistics(setup: Setup, w: int, b: int, warmupCalls: nat -> CallResult, benchmarkCalls: nat -> CallResult)
    requires RunSpec(setup, w, b, warmupCalls, benchmarkCalls).Success?
    ensures var r := RunSpec(setup, w, b, warmupCalls, benchmarkCalls).value;
      var warm := Collect(warmupCalls, Iterations(w)).value;
      var lat := Collect(benchmarkCalls, Iterations(b)).value;
      && |warm| == w && (forall i :: 0 <= i < w ==> warm[i] == warmupCalls(i).latencyMs)
      && |lat| == Iterations(b) && (forall i :: 0 <= i < |lat| ==> lat[i] == benchmarkCalls(i).latencyMs)
      && r.warmup.min == Some(Min(warm)) && r.warmup.max == Some(Max(warm))
      && r.warmup.mean.Some? && r.warmup.median.Some? && r.warmup.stddev.Some?
      && Min(warm) <= r.warmup.median.value <= Max(warm)
      && Min(warm) <= r.warmup.mean.value <= Max(warm)
      && (b <= 0 ==> r.latency == Summary(None, None, None, None, None))
      && (b > 0 ==>
            && r.latency.min == Some(Min(lat)) && r.latency.max == Some(Max(lat))
            && r.latency.mean.Some? && r.latency.median.Some? && r.latency.stddev.Some?
            && Min(lat) <= r.latency.median.value <= Max(lat)
            && Min(lat) <= r.latency.mean.value <= Max(lat))
  {
    var warm := Collect(warmupCalls, Iterations(w)).value;
    var lat := Collect(benchmarkCalls, Iterations(b)).value;
    SummarizeBounds(warm);
    if b > 0 {
      SummarizeBounds(lat);
    }
  }

  /** `v` is what `result_dict` writes for the optional statistic `x`: `None` when absent, else its value. */
  predicate WrittenAs(v: Value, x: Option<real>) {
    if x.Some? then v == Float(x.value) else v == Null
  }

  /** `v` is what `result_dict` writes for the optional standard deviation `x`. */
  predicate StdWrittenAs(v: Value, x: Option<StdDev>) {
    if x.Some? then v == Std(x.value) else v == Null
  }

  /** `result_dict` has all fourteen keys. */
  lemma ResultDictKeys(r: RunRecord)
    ensures forall f: Field :: f in ResultDict(r)
  {
    forall f: Field
      ensures f in ResultDict(r)
    {
      match f
      case MinWarmupLatencyMs =>
      case MaxWarmupLatencyMs =>
      case MeanWarmupLatencyMs =>
      case MedianWarmupLatencyMs =>
      case StddevWarmupLatencyMs =>
      case WarmupIterations =>
      case MinLatencyMs =>
      case MaxLatencyMs =>
      case MeanLatencyMs =>
      case MedianLatencyMs =>
      case StddevLatencyMs =>
      case BenchmarkIterations =>
      case CompileTimeS =>
      case InputDataTransferMs =>
    }
  }

  /** In `result_dict` absent warmup statistics are written as `None`, present ones as numbers. */
  lemma ResultDictWarmupLayout(r: RunRecord)
    ensures var d := ResultDict(r);
      && WrittenAs(d[MinWarmupLatencyMs], r.warmup.min)
      && WrittenAs(d[MaxWarmupLatencyMs], r.warmup.max)
      && WrittenAs(d[MeanWarmupLatencyMs], r.warmup.mean)
      && WrittenAs(d[MedianWarmupLatencyMs], r.warmup.median)
      && StdWrittenAs(d[StddevWarmupLatencyMs], r.warmup.stddev)
      && d[WarmupIterations] == Int(r.warmupIterations)
  {
  }

  /**
   * In `result_dict` absent measurement statistics are written as `None`, present
   * ones, the iteration count and the two times as numbers.
   */
  lemma ResultDictLatencyLayout(r: RunRecord)
    ensures var d := ResultDict(r);
      && WrittenAs(d[MinLatencyMs], r.latency.min)
      && WrittenAs(d[MaxLatencyMs], r.latency.max)
      && WrittenAs(d[MeanLatencyMs], r.latency.mean)
      && WrittenAs(d[MedianLatencyMs], r.latency.median)
      && StdWrittenAs(d[StddevLatencyMs], r.latency.stddev)
      && d[BenchmarkIterations] == Int(r.benchmarkIterations)
      && d[CompileTimeS] == Float(r.compileTimeS)
      && d[InputDataTransferMs] == Float(r.inputDataTransferMs)
  {
  }

  /** The multiprocessing dict the run writes its record into. */
  class SharedDict {
    var entries: map<Field, Value>

    constructor ()
      ensures entries == map[]
    {
      entries := map[];
    }

    /** `shared_dict.update(m)`. */
    method Update(m: map<Field, Value>)
      modifies this
      ensures entries == old(entries) + m
    {
      entries := entries + m;
    }
  }

  /**
   * The warmup loop: the latencies of `range(iterations)` calls in call order,
   * stopping at the first call that raises, and `compile_time_s`, the first
   * latency in seconds, bound only when an iteration ran.
   */
  method WarmupLoop(calls: nat -> CallResult, iterations: int)
    returns (latencies: Option<seq<real>>, compileTimeS: Option<real>)
    ensures latencies == Collect(calls, Iterations(iterations))
    ensures latencies.Some? ==> compileTimeS == CompileTime(latencies.value)
  {
    var warmupLatencies: seq<real> := [];
    compileTimeS := None;
    var i := 0;
    while i < iterations
      invariant 0 <= i <= Iterations(iterations)
      invariant Collect(calls, i) == Some(warmupLatencies)
      invariant compileTimeS == if i == 0 then None else Some(warmupLatencies[0] / 1000.0)
    {
      match calls(i)
      case Raised =>
        assert Collect(calls, Iterations(iterations)).None?;
        return None, compileTimeS;
      case Timed(latency) =>
        if i == 0 {
          compileTimeS := Some(latency / 1000.0);
        }
        warmupLatencies := warmupLatencies + [latency];
        i := i + 1;
    }
    return Some(warmupLatencies), compileTimeS;
  }

  /** The measurement loop: the latencies of `range(iterations)` calls in call order, unless one raises. */
  method BenchmarkLoop(calls: nat -> CallResult, iterations: int) returns (latencies: Option<seq<real>>)
    ensures latencies == Collect(calls, Iterations(iterations))
  {
    var samples: seq<real> := [];
    var j := 0;
    while j < iterations
      invariant 0 <= j <= Iterations(iterations)
      invariant Collect(calls, j) == Some(samples)
    {
      match calls(j)
      case Raised =>
        assert Collect(calls, Iterations(iterations)).None?;
        return None;
      case Timed(latency) =>
        samples := samples + [latency];
        j := j + 1;
    }
    return Some(samples);
  }

  /**
   * `run_framework_benchmark`: the warmup loop, the measurement loop, the record
   * and its commit. The catch-all handler is the returned error: on any
   * exception the shared dict is left as it was.
   */
  method RunFrameworkBenchmark(sharedDict: SharedDict, setup: Setup,
                               warmupIterations: int, benchmarkIterations: int,
                               warmupCalls: nat -> CallResult, benchmarkCalls: nat -> CallResult)
    returns (error: Option<RunError>)
    modifies sharedDict
    ensures var spec := RunSpec(setup, warmupIterations, benchmarkIterations, warmupCalls, benchmarkCalls);
      && (spec.Success? ==> error == None && sharedDict.entries == old(sharedDict.entries) + ResultDict(spec.value))
      && (spec.Failure? ==> error == Some(spec.error) && sharedDict.entries == old(sharedDict.entries))
  {
    if setup.SetupRaised? {
      return Some(SetupFailed);
    }

    var warmup, compileTimeS := WarmupLoop(warmupCalls, warmupIterations);
    if warmup.None? {
      return Some(CallFailed);
    }
    var latenciesOrError := BenchmarkLoop(benchmarkCalls, benchmarkIterations);
    if latenciesOrError.None? {
      return Some(CallFailed);
    }
    var record := Record(warmupIterations, benchmarkIterations, warmup.value, latenciesOrError.value,
                         compileTimeS, setup.transferMs);
    if record.Failure? {
      return Some(record.error);
    }
    var resultDict := ResultDict(record.value);
    sharedDict.Update(resultDict);
    return None;
  }

  // ---------------------------------------------------------------------------
  // dump_result
  // ---------------------------------------------------------------------------

  /** A JSON document as `json.load` returns it; the order of object keys is not modelled. */
  datatype Json =
    | JNull
    | JBool(b: bool)
    | JNumber(x: real)
    | JString(s: string)
    | JArray(items: seq<Json>)
    | JObject(members: map<string, Json>)

  /** The exceptions `dump_result` can raise on a loaded document. */
  datatype DumpError =
    | NotAnObject         // item assignment on a non-dict: `TypeError`
    | MissingBenchmarks   // no `"benchmarks"` key: `KeyError`
    | BenchmarksNotAList  // `"benchmarks"` has no `append`: `AttributeError`

  function ExecutionEnvironment(pythonEnvironment: Json): Json {
    JObject(map["python_environment" := pythonEnvironment])
  }

  /**
   * The document `dump_result` writes back: `"execution_environment"` set anew
   * and `result` appended to `"benchmarks"`, which must already be there.
   */
  function Dumped(doc: Json, result: Json, pythonEnvironment: Json): (r: Result<Json, DumpError>)
    ensures r.Success? <==>
      doc.JObject? && "benchmarks" in doc.members && doc.members["benchmarks"].JArray?
    ensures !doc.JObject? ==> r == Failure(NotAnObject)
    ensures doc.JObject? && "benchmarks" !in doc.members ==> r == Failure(MissingBenchmarks)
    ensures r.Success? ==> (
      var before := doc.members["benchmarks"].items;
      var after := r.value;
      && after.JObject?
      && after.members.Keys == doc.members.Keys + {"execution_environment"}
      && after.members["benchmarks"].JArray?
      && |after.members["benchmarks"].items| == |before| + 1
      && after.members["benchmarks"].items[..|before|] == before
      && after.members["benchmarks"].items[|before|] == result
      && after.members["execution_environment"] == JObject(map["python_environment" := pythonEnvironment])
      && forall k :: k in doc.members && k != "benchmarks" && k != "execution_environment" ==>
           after.members[k] == doc.members[k])
  {
    if !doc.JObject? then Failure(NotAnObject)
    else
      var members := doc.members["execution_environment" := ExecutionEnvironment(pythonEnvironment)];
      if "benchmarks" !in members then Failure(MissingBenchmarks)
      else match members["benchmarks"]
        case JArray(items) => Success(JObject(members["benchmarks" := JArray(items + [result])]))
        case _ => Failure(BenchmarksNotAList)
  }

  /** The results file, as the JSON document it holds. */
  class ResultsFile {
    var content: Json

    constructor (content: Json)
      ensures this.content == content
    {
      this.content := content;
    }
  }

  /**
   * `dump_result(file_path, result)`: load the document, set the execution
   * environment, append the result, write the document back. When an exception
   * is raised the file is not rewritten.
   */
  method DumpResult(file: ResultsFile, result: Json, pythonEnvironment: Json) returns (error: Option<DumpError>)
    modifies file
    ensures var spec := Dumped(old(file.content), result, pythonEnvironment);
      && (spec.Success? ==> error == None && file.content == spec.value)
      && (spec.Failure? ==> error == Some(spec.error) && file.content == old(file.content))
  {
    var dictObj := file.content;
    if !dictObj.JObject? {
      return Some(NotAnObject);
    }
    var members := dictObj.members;
    members := members["execution_environment" := ExecutionEnvironment(pythonEnvironment)];
    if "benchmarks" !in members {
      return Some(MissingBenchmarks);
    }
    var benchmarks := members["benchmarks"];
    if !benchmarks.JArray? {
      return Some(BenchmarksNotAList);
    }
    members := members["benchmarks" := JArray(benchmarks.items + [result])];
    file.content := JObject(members);
    return None;
  }
}
