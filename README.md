# iree-samples: matmul problem generator and JAX benchmark harness, in Dafny

This project models two pure-Python pieces of the IREE samples repository and
proves properties about them.

**The transform-dialect matmul configuration helpers** (`transform_dialect/python/matmul_config.py`):
- `fill_matmul_f32` is the MLIR text template of a fill + matmul function, with the
  placeholders `${M}`, `${K}`, `${N}` and `${FN_NAME}`.
- `make_fill_matmul_f32_problem` instantiates the template with four successive
  `str.replace` calls. It builds the function name `mm_M_N_K`, optionally followed by the
  `key_value` entries of a strategy configuration, with commas turned into underscores.
- `append_td_repro_options`, `make_iree_baseline_options`, `make_iree_td_options` and
  `append_td_graph_script` build the IREE compiler flag lists. `make_iree_td_options`
  reads seven strategy keys from the configuration and raises `KeyError` for the first
  one that is missing.

**The JAX framework-level benchmark harness** (`iree-jax/benchmark/benchmark_model.py`):
- Two tables: model-id prefixes to model name and class, and precision to JAX dtype.
- `benchmark_lookup` finds a benchmark id in the model-definition dict and in the
  prefix table. It raises one of two `ValueError`s.
- `run_framework_benchmark` runs a warmup loop and a measurement loop, then builds
  the 14-key result record. It writes the record into the shared dict in one
  `update`, or not at all when any exception reaches the catch-all handler.
- `dump_result` merges a result into a JSON results document.

Modules:
- `Wrappers`: `Option` and `Result`.
- `Text`: Python's `str.startswith`, `str.replace`, `str.join` and `str(int)` on
  `seq<char>`.
- `Dicts`: insertion-ordered dicts as duplicate-free sequences of pairs.
- `Statistics`: `min`, `max`, `statistics.mean`, `statistics.median` and
  `statistics.stdev` over exact reals.
- `MatmulConfig`: the first file.
- `BenchmarkModel`: the second file.

How the template is verified. `FillMatmulF32` is
the template rendered from its pieces: literal text and placeholders. `FillTemplate` is the
four-fold `ReplaceAll` of the source. `Expand` is an independent reference that formats the
pieces directly. `MatmulConfig.FillTemplateExpands` proves the two agree whenever the
dimension texts are `$`-free, which `str(int)` always is.

How a benchmark run is modelled. The run's environment becomes inputs:
- a `Setup` value: device, model construction, input transfer and jit either all
  succeed, with a transfer time, or one of them raises;
- two call oracles `nat -> CallResult`, saying for each iteration's model call
  (including its `compare_results`) whether it returned after a latency or raised.

The method `BenchmarkModel.RunFrameworkBenchmark` is proved against the pure function
`BenchmarkModel.RunSpec`. The lemmas then characterise `RunSpec`: it commits exactly
when setup and every call succeed, `warmup_iterations >= 2` and
`benchmark_iterations != 1`.

Both lookup failures raise `ValueError`; the Dafny type `LookupError` tells them
apart by its constructors `UnknownId` and `NotSupported`. The `benchmark` argument
of `make_iree_td_options` is accepted and ignored.

## Model

| member | source | states |
|---|---|---|
| MatmulConfig.PlaceholderText | transform_dialect/python/matmul_config.py:22-26 | each placeholder pattern starts with `${` and has no other `$` |
| MatmulConfig.TemplateLitsFree | transform_dialect/python/matmul_config.py:2-15 | no literal text of the template contains a `$`, so only the placeholders can match a pattern |
| MatmulConfig.TemplateHasFnName | transform_dialect/python/matmul_config.py:6 | the template has fifteen pieces and `${FN_NAME}` is the fourteenth, right after `func.func @` |
| MatmulConfig.ExpandAroundName | transform_dialect/python/matmul_config.py:2-15 | the filled template is a text without `$` (the literals before `${FN_NAME}` and M, K, N), then the name, then the rest of the template |
| MatmulConfig.PlaceholderFromName | transform_dialect/python/matmul_config.py:2-26 | a placeholder occurs in the filled template exactly when it occurs in the name written into it, because the text after the name starts with `(` and no placeholder contains one |
| MatmulConfig.Subst | transform_dialect/python/matmul_config.py:22-26 | substituting one placeholder keeps every other piece and replaces exactly the holes of that placeholder |
| MatmulConfig.ReplaceAllRender | transform_dialect/python/matmul_config.py:22-26 | on a template whose literals have no `$`, `str.replace` of one placeholder equals rendering with that placeholder substituted |
| MatmulConfig.FillTemplateExpands | transform_dialect/python/matmul_config.py:22-26 | the chain of four `replace` calls (M, K, N, FN_NAME) equals direct formatting, when M, K and N have no `$` |
| MatmulConfig.FillTemplate | transform_dialect/python/matmul_config.py:22-26 | the four `replace` calls return a template without `$` unchanged |
| MatmulConfig.FillTemplateWithoutPlaceholders | transform_dialect/python/matmul_config.py:22-26 | a template in which none of `${M}`, `${K}`, `${N}`, `${FN_NAME}` occurs is returned unchanged |
| MatmulConfig.ExpandCharacters | transform_dialect/python/matmul_config.py:22-26 | a character absent from the literal text and from M, K and N appears in the instantiated text only if it is in the function name |
| MatmulConfig.ExpandContainsValue | transform_dialect/python/matmul_config.py:22-26 | every character of a substituted value appears in the instantiated text |
| MatmulConfig.BaseName | transform_dialect/python/matmul_config.py:18 | the base name starts with `mm_` and has neither a comma nor a `$` |
| MatmulConfig.RawName | transform_dialect/python/matmul_config.py:18-20 | the name before its commas are replaced starts with the base name, and a comma in it comes from a configuration |
| MatmulConfig.EntryTexts | transform_dialect/python/matmul_config.py:20 | each configuration entry becomes `key + "_" + value`, in insertion order |
| MatmulConfig.FunctionName | transform_dialect/python/matmul_config.py:18-21 | the function name contains no comma |
| MatmulConfig.FunctionNameWithoutConfig | transform_dialect/python/matmul_config.py:18-21 | without a configuration the name is `mm_` + M + `_` + N + `_` + K |
| MatmulConfig.FunctionNameWithConfig | transform_dialect/python/matmul_config.py:19-21 | with a configuration the name is the base name, `_` and the `_`-joined entries, with every `,` turned into `_` and every other character kept in place |
| MatmulConfig.FunctionNameDollar | transform_dialect/python/matmul_config.py:18-21 | the name has a `$` only if a configuration key or value has one |
| MatmulConfig.MakeFillMatmulF32Problem | transform_dialect/python/matmul_config.py:17-27 | the returned function name has no comma |
| MatmulConfig.MakeFillMatmulF32ProblemFormats | transform_dialect/python/matmul_config.py:22-27 | the returned MLIR text is the template formatted with `str(M)`, `str(K)`, `str(N)` and the returned name |
| MatmulConfig.MakeFillMatmulF32ProblemNoPlaceholder | transform_dialect/python/matmul_config.py:22-27 | the MLIR text has a `$` exactly when the name has one, and each of `${M}`, `${K}`, `${N}`, `${FN_NAME}` occurs in it exactly when it occurs in the name; a name without `$` leaves no placeholder |
| MatmulConfig.NoPlaceholderForPlainConfig | transform_dialect/python/matmul_config.py:17-27 | a configuration without `$` leaves no placeholder in the MLIR text |
| MatmulConfig.AppendTdReproOptions | transform_dialect/python/matmul_config.py:38-43 | the options are kept as a prefix; with `td_repro`, exactly the two repro flags are appended; otherwise nothing is |
| MatmulConfig.MakeIreeBaselineOptions | transform_dialect/python/matmul_config.py:45-55 | the five baseline flags in order, then the repro flags when asked for: 5 or 7 flags |
| MatmulConfig.FormatFlags | transform_dialect/python/matmul_config.py:81-87 | succeeds exactly when every key is present; each flag is its prefix followed by the key's value; a failure names the first missing key |
| MatmulConfig.MakeIreeTdOptions | transform_dialect/python/matmul_config.py:73-92 | `KeyError` exactly when one of the seven strategy keys is missing, naming the first missing one; otherwise 14 or 16 flags: the four common flags, the seven strategy flags with their values in order, the three fixed tail flags, then the repro flags |
| MatmulConfig.MakeIreeTdOptionsIgnoresBenchmark | transform_dialect/python/matmul_config.py:73 | the `benchmark` argument does not change the result |
| MatmulConfig.AppendTdGraphScript | transform_dialect/python/matmul_config.py:94-102 | without a file name the list is unchanged; with one, a single `--iree-flow-dispatch-use-transform-dialect=` flag naming that file is appended |
| Text.ReplaceAllSkips | transform_dialect/python/matmul_config.py:22-26 | text without the pattern's first character passes through `replace` unchanged |
| Text.ReplaceAll | transform_dialect/python/matmul_config.py:21-26 | `str.replace` returns a text without the pattern's first character unchanged |
| Text.ReplaceAllAbsent | transform_dialect/python/matmul_config.py:21-26 | `str.replace` returns a text in which the pattern does not occur unchanged |
| Text.ReplaceAllAtFront | transform_dialect/python/matmul_config.py:22-26 | an occurrence at the scan position is replaced and the scan resumes after it |
| Text.ReplaceCharPointwise | transform_dialect/python/matmul_config.py:21 | replacing one character by another keeps the length and maps each position on its own |
| Text.ReplaceCharRemoves | transform_dialect/python/matmul_config.py:21 | after `replace(',', '_')` no comma is left |
| Text.ReplaceCharAbsent | transform_dialect/python/matmul_config.py:21 | `replace` of an absent character is the identity |
| Text.IntToString | transform_dialect/python/matmul_config.py:18 | `str(int)` is non-empty and made of digits with an optional leading minus, which appears exactly for negative numbers |
| Text.IntToStringRoundTrip | transform_dialect/python/matmul_config.py:18 | `str(int)` parses back to the same integer |
| Text.NatToStringRoundTrip | transform_dialect/python/matmul_config.py:18 | the decimal digits of a natural number read back as that number |
| Text.JoinContainsEach | iree-jax/benchmark/benchmark_model.py:50 | every joined item occurs in the joined text |
| Text.Join | transform_dialect/python/matmul_config.py:20 | a joined non-empty list starts with its first item |
| Text.JoinCharacters | transform_dialect/python/matmul_config.py:20 | every character of a joined text comes from the separator or from an item |
| Dicts.Keys | iree-jax/benchmark/benchmark_model.py:50 | the keys of a dict in insertion order |
| Dicts.Get | iree-jax/benchmark/benchmark_model.py:49-54 | a lookup finds a value exactly when the key is present, and that value is the key's entry |
| Dicts.Assign | iree-jax/benchmark/benchmark_model.py:24-40 | assigning a key keeps the keys distinct; a present key keeps its position and takes the new value, every other entry is unchanged; a new key is appended last |
| Dicts.DictDisplay | iree-jax/benchmark/benchmark_model.py:24-40 | a dict display has distinct keys, and a display whose keys are all different is exactly its entries in order |
| Dicts.DictDisplayRepeatedKey | iree-jax/benchmark/benchmark_model.py:24-40 | a key written twice and then a different key make two entries: the first key, in its first position, with its later value, then the other key |
| Statistics.Min | iree-jax/benchmark/benchmark_model.py:122 | `min` of a non-empty list is one of its elements and is at most every element |
| Statistics.Max | iree-jax/benchmark/benchmark_model.py:123 | `max` of a non-empty list is one of its elements and is at least every element |
| Statistics.Mean | iree-jax/benchmark/benchmark_model.py:124 | the mean of a non-empty list lies between its minimum and its maximum |
| Statistics.Insert | iree-jax/benchmark/benchmark_model.py:125 | inserting into a sorted list keeps it sorted and is a permutation of the input plus the element |
| Statistics.Sort | iree-jax/benchmark/benchmark_model.py:125 | the sorted copy used by `median` is sorted and a permutation of the input |
| Statistics.SortEnds | iree-jax/benchmark/benchmark_model.py:125 | the sorted copy starts with the minimum and ends with the maximum |
| Statistics.Median | iree-jax/benchmark/benchmark_model.py:125 | the median of a non-empty list lies between its minimum and its maximum |
| Statistics.SingleSample | iree-jax/benchmark/benchmark_model.py:124-125 | the mean and the median of one sample are that sample |
| Statistics.Variance | iree-jax/benchmark/benchmark_model.py:126 | the sample variance is non-negative |
| Statistics.Stdev | iree-jax/benchmark/benchmark_model.py:126 | `stdev` succeeds exactly for two or more samples, with a non-negative variance |
| Statistics.VarianceOfIdenticalSamples | iree-jax/benchmark/benchmark_model.py:126 | identical samples have variance zero |
| BenchmarkModel.DtypeMapping | iree-jax/benchmark/benchmark_model.py:42-46 | exactly FP32, FP16 and BF16 have a JAX dtype |
| BenchmarkModel.DtypeMappingInjective | iree-jax/benchmark/benchmark_model.py:42-46 | different precisions map to different JAX dtypes |
| BenchmarkModel.FirstMatchingGroup | iree-jax/benchmark/benchmark_model.py:56-59 | the result is the first group with an id that prefixes the benchmark id; none means no group has one |
| BenchmarkModel.BenchmarkLookup | iree-jax/benchmark/benchmark_model.py:48-61 | an id missing from the definitions gives the "does not exist" error listing the known ids; a known id with no prefix match gives "Model definition not supported"; success happens exactly when both are found, and returns the first matching group's name and class with the id's definition |
| BenchmarkModel.UnknownIdListsEveryId | iree-jax/benchmark/benchmark_model.py:49-52 | the unknown-id message contains every id of the definitions dict |
| BenchmarkModel.IdsToSourceModel | iree-jax/benchmark/benchmark_model.py:24-40 | with three different id tuples the table is the RESNET50, BERT_LARGE and T5_LARGE groups in the order written |
| BenchmarkModel.IdsToSourceModelCollision | iree-jax/benchmark/benchmark_model.py:24-40 | equal ResNet50 and BERT tuples make one key, in the first position, holding the later value BERT_LARGE |
| BenchmarkModel.ResNet50IdsResolve | iree-jax/benchmark/benchmark_model.py:24-59 | with three different id tuples, a known id with one of the ResNet50 prefixes resolves to `RESNET50` with its definition |
| BenchmarkModel.CollidingIdsResolveToLaterModel | iree-jax/benchmark/benchmark_model.py:24-59 | with equal ResNet50 and BERT tuples, a known id with the ResNet50 FP32 prefix resolves to `BERT_LARGE` |
| BenchmarkModel.Collect | iree-jax/benchmark/benchmark_model.py:98-118 | the latency list exists exactly when none of the first n calls raised; it has n samples, in call order |
| BenchmarkModel.Summarize | iree-jax/benchmark/benchmark_model.py:122-132 | the five statistics fail exactly for one sample (`stdev`) and are all `None` for an empty list |
| BenchmarkModel.SummarizeBounds | iree-jax/benchmark/benchmark_model.py:122-132 | for a non-empty list the summary takes its min and max, has every statistic, and min <= median, mean <= max |
| BenchmarkModel.CompileTime | iree-jax/benchmark/benchmark_model.py:106-107 | `compile_time_s` is bound exactly when a warmup iteration ran |
| BenchmarkModel.WarmupLoop | iree-jax/benchmark/benchmark_model.py:98-108 | the warmup latencies are those of the first `warmup_iterations` calls, in order, unless a call raised; `compile_time_s` is the first of them in seconds |
| BenchmarkModel.BenchmarkLoop | iree-jax/benchmark/benchmark_model.py:111-118 | the measured latencies are those of the first `benchmark_iterations` calls, in order, unless a call raised |
| BenchmarkModel.RunCommitsIff | iree-jax/benchmark/benchmark_model.py:85-140 | a run commits exactly when setup and every call succeed, `warmup_iterations >= 2` and `benchmark_iterations != 1` |
| BenchmarkModel.RunRecordsCounts | iree-jax/benchmark/benchmark_model.py:93-135 | a committed record holds both iteration counts, the transfer time and the first warmup latency divided by 1000 |
| BenchmarkModel.RunRecordsStatistics | iree-jax/benchmark/benchmark_model.py:98-132 | a committed record summarizes `warmup_iterations` and `max(0, benchmark_iterations)` latencies in call order; an empty measurement list gives `None` statistics; min <= median, mean <= max for each non-empty list |
| BenchmarkModel.Record | iree-jax/benchmark/benchmark_model.py:121-136 | the record is built exactly when neither latency list has one sample and `compile_time_s` is bound; `stdev`'s error comes before the unbound `compile_time_s` |
| BenchmarkModel.RunSpec | iree-jax/benchmark/benchmark_model.py:85-140 | each exception arises exactly in its case: the setup, a raising call, a one-sample latency list, or no warmup iteration while the measurement list is not a single sample |
| BenchmarkModel.ResultDictKeys | iree-jax/benchmark/benchmark_model.py:121-136 | the record has all fourteen keys |
| BenchmarkModel.ResultDictWarmupLayout | iree-jax/benchmark/benchmark_model.py:122-127 | each warmup statistic is written as `None` when absent and as its value when present; `warmup_iterations` as the count |
| BenchmarkModel.ResultDictLatencyLayout | iree-jax/benchmark/benchmark_model.py:128-135 | each measurement statistic is written as `None` when absent and as its value when present; the count, `compile_time_s` and `input_data_transfer_ms` as numbers |
| BenchmarkModel.SharedDict.Update | iree-jax/benchmark/benchmark_model.py:137 | `update` merges the record over the dict's previous contents |
| BenchmarkModel.RunFrameworkBenchmark | iree-jax/benchmark/benchmark_model.py:79-140 | the run commits `RunSpec`'s record into the shared dict in one update, or reports `RunSpec`'s exception and leaves the dict unchanged |
| BenchmarkModel.Dumped | iree-jax/benchmark/benchmark_model.py:64-74 | the write succeeds exactly for an object with a list under `"benchmarks"`; it appends exactly the result, keeps the earlier entries in order, sets the execution environment and keeps every other key |
| BenchmarkModel.DumpResult | iree-jax/benchmark/benchmark_model.py:64-74 | the file holds `Dumped`'s document afterwards, or is left as it was when an exception is raised |

## Left out

- `compute_precision` (matmul_config.py) is left out. It works on tensors and floating-point tolerances.
- JAX itself is left out: devices, `jax.device_put`, `jax.jit`, the models and `block_until_ready`. A run sees only whether setup succeeded and each call's latency or exception.
- The clock (`time.perf_counter`) is left out. Latencies and the transfer time are inputs, so the `1000 * (end - start)` conversions are not modelled.
- `utils.compare_results` is not part of this model. A failed comparison is one way a call can raise.
- The `print` in the catch-all handler is left out. An exception is reported as the method's error result.
- The subprocess and `multiprocessing` manager that host the shared dict are left out. The shared dict is a class with one map field.
- The command-line `__main__` driver and `argparse` are left out.
- `bytes_to_mb_str` is left out. It only formats a number for display.
- The pjrt-plugin, tflitehub, async and nvgpu files are context, not part of this model.
- Opening, reading and writing the results file are left out. `json.load`/`json.dump` are modelled as a `Json` value held by `ResultsFile`.
- The order of JSON object keys and of `result_dict`'s keys is not modelled. In the model, objects are maps and the record is keyed by the `Field` enumeration. `FieldName` gives each key's text.
- The string values of the `unique_ids` constants and the entries of `JAX_MODELS_DICT` are not visible. They are parameters (`UniqueIds`, the definitions dict).
- The `DataType` enumeration may have more members than FP32/FP16/BF16. Any other member is `OtherDataType`, for which the mapping raises `KeyError`.
- Integers wider than a machine word are not relevant: Python integers are unbounded, and so are Dafny's.
- Latencies and statistics are exact reals, not IEEE doubles. Rounding, NaN and infinity are not modelled.
- Statistics.Stdev: the square root is not computed. The result is `SqrtOf(variance)`, which keeps the radicand with the proof that it is non-negative.
- Statistics.Median: `statistics.median` is modelled on exact reals, so the even-length average is exact.
- MatmulConfig.FunctionName: configuration values are given as their `str()` text. The conversion of arbitrary Python values to text is not modelled.
- MatmulConfig.MakeFillMatmulF32Problem: M, N and K are integers. The source would accept any value with a `str()`.
- MatmulConfig.FillTemplateExpands: the agreement with direct formatting is proved only for `$`-free M, K and N. For integers this always holds, and `MakeFillMatmulF32ProblemFormats` uses exactly that.
- MatmulConfig.NoPlaceholderForPlainConfig: covers only configurations without `$`. For any configuration, `MakeFillMatmulF32ProblemNoPlaceholder` gives the exact condition: a placeholder is left exactly when it occurs in the name. Entries without a placeholder can still join into one (key `${FN`, value `NAME}`).
- BenchmarkModel.ResNet50IdsResolve: requires three different id tuples. When the ResNet50 and BERT tuples are equal the id resolves to BERT_LARGE, as `CollidingIdsResolveToLaterModel` states.
- MatmulConfig.MakeIreeTdOptionsIgnoresBenchmark: the property holds by construction, because the source never reads `benchmark`.
