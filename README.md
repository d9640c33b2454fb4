# neural_sp ASR evaluation core, modelled in Dafny

This project models three pieces of the neural_sp speech-recognition toolkit and proves properties of them.

- **The ASR dataset** (`neural_sp/datasets/loader_asr.py`) is modelled in `loader.dfy`, with `manifest.dfy` for the data frames and `text.dfy` for the string helpers.
  - The constructor chooses the token converters for the main task and the two sub-tasks, and counts the vocabularies.
  - In training mode it drops utterances outside the frame bounds and, with CTC, those whose targets are too long for the subsampled input.
  - It aligns the main table with the first sub-task's table, but only when their sizes differ.
  - It orders the rows by input length, at random, or by utterance id.
  - `make_batch` collects features, targets (transcripts in test mode, parsed `token_id` lists otherwise) and the per-utterance columns for a list of row labels, raising a KeyError for a label that a present sub table lacks.
- **The sequence-level RNN language model** (`neural_sp/models/rnnlm/rnnlm_seq.py`) is modelled in `rnnlm.dfy`.
  - The constructor's validation and the shapes of the layers it builds.
  - The teacher-forcing input and output sequences and the masked token accuracy of `_forward`.
  - The per-layer state list that `predict` updates in place.
  - The zero states of `initialize_hidden`.
  - The recurrent layers, dropout and output projection are functions passed in by the caller.
- **The evaluation driver** (`neural_sp/bin/asr/eval.py`, `main`) is modelled in `eval.dfy`.
  - It merges the training configuration into the command-line namespace without overriding anything; the namespace is a `Namespace` class whose map of attributes is updated in place.
  - It opens a dataset per evaluation set.
  - On the first set it sets `vocab`, `vocab_sub1` and `input_dim`, builds and loads the model, and optionally attaches a shallow-fusion LM.
  - It dispatches every set to the word, wordpiece, character or phone scorer, then logs the means.
  - `Evaluate` is an imperative method proved equal to a reference function `ExpectedRun`, which returns the run as a trace of events (model built, LM attached, epoch logged, set scored, mean reported) ending either `Completed` or `Aborted(error)`.
  - The lemmas about the reference state what a run does: every set is scored once and in order, or none is.
    - The events come in stage order.
    - All scorer calls share the first set's configuration.
    - The means are the sums of the scores divided by the number of sets.

File reads, the model, the checkpoint loader and the scorers are the fields of an `Env` value: opaque functions the run is parameterised by.

Errors are modelled as values wherever the source raises. Examples:
- an unknown unit is `ValueError(unit)`;
- a missing attribute is an `AttributeError`;
- the assertion on the LM's unit;
- `'char' in recog_unit` evaluated with `recog_unit` left at `False`, a TypeError;
- the division by `len(eval_sets)` over an empty list;
- the residual addition with `xs_lower` still `None`;
- `self.rnn[l]` on the single RNN of the fast implementation.

Where the code's behaviour is surprising, the model follows the code:
- `sort_values(by='x_len', ascending=short2long)` sorts in *descending* order when `short2long` is false.
- Sub-task 1 rows are pruned only when the two table sizes differ: `EqualSizesCanStayMisaligned` shows equal sizes leaving the tables misaligned.
- With `unit: word_char`, every set goes to the word scorer while the report takes the `'char' in unit` branch. The logged CER mean is then 0 (`WordCharReportsZeroCer`).
- With `unit: phone` and no `recog_unit`, the char test raises before the phone scorer is reached (`PhoneNeedsRecogUnit`, `PhoneWithoutRecogUnitAborts`).
- In `_forward` and `predict`, `xs_lower` is only ever assigned inside the residual branch. So a residual LM with two or more layers raises at layer 1 (`ResidualStacksFail`).

## Model

| member | source | states |
|---|---|---|
| LoaderAsr.Defaults | neural_sp/datasets/loader_asr.py:37-48 | the keyword defaults: frame bounds 40 and 2000, no test mode, no shuffling or sorting, no CTC, subsample factor 1 |
| LoaderAsr.MainConverters | neural_sp/datasets/loader_asr.py:92-105 | the main task's converters: word (with the word_char mix flag) iff the unit is word or word_char, wordpiece with the wp model iff wp, char iff char, phone iff none of those and it contains "phone"; otherwise `InvalidUnit(unit)` |
| LoaderAsr.SubConverters | neural_sp/datasets/loader_asr.py:111-122 | a falsy sub-unit installs nothing; otherwise wp, char or phone converters on the sub dictionary, and `InvalidUnit` exactly when the unit is none of them |
| LoaderAsr.SubTask | neural_sp/datasets/loader_asr.py:107-124 | without a sub dictionary the vocabulary is -1 and nothing is installed; with one, its counted size, failing exactly when the sub-unit is invalid |
| LoaderAsr.SetUpErrors | neural_sp/datasets/loader_asr.py:89-143 | the main unit is validated before sub1 and sub1 before sub2; setup succeeds iff every unit that is checked is valid |
| LoaderAsr.SetUpResult | neural_sp/datasets/loader_asr.py:89-143 | a successful setup has the main vocabulary, -1 for each absent sub dictionary, the main converters installed (word converters with the word_char flag), and only those when no sub-task installs any |
| LoaderAsr.SetUpIgnoresCsvPath | neural_sp/datasets/loader_asr.py:89-143 | the converters and vocabulary sizes do not depend on the manifest path |
| LoaderAsr.Filtered | neural_sp/datasets/loader_asr.py:164-174 | the threshold and CTC filters keep a valid sub-table of the input |
| LoaderAsr.Align | neural_sp/datasets/loader_asr.py:193-196 | making up the number keeps a valid sub-table of each input |
| LoaderAsr.Survivors | neural_sp/datasets/loader_asr.py:160-197 | the main table keeps a valid sub-table, and a sub1 table survives iff one was given |
| LoaderAsr.FilterTables | neural_sp/datasets/loader_asr.py:160-197 | the filtering statements applied to the tables in turn give the tables of the filter specification `Survivors` |
| LoaderAsr.Create | neural_sp/datasets/loader_asr.py:37-213 | fails exactly when setup fails, with its error; otherwise the dataset keeps the arguments, the set name, the setup's sizes and converters, the surviving rows arranged by the chosen ordering, the filtered sub1 table, the unfiltered sub2 table, and `rest` equal to the set of surviving labels |
| LoaderAsr.TrainingRowsSatisfyFilters | neural_sp/datasets/loader_asr.py:164-174 | in training mode every surviving main row has `min_nframes <= x_len <= max_nframes`, and `y_len <= x_len // subsample_factor` when the CTC filter is on |
| LoaderAsr.TrainingFiltersComplete | neural_sp/datasets/loader_asr.py:160-174 | without a sub1 table, a training row survives iff it passes both filters |
| LoaderAsr.TestModeKeepsRows | neural_sp/datasets/loader_asr.py:160 | in test mode no table loses a row |
| LoaderAsr.Sub1RowsSatisfyFilters | neural_sp/datasets/loader_asr.py:176-191 | surviving sub1 rows pass the frame bounds and sub1's own CTC condition |
| LoaderAsr.AlignedWhenSizesDiffer | neural_sp/datasets/loader_asr.py:193-196 | when the filtered sizes differ, both tables end with exactly their common labels |
| LoaderAsr.EqualSizesUntouched | neural_sp/datasets/loader_asr.py:194 | when the sizes agree, neither table changes |
| LoaderAsr.EqualSizesCanStayMisaligned | neural_sp/datasets/loader_asr.py:193-196 | two tables of equal size with different labels are left with different labels |
| LoaderAsr.DefaultThresholdExample | neural_sp/datasets/loader_asr.py:165 | under the defaults, utterances of 50, 150 and 2500 frames keep the first two |
| LoaderAsr.RowTarget | neural_sp/datasets/loader_asr.py:241-244 | one row's target is read iff the label is in the table and, in training mode, its `token_id` parses; a missing label is a KeyError, a bad field a ValueError |
| LoaderAsr.Targets | neural_sp/datasets/loader_asr.py:241-244 | targets succeed iff every indexed row's target can be read, each being that row's transcript or parsed ids; a failure is the error of the first row that cannot be read |
| LoaderAsr.SubTargets | neural_sp/datasets/loader_asr.py:248-264 | an absent sub table gives empty lists; otherwise the sub table's targets and `y_len` per index, failing exactly when some indexed row is missing from it or, in training mode, does not parse, and then with that table's first error |
| LoaderAsr.Features | neural_sp/datasets/loader_asr.py:234-238 | with `skip_speech` both lists are empty; otherwise each index gives its feature matrix and `x_len` |
| LoaderAsr.Assemble | neural_sp/datasets/loader_asr.py:266-273 | the batch holds the features, the targets, and each index's `y_len`, utterance id, text and feature path |
| LoaderAsr.MakeBatch | neural_sp/datasets/loader_asr.py:215-273 | for labels of the main table, the batch succeeds iff every indexed row of the main table and of each present sub table can be read; its features, main targets and both sub-task columns are those of the indexed rows; a failure is the main table's first error, else sub1's, else sub2's |
| LoaderAsr.MissingSub1RowFails | neural_sp/datasets/loader_asr.py:241-258 | with readable main rows, the first indexed label missing from the sub1 table makes the batch fail with a KeyError on that label |
| LoaderAsr.BatchColumns | neural_sp/datasets/loader_asr.py:245-273 | the batch's `ylens`, `utt_ids`, `text` and `feat_path` are read from the indexed main rows, in order |
| LoaderAsr.TrainingTargetsRoundTrip | neural_sp/datasets/loader_asr.py:243-244 | rows whose `token_id` was written from id lists give those lists back as targets |
| LoaderAsr.TestTargetsAreTranscripts | neural_sp/datasets/loader_asr.py:241-264 | in test mode a batch fails iff some label is missing from a present sub table, and its targets are the transcripts |
| Manifest.KeepLabels | neural_sp/datasets/loader_asr.py:165 | the kept labels are exactly those passing the test, in their original order, and stay distinct |
| Manifest.Where | neural_sp/datasets/loader_asr.py:165 | a masked frame is a valid sub-table holding exactly the rows that pass |
| Manifest.WithinFrames | neural_sp/datasets/loader_asr.py:165 | keeps exactly the rows with `min <= x_len <= max`, both bounds included |
| Manifest.CtcFeasible | neural_sp/datasets/loader_asr.py:173 | keeps exactly the rows with `y_len <= x_len // factor` |
| Manifest.Restrict | neural_sp/datasets/loader_asr.py:195-196 | `drop(index.difference(keys))` keeps exactly the labels in both |
| Manifest.SizeIsRowCount | neural_sp/datasets/loader_asr.py:194 | `len(df)` is the number of rows |
| Manifest.InOrderTotal | neural_sp/datasets/loader_asr.py:200-207 | each ordering relates every pair of rows |
| Manifest.InOrderTransitive | neural_sp/datasets/loader_asr.py:200-207 | each ordering is transitive |
| Manifest.Insert | neural_sp/datasets/loader_asr.py:200-207 | inserting adds exactly one occurrence of the label |
| Manifest.InsertSorted | neural_sp/datasets/loader_asr.py:200-207 | inserting into a sorted list keeps it sorted |
| Manifest.SortLabels | neural_sp/datasets/loader_asr.py:200-207 | sorting permutes the labels |
| Manifest.SortLabelsSorted | neural_sp/datasets/loader_asr.py:200-207 | the sorted labels are in order |
| Manifest.ArrangementExists | neural_sp/datasets/loader_asr.py:200-207 | every table has an arrangement under every ordering |
| Manifest.PermutationDistinct | neural_sp/datasets/loader_asr.py:205 | a permutation of distinct labels is distinct |
| Manifest.ArrangedValid | neural_sp/datasets/loader_asr.py:200-209 | reordering keeps a valid table with the same labels and records |
| Text.ContainsAt | neural_sp/datasets/loader_asr.py:101 | `sub in s` holds iff `sub` occurs at some position of `s` |
| Text.StrLeTotal | neural_sp/datasets/loader_asr.py:207 | string order relates every pair |
| Text.StrLeTransitive | neural_sp/datasets/loader_asr.py:207 | string order is transitive |
| Text.StrLeAntisymmetric | neural_sp/datasets/loader_asr.py:207 | strings ordered both ways are equal |
| Text.Word | neural_sp/datasets/loader_asr.py:244 | a word is the whitespace-free prefix, ended by whitespace or the end of the string |
| Text.Split | neural_sp/datasets/loader_asr.py:244 | `str.split()` gives non-empty fields without whitespace |
| Text.SplitJoinSpaced | neural_sp/datasets/loader_asr.py:244 | splitting space-joined fields gives the fields back |
| Text.ParseInt | neural_sp/datasets/loader_asr.py:244 | a field parses iff it is an optional sign followed by one or more ASCII digits |
| Text.ParseFormatInt | neural_sp/datasets/loader_asr.py:244 | `int(str(n)) == n` |
| Text.ParseAll | neural_sp/datasets/loader_asr.py:244 | `map(int, fields)` succeeds iff every field parses, with one id per field |
| Text.ParseFormatTokenIds | neural_sp/datasets/loader_asr.py:244 | a `token_id` field written from ids parses back to those ids |
| Text.BaseName | neural_sp/datasets/loader_asr.py:77 | `os.path.basename` is the slash-free suffix after the last '/' |
| Text.FirstField | neural_sp/datasets/loader_asr.py:77 | `split('.')[0]` is the prefix before the first '.' |
| Text.BaseNameOfJoin | neural_sp/bin/asr/eval.py:96 | the base name of a joined path is the joined name |
| RnnLmSeq.KindOf | neural_sp/models/rnnlm/rnnlm_seq.py:36 | only "lstm" and "gru" are accepted |
| RnnLmSeq.StackedRnns | neural_sp/models/rnnlm/rnnlm_seq.py:76-93 | one single-layer RNN per layer, reading the embedding width at layer 0, then the projection or hidden width |
| RnnLmSeq.Configure | neural_sp/models/rnnlm/rnnlm_seq.py:30-112 | fails exactly on an unsupported RNN type or tied weights with `nunits != emb_dim`; otherwise the fast implementation iff there are no projections and no residual, the layer list, projections after all but the last layer, and the output width |
| RnnLmSeq.Build | neural_sp/models/rnnlm/rnnlm_seq.py:30-112 | building the layer lists one layer at a time gives the configured model or error |
| RnnLmSeq.StackedWidthsChain | neural_sp/models/rnnlm/rnnlm_seq.py:76-101 | without projections, each stacked layer reads the width of the one below and the output reads the top width |
| RnnLmSeq.Reversed | neural_sp/models/rnnlm/rnnlm_seq.py:157 | `y[::-1]` element by element |
| RnnLmSeq.PadList | neural_sp/models/rnnlm/rnnlm_seq.py:161 | every row padded with the pad id to the longest length |
| RnnLmSeq.Oriented | neural_sp/models/rnnlm/rnnlm_seq.py:156-159 | sequences reversed iff the LM is backward |
| RnnLmSeq.PaddedOriented | neural_sp/models/rnnlm/rnnlm_seq.py:156-161 | entry `t` of row `b` is token `t` in reading order, or padding past the end |
| RnnLmSeq.ShiftedInputs | neural_sp/models/rnnlm/rnnlm_seq.py:162 | `ys_in` has width L-1 and holds tokens 0 .. L-2 |
| RnnLmSeq.ShiftedOutputs | neural_sp/models/rnnlm/rnnlm_seq.py:163 | `ys_out` has width L-1 and holds tokens 1 .. L-1 |
| RnnLmSeq.TeacherForcing | neural_sp/models/rnnlm/rnnlm_seq.py:155-163 | each input position `t` holds token `t` and each output position token `t + 1`, in reading order, padding past each sequence's end |
| RnnLmSeq.AccuracyCounts | neural_sp/models/rnnlm/rnnlm_seq.py:192-195 | the denominator is the number of non-pad targets, and the numerator counts the non-pad positions where the prediction equals the target, never more than the denominator |
| RnnLmSeq.MaskedHits | neural_sp/models/rnnlm/rnnlm_seq.py:194 | comparing the two masked selections counts the hits at unmasked positions |
| RnnLmSeq.NonPadFlatten | neural_sp/models/rnnlm/rnnlm_seq.py:193-195 | the mask's count over the flattened matrix is its non-pad count |
| RnnLmSeq.HitsBound | neural_sp/models/rnnlm/rnnlm_seq.py:194-195 | hits never exceed the unmasked positions |
| RnnLmSeq.Accuracy | neural_sp/models/rnnlm/rnnlm_seq.py:196 | no value iff the denominator is 0 (ZeroDivisionError); otherwise between 0 and 100, and 100 iff every target is hit |
| RnnLmSeq.DenominatorCountsTargets | neural_sp/models/rnnlm/rnnlm_seq.py:193-195 | when no sequence contains the pad id, the denominator is the number of targets: n - 1 per sequence of length n |
| RnnLmSeq.RunLayers | neural_sp/models/rnnlm/rnnlm_seq.py:221-223 | one new state per layer run |
| RnnLmSeq.StepLayers | neural_sp/models/rnnlm/rnnlm_seq.py:221-223 | layer `l` reads `state[l]` and overwrites it with its new state; the top output is the stacked run's, and later entries are unchanged |
| RnnLmSeq.LayersRun | neural_sp/models/rnnlm/rnnlm_seq.py:216-228 | `predict` never runs more layers than there are |
| RnnLmSeq.Predict | neural_sp/models/rnnlm/rnnlm_seq.py:204-232 | a null state becomes a fresh `[None] * nlayers`, and a given list is updated in place. Entries of the layers run hold their new states and the rest keep their old ones; on success the result is the output of the top layer and that layer's output. It fails exactly for the fast implementation or a residual stack of two or more layers |
| RnnLmSeq.ForwardLayers | neural_sp/models/rnnlm/rnnlm_seq.py:168-182 | the fast implementation is the multi-layer RNN then the top dropout; stacked layers run from no state, failing exactly for a residual stack of two or more layers |
| RnnLmSeq.ResidualStacksFail | neural_sp/models/rnnlm/rnnlm_seq.py:179-181 | every accepted residual configuration with two or more layers is stacked and cannot run a step |
| RnnLmSeq.Zeros | neural_sp/models/rnnlm/rnnlm_seq.py:244 | a `bs` by `nunits` matrix of zeros |
| RnnLmSeq.InitializeHidden | neural_sp/models/rnnlm/rnnlm_seq.py:244-255 | `nlayers` zero states for `hx`; for an LSTM the same list for `cx`, and `None` for a GRU |
| RnnLmSeq.InitialStatesFitLayers | neural_sp/models/rnnlm/rnnlm_seq.py:244-253 | there is one initial state per stacked layer, each row of the layer's hidden width |
| EvalAsr.CliNamespace | neural_sp/bin/asr/eval.py:30-72 | the parsed namespace has the `model`, `eval_sets`, `epoch`, `rnnlm_weight` and `recog_unit` attributes `main` reads |
| EvalAsr.MergeKeepsAttributes | neural_sp/bin/asr/eval.py:83-85 | the merge never overwrites an attribute and adds exactly the configuration's keys |
| EvalAsr.MergeFirstItemWins | neural_sp/bin/asr/eval.py:83-85 | a key the namespace lacks takes the value of its first configuration item |
| EvalAsr.CliSurvivesMerge | neural_sp/bin/asr/eval.py:30-85 | no command-line value is changed by the configuration |
| EvalAsr.Namespace.constructor | neural_sp/bin/asr/eval.py:72 | the namespace starts with the parsed attributes |
| EvalAsr.Namespace.SetAttr | neural_sp/bin/asr/eval.py:85 | `setattr` replaces one attribute and nothing else |
| EvalAsr.Namespace.MergeConfig | neural_sp/bin/asr/eval.py:83-85 | the merge loop leaves the namespace equal to the merge specification |
| EvalAsr.Attr | neural_sp/bin/asr/eval.py:102 | an attribute read succeeds iff the attribute exists, giving its value, and is an AttributeError otherwise |
| EvalAsr.StrAttr | neural_sp/bin/asr/eval.py:102 | a string read succeeds iff the attribute holds a string |
| EvalAsr.IntAttr | neural_sp/bin/asr/eval.py:130 | an integer read succeeds iff the attribute holds an integer |
| EvalAsr.NatAttr | neural_sp/models/rnnlm/rnnlm_seq.py:34-43 | a width or count read succeeds iff the attribute holds a non-negative integer |
| EvalAsr.NumAttr | neural_sp/bin/asr/eval.py:135 | a numeric read accepts an int or a float |
| EvalAsr.PathAttr | neural_sp/bin/asr/eval.py:135 | `rnnlm` is a path or None, and anything else is an error |
| EvalAsr.FlagAttr | neural_sp/bin/asr/eval.py:155 | a flag read is Python truthiness |
| EvalAsr.OptionalUnitAttr | neural_sp/bin/asr/eval.py:126 | `recog_unit` is a string or falsy |
| EvalAsr.SubUnitAttr | neural_sp/datasets/loader_asr.py:107-110 | `unit_sub1` or `unit_sub2` is accepted when it is a string, when it is falsy, or when the sub-task's dictionary is absent, since the dataset only inspects it then; the converter unit is present iff it is a string |
| EvalAsr.StrListAttr | neural_sp/bin/asr/eval.py:93 | `eval_sets` must be a list of paths |
| EvalAsr.DatasetArgs | neural_sp/bin/asr/eval.py:95-106 | the arguments `Dataset` receives are read only when `model` and `unit` are strings; they put the set in test mode, at its own path, with the model's unit |
| EvalAsr.OpenDataset | neural_sp/bin/asr/eval.py:95-106 | a dataset opens only when `model` and `unit` are strings |
| EvalAsr.DatasetConfig | neural_sp/bin/asr/eval.py:95-106 | each set is opened in test mode, with its own path, the model's unit and `dict.txt`, and `dict_sub1.txt` only when that file exists |
| EvalAsr.OpenDatasetStable | neural_sp/bin/asr/eval.py:93-106 | the dataset opens the same way for any set as long as the five arguments read from `args` agree |
| EvalAsr.DatasetArgsStable | neural_sp/bin/asr/eval.py:93-106 | two sets whose five arguments agree get the same `Dataset` arguments except for the manifest path, or the same error |
| EvalAsr.FirstSetAttrs | neural_sp/bin/asr/eval.py:108-126 | the first set's block sets `vocab`, `vocab_sub1` and `input_dim` from the dataset and keeps the dataset arguments and `recog_unit` |
| EvalAsr.SetFirstSetAttrs | neural_sp/bin/asr/eval.py:108-126 | the five `setattr` calls leave the namespace equal to `FirstSetAttrs` |
| EvalAsr.LmConfigOf | neural_sp/models/rnnlm/rnnlm_seq.py:34-101 | the LM namespace's `rnn_type` and `backward` are the ones `SeqRNNLM` is built with; an `rnn_type` other than lstm or gru fails its assertion before any later field is read; a built LM had `dropout_emb`, `dropout_out`, and `dropout_hidden` whenever a layer reads it |
| EvalAsr.InitWeightsFlags | neural_sp/models/rnnlm/rnnlm_seq.py:114-122 | the initialisation succeeds iff `param_init`, `param_init_dist` and `rec_weight_orthogonal` exist, failing on the first missing one; it orthogonalises iff `rec_weight_orthogonal` is truthy |
| EvalAsr.Fusion | neural_sp/bin/asr/eval.py:134-158 | shallow fusion attaches at most one LM |
| EvalAsr.FusionAttachesLm | neural_sp/bin/asr/eval.py:134-158 | an LM is attached iff a path is given and the weight is positive. It is the one at that path and its unit is the model's. The event records its `backward` flag, which chooses `rnnlm_bwd` over `rnnlm_fwd`. The LM's configuration held the dropouts and the initialisation fields |
| EvalAsr.Dispatch | neural_sp/bin/asr/eval.py:175-219 | a dispatched `task_id` is 0 or 1 |
| EvalAsr.DispatchOrder | neural_sp/bin/asr/eval.py:175-219 | the err/dispatch chain tries word, wordpiece, char and phone in order, each iff the earlier tests fail and its own holds. `task_id` is 1 iff `recog_unit` contains "char". `'char' in recog_unit` raises when `recog_unit` is falsy, and the only other error is the final ValueError |
| EvalAsr.PhoneNeedsRecogUnit | neural_sp/bin/asr/eval.py:196-216 | a phone model with `recog_unit` False raises at the char test; with `recog_unit` phone it reaches the phone scorer |
| EvalAsr.RouteOf | neural_sp/bin/asr/eval.py:175-219 | a dispatch reads `unit` and `recog_unit` and returns the scorer that `Dispatch` chooses |
| EvalAsr.TotalsAreSums | neural_sp/bin/asr/eval.py:92-214 | each accumulator is the sum of the scores its family adds, and the other families add nothing to it |
| EvalAsr.MeanLines | neural_sp/bin/asr/eval.py:223-231 | word logs the WER mean first, wp only the WER mean, a unit containing "char" the WER and CER means, one containing "phone" the PER mean, and any other unit nothing |
| EvalAsr.Report | neural_sp/bin/asr/eval.py:223-231 | with no sets, a unit that logs a mean raises ZeroDivisionError; otherwise the report is the mean lines over the number of sets |
| EvalAsr.MeanEvents | neural_sp/bin/asr/eval.py:223-231 | one event per logged mean, in order |
| EvalAsr.InitializeShape | neural_sp/bin/asr/eval.py:108-171 | the first set's block builds the model before it can fail. On success its events are the model, at most one LM, then `epoch - 1` logged, and the namespace is `FirstSetAttrs` |
| EvalAsr.PrepareShape | neural_sp/bin/asr/eval.py:93-219 | a prepared first set keeps the dataset arguments and `recog_unit`, opens with the model and the epoch, and holds the dispatch and the dataset's vocabulary |
| EvalAsr.Calls | neural_sp/bin/asr/eval.py:175-216 | one scorer call per set, in order, each with the first set's scorer, namespace, epoch and `task_id` |
| EvalAsr.ScoresOf | neural_sp/bin/asr/eval.py:176-213 | the score of each call is the scorer's answer |
| EvalAsr.ScoredEvents | neural_sp/bin/asr/eval.py:176-216 | one scored event per call, pairing it with its score |
| EvalAsr.LoadModel | neural_sp/bin/asr/eval.py:108-171 | the first set's block on the namespace gives the reference result and leaves the namespace it describes |
| EvalAsr.OpenFirstSet | neural_sp/bin/asr/eval.py:95-219 | the first iteration, up to its dispatch, matches the reference preparation |
| EvalAsr.Reopen | neural_sp/bin/asr/eval.py:95-106 | a later set's `Dataset(...)` and dispatch do not fail and choose the first set's scorer |
| EvalAsr.LaterSetsRepeatFirst | neural_sp/bin/asr/eval.py:93-106 | after the first set, every set's dataset opens and the dispatch is fixed |
| EvalAsr.ScoreSets | neural_sp/bin/asr/eval.py:93-221 | the loop appends one scored event per set, in order, and its accumulators are the totals of those scores |
| EvalAsr.EvaluateSets | neural_sp/bin/asr/eval.py:92-231 | the loop and the report give the reference run over the sets |
| EvalAsr.Evaluate | neural_sp/bin/asr/eval.py:75-231 | `main` on a namespace gives exactly the reference run `ExpectedRun` |
| EvalAsr.EvalSetsPrepared | neural_sp/bin/asr/eval.py:93-231 | a prepared run scores every set with the first set's plan, then reports |
| EvalAsr.PreparedRun | neural_sp/bin/asr/eval.py:93-231 | once the first set is prepared the run completes: the opening, one scored event per set, then the mean lines for the unit |
| EvalAsr.PreparedTrace | neural_sp/bin/asr/eval.py:93-231 | a prepared trace is in stage order, names the sets in order and carries their scores |
| EvalAsr.FailedPreparation | neural_sp/bin/asr/eval.py:93-171 | a failure before the dispatch leaves at most the opening events and no scorer call |
| EvalAsr.EvalSetsAllOrNothing | neural_sp/bin/asr/eval.py:93-231 | a run scores every set, once each and in order, or none, and its events are in stage order |
| EvalAsr.RunScoresEachSetOnce | neural_sp/bin/asr/eval.py:75-231 | `main` scores exactly the merged `eval_sets`, in order, or aborts before scoring any |
| EvalAsr.RunPhaseOrdered | neural_sp/bin/asr/eval.py:108-231 | the model is built at most once, before at most one LM and one epoch line, all before the first scorer call, and the means come last |
| EvalAsr.ScorerCallsShareFirstSet | neural_sp/bin/asr/eval.py:176-213 | every set is scored with one scorer, one `task_id`, one namespace (`vars(args)`, holding the first set's `vocab`), the logged epoch and the decode directory |
| EvalAsr.WerMeanIsAverage | neural_sp/bin/asr/eval.py:223-226 | for word and wp a prepared run ends with the WER mean: the sum of the per-set WERs over the number of sets |
| EvalAsr.WordCharReportsZeroCer | neural_sp/bin/asr/eval.py:175-229 | for word_char without `recog_unit` the run ends with the WER mean and a CER mean of 0 |
| EvalAsr.CharMeansAreAverages | neural_sp/bin/asr/eval.py:196-229 | for char without `recog_unit` the run ends with the WER and CER means over the sets |
| EvalAsr.PhoneMeanIsAverage | neural_sp/bin/asr/eval.py:208-231 | for phone with `recog_unit` phone the run ends with the PER mean over the sets |
| EvalAsr.PreparedMeans | neural_sp/bin/asr/eval.py:93-231 | a prepared run completes with one score per set, keeps `unit` and `recog_unit`, and ends with the last mean line of its unit |
| EvalAsr.LastMeanOfUnit | neural_sp/bin/asr/eval.py:223-231 | the last mean line of each unit in terms of the sums of the scores |
| EvalAsr.UnknownUnitScoresNothing | neural_sp/bin/asr/eval.py:95-106 | a unit the dataset rejects stops the run at the first `Dataset(...)` with `ValueError(unit)` or an attribute error, before any event |
| EvalAsr.PhoneWithoutRecogUnitAborts | neural_sp/bin/asr/eval.py:196 | a phone model with `recog_unit` False is built and loaded, then aborts at the dispatch with no set scored |

## Left out

- Reading the manifests, dictionaries, feature files and configuration files is not modelled. Manifests are parsed tables, and the other reads are functions passed in: `countVocab`, `readMat`, `inputDimOf`, `loadConfig`, `isFile`. The projected columns of the CSV and the `kaldi_io` matrix shapes are outside the model.
- LoaderAsr.Create: `input_dim` is taken from a parameter. The lookup `self.df['feat_path'][0]` by label 0 is a file read and is not modelled.
- LoaderAsr.Create: the shuffled order is any permutation, because the RNG (`np.random.permutation`, seeded with 1) is left out.
- LoaderAsr.Create: sorting does not fix the order of ties, because pandas' default quicksort is not stable.
- LoaderAsr.Create: the fields the constructor only stores (`nepochs` as `max_epoch`, `nques`, `dynamic_batching`, `sort_stop_epoch`) are kept in `Config`. They are not used, because the `Base` iteration that reads them is not part of this model.
- The token converters (`Id2word`, `Wp2id`, ...) are recorded as their constructor arguments, not built.
- The `.encode('utf-8')` of texts and utterance ids is the identity here, because strings are modelled as sequences of characters.
- RnnLmSeq: the embedding, the recurrent layers, dropout, the output projection, the cross-entropy loss, its perplexity, weight initialisation and tying of the weight tensors are neural math. They are either opaque functions passed in or not modelled. The argmax `pad_pred` is an input.
- RnnLmSeq.Predict: a given state list shorter than `nlayers` (an IndexError in the source) is excluded by its precondition.
- RnnLmSeq.Configure: `self.bidirectional` and `ndirs` come from the model base class, which is not part of this model. `ndirs` is a configuration field (1 for the LM that eval attaches).
- EvalAsr: `Seq2seq(args)`, `load_checkpoint` and `RNNLM.copy_from_seqrnnlm` are not modelled beyond the events they produce. The checkpoint's epoch is the function `loadEpoch`, and the scorers are the function `scorer`. `model.cuda()`, logging, timing and the deletion of an old `decode.log` have no effect in the model.
- EvalAsr: only the outcome of the first `Dataset(...)` matters for a run. `OpenDatasetStable` shows that a later set gets the same converters and vocabulary sizes as the first. Reading each later set's manifest (`pd.read_csv`) and the label-0 `input_dim` probe are file reads outside the model, so they are assumed to succeed. `EvalSetsAllOrNothing` and `RunScoresEachSetOnce` hold under that assumption. The CSV contents reach the scorers only through the evaluation set's path.
- EvalAsr: a `unit` or `recog_unit` that is not a string is modelled as an error (`BadAttribute`). Python would either compare it with the unit names or raise a TypeError.
- EvalAsr.SubUnitAttr: a truthy `unit_sub1` or `unit_sub2` that is not a string is modelled as an error (`BadAttribute`) when its dictionary exists. Python compares it with the unit names, so a number raises a TypeError at the `'phone' in` test and a list is searched for the names.
- EvalAsr.LmConfigOf: an `rnn_type` that is not a string is `BadAttribute` here, where the source's assertion would raise an AssertionError. The dropout and initialisation values are read but not interpreted, so only their absence is an error.
- Text.ParseInt: ASCII sign and digits only. Python's `int()` also accepts underscores between digits and non-ASCII decimal digits, and these are not modelled.
- Floating point: `Score`, the WER/CER/PER sums and their means, the LM weight and the accuracy are modelled as exact reals, so float rounding is not modelled.
- The code within `test_nested_attention.py` is not part of this model.
