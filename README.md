# CSV metrics logger, modelled in Dafny

This project models Lightning Fabric's CSV logger, `CSVLogger`, and the
experiment writer it owns, `_ExperimentWriter`. The logger:

- resolves a run's version directory under `root_dir/name`, taking the next
  free `version_<n>` unless a version is given;
- buffers metric records, filling in a missing step;
- saves on its own every `flush_logs_every_n_steps` steps;
- writes the records to `metrics.csv`. A key seen for the first time
  widens the header and rewrites the earlier rows with empty cells for
  it. A record that lacks a key gets an empty cell for it.

The behaviour modelled is the behaviour that
`tests/tests_fabric/loggers/test_csv.py` pins down. The logger's
implementation file, `csv_logs.py`, is not part of this model.

Layout, one module per file:

- `options.dfy`: `Option` and `Outcome`.
- `decimal.dfy`: integers written as decimal text. Negative numbers get a
  leading `-`; the round trip back is proved for natural numbers only.
- `storage.dfy`: an in-memory filesystem. It holds a set of directories and
  a map from file paths to CSV tables, with `os.listdir` as `ListDir` and
  `csv.DictReader` as `ReadCsv`.
- `versioning.dfy`: version folder names and the choice of the next free
  version (`NextVersion`, a loop over the subdirectories of `root/name`).
  Only subdirectories count: a plain file named `version_<n>` is ignored.
- `records.dfy`: metric values and their text, padding rows to a header,
  the writer's state, and the relation `Saved`, which states what a save
  does. It also holds the lemmas about saving.
- `flush.dfy`: the flush rule and the automatic step numbering.
- `writer.dfy`: class `ExperimentWriter`, with the buffer, the header, the
  rows in the file and whether the file exists. `Save` works through the
  new keys in a loop.
- `logger.dfy`: class `CSVLogger`. It holds the root, name, version and
  flush interval, its writer, and a count of saves.
- `scenarios.dfy`: one method per test, on a fresh in-memory disk
  (`["tmp"]` stands for the test's temporary directory). Each method's
  postcondition is what that test asserts.

Two decisions shape the model.

**The flush rule.** It is stated on the resolved step: after recording a
record at step `s`, the logger saves when `(s + 1) mod N == 0`. A missing
step is the number of records already buffered. The automatic save
therefore follows the step value, not the number of `log_metrics` calls.
Every test in the file agrees with this rule. The two readings coincide only
for stepless records logged from an empty buffer with no explicit save in
between: `FlushPolicy.AutoStepCycle` proves that case on the step
arithmetic and `CsvLoggers.LogStepless` on the logger itself. Outside it
they part, as `Scenarios.FlushFollowsStep` shows. With N = 2, a first record
at explicit step 5 is saved at once. With N = 3, two stepless records, an
explicit save and a third stepless record leave that record buffered at
step 0, with no automatic save.

**The header.** Its order is not modelled. New columns are appended in an
unspecified order, and contracts speak of the header's set of names, which
is all the test's CSV reader compares.

## Model

| member | source | states |
|---|---|---|
| Decimal.ParseNatToString | tests/tests_fabric/loggers/test_csv.py:156-183 | the decimal text of a natural number is a non-empty digit string that reads back as the same number, so cells like `"0"`, `"11"`, `"333"` carry the logged value |
| Decimal.NatToStringInjective | tests/tests_fabric/loggers/test_csv.py:26-31 | distinct numbers are written differently, so distinct versions get distinct folders |
| Storage.MakeDirsListing | tests/tests_fabric/loggers/test_csv.py:59-64 | creating the directories along a path adds exactly the path's next component to each ancestor's listing, changes no other listing and no file |
| Storage.WriteFileListing | tests/tests_fabric/loggers/test_csv.py:59-64 | writing a file adds its name to its own directory's listing and changes no directory listing |
| Versioning.NextVersion | tests/tests_fabric/loggers/test_csv.py:26-40 | the chosen version is greater than every existing `version_<n>` folder's number, and it is one more than the largest of them when there is one (0 otherwise) |
| Versioning.FolderRoundTrip | tests/tests_fabric/loggers/test_csv.py:28-31 | the folder of version `n` is a version folder whose number reads back as `n` |
| Versioning.NextVersionIsFresh | tests/tests_fabric/loggers/test_csv.py:26-31 | an automatically chosen version never names an existing folder |
| Versioning.LogDirShape | tests/tests_fabric/loggers/test_csv.py:67-74 | with an empty name the log directory is `root/<version>`, otherwise `root/name/<version>` |
| Records.SavePreservesValid | tests/tests_fabric/loggers/test_csv.py:150-183 | after a save the file has a duplicate-free header, and every row has exactly the header's columns |
| Records.SaveKeepsOldRows | tests/tests_fabric/loggers/test_csv.py:162-171 | a save keeps every earlier row in place with its values, gives it an empty cell in each new column, and drops no column |
| Records.SaveAppendsBuffer | tests/tests_fabric/loggers/test_csv.py:150-183 | a save appends the buffered records after the earlier rows in buffer order, each value as its text and each missing column empty |
| Records.SaveOne | tests/tests_fabric/loggers/test_csv.py:150-183 | saving a single record: the header gains its keys, the earlier rows are re-padded, and the record comes last |
| Records.SaveIdempotent | tests/tests_fabric/loggers/test_csv.py:108-114 | once a save has emptied the buffer, saving again changes nothing |
| Records.SavedAgree | tests/tests_fabric/loggers/test_csv.py:186-195 | any two saves of one state agree on the column set and on every row, so the header order does not matter to what is read back |
| Records.FlushCadenceIrrelevant | tests/tests_fabric/loggers/test_csv.py:133-147 | saving part of the records and then the rest gives the same columns and rows as saving them all at once |
| FlushPolicy.AutoStepCycle | tests/tests_fabric/loggers/test_csv.py:117-130 | with steps left out, the k-th record gets step `k mod N`, the save comes exactly with every N-th record, and `k / N` saves have happened after k records |
| ExperimentWriters.ExperimentWriter.constructor | tests/tests_fabric/loggers/test_csv.py:150-160 | a new writer has an empty buffer and no file |
| ExperimentWriters.ExperimentWriter.Reopen | tests/tests_fabric/loggers/test_csv.py:141-147 | a writer opened on an existing metrics file takes over its header and rows |
| ExperimentWriters.ExperimentWriter.LogMetrics | tests/tests_fabric/loggers/test_csv.py:108-114 | recording only buffers: the record, with its step filled in, is appended to the buffer and the file is unchanged |
| ExperimentWriters.ExperimentWriter.Save | tests/tests_fabric/loggers/test_csv.py:150-183 | the new state is a save of the old one, and the file stays well formed |
| CsvLoggers.CSVLogger.constructor | tests/tests_fabric/loggers/test_csv.py:26-74 | an absent name is the empty name; the version is the requested one or the next free one under `root/name`; an existing metrics file in the log directory is resumed |
| CsvLoggers.CSVLogger.CurrentDiskWellFormed | tests/tests_fabric/loggers/test_csv.py:141-145 | every metrics file on the disk the logger leaves behind is well formed, and its own metrics file holds the writer's table |
| CsvLoggers.CSVLogger.LogMetrics | tests/tests_fabric/loggers/test_csv.py:97-130 | the record is buffered at its step or at the buffer's length; exactly when `(step + 1) mod N == 0` the buffer is saved and the save count goes up by one |
| CsvLoggers.LogStepless | tests/tests_fabric/loggers/test_csv.py:117-130 | `k` stepless records from an empty buffer leave `k mod N` records buffered and add `k / N` saves, as the stepless cycle says |
| CsvLoggers.CSVLogger.Save | tests/tests_fabric/loggers/test_csv.py:59-64 | one more save, and the writer's new state is a save of the old one |
| CsvLoggers.CSVLogger.LogHyperparams | tests/tests_fabric/loggers/test_csv.py:91-94 | logging hyperparameters always fails with a not-implemented error |
| Scenarios.AutomaticVersioning | tests/tests_fabric/loggers/test_csv.py:26-31 | with `version_0` and `version_1` present, the version is 2 |
| Scenarios.RelativeRootVersioning | tests/tests_fabric/loggers/test_csv.py:34-40 | the same with the relative root `exp` and name `logs` |
| Scenarios.ManualVersioning | tests/tests_fabric/loggers/test_csv.py:43-50 | a requested version 1 is kept although version 2 exists |
| Scenarios.NamedVersion | tests/tests_fabric/loggers/test_csv.py:53-64 | a string version is kept, it is the only entry under the experiment directory, and after a save its folder lists the metrics file |
| Scenarios.SavedWithNamedVersion | tests/tests_fabric/loggers/test_csv.py:53-64 | the logger given the string version keeps it, its log directory is `tmp/exp/<version>`, and after a record and a save its file exists |
| Scenarios.NoName | tests/tests_fabric/loggers/test_csv.py:67-74 | with an empty or absent name the root is unchanged and `root/version_0` lists the metrics file |
| Scenarios.SavedWithoutName | tests/tests_fabric/loggers/test_csv.py:67-74 | with an empty or absent name the root stays `tmp`, the log directory is `tmp/version_0`, and after a record and a save its file exists |
| Scenarios.LogMetricsOnce | tests/tests_fabric/loggers/test_csv.py:77-88 | for any given or missing step, one record and a save give a two-line file whose header names every metric and the step |
| Scenarios.OneRecordSaved | tests/tests_fabric/loggers/test_csv.py:78-88 | one record on a fresh writer, whether or not it was saved on its own, then a save: one header line and one row, and the header holds every key and the step |
| Scenarios.LogHyperparamsFails | tests/tests_fabric/loggers/test_csv.py:91-94 | the call fails |
| Scenarios.FlushNSteps | tests/tests_fabric/loggers/test_csv.py:97-105 | with N = 2 there is no save after step 0 and exactly one after step 1 |
| Scenarios.FlushFollowsStep | tests/tests_fabric/loggers/test_csv.py:97-130 | the save follows the step: with N = 2 a first record at step 5 is saved at once; with N = 3 a stepless record after an explicit save is buffered at step 0 and not saved |
| Scenarios.MetricsResetAfterSave | tests/tests_fabric/loggers/test_csv.py:108-114 | with N = 2 the buffer is non-empty after step 0 and empty after step 1 |
| Scenarios.AutomaticStepTracking | tests/tests_fabric/loggers/test_csv.py:117-130 | with N = 3 and no steps, the records get steps 0, 1, 2, the saves after each call are 0, 0, 1, and the third record is written with step `"2"` |
| Scenarios.FirstAutoRecords | tests/tests_fabric/loggers/test_csv.py:119-127 | the first two stepless records get steps 0 and 1, and no save happens |
| Scenarios.LogBelowInterval | tests/tests_fabric/loggers/test_csv.py:122-127 | a stepless record whose step does not complete the interval is only buffered, at the buffer's length, and no save happens |
| Scenarios.ThirdAutoRecord | tests/tests_fabric/loggers/test_csv.py:128-130 | the third stepless record triggers one save and is written with step `"2"` |
| Scenarios.ThirdRowStep | tests/tests_fabric/loggers/test_csv.py:128-130 | the third row written holds step `"2"` |
| Scenarios.LogAndFlush | tests/tests_fabric/loggers/test_csv.py:135-143 | with N = 1 a stepless record is saved at once with step 0: the header gains its keys and the step, the earlier rows are re-padded, and the record is the last row |
| Scenarios.Resume | tests/tests_fabric/loggers/test_csv.py:141-142 | a second logger with the same root, name and version takes over the file the first one wrote |
| Scenarios.FirstRecord | tests/tests_fabric/loggers/test_csv.py:135-138 | after the first record the file has one row and the columns `a`, `b`, `step` |
| Scenarios.FirstRun | tests/tests_fabric/loggers/test_csv.py:135-139 | after two records the file has two rows and the columns `a`, `b`, `step` |
| Scenarios.ResumeAndLog | tests/tests_fabric/loggers/test_csv.py:141-147 | a resumed logger given a record with no new key keeps every earlier row as it was and adds one row |
| Scenarios.RowsKept | tests/tests_fabric/loggers/test_csv.py:141-147 | rows that already have every column are unchanged when written again under a header with the same names |
| Scenarios.AppendMetricsFile | tests/tests_fabric/loggers/test_csv.py:133-147 | after the restart and one more record the file has four lines, and its first two rows are the ones written before the restart |
| Scenarios.PadIs | tests/tests_fabric/loggers/test_csv.py:186-195 | a padded row equals the expected row when the expected row has exactly the header's columns and the row's values, empty elsewhere |
| Scenarios.FirstRowWritten | tests/tests_fabric/loggers/test_csv.py:155-160 | `{"a": 1, "b": 2}` at step 0 is written as `{"step": "0", "a": "1", "b": "2"}` |
| Scenarios.FirstRowWidened | tests/tests_fabric/loggers/test_csv.py:168 | under the wider header the first row gets `"c": ""` |
| Scenarios.SecondRowWritten | tests/tests_fabric/loggers/test_csv.py:163-169 | `{"a": 11, "b": 22, "c": 33}` is written as `{"step": "0", "a": "11", "b": "22", "c": "33"}` |
| Scenarios.ThirdRowWritten | tests/tests_fabric/loggers/test_csv.py:174-181 | `{"a": 111, "c": 333}` is written with `"b": ""` |
| Scenarios.FirstHeader | tests/tests_fabric/loggers/test_csv.py:155-158 | after the first record the columns are `step`, `a`, `b` |
| Scenarios.SecondHeader | tests/tests_fabric/loggers/test_csv.py:163-166 | the key `c` joins the columns |
| Scenarios.ThirdHeader | tests/tests_fabric/loggers/test_csv.py:174-177 | a record with fewer keys leaves the columns as they are |
| Scenarios.FirstRows | tests/tests_fabric/loggers/test_csv.py:155-160 | the file holds exactly the first expected row |
| Scenarios.SecondRows | tests/tests_fabric/loggers/test_csv.py:163-171 | the file holds exactly the two expected rows |
| Scenarios.ThirdRows | tests/tests_fabric/loggers/test_csv.py:174-183 | the file holds exactly the three expected rows |
| Scenarios.WideRowsKept | tests/tests_fabric/loggers/test_csv.py:179-180 | rows that already have every column are written again unchanged |
| Scenarios.ColumnsFirst | tests/tests_fabric/loggers/test_csv.py:152-160 | the first file has columns `step`, `a`, `b` and one row |
| Scenarios.ColumnsSecond | tests/tests_fabric/loggers/test_csv.py:162-171 | the new key `c` widens the header, and the earlier row gets an empty cell |
| Scenarios.ColumnsThird | tests/tests_fabric/loggers/test_csv.py:173-183 | a missing key leaves an empty cell, and no row or column is lost |
| Scenarios.AppendColumns | tests/tests_fabric/loggers/test_csv.py:150-183 | the three header sets and row lists the test reads back, exactly |
| Scenarios.DiskAfterSave | tests/tests_fabric/loggers/test_csv.py:59-74 | after a save on an empty disk, a directory below the root lists the next component of the log directory, plus the metrics file when it is that file's directory |

## Left out

- Filesystem I/O is replaced by an in-memory `Disk`: directory creation, file
  reads and writes, and their failures. A relative root is resolved against
  the top of that disk, which stands for the working directory.
- CSV quoting and escaping are left out: a table is a header and rows of text cells.
- Floats and tensors are left out. Values are integers or text; the test's
  float and tensor metrics appear as integers, and only their key names are checked.
- The order of the header's columns is left out; contracts use its set of names.
- Rank-zero-only execution, metric-name prefixes, `finalize` and the
  `log_dir` / `experiment` properties' laziness are left out. The version is
  resolved when the logger is created, not on first access.
- A metrics file that is not a well-formed table is excluded by the
  constructor's precondition; other files on the disk may hold anything.
- A flush interval of zero or less is excluded by a precondition instead of
  being modelled as a division error.
- Folder names such as `version_3_extra`: only `version_` followed by
  digits counts as a numbered version.
- CsvLoggers.CSVLogger.Save: the tests that replace `save` with a mock
  observe only whether it was called. The model counts saves in `saves`,
  and the real save still runs.
- Scenarios.AutomaticStepTracking: it does not read the third buffered
  record after the save, as the mocked test does. It states the third
  record's step as written in the file.
- The defaults `lightning_logs` and 100 are the library's defaults, which
  the test file does not show.
- CsvLoggers.CSVLogger.LogHyperparams: it states only that the call fails
  with a not-implemented error, not the error's wording.
