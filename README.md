# DEploid input loader, modelled in Dafny

This project models `PfDeconvIO`, the class DEploid uses to load its
configuration and input data. DEploid deconvolutes mixed *Plasmodium
falciparum* infections.

A run is configured from the command line:
- `-ref`, `-alt`, `-plaf` and `-panel` give four file paths;
- `-o` gives the output prefix;
- `-p` gives the precision, `-k` the number of strains and `-seed` the random seed;
- `-h` or `-help` requests help.

`init()` sets the defaults: precision 8, 5 strains, prefix `pf3k-pfDeconv`, seed 0, not yet set. `parse()` then does the following:
1. It scans the tokens. An unknown token stops the scan with an error, and so does a flag with no usable operand.
2. `checkInput()` requires the four paths to be non-empty.
3. `readFileLines` loads the reference counts, the alternative counts and the population-level allele frequencies (PLAF), in that order. For each file it skips the header line and keeps the third tab-separated field of every line up to the first empty line.
4. It asserts that the three sequences have the same length, the number of loci.

A second constructor takes the three file names and a strain count directly, and does only the loads and the assertions.

The model has seven modules:
- `Wrappers`: `Option`, `Result` and `Outcome`.
- `Errors`: the error kinds and their exact message texts.
- `Fields`: how a data line is cut into fields.
- `Loader`: `readFileLines`, as a method with loops, and the function `FileValues` that specifies it.
- `Scanner`: the meaning of the token scan, `ScanFrom`.
- `Pipeline`: what a whole construction computes, `ParseSpec` and `LoadAll`.
- `PfDeconvIO`: the class `Config`, whose methods update its fields as the C++ members do.

Each state-changing method is proved to compute the specification function of its module, so the lemmas about the specification functions also hold for the class.

External inputs are parameters:
- The file system is a map `files` from a path to the lines `getline` returns. A path that cannot be opened is absent from the map.
- `strtod` is the function `toReal`.
- The numeric operand conversion of `readNextInput<size_t>` is the function `toSize`.

Errors: a thrown `std::invalid_argument` is a `Failure` carrying a `Reason`, and `What` gives its message text. A failed `assert` is the separate, fatal error `AssertionFailed`.

Where the code's behaviour differs from what a user of the flags and files would expect, the model follows the code:
- The loader stops at the first empty line, not at end of file; later lines are never read (`Loader.StopsAtEmptyLine`).
- Any number is accepted for `-k`, including 0.
- `-h` in the middle of a command line does not stop the scan, the path check or the loads (`Scanner.HelpDoesNotStopScan`). Only an empty command line skips them.
- The four-argument constructor checks no path and calls no `init()`. The panel path and the output prefix stay empty (`PfDeconvIO.Config.FromFiles`).
- A string operand is rejected only if it starts with `-`. An empty string is accepted as an operand.

## Model

| member | source | states |
|---|---|---|
| Errors.What | src/pfDeconvIO.cpp:93-152 | the text `what()` returns for each reason; the unknown token, the flag without operand and the unopenable path each end their message verbatim |
| Errors.SignatureOf | src/pfDeconvIO.cpp:93-152 | each message is longer than three characters, and its first and fourth characters identify its kind |
| Errors.WhatInjective | src/pfDeconvIO.cpp:93-152 | two error messages with the same text come from the same reason, down to the token, flag or path they carry |
| Fields.Find | src/pfDeconvIO.cpp:140 | `find` returns the first position at or after the start holding the character, or `npos` when there is none |
| Fields.FirstEnd | src/pfDeconvIO.cpp:140 | the first tab or newline of a string and nothing before it |
| Fields.NextEnd | src/pfDeconvIO.cpp:140 | the end of the field starting at a position is a tab or newline at or after it, or `npos` |
| Fields.Split | src/pfDeconvIO.cpp:139-147 | every line has at least one field |
| Fields.FieldEndAt | src/pfDeconvIO.cpp:140 | the `min` of the two `find` calls is `npos` exactly when the rest of the line has no separator; otherwise it is the position of the first separator |
| Fields.FieldCount | src/pfDeconvIO.cpp:139-147 | a line has one more field than it has separators |
| Fields.ThirdFieldPresent | src/pfDeconvIO.cpp:143-144 | a line contributes a value exactly when it has at least two separators |
| Fields.ThirdField | src/pfDeconvIO.cpp:143-144 | the field at index 2 exists exactly when the line splits into at least three fields, and it holds no separator (its text: `Fields.ThirdFieldText`) |
| Fields.SplitJoin | src/pfDeconvIO.cpp:139-147 | splitting a newline-free line and joining its fields with tabs gives the line back, and no field contains a separator |
| Fields.JoinSplit | src/pfDeconvIO.cpp:139-147 | joining separator-free fields with tabs and splitting again gives the fields back |
| Fields.SplitCons | src/pfDeconvIO.cpp:139-147 | a field with no separator, followed by a tab, splits off as the first field |
| Fields.FirstEndIs | src/pfDeconvIO.cpp:140 | a separator with none before it is where the first field ends |
| Fields.ThirdFieldText | src/pfDeconvIO.cpp:140-144 | the kept text lies between the second separator and the next one, or the end of the line |
| Loader.GetLineAsWritten | src/pfDeconvIO.cpp:149 | for a file ending in a newline, `getline` yields "" past the end; otherwise it keeps the last line for ever |
| Loader.GetLine | src/pfDeconvIO.cpp:132-133 | the k-th `getline` call leaves the k-th line in the buffer, or "" once the newline-terminated file is exhausted |
| Loader.UnterminatedFileNeverStops | src/pfDeconvIO.cpp:134-150 | on a two-line file without a final newline, the loop condition holds at every pass |
| Loader.UnterminatedNonEmptyNeverStops | src/pfDeconvIO.cpp:134-150 | the same holds for every file with no empty line after the header and no final newline |
| Loader.LineValues | src/pfDeconvIO.cpp:139-147 | one data line appends at most one value |
| Loader.ValuesFrom | src/pfDeconvIO.cpp:134-150 | the lines from a given one up to the first empty line yield at most one value each (their exact values: `Loader.WellFormedValuesFrom`, `Loader.StopsAtEmptyLine`) |
| Loader.FileValues | src/pfDeconvIO.cpp:132-150 | a file yields at most one value per line after the header, so no more values than it has data lines (see `Loader.HeaderIgnored`, `Loader.WellFormedFileValues`) |
| Loader.Load | src/pfDeconvIO.cpp:128-156 | the call succeeds exactly when the path can be opened, and otherwise throws "Invalid input file. " followed by the path; on success `out_vec` keeps its earlier contents as a prefix and gains the file's values after them |
| Loader.FieldStepSome | src/pfDeconvIO.cpp:140-146 | when a separator is found, the current field ends there and the remaining fields start just after it |
| Loader.FieldStepNone | src/pfDeconvIO.cpp:140-141 | when no separator is found, the rest of the line is the last field |
| Loader.Advance | src/pfDeconvIO.cpp:139-147 | each pass of the inner loop visits the next field of the line, in order |
| Loader.AdvancePast | src/pfDeconvIO.cpp:146-147 | after a separator at position p, the fields not yet visited start at p + 1 |
| Loader.PushThirdField | src/pfDeconvIO.cpp:135-148 | the inner loop appends the converted third field of the line, if the line has one, and nothing else |
| Loader.ReadFileLines | src/pfDeconvIO.cpp:128-156 | a path that cannot be opened throws "Invalid input file. " followed by the path; otherwise the result is the earlier contents followed by the file's values |
| Loader.WellFormedValuesFrom | src/pfDeconvIO.cpp:132-150 | well-formed lines yield exactly one value each, in line order, each converted from that line's third field |
| Loader.WellFormedFileValues | src/pfDeconvIO.cpp:132-150 | a well-formed file yields one value per line after the header |
| Loader.StopsAtEmptyLine | src/pfDeconvIO.cpp:134 | nothing after the first empty line affects the result |
| Loader.HeaderIgnored | src/pfDeconvIO.cpp:132 | the content of the header line never affects the result |
| Scanner.Initialized | src/pfDeconvIO.cpp:55-61 | `init` sets the defaults: no seed set, seed 0, no help, precision 8, prefix "pf3k-pfDeconv", 5 strains; the paths are left as they were |
| Scanner.FlagOf | src/pfDeconvIO.cpp:73-93 | a token names a flag only if it starts with a dash, and it names help exactly when it is `-h` or `-help` |
| Scanner.SetString | src/pfDeconvIO.cpp:124 | the field the flag names takes the operand, and every other path, the prefix and all scalars keep their values |
| Scanner.SetSize | src/pfDeconvIO.cpp:84-89 | the field the flag names takes the value, the other numeric fields and all strings keep theirs, and `seed_set_` becomes true exactly for `-seed` |
| Scanner.StringOperand | src/pfDeconvIO.cpp:120-125 | a string operand is read exactly when a next token exists and does not start with a dash; otherwise "Not enough parameters when parsing options: " followed by the flag |
| Scanner.SizeOperand | src/pfDeconvIO.cpp:84-88 | a numeric operand is read exactly when a next token exists and converts; otherwise the flag's operand error |
| Scanner.Step | src/pfDeconvIO.cpp:72-94 | an unknown token throws "unknown/unexpected argument: " followed by the token; a successful step leaves the cursor on the flag for `-h` and on its operand otherwise |
| Scanner.StepExtends | src/pfDeconvIO.cpp:72-94 | a successful step reads no token past those it consumed |
| Scanner.ScanFrom | src/pfDeconvIO.cpp:72-95 | the scan fails only with an unknown argument, a missing string operand or an unread numeric operand (which one fires first: `Scanner.UnknownAfterRun`, `Scanner.FlagWithoutOperand`, `Scanner.DashOperandRejected`) |
| Scanner.ScanAppend | src/pfDeconvIO.cpp:72-95 | scanning a complete run of flags followed by more tokens is scanning the run, then carrying on from its end |
| Scanner.UnknownStopsScan | src/pfDeconvIO.cpp:92-93 | an unknown-argument failure names an unknown token of the scanned range, and the tokens after it make no difference |
| Scanner.UnknownAfterRun | src/pfDeconvIO.cpp:92-95 | after a complete run, an unknown token fails the scan whatever follows it |
| Scanner.StringFlagBinds | src/pfDeconvIO.cpp:73-82 | a path or prefix flag with an operand binds that operand to its field, and the last binding wins |
| Scanner.FlagWithoutOperand | src/pfDeconvIO.cpp:120-123 | a flag that needs an operand fails when it is the last token |
| Scanner.DashOperandRejected | src/pfDeconvIO.cpp:123 | a string flag whose next token starts with a dash fails, whatever follows |
| Scanner.SeedRecorded | src/pfDeconvIO.cpp:87-89 | `-seed n` sets the seed and records that a seed was given |
| Scanner.HelpDoesNotStopScan | src/pfDeconvIO.cpp:90-95 | `-h` and `-help` consume one token, set help, and the scan goes on |
| Scanner.HelpAsLastToken | src/pfDeconvIO.cpp:90-95 | `-h` or `-help` as the last token sets help and ends the scan successfully |
| Scanner.ScanKeepsUnnamed | src/pfDeconvIO.cpp:72-95 | a path or prefix flag that never appears among the scanned tokens leaves its field as it was before the scan |
| Pipeline.PathCheck | src/pfDeconvIO.cpp:108-117 | the check passes exactly when all four paths are non-empty; otherwise it reports the first empty path in the order ref, alt, PLAF, panel |
| Pipeline.LoadAll | src/pfDeconvIO.cpp:99-104 | the files are opened in the order ref, alt, PLAF, and the first one that cannot be opened is reported as "Invalid input file. " followed by its path; when all three open, each sequence is its earlier contents followed by its file's values, the PLAF length is asserted against the locus count first and the alt length second, and on success the three sequences and the locus count have the same length |
| Pipeline.ParseSpec | src/pfDeconvIO.cpp:66-105 | a successful parse of a non-empty command line leaves three sequences whose lengths equal the locus count (the rest: `Pipeline.EmptyArgsRequestHelp`, `Pipeline.ParseEstablishesInvariant`) |
| Pipeline.FatalOnlyAfterLoads | src/pfDeconvIO.cpp:97-104 | an error that is not recoverable, that is a failed assertion, arises only after a complete scan, a path check that passes and three files that open |
| Pipeline.OmittedRefReported | src/pfDeconvIO.cpp:97-110 | after `init`, a command line that scans cleanly but never gives `-ref` fails with "Ref count file path missing!" and loads no file |
| Pipeline.OmittedPathReported | src/pfDeconvIO.cpp:97-117 | after `init`, a command line that scans cleanly but never gives the flag of one required path fails the path check, reporting that path or one checked before it |
| Pipeline.EmptyArgsRequestHelp | src/pfDeconvIO.cpp:67-70 | an empty command line sets help and does nothing else: no check and no load |
| Pipeline.ParseEstablishesInvariant | src/pfDeconvIO.cpp:66-105 | after a successful parse, the four paths are non-empty and the three files could be opened; each sequence is its earlier contents followed by its file's values, and all three have the locus count as length |
| Pipeline.EqualFilesAccepted | src/pfDeconvIO.cpp:99-104 | three well-formed files with equal line counts load, with one locus per data line |
| Pipeline.UnequalFilesRejected | src/pfDeconvIO.cpp:102-104 | well-formed files with different line counts fail an assertion: the first one when the PLAF file differs from the ref file, the second one when only the alt file differs |
| Scenarios.StringPair | src/pfDeconvIO.cpp:73-82 | a string flag and its operand are consumed together, the operand is bound, and the scan goes on after them |
| Scenarios.SizePair | src/pfDeconvIO.cpp:83-89 | a numeric flag and an operand that converts are consumed together, the value is bound, and the scan goes on after them |
| Scenarios.CommandLineScan | src/pfDeconvIO.cpp:72-95 | the flags and operands of a complete command line bind the expected fields on top of the defaults |
| Scenarios.MatchingFilesRun | src/pfDeconvIO.cpp:48-52 | that command line with matching files gives N loci, 3 strains, prefix "out1" and no help |
| Scenarios.MismatchedPlafRun | src/pfDeconvIO.cpp:99-103 | that command line with a PLAF file of a different length fails the first assertion |
| PfDeconvIO.Config.Init | src/pfDeconvIO.cpp:55-63 | no seed set, seed 0, no help, precision 8, prefix "pf3k-pfDeconv", 5 strains, the cursor on the first token; the paths, the tokens and the loaded data are unchanged |
| PfDeconvIO.Config.constructor | src/pfDeconvIO.cpp:27-31 | a new object holds no tokens, empty paths and prefix and no loaded data, before a constructor body runs |
| PfDeconvIO.Config.ReadNextStringTo | src/pfDeconvIO.cpp:120-125 | the cursor moves past the flag; when `StringOperand` succeeds, its value is stored in the field the flag names, otherwise its error is returned and no field is stored |
| PfDeconvIO.Config.ReadNextSize | src/pfDeconvIO.cpp:84-88 | the cursor moves past the flag and the result is `SizeOperand` |
| PfDeconvIO.Config.CheckInput | src/pfDeconvIO.cpp:108-117 | the method computes `PathCheck` of the fields |
| PfDeconvIO.Config.LoadFiles | src/pfDeconvIO.cpp:99-104 | the loaded fields become `LoadAll` of the old contents, or the method fails with its error; the options are unchanged |
| PfDeconvIO.Config.ScanToken | src/pfDeconvIO.cpp:73-94 | one pass of the do/while body updates the fields and the cursor as `Step` says, and leaves the tokens and the loaded data alone |
| PfDeconvIO.Config.StoreSize | src/pfDeconvIO.cpp:83-89 | a numeric operand goes to the precision, the strain count or the seed, and a seed also records that one was given |
| PfDeconvIO.Config.Parse | src/pfDeconvIO.cpp:66-105 | the new fields are `ParseSpec` of the old ones, so every lemma about `ParseSpec` holds for them |
| PfDeconvIO.Config.FromCommandLine | src/pfDeconvIO.cpp:48-52 | the object holds the tokens after the program name, and its state is `ParseSpec` of them after `init` |
| PfDeconvIO.Config.FromFiles | src/pfDeconvIO.cpp:27-42 | the three names are stored and the panel path and prefix stay empty; the object holds `LoadAll` of the three files, with its error if one fails, and only then takes the strain count |

## Left out

- `printHelp` is not modelled: it only writes to the console.
- Real file and console I/O is not modelled. A file is the sequence of lines `getline` returns.
- The model assumes every file's text ends with a newline. The behaviour without one appears only under Findings.
- `strtod` is not modelled. It is the parameter `toReal`, so text that is not a number is whatever `toReal` makes of it, as it is in the code.
- `readNextInput<size_t>` is not part of this model. Its conversion is the parameter `toSize`, and its error text is not modelled.
- If no token follows a numeric flag, the model fails with `OperandNotRead`. What the C++ does there depends on `readNextInput`, whose definition in pfDeconvIO.hpp is not part of this model.
- `size_t` is an unbounded `nat`: there is no wrap-around of the numeric options.
- A failed `assert` aborts the process in the C++. In the model it is the error `AssertionFailed`. Builds with `NDEBUG` skip the assertions, and that is not modelled.
- With an empty command line, the C++ leaves `nLoci_` uninitialised. The model's default construction sets it to 0.
- PfDeconvIO.Config.constructor: the scalar members are 0 and false in the model. The C++ leaves them unset unless pfDeconvIO.hpp initialises them, so after `FromFiles` the model's `precision`, `randomSeed`, `seedSet` and `help` are 0 and false where the C++ values are unknown.
- `PfDeconvIO.Config.ReadNextStringTo` has no reference parameter. The flag names the field that `readto` refers to in the C++.
- The chain of token comparisons in `parse` is the function `Scanner.FlagOf`.
- The two identical load-and-assert sequences of the two constructors are modelled once, as `PfDeconvIO.Config.LoadFiles`.
- Exceptions are modelled as returned `Fail` values. A field already assigned before an exception keeps its new value in both the C++ and the model; the model does not state those intermediate values on failure.
- pfDeconvIO.hpp is not part of this model. The model takes `set_seed` and `set_help` to assign `random_seed_` (the field `randomSeed`) and the help flag, and takes every numeric member to be an unbounded `nat`.

## Findings

| source | as written | input that shows it | evidently intended | confidence | as-written member | corrected member |
|---|---|---|---|---|---|---|
| src/pfDeconvIO.cpp:134-150 | the loop stops only when `getline` leaves an empty line, and once end of file has been reached `getline` fails without clearing the buffer | a file whose text is `header\nx\ty\t0.5`, with no final newline, makes the loop run for ever | stop at end of file as well as at the first empty line | not executed; depends on `std::getline` leaving the string untouched when its sentry fails | Loader.UnterminatedFileNeverStops | Loader.ReadFileLines |
