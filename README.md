# ice-asr error analysis and replacement maps, modelled in Dafny

This project models the error-analysis scripts of ice-asr, which read the scoring output of the
Kaldi speech recogniser and tally its errors, together with the replacement-table normaliser
`ReplacementMaps` of the text-cleaning tools.

- `utterance.dfy` (module `Utterances`): the `per_utt` stream parser. It groups the `ref`,
  `hyp`, `op` and `#csid` lines of one utterance id into one `Utterance` record. The copy of
  `init_utterance_dict` in `errors_by_context.py` is identical and is modelled once, here.
- `categories.dfy` (`ErrorCategories`): the error classifier. It files every utterance as
  correct, one insertion or deletion, a single substitution (split by edit distance) or other
  errors, and collects compounds.
- `context.dfy` (`ErrorContext`): the per-operation occurrence counts and the transitions from
  one operation tag to the next, with the probabilities `compute_statistics` derives from them.
- `opstats.dfy` (`OpStats`): `OperationStatistics`, the per-word operation counters, and
  `accumulate_statistics`, which rolls them up. `wordstats.dfy` (`WordStats`) holds the tallies
  the two `ops`-file analyses share.
- `wordlength.dfy` (`WordLength`) and `frequency.dfy` (`Frequency`): the analyses of the `ops`
  file by word length and by corpus frequency. In `errors_by_frequency.py`,
  `accumulate_statistics` is defined but `write_results` never calls it. The model defines it
  and proves what it would give.
- `bin_checker.dfy` (`BinChecker`): the BÍN lemma check of substitutions.
- `hypothesis_in_nbest.dfy` (`NBest`): the comparison of references with n-best lists.
- `wordclass.dfy` (`WordClass`): the tallies per POS word class.
- `speaker_class.dfy` (`SpeakerClass`): the grouping of `per_spk` speakers by a feature table, the summaries per feature, and the records `write_summed_stats` writes.
- `map_replacement.dfy` (`MapReplacement`): `create_map_from_list`, `replace_acronyms` and
  `replace_symbols`.
- `text.dfy`, `dicts.dfy`, `sorting.dfy` and `results.dfy` are shared helpers:
  - the Python string built-ins the scripts use;
  - the insertion-ordered `dict`;
  - the stable `list.sort(key=..., reverse=True)`;
  - `Option`, `Result` and the Python exceptions (`ValueError`, `KeyError`, `IndexError`,
    `ZeroDivisionError`), each carrying the index of the input line or entry that raised it.

Where the source mutates objects, the model uses classes with `modifies` clauses, for example
`Utterance`, `Categories`, `Operation`, `OperationsMap`, `OperationStatistics`, `WordMaps`,
`Lemma`, `NBestStatistics` and `SummedUpStatistics`. Every loop is a `method` proved against a
pure function on values. The properties the scripts rely on are lemmas about those functions:
- which line raises which exception;
- that a later entry overwrites an earlier one;
- that each record lands in exactly one bucket;
- that counters add up to the totals they summarise;
- that sorted output is a reordering of its input.

## Model

| member | source | states |
|---|---|---|
| `Utterances.NewUtterance` | error-analysis/utterance.py:21-29 | a new utterance has no errors: its substitution, insertion and deletion counts sum to zero |
| `Utterances.ParseInts` | error-analysis/utterance.py:43 | the conversion succeeds exactly when every field is an integer, and then holds each field's value, in order |
| `Utterances.SetCounts` | error-analysis/utterance.py:42-45 | succeeds exactly when all fields are integers and there are four of them, setting the counts and the second, third and fourth as substitutions, insertions and deletions; when the unpacking raises, the counts list is already assigned if the conversion succeeded, and nothing else has changed |
| `Utterances.Utterance.constructor` | error-analysis/utterance.py:21-29 | a new object holds the id, empty texts and operations, no counts and zero errors |
| `Utterances.Utterance.SumErrors` | error-analysis/utterance.py:47-48 | the errors are substitutions plus insertions plus deletions |
| `Utterances.Utterance.SumInsDelete` | error-analysis/utterance.py:50-51 | insertions plus deletions |
| `Utterances.Utterance.SetRef` | error-analysis/utterance.py:31-32 | only the reference text changes |
| `Utterances.Utterance.SetHyp` | error-analysis/utterance.py:34-35 | only the hypothesis text changes |
| `Utterances.Utterance.SetOperations` | error-analysis/utterance.py:38-39 | only the operation list changes |
| `Utterances.Utterance.SetOperationsCount` | error-analysis/utterance.py:42-45 | reports success exactly when `SetCounts` does and leaves the object in the state `SetCounts` gives, including the partial assignment when it raises |
| `Utterances.Step` | error-analysis/utterance.py:59-74 | one line is read without error exactly when it has an id and a role, and, under the current id, its role can be applied; otherwise it raises `ValueError` at that line; afterwards the current id is the line's and the keys gain exactly that id |
| `Utterances.ParseLines` | error-analysis/utterance.py:55-76 | every state reached by reading the lines in order keeps the parser's invariant (the current utterance is stored under the current id) |
| `Utterances.ErrorPersists` | error-analysis/utterance.py:58-59 | once a line has raised, the lines after it change nothing: the result is that exception |
| `Utterances.ParseStep` | error-analysis/utterance.py:55-76 | after a prefix that did not raise, the next line's step either raises, and that exception is the result of the whole read, or gives the state after one more line |
| `Utterances.KeysAreLineIds` | error-analysis/utterance.py:55-76 | the dictionary is keyed by exactly the ids of the lines read |
| `Utterances.RestartReplaces` | error-analysis/utterance.py:69-74 | an id that comes back after another id's lines replaces its earlier record by a new one whose reference is the line's payload, whatever role the line names |
| `Utterances.FourLineBlock` | error-analysis/utterance.py:55-76 | the four `ref`, `hyp`, `op` and `#csid` lines of a new id yield the record with both texts joined by spaces, the operations as given and the counts parsed from the `#csid` line |
| `Utterances.NewIdLine` | error-analysis/utterance.py:69-74 | a line under a new id stores a new utterance whose reference is the payload, whatever the role, and makes that id current |
| `Utterances.SameIdLine` | error-analysis/utterance.py:61-68 | a line under the current id changes that utterance alone, by its role; an unknown role changes nothing and a malformed `#csid` line raises `ValueError` at that line |
| `Utterances.UpdateByRole` | error-analysis/utterance.py:62-68 | the role dispatch on the object reports success and leaves the object in the state `ApplyRole` gives |
| `Utterances.UpdateCurrent` | error-analysis/utterance.py:61-68 | under the current id, the stored object is updated in place and the dictionary keeps the same objects |
| `Utterances.StartUtterance` | error-analysis/utterance.py:69-74 | under a new id, a fresh object holding the payload as reference is stored, and every other key keeps its object |
| `Utterances.ReadLine` | error-analysis/utterance.py:59-74 | one pass of the loop raises exactly when `Step` does, and otherwise leaves a dictionary of fresh or earlier objects whose states are those `Step` gives |
| `Utterances.InitUtteranceDict` | error-analysis/utterance.py:55-76 | raises exactly the exception `ParseLines` gives, and otherwise returns fresh utterance objects whose states, key for key and in insertion order, are those of `ParseLines` |
| `ErrorCategories.NewCategory` | error-analysis/categories.py:93-96 | a new category has its name, no rows and a zero counter |
| `ErrorCategories.Created` | error-analysis/categories.py:47-51 | an existing category is kept as it is; a missing one is added empty; no other key changes |
| `ErrorCategories.Added` | error-analysis/categories.py:58-63 | an empty element changes nothing, not even a missing category; otherwise the category, created if missing, gets the element as its last row, and every other category is unchanged |
| `ErrorCategories.Counted` | error-analysis/categories.py:65-67 | the category, created if missing, has the amount added to its counter and keeps its rows; every other category is unchanged |
| `ErrorCategories.ErrorSumPick` | error-analysis/categories.py:75-80 | the summed counters do not depend on the order in which the categories are visited |
| `ErrorCategories.Bigrams` | error-analysis/categories.py:123-127 | one word per pair of neighbouring tokens, each the two tokens joined, in order; none for fewer than two tokens |
| `ErrorCategories.Found` | error-analysis/categories.py:129-135 | keeps, in order, exactly the pairs that are also tokens of the other text |
| `ErrorCategories.FoundBigrams` | error-analysis/categories.py:123-135 | some pair of neighbouring tokens, joined, is a token of the other text exactly when the search keeps a match |
| `ErrorCategories.CompoundsResult` | error-analysis/categories.py:137-141 | the check returns an empty row and 0 exactly when neither text holds a compound of the other; otherwise the id, both texts and `' : '` followed by the matches, and twice the number of matches |
| `ErrorCategories.CollectBigrams` | error-analysis/categories.py:123-127 | the loop collects exactly the bigrams of the token list |
| `ErrorCategories.CollectFound` | error-analysis/categories.py:129-135 | the loop appends to the results exactly the pairs found in the other text, in order |
| `ErrorCategories.CheckForCompounds` | error-analysis/categories.py:105-141 | returns the row and the error count that `CompoundsResult` characterises |
| `ErrorCategories.InitialCategories` | error-analysis/categories.py:151-160 | there are exactly the six categories |
| `ErrorCategories.InitialCategoriesEmpty` | error-analysis/categories.py:151-160 | the six categories start with no rows and zero counters |
| `ErrorCategories.ErrorTotalOfCategories` | error-analysis/categories.py:75-80 | over the six categories, the printed total is the four error counters together: `correct` and `compounds` are left out |
| `ErrorCategories.AddedEffect` | error-analysis/categories.py:58-63 | adding to one of the six categories changes no counter and adds one row to that category alone, none for an empty element |
| `ErrorCategories.CountedEffect` | error-analysis/categories.py:65-67 | counting under one of the six categories changes no row and only that category's counter |
| `ErrorCategories.LsRowsSplit` | error-analysis/categories.py:205-214 | every differing position gives exactly one row, to `levenshtein_one` or to `levenshtein_gt_one`, so the two row lists together are as long as the number of differing positions |
| `ErrorCategories.LevenshteinRowsStep` | error-analysis/categories.py:205-214 | one more position keeps the per-category rows and counters `LsRows` gives: a differing position at distance 1 extends `levenshtein_one`, any other differing position `levenshtein_gt_one`, an equal one neither |
| `ErrorCategories.LevenshteinRowsState` | error-analysis/categories.py:205-214 | after any number of positions, each Levenshtein category holds its old rows followed by its `LsRows` and its counter grew by their number; every other category is unchanged |
| `ErrorCategories.LevenshteinRowsEffect` | error-analysis/categories.py:204-214 | the substitution branch appends, in position order, `id_ref_hyp + [r, h]` to `levenshtein_one` for each differing position at distance 1 and `id_ref_hyp + [str(op), r, h, str(dist)]` to `levenshtein_gt_one` for each other differing position (`LsRows`), adding 1 per row to that category's counter; the two together grow by the number of differing positions, and no other category changes |
| `ErrorCategories.CompoundsEffect` | error-analysis/categories.py:189-193 | the compounds check adds one row to `compounds` when a compound is found and twice the matches to its counter; no other category changes |
| `ErrorCategories.ClassifyEffect` | error-analysis/categories.py:179-218 | one utterance raises `IndexError` exactly when it takes the substitution branch with more hypothesis than reference words; otherwise the six categories remain and the four error counters grow by the utterance's contribution |
| `ErrorCategories.ClassifyCorrect` | error-analysis/categories.py:183-185 | a correct utterance appends its id, its reference and `'0'` to `correct`, and nothing else changes |
| `ErrorCategories.ClassifyOneInsDel` | error-analysis/categories.py:197-200 | one insertion or deletion in a reference of two or more words: the compounds check, then the id and both texts appended to `one_inserted_or_deleted` with 1 counted; nothing else changes |
| `ErrorCategories.ClassifySubstitution` | error-analysis/categories.py:202-214 | a single substitution that does not raise: the compounds check, then `levenshtein_one` gets the rows and counts of the differing positions at distance 1 and `levenshtein_gt_one` those of the others, each in position order with the row shapes of `LsRows`; nothing else changes |
| `ErrorCategories.ClassifyOther` | error-analysis/categories.py:216-218 | any other error: the compounds check, then the id, both texts, the printed operation list and the error count appended to `other_errors`, with the error count added to its counter; nothing else changes |
| `ErrorCategories.ClassifyRaises` | error-analysis/categories.py:203-206 | one utterance raises exactly when it takes the substitution branch with more hypothesis than reference words; otherwise the six categories remain |
| `ErrorCategories.NoneRaisesAll` | error-analysis/categories.py:179-218 | no utterance of the list raises exactly when each one, taken alone, does not |
| `ErrorCategories.AnalysedNoneRaises` | error-analysis/categories.py:174-218 | the analysis succeeds exactly when no utterance raises, and then ends with exactly the six categories |
| `ErrorCategories.AnalysedRaises` | error-analysis/categories.py:174-218 | the analysis raises exactly when some utterance raises |
| `ErrorCategories.AnalysedEffect` | error-analysis/categories.py:174-218 | a successful analysis leaves the six categories, one `correct` row per correct utterance and nothing counted under `correct`, and four error counters holding the sum of the utterances' contributions |
| `ErrorCategories.AnalysedTotal` | error-analysis/categories.py:69-83 | the total errors printed after the analysis is the sum of the utterances' contributions |
| `ErrorCategories.AnalysedPrefixErr` | error-analysis/categories.py:179-218 | after an utterance has raised, one more utterance changes nothing |
| `ErrorCategories.AnalysedErrorPersists` | error-analysis/categories.py:179-218 | once an utterance raises, the whole analysis ends with that exception |
| `ErrorCategories.Categories.constructor` | error-analysis/categories.py:44-45 | a new object holds no categories |
| `ErrorCategories.Categories.CreateCategory` | error-analysis/categories.py:47-51 | the dictionary becomes what `Created` gives |
| `ErrorCategories.Categories.CheckForCategory` | error-analysis/categories.py:53-56 | a missing category is created and an existing one is left alone |
| `ErrorCategories.Categories.AddToDict` | error-analysis/categories.py:58-63 | the dictionary becomes what `Added` gives |
| `ErrorCategories.Categories.UpdateCounter` | error-analysis/categories.py:65-67 | the dictionary becomes what `Counted` gives |
| `ErrorCategories.Categories.PrintToStdout` | error-analysis/categories.py:69-83 | raises `KeyError` exactly when there is no `correct` category; otherwise gives the number of correct rows and the sum of the counters of every category other than `correct` and `compounds` |
| `ErrorCategories.CreateErrorCategories` | error-analysis/categories.py:151-160 | a new object holding exactly the six empty categories |
| `ErrorCategories.AddLevenshteinRows` | error-analysis/categories.py:204-214 | the loop over the hypothesis positions completes exactly when the hypothesis has no more words than the reference, and then leaves the rows and counters `LevenshteinRows` gives |
| `ErrorCategories.ClassifyUtterance` | error-analysis/categories.py:180-218 | the loop body for one utterance fails exactly when `Classify` raises `IndexError`, and otherwise leaves the categories `Classify` gives |
| `ErrorCategories.AnalyseInput` | error-analysis/categories.py:163-221 | raises exactly the exception the analysis raises, and otherwise returns a new object whose categories are those the analysis ends with |
| `ErrorContext.ErrorTags` | error-analysis/errors_by_context.py:129-132 | of the five predecessors, exactly `D`, `I` and `S` are errors; `C` and `start` are not |
| `ErrorContext.Occurrences` | error-analysis/errors_by_context.py:135-142 | an operation occurs at most as often as there are tags |
| `ErrorContext.OccurrencesMultiset` | error-analysis/errors_by_context.py:135-142 | the count of an operation is its multiplicity among the tags |
| `ErrorContext.OccurrencesTotal` | error-analysis/errors_by_context.py:135-142 | when every tag is an operation name, the four counts add up to the number of tags |
| `ErrorContext.GetOperationCount` | error-analysis/errors_by_context.py:135-142 | the loop counts exactly the positions holding the operation |
| `ErrorContext.WithContext` | error-analysis/errors_by_context.py:45-48 | the line is appended to the predecessor's bucket, created when missing; name and occurrences are kept |
| `ErrorContext.WithContextOthers` | error-analysis/errors_by_context.py:45-48 | every other bucket is left alone and only the predecessor's bucket can be new |
| `ErrorContext.InitialOps` | error-analysis/errors_by_context.py:217-218 | there is one operation for each of the four tags |
| `ErrorContext.Bumped` | error-analysis/errors_by_context.py:227-228 | the occurrence loop keeps the four operations |
| `ErrorContext.BumpedAll` | error-analysis/errors_by_context.py:227-228 | after the occurrence loop each operation has grown by its multiplicity among the utterance's tags, and nothing else about it changes |
| `ErrorContext.RecordOne` | error-analysis/errors_by_context.py:232-234 | one step of the transition loop succeeds exactly when the tag is an operation name |
| `ErrorContext.TransitionCount` | error-analysis/errors_by_context.py:231-234 | a transition into an operation is seen at most once per position |
| `ErrorContext.Copies` | error-analysis/errors_by_context.py:233 | the given number of copies of the line |
| `ErrorContext.RecordContextsSome` | error-analysis/errors_by_context.py:231-234 | the transition loop finishes exactly when every tag is an operation name, and then keeps the four operations |
| `ErrorContext.RecordOneEffect` | error-analysis/errors_by_context.py:233-234 | one step appends the line to the bucket of the previous tag in the record of the current tag alone |
| `ErrorContext.RecordNonePersists` | error-analysis/errors_by_context.py:232-233 | once a tag raises `KeyError`, the rest of the loop raises too |
| `ErrorContext.RecordProject` | error-analysis/errors_by_context.py:231-234 | the transition loop changes each operation independently of the others |
| `ErrorContext.RecordForBuckets` | error-analysis/errors_by_context.py:231-234 | bucket `p` of operation `o` grows by one copy of the line for each position where `o` follows `p`, with `start` before the first tag |
| `ErrorContext.RecordForKeys` | error-analysis/errors_by_context.py:231-234 | over known tags the loop keeps each name and occurrence count and creates no bucket other than a predecessor's |
| `ErrorContext.TransitionSum` | error-analysis/errors_by_context.py:231-234 | over known tags, the transitions into an operation from the five predecessors are all of its occurrences |
| `ErrorContext.TransitionStart` | error-analysis/errors_by_context.py:231-234 | over known tags, only the first tag follows `start` |
| `ErrorContext.RecordOp` | error-analysis/errors_by_context.py:231-234 | the transition loop gives each operation one line per occurrence, in buckets of predecessors only |
| `ErrorContext.TrackOp` | error-analysis/errors_by_context.py:222-234 | one utterance adds to each operation its occurrences and one line, in the right bucket, per occurrence |
| `ErrorContext.TrackUtteranceRaises` | error-analysis/errors_by_context.py:227-234 | one utterance raises `KeyError` at its position exactly when one of its tags is not an operation name; otherwise the four operations remain |
| `ErrorContext.TrackUtteranceEffect` | error-analysis/errors_by_context.py:222-234 | an utterance that does not raise keeps the operations consistent, adds its number of tags to the occurrences and adds one line after `start` when it has tags |
| `ErrorContext.TrackUtteranceConsistent` | error-analysis/errors_by_context.py:222-234 | an utterance that does not raise keeps every operation's bucket sizes equal to its occurrences, with predecessor buckets only |
| `ErrorContext.TrackUtteranceTotals` | error-analysis/errors_by_context.py:222-234 | an utterance that does not raise adds its tags to the occurrences and its first tag after `start` |
| `ErrorContext.TrackUtteranceOccurrences` | error-analysis/errors_by_context.py:227-228 | an utterance that does not raise adds its number of tags to the occurrences |
| `ErrorContext.TrackUtteranceStarts` | error-analysis/errors_by_context.py:231-234 | an utterance that does not raise adds one line after `start` exactly when it has a tag |
| `ErrorContext.InitialConsistent` | error-analysis/errors_by_context.py:217-218 | the fresh operations are consistent, with no occurrences and no lines |
| `ErrorContext.TrackedEffect` | error-analysis/errors_by_context.py:220-234 | the tracking loop raises `KeyError` exactly when some tag is not an operation name; otherwise every operation's bucket sizes add up to its occurrences, the occurrences to the number of tags, and the lines after `start` to the utterances with tags |
| `ErrorContext.TrackedPrefixErr` | error-analysis/errors_by_context.py:222-234 | after an utterance has raised, one more utterance changes nothing |
| `ErrorContext.TrackedErrorPersists` | error-analysis/errors_by_context.py:222-234 | once an utterance raises, the whole tracking loop ends with that exception |
| `ErrorContext.ExtendedTwice` | error-analysis/errors_by_context.py:68-70 | two appends to one bucket append both, in order |
| `ErrorContext.ErrorsQueried` | error-analysis/errors_by_context.py:66-72 | the query keeps the four operations; the list it extends is the deletions' bucket itself when there is one |
| `ErrorContext.ErrorsSucceedingCount` | error-analysis/errors_by_context.py:66-92 | the count of errors after a predecessor is the length of the list of errors after it, the bucket sizes of `D`, `I` and `S` added, and both raise together |
| `ErrorContext.ErrorsQueriedElsewhere` | error-analysis/errors_by_context.py:66-72 | a query about one predecessor changes no name, no occurrence count and nothing a query about another predecessor sees |
| `ErrorContext.ErrorsQueriedAgain` | error-analysis/errors_by_context.py:66-72 | the query is not idempotent: where the deletions have a bucket for the predecessor, asking again gives the first answer followed by the insertions and substitutions again |
| `ErrorContext.OccurrenceSumPick` | error-analysis/errors_by_context.py:59-64 | the summed occurrences do not depend on the order of the operations |
| `ErrorContext.OccurrenceSumOfOps` | error-analysis/errors_by_context.py:59-64 | over the four operations the sum is their occurrences added |
| `ErrorContext.ErrorsQueriedOther` | error-analysis/errors_by_context.py:66-72 | a query about one predecessor sees nothing of an earlier query about another |
| `ErrorContext.WrittenLinesUnaffected` | error-analysis/errors_by_context.py:145-150 | since each predecessor is queried once, every file holds the errors after its predecessor as tracked |
| `ErrorContext.StatisticsOfConsistent` | error-analysis/errors_by_context.py:153-209 | on consistent operations the statistics raise only `ZeroDivisionError`; the errors after the five predecessors add up to the error counts, the correct decodings after them to the correct count, the sum of operations to the four counts, and errors and correct decodings after `start` to the lines after `start` |
| `ErrorContext.ErrorFilesLengths` | error-analysis/errors_by_context.py:145-150 | there are five files, each with as many lines as there are errors after its predecessor |
| `ErrorContext.ComputedOfConsistent` | error-analysis/errors_by_context.py:153-211 | the statistics and the five files together: only `ZeroDivisionError` is raised, and each file's length is the printed error count after its predecessor |
| `ErrorContext.ContextAnalysisEffect` | error-analysis/errors_by_context.py:214-237 | the analysis raises `KeyError` exactly when some tag is not an operation name and otherwise only `ZeroDivisionError`; otherwise the sum of operations is the number of tags, every error and correct decoding is counted after exactly one predecessor, those after `start` are one per utterance with tags, and each file's length is its printed count |
| `ErrorContext.Operation.constructor` | error-analysis/errors_by_context.py:40-43 | a new operation has its name, no occurrences and no buckets |
| `ErrorContext.Operation.IncrementContext` | error-analysis/errors_by_context.py:45-48 | the object becomes what `WithContext` gives |
| `ErrorContext.Operation.IncrementOcc` | error-analysis/errors_by_context.py:50-51 | only the occurrence count grows, by the amount given |
| `ErrorContext.IncrementContextAt` | error-analysis/errors_by_context.py:233 | the call on the operation stored under a tag changes that operation alone |
| `ErrorContext.ExtendAt` | error-analysis/errors_by_context.py:68-70 | the in-place append on a bucket changes that operation alone |
| `ErrorContext.BumpOccurrences` | error-analysis/errors_by_context.py:227-228 | the occurrence loop leaves the operations `Bumped` gives |
| `ErrorContext.RecordTransitions` | error-analysis/errors_by_context.py:231-234 | the transition loop completes exactly when every tag is an operation name, and then leaves the operations `RecordContexts` gives |
| `ErrorContext.TrackUtteranceIn` | error-analysis/errors_by_context.py:223-234 | one pass of the outer loop completes exactly when `TrackUtterance` does not raise, and then leaves the operations it gives |
| `ErrorContext.OperationsMap.constructor` | error-analysis/errors_by_context.py:56-57 | the object holds the dictionary it is given, not a copy |
| `ErrorContext.OperationsMap.GetOperationSum` | error-analysis/errors_by_context.py:59-64 | the loop sums the occurrences of every operation |
| `ErrorContext.OperationsMap.GetOperationSucceeding` | error-analysis/errors_by_context.py:74-78 | the answer is the bucket of the predecessor, empty when missing, or `KeyError` for an unknown operation |
| `ErrorContext.OperationsMap.GetCountSucceeding` | error-analysis/errors_by_context.py:87-92 | the answer is the size of that bucket, 0 when missing, or `KeyError` for an unknown operation |
| `ErrorContext.OperationsMap.GetErrorCountSucceeding` | error-analysis/errors_by_context.py:80-85 | the answer is the bucket sizes of `D`, `I` and `S` for the predecessor, added |
| `ErrorContext.OperationsMap.GetCount` | error-analysis/errors_by_context.py:94-96 | the answer is the operation's occurrences, or `KeyError` for an unknown operation |
| `ErrorContext.OperationsMap.GetErrorsSucceeding` | error-analysis/errors_by_context.py:66-72 | returns the deletions', insertions' and substitutions' lines after the predecessor, and leaves the deletions' bucket extended as `ErrorsQueried` says |
| `ErrorContext.WriteErrors` | error-analysis/errors_by_context.py:145-150 | the five files are those `ErrorFiles` gives, and the operations are left as the five queries leave them |
| `ErrorContext.ReadStatistics` | error-analysis/errors_by_context.py:155-209 | the printed counts and ratios are those `Statistics` gives |
| `ErrorContext.ComputeStatistics` | error-analysis/errors_by_context.py:153-211 | the statistics and files are those `Computed` gives; nothing is written when a ratio raises |
| `ErrorContext.NewOperations` | error-analysis/errors_by_context.py:217-218 | four distinct fresh operations, one per tag, each new |
| `ErrorContext.TrackAll` | error-analysis/errors_by_context.py:220-234 | the outer loop completes exactly when the tracking does not raise, otherwise raising `KeyError` at the last utterance it counted; on completion it has counted every utterance and their errors |
| `ErrorContext.AnalyseErrorsByContext` | error-analysis/errors_by_context.py:214-237 | the result is what `ContextAnalysis` gives |
| `OpStats.Zero` | error-analysis/operationstats.py:9-16 | a new record has its word and frequency, every counter zero, no errors, and its total agrees with its counters |
| `OpStats.Incremented` | error-analysis/operationstats.py:18-28 | the total always grows by the count, and word and frequency are kept |
| `OpStats.Merged` | error-analysis/operationstats.py:30-35 | the errors grow by the other record's errors, and word and frequency are kept |
| `OpStats.IncrementFields` | error-analysis/operationstats.py:18-28 | each of `correct`, `deletion`, `insertion` and `substitution` grows only its own counter, and a known operation keeps the total in agreement with the counters |
| `OpStats.IncrementUnknown` | error-analysis/operationstats.py:18-28 | any other operation name adds to the total and to no counter |
| `OpStats.IncrementAllBalanced` | error-analysis/operationstats.py:30-35 | merging two records whose totals agree with their counters gives such a record |
| `OpStats.FoldAll` | error-analysis/operationstats.py:30-35 | merging a list of records into an accumulator keeps its word and frequency |
| `OpStats.FoldAllSum` | error-analysis/operationstats.py:30-35 | merging a list of records adds their field-wise total to the accumulator |
| `OpStats.SumCountersPermutation` | error-analysis/operationstats.py:30-35 | the field-wise total of a list of records does not depend on its order |
| `OpStats.FoldAllPermutation` | error-analysis/operationstats.py:30-35 | merging any reordering of a list of records gives the same accumulator |
| `OpStats.SplitOpsLine` | error-analysis/errors_by_word_length.py:136 | unpacking an `ops` line succeeds exactly when it splits into four fields, which it gives in order; otherwise `ValueError` at that line |
| `OpStats.ParseOpsLine` | error-analysis/errors_by_word_length.py:136-137 | a line is read exactly when it has four fields and the last is an integer, whose value becomes the count; otherwise `ValueError` at that line |
| `OpStats.ParseOps` | error-analysis/errors_by_word_length.py:135-137 | a successful read gives one parsed line per `ops` line |
| `OpStats.ParseOpsErrorPersists` | error-analysis/errors_by_word_length.py:135-137 | once a line is malformed, the lines after it are not read: the result is that exception |
| `OpStats.ParseOpsStep` | error-analysis/errors_by_word_length.py:135-137 | a malformed line ends the whole read with its exception; a good one is appended to the lines read before it |
| `OpStats.AddStat` | error-analysis/errors_by_word_length.py:37-43 | the map gains the word, every other word keeps its record, and the map stays well formed |
| `OpStats.Accumulate` | error-analysis/errors_by_word_length.py:46-58 | the roll-up of a list of records is a well-formed dictionary; what it holds is stated by `AccumulateGroups` |
| `OpStats.GroupMembers` | error-analysis/errors_by_word_length.py:50-56 | a group holds only records of the list that are not the `***` placeholder and have the group's key |
| `OpStats.AccumulateGroups` | error-analysis/errors_by_word_length.py:46-58 | there is an accumulator for a key exactly when some non-placeholder record has that key, and it is named after the key, has frequency 0 and holds the field-wise total of that group |
| `OpStats.AccumulateTotal` | error-analysis/errors_by_word_length.py:46-58 | the accumulators together hold the field-wise total of all non-placeholder records |
| `OpStats.NonPlaceholderCount` | error-analysis/errors_by_word_length.py:51-52 | skipping the placeholder drops all placeholder records and keeps every other record as often as it occurs |
| `OpStats.NonPlaceholderPermutation` | error-analysis/errors_by_word_length.py:51-52 | reordering the records reorders the records the roll-up keeps |
| `OpStats.AccumulateEmpty` | error-analysis/errors_by_word_length.py:46-58 | the roll-up is empty exactly when every record is the placeholder |
| `OpStats.OperationStatistics.constructor` | error-analysis/operationstats.py:9-16 | the new object's state is that of `Zero` |
| `OpStats.OperationStatistics.Increment` | error-analysis/operationstats.py:18-28 | the object's state becomes that of `Incremented` |
| `OpStats.OperationStatistics.IncrementAll` | error-analysis/operationstats.py:30-35 | the object's state becomes that of `Merged` |
| `OpStats.MergeInto` | error-analysis/errors_by_word_length.py:54-56 | the record is merged into the accumulator of its key, a new object named after the key when there was none; every other key keeps its object |
| `OpStats.AccumulateOne` | error-analysis/errors_by_word_length.py:50-56 | one pass of the loop leaves objects whose states are the roll-up of the records up to it |
| `OpStats.AccumulateStatistics` | error-analysis/errors_by_word_length.py:46-58 | returns new objects, one per key in insertion order, whose states are the accumulators `Accumulate` gives |
| `OpStats.States` | error-analysis/errors_by_word_length.py:95 | the states of a list of objects, position by position |
| `WordStats.Tally` | error-analysis/errors_by_word_length.py:135-139 | the map built from every line, on one side, is well formed; what it holds is stated by `TallyRecord` |
| `WordStats.TallySnoc` | error-analysis/errors_by_word_length.py:37-43 | the last line updates only the record of its own word |
| `WordStats.TallyRecord` | error-analysis/errors_by_word_length.py:33-43 | after every line is added, a word has a record exactly when some line names it on that side, and its record holds its lines' counts: each total and each operation's counter summed |
| `WordStats.TallyBalanced` | error-analysis/operationstats.py:18-28 | when every line names one of the four operations, every record's total agrees with its counters |
| `WordStats.AddStatTotal` | error-analysis/errors_by_word_length.py:37-43 | one update adds the line's counts to the map's field-wise total |
| `WordStats.TallyTotal` | error-analysis/errors_by_word_length.py:33-43 | each line's count lands in exactly one record of a map, so the records together hold the counts of all lines |
| `WordStats.TalliesAgree` | error-analysis/errors_by_word_length.py:33-43 | the reference map and the hypothesis map hold the same field-wise totals |
| `WordStats.TallyPositive` | error-analysis/errors_by_word_length.py:33-43 | when every line's count is positive, every record has a positive total |
| `WordStats.OccurrencesPositive` | error-analysis/errors_by_word_length.py:33-43 | a word some line names has a positive total when all counts are positive |
| `WordLength.FinalOrderSorted` | error-analysis/errors_by_word_length.py:96-111 | after the three sorts the list is a reordering of the records, non-increasing by occurrences |
| `WordLength.FinalOrderTies` | error-analysis/errors_by_word_length.py:104-111 | since the sorts are stable, records with equal occurrences stay in the order of the length sort: longer words first |
| `WordLength.WriteResultsFields` | error-analysis/errors_by_word_length.py:94-128 | a successful run writes the occurrence sorts, the length sorts, the top slices of the final order and both roll-ups, and totals the reference roll-up |
| `WordLength.WriteResultsSorted` | error-analysis/errors_by_word_length.py:94-108 | each written list is a reordering of its side's records, non-increasing by its key |
| `WordLength.TopList` | error-analysis/errors_by_word_length.py:110-114 | a top list is the first `n` records of the final order under Python slicing, non-increasing by occurrences, and no record left out of it has more occurrences than one in it |
| `WordLength.WriteResultsImpact` | error-analysis/errors_by_word_length.py:76-91 | the totals printed are those of all non-placeholder reference records |
| `WordLength.ReferenceTotal` | error-analysis/errors_by_word_length.py:122-128 | the roll-up of the final order totals the non-placeholder records, whatever their order, and is empty exactly when there are none |
| `WordLength.HasZeroTotalPermutation` | error-analysis/errors_by_word_length.py:94-102 | reordering a list does not change whether a record in it has no occurrences |
| `WordLength.WriteResultsErr` | error-analysis/errors_by_word_length.py:94-128 | the output raises `ZeroDivisionError`, and nothing else, exactly when a record of either side has no occurrences, when an accumulator of either roll-up has none, or when there are non-placeholder reference records and none of them has an error |
| `WordLength.AccumulatePositive` | error-analysis/errors_by_word_length.py:46-58 | records with positive totals roll up into accumulators with positive totals |
| `WordLength.PositivePermutation` | error-analysis/errors_by_word_length.py:94-111 | a reordering of records with positive totals has positive totals |
| `WordLength.RollUpPositive` | error-analysis/errors_by_word_length.py:122-123 | records with positive totals give a roll-up with no zero total |
| `WordLength.WriteResultsPositive` | error-analysis/errors_by_word_length.py:76-128 | with positive totals on both sides, the output raises exactly when there are non-placeholder reference records and none of them has an error |
| `WordLength.ByWordLengthPositive` | error-analysis/errors_by_word_length.py:131-141 | with well-formed lines and positive counts, the analysis fails only in the impact shares, exactly when there are non-placeholder reference words and none has an error |
| `WordLength.WordMaps.constructor` | error-analysis/errors_by_word_length.py:29-31 | both maps start empty |
| `WordLength.WordMaps.AddOperation` | error-analysis/errors_by_word_length.py:33-43 | the reference word's record and the hypothesis word's record are each incremented, created with frequency 0 when missing |
| `WordLength.OverallImpact` | error-analysis/errors_by_word_length.py:76-85 | the loop sums the accumulators' totals, and their deletions, substitutions and insertions |
| `WordLength.RollUp` | error-analysis/errors_by_word_length.py:122-128 | the two roll-ups are those `Accumulate` gives, with the reference side's totals |
| `WordLength.WriteResults` | error-analysis/errors_by_word_length.py:94-128 | the result is what `WriteResultsOf` gives for the maps' values |
| `WordLength.AddOpsLines` | error-analysis/errors_by_word_length.py:133-139 | the loop raises exactly the exception of the first malformed line; otherwise each map is the one `Tally` gives |
| `WordLength.AnalyseByWordLength` | error-analysis/errors_by_word_length.py:131-141 | the result is what `ByWordLength` gives |
| `Frequency.ParseFreqLine` | error-analysis/errors_by_frequency.py:107-108 | a frequency line is read exactly when it has two fields and the second is an integer, giving the word and that value; otherwise `ValueError` at that line |
| `Frequency.ParseFreqLines` | error-analysis/errors_by_frequency.py:106-108 | a successful read gives one pair per line |
| `Frequency.BuildFreqs` | error-analysis/errors_by_frequency.py:105-109 | storing the pairs gives a well-formed dictionary; what it holds is stated by `BuildFreqsLast` |
| `Frequency.ParseFreqLinesErrorPersists` | error-analysis/errors_by_frequency.py:106-108 | once a line raises, the lines after it are not read |
| `Frequency.ParseFreqLinesAt` | error-analysis/errors_by_frequency.py:104-109 | the file is read exactly when every line is, each into its own pair; otherwise the exception is that of the first line that raises |
| `Frequency.BuildFreqsMap` | error-analysis/errors_by_frequency.py:105-109 | the dictionary's contents agree with storing the pairs one by one into a plain map |
| `Frequency.PairsMapKeys` | error-analysis/errors_by_frequency.py:105-109 | a word is stored exactly when some pair names it |
| `Frequency.PairsMapLast` | error-analysis/errors_by_frequency.py:105-109 | a stored word holds the value of the last pair naming it |
| `Frequency.BuildFreqsLast` | error-analysis/errors_by_frequency.py:104-109 | a word has a frequency exactly when some line names it, and the frequency is that of the last such line: later lines overwrite earlier ones |
| `Frequency.InitFrequencyMap` | error-analysis/errors_by_frequency.py:104-109 | the loop gives the frequency map `FrequencyMapOf` defines, or the first line's exception |
| `Frequency.TalliesOf` | error-analysis/errors_by_frequency.py:28-65 | the two maps built from the lines are well formed |
| `Frequency.DirectionSnoc` | error-analysis/errors_by_frequency.py:55-65 | the last line adds its message and its count to one direction's list and counter when it is a substitution in that direction, and nothing otherwise |
| `Frequency.TalliesSnoc` | error-analysis/errors_by_frequency.py:39-65 | the state after one more line is that line's `add_operation` on the state before |
| `Frequency.DirectionsPartition` | error-analysis/errors_by_frequency.py:55-65 | every substitution line lands in exactly one direction: the two lists together have one message per substitution line and the two counters hold all substitutions counted |
| `Frequency.DirectionsTotal` | error-analysis/errors_by_frequency.py:39-65 | the two substitution counters together equal the substitutions held by the reference records |
| `Frequency.RecordFrequency` | error-analysis/errors_by_frequency.py:42-51 | each record carries its word's corpus frequency, 0 for a word the frequency map lacks |
| `Frequency.FrequencyOrderSorted` | error-analysis/errors_by_frequency.py:114-123 | the frequency order is a reordering, non-increasing by corpus frequency, with records of equal frequency kept most correct first |
| `Frequency.TopList` | error-analysis/errors_by_frequency.py:122-126 | a top list is the first `n` records of the frequency order under Python slicing, and no record left out of it has a higher corpus frequency than one in it |
| `Frequency.WriteResultsErr` | error-analysis/errors_by_frequency.py:112-150 | the output raises `ZeroDivisionError`, and nothing else, exactly when a top list holds a record with no occurrences; otherwise the printed counters are those of the maps |
| `Frequency.TopListPositive` | error-analysis/errors_by_frequency.py:128-129 | top records with positive totals cannot make the accuracy sort raise |
| `Frequency.ByCorpusFrequencyPositive` | error-analysis/errors_by_frequency.py:153-166 | with well-formed input and positive counts the analysis succeeds, and its two printed counters total the substitutions counted |
| `Frequency.FrequencyAccumulators` | error-analysis/errors_by_frequency.py:68-80 | each accumulator of the frequency roll-up is named after a frequency some non-placeholder record has, yet has corpus frequency 0, as it is created without one |
| `Frequency.WordMaps.constructor` | error-analysis/errors_by_frequency.py:31-37 | both maps, both lists and both counters start empty |
| `Frequency.WordMaps.AddOperation` | error-analysis/errors_by_frequency.py:39-65 | the state becomes that line's `add_operation` on the state before |
| `Frequency.WordMaps.AddRecords` | error-analysis/errors_by_frequency.py:45-53 | both records are incremented, each created with its word's frequency when missing; the lists and counters are unchanged |
| `Frequency.WordMaps.LogSubstitution` | error-analysis/errors_by_frequency.py:55-65 | the message and the count go to the less-to-more list and counter when the hypothesis is more frequent, and otherwise to the more-to-less ones; the maps are unchanged |
| `Frequency.AddOpsLines` | error-analysis/errors_by_frequency.py:159-164 | the loop raises exactly the exception of the first malformed line; otherwise the state is the one `TalliesOf` gives |
| `Frequency.WriteResults` | error-analysis/errors_by_frequency.py:112-150 | the result is what `WriteResultsOf` gives for the maps' state |
| `Frequency.AnalyseByCorpusFrequency` | error-analysis/errors_by_frequency.py:153-166 | the result is what `ByCorpusFrequency` gives |
| `BinChecker.Lemma.constructor` | error-analysis/bin_checker.py:40-42 | a new lemma has its id and no word forms |
| `BinChecker.Lemma.AddWordForm` | error-analysis/bin_checker.py:44-45 | the word form joins the lemma's set; the id is unchanged |
| `BinChecker.Lemma.AddWordForms` | error-analysis/bin_checker.py:47-48 | the lemma's set becomes its union with the given forms; the id is unchanged |
| `BinChecker.IdBased` | error-analysis/bin_checker.py:51-75 | the id-based dictionary is well formed; what it holds is stated by `IdBasedForms` |
| `BinChecker.IdBasedStep` | error-analysis/bin_checker.py:56-73 | one more BÍN line changes the dictionary only as that line's own step says |
| `BinChecker.ListedSnoc` | error-analysis/bin_checker.py:56-73 | a longer input lists a pair exactly when the shorter input or the new line lists it |
| `BinChecker.IdBasedForms` | error-analysis/bin_checker.py:51-75 | lines without six fields are skipped: an id holds a word form exactly when some well-formed line lists that form under that id, and no id has an empty set |
| `BinChecker.IdBasedForm` | error-analysis/bin_checker.py:51-75 | one (id, word form) pair is in the dictionary exactly when some well-formed line lists it |
| `BinChecker.InitIdBasedBinDict` | error-analysis/bin_checker.py:51-75 | the loop builds the dictionary `IdBased` defines, with ids in order of first listing |
| `BinChecker.WithLemmaNone` | error-analysis/bin_checker.py:89-95 | adding a lemma under no word forms changes nothing |
| `BinChecker.WithLemmaStep` | error-analysis/bin_checker.py:89-95 | one more word form appends the lemma to that form's list, creating the list when missing |
| `BinChecker.BinDictLemmas` | error-analysis/bin_checker.py:78-97 | each word form's list holds the lemmas of the ids whose forms contain it, once each, in id order, and a form is a key exactly when that list is not empty |
| `BinChecker.LemmasWithMeaning` | error-analysis/bin_checker.py:86-95 | a lemma is listed for a word form exactly when its id is a key, its forms are that id's set and the form is among them |
| `BinChecker.LemmasWithDistinct` | error-analysis/bin_checker.py:86-95 | with distinct ids, the lemmas listed for one word form have distinct ids |
| `BinChecker.BinDictKey` | error-analysis/bin_checker.py:78-97 | a word form is a key of the BÍN dictionary exactly when some well-formed line lists it |
| `BinChecker.BinDictEntry` | error-analysis/bin_checker.py:78-97 | a lemma listed for a word form has an id listing that form, and holds exactly the forms the lines list under its id |
| `BinChecker.BinDictComplete` | error-analysis/bin_checker.py:78-97 | every id listing a word form contributes its lemma to that form's list |
| `BinChecker.BinDictDistinct` | error-analysis/bin_checker.py:78-97 | no two lemmas listed for one word form share an id |
| `BinChecker.AddLemma` | error-analysis/bin_checker.py:89-95 | the inner loop over one lemma's forms gives `WithLemma` for those forms, whatever order the set is visited in |
| `BinChecker.InitBinDict` | error-analysis/bin_checker.py:78-97 | the loops build the dictionary `BinDict` defines |
| `BinChecker.UnionMembers` | error-analysis/bin_checker.py:100-104 | an element is in the union exactly when it is in one of the lists |
| `BinChecker.ExtractSetFromList` | error-analysis/bin_checker.py:100-104 | the loop returns the union of all the lists |
| `BinChecker.InitialLemmaCategories` | error-analysis/bin_checker.py:134-140 | exactly the same-lemma, different-lemma and not-in-BÍN categories, each empty |
| `BinChecker.CreateCategories` | error-analysis/bin_checker.py:134-140 | a new `Categories` object holding the three empty categories |
| `BinChecker.FindInLemmas` | error-analysis/bin_checker.py:171-176 | the loop with its `break` finds a lemma exactly when some lemma in the list has the hypothesis among its forms |
| `BinChecker.CheckLineEffect` | error-analysis/bin_checker.py:155-181 | a line raises `ValueError` at its index exactly when it does not unpack into four fields with an integer count; a non-substitution changes nothing; a substitution adds one row and its count to the one category its outcome names, and its count to `subst_counter` |
| `BinChecker.CheckLineTotals` | error-analysis/bin_checker.py:155-181 | one more line adds one row when it is a substitution, and its count to the category counters and to `subst_counter` alike |
| `BinChecker.LemmaCheckedTotals` | error-analysis/bin_checker.py:155-181 | where the loop does not raise, the three categories hold one row per substitution line, and their counters add up to `subst_counter`, the substitutions' total count |
| `BinChecker.LemmaCheckedRaises` | error-analysis/bin_checker.py:155-156 | the loop raises exactly when some line is malformed, with the index of the first one |
| `BinChecker.LemmaCheckedRaisesAfterErr` | error-analysis/bin_checker.py:155-156 | when all but the last line already raised at the first malformed line, the whole loop raises there too |
| `BinChecker.LemmaCheckedRaisesAfterOk` | error-analysis/bin_checker.py:155-156 | when all but the last line are well formed and read, the loop raises exactly when the last line is malformed, at its index |
| `BinChecker.LemmaCheckedPrefix` | error-analysis/bin_checker.py:155-181 | after a prefix that did not raise, one more line is that line's step |
| `BinChecker.LemmaCheckedPrefixErr` | error-analysis/bin_checker.py:155-181 | after a prefix that raised, one more line changes nothing |
| `BinChecker.LemmaCheckedErrorPersists` | error-analysis/bin_checker.py:155-181 | once a prefix raises, the whole loop raises the same exception |
| `BinChecker.SameLemmaSound` | error-analysis/bin_checker.py:163-176 | a substitution classed as same-lemma has one BÍN id listing both words |
| `BinChecker.SameLemmaComplete` | error-analysis/bin_checker.py:163-176 | two words listed under one id are classed as same-lemma |
| `BinChecker.OutcomeMeaning` | error-analysis/bin_checker.py:163-181 | a reference word is not in BÍN exactly when no line lists it, and a substitution is same-lemma exactly when some id lists both words; otherwise it is different-lemma |
| `BinChecker.PrintInfo` | error-analysis/bin_checker.py:107-131 | the report counts distinct rows and summed counts per category, distinct words for not-in-BÍN, and raises `ZeroDivisionError` when there were no substitutions |
| `BinChecker.CheckLineIn` | error-analysis/bin_checker.py:155-181 | one line on the `Categories` object: the new categories and counter are those of `CheckLine`, or its exception |
| `BinChecker.FindSameLemma` | error-analysis/bin_checker.py:143-187 | the BÍN dictionary, the classification loop and the report, as `SameLemmaReport` gives them |
| `NBest.NBestStatistics.constructor` | error-analysis/hypothesis_in_nbest.py:33-39 | the three counters are 0 and both dictionaries are empty |
| `NBest.NBestStatistics.IncrementNbest` | error-analysis/hypothesis_in_nbest.py:41-48 | rank 0 counts a correct hypothesis and records nothing; a later rank appends the row to that rank's list, creating it when missing, and counts it as in the n-best list |
| `NBest.NBestStatistics.IncrementAllWrong` | error-analysis/hypothesis_in_nbest.py:50-52 | the utterance's list is stored under its id and counted as not in the n-best list |
| `NBest.LastRefLine` | error-analysis/hypothesis_in_nbest.py:73-85 | the index found is that of a `ref` line of the utterance with no later one, and there is none exactly when no line is such a line |
| `NBest.ReferencesPrefix` | error-analysis/hypothesis_in_nbest.py:75-84 | after a prefix that did not raise, one more line is that line's step |
| `NBest.ReferencesPrefixErr` | error-analysis/hypothesis_in_nbest.py:75-84 | after a prefix that raised, one more line changes nothing |
| `NBest.ReferencesErrorPersists` | error-analysis/hypothesis_in_nbest.py:75-84 | once a prefix raises, the whole read raises the same exception |
| `NBest.ReferencesRaises` | error-analysis/hypothesis_in_nbest.py:76 | reading the references raises `ValueError` exactly when some line has fewer than two words, at the first such line |
| `NBest.ReferencesMeaning` | error-analysis/hypothesis_in_nbest.py:73-85 | an id has a reference exactly when it has a `ref` line; the reference is the text of its last one, with the `***` marks removed and stripped, and holds no `***` |
| `NBest.InitReferences` | error-analysis/hypothesis_in_nbest.py:73-85 | the loop gives the references `References` defines, or the first line's exception |
| `NBest.NbestStep` | error-analysis/hypothesis_in_nbest.py:92-110 | a line without words raises `IndexError`, one whose first word has no `-` raises `ValueError`; otherwise its hypothesis is appended under the id before the last `-` |
| `NBest.Nbest` | error-analysis/hypothesis_in_nbest.py:88-111 | a successful read gives a well-formed dictionary; what it holds is stated by `NbestGroups` |
| `NBest.NbestPrefix` | error-analysis/hypothesis_in_nbest.py:92-110 | after a prefix that did not raise, one more line is that line's step |
| `NBest.NbestStepErr` | error-analysis/hypothesis_in_nbest.py:93-95 | a line raises exactly when it has no words or its first word has no `-` |
| `NBest.NbestStepOk` | error-analysis/hypothesis_in_nbest.py:96-110 | a good line appends its hypothesis, or the empty text when it has only an id, to its id's list |
| `NBest.NbestPrefixErr` | error-analysis/hypothesis_in_nbest.py:92-110 | after a prefix that raised, one more line changes nothing |
| `NBest.NbestErrorPersists` | error-analysis/hypothesis_in_nbest.py:92-110 | once a prefix raises, the whole read raises the same exception |
| `NBest.NbestRaises` | error-analysis/hypothesis_in_nbest.py:93-95 | the read raises exactly when some line is bad, at the first one: `IndexError` without words, `ValueError` without `-` in the id |
| `NBest.NbestRaisesAfterErr` | error-analysis/hypothesis_in_nbest.py:93-95 | when all but the last line already raised at the first bad line, the whole read raises there too |
| `NBest.NbestRaisesAfterOk` | error-analysis/hypothesis_in_nbest.py:93-95 | when all but the last line are good and read, the read raises exactly when the last line is bad, with that line's exception |
| `NBest.LastLineStep` | error-analysis/hypothesis_in_nbest.py:93-95 | after a prefix that did not raise, the read raises exactly when the last line is bad, with that line's exception |
| `NBest.NbestGroups` | error-analysis/hypothesis_in_nbest.py:88-111 | hypotheses are grouped per utterance id in input order: an id is a key exactly when some line has it, and its list is that id's hypotheses |
| `NBest.InitNbest` | error-analysis/hypothesis_in_nbest.py:88-111 | the loop gives the dictionary `Nbest` defines, or the first line's exception |
| `NBest.IndexOf` | error-analysis/hypothesis_in_nbest.py:156 | the position found holds the reference and no earlier one does |
| `NBest.ComparedRaises` | error-analysis/hypothesis_in_nbest.py:152-153 | the comparison raises `KeyError` exactly when some utterance has no reference, at the first one |
| `NBest.ComparedCounts` | error-analysis/hypothesis_in_nbest.py:152-162 | every utterance lands in exactly one outcome: the three counters add up to the number of utterances, and rank 0 never holds a row |
| `NBest.ComparedMisses` | error-analysis/hypothesis_in_nbest.py:155-162 | for distinct ids, an utterance is recorded as missed exactly when its reference is not among its hypotheses, and then with its hypotheses followed by `REF=` and the reference |
| `NBest.RankRow` | error-analysis/hypothesis_in_nbest.py:157 | the row has three cells: its id cell, the reference and the best path |
| `NBest.ComparedRankRows` | error-analysis/hypothesis_in_nbest.py:152-158 | the rows at a rank are those of the utterances found at that rank |
| `NBest.RowsOfRank` | error-analysis/hypothesis_in_nbest.py:152-158 | rows that are exactly those of the utterances found at a rank hold one row per such id |
| `NBest.ComparedRanks` | error-analysis/hypothesis_in_nbest.py:155-158 | the row with id cell `id-(k+1)` is recorded at rank `k > 0` exactly when the utterance's reference is first found among its hypotheses at rank `k` |
| `NBest.ComparedPrefix` | error-analysis/hypothesis_in_nbest.py:152-162 | after a prefix of the ids that did not raise, one more id is that utterance's comparison |
| `NBest.ComparedErrorPersists` | error-analysis/hypothesis_in_nbest.py:152-162 | once a prefix of the ids raises, the loop raises the same exception |
| `NBest.NbestAnalysisEffect` | error-analysis/hypothesis_in_nbest.py:142-164 | the comparison raises exactly when a reference line, an n-best line or a reference lookup does; otherwise every n-best utterance is counted once, and one is missed exactly when none of its hypotheses is the text of its last `ref` line |
| `NBest.CompareAll` | error-analysis/hypothesis_in_nbest.py:151-162 | the loop on a fresh `NBestStatistics` gives the state `Compared` defines, or its exception |
| `NBest.FindInNbestPath` | error-analysis/hypothesis_in_nbest.py:142-164 | the references, the n-best lists and the comparison, as `NbestAnalysis` gives them |
| `WordClass.NewWcStats` | error-analysis/errors_by_wordclass.py:67-72 | a new record has its word class, no occurrences and no error pairs |
| `WordClass.UpdateError` | error-analysis/errors_by_wordclass.py:86-90 | one more occurrence: a deletion exactly when the hypothesis is `***`, a substitution exactly when it is not; nothing else changes |
| `WordClass.TallySteps` | error-analysis/errors_by_wordclass.py:142-146 | a correct word adds one to its class's `correct` and total; an error adds one to the total and its pair, not to `correct`; other classes are untouched, and the records stay consistent |
| `WordClass.UpdateCorrect` | error-analysis/errors_by_wordclass.py:142-146 | the word class's record, created when missing, gains one correct occurrence |
| `WordClass.PlainRead` | error-analysis/errors_by_wordclass.py:93-114 | the sentences read form a well-formed dictionary; what it holds is stated by `PlainStop` |
| `WordClass.PlainSentence` | error-analysis/errors_by_wordclass.py:99-112 | the sentence being read is always the lowercased words read since the last `.`, each followed by a space, and no stored word is `.` |
| `WordClass.PlainStop` | error-analysis/errors_by_wordclass.py:104-108 | a `.` line stores the pairs read since the last one under the stripped sentence text and starts a new sentence |
| `WordClass.PlainTrailingDropped` | error-analysis/errors_by_wordclass.py:99-114 | words after the last `.` line are never stored |
| `WordClass.PlainReadPrefix` | error-analysis/errors_by_wordclass.py:99-112 | reading one more line is one step on the state before it |
| `WordClass.ExtractPosTaggedSentencesPlain` | error-analysis/errors_by_wordclass.py:93-114 | the loop gives the dictionary `PlainRead` defines |
| `WordClass.Keyed` | error-analysis/errors_by_wordclass.py:130 | each sentence is keyed once, in order |
| `WordClass.JsonWordsRaises` | error-analysis/errors_by_wordclass.py:124-128 | a sentence raises `IndexError` exactly when some word entry lacks its word or tag |
| `WordClass.JsonWordsText` | error-analysis/errors_by_wordclass.py:121-128 | a sentence's text is its kept lowercased words, each followed by a space, and no kept word is `.` |
| `WordClass.JsonWordsPrefix` | error-analysis/errors_by_wordclass.py:124-128 | reading one more entry is one step |
| `WordClass.JsonWordsErrorPersists` | error-analysis/errors_by_wordclass.py:124-128 | once an entry raises, the whole sentence raises |
| `WordClass.SentencesRaises` | error-analysis/errors_by_wordclass.py:119-130 | decoding raises exactly when some sentence has a bad entry; otherwise it yields every sentence, the last one too, in order |
| `WordClass.SentencesSnoc` | error-analysis/errors_by_wordclass.py:121-130 | decoding one more sentence appends it |
| `WordClass.SentencesErrorPersists` | error-analysis/errors_by_wordclass.py:121-130 | once a sentence raises, the whole read raises |
| `WordClass.KeyedSnoc` | error-analysis/errors_by_wordclass.py:130 | keying one more sentence appends its stripped key |
| `WordClass.CollectSnoc` | error-analysis/errors_by_wordclass.py:130 | storing one more sentence is one dictionary store |
| `WordClass.CollectHas` | error-analysis/errors_by_wordclass.py:130 | every sentence's key is stored |
| `WordClass.CollectValid` | error-analysis/errors_by_wordclass.py:117-131 | the stored sentences form a well-formed dictionary |
| `WordClass.JsonStored` | error-analysis/errors_by_wordclass.py:117-131 | in a successful read every sentence of `result`, the last one too, is stored under its stripped text |
| `WordClass.JsonReadPrefix` | error-analysis/errors_by_wordclass.py:121-130 | reading one more sentence stores it under its stripped text |
| `WordClass.SentenceWords` | error-analysis/errors_by_wordclass.py:122-128 | the inner loop gives the text and pairs `JsonWords` defines, or its exception |
| `WordClass.ExtractPosTaggedSentencesJson` | error-analysis/errors_by_wordclass.py:117-131 | the loops give the dictionary `JsonRead` defines, or the first bad entry's exception |
| `WordClass.CleanUtteranceForm` | error-analysis/errors_by_wordclass.py:134-139 | a cleaned utterance holds no `***`, and its only whitespace is single spaces between words |
| `WordClass.CleanUtteranceWords` | error-analysis/errors_by_wordclass.py:134-139 | cleaning keeps the words: those of the cleaned text are the words left once every `***` is removed, each lowercased |
| `WordClass.WalkRaises` | error-analysis/errors_by_wordclass.py:188-203 | the walk raises `IndexError` exactly when some position lacks its POS pair, its tag or its hypothesis word; otherwise it consumed one pair per reference word that is not `***` |
| `WordClass.WalkCorrect` | error-analysis/errors_by_wordclass.py:188-198 | for every word class, `correct` grows by the positions of that class where the words agree |
| `WordClass.WalkTotal` | error-analysis/errors_by_wordclass.py:188-203 | for every word class, the total grows by every position of that class, agreeing or not |
| `WordClass.WalkErrorPairs` | error-analysis/errors_by_wordclass.py:199-203 | for every word class, one error pair is appended per position of that class where the words differ |
| `WordClass.WalkStored` | error-analysis/errors_by_wordclass.py:188-203 | the walk keeps every record under its own class, with one pair per error and a positive total |
| `WordClass.WalkErrorPersists` | error-analysis/errors_by_wordclass.py:188-203 | once a position raises, the whole walk raises |
| `WordClass.CollectCorrectTakes` | error-analysis/errors_by_wordclass.py:178-180 | the error-free branch takes one pair per word |
| `WordClass.MatchAtCorrect` | error-analysis/errors_by_wordclass.py:188-198 | on an error-free alignment, position `i` takes pair `i` and counts its class correct |
| `WordClass.WalkOfCorrectUtterance` | error-analysis/errors_by_wordclass.py:176-198 | `sum_errors == 0` compares the method itself with 0 and never holds, yet where the hypothesis is the reference, without `***` and with one pair per word, the walk gives what the skipped branch would |
| `WordClass.WalkOfCorrectNext` | error-analysis/errors_by_wordclass.py:188-198 | where the hypothesis is the reference and the walk and the skipped branch agree before a word that is not `***`, they agree after it |
| `WordClass.MatchPairsIn` | error-analysis/errors_by_wordclass.py:174-203 | the loop gives the statistics `MatchPairs` defines, or its `IndexError` |
| `WordClass.AnalysedStored` | error-analysis/errors_by_wordclass.py:206-217 | every word class the analysis reports has one error pair per error and a positive total, so its ratios cannot divide by zero |
| `WordClass.AnalysedPrefix` | error-analysis/errors_by_wordclass.py:210-217 | one more utterance is skipped when its cleaned reference is not tagged, and walked otherwise |
| `WordClass.AnalysedErrorPersists` | error-analysis/errors_by_wordclass.py:210-217 | once an utterance raises, the analysis raises the same exception |
| `WordClass.AnalyseErrorsByPosTag` | error-analysis/errors_by_wordclass.py:206-217 | the loop gives the statistics `Analysed` defines, or the first exception |
| `SpeakerClass.LastMapping` | error-analysis/errors_by_speaker_class.py:115-117 | the index found is that of a table line mapping the id with no later one, and there is none exactly when no line maps it |
| `SpeakerClass.MapLinesRaises` | error-analysis/errors_by_speaker_class.py:116 | reading the table raises `ValueError` exactly when some line has fewer than two words, at the first such line |
| `SpeakerClass.StripToken` | error-analysis/errors_by_speaker_class.py:117 | stripping a word that `split()` produced leaves it unchanged |
| `SpeakerClass.MapLinesMeaning` | error-analysis/errors_by_speaker_class.py:115-117 | an id is mapped exactly when some line maps it, to the second word of its last such line: later lines overwrite earlier ones |
| `SpeakerClass.MapLinesErrorPersists` | error-analysis/errors_by_speaker_class.py:115-117 | once a prefix raises, the loop raises the same exception |
| `SpeakerClass.SpeakerMapMeaning` | error-analysis/errors_by_speaker_class.py:112-121 | the map raises exactly when a line cannot be unpacked; otherwise `SUM` maps to itself whatever the table says, and every other id is mapped exactly as its last table line says |
| `SpeakerClass.InitSpeakerMap` | error-analysis/errors_by_speaker_class.py:112-121 | the loop gives the map `SpeakerMap` defines, or the first line's exception |
| `SpeakerClass.GroupedConsistent` | error-analysis/errors_by_speaker_class.py:130-149 | every recorded speaker sits under its own id with the feature the table maps it to, and every speaker in a group has that group's feature |
| `SpeakerClass.LastRaw` | error-analysis/errors_by_speaker_class.py:133-141 | the index found is that of a `raw` line of the mapped speaker with no later one, and there is none exactly when no line is such a line |
| `SpeakerClass.GroupedRecords` | error-analysis/errors_by_speaker_class.py:133-141 | a speaker is recorded exactly when the table maps it and it has a `raw` line; the record holds columns 2, 3, 8 and 9 of its last `raw` line and its mapped feature |
| `SpeakerClass.GroupedPrefix` | error-analysis/errors_by_speaker_class.py:130-149 | after a prefix that did not raise, one more line is that line's step |
| `SpeakerClass.GroupedKeyError` | error-analysis/errors_by_speaker_class.py:142-144 | a `sys` line raises `KeyError` exactly when its speaker has no recorded `raw` line before it |
| `SpeakerClass.GroupedErrorPersists` | error-analysis/errors_by_speaker_class.py:130-149 | once a prefix raises, the loop raises the same exception |
| `SpeakerClass.GroupSizesFrame` | error-analysis/errors_by_speaker_class.py:147-149 | the group sizes depend only on the groups of the keys |
| `SpeakerClass.GroupSizesUpdate` | error-analysis/errors_by_speaker_class.py:147-149 | replacing one group changes the sizes by the difference of the group's lengths |
| `SpeakerClass.GroupSizesPut` | error-analysis/errors_by_speaker_class.py:147-149 | appending a speaker to a group, created when missing, adds one to the sizes |
| `SpeakerClass.GroupedCount` | error-analysis/errors_by_speaker_class.py:130-149 | the groups together hold one entry per `sys` line |
| `SpeakerClass.TotalSnoc` | error-analysis/errors_by_speaker_class.py:72-76 | one more speaker at the end adds its column to the total |
| `SpeakerClass.TotalLast` | error-analysis/errors_by_speaker_class.py:72-76 | the total of the speakers is that of all but the last plus the last's column |
| `SpeakerClass.SummedRaises` | error-analysis/errors_by_speaker_class.py:72-76 | `compute_statistics` raises `ValueError` exactly when some speaker has a count column `int()` rejects, at the first one |
| `SpeakerClass.SummedSnoc` | error-analysis/errors_by_speaker_class.py:72-83 | after a prefix that did not raise, the last speaker is one step |
| `SpeakerClass.StepCounted` | error-analysis/errors_by_speaker_class.py:72-78 | a speaker whose columns are integers adds one to the count and each column to its sum |
| `SpeakerClass.SummedCount` | error-analysis/errors_by_speaker_class.py:70-83 | a successful `compute_statistics` keeps the feature and counts one speaker per entry |
| `SpeakerClass.SummedTotals` | error-analysis/errors_by_speaker_class.py:70-83 | with integer columns `compute_statistics` succeeds, counts one speaker per entry and adds each count column over the speakers |
| `SpeakerClass.SummedErrorPersists` | error-analysis/errors_by_speaker_class.py:72-83 | once a prefix raises, the loop raises the same exception |
| `SpeakerClass.SummedUpStatistics.constructor` | error-analysis/errors_by_speaker_class.py:59-68 | a new summary has its feature and all sums and the speaker count at 0 |
| `SpeakerClass.SummedUpStatistics.ComputeStatistics` | error-analysis/errors_by_speaker_class.py:70-83 | the object's integer state becomes `compute_statistics` of the speakers as `Summed` defines it, or the exception it raises |
| `SpeakerClass.SummariesEffect` | error-analysis/errors_by_speaker_class.py:151-155 | one summary per group, in key order, each that group's `compute_statistics` on a new object; together they count every grouped speaker |
| `SpeakerClass.SummariesLast` | error-analysis/errors_by_speaker_class.py:151-155 | the last feature's summary comes after those of the others |
| `SpeakerClass.SummariesErrorPersists` | error-analysis/errors_by_speaker_class.py:151-155 | once a prefix of the features raises, the loop raises the same exception |
| `SpeakerClass.SpeakerAnalysisEffect` | error-analysis/errors_by_speaker_class.py:124-155 | one summary per feature with a `sys` line, in order of first appearance, each that feature's `compute_statistics` and holding only speakers the table maps to it; together they count every `sys` line |
| `SpeakerClass.ComputeSummaries` | error-analysis/errors_by_speaker_class.py:151-155 | the loop gives the summaries `Summaries` defines, one new object per feature in key order, or the first exception |
| `SpeakerClass.NonSumSnoc` | error-analysis/errors_by_speaker_class.py:91-105 | one more summary at the end is kept among those other than `SUM` exactly when it is not `SUM` |
| `SpeakerClass.ReportLoopRaises` | error-analysis/errors_by_speaker_class.py:91-105 | the loop of `write_summed_stats` raises exactly when some summary other than `SUM` has no speakers or no words spoken, and then `ZeroDivisionError` |
| `SpeakerClass.ReportLoopWritten` | error-analysis/errors_by_speaker_class.py:91-105 | when it does not raise, the loop writes every summary other than `SUM`, in list order |
| `SpeakerClass.ReportLoopSum` | error-analysis/errors_by_speaker_class.py:92-94 | when it does not raise, `sum_feature` is bound exactly when some summary is `SUM`, and it is the last one |
| `SpeakerClass.SummedReportMeaning` | error-analysis/errors_by_speaker_class.py:86-109 | `write_summed_stats` raises `ZeroDivisionError` exactly when a feature other than `SUM` has no speakers or no words spoken; failing that, `UnboundLocalError` exactly when no summary is `SUM`; otherwise it writes the other summaries in order and then the last `SUM` summary's totals |
| `SpeakerClass.WriteSummedStats` | error-analysis/errors_by_speaker_class.py:86-109 | the loop gives what `SummedReport` defines: the records written, or the exception raised |
| `SpeakerClass.GroupedNonEmpty` | error-analysis/errors_by_speaker_class.py:146-149 | a feature's group is only created with a speaker in it, so no group is empty |
| `SpeakerClass.SpeakerReportEffect` | error-analysis/errors_by_speaker_class.py:124-157 | every summary has at least one speaker, so the report raises `ZeroDivisionError` exactly when a feature other than `SUM` has no words spoken, and failing that `UnboundLocalError` exactly when there is no `SUM` summary; otherwise it writes the other summaries in order and a `SUM` total |
| `SpeakerClass.AnalyseBySpeakerFeature` | error-analysis/errors_by_speaker_class.py:124-157 | the header is skipped, then the map, the grouping, the summaries and the report are as `SpeakerReport` gives them, or the first exception |
| `MapReplacement.EntryHasOneTab` | ice-norm/text-cleaning/map_replacement.py:34-35 | a line splits on tab into exactly two parts exactly when it holds a single tab |
| `MapReplacement.MapFromList` | ice-norm/text-cleaning/map_replacement.py:31-37 | the table built from the lines is a well-formed dictionary; what it holds is stated by `MapFromListEntries` |
| `MapReplacement.LastEntry` | ice-norm/text-cleaning/map_replacement.py:33-36 | the index found is that of an entry line for the key with no later one, and there is none exactly when no entry line has the key |
| `MapReplacement.FirstEntry` | ice-norm/text-cleaning/map_replacement.py:33-36 | the index found, when there is one, is that of a line of the input |
| `MapReplacement.FirstEntryIsFirst` | ice-norm/text-cleaning/map_replacement.py:33-36 | the first entry line of a key is an entry for it with none before it, and a key has one exactly when it has a last one |
| `MapReplacement.FirstEntryKept` | ice-norm/text-cleaning/map_replacement.py:33-36 | a key with an entry among the first lines keeps its first entry when a line is added |
| `MapReplacement.MapFromListEntries` | ice-norm/text-cleaning/map_replacement.py:31-37 | lines that do not split on tab into two parts are ignored: a key is in the table exactly when some entry line has it, with the value of the last such line |
| `MapReplacement.MapFromListFirst` | ice-norm/text-cleaning/map_replacement.py:31-37 | a key is in the table exactly when it has a first entry line |
| `MapReplacement.MapFromListOrder` | ice-norm/text-cleaning/map_replacement.py:31-37 | the keys come in the order of their first entry lines, which fixes the order the substitutions run in |
| `MapReplacement.CreateMapFromList` | ice-norm/text-cleaning/map_replacement.py:31-37 | the loop builds the table `MapFromList` defines |
| `MapReplacement.Padded` | ice-norm/text-cleaning/map_replacement.py:60 | the padded word is the word with one space added at each end |
| `MapReplacement.AcronymsAbsent` | ice-norm/text-cleaning/map_replacement.py:57-62 | a line in which no key stands between spaces is returned unchanged |
| `MapReplacement.AdjacentAcronyms` | ice-norm/text-cleaning/map_replacement.py:60 | a key rewritten between spaces consumes its trailing space, so of two adjacent occurrences only the first is rewritten |
| `MapReplacement.ReplaceAcronyms` | ice-norm/text-cleaning/map_replacement.py:57-62 | the loop rewrites each key between spaces into its value, key after key in table order on the running result, as `AcronymsReplaced` defines |
| `MapReplacement.SymbolsAbsent` | ice-norm/text-cleaning/map_replacement.py:71-77 | a line holding no key and no double space is returned unchanged |
| `MapReplacement.ReplaceSymbols` | ice-norm/text-cleaning/map_replacement.py:71-77 | the loop replaces every occurrence of each key with its value padded by spaces and then collapses double spaces, key after key in table order, as `SymbolsReplaced` defines |
| `MapReplacement.SpacedAround` | ice-norm/text-cleaning/map_replacement.py:74-75 | two space-free words around a one-word value, each set off by one space, are single-spaced |
| `MapReplacement.SymbolPadded` | ice-norm/text-cleaning/map_replacement.py:74 | a symbol met once is replaced by its value with a space on each side, the rest of the line kept |
| `MapReplacement.SymbolBetweenWords` | ice-norm/text-cleaning/map_replacement.py:74-75 | a symbol alone between two words becomes its value set off by single spaces |

## Left out

- Command-line handling is not modelled. That covers `parse_args`, the `main` functions, the timestamped output directories, `error-analysis/main.py` and `error-analysis/verification.py`. They are argument parsing and file-system checks.
- File input is not modelled. Every reader takes the file's lines as a `seq<string>`, and every consumer of the utterance dictionary takes its `Utterance` states as a `seq<UtteranceData>` in key order.
- `ReplacementMaps.read_file` and the lazy getters are not modelled. The tables are passed in already built.
- The report writers' text output is not modelled: `write_file`, `write_array_list_to_file`, `write_stats`, `write_summed_stats`, `print_to_files`, `print_array`, `print_statistics` and the `print` calls. The model keeps what they would write, as sequences of records. It keeps the `ZeroDivisionError`s of the divisions it models, and the `UnboundLocalError` of `write_summed_stats`. It does not keep the text layout.
- `SpeakerClass.AnalyseBySpeakerFeature` does not raise the `ValueError` of `float(speaker_info.wer)` in `compute_statistics` (errors_by_speaker_class.py:77-83). The `wer` column is read but not kept, because Python's float syntax is not modelled. A `sys` line whose `wer` column is not a float therefore gives a result where the source raises.
- `ErrorContext.ReadStatistics`: the probabilities are kept as `Ratio(numerator, denominator)`, not as floats.
- `BinChecker.PrintInfo`: the percentages are kept as `Ratio(numerator, denominator)`, not as floats.
- `WordClass.NewWcStats`: the ratio strings of `WordClassStatistics` are not modelled. `AnalysedStored` shows that their denominators are positive.
- `SpeakerClass.SummedUpStatistics.ComputeStatistics`: the float fields `sum_wer`, `max_wer` and `min_wer` are not modelled, and neither are the `sys`-line fields they are read from. They are floats.
- `Frequency.WriteResults` keeps the records of the two top lists in frequency order. Their re-sorting by the float `correct / occurrences` is not modelled, only the `ZeroDivisionError` that key raises. This is errors_by_frequency.py:128-141.
- `WordLength.WriteResults` keeps the records of the accuracy-sorted list in its pre-sort order, for the same reason. This is errors_by_word_length.py:116-117.
- `ErrorCategories.AnalyseInput`: `Levenshtein.distance` is a foreign library. It is the parameter `dist`, and no property of it is assumed.
- `json.loads` is not modelled. `WordClass.ExtractPosTaggedSentencesJson` takes the decoded `result` array.
- `NBest.FindInNbestPath`: `init_hyp_list` reads files and walks directories. The model takes the lines it returns.
- `replace_abbreviations` and `replace_from_maps` are not modelled. They are built on regular expressions.
- `ice-norm/text-cleaning/preprocessing.py` and `char_constants.py` are not part of this model.
- `Frequency.WordMaps.AddOperation`: the two record maps hold `OperationStatistics` states as values, not shared objects. Each record is referenced only from its own map, so updating it in place and storing the new value agree.
- `WordLength.WordMaps.AddOperation`: the same as for `Frequency.WordMaps.AddOperation`.
- `ErrorCategories.Categories.AddToDict`: the `Category` objects are values in the categories map. Nothing else refers to them.
- `Text.LowerChar` lowers ASCII and Latin-1 letters only. Python's `str.lower` also lowers other scripts, and maps some characters to two.
- `Text.ParseInt` accepts only an optional sign followed by ASCII digits. It is applied only to fields produced by `split()`, which hold no whitespace. Python's `int()` also accepts underscores between digits and non-ASCII digits.
- `Text.QuoteRepr` puts single quotes around a string without escaping. Python's `repr` escapes quotes and backslashes, and switches quote style when the string holds a single quote.
