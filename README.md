# Quantum WinGo expert system: the text-and-rule core in Dafny

`QuantumExpertSystem` (one Python class) logs into a lottery-style game site,
reads the published results off the rendered page, predicts the category of
the next round (`Big` or `Small`), and sends a message to a channel when a new
round begins. This project models the part of it that is pure text processing
and decision rules:

- **Result scanner** (`extract_game_data`). The page text is split into
  trimmed, non-empty lines. A 3-line window is accepted as one record when:
  - the first line, with spaces and dashes removed, is a 17-digit period;
  - the second line, with spaces removed, is a digit string worth 0..9;
  - the third line is exactly `Big` or `Small`.

  An accepted window moves the scan on by 3 lines, a rejected one by 1. Each
  record's colour comes from its number: 0 is green, odd is red, any other
  even number is violet.
- **Current-period finder** (`get_current_period`). It returns the first page
  line that normalises to a period, or None.
- **Prediction engine** (`trend_analysis`, `pattern_analysis`,
  `statistical_analysis`, `fallback_prediction`, `quantum_prediction_engine`).
  - Fewer than ten training records gives `(Small, 0.5, fallback)`.
  - Otherwise the engine looks at the newest twenty records only.
  - The category is the trend call if the trend is strictly more confident
    than the pattern call, and the pattern call otherwise.
  - The confidence is the largest of the three sub-model confidences.
- **Edge-triggered notification** (the cycle step of `run_expert_system`). A
  prediction is sent, and `current_running_period` updated, only when the
  running period is present and differs from the stored one.

Modules, one per component:

- `Wrappers` (`pagetext.dfy`): the `Option` type.
- `PageText` (`pagetext.dfy`): the Python string operations the readers use:
  `split('\n')`, `strip()`, `replace(c, '')`, `isdigit()` and `int()`.
- `Scanner` (`scanner.dfy`): records, the colour rule, the window test, the
  scan, and the current-period finder.
- `Prediction` (`prediction.dfy`): the sub-models and the fusion.
- `Scheduler` (`scheduler.dfy`): the `ExpertSystem` class, which holds
  `current_running_period` and runs one cycle.

Modelling decisions:

- A category is the two-valued datatype `Category`. The training data is the
  `big_small` column as the database returns it, newest first, given as a
  `seq<Category>`. Only `Big` and `Small` ever reach the database, because the
  scanner writes nothing else.
- Confidences are Dafny `real`s. The ratio tests (`> 0.6`, `< 0.4`, `>= 0.5`,
  `>= len/2`) are exact rational comparisons. For the window of at most twenty
  records, floating point gives the same answers.
- The scan is written once, for any window test (`WindowTest`). The program's
  own test is `Scanner.ParseWindow`. The shape lemmas (order, no overlap,
  re-synchronisation) hold for every test.
- Some behaviours of the code are easy to miss, and the model keeps them as
  written:
  - A period line may contain spaces and dashes, which are removed before the
    17-digit test.
  - The number line may have leading zeros: `int("007")` is 7 and accepted.
  - `pattern_analysis` answers `(Small, 0.5)` for fewer than three results.
  - The current period is the first line on the whole page that reads as a
    period. It need not belong to an extracted record.
  - Only the arg-max fusion exists in this source. There is no weighted-sum
    policy and no volatility or trend-strength features.

## Model

| member | source | states |
|---|---|---|
| `PageText.Split` | quantum_expert_system.py:537 | `split('\n')` gives at least one piece, and no piece contains a newline |
| `PageText.IsSpace` | quantum_expert_system.py:337 | the definition: the characters of Python's `str.isspace()` (space, `\t`-`\r`, `\x1c`-`\x1f`, `\x85`, `\xa0`, `\u1680`, `\u2000`-`\u200a`, `\u2028`, `\u2029`, `\u202f`, `\u205f`, `\u3000`), which `strip()` removes |
| `PageText.JoinSplit` | quantum_expert_system.py:537 | joining the pieces of `split('\n')` with newlines gives back the page text |
| `PageText.SplitJoin` | quantum_expert_system.py:537 | splitting newline-free lines after joining them gives back those lines |
| `PageText.StripLeft` | quantum_expert_system.py:337 | the left-stripped text is no longer than the input and does not start with whitespace |
| `PageText.StripRight` | quantum_expert_system.py:337 | the right-stripped text is no longer than the input, keeps its first character, and does not end with whitespace |
| `PageText.Strip` | quantum_expert_system.py:337 | the definition: `strip()` is the right strip of the left strip; `StripIsStripped` and `StripIdentity` state its properties |
| `PageText.StripIsStripped` | quantum_expert_system.py:337 | `strip()` leaves no whitespace at either end |
| `PageText.StripIdentity` | quantum_expert_system.py:337 | `strip()` leaves text without surrounding whitespace unchanged |
| `PageText.Remove` | quantum_expert_system.py:341-342 | `replace(c, '')` leaves no `c`, never lengthens the text, and changes nothing when `c` is absent |
| `PageText.RemoveKeeps` | quantum_expert_system.py:341-342 | `replace(c, '')` keeps every other character as many times as it occurs, and deletes every `c` |
| `PageText.RemoveAppend` | quantum_expert_system.py:341-342 | removing from two joined texts is removing from each and joining, so the kept characters stay in their order |
| `PageText.IsDigits` | quantum_expert_system.py:345 | the definition: `isdigit()` holds of a non-empty text made only of the digits `0`-`9` |
| `PageText.DigitsValue` | quantum_expert_system.py:346 | the definition: `int()` of a digit text is its decimal value, leading zeros allowed |
| `PageText.DigitChar` | quantum_expert_system.py:346 | each value 0..9 has a one-character digit string that `int()` reads back as that value |
| `PageText.DigitsValueAtMostNine` | quantum_expert_system.py:346 | a digit string is worth at most 9 exactly when every digit but the last is `0`, so `007` passes the number test |
| `PageText.KeepNonEmpty` | quantum_expert_system.py:337 | dropping lines that strip to nothing never adds lines |
| `PageText.KeepNonEmptyAppend` | quantum_expert_system.py:337 | the comprehension over two runs of pieces is the comprehension over the first followed by the one over the second, so lines keep their order |
| `PageText.KeepNonEmptyOne` | quantum_expert_system.py:337 | one piece gives its stripped text when that is non-empty, and nothing otherwise |
| `PageText.PageLines` | quantum_expert_system.py:336-337 | the definition: the page's lines are the non-empty stripped pieces of `split('\n')`; `PageLinesStripped` and `PageLinesJoin` state its properties |
| `PageText.PageLinesStripped` | quantum_expert_system.py:337 | every line the extractor sees is non-empty and has no whitespace at either end |
| `PageText.PageLinesJoin` | quantum_expert_system.py:336-337 | non-empty, trimmed, newline-free lines joined into a page are read back as exactly those lines; no lines give the empty page, which has none |
| `Scanner.ParseCategory` | quantum_expert_system.py:347 | a category line is accepted exactly when it is `Big` or `Small`, and it is read as the category of that name |
| `Scanner.ColorOf` | quantum_expert_system.py:353 | 0 is green, odd is red, nonzero even is violet, each as an if-and-only-if |
| `Scanner.IsPeriod` | quantum_expert_system.py:345 | the definition: `isdigit()` and a length of exactly 17 |
| `Scanner.NormalizePeriod` | quantum_expert_system.py:341 | the definition: a period line with its spaces and then its dashes removed |
| `Scanner.NormalizePeriodSpec` | quantum_expert_system.py:341 | normalising leaves no space and no dash and keeps every other character as many times as it occurs |
| `Scanner.ParseWindow` | quantum_expert_system.py:341-354 | the definition of the window test; `ParseWindowSpec` states when it accepts and what it gives |
| `Scanner.ParseWindowSpec` | quantum_expert_system.py:341-354 | a window is accepted exactly when its three tests pass, and then gives a valid record with the normalised period, the line's number and the named category |
| `Scanner.ScanFrom` | quantum_expert_system.py:339-357 | the scan from line `i` emits at most `(len(lines) - i) / 3` records |
| `Scanner.ScanValid` | quantum_expert_system.py:345-354 | every emitted record has a 17-digit period, a number in 0..9 and the colour of that number |
| `Scanner.StartsFrom` | quantum_expert_system.py:339-357 | every accepted window starts at or after the scan's start and lies within the lines |
| `Scanner.StartsOrdered` | quantum_expert_system.py:355-357 | accepted windows come in line order and each starts at least 3 lines after the one before, so none overlap |
| `Scanner.ScanWindows` | quantum_expert_system.py:339-357 | there are as many records as accepted windows, and the k-th record is what the k-th accepted window reads as |
| `Scanner.ScanSkipsOnlyRejected` | quantum_expert_system.py:356-357 | every window the scan steps over that does not lie inside an accepted window is rejected |
| `Scanner.ScanLines` | quantum_expert_system.py:339-357 | the while loop that advances by 3 on a match and by 1 otherwise returns exactly the scan's records |
| `Scanner.ExtractGameData` | quantum_expert_system.py:329-360 | reading the page gives the scan of its trimmed non-empty lines: at most a third as many records as lines, all valid |
| `Scanner.Render` | quantum_expert_system.py:345-347 | a list of records is shown on exactly three lines per record |
| `Scanner.ScanRender` | quantum_expert_system.py:339-357 | scanning the lines of valid records gives back exactly those records |
| `Scanner.ExtractRoundTrip` | quantum_expert_system.py:336-357 | a page showing valid records one field per line is extracted as exactly those records, the empty page as no records |
| `Scanner.FirstPeriod` | quantum_expert_system.py:539-543 | whatever the finder returns is a 17-digit period |
| `Scanner.PeriodCandidate` | quantum_expert_system.py:540 | the definition: a page line stripped, then its spaces and dashes removed |
| `Scanner.IsPeriodLine` | quantum_expert_system.py:540-541 | the definition: a page line whose stripped, space- and dash-free text is a 17-digit period |
| `Scanner.FirstPeriodNone` | quantum_expert_system.py:539-543 | the finder returns None exactly when no line normalises to a period |
| `Scanner.FirstPeriodAt` | quantum_expert_system.py:539-542 | when line `k` is the first that normalises to a period, the finder returns that line's normalised text |
| `Scanner.GetCurrentPeriod` | quantum_expert_system.py:533-545 | the first-match loop over the page's lines returns the first period line's normalised text, or None |
| `Prediction.Opposite` | quantum_expert_system.py:417 | the opposite category differs from the given one |
| `Prediction.CountBig` | quantum_expert_system.py:395 | the Big count is the number of `Big` entries in the results; it is at most the length, and zero exactly when every result is Small |
| `Prediction.TrendAnalysis` | quantum_expert_system.py:394-403 | the trend calls Big exactly when at least half are Big (an empty list too); it is 0.75 confident when the Big share is above 0.6 or below 0.4, otherwise 0.65 |
| `Prediction.TrendFifteenOfTwenty` | quantum_expert_system.py:398-399 | 15 Big out of 20 gives `(Big, 0.75)` |
| `Prediction.RunOf` | quantum_expert_system.py:409-414 | the run is the longest prefix made of one category: every element in it is that category, and the next element is not |
| `Prediction.Pattern` | quantum_expert_system.py:405-420 | the definition of the pattern rule through the leading run; `PatternCases` and `PatternAnalysis` state its closed form and its loop |
| `Prediction.PatternCases` | quantum_expert_system.py:405-420 | fewer than 3 results gives `(Small, 0.5)`; three equal leading results give the opposite category at 0.70; otherwise the first result at 0.60 |
| `Prediction.PatternAnalysis` | quantum_expert_system.py:405-420 | the streak loop, which stops at the first change, gives the pattern rule's answer |
| `Prediction.StatisticalAnalysis` | quantum_expert_system.py:422-424 | the call is Big exactly when `2 * big_count >= n`, always at 0.65 |
| `Prediction.FallbackPrediction` | quantum_expert_system.py:426-432 | the definition: `(Small, 0.5, fallback)` whatever the data; the engine's first ensures states when it is used |
| `Prediction.TrendAgreesWithStatistical` | quantum_expert_system.py:394-403 | the trend and statistical sub-models always call the same category |
| `Prediction.Recent` | quantum_expert_system.py:372 | the engine's window is the first `min(20, n)` training records |
| `Prediction.Max` | quantum_expert_system.py:383 | the definition: the larger of two confidences; nested twice it is the three-way `max` |
| `Prediction.QuantumPredictionEngine` | quantum_expert_system.py:366-392 | below 10 records the answer is `(Small, 0.5, fallback)` whatever the contents; from 10 on the strategy is `quantum_adaptive` and the confidence is 0.65, 0.70 or 0.75 |
| `Prediction.EngineDecision` | quantum_expert_system.py:372-383 | from 10 records on, in integers over the newest 20: a Big share above 0.6 or below 0.4 gives the majority side at 0.75; otherwise three equal leading results give the opposite of the first at 0.70; otherwise the majority side (ties to Big) at 0.65 |
| `Prediction.EngineSeesOnlyRecent` | quantum_expert_system.py:372 | two histories that agree on their newest 20 records get the same decision |
| `Scheduler.Trigger` | quantum_expert_system.py:504-509 | the definition of the edge trigger: send and store the period only when it is non-empty and differs from the stored one |
| `Scheduler.TriggerIdempotent` | quantum_expert_system.py:504-509 | right after a step, observing the same period again sends nothing and keeps the marker |
| `Scheduler.Sends` | quantum_expert_system.py:475-509 | the definition: the number of messages the cycle loop sends while the running periods are observed in order, starting from a stored marker |
| `Scheduler.SendsNeedChanges` | quantum_expert_system.py:504-509 | over a series of cycles, messages are sent at most on the first cycle and where the period changed |
| `Scheduler.RepeatedPeriodSentOnce` | quantum_expert_system.py:504-509 | the same period observed in any number of consecutive cycles is announced at most once |
| `Scheduler.ExpertSystem.constructor` | quantum_expert_system.py:26 | a new system has no stored running period |
| `Scheduler.ExpertSystem.Cycle` | quantum_expert_system.py:496-509 | a message goes out, and the stored period changes, exactly as the edge trigger decides for the page's current period; the message carries that period and the engine's decision |
| `Scheduler.TwoCyclesSamePeriod` | quantum_expert_system.py:504-509 | of two consecutive cycles whose pages show the same running period, possibly in different page texts, the second sends nothing |

## Left out

- Browser automation is not modelled: `setup_browser`, `perform_login`, `handle_puzzle_verification` (with its `width - 10` drag), `handle_confirmation_screens` and `navigate_to_1m_game`. These drive a live browser with sleeps and swallowed exceptions. The text of the page is a parameter instead.
- The SQLite store is not modelled: `setup_quantum_database`, the `INSERT OR IGNORE` loop, `get_training_data` and `close`. These are foreign database calls. The training data is a parameter of `Cycle`.
- Telegram delivery (`send_telegram_message`) is not modelled. It is network I/O. `Cycle` returns the `Notice` that would be formatted and sent.
- `format_prediction_message` is not modelled. It depends on the clock and on float `%` formatting. The `reasoning` text of a decision is left out for the same reason.
- The cycle loop is not modelled: its five iterations, `time.sleep`, and exception handling. Only one cycle's prediction and notification step is.
- `Scanner.ExtractGameData` does not model the `except` branch, which returns `[]` for the whole page. Besides browser errors, the page text alone can reach it. Where Python limits integer conversion to `sys.int_info.default_max_str_digits` (4300) digits, as CPython 3.11, 3.10.7, 3.9.14, 3.8.14, 3.7.14 and later do, `int()` refuses a number line of more digits, leading zeros included. A number line such as `²` passes `isdigit()` but `int()` refuses it. In these cases the source returns no records at all. The model keeps every other record. For the over-long number line it rejects the window, or, when every digit but the last is `0`, accepts it as a record of that last digit. For `²` it rejects the window.
- `PageText.IsDigits` and `PageText.DigitsValue` accept ASCII `0`-`9` only. Python's `isdigit()` also accepts other Unicode digits, superscripts such as `²` among them, and `int()` accepts every Unicode decimal digit but refuses superscripts. The model therefore rejects a period line or a number line written with such characters, where the source may accept it or, for a number line, raise.
- `PageText.StripLeft` and `PageText.StripRight` do not state that only whitespace is removed. That is dropped to keep the proofs small. `StripIdentity` and `StripIsStripped` are what the scanner relies on.
