# Bitcoin key balance checker: the balance-resolution engine in Dafny

This project models the engine of BitcoinBalanceTracker. The engine reads a text file of candidate private keys. It finds a key on each line, derives its address and asks a set of web balance providers for that address's balance. Keys with a positive balance are written to a CSV file that rolls over once it gets too large. The project also models the web front end's small rules around that engine:
- which uploads it accepts;
- how it displays durations;
- how it counts and reports progress;
- how it caps the job log;
- when a job may be cancelled or cleared.

Two versions of the checker are modelled: the current one in `btc_checker.py` and the older one in `attached_assets/btc_checker.py`.

| file | module | what it models |
|---|---|---|
| `Text.dfy` | `Text` | The Python string and list primitives the engine relies on: `strip`, `split`/`join`, `isdigit`/`int`, `{:02d}`, ASCII `lower`, `rfind` and list slicing with clamped and negative bounds. |
| `Extraction.dfy` | `KeyExtraction` | `extract_and_validate_private_key`: `re.findall` over the WIF pattern, then the hex pattern, then the stripped line. The first candidate the elliptic-curve library accepts wins. Both checker versions share this code, so it is modelled once. |
| `Providers.dfy` | `Providers` | The provider registries (12 names, and 5 in the older checker), the strategy of `check_balance` in auto, rotate and pinned modes with the unknown-mode fallback, and the Blockstream and mempool.space balance rules. |
| `OutputSink.dfy` | `OutputSink` | `get_new_output_filename`, `check_file_size`, `init_output_file` and `save_result_realtime`, as the class `Sink` over a model file system. Both versions share this code too. |
| `Scanner.dfy` | `Scanner` | The current `BTCKeyChecker` as the class `KeyChecker`: `check_balance`, the `process_keys` loop and the statistics of `run`, proved against the scan function `Scan`. |
| `LegacyChecker.dfy` | `LegacyChecker` | The older `BTCKeyChecker`. Its `check_balance` returns only the balance, and its `process_keys` repeats the strategy inline. Both are proved to do what `Resolve` and `Scan` do over its five providers with no progress callback. |
| `WebApp.dfy` | `WebApp` | The `app.py` pieces: `allowed_file`, `format_time`, the `end_line` form field, `total_keys`, the progress percentage, `update_progress`, the capped log handler and the status rules of `cancel_job` and `clear_job`. |

Modelling conventions:
- **Balances** are integers. The value a provider's oracle answer carries stands for whatever that provider's parser produces after its unit conversion. Most providers read satoshis and divide by 10^8, while cryptoid (btc_checker.py:371) and SoChain (btc_checker.py:388) read a BTC amount directly. The Blockstream and mempool.space rules are modelled in satoshis, the unit of their JSON, before the division. The engine only tests a balance for being positive and adds balances up, so one integer unit serves all providers.
- **Outside effects are oracles**, passed in as parameters:
  - The library call `privkey_to_pubkey` is the predicate `derives`. It is true when the call returns, false when it raises.
  - `get_address_from_private_key` is the function `addressOf`.
  - A provider's HTTP round trip is `net(tick, provider, address)`. It yields a value, yields nothing (`None`) or raises. `tick` is the position of the line being processed, so a provider may answer differently for different lines.
  - Whether a path can be opened for writing is `canWrite`.
  - The clock is the number `now`, or `stamp(j)` for the timestamp of the `j`-th save.
  - How a balance is rendered into a CSV cell is `render`.
- **The file system** is a map from path to the lines of the file. A file's size is its character count, each line's newline included.
- **Specification and method:** every method that works step by step is proved against a function of its inputs. Those functions carry the lemmas.
  - `KeyChecker.ProcessKeys` ends in the state `Scan` computes over the classified selected lines.
  - `Sink.SaveResult` ends in the state `SaveState` computes.

## Model

| member | source | states |
|---|---|---|
| Text.StripSpec | btc_checker.py:567 | `strip()` removes exactly the leading and trailing whitespace: the result is the infix between them and, when not empty, neither starts nor ends with whitespace |
| Text.StripIdempotent | btc_checker.py:146 | stripping the already stripped line again (as the extractor does) changes nothing |
| Text.DecimalRoundTrip | app.py:77 | `str(n)` is all digits and `int` reads it back as `n` |
| Text.Pad2 | btc_checker.py:423 | `{:02d}` is at least two digits, exactly two below 100, and reads back as the number |
| Text.PySliceContiguous | btc_checker.py:556-558 | `lines[start:end]` is the contiguous run between the clamped bounds, and it is `lines[start..end]` when both bounds are in range |
| KeyExtraction.WifMatchesSpec | btc_checker.py:120-125 | every match of the WIF pattern is a 51- or 52-character token that starts with 5, K or L and continues in Base58 |
| KeyExtraction.HexMatchesSpec | btc_checker.py:122-135 | every match of the hex pattern is a 64-character hex token |
| KeyExtraction.ExtractSpec | btc_checker.py:107-151 | a valid key derives and is a WIF match, a hex match or the stripped line; the answer is `(False, "")` exactly when no WIF match, no hex match and not the stripped line derive |
| KeyExtraction.ExtractIsFirstCandidate | btc_checker.py:124-151 | the key returned is the first of all candidates (WIF matches, then hex matches, then the stripped line) that the library accepts |
| KeyExtraction.FirstDerivingSpec | btc_checker.py:126-142 | the search stops at the first candidate that derives; none before it derives |
| KeyExtraction.WifTokenMatchesItself | btc_checker.py:125 | a whole WIF token is found as the single match of the WIF pattern |
| KeyExtraction.ExtractWholeWif | btc_checker.py:125-132 | a line that is exactly a WIF key the library accepts yields that key |
| KeyExtraction.HexTokenMatchesItself | btc_checker.py:135 | a whole hex token is found as the single match of the hex pattern |
| KeyExtraction.ExtractWholeHex | btc_checker.py:135-142 | a line that is exactly a hex key the library accepts yields that key, unless a WIF-shaped run inside it is accepted first |
| Providers.RegistriesWellFormed | btc_checker.py:87-100 | the registries hold neither "unknown" nor the mode names, the fallback `blockchain` is in both, and the older registry is the first five names of the newer one |
| Providers.AutoSpec | btc_checker.py:179-190 | auto mode calls a prefix of the registry in order, all but the last of which failed; a balance is the last one's answer under its name; with no balance the result is `(None, "unknown")` after every provider failed |
| Providers.AutoStopsAtFirstAnswer | btc_checker.py:181-185 | when the first provider answers, no other provider is called |
| Providers.AdvanceIsMod | btc_checker.py:198 | the cursor step is `(current_api_index + 1) % len(api_functions)` |
| Providers.Resolve | btc_checker.py:193-225 | only rotate mode moves the cursor, by one with wrap-around, before the call |
| Providers.ResolveSpec | btc_checker.py:167-229 | every mode but auto calls exactly one provider; a balance is the answer of the provider reported with it; "unknown" only comes without a balance; only registered providers are called |
| Providers.NonAutoOutcome | btc_checker.py:193-225 | outside auto mode the one provider's outcome decides: a value under its name, nothing as `(None, name)`, a raise as `(None, "unknown")` |
| Providers.BlockstreamOutcome | btc_checker.py:255-272 | a non-200 status yields nothing, an unparsable body raises, otherwise funded minus spent over confirmed and mempool statistics, a missing field counting 0 |
| Providers.BlockstreamAddsMempool | btc_checker.py:255-289 | on one response the Blockstream balance is the mempool.space balance plus the unconfirmed net funds |
| OutputSink.SizeAppend | btc_checker.py:441-444 | the size of two line lists written one after the other is the sum of their sizes |
| OutputSink.NumberedNameSplit | btc_checker.py:409-426 | a rollover name splits back into the numbered stem and the template's extension |
| OutputSink.NumberedNamesDistinct | btc_checker.py:409-426 | different indices give different rollover names, and none is the template itself |
| OutputSink.RowFields | btc_checker.py:526-527 | a CSV row splits back into its five fields when none holds a comma |
| OutputSink.HeaderFields | btc_checker.py:481 | the header splits into the five column names |
| OutputSink.SaveRollover | btc_checker.py:501-534 | a save rolls over exactly when the file has reached the limit, by one index, to the name derived from the template; a failed save changes no file |
| OutputSink.SaveAppendsRow | btc_checker.py:501-534 | a successful save appends exactly the row, to the old lines or to a fresh header after a rollover, and no other file changes |
| OutputSink.SaveSizeBound | btc_checker.py:514-530 | after a successful save the file exceeds the limit by less than the row written, or holds only the header and that row |
| OutputSink.InitHeaderOnlyWhenNew | btc_checker.py:453-499 | an existing file (after the one possible rollover) is left untouched; a new one gets the header; if that fails the backup file in the working directory is used |
| OutputSink.Sink.NewOutputFilename | btc_checker.py:409-426 | the index goes up by one and the name comes from the template and the new index |
| OutputSink.Sink.CheckFileSize | btc_checker.py:428-451 | true exactly when the current file exists and its size has reached the limit (`>=`) |
| OutputSink.Sink.InitOutputFile | btc_checker.py:453-499 | the new sink state and result are those of `InitState` |
| OutputSink.Sink.SaveResult | btc_checker.py:501-534 | the new sink state and result are those of `SaveState`, and the saved rows grow by the row exactly when the save succeeds |
| Scanner.ClassifySpec | btc_checker.py:567-587 | a blank or comment line is skipped before the search; any other line yields a key exactly when the search finds one, that key derives and its address is derived from it |
| Scanner.ScanSound | btc_checker.py:594-624 | every recorded result has a positive balance that its registered provider reported for the address, a key the library accepts and the address derived from it; the scan only appends, at most one result per line |
| Scanner.ProcessedSound | btc_checker.py:536-643 | every result of a scan from no results is confirmed in that sense |
| Scanner.ScanCursor | btc_checker.py:193-198 | the rotation cursor advances once per line that reaches `check_balance` and for nothing else; other modes never move it |
| Scanner.ScanCursorMod | btc_checker.py:198 | in rotate mode the cursor after the scan is the start plus the number of balance checks, modulo the number of providers |
| Scanner.ScanResults | btc_checker.py:594-624 | the results are the initial ones followed by exactly the hits of the key lines (a balance obtained and positive), in line order, each with the provider the lookup named: none is missed, none is added |
| Scanner.ScanPauses | btc_checker.py:597-641 | the pauses are exactly one per balance obtained, whatever its value; lines without a key and failed checks add none |
| Scanner.ObtainedBounds | btc_checker.py:597-641 | there are at least as many pauses as results and at most one per balance check |
| Scanner.ProcessedExactly | btc_checker.py:536-643 | a scan from no results records exactly the hits of the file, makes exactly the reference callbacks and pauses once per balance obtained |
| Scanner.ScanEvents | btc_checker.py:573-638 | every progress callback reports the lines processed so far out of the selected total, a count of results and exactly their total balance, and a found key that is the last result; the counts never go down |
| Scanner.ScanCallbacks | btc_checker.py:573-638 | the callbacks are exactly the reference sequence `Events`: for each non-blank line, the periodic report when its position ticks and then the found-key report when it is a hit, with the counts and total at that moment; nothing without a callback |
| Scanner.CallbacksReport | btc_checker.py:572-638 | the found-key reports name exactly the hits in line order, and the periodic reports come exactly at the non-blank lines whose position is a multiple of 10 or the last |
| Scanner.ScanSilent | btc_checker.py:575 | without a progress callback no callback is made |
| Scanner.ApiStats | btc_checker.py:672-678 | one entry per provider that found a key, in order of first appearance, each with the number of results it found |
| Scanner.StatsCover | btc_checker.py:672-678 | the counts of the statistics add up to the number of results |
| Scanner.AutoCheck | btc_checker.py:179-190 | the auto-mode loop returns exactly what `Auto` describes |
| Scanner.KeyChecker.CheckBalance | btc_checker.py:167-229 | the balance, the provider named and the new cursor are those of `Resolve` over the twelve providers |
| Scanner.KeyChecker.CheckKey | btc_checker.py:594-641 | one balance check does what `Check` does, and saves a row exactly when a result is recorded |
| Scanner.KeyChecker.RecordHit | btc_checker.py:615-638 | a found key is saved to the sink in real time, appended to the results and, when a callback is set, reported with the new count and total |
| Scanner.KeyChecker.VisitLine | btc_checker.py:563-641 | one loop iteration takes the scan and the sink from their state after `i` lines to their state after `i + 1` |
| Scanner.KeyChecker.ProcessKeys | btc_checker.py:536-647 | a missing file gives no results; otherwise the results, callbacks, pauses, cursor and sink are those of `Scan` over the selected lines |
| Scanner.KeyChecker.Run | btc_checker.py:649-687 | output file initialised, then the scan, then statistics that count the results per provider |
| LegacyChecker.LegacyKeyChecker.CheckBalance | attached_assets/btc_checker.py:124-178 | the balance and new cursor are those of `Resolve` over the five providers; a raise gives `None` |
| LegacyChecker.LegacyKeyChecker.InlineStrategy | attached_assets/btc_checker.py:436-486 | the strategy repeated inside `process_keys` obtains the balance and moves the cursor as `Resolve` does, naming `Resolve`'s provider whenever it obtains a balance |
| LegacyChecker.LegacyKeyChecker.CheckKey | attached_assets/btc_checker.py:436-508 | one balance check does what `Check` does without a callback, and saves a row exactly when a result is recorded |
| LegacyChecker.LegacyKeyChecker.VisitLine | attached_assets/btc_checker.py:405-508 | one loop iteration takes the scan and the sink from line `i` to line `i + 1` |
| LegacyChecker.LegacyKeyChecker.ProcessKeys | attached_assets/btc_checker.py:381-514 | a missing file gives no results; otherwise the results, pauses, cursor and sink are those of `Scan` over the five providers with no callback |
| LegacyChecker.LegacyKeyChecker.Run | attached_assets/btc_checker.py:516-550 | output file initialised, then the scan, then the per-provider statistics |
| WebApp.Extension | app.py:43 | the text after the last dot has no dot and is what follows some stem and a dot |
| WebApp.AllowedFileSpec | app.py:41-43 | `stem.ext` with no dot in `ext` is accepted exactly when `ext` lower-cased is an allowed extension |
| WebApp.NoDotRejected | app.py:43 | a name without a dot is never accepted |
| WebApp.AllowedFileIgnoresCase | app.py:27-43 | case makes no difference to acceptance |
| WebApp.Clock | app.py:329-330 | hours, minutes below 60 and seconds below 60 that add up to the seconds |
| WebApp.FormatTimeRoundTrip | app.py:327-336 | a non-negative duration is displayed without loss: reading the text back gives the seconds |
| WebApp.EndLineField | app.py:76-77 | the field gives a number exactly when it is all digits, and that number is not negative |
| WebApp.EndLineFieldExamples | app.py:76-77 | a decimal number reads back as itself; an empty field or a negative number means no limit |
| WebApp.TotalKeysCountsSelection | app.py:130 | for bounds within the file, `total_keys` is the number of lines the checker selects |
| WebApp.TotalKeysPastEnd | app.py:130 | a start line past the end makes `total_keys` negative while no line is selected |
| WebApp.PercentSpec | app.py:173 | the percentage lies in `[0, 100]`, is 100 exactly once the count reaches the total, and otherwise is the whole number of percent done |
| WebApp.PercentMonotone | app.py:173 | more keys processed never lowers the percentage |
| WebApp.Capped | app.py:161 | the last `min(100, n)` entries of the log |
| WebApp.CappedAppend | app.py:153-162 | capping after every append keeps the last 100 of all entries ever appended |
| WebApp.Job.UpdateProgress | app.py:170-197 | count and percentage recorded, found count and total overwritten only when given; exactly when key, address and balance are all truthy one detail is added and the two INFO entries about it end the capped log, which is otherwise unchanged |
| WebApp.Job.EmitBoth | app.py:194-195 | the two log calls in a row, each through the capped handler, leave the last 100 of the old entries followed by both, ending in the two |
| WebApp.Job.Emit | app.py:153-162 | the entry is appended and the log keeps its last 100 entries; nothing else but the update time changes |
| WebApp.CancelledStatus | app.py:290-291 | only a running job becomes cancelled |
| WebApp.StatusRules | app.py:290-317 | cancelling twice is cancelling once; a cancelled job in any of the four states is clearable; a running job is never clearable until cancelled |
| WebApp.JobBoard.CancelJob | app.py:282-299 | an unknown id is reported; a running job becomes cancelled with end time and duration; any other job is left as it is; counts, total, log and details never change |
| WebApp.JobBoard.ClearJob | app.py:302-324 | an unknown id is reported; a completed, failed or cancelled job is removed with its input file; a running job stays |
| WebApp.JobBoard.CancelThenClear | app.py:282-324 | a cancel request followed by a clear request removes a job in any of the four states with its input file; the cancel succeeds exactly for a running job |

Where the source's own comments and its code disagree, the model follows the code:
- **The pause between keys** (`time.sleep(self.delay)`, btc_checker.py:641). The docstring calls it a "Delay between API requests" (btc_checker.py:63). In the code it comes only after a balance was obtained: lines without a valid key and failed balance checks `continue` before it, and the several requests of auto mode have no pause between them. `ScanPauses` states the code's rule.
- **The periodic progress report.** Its comment says "Progress update every 10 keys" (btc_checker.py:572). In the code it is tied to the line's position in the selection (btc_checker.py:573) and is skipped with blank and comment lines. `CallbacksReport` states the lines it comes at.
- **A raise in rotate, pinned or fallback mode.** The docstring promises "API used" as the second component (btc_checker.py:174), but a raise reports "unknown" (btc_checker.py:205, 215, 225).
- **The file-size limit** is `10000 * 1024 * 1024` bytes (btc_checker.py:74), although its comment says 1000 MB. `DefaultMaxFileSize` uses the code's value.

## Left out

- **HTTP:** the provider calls themselves are the oracle `net`: requests, timeouts, the POST of blockonomics, and JSON or plain-text parsing. The oracle's three outcomes (a value, nothing, a raise) abstract what each provider's code does:
  - its status checks, such as the `status == 'success'` test of bitaps and BTC.com (btc_checker.py:313, 325);
  - its parsing: plain text for cryptoid and btcexplorer (btc_checker.py:371, 403), and a list for blockonomics (btc_checker.py:336-344);
  - its failure behaviour: a `KeyError` raise in blockchain.info and Coinbase (btc_checker.py:239, 358), and a default of 0 in Blockchair (btc_checker.py:300);
  - its unit conversion.
  Only the Blockstream and mempool.space balance rules are modelled as functions of the response, for their funded-minus-spent arithmetic.
- **Floating point:** the division of satoshis by 10^8 and the float sums of balances are not modelled. Balances stay integers, and the CSV cell is the parameter `render`.
- **Percent:** it computes `min(100, floor(100 i / total))` exactly. The source computes `int((i / total) * 100)` in floating point, which can come out one lower (for example `int((29 / 100) * 100)` is 28).
- **File sizes:** `os.path.getsize` counts bytes of UTF-8. The model counts characters, which agree only for ASCII content. The `errors='replace'` decoding of the input file is not modelled either.
- **Regular expressions:** only the two patterns of `extract_and_validate_private_key` are modelled, as hand-written scanners. `os.path.splitext` is modelled for POSIX paths only.
- **Unicode:** `str.lower` is modelled for ASCII letters, `str.isdigit` for ASCII digits, and `str.strip` for Python's whitespace set.
- **Logging by the checker:** the checker's own `self.logger` messages are not modelled. In a web job they also reach the job log through the job logger's handler. Only the two found-key entries that `update_progress` logs are modelled, in `Job.UpdateProgress`.
- **Effects with no bearing on the state:** `print`, the `time.sleep` itself (counted as `pauses`) and `os.makedirs` of the output directory.
- **Exception handlers:** the outer handlers of `process_keys` (btc_checker.py:645-647) catch only I/O and callback errors, which the model does not raise; every provider raise is modelled. A failing save is reported by `SaveResult`, as it is in the source, and `process_keys` ignores it.
- **File system errors:** `os.path.getsize` raising inside `check_file_size` (caught there, giving False) is not modelled, because the model's file system always answers. Any failing write is modelled through `canWrite`.
- **The web application:** Flask routes, uploads, `secure_filename`, line counting of the uploaded file, the background thread, `process_file`'s completion and failure status writes, and the fact that cancelling does not stop the worker thread. `time.time` and `strftime` are parameters. `format_time` is modelled on whole seconds: `FormatTime` takes an int, where the source truncates a float with `int(seconds)`.
- **WebApp.JobBoard.ClearJob:** the removal of the input file is modelled as removing its path from a set of uploads. A failing `os.remove` is only logged by the source and is not modelled.
- **get_available_apis** (btc_checker.py:29) and the command-line `main`: they only print and parse arguments.
