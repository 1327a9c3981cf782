# Invoice extraction backend, modelled in Dafny

The backend turns export-invoice PDFs into Excel workbooks:

- **Server.** `backend/server.js` is an Express server. It stores uploaded PDFs under `uploads/` as `<timestamp>-<client name>` and records each upload as a job in an in-memory `jobs` object. It puts the job on the BullMQ queue `pdf-processing` and answers status queries from the registry.
- **Queue worker.** `backend/queueWorker.js` consumes that queue. For each item it runs `python worker.py <pdf> results/result-<jobId>.xlsx` and settles the job from the command's outcome.
- **Single-file worker.** `backend/worker.py` reads page 2 of one invoice and writes a one-row workbook. It takes four things from the page:
  - the invoice number and date, an `EXP-<digits> dd/mm/yyyy` token in the flattened page text;
  - the buyer's name and address, the clean-up of the lines in a crop box;
  - the invoice value and the EUR/INR exchange rate, from a scan of the page's tables.
- **Batch worker.** `backend/batch_worker.py` extracts every PDF in `uploads/`, in name order, into a single `results/invoices.xlsx`.

## How the model is organised

- **Pure code becomes functions.** Text flattening, the regular expressions, the buyer-line filter, the shell's reading of a command line, the status reply and the file-name rule are functions, with lemmas about them.
- **Loops become methods.** The buyer-line loop, the nested table scan and `run_batch` are methods with loops. `extract_invoice_data` is a method that calls the buyer-line loop and the table scan. `write_excel` and the command line of `worker.py` are methods proved equal to `SingleWorkbook` and `CliResult`. Each method is proved equal to a specification function, and the source's promises are proved about that function.
- **Objects whose fields change become classes.** The openpyxl worksheet (`Sheets.Worksheet`), the Express server's registry, queue and replies (`JobServer.Server`), and the worker's log file (`QueueWorker.QueueHandler`) are classes whose methods state their whole new state.
- **The world outside is a parameter.** These are passed in:
  - the PDF library: `open`, giving the pages of a path;
  - the clock: `now`;
  - multer's stored files;
  - whether Redis accepts a queue item;
  - `child_process.exec`: `exec`, giving the outcome of a command;
  - the directory listing;
  - for the batch, the extraction of a path: `extract`. `BatchWorker.Extractor(open)` is `extract_invoice_data` on the PDF library `open`.

| module | file | models |
|---|---|---|
| `Common` | common.dfy | `Option`, `Result`, and the order-keeping filter `Gather` |
| `Text` | text.dfy | `split`, `join`, `strip`, `upper`/`lower`, `in`, `endswith`, `replace`; decimal numbers as text |
| `InvoiceText` | invoice_text.dfy | flattened page text and the leftmost `EXP-...` match |
| `BuyerAddress` | buyer_address.dfy | `splitlines`, the buyer-line filter and clean-up, and the loop that collects the lines |
| `InvoiceTables` | invoice_tables.dfy | the nested table scan for the invoice value and the exchange rate |
| `Sheets` | workbook.dfy | the worksheet: title, appended rows, saved file |
| `InvoiceWorker` | invoice_worker.dfy | `extract_invoice_data`, `write_excel`, the `worker.py` command line |
| `JobServer` | job_server.dfy | the `jobs` registry, the upload and status handlers, the stored-file name |
| `Shell` | shell.dfy | how `/bin/sh` splits a command into words, for literal words and quotes |
| `QueueWorker` | queue_worker.dfy | the output path, the command, and how a job settles |
| `NameOrder` | name_order.dfy | Python's `sorted` on file names |
| `BatchWorker` | batch_worker.dfy | `run_batch` |

## Model

| member | source | states |
|---|---|---|
| Text.Split | backend/worker.py:24 | every token of `str.split()` is non-empty and has no whitespace |
| Text.JoinWords | backend/worker.py:24 | joining tokens with single spaces gives flat text that splits back into the same tokens |
| Text.TrimStart | backend/worker.py:52 | `lstrip` gives a suffix that does not start with whitespace |
| Text.TrimStartDropsSpace | backend/worker.py:52 | what `lstrip` drops is whitespace only |
| Text.TrimEnd | backend/worker.py:52 | `rstrip` gives a prefix that does not end with whitespace |
| Text.TrimEndDropsSpace | backend/worker.py:52 | what `rstrip` drops is whitespace only |
| Text.SplitSpaces | backend/worker.py:24 | whitespace in front of a text does not change the tokens `str.split()` gives |
| Text.StripKeeps | backend/worker.py:93-94 | stripping keeps every occurrence of a pattern whose ends are not whitespace |
| Text.NatToStringRoundTrip | backend/server.js:62 | the decimal form of a timestamp is a non-empty digit string that reads back as the timestamp |
| Text.NatToStringInjective | backend/server.js:62 | two timestamps have the same decimal form exactly when they are equal |
| InvoiceText.FlatTextSpec | backend/worker.py:23-24 | the flattened text has single spaces only, keeps the page's tokens in order, and a page with no text gives "" |
| InvoiceText.FirstMatchFrom | backend/worker.py:29-32 | `re.search` answers the leftmost position where the pattern matches, or none when no position matches |
| InvoiceText.InvoiceNoDate | backend/worker.py:29-34 | the field is "" exactly when nothing matches, and is otherwise the text of a match |
| InvoiceText.MatchInFlatText | backend/worker.py:29-32 | in flat text every match has the literal shape `EXP-<digits> dd/mm/yyyy`, with one space |
| InvoiceText.ExpTokenIsMatch | backend/worker.py:29-32 | conversely, every `EXP-<digits> dd/mm/yyyy` token with one space is a match at its start that ends at its end |
| InvoiceText.InvoiceNoDateOfFlat | backend/worker.py:29-34 | in flat text the field is "" exactly when no `EXP-<digits> dd/mm/yyyy` token occurs, and otherwise is the leftmost such token |
| InvoiceText.InvoiceNoDateShape | backend/worker.py:23-34 | the invoice number and date is "" exactly when the flattened page text holds no `EXP-<digits> dd/mm/yyyy` token, and otherwise is the leftmost such token |
| BuyerAddress.LineRun | backend/worker.py:51 | a line runs up to the next line boundary or the end, with no line boundary inside it |
| BuyerAddress.CollapseSpaces | backend/worker.py:65 | after `re.sub(r"\s{2,}", " ", line)` no two whitespace characters are adjacent |
| BuyerAddress.CollapseSpacesFixes | backend/worker.py:65 | text without adjacent whitespace is unchanged, so the substitution is idempotent |
| BuyerAddress.KeptLinesExactly | backend/worker.py:51-67 | the kept lines are exactly the non-empty stripped lines without "BUYER" or "AEO", cleaned, in their order, none with adjacent whitespace |
| BuyerAddress.CollectBuyerLines | backend/worker.py:48-67 | the loop over `splitlines()` builds exactly that list |
| BuyerAddress.EmptyAddress | backend/worker.py:64-69 | an empty crop box gives "", and a line "C" is admitted but cleans to "" |
| InvoiceTables.RateTextOfCell | backend/worker.py:93-94 | a stripped rate cell still names EUR and INR and has no whitespace at either end |
| InvoiceTables.FirstValueSpec | backend/worker.py:86-89 | the value row gives nothing exactly when no cell is a decimal, and otherwise the stripped text of the leftmost decimal cell |
| InvoiceTables.TableValuesDecimal | backend/worker.py:77-89 | every invoice value a table assigns is a decimal number |
| InvoiceTables.ValueCandidatesDecimal | backend/worker.py:76-89 | every invoice value any table assigns is a decimal number |
| InvoiceTables.CellRatesText | backend/worker.py:92-94 | every exchange rate a row assigns names EUR and INR and is stripped |
| InvoiceTables.TableRatesText | backend/worker.py:77-94 | the same holds for every rate a table assigns |
| InvoiceTables.RateCandidatesText | backend/worker.py:76-94 | the same holds for every rate any table assigns |
| InvoiceTables.ScanResultShape | backend/worker.py:74-94 | when the scan does not raise, the value is "" or a decimal, and the rate is "" or stripped text naming EUR and INR |
| InvoiceTables.FindValue | backend/worker.py:85-89 | the loop over the value row stops at the leftmost qualifying cell |
| InvoiceTables.ScanRates | backend/worker.py:92-94 | each rate cell overwrites the rate, so the last one wins |
| InvoiceTables.ScanRow | backend/worker.py:77-94 | one row raises exactly when it opens the value branch and the next row is `None`; otherwise it applies the row's assignments |
| InvoiceTables.ScanTable | backend/worker.py:77-94 | one table raises exactly when one of its rows does; otherwise its assignments apply in order |
| InvoiceTables.ScanTables | backend/worker.py:74-94 | the nested loops compute the last assigned value and rate, or the TypeError |
| Sheets.StrCells | backend/worker.py:115-129 | one text cell per string, in order |
| Sheets.Worksheet.constructor | backend/worker.py:111-112 | a new workbook's active sheet is "Sheet" and empty |
| Sheets.Worksheet.SetTitle | backend/worker.py:113 | setting the title leaves the rows alone |
| Sheets.Worksheet.Append | backend/worker.py:115-129 | an appended row goes below the existing rows |
| InvoiceWorker.InvoiceOfShape | backend/worker.py:10-104 | extraction raises exactly when there is no page 2 or a value row is `None`; otherwise every field is "" or has its promised shape, and the buyer is the kept lines joined by spaces |
| InvoiceWorker.ExtractInvoiceData | backend/worker.py:10-104 | the method computes the extraction result, including the exceptions |
| InvoiceWorker.InvoiceRowRoundTrip | backend/worker.py:115-129 | the data row lines up with the five headers and reads back as serial 1 and the invoice |
| InvoiceWorker.WriteExcel | backend/worker.py:110-131 | the saved workbook is the header and row 1, and row 1 reads back as the invoice |
| InvoiceWorker.RunCli | backend/worker.py:137-151 | exit status 0 exactly when there are two arguments and extraction succeeds; otherwise status 1 and nothing saved; on success the workbook is saved at the second argument and holds the invoice |
| JobServer.JobId | backend/server.js:62 | a job id is a non-empty digit string |
| JobServer.JobIdCollision | backend/server.js:62 | two uploads get the same id exactly when they happen in the same millisecond |
| JobServer.StoredFileNameRoundTrip | backend/server.js:46-47 | a stored name splits back into its timestamp and the client's name, whatever the client's name holds |
| JobServer.Basename | backend/server.js:108 | the base name has no '/' and is the suffix after the last '/' |
| JobServer.BasenameOfStoredPath | backend/server.js:105-110 | the base name of a file stored in a directory is its own name |
| JobServer.ResultUrl | backend/server.js:107-109 | there is a URL exactly when the result path is non-empty, and it is `/results/` followed by the base name |
| JobServer.StatusReply | backend/server.js:101-111 | every reply has code 200; a stored job gives its status and URL; an unknown key gives "Invalid job ID" exactly when it is not an inherited property name |
| JobServer.PrototypeNamesAreNotIds | backend/server.js:62 | no job id is an inherited property name |
| JobServer.StatusAlwaysQueued | backend/server.js:54-111 | because no code writes an entry other than the fresh one, a stored job always reports `queued` with no URL, and an unknown id always reports the error |
| JobServer.InheritedKeyCounterexample | backend/server.js:102-103 | `/api/status/constructor` gets no error, though no such job exists |
| JobServer.FilePaths | backend/server.js:83 | the batch's paths are the stored files' paths, in upload order |
| JobServer.Server.constructor | backend/server.js:54 | the server starts with no jobs and an empty queue |
| JobServer.Server.Register | backend/server.js:64 | the entry becomes the fresh `queued` entry, and the registry stays well formed |
| JobServer.Server.Enqueue | backend/server.js:66-69 | an accepted item goes to the end of the queue, and the registry is unchanged |
| JobServer.Server.Send | backend/server.js:71 | a reply changes neither the registry nor the queue |
| JobServer.Server.UploadSingle | backend/server.js:59-72 | with no file: a 400 with "No file uploaded" and nothing else. With a file: register, then enqueue `processPDF`, then reply with the id, in that order; when the queue refuses, there is no reply and the entry stays |
| JobServer.Server.UploadBatch | backend/server.js:77-96 | with no files or an empty list: a 400 with "No files uploaded". Otherwise register, then enqueue `processPDFBatch` with the paths, then reply with the id and the count |
| JobServer.Server.Status | backend/server.js:101-111 | the reply is the status reply for the registry, and only the reply is recorded |
| NameOrder.LessIrreflexive | backend/batch_worker.py:27 | no name sorts before itself |
| NameOrder.LessTotal | backend/batch_worker.py:27 | of two different names, exactly one sorts first |
| NameOrder.LessTransitive | backend/batch_worker.py:27 | the order on names is transitive |
| NameOrder.Insert | backend/batch_worker.py:27 | insertion adds exactly one name |
| NameOrder.InsertSorted | backend/batch_worker.py:27 | insertion into a sorted list keeps it sorted |
| NameOrder.SortNamesSpec | backend/batch_worker.py:27 | `sorted` gives the listing's names, each as often as listed, in order |
| Shell.LexDoubleQuoted | backend/queueWorker.js:24 | a double-quoted stretch without `"`, `$`, a backquote or a backslash adds exactly its contents to the word |
| Shell.LexSingleQuote | backend/queueWorker.js:24 | a single-quoted argument adds exactly the argument to the word, whatever it holds |
| QueueWorker.OutputPath | backend/queueWorker.js:21 | the output is `results/result-`, then the job id, then `.xlsx` |
| QueueWorker.OutputPathInjective | backend/queueWorker.js:21 | distinct jobs write distinct workbooks |
| QueueWorker.OutputPathQuotable | backend/queueWorker.js:21 | the output path of a digit id survives double quotes |
| QueueWorker.CommandWords | backend/queueWorker.js:24 | when neither path holds a character special inside double quotes, the script gets the input and the output as its two arguments |
| QueueWorker.QuoteInFileNameSplitsArgument | backend/queueWorker.js:24 | a stored path with `" "` in it reaches the script as two arguments |
| QueueWorker.SafeCommandWords | backend/queueWorker.js:24 | with each argument single-quoted, the script gets exactly the two paths, whatever they hold |
| QueueWorker.SafeCommandAgrees | backend/queueWorker.js:24 | for the paths the written command handles, the quoted command runs the same words |
| QueueWorker.BatchItemRunsAsSingle | backend/queueWorker.js:18-24 | a batch item has no `filePath`, so with the command as written `worker.py` gets "undefined" and the job's output path as its two arguments |
| QueueWorker.SafeBatchItemRunsAsSingle | backend/queueWorker.js:18-24 | with the corrected quoting a batch item also runs the one-file command on "undefined" |
| QueueWorker.HandledUploadSavesReportedWorkbook | backend/queueWorker.js:21-24 | for a stored path without `"`, `$`, a backquote or a backslash, the command as written gives `worker.py` the path and the job's output path; it exits 0 exactly when extraction succeeds, and then saves the workbook at that output path |
| QueueWorker.SafeHandledUploadSavesReportedWorkbook | backend/queueWorker.js:21-24 | with the corrected quoting the same holds for every stored path |
| QueueWorker.Settle | backend/queueWorker.js:26-37 | a failed command rejects with its error and logs nothing; success resolves with the output path and logs a line |
| QueueWorker.LogLineNamesJob | backend/queueWorker.js:34 | the log line is `Completed `, then the job id, then a newline |
| QueueWorker.QueueHandler.Handle | backend/queueWorker.js:17-40 | the handler settles as the command's outcome decides, and the log grows by exactly the line it writes |
| BatchWorker.IsPdfNameLower | backend/batch_worker.py:28-29 | the name test is `filename.lower().endswith(".pdf")` |
| BatchWorker.BatchRowRoundTrip | backend/batch_worker.py:37-44 | the intended row lines up with the six headers and reads back as the serial number, the invoice and the file name |
| BatchWorker.AsWrittenRowHoldsKeyNames | backend/batch_worker.py:35-44 | as written, every row holds the dictionary's key names, and it matches the intended row only when the invoice's fields are those names |
| BatchWorker.LayoutRowRead | backend/batch_worker.py:35-44 | under either row layout a row has the six header columns and reads back as its serial number and file name, with the key names as written and the invoice as intended |
| BatchWorker.DataRowsAppend | backend/batch_worker.py:37-46 | each processed file adds one row, numbered one after the previous |
| BatchWorker.SheetRowsAppend | backend/batch_worker.py:37-46 | each processed file puts its row at the bottom of the sheet |
| BatchWorker.DataRowsRead | backend/batch_worker.py:35-46 | the k-th data row reads back as serial k + 1 and the k-th processed file's name, with the key names as written and the file's invoice as intended |
| BatchWorker.RunBatch | backend/batch_worker.py:10-51 | given the extraction as a function of the path, the loop saves exactly the header followed by the rows for the processed files; `AsWritten` appends the row the code builds, `Intended` the row it means |
| BatchWorker.HeaderThenRows | backend/batch_worker.py:15-46 | below the header, row k reads back as the k-th processed file's row, and no data row equals the header |
| BatchWorker.BatchRowsRead | backend/batch_worker.py:10-51 | the workbook is saved at `results/invoices.xlsx` with title "Invoices". The header appears once, at the top; after it comes one row per processed file, numbered 1, 2, ... As written each row holds the key names; as intended it holds the file's invoice |
| BatchWorker.ProcessedQualify | backend/batch_worker.py:27-49 | every processed file is a listed PDF name whose extraction succeeded with the invoice in its row |
| BatchWorker.ProcessedInNameOrder | backend/batch_worker.py:27 | files are processed in sorted name order |
| BatchWorker.ProcessedComplete | backend/batch_worker.py:27-49 | every listed PDF name whose extraction succeeds gets a row |
| BatchWorker.EmptyBatch | backend/batch_worker.py:27-51 | with nothing readable, the workbook is still saved, with the header alone |

## Behaviour of the code

The model follows the code, except where a finding below corrects it: `QueueWorker.QueueHandler.Handle` runs the corrected command of Finding 1, and `BatchWorker.RunBatch` takes the row layout as a parameter, so that both the row as written and the row of Finding 2 are modelled. Some behaviour of the code is worth stating outright:

- **Job statuses.** Nothing moves a job out of `queued`. No code writes an entry other than the fresh one, and `queueWorker.js` imports `jobs` but never changes it. `JobServer.StatusAlwaysQueued` states the consequence.
- **Batch jobs.** A batch item runs the one-file command. The worker reads only `filePath` from an item, and a batch item has none, so it runs `worker.py` on the path "undefined" (`QueueWorker.BatchItemRunsAsSingle`). `batch_worker.py` is a separate script over the whole upload directory, and nothing in the backend calls it.
- **Item kinds.** The worker never reads the item's name: `processPDF` and `processPDFBatch` items are handled by the same code.
- **Refused enqueue.** When the queue refuses an item, the awaiting handler stops before it replies. In the model the trace ends without a reply, and the `queued` entry stays in the registry.

## Left out

- Text and file names are ASCII in the model. Python's Unicode whitespace, its Unicode line boundaries for `splitlines` (`\x85`, U+2028, U+2029; the ASCII boundaries `\n`, `\r`, `\x0b`, `\x0c` and `\x1c`-`\x1e` are modelled), its Unicode digits for `\d`, and Unicode case mapping in `upper`/`lower` are not modelled.
- The PDF library is a parameter: the page text, the text of the buyer crop box and the tables are given. Page geometry is not modelled: the crop box's floating-point fractions of the page size (worker.py:39-46) are not part of the model. `CannotOpen` stands for every failure to open a file.
- Console output is not modelled:
  - `console.log` in the server and the worker;
  - stderr;
  - the batch script's "Processing" and "Failed" lines and its final message.
  `worker.py`'s four summary lines are modelled.
- There is no model of failures in the file system: writing an upload, `mkdirSync`, `wb.save`, `appendFileSync`, `os.listdir` on a missing directory. The start-up directory creation (server.js:37-38) and the static serving of `results/` (server.js:14) are left out.
- Express, multer's multipart parsing, CORS, JSON serialisation and the HTTP transport are left out. Redis and BullMQ are reduced to a queue that accepts or refuses an item: delivery, retries, concurrency and ordering between workers are left out.
- `exec` is a parameter. Its buffer limits, environment and timing are left out. The shell model covers literal words, spaces, quotes and backslashes; a command using expansions, operators or globbing characters is reported as not taken literally, and what the shell then does is not modelled.
- Sheets.Worksheet.Append: cannot fail in the model. openpyxl refuses text holding the control characters `\x00`-`\x08`, `\x0b`, `\x0c` and `\x0e`-`\x1f` with an `IllegalCharacterError`. That check is not modelled. In `worker.py` it would make `write_excel` raise, so the exit status would be 1 where `InvoiceWorker.RunCli` says 0. In `batch_worker.py` the `except` at line 48 would catch it, and the file would get no row without advancing `sn`.
- JobServer.Basename: `path.basename` also drops trailing slashes. The model takes the suffix after the last '/', which agrees for the stored paths the server builds, since they never end in '/'.
- JobServer.StoredPath: multer's destination is `path.join(__dirname, "uploads")`, an absolute directory. The model takes the directory as a string and does not normalise joined paths.
- BatchWorker.RunBatch: `os.path.join` is modelled as `uploads/` followed by the name. That is exact for names from a listing, which hold no '/'.
- QueueWorker.QueueHandler.Handle: models the handler with the corrected quoting of Finding 1. The command as written is modelled separately, by `QueueWorker.Command`.
- What the runtime does after a refused enqueue is left out: the rejected promise in the Express handler, and ioredis holding the command while it waits for Redis, since `maxRetriesPerRequest` is `null` (server.js:19-21).
- Where the queue lives: the server connects to `process.env.REDIS_URL` (server.js:19), while the worker is fixed to `127.0.0.1:6379` (queueWorker.js:6-11). The worker runs in the server's own process (server.js:124-125), but over its own Redis connection. The model has one queue, `QueueWorker.WorkerQueue`, with the same queue name as the server's; the server's queue connection and the worker's connection reach the same Redis only when `REDIS_URL` is unset or names 127.0.0.1:6379.
- QueueWorker.HandledUploadSavesReportedWorkbook: holds only for stored paths without `"`, `$`, a backquote or a backslash. For other paths the command as written does not pass the path through (Finding 1); `QueueWorker.SafeHandledUploadSavesReportedWorkbook` states the promise for every path under the corrected quoting.
- QueueWorker.BatchItemRunsAsSingle: stated for digit job ids, which are the only ids the server makes (`JobServer.JobId`).

## Findings

| source | as written | input that shows it | evidently intended | confidence | as-written member | corrected member |
|---|---|---|---|---|---|---|
| backend/queueWorker.js:24 | the stored path is wrapped in double quotes, so a `"` in the client's file name ends the argument. A `$(...)` or backquote in it is run by the shell | a client file name `a" "b.pdf`, stored as `uploads/1-a" "b.pdf`, gives the script `uploads/1-a` as input and `b.pdf` as output | the script receives the stored path and the output path as exactly two arguments | not executed | QueueWorker.QuoteInFileNameSplitsArgument | QueueWorker.SafeCommandWords |
| backend/batch_worker.py:35 | unpacking the returned dictionary iterates it, which yields its keys, so every row holds `invoice_no_date`, `buyer`, `invoice_value`, `exchange_rate` | any PDF whose extraction succeeds | the row holds the four extracted values | not executed | BatchWorker.AsWrittenRowHoldsKeyNames | BatchWorker.BatchRowRoundTrip |
