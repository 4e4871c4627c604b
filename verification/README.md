# Parallel multi-part downloader: the sequential core

This project models the two versions of a parallel multi-part downloader:
`FileDownloader` and `FileDownloader2`. Each fetches a manifest of links. In
the manifest, a line containing `Fichero:` names a logical file, and the
lines under it are the URLs of that file's parts. A pool of worker threads
downloads the parts of the current file into `downloads`. When no part is
left, a `CyclicBarrier` action merges the parts, deletes them and moves on
to the next file.

The model keeps the logic and drops the plumbing:

- **Text** (`text.dfy`)
  - The whitespace cleanup of every line (`replaceAll("\\s", "")`).
  - Header detection (`contains("Fichero:")`, via `indexOf`).
  - The file name after the last `':'`.
  - The part's link from its last `'/'`. The link is an error when there is no `'/'`, because `substring(-1)` throws.
- **Jobs** (`jobs.dfy`): an independent reference reading of a manifest as a list of jobs.
  - A job is a file name plus its parts, in order.
  - Also defines the log a complete download of those jobs must leave.
- **Grouping** (`grouping.dfy`): `FileDownloader2.readTextFile`.
  - A fold that builds the list of names and the list of part groups.
  - It fails with `IndexOutOfBounds` on a part line before the first header.
- **Downloader1** (`downloader1.dfy`): `FileDownloader` as a state machine.
  - The state is: the line queue, the recorded links, the current name, `processFinished`, and a log of effects.
  - Its two atomic transitions are the claim branch of the worker loop and the barrier action.
  - The barrier action is taken exactly when the claim guard is false.
  - A `Run` function drives the machine to its end.
- **Downloader2** (`downloader2.dfy`): `FileDownloader2` as written.
- **Downloader2Fixed** (`downloader2_fixed.dfy`): `FileDownloader2` with its defects corrected (see Findings).
  - It is proved to agree with `FileDownloader` on every non-empty manifest that opens with a header and whose part lines all carry a link.
  - Outside that case the two differ. On an empty manifest, `FileDownloader` throws while the corrected version finishes with nothing done. On a manifest whose first line is a part, `FileDownloader2`'s reader throws, while `FileDownloader` takes that line as the first file's name.

Effects on the outside world become entries of an event log (`Common.Event`):

- `Fetch(url, dest, ok)` is a call of `downloadByURL` together with what it returned.
- `Merge(dir, file)` is a call of `SplitAndMerge.mergeFile`.
- `Delete(path)` is a call of `deleteDownloadFile`.

Download outcomes are a parameter `succeeds: string -> bool` of the locator.

A worker that dies of an exception ends the run as `Crashed`: the barrier
can then never gather all its parties again. In `FileDownloader2` the workers
spin forever once the name list is empty and `processFinished` is still
false; that run ends as `Stalled`.

Destinations are written exactly as the source builds them:

- A fetch writes to `"downloads" + link`, and a link starts with `'/'`.
- In `FileDownloader` and the corrected `FileDownloader2`, a deletion removes `"downloads/" + link`, which therefore contains a double slash.
- In `FileDownloader2` as written, the barrier would delete `"downloads/" +` each whole part line left in the first group (none is ever left).

## Model

| member | source | states |
|---|---|---|
| Text.Strip | src/FileDownloader.java:146 | The cleaned line has no whitespace, keeps every other character, and every character of the result occurs in the input. Its length is unchanged exactly when the line had no whitespace. |
| Text.StripAppend | src/FileDownloader2.java:135 | Cleanup works character by character: it distributes over concatenation. |
| Text.StripSpaceFree | src/FileDownloader2.java:135 | A line without whitespace is left exactly as it is. |
| Text.StripIdempotent | src/FileDownloader2.java:135 | Cleaning a cleaned line changes nothing. |
| Text.CleanLines | src/FileDownloader.java:145-147 | One cleaned line per manifest line, in file order: the i-th result is the i-th line stripped. |
| Text.IndexOf | src/FileDownloader2.java:137 | The first position where the tag occurs, or -1 exactly when it occurs nowhere. No earlier position matches. |
| Text.HeaderAnywhere | src/FileDownloader2.java:137 | A line is a header wherever the tag `Fichero:` stands in it, not only at its start. |
| Text.LastIndexOf | src/FileDownloader.java:90 | Position of the last occurrence of a character, or -1 exactly when the character is absent. |
| Text.NameAfterColon | src/FileDownloader.java:90 | The name is a suffix of the line. When it is shorter than the line, it is preceded by a ':'. |
| Text.NameWithoutColon | src/FileDownloader.java:90 | A line with no ':' is its own name. |
| Text.NameHasNoColon | src/FileDownloader2.java:139 | The name has no ':' in it. |
| Text.NameOfHeader | src/FileDownloader2.java:139 | The name of `prefix:name` is `name` when `name` has no ':'. |
| Text.Link | src/FileDownloader.java:176 | The result is an error (StringIndexOutOfBounds) exactly when the line has no '/'. Otherwise it is the suffix from the last '/' inclusive, with no later '/'. |
| Text.LinkOfLocator | src/FileDownloader2.java:188 | The link of `base/segment` is `/segment` when `segment` has no '/'. |
| Common.DeleteAll | src/FileDownloader.java:64-67 | One deletion of `downloads/` + p per recorded p, in order. |
| Jobs.JobsFromCount | src/FileDownloader.java:171 | The line queue describes one job for the current name plus one per later header. |
| Jobs.JobsFromNames | src/FileDownloader.java:87-90 | Those jobs are named, in order, after the current name and the text after each header's last ':'. |
| Jobs.JobsFromParts | src/FileDownloader.java:171-173 | The parts of the jobs, job after job, are exactly the non-header lines in order. |
| Jobs.JobsFromFirst | src/FileDownloader.java:171 | The current job's parts are the longest header-free prefix of the queue, and the line after them, if any, is a header. |
| Jobs.SplitJobsShape | src/FileDownloader.java:115 | A whole manifest gives one job for its first line (taken whatever it holds) and one per later header, with every part line kept in order. |
| Grouping.AddLine | src/FileDownloader2.java:137-149 | A header appends its name and a new empty group. A part line is appended to the last group. A part line with no group yet fails with IndexOutOfBounds. |
| Grouping.AddLineEffect | src/FileDownloader2.java:137-149 | One line adds one name and one group exactly when it is a header. Otherwise it adds itself to the flattened groups. |
| Grouping.ParseFrom | src/FileDownloader2.java:134-150 | The fold fails exactly when no group is open and the next line is not a header. On success it adds one name and one group per header, the names are the header names, and the flattened groups gain exactly the part lines. |
| Grouping.Parse | src/FileDownloader2.java:131-150 | Reading succeeds exactly when the manifest is empty or opens with a header. Then \|names\| == \|groups\| == the number of headers, names == the header names, and the flattened groups are the part lines in order. |
| Grouping.ParseFromJobs | src/FileDownloader2.java:134-150 | Once a group is open, reading never fails, and it completes the open group with the parts up to the next header. |
| Grouping.ParseMatchesSplit | src/FileDownloader2.java:134-150 | For a manifest that opens with a header, the grouping reader and the line-queue reading give the same jobs. |
| Grouping.RemainingStart | src/FileDownloader2.java:101 | Polling the first name of freshly read lists leaves the jobs they describe unchanged. |
| Grouping.RemainingClaim | src/FileDownloader2.java:183-184 | Claiming the head of the first group moves it to the claimed parts without changing the jobs described. |
| Grouping.RemainingNext | src/FileDownloader2.java:71-73 | Dropping an exhausted first group and polling the next name closes the first job and leaves the rest. |
| Downloader1.NextFile | src/FileDownloader.java:87-92 | Removing from an empty queue throws NoSuchElement. Otherwise exactly the head is removed, the current name becomes the text after its last ':', and nothing else changes. |
| Downloader1.Start | src/FileDownloader.java:115 | The workers start with the first line's name current, the other lines queued, and nothing recorded or logged. |
| Downloader1.Init | src/FileDownloader.java:99-115 | Setup throws NoSuchElement exactly for an empty manifest. Otherwise it starts from the cleaned lines. |
| Downloader1.Claim | src/FileDownloader.java:171-186 | A claim removes exactly the queue head and keeps the header count. The worker dies (StringIndexOutOfBounds) exactly when the head has no '/'. Otherwise the head's link is appended to the record and its fetch to `downloads` + link is logged. |
| Downloader1.ClaimIgnoresOutcome | src/FileDownloader.java:180-185 | The link is recorded whatever the download returned: two claims that differ in the outcome differ only in the logged outcome. |
| Downloader1.Rendezvous | src/FileDownloader.java:57-81 | The barrier logs the merge of the current file, then deletes every recorded link in order, and clears the record. It finishes exactly when the queue is empty, and otherwise takes the next name. |
| Downloader1.RendezvousTakesHeader | src/FileDownloader.java:171 | The barrier runs on a non-empty queue only when its head is a header. It removes that header, and it is the only way a header leaves the queue. |
| Downloader1.FinishedIsTerminal | src/FileDownloader.java:71-72 | Once processFinished is set, no claim is possible and the barrier leaves it set. |
| Downloader1.Run | src/FileDownloader.java:168-191 | A run ends Finished exactly when processFinished is set. When it starts from a running state and finishes, it has an empty queue and an empty record. The log only grows. |
| Downloader1.RunFrom | src/FileDownloader.java:168-191 | From any running state with fetchable part lines, the run finishes. Its log is the prior log followed by every remaining job's fetches, merge and deletions. |
| Downloader1.RunQueue | src/FileDownloader.java:168-191 | A queue whose part lines all carry a link is downloaded completely: the run finishes with the reference log of its jobs. |
| Downloader1.Process | src/FileDownloader.java:99-128 | The queue is the cleaned manifest. Setup throws NoSuchElement exactly on an empty manifest. Otherwise the run finishes exactly when every part line after the first line carries a '/', and then its log is the reference log of the manifest's jobs. |
| Downloader1.RunCrashes | src/FileDownloader.java:119-124 | A queued part line without '/' kills the worker that claims it, and the run never finishes. |
| Downloader2.Poll | src/FileDownloader2.java:166-169 | Polling takes the head name, or null on an empty list, and changes nothing else. |
| Downloader2.Start | src/FileDownloader2.java:101 | The workers start with the first name polled and nothing logged. |
| Downloader2.Init | src/FileDownloader2.java:86-101 | Setup fails (IndexOutOfBounds) exactly when reading fails. Otherwise it starts from the lists read. |
| Downloader2.Claim | src/FileDownloader2.java:183-190 | A claim removes exactly the head of the first group and leaves the other groups and the names alone. The worker dies exactly when the part has no '/'. Otherwise the fetch is logged, and no link is recorded. |
| Downloader2.Rendezvous | src/FileDownloader2.java:58-79 | With no group, the merge is logged and then the thread running the barrier dies of IndexOutOfBounds. Otherwise it logs the merge and the deletion of what is left in the first group, drops that group and polls one name. It never sets processFinished. |
| Downloader2.Run | src/FileDownloader2.java:177-198 | A run finishes only from a finished state. A stall has an empty name list with processFinished false. The log only grows. |
| Downloader2.RunStalls | src/FileDownloader2.java:177-198 | From a running state with fetchable parts, the run stalls. Every job but the last is fetched and merged, nothing is deleted, and the last group is untouched. |
| Downloader2.RunLists | src/FileDownloader2.java:179-198 | For read lists with at least one name whose parts carry a link in every group but the last (which is never claimed from), the run stalls with only the last group left and its name current. The log holds the fetches and merges of every other file. |
| Downloader2.RunCrashes | src/FileDownloader2.java:183-188 | From a running state, a part without '/' in any group but the last kills the worker that claims it, and the run crashes. |
| Downloader2.RunRead | src/FileDownloader2.java:177-198 | From any read lists, a run deletes nothing. With no name it stalls at once with nothing done. Otherwise it stalls as RunLists states when the parts before the last group carry a link, and crashes when one of them does not. |
| Downloader2.Process | src/FileDownloader2.java:86-114 | Setup fails (IndexOutOfBounds) exactly when reading fails. No run deletes anything. A manifest without names stalls at once with nothing done. Any other manifest stalls with only its last group left, untouched, and the fetches and merges of every other file logged, when the parts before the last group carry a link. When one of them does not, a worker dies. |
| Downloader2.RunNeverDeletes | src/FileDownloader2.java:64-66 | Whatever the manifest and the download outcomes, a run adds no deletion to the log. |
| Downloader2.SingleFileNeverDownloaded | src/FileDownloader2.java:181 | With a single file, whatever its parts, nothing is fetched or merged and the run stalls. |
| Downloader2Fixed.Start | src/FileDownloader2.java:101 | The first name is polled, and a run with no names is finished from the start. |
| Downloader2Fixed.Init | src/FileDownloader2.java:86-101 | Setup fails exactly when reading fails. |
| Downloader2Fixed.Claim | src/FileDownloader2.java:183-190 | As in FileDownloader2, but a successful claim also records the part's link. |
| Downloader2Fixed.Rendezvous | src/FileDownloader2.java:58-79 | The barrier merges, deletes the recorded links, clears the record and drops the first group. It finishes exactly when that group was the last, and otherwise polls the next name. |
| Downloader2Fixed.Run | src/FileDownloader2.java:177-198 | A run ends Finished exactly when processFinished is set, and the log only grows. |
| Downloader2Fixed.RunFrom | src/FileDownloader2.java:177-198 | From any running state with fetchable parts, the run finishes. Its log is the prior log followed by every remaining job's fetches, merge and deletions. |
| Downloader2Fixed.RunLists | src/FileDownloader2.java:177-198 | Read lists with fetchable parts are downloaded completely: the run finishes with the reference log of their jobs. |
| Downloader2Fixed.RunRead | src/FileDownloader2.java:177-198 | Readable lines with fetchable parts are downloaded completely. When they open with a header, the log is that of their line-queue reading. |
| Downloader2Fixed.Process | src/FileDownloader2.java:86-114 | Setup fails exactly when reading fails. A readable manifest with fetchable parts is downloaded completely, with the reference log of the jobs read. For a manifest that opens with a header, that is the log of its line-queue reading, the one FileDownloader leaves. |
| Downloader2Fixed.GroupsOfFetchableLines | src/FileDownloader2.java:134-150 | For a manifest that opens with a header and whose part lines all carry a '/', reading succeeds and every part in every group carries a '/'. |
| Downloader2Fixed.AgreesWithFirstVersion | src/FileDownloader2.java:86-114 | On a manifest that opens with a header and whose parts all carry a link, the corrected FileDownloader2 and FileDownloader both finish and leave the same log. |

## Left out

- Network I/O (`downloadByURL`, the manifest download in `process`): a fetch is a log entry, and its outcome is the parameter `succeeds`.
- `createFolder`, the body of `deleteDownloadFile`, and deleting the manifest file: file-system effects. Part deletions are log entries.
- `SplitAndMerge.mergeFile`: it is not part of this model. Merging is a log entry.
- The `BufferedReader`/`File` reading and its `IOException`/`FileNotFoundException` handling: the manifest is given as its sequence of lines.
- Threads, the pool size, `volatile` visibility, the `Semaphore`, and `CyclicBarrier` blocking and breaking. Every step is atomic, a claim runs whenever its guard holds, and the barrier action runs otherwise.
- After a worker dies, other workers could still claim parts before blocking at the barrier forever. The model stops at the first death, so it does not say which further parts get fetched.
- The download oracle is keyed by the part's locator. A manifest that lists the same locator twice therefore gets the same outcome both times.
- Timing (`System.currentTimeMillis`, `timeDownload`), console output and `main`.
- `FileDownloader` throws `NoSuchElementException` on an empty manifest before any worker starts, and `FileDownloader2` stalls on one. `Downloader1` and `Downloader2` follow the code. `Downloader2Fixed` finishes with nothing done instead (see Findings).
- `FileDownloader` records each claimed link whatever the download returned, so it also deletes parts whose download failed. The model follows the code here too.

## Findings

| source | as written | input that shows it | evidently intended | confidence | as-written member | corrected member |
|---|---|---|---|---|---|---|
| src/FileDownloader2.java:181 | Workers claim only while the name list is non-empty. The first name is polled before they start, and each barrier polls another. So the last file's parts are never claimed, the barrier never trips for it, and `processFinished` is never set (nor could the barrier set it: see the row for lines 71-78). | A manifest `Fichero:a`, `http://h/a.part1`: nothing is fetched, and the workers spin forever. | Every file is downloaded and merged, and the run finishes after the last one. | not executed | Downloader2.RunRead | Downloader2Fixed.Process |
| src/FileDownloader2.java:64-66 | The barrier deletes the parts still in the first group. The workers have just emptied that group by claiming them, so nothing is ever deleted. | A manifest `Fichero:a`, `http://h/a1`, `Fichero:b`: `http://h/a1` is fetched to `downloads/a1` and `a` is merged, but no deletion follows. | The parts just merged are deleted, as FileDownloader deletes its recorded `partsFile`. | not executed | Downloader2.RunNeverDeletes | Downloader2Fixed.Process |
| src/FileDownloader2.java:71-78 | The barrier tests whether the group list is empty before it removes the first group. `get(0)` at line 64 has just succeeded, so the list is never empty there. `processFinished = true` is unreachable. | No input reaches line 77: it is dead code. The barrier trips only inside the loop of line 181, while a name is still queued, and then at least two groups remain. The missing finish would show only once the line-181 defect is corrected: the barrier that drops the last group would then leave `processFinished` false. | The run finishes once the last group has been merged. | not executed | Downloader2.Rendezvous | Downloader2Fixed.Rendezvous |
| src/FileDownloader2.java:179-181 | With no name read, the `poll()` at line 101 gives null, the inner loop never runs, and `processFinished` is never set. | An empty manifest: the workers spin in the outer loop forever. | The run finishes at once with nothing to do. | not executed | Downloader2.RunRead | Downloader2Fixed.Start |
