# render_scrape: a Dafny model of its two scraping loops

The repository has two Express scripts. `index_gifDownloader.js` downloads one
logo GIF per group id into a `gifs` directory. `index.js` fetches one job-search
JSON per group id into a `scraped` directory. This project models their
sequential logic. The network, the disk writes and the browser are oracles.

- `chunking.dfy`, module `Chunking`: `chunkArray`, the loop that cuts the id
  list into slices of at most `size` ids. `Chunks` is the reference function
  the loop is proved against. Its lemmas show three things: the slices
  concatenate back to the input, every slice but the last holds exactly `size`
  ids, and there are ⌈|arr| / size⌉ slices.
- `gif_downloader.dfy`, module `GifDownloader`: `downloadGif` and the
  `/scrape-gifs` batch loop.
  - The directory is the set of group ids whose `<groupId>.gif` exists.
  - The image host is a `Network`: a function that says how attempt *k* ends
    when group *g* is download number *n* of the run. A group listed twice is
    downloaded twice and may be answered differently each time. An attempt that
    settles either completes, or errors with a message; attempts that never
    settle are left out (see below).
  - The batch functions take the single download as a function value
    (`Downloader`); `Downloads(net)` is `downloadGif` against host `net`.
  - Class `GifFolder` holds the directory, the log of GET requests sent and the
    number of downloads started, which tells the host which download asks.
    Its methods are the source's loops. The retry recursion over `attempt` is
    written as a bounded loop.
  - The methods are proved equal to the pure functions `Download` and
    `DownloadAll`. The lemmas about those functions state the promised
    properties: skip an existing file, at most three attempts, success iff an
    attempt completes, one outcome per id in order, the counts, and
    idempotent re-runs.
- `job_scraper.dfy`, module `JobScraper`: the `Cookie` header built from the
  browser cookies, and the `/scrape` loop.
  - Class `JsonFolder` holds the `scraped` directory as a map from group id to
    the file's text. It also holds the list of groups whose scrape was started.
  - A `Fetcher` oracle gives each iteration's result. That covers minting the
    cookies, the search GET and the write, which either yield the text or fail.

The source's global `groupIds` lists are parameters of the loops here.

## Behaviour of the code that the model keeps

`downloadGif` retries by calling itself, and every call starts with the
`fs.existsSync` check again. `fs.createWriteStream` has usually created the
target file by the time a write error is raised. So a write error on attempt 1
or 2 makes the next attempt report `{ success: true, skipped: true }` for a
partial file. A write error on attempt 3 reports a failure but leaves the
partial file, and the next run then skips it.

The model keeps this behaviour: `Response.Errored` records whether the failed
attempt left a file behind. `DownloadFromCharacterized` states the whole
behaviour, and `PartialFileReportedAsSkipped` shows the first case.
"`success` is true iff one of the three attempts completes" therefore holds
only when no failed attempt left a file. That is the hypothesis of
`SucceedsIffSomeAttemptCompletes`. Failures of the GET itself never leave a
file.

## Model

| member | source | states |
|---|---|---|
| `Chunking.ChunkArray` | index_gifDownloader.js:61-67 | the loop's result is `Chunks(arr, size)`: it concatenates back to `arr`, has ⌈\|arr\|/size⌉ slices, each non-empty and at most `size` long, all but the last exactly `size` long |
| `Chunking.ChunksFlatten` | index_gifDownloader.js:61-67 | concatenating all chunks gives back the input, in order |
| `Chunking.ChunksShape` | index_gifDownloader.js:63-64 | every chunk has 1 to `size` elements; every chunk but the last has exactly `size` |
| `Chunking.ChunksCount` | index_gifDownloader.js:63-65 | the number of chunks is (\|arr\| + size − 1) / size, that is ⌈\|arr\|/size⌉; an empty input gives no chunk |
| `Chunking.ElevenHundredIds` | index_gifDownloader.js:72 | 1100 ids in batches of 500 give the slices [0,500), [500,1000) and [1000,1100) |
| `GifDownloader.DownloadFrom` | index_gifDownloader.js:25-59 | the outcome carries the id passed in; only that id's file can be added; a success leaves its file present; at most `MaxAttempts − attempt + 1` requests are sent, and none exactly when the file already exists |
| `GifDownloader.LastAttempt` | index_gifDownloader.js:51-55 | the last attempt sent is the first one after which the file exists, otherwise attempt 3; no earlier attempt left a file |
| `GifDownloader.DownloadFromCharacterized` | index_gifDownloader.js:25-59 | for a missing file: the requests are attempts `from`..n in order; the result is downloaded if attempt n completed, skipped if attempt n left a partial file before attempt 3, and otherwise failed with attempt n's message; the file exists afterwards iff attempt n completed or left a partial file |
| `GifDownloader.SkipsExistingFile` | index_gifDownloader.js:29-32 | an existing file gives `Skipped(id)`, with no request and no write |
| `GifDownloader.SucceedsIffSomeAttemptCompletes` | index_gifDownloader.js:41-57 | if no failure leaves a file: success iff one of attempts 1–3 completes, and then the file exists; otherwise exactly 3 requests, no file, and the error is attempt 3's message |
| `GifDownloader.ThirdAttemptSucceeds` | index_gifDownloader.js:51-55 | two clean failures and then a completion give `Downloaded` after exactly three requests, numbered 1, 2, 3 |
| `GifDownloader.PartialFileReportedAsSkipped` | index_gifDownloader.js:29-54 | a first attempt whose write error leaves a partial file ends in `Skipped` after one request, with the file present |
| `GifDownloader.DownloadAll` | index_gifDownloader.js:78-79 | one outcome per id, whatever the single download does |
| `GifDownloader.DownloadAllOutcomes` | index_gifDownloader.js:78-79 | outcome i carries `ids[i]`; no file is removed; every id that succeeded has its file afterwards; only ids from the list gain a file |
| `GifDownloader.DownloadAllAppend` | index_gifDownloader.js:74-79 | downloading `a + b` equals downloading `a`, then `b` on the directory `a` left, as the downloads after those of `a`: sequential batches compose |
| `GifDownloader.DownloadAllAt` | index_gifDownloader.js:78-79 | outcome i is the download of `ids[i]` as download number `base + i`, on the directory the earlier ids left |
| `GifDownloader.RepeatedIdDownloadedAgain` | index_gifDownloader.js:25-59 | a group listed twice is downloaded twice: after a first download that fails three times without writing, the second sends its own request and completes |
| `GifDownloader.AllStoredAllSkipped` | index_gifDownloader.js:29-32 | if every id already has its file: every outcome is skipped, no request is sent, nothing changes |
| `GifDownloader.RerunSkipsSucceeded` | index_gifDownloader.js:29-32 | a second run skips every id that succeeded in the first; if all succeeded, it sends no request and counts every id as a success |
| `GifDownloader.Successes` | index_gifDownloader.js:81 | `filter(r => r.success)` keeps at most the input's elements, and only successes |
| `GifDownloader.SuccessCountExtremes` | index_gifDownloader.js:81-82 | the success count equals the batch length iff every result succeeded (skipped ones included), and is 0 iff every result failed |
| `GifDownloader.SuccessesConcat` | index_gifDownloader.js:81 | the successes of two result lists concatenated are the two lists' successes concatenated |
| `GifDownloader.ThreeNewIdsAllDownloaded` | index_gifDownloader.js:74-83 | ids [1,2,3], an empty directory, and first attempts that complete give three `Downloaded` outcomes in order, three files, and a success count of 3 |
| `GifDownloader.GifFolder.DownloadGif` | index_gifDownloader.js:25-59 | the bounded retry loop's outcome, its new directory and its appended requests are exactly those of `Download` as the next download of the run; one more download is counted |
| `GifDownloader.GifFolder.DownloadBatch` | index_gifDownloader.js:75-83 | the results, directory and requests are those of `DownloadAll` on the batch; successCount counts the successes and successCount + failCount is the batch length |
| `GifDownloader.GifFolder.ScrapeGifs` | index_gifDownloader.js:70-84 | one report per chunk of 500; each is tallied for its chunk's length; the batches' results concatenate to `DownloadAll` over the whole list, and so do the directory and the requests, so batches run strictly in order |
| `JobScraper.CookieHeader` | index.js:25 | the header is empty iff the cookie list is |
| `JobScraper.CookieHeaderConcat` | index.js:25 | the header of two non-empty lists joined is their headers joined by "; ": the pairs keep list order |
| `JobScraper.CookieHeaderLength` | index.js:25 | the header's length is the total length of the `name=value` pairs plus 2 per separator |
| `JobScraper.DoneCount` | index.js:58-87 | `doneCount` never exceeds the number of groups handled |
| `JobScraper.DoneCountCountsSuccesses` | index.js:80-87 | `doneCount` equals the number of positions whose group was fetched and saved |
| `JobScraper.SavedFiles` | index.js:83-84 | files are only added or overwritten, never removed |
| `JobScraper.SavedFilesKeepLastSuccess` | index.js:83-84 | a group's file holds the body of its last successful fetch, so a repeated group's later success overwrites an earlier one |
| `JobScraper.SavedFilesUntouched` | index.js:83-90 | a group whose fetches all failed keeps its previous file, or still has none |
| `JobScraper.JsonFolder.Scrape` | index.js:56-91 | every group is started once, in list order, whatever failed before; the directory is `SavedFiles`; `doneCount` is `DoneCount` and at most `totalGroups`; each logged `pendingCount` is `totalGroups` minus the groups done so far, never below `totalGroups − i` |

## Left out

- Express routes, static serving and `app.listen`: HTTP framework plumbing.
- Zip archiving with `archiver`: an external library.
- Puppeteer's browser launch and cookie retrieval: the cookie list is an input of `CookieHeader`.
- The header constant maps and the URL templates: static data. The request URL is only a function of the group id, which the oracles receive.
- Axios and the response stream: each GIF attempt is a `Response` from the `Network` oracle. Each `/scrape` iteration is a `FetchResult` from the `Fetcher` oracle, which also covers `JSON.stringify`.
- The `p-limit` cap of 5 concurrent downloads: each batch is modelled as a sequential map that keeps input order. Interleaved existence checks are therefore not modelled, such as the two downloads of an id listed twice in one batch running side by side.
- `GifDownloader.DownloadAll`: an attempt whose body stream fails after the headers arrived never settles. `pipe` does not pass a read error on to the write stream, so neither `finish` nor `error` fires. That `downloadGif` call, its batch and the `/scrape-gifs` request then never finish. The `Response` oracle holds only attempts that settle, so "one outcome per id" (`DownloadAll`, `DownloadAllOutcomes`, `GifFolder.ScrapeGifs`) holds only for runs in which every attempt settles.
- Elapsed time, averages, ETA and `toFixed`: clock-based floating point. Console output and `mkdirSync` are left out too.
- `Chunking.ChunkArray`: requires `size > 0`. The source loop never ends for a non-positive size and a non-empty list, and its only caller passes 500.
- `JobScraper.JsonFolder.Scrape`: a `writeFileSync` that throws counts as a failed iteration. The model leaves that group's file as it was, but the real call may leave it truncated.
- Only which GIF files exist is modelled, not their content.
