/** The batch GIF fetcher of index_gifDownloader.js: `downloadGif` with its
    skip-existing check and three attempts, and the `/scrape-gifs` loop that
    downloads the id list batch by batch and tallies each batch.

    The `gifs` directory is the set of group ids whose `<groupId>.gif` exists;
    the image host together with the write stream is an oracle that says how
    each attempt ends. */
module GifDownloader {
  import Chunking

  type GroupId = int

  /** `downloadGif` retries while `attempt < 3`. */
  const MaxAttempts: nat := 3

  /** The batch size the handler passes to `chunkArray`. */
  const BatchSize: nat := 500

  /** How one attempt (the GET, then streaming the body to `<groupId>.gif`) ends.
      `Errored` carries the error's message and whether the write stream had
      already created the target file when the error came (a partial file). */
  datatype Response = Completed | Errored(message: string, leftPartialFile: bool)

  /** The image host and the disk over a whole run: `net(id, n, k)` is how
      attempt `k` ends when group `id` is download number `n` of the run
      (counting from 0). A group listed twice is downloaded twice and may be
      answered differently each time. */
  type Network = (GroupId, int, nat) -> Response

  /** One GET sent to the image host. */
  datatype Request = Request(groupId: GroupId, attempt: nat)

  /** What `downloadGif` resolves to. */
  datatype Outcome =
    | Skipped(groupId: GroupId)                // the file already existed: a success, marked skipped
    | Downloaded(groupId: GroupId)             // an attempt wrote the file: a success
    | Failed(groupId: GroupId, error: string)  // every attempt failed: the last error's message
  {
    /** The `success` field of the resolved object. */
    predicate Success() { !Failed? }
  }

  /** The effect of one `downloadGif` call: what it resolves to, the stored ids
      afterwards and the requests it sent, in order. */
  datatype Run = Run(outcome: Outcome, stored: set<GroupId>, requests: seq<Request>)

  predicate LeavesPartialFile(r: Response) { r.Errored? && r.leftPartialFile }

  /** An attempt after which the target file exists. */
  predicate EndsAttempts(r: Response) { r.Completed? || LeavesPartialFile(r) }

  /** `downloadGif(id, attempt)` on a directory holding `stored`: the existence
      check, one attempt, and on an error the recursive retry while
      `attempt < MaxAttempts`. */
  function DownloadFrom(stored: set<GroupId>, id: GroupId, nth: int, attempt: nat, net: Network): (r: Run)
    requires 1 <= attempt <= MaxAttempts
    ensures r.outcome.groupId == id
    ensures stored <= r.stored <= stored + {id}
    ensures r.outcome.Success() ==> id in r.stored
    ensures |r.requests| <= MaxAttempts - attempt + 1
    ensures r.requests == [] <==> id in stored
    decreases MaxAttempts - attempt
  {
    if id in stored then Run(Skipped(id), stored, [])
    else
      match net(id, nth, attempt)
      case Completed => Run(Downloaded(id), stored + {id}, [Request(id, attempt)])
      case Errored(message, partial) =>
        var afterWrite := if partial then stored + {id} else stored;
        if attempt < MaxAttempts then
          var rest := DownloadFrom(afterWrite, id, nth, attempt + 1, net);
          Run(rest.outcome, rest.stored, [Request(id, attempt)] + rest.requests)
        else
          Run(Failed(id, message), afterWrite, [Request(id, attempt)])
  }

  /** `downloadGif(id)`, whose `attempt` defaults to 1. */
  function Download(stored: set<GroupId>, id: GroupId, nth: int, net: Network): Run
  {
    DownloadFrom(stored, id, nth, 1, net)
  }

  /** The attempt at which a download that starts at attempt `from`, on a group
      with no file yet, sends its last request: the first attempt after which
      the file exists, or the last one allowed. */
  function LastAttempt(id: GroupId, nth: int, net: Network, from: nat): (n: nat)
    requires 1 <= from <= MaxAttempts
    ensures from <= n <= MaxAttempts
    ensures forall k :: from <= k < n ==> !EndsAttempts(net(id, nth, k))
    ensures n < MaxAttempts ==> EndsAttempts(net(id, nth, n))
    decreases MaxAttempts - from
  {
    if from == MaxAttempts || EndsAttempts(net(id, nth, from)) then from
    else LastAttempt(id, nth, net, from + 1)
  }

  /** What a download of a missing file does, stated without the recursion:
      attempts `from` .. n are sent, n being the `LastAttempt`; it resolves to
      `Downloaded` if attempt n completed, to `Skipped` if attempt n left a
      partial file and another attempt was allowed (that attempt finds the file),
      and otherwise to `Failed` with the last attempt's message. */
  lemma {:induction false} DownloadFromCharacterized(stored: set<GroupId>, id: GroupId, nth: int, from: nat, net: Network)
    requires 1 <= from <= MaxAttempts
    requires id !in stored
    ensures var r := DownloadFrom(stored, id, nth, from, net);
      var n := LastAttempt(id, nth, net, from);
      var last := net(id, nth, n);
      && r.requests == seq(n - from + 1, j requires 0 <= j => Request(id, from + j))
      && r.outcome == (if last.Completed? then Downloaded(id)
                       else if n < MaxAttempts then Skipped(id)
                       else Failed(id, last.message))
      && r.stored == (if EndsAttempts(last) then stored + {id} else stored)
    decreases MaxAttempts - from
  {
    var r := DownloadFrom(stored, id, nth, from, net);
    var n := LastAttempt(id, nth, net, from);
    if from == MaxAttempts || EndsAttempts(net(id, nth, from)) {
      assert n == from;
      if net(id, nth, from).Errored? && from < MaxAttempts {
        assert DownloadFrom(stored + {id}, id, nth, from + 1, net).requests == [];
      }
      assert r.requests == [Request(id, from)];
    } else {
      DownloadFromCharacterized(stored, id, nth, from + 1, net);
      var rest := DownloadFrom(stored, id, nth, from + 1, net);
      assert r.requests == [Request(id, from)] + rest.requests;
      assert r.requests == seq(n - from + 1, j requires 0 <= j => Request(id, from + j));
    }
  }

  /** A group whose file already exists resolves to skipped, with no request and no write. */
  lemma SkipsExistingFile(stored: set<GroupId>, id: GroupId, nth: int, net: Network)
    requires id in stored
    ensures Download(stored, id, nth, net) == Run(Skipped(id), stored, [])
  {
  }

  /** When no failed attempt leaves a file behind: the download succeeds iff one
      of the three attempts completes, and then the file exists; otherwise all
      three attempts were sent, nothing was written and the error is the last
      attempt's message. */
  lemma SucceedsIffSomeAttemptCompletes(stored: set<GroupId>, id: GroupId, nth: int, net: Network)
    requires id !in stored
    requires forall k :: 1 <= k <= MaxAttempts ==> !LeavesPartialFile(net(id, nth, k))
    ensures var r := Download(stored, id, nth, net);
      && (r.outcome.Success() <==> exists k :: 1 <= k <= MaxAttempts && net(id, nth, k).Completed?)
      && (r.outcome.Success() ==> r.outcome == Downloaded(id) && r.stored == stored + {id})
      && (!r.outcome.Success() ==>
            r.outcome == Failed(id, net(id, nth, MaxAttempts).message) && |r.requests| == MaxAttempts && r.stored == stored)
  {
    DownloadFromCharacterized(stored, id, nth, 1, net);
    var n := LastAttempt(id, nth, net, 1);
    if net(id, nth, n).Completed? {
      assert 1 <= n <= MaxAttempts && net(id, nth, n).Completed?;
    } else {
      assert n == MaxAttempts;
      forall k | 1 <= k <= MaxAttempts
        ensures !net(id, nth, k).Completed?
      {
        if k < n {
          assert !EndsAttempts(net(id, nth, k));
        }
      }
    }
  }

  /** Two failed attempts and a third that completes: downloaded, after exactly three requests. */
  lemma ThirdAttemptSucceeds(stored: set<GroupId>, id: GroupId, nth: int, net: Network)
    requires id !in stored
    requires net(id, nth, 1).Errored? && !net(id, nth, 1).leftPartialFile
    requires net(id, nth, 2).Errored? && !net(id, nth, 2).leftPartialFile
    requires net(id, nth, 3) == Completed
    ensures Download(stored, id, nth, net)
         == Run(Downloaded(id), stored + {id}, [Request(id, 1), Request(id, 2), Request(id, 3)])
  {
    DownloadFromCharacterized(stored, id, nth, 1, net);
  }

  /** A write-stream error on a first attempt that had already created the file
      ends the download: the retry finds the partial file and reports it as an
      existing one. */
  lemma PartialFileReportedAsSkipped(stored: set<GroupId>, id: GroupId, message: string, nth: int, net: Network)
    requires id !in stored
    requires net(id, nth, 1) == Errored(message, true)
    ensures Download(stored, id, nth, net) == Run(Skipped(id), stored + {id}, [Request(id, 1)])
  {
  }

  /** The effect of downloading a list of ids one after the other. */
  datatype BatchRun = BatchRun(outcomes: seq<Outcome>, stored: set<GroupId>, requests: seq<Request>)

  /** How one id is downloaded: `download(stored, id, n)` is the effect of
      `downloadGif(id)` as download number `n` of the run, on a directory
      holding `stored`. */
  type Downloader = (set<GroupId>, GroupId, int) -> Run

  /** `downloadGif` against the image host `net`. */
  function Downloads(net: Network): Downloader
  {
    (stored, id, n) => Download(stored, id, n, net)
  }

  /** `download` applied to each id of `ids` in turn, each on the directory
      the previous ones left behind; `base` is the number of downloads of the
      run that came before these. */
  function DownloadAll(stored: set<GroupId>, ids: seq<GroupId>, base: nat, download: Downloader): (b: BatchRun)
    ensures |b.outcomes| == |ids|
    decreases |ids|
  {
    if ids == [] then BatchRun([], stored, [])
    else
      var i := |ids| - 1;
      var prev := DownloadAll(stored, ids[..i], base, download);
      var run := download(prev.stored, ids[i], base + i);
      BatchRun(prev.outcomes + [run.outcome], run.stored, prev.requests + run.requests)
  }

  /** One outcome per id, in input order, each carrying its id; no file is
      removed; every id that succeeded has its file afterwards; only ids of the
      list gain a file. */
  lemma {:induction false} DownloadAllOutcomes(stored: set<GroupId>, ids: seq<GroupId>, base: nat, net: Network)
    ensures var b := DownloadAll(stored, ids, base, Downloads(net));
      && (forall i :: 0 <= i < |ids| ==> b.outcomes[i].groupId == ids[i])
      && stored <= b.stored
      && (forall i :: 0 <= i < |ids| && b.outcomes[i].Success() ==> ids[i] in b.stored)
      && (forall id :: id in b.stored ==> id in stored || id in ids)
    decreases |ids|
  {
    if ids != [] {
      var ids' := ids[..|ids| - 1];
      DownloadAllOutcomes(stored, ids', base, net);
      var prev := DownloadAll(stored, ids', base, Downloads(net));
      var b := DownloadAll(stored, ids, base, Downloads(net));
      forall i | 0 <= i < |ids'|
        ensures b.outcomes[i] == prev.outcomes[i] && ids[i] == ids'[i]
      {
      }
    }
  }

  /** Downloading one more id: the last id is downloaded on the directory the others left. */
  lemma DownloadAllSnoc(stored: set<GroupId>, ids: seq<GroupId>, id: GroupId, base: nat, download: Downloader)
    ensures var prev := DownloadAll(stored, ids, base, download);
      var run := download(prev.stored, id, base + |ids|);
      DownloadAll(stored, ids + [id], base, download) == BatchRun(prev.outcomes + [run.outcome], run.stored, prev.requests + run.requests)
  {
    var ids' := ids + [id];
    assert |ids'| - 1 == |ids| && ids'[|ids'| - 1] == id && ids'[..|ids'| - 1] == ids;
  }

  /** What the batch loop has done once it has downloaded `ids`, starting from
      the stored ids `start`, download number `base` and the request log `log`. */
  predicate PrefixDone(start: set<GroupId>, ids: seq<GroupId>, base: nat, download: Downloader,
                       results: seq<Outcome>, stored: set<GroupId>, log: seq<Request>, requests: seq<Request>)
  {
    var b := DownloadAll(start, ids, base, download);
    results == b.outcomes && stored == b.stored && requests == log + b.requests
  }

  lemma PrefixDoneStep(start: set<GroupId>, ids: seq<GroupId>, j: nat, base: nat, download: Downloader,
                       results: seq<Outcome>, stored: set<GroupId>, log: seq<Request>, requests: seq<Request>,
                       outcome: Outcome, stored': set<GroupId>, requests': seq<Request>)
    requires j < |ids|
    requires PrefixDone(start, ids[..j], base, download, results, stored, log, requests)
    requires var run := download(stored, ids[j], base + j);
      outcome == run.outcome && stored' == run.stored && requests' == requests + run.requests
    ensures PrefixDone(start, ids[..j + 1], base, download, results + [outcome], stored', log, requests')
  {
    assert ids[..j + 1][..j] == ids[..j];
    var prev := DownloadAll(start, ids[..j], base, download);
    ConcatAssoc(log, prev.requests, download(stored, ids[j], base + j).requests);
  }

  lemma ConcatAssoc<T>(a: seq<T>, b: seq<T>, c: seq<T>)
    ensures (a + b) + c == a + (b + c)
  {
  }

  /** Downloading `a + b` is downloading `a`, then `b` on the directory `a` left,
      as the downloads that follow those of `a`. */
  lemma {:induction false} DownloadAllAppend(stored: set<GroupId>, a: seq<GroupId>, b: seq<GroupId>, base: nat, download: Downloader)
    ensures var x := DownloadAll(stored, a, base, download);
      var y := DownloadAll(x.stored, b, base + |a|, download);
      DownloadAll(stored, a + b, base, download) == BatchRun(x.outcomes + y.outcomes, y.stored, x.requests + y.requests)
    decreases |b|
  {
    if b == [] {
      assert a + b == a;
    } else {
      var b', last := b[..|b| - 1], b[|b| - 1];
      var x := DownloadAll(stored, a, base, download);
      var y' := DownloadAll(x.stored, b', base + |a|, download);
      var run := download(y'.stored, last, base + |a| + |b'|);
      DownloadAllAppend(stored, a, b', base, download);
      DownloadAllAppendLast(stored, a, b, base, download);
      assert DownloadAll(x.stored, b, base + |a|, download)
          == BatchRun(y'.outcomes + [run.outcome], run.stored, y'.requests + run.requests);
      ConcatAssoc(x.outcomes, y'.outcomes, [run.outcome]);
      ConcatAssoc(x.requests, y'.requests, run.requests);
    }
  }

  /** Downloading `a + b` for a non-empty `b`: the last id of `b` is downloaded
      after all the others. */
  lemma DownloadAllAppendLast(stored: set<GroupId>, a: seq<GroupId>, b: seq<GroupId>, base: nat, download: Downloader)
    requires b != []
    ensures var b', last := b[..|b| - 1], b[|b| - 1];
      var prev := DownloadAll(stored, a + b', base, download);
      var run := download(prev.stored, last, base + |a| + |b'|);
      DownloadAll(stored, a + b, base, download) == BatchRun(prev.outcomes + [run.outcome], run.stored, prev.requests + run.requests)
  {
    LastOfAppend(a, b);
  }

  lemma LastOfAppend<T>(a: seq<T>, b: seq<T>)
    requires b != []
    ensures (a + b)[..|a + b| - 1] == a + b[..|b| - 1] && (a + b)[|a + b| - 1] == b[|b| - 1]
  {
    assert (a + b)[..|a + b| - 1] == a + b[..|b| - 1];
  }

  /** The outcome for position i is `downloadGif(ids[i])` on the directory the
      ids before it left, answered as download number `base + i`. */
  lemma DownloadAllAt(stored: set<GroupId>, ids: seq<GroupId>, i: nat, base: nat, download: Downloader)
    requires i < |ids|
    ensures DownloadAll(stored, ids, base, download).outcomes[i]
         == download(DownloadAll(stored, ids[..i], base, download).stored, ids[i], base + i).outcome
  {
    DownloadAllAppend(stored, ids[..i + 1], ids[i + 1..], base, download);
    assert ids[..i + 1] + ids[i + 1..] == ids;
    assert ids[..i + 1][..i] == ids[..i];
  }

  /** A group listed twice is downloaded twice: when the first download fails
      on all three attempts without writing anything, the second download sends
      its own requests, and its first attempt may complete. */
  lemma RepeatedIdDownloadedAgain(id: GroupId, net: Network)
    requires forall k :: 1 <= k <= MaxAttempts ==> net(id, 0, k).Errored? && !net(id, 0, k).leftPartialFile
    requires net(id, 1, 1) == Completed
    ensures var b := DownloadAll({}, [id, id], 0, Downloads(net));
      && b.outcomes == [Failed(id, net(id, 0, 3).message), Downloaded(id)]
      && b.stored == {id}
      && b.requests == [Request(id, 1), Request(id, 2), Request(id, 3), Request(id, 1)]
  {
    var first := Download({}, id, 0, net);
    assert first == Run(Failed(id, net(id, 0, 3).message), {}, [Request(id, 1), Request(id, 2), Request(id, 3)]) by {
      DownloadFromCharacterized({}, id, 0, 1, net);
      assert LastAttempt(id, 0, net, 1) == 3 by {
        assert !EndsAttempts(net(id, 0, 1)) && !EndsAttempts(net(id, 0, 2));
      }
    }
    var second := Download({}, id, 1, net);
    assert second == Run(Downloaded(id), {id}, [Request(id, 1)]);
    DownloadAllSnoc({}, [], id, 0, Downloads(net));
    DownloadAllSnoc({}, [id], id, 0, Downloads(net));
    assert [] + [id] == [id] && [id] + [id] == [id, id];
  }

  /** When every id already has its file, nothing is requested, nothing is
      written, and every outcome is skipped. */
  lemma {:induction false} AllStoredAllSkipped(stored: set<GroupId>, ids: seq<GroupId>, base: nat, net: Network)
    requires forall i :: 0 <= i < |ids| ==> ids[i] in stored
    ensures DownloadAll(stored, ids, base, Downloads(net)) == BatchRun(seq(|ids|, i requires 0 <= i < |ids| => Skipped(ids[i])), stored, [])
    decreases |ids|
  {
    if ids != [] {
      var ids' := ids[..|ids| - 1];
      AllStoredAllSkipped(stored, ids', base, net);
      var b := DownloadAll(stored, ids, base, Downloads(net));
      assert b.outcomes == seq(|ids'|, i requires 0 <= i < |ids'| => Skipped(ids'[i])) + [Skipped(ids[|ids| - 1])];
    }
  }

  /** Running the fetcher again, on the directory the first run left and
      whatever the host answers then: every id that succeeded the first time is
      skipped; if all succeeded, the second run sends no request, writes
      nothing, reports every id as skipped and counts them all as successes. */
  lemma RerunSkipsSucceeded(stored: set<GroupId>, ids: seq<GroupId>, base: nat, net: Network, base': nat, net': Network)
    ensures var first := DownloadAll(stored, ids, base, Downloads(net));
      var second := DownloadAll(first.stored, ids, base', Downloads(net'));
      && (forall i :: 0 <= i < |ids| && first.outcomes[i].Success() ==> second.outcomes[i] == Skipped(ids[i]))
      && ((forall i :: 0 <= i < |ids| ==> first.outcomes[i].Success()) ==>
            && second == BatchRun(seq(|ids|, i requires 0 <= i < |ids| => Skipped(ids[i])), first.stored, [])
            && |Successes(second.outcomes)| == |ids|)
  {
    var first := DownloadAll(stored, ids, base, Downloads(net));
    var second := DownloadAll(first.stored, ids, base', Downloads(net'));
    DownloadAllOutcomes(stored, ids, base, net);
    forall i | 0 <= i < |ids| && first.outcomes[i].Success()
      ensures second.outcomes[i] == Skipped(ids[i])
    {
      DownloadAllAt(first.stored, ids, i, base', Downloads(net'));
      DownloadAllOutcomes(first.stored, ids[..i], base', net');
      var before := DownloadAll(first.stored, ids[..i], base', Downloads(net'));
      SkipsExistingFile(before.stored, ids[i], base' + i, net');
    }
    if forall i :: 0 <= i < |ids| ==> first.outcomes[i].Success() {
      AllStoredAllSkipped(first.stored, ids, base', net');
      SuccessCountExtremes(second.outcomes);
    }
  }

  /** The results whose `success` field is true, in their order. */
  function Successes(results: seq<Outcome>): (s: seq<Outcome>)
    ensures |s| <= |results|
    ensures forall i :: 0 <= i < |s| ==> s[i].Success()
  {
    if results == [] then []
    else (if results[0].Success() then [results[0]] else []) + Successes(results[1..])
  }

  /** The success count is the batch length iff every result is a success
      (skipped ones included), and zero iff every result is a failure. */
  lemma {:induction false} SuccessCountExtremes(results: seq<Outcome>)
    ensures |Successes(results)| == |results| <==> forall i :: 0 <= i < |results| ==> results[i].Success()
    ensures |Successes(results)| == 0 <==> forall i :: 0 <= i < |results| ==> !results[i].Success()
  {
    if results != [] {
      SuccessCountExtremes(results[1..]);
      assert forall i :: 1 <= i < |results| ==> results[i] == results[1..][i - 1];
    }
  }

  /** Counting the successes of two batches is adding their counts. */
  lemma {:induction false} SuccessesConcat(a: seq<Outcome>, b: seq<Outcome>)
    ensures Successes(a + b) == Successes(a) + Successes(b)
  {
    if a == [] {
      assert a + b == b;
    } else {
      assert (a + b)[1..] == a[1..] + b;
      SuccessesConcat(a[1..], b);
    }
  }

  /** The three ids of a first run that all complete on their first attempt. */
  lemma ThreeNewIdsAllDownloaded(net: Network)
    requires forall id, n :: net(id, n, 1) == Completed
    ensures var b := DownloadAll({}, [1, 2, 3], 0, Downloads(net));
      && b.outcomes == [Downloaded(1), Downloaded(2), Downloaded(3)]
      && b.stored == {1, 2, 3}
      && |Successes(b.outcomes)| == 3
  {
    var ids := [1, 2, 3];
    assert ids[..2] == [1, 2] && [1, 2][..1] == [1] && [1][..0] == [];
    var b := DownloadAll({}, ids, 0, Downloads(net));
    assert b.outcomes == [Downloaded(1), Downloaded(2), Downloaded(3)];
    SuccessCountExtremes(b.outcomes);
  }

  /** What the loop reports for one batch: the results and the two counts it logs. */
  datatype BatchReport = BatchReport(results: seq<Outcome>, successCount: nat, failCount: nat)

  /** A report for a batch of `size` ids: one result per id, the number of
      successful results, and the number of the others. */
  predicate Tallied(report: BatchReport, size: nat)
  {
    && |report.results| == size
    && report.successCount == |Successes(report.results)|
    && report.successCount + report.failCount == size
  }

  /** The results of all batches, in batch order. */
  function AllResults(reports: seq<BatchReport>): seq<Outcome>
  {
    if reports == [] then [] else AllResults(reports[..|reports| - 1]) + reports[|reports| - 1].results
  }

  lemma FlattenStep(batches: seq<seq<GroupId>>, i: nat)
    requires i < |batches|
    ensures Chunking.Flatten(batches[..i + 1]) == Chunking.Flatten(batches[..i]) + batches[i]
  {
    assert batches[..i + 1] == batches[..i] + [batches[i]];
    Chunking.FlattenConcat(batches[..i], [batches[i]]);
    assert Chunking.Flatten([batches[i]]) == batches[i] + Chunking.Flatten([batches[i]][1..]);
  }

  lemma AllResultsSnoc(reports: seq<BatchReport>, report: BatchReport)
    ensures AllResults(reports + [report]) == AllResults(reports) + report.results
  {
    assert (reports + [report])[..|reports|] == reports;
  }

  /** What the batch loop has done once it has handled the first |reports|
      batches, starting from the stored ids `start` and download number `base`:
      one tallied report per batch, and the directory, the requests sent, the
      results and the number of downloads are those of downloading those
      batches' ids in order. */
  predicate BatchesDone(start: set<GroupId>, base: nat, batches: seq<seq<GroupId>>, download: Downloader,
                        reports: seq<BatchReport>, stored: set<GroupId>, sent: seq<Request>, started: nat)
  {
    && |reports| <= |batches|
    && (forall k :: 0 <= k < |reports| ==> Tallied(reports[k], |batches[k]|))
    && var ids := Chunking.Flatten(batches[..|reports|]);
       var done := DownloadAll(start, ids, base, download);
       stored == done.stored && sent == done.requests && AllResults(reports) == done.outcomes
       && started == base + |ids|
  }

  lemma BatchesDoneStep(start: set<GroupId>, base: nat, batches: seq<seq<GroupId>>, download: Downloader,
                        reports: seq<BatchReport>, stored: set<GroupId>, sent: seq<Request>, started: nat,
                        report: BatchReport)
    requires BatchesDone(start, base, batches, download, reports, stored, sent, started)
    requires |reports| < |batches|
    requires report.results == DownloadAll(stored, batches[|reports|], started, download).outcomes
    requires Tallied(report, |batches[|reports|]|)
    ensures var b := DownloadAll(stored, batches[|reports|], started, download);
      BatchesDone(start, base, batches, download, reports + [report], b.stored, sent + b.requests,
                  started + |batches[|reports|]|)
  {
    var i := |reports|;
    var ids := Chunking.Flatten(batches[..i]);
    FlattenStep(batches, i);
    assert |Chunking.Flatten(batches[..i + 1])| == |ids| + |batches[i]|;
    DownloadAllAppend(start, ids, batches[i], base, download);
    AllResultsSnoc(reports, report);
    var reports' := reports + [report];
    forall k | 0 <= k < |reports'|
      ensures Tallied(reports'[k], |batches[k]|)
    {
      if k < i {
        assert reports'[k] == reports[k];
      }
    }
  }

  /** The `gifs` directory, the requests sent to the image host so far, and
      how many downloads the host has seen. */
  class GifFolder {
    /** The group ids whose `<groupId>.gif` exists. */
    var stored: set<GroupId>
    /** The GETs sent to the image host, in order. */
    var requests: seq<Request>
    /** The number of `downloadGif(id)` calls started so far (retries not counted). */
    var started: nat

    constructor (existing: set<GroupId>)
      ensures stored == existing && requests == [] && started == 0
    {
      stored := existing;
      requests := [];
      started := 0;
    }

    /** `downloadGif(id)`, its recursion over `attempt` written as a bounded loop. */
    method DownloadGif(id: GroupId, net: Network) returns (outcome: Outcome)
      modifies this
      ensures var run := Download(old(stored), id, old(started), net);
        outcome == run.outcome && stored == run.stored && requests == old(requests) + run.requests
      ensures started == old(started) + 1
    {
      var nth := started;
      started := started + 1;
      ghost var run := Download(stored, id, nth, net);
      var attempt := 1;
      var done := false;
      outcome := Skipped(id);
      while !done
        invariant 1 <= attempt <= MaxAttempts
        invariant started == old(started) + 1
        invariant !done ==>
          var rest := DownloadFrom(stored, id, nth, attempt, net);
          rest.outcome == run.outcome && rest.stored == run.stored
          && requests + rest.requests == old(requests) + run.requests
        invariant done ==>
          outcome == run.outcome && stored == run.stored && requests == old(requests) + run.requests
        decreases !done, MaxAttempts - attempt
      {
        if id in stored {
          outcome := Skipped(id);
          done := true;
        } else {
          label Before:
          requests := requests + [Request(id, attempt)];
          match net(id, nth, attempt)
          case Completed =>
            stored := stored + {id};
            outcome := Downloaded(id);
            done := true;
          case Errored(message, partial) =>
            if partial {
              stored := stored + {id};
            }
            if attempt < MaxAttempts {
              ConcatAssoc(old@Before(requests), [Request(id, attempt)], DownloadFrom(stored, id, nth, attempt + 1, net).requests);
              attempt := attempt + 1;
            } else {
              outcome := Failed(id, message);
              done := true;
            }
        }
      }
    }

    /** One batch: `downloadGif` for each id in order, then the success and
        failure counts of its results. */
    method DownloadBatch(batch: seq<GroupId>, net: Network) returns (report: BatchReport)
      modifies this
      ensures var b := DownloadAll(old(stored), batch, old(started), Downloads(net));
        report.results == b.outcomes && stored == b.stored && requests == old(requests) + b.requests
      ensures started == old(started) + |batch|
      ensures Tallied(report, |batch|)
    {
      var results: seq<Outcome> := [];
      for j := 0 to |batch|
        invariant started == old(started) + j
        invariant PrefixDone(old(stored), batch[..j], old(started), Downloads(net), results, stored, old(requests), requests)
      {
        ghost var storedBefore, requestsBefore := stored, requests;
        var outcome := DownloadGif(batch[j], net);
        PrefixDoneStep(old(stored), batch, j, old(started), Downloads(net), results, storedBefore, old(requests), requestsBefore,
                       outcome, stored, requests);
        results := results + [outcome];
      }
      assert batch[..|batch|] == batch;
      var successCount := |Successes(results)|;
      var failCount := |results| - successCount;
      report := BatchReport(results, successCount, failCount);
    }

    /** The `/scrape-gifs` handler: chunk the ids into batches of `BatchSize`
        and download the batches strictly one after another. */
    method ScrapeGifs(ids: seq<GroupId>, net: Network) returns (reports: seq<BatchReport>)
      modifies this
      ensures var all := DownloadAll(old(stored), ids, old(started), Downloads(net));
        stored == all.stored && requests == old(requests) + all.requests && AllResults(reports) == all.outcomes
      ensures started == old(started) + |ids|
      ensures |reports| == |Chunking.Chunks(ids, BatchSize)|
      ensures forall i :: 0 <= i < |reports| ==> Tallied(reports[i], |Chunking.Chunks(ids, BatchSize)[i]|)
    {
      var batches := Chunking.ChunkArray(ids, BatchSize);
      reports := [];
      ghost var sent: seq<Request> := [];
      assert batches[..0] == [];
      for i := 0 to |batches|
        invariant |reports| == i
        invariant requests == old(requests) + sent
        invariant BatchesDone(old(stored), old(started), batches, Downloads(net), reports, stored, sent, started)
      {
        ghost var storedBefore := stored;
        ghost var startedBefore := started;
        var report := DownloadBatch(batches[i], net);
        BatchesDoneStep(old(stored), old(started), batches, Downloads(net), reports, storedBefore, sent, startedBefore, report);
        ghost var b := DownloadAll(storedBefore, batches[i], startedBefore, Downloads(net));
        ConcatAssoc(old(requests), sent, b.requests);
        sent := sent + b.requests;
        reports := reports + [report];
      }
      assert batches[..|batches|] == batches;
    }
  }
}
