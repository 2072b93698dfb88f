/** The job-JSON scraper of index.js: the `Cookie` header built from the
    browser's cookies, and the `/scrape` loop that fetches one search result
    per group id, saves it as `<groupId>.json` and counts the groups done.

    The `scraped` directory is a map from group id to the text of its file;
    minting the cookies, the search GET and the file write of one iteration
    are an oracle that either yields the text to save or fails. */
module JobScraper {

  type GroupId = int

  /** A browser cookie: only its name and value are used. */
  datatype Cookie = Cookie(name: string, value: string)

  /** One cookie as it appears in the header: its name, an equals sign, its value. */
  function CookiePair(c: Cookie): string
  {
    c.name + "=" + c.value
  }

  /** The `Cookie` request header: the cookies' `name=value` pairs in list
      order, with "; " between each two neighbours. */
  function CookieHeader(cookies: seq<Cookie>): (h: string)
    ensures |h| == 0 <==> cookies == []
  {
    if cookies == [] then ""
    else if |cookies| == 1 then CookiePair(cookies[0])
    else CookiePair(cookies[0]) + "; " + CookieHeader(cookies[1..])
  }

  /** The header of two non-empty cookie lists one after the other is their
      headers joined by "; ": the pairs stay in list order. */
  lemma {:induction false} CookieHeaderConcat(a: seq<Cookie>, b: seq<Cookie>)
    requires a != [] && b != []
    ensures CookieHeader(a + b) == CookieHeader(a) + "; " + CookieHeader(b)
  {
    if |a| == 1 {
      assert (a + b)[0] == a[0] && (a + b)[1..] == b;
    } else {
      assert (a + b)[0] == a[0] && (a + b)[1..] == a[1..] + b;
      CookieHeaderConcat(a[1..], b);
    }
  }

  /** The total length of the cookies' `name=value` pairs. */
  function PairsLength(cookies: seq<Cookie>): nat
  {
    if cookies == [] then 0 else |CookiePair(cookies[0])| + PairsLength(cookies[1..])
  }

  /** The header holds the pairs and one "; " between each two neighbours, nothing else. */
  lemma {:induction false} CookieHeaderLength(cookies: seq<Cookie>)
    requires cookies != []
    ensures |CookieHeader(cookies)| == PairsLength(cookies) + 2 * (|cookies| - 1)
  {
    if |cookies| > 1 {
      CookieHeaderLength(cookies[1..]);
    }
  }

  /** What one iteration of the loop gets: the pretty-printed JSON of the
      search response, to be saved, or the message of the error it caught. */
  datatype FetchResult = Fetched(body: string) | FetchFailed(message: string)

  /** Cookies, search GET and write for the group at position `i` of the list. */
  type Fetcher = (GroupId, nat) -> FetchResult

  /** `doneCount` after the loop has handled `ids`: one more per fetched group. */
  function DoneCount(ids: seq<GroupId>, fetch: Fetcher): (n: nat)
    ensures n <= |ids|
    decreases |ids|
  {
    if ids == [] then 0
    else
      var i := |ids| - 1;
      DoneCount(ids[..i], fetch) + (if fetch(ids[i], i).Fetched? then 1 else 0)
  }

  /** The positions of the list whose group was fetched and saved. */
  ghost function FetchedPositions(ids: seq<GroupId>, fetch: Fetcher): set<nat>
  {
    set i: nat | i < |ids| && fetch(ids[i], i).Fetched?
  }

  /** `doneCount` is the number of groups that succeeded. */
  lemma {:induction false} DoneCountCountsSuccesses(ids: seq<GroupId>, fetch: Fetcher)
    ensures DoneCount(ids, fetch) == |FetchedPositions(ids, fetch)|
    decreases |ids|
  {
    if ids != [] {
      var i := |ids| - 1;
      var ids' := ids[..i];
      DoneCountCountsSuccesses(ids', fetch);
      var before := FetchedPositions(ids', fetch);
      var after := FetchedPositions(ids, fetch);
      if fetch(ids[i], i).Fetched? {
        assert after == before + {i};
        assert i !in before;
      } else {
        assert after == before;
      }
    }
  }

  /** The `scraped` directory after the loop has handled `ids`, starting from `files`. */
  function SavedFiles(files: map<GroupId, string>, ids: seq<GroupId>, fetch: Fetcher): (m: map<GroupId, string>)
    ensures files.Keys <= m.Keys
    decreases |ids|
  {
    if ids == [] then files
    else
      var i := |ids| - 1;
      var prev := SavedFiles(files, ids[..i], fetch);
      match fetch(ids[i], i)
      case Fetched(body) => prev[ids[i] := body]
      case FetchFailed(_) => prev
  }

  /** A group's file holds the text of its last successful fetch: a repeated
      group's later success overwrites an earlier one. */
  lemma {:induction false} SavedFilesKeepLastSuccess(files: map<GroupId, string>, ids: seq<GroupId>, fetch: Fetcher, i: nat)
    requires i < |ids| && fetch(ids[i], i).Fetched?
    requires forall j :: i < j < |ids| && ids[j] == ids[i] ==> !fetch(ids[j], j).Fetched?
    ensures ids[i] in SavedFiles(files, ids, fetch)
    ensures SavedFiles(files, ids, fetch)[ids[i]] == fetch(ids[i], i).body
    decreases |ids|
  {
    var n := |ids| - 1;
    if i < n {
      SavedFilesKeepLastSuccess(files, ids[..n], fetch, i);
    }
  }

  /** A group none of whose fetches succeeded keeps the file it had (or still has none). */
  lemma {:induction false} SavedFilesUntouched(files: map<GroupId, string>, ids: seq<GroupId>, fetch: Fetcher, g: GroupId)
    requires forall j :: 0 <= j < |ids| && ids[j] == g ==> !fetch(ids[j], j).Fetched?
    ensures g in SavedFiles(files, ids, fetch) <==> g in files
    ensures g in files ==> SavedFiles(files, ids, fetch)[g] == files[g]
    decreases |ids|
  {
    if ids != [] {
      SavedFilesUntouched(files, ids[..|ids| - 1], fetch, g);
    }
  }

  /** The `scraped` directory, and the groups the loop has started to scrape. */
  class JsonFolder {
    /** The text of `<groupId>.json` for each group that has a file. */
    var files: map<GroupId, string>
    /** The groups whose scrape was started (cookies, then GET), in order. */
    var attempted: seq<GroupId>

    constructor (existing: map<GroupId, string>)
      ensures files == existing && attempted == []
    {
      files := existing;
      attempted := [];
    }

    /** The `/scrape` handler: for each group in turn, the `try` computes
        `pendingCount`, scrapes and saves the group's file and counts it as
        done; the `catch` swallows the failure and the loop goes on. Returns
        `doneCount` and the `pendingCount` each iteration logged. */
    method Scrape(groupIds: seq<GroupId>, fetch: Fetcher) returns (doneCount: nat, pendingCounts: seq<int>)
      modifies this
      ensures attempted == old(attempted) + groupIds
      ensures files == SavedFiles(old(files), groupIds, fetch)
      ensures doneCount == DoneCount(groupIds, fetch) && doneCount <= |groupIds|
      ensures |pendingCounts| == |groupIds|
      ensures forall i :: 0 <= i < |groupIds| ==>
        pendingCounts[i] == |groupIds| - DoneCount(groupIds[..i], fetch) && pendingCounts[i] >= |groupIds| - i
    {
      var totalGroups := |groupIds|;
      doneCount := 0;
      pendingCounts := [];
      for i := 0 to |groupIds|
        invariant doneCount == DoneCount(groupIds[..i], fetch)
        invariant files == SavedFiles(old(files), groupIds[..i], fetch)
        invariant attempted == old(attempted) + groupIds[..i]
        invariant |pendingCounts| == i
        invariant forall k :: 0 <= k < i ==>
          pendingCounts[k] == totalGroups - DoneCount(groupIds[..k], fetch) && pendingCounts[k] >= totalGroups - k
      {
        assert groupIds[..i + 1][..i] == groupIds[..i];
        var groupId := groupIds[i];
        var pendingCount := totalGroups - doneCount;
        pendingCounts := pendingCounts + [pendingCount];
        attempted := attempted + [groupId];
        match fetch(groupId, i)
        case Fetched(body) =>
          files := files[groupId := body];
          doneCount := doneCount + 1;
        case FetchFailed(_) =>
      }
      assert groupIds[..|groupIds|] == groupIds;
    }
  }
}
