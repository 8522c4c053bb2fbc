/** The history pager behind search and export. The store is sampled once per page request; between requests it
    may grow at its newest end, and stored messages may be edited or tombstoned in place. */
module HistoryScan {

  /** One stored message; `readable` is false when its body could not be opened. */
  datatype Entry = Entry(id: int, deleted: bool, readable: bool, body: string)

  const SEARCH_PAGE := 200
  const STORE_PAGE_CAP := 200
  const DEFAULT_PAGE := 50
  const EXPORT_DEFAULT_MAX := 100000

  function Ids(h: seq<Entry>): seq<int> {
    seq(|h|, i requires 0 <= i < |h| => h[i].id)
  }

  /** A scope's history, oldest first: positive ids in increasing order. */
  ghost predicate Ordered(h: seq<Entry>) {
    && (forall i :: 0 <= i < |h| ==> 0 < h[i].id)
    && forall i, j :: 0 <= i < j < |h| ==> h[i].id < h[j].id
  }

  /** `at(k)` is the history the k-th request finds. */
  ghost predicate Growing(at: nat -> seq<Entry>) {
    && (forall k: nat :: Ordered(at(k)))
    && forall k: nat :: Ids(at(0)) <= Ids(at(k))
  }

  // ---------------------------------------------------------------------------------------------
  // One page

  /** The limit the server passes on, and the one the store then uses. */
  function ServedLimit(limit: int, guest: bool): (n: nat)
    ensures 1 <= n <= STORE_PAGE_CAP
    ensures guest ==> n <= DEFAULT_PAGE
  {
    var asked := if guest && (limit <= 0 || limit > 50) then 50 else limit;
    if asked <= 0 || asked > STORE_PAGE_CAP then DEFAULT_PAGE else asked
  }

  /** How many entries lie strictly below `before`; all of them when `before` is zero. */
  function Below(h: seq<Entry>, before: int): (n: nat)
    ensures n <= |h|
  {
    if h == [] then 0
    else if before <= 0 || h[|h| - 1].id < before then |h|
    else Below(h[..|h| - 1], before)
  }

  function Reversed<T>(s: seq<T>): seq<T> {
    seq(|s|, i requires 0 <= i < |s| => s[|s| - 1 - i])
  }

  /** Up to `limit` entries below `before`, newest first. */
  function Page(h: seq<Entry>, before: int, limit: nat): seq<Entry> {
    var n := Below(h, before);
    Reversed(h[if n < limit then 0 else n - limit..n])
  }

  lemma {:induction false} BelowEntry(h: seq<Entry>, n: nat)
    requires Ordered(h) && n < |h|
    ensures Below(h, h[n].id) == n
    decreases |h|
  {
    if n < |h| - 1 {
      BelowEntry(h[..|h| - 1], n);
    } else {
      assert Below(h, h[n].id) == Below(h[..n], h[n].id);
    }
  }

  // ---------------------------------------------------------------------------------------------
  // The scan

  /** The newest `n` of the ids, newest first. */
  function Newest(ids: seq<int>, n: nat): seq<int>
    requires n <= |ids|
  {
    Reversed(ids)[..n]
  }

  /** The place the next page starts from, after `scanned` entries of the first history. */
  ghost predicate Cursor(ids: seq<int>, scanned: nat, before: int) {
    && scanned <= |ids|
    && if scanned == 0 then before == 0 else before == ids[|ids| - scanned]
  }

  lemma BelowCursor(first: seq<Entry>, h: seq<Entry>, scanned: nat, before: int)
    requires Ordered(h) && Ids(first) <= Ids(h) && Cursor(Ids(first), scanned, before)
    requires scanned == 0 ==> h == first
    ensures Below(h, before) == |first| - scanned
  {
    if scanned > 0 {
      var left := |first| - scanned;
      assert Ids(h)[left] == Ids(first)[left] == before;
      BelowEntry(h, left);
    }
  }

  lemma PageEntry(h: seq<Entry>, before: int, limit: nat, i: nat)
    requires i < |Page(h, before, limit)|
    ensures i < Below(h, before) && Page(h, before, limit)[i] == h[Below(h, before) - 1 - i]
  {
  }

  lemma PageIds(ids: seq<int>, h: seq<Entry>, before: int, limit: nat)
    requires ids <= Ids(h) && Below(h, before) <= |ids|
    ensures var page, left := Page(h, before, limit), Below(h, before);
            |page| == (if left < limit then left else limit) && ReadsBack(ids, left, page)
  {
    var page, left := Page(h, before, limit), Below(h, before);
    forall i | 0 <= i < |page| ensures page[i].id == ids[left - 1 - i] {
      PageEntry(h, before, limit, i);
      assert Ids(h)[left - 1 - i] == ids[left - 1 - i];
    }
  }

  lemma NewestExtends(ids: seq<int>, n: nat, more: seq<int>)
    requires n + |more| <= |ids| && forall i :: 0 <= i < |more| ==> more[i] == ids[|ids| - n - 1 - i]
    ensures Newest(ids, n) + more == Newest(ids, n + |more|)
  {
    forall i | n <= i < n + |more| ensures (Newest(ids, n) + more)[i] == Newest(ids, n + |more|)[i] {
      assert (Newest(ids, n) + more)[i] == more[i - n];
    }
  }

  /** The page reads the ids below position `left` backwards. */
  ghost predicate ReadsBack(ids: seq<int>, left: nat, page: seq<Entry>) {
    |page| <= left <= |ids| && forall i :: 0 <= i < |page| ==> page[i].id == ids[left - 1 - i]
  }

  /** The page takes the walk over the ids on, without gap or repeat, and leaves the cursor behind it. */
  ghost predicate Continues(ids: seq<int>, scanned: nat, page: seq<Entry>) {
    && scanned + |page| <= |ids|
    && Newest(ids, scanned) + Ids(page) == Newest(ids, scanned + |page|)
    && (page != [] ==> Cursor(ids, scanned + |page|, page[|page| - 1].id))
  }

  lemma PageFits(ids: seq<int>, scanned: nat, page: seq<Entry>)
    requires scanned <= |ids| && ReadsBack(ids, |ids| - scanned, page)
    ensures Continues(ids, scanned, page)
  {
    NewestExtends(ids, scanned, Ids(page));
  }

  /** A page fetched at the cursor continues the walk over the first history. */
  lemma PageContinues(first: seq<Entry>, h: seq<Entry>, scanned: nat, before: int, limit: nat)
    requires Ordered(h) && Ids(first) <= Ids(h) && Cursor(Ids(first), scanned, before) && limit > 0
    requires scanned == 0 ==> h == first
    ensures var page, left := Page(h, before, limit), |first| - scanned;
            |page| == (if left < limit then left else limit) && Continues(Ids(first), scanned, page)
  {
    BelowCursor(first, h, scanned, before);
    PageIds(Ids(first), h, before, limit);
    PageFits(Ids(first), scanned, Page(h, before, limit));
  }

  /** The state of a scan between two pages. */
  ghost predicate Walked(first: seq<Entry>, visited: seq<Entry>, before: int) {
    Cursor(Ids(first), |visited|, before) && Ids(visited) == Newest(Ids(first), |visited|)
  }

  lemma WalkOn(at: nat -> seq<Entry>, request: nat, visited: seq<Entry>, before: int, limit: nat)
    requires Growing(at) && Walked(at(0), visited, before) && limit > 0 && (visited == [] ==> request == 0)
    ensures var page, left := Page(at(request), before, limit), |at(0)| - |visited|;
            && |page| == (if left < limit then left else limit)
            && (page != [] ==> Walked(at(0), visited + page, page[|page| - 1].id))
  {
    PageContinues(at(0), at(request), |visited|, before, limit);
    var page := Page(at(request), before, limit);
    if page != [] {
      WalkedOver(at(0), visited, before, page);
    }
  }

  lemma WalkedOver(first: seq<Entry>, visited: seq<Entry>, before: int, page: seq<Entry>)
    requires Walked(first, visited, before) && Continues(Ids(first), |visited|, page) && page != []
    ensures Walked(first, visited + page, page[|page| - 1].id)
  {
    IdsConcat(visited, page);
  }

  /** Hands every entry of a page to the visitor, counting it. */
  method VisitPage(visited: seq<Entry>, scanned: nat, page: seq<Entry>) returns (visited': seq<Entry>, scanned': nat)
    ensures visited' == visited + page && scanned' == scanned + |page|
  {
    visited', scanned' := visited, scanned;
    for i := 0 to |page|
      invariant scanned' == scanned + i && visited' == visited + page[..i]
    {
      scanned' := scanned' + 1;
      visited' := visited' + [page[i]];
    }
    assert page[..|page|] == page;
  }

  /** The page with the oldest message, or the empty one after a last full page, is asked for. */
  predicate ReachesStart(total: nat, maxMessages: int) {
    SEARCH_PAGE * (total / SEARCH_PAGE) < maxMessages
  }

  ghost predicate NoneFails(fails: nat -> bool, last: nat) {
    forall k: nat :: k <= last ==> !fails(k)
  }

  datatype Scan = Scan(scanned: nat, complete: bool, failed: bool)

  /** Page `k` failed after only full pages. */
  ghost predicate StoppedAt(fails: nat -> bool, k: nat, scanned: nat) {
    0 < k && fails(k) && scanned == SEARCH_PAGE * k && NoneFails(fails, k - 1)
  }

  /** How a registered user's scan of `total` messages ends: with an error exactly when the first page fails; complete,
      and then with everything, exactly when no page down to the oldest message failed and the limit let it ask for
      the one after the last full page; otherwise after full pages only, at the limit or before a page that failed. */
  ghost predicate MemberScan(total: nat, fails: nat -> bool, maxMessages: int, r: Scan) {
    && (r.failed <==> maxMessages > 0 && fails(0))
    && (r.complete <==> ReachesStart(total, maxMessages) && NoneFails(fails, total / SEARCH_PAGE))
    && (r.complete ==> r.scanned == total)
    && (r.scanned == 0 || r.scanned < maxMessages + SEARCH_PAGE)
    && (!r.complete && !r.failed ==> r.scanned >= maxMessages || exists k: nat :: StoppedAt(fails, k, r.scanned))
  }

  /** How a guest's scan ends: the server caps its pages at 50, so the first one always looks like the last, and the
      scan then claims completeness, which is true exactly when the history fits in that page. */
  ghost predicate GuestScan(total: nat, fails: nat -> bool, maxMessages: int, r: Scan) {
    && (r.failed <==> maxMessages > 0 && fails(0))
    && (r.complete <==> maxMessages > 0 && !fails(0))
    && r.scanned == (if !r.complete then 0 else if total < DEFAULT_PAGE then total else DEFAULT_PAGE)
    && (r.complete ==> (r.scanned == total <==> total <= DEFAULT_PAGE))
  }

  ghost predicate Ends(total: nat, fails: nat -> bool, guest: bool, maxMessages: int, r: Scan) {
    if guest then GuestScan(total, fails, maxMessages, r) else MemberScan(total, fails, maxMessages, r)
  }

  /** Full pages up to `request` have been scanned. */
  ghost predicate Underway(total: nat, fails: nat -> bool, maxMessages: int, request: nat) {
    && SEARCH_PAGE * request <= total
    && (request > 0 ==> SEARCH_PAGE * (request - 1) < maxMessages && NoneFails(fails, request - 1))
  }

  lemma FailedPageEnds(total: nat, fails: nat -> bool, guest: bool, maxMessages: int, request: nat)
    requires Underway(total, fails, maxMessages, request) && SEARCH_PAGE * request < maxMessages && fails(request)
    requires guest ==> request == 0
    ensures Ends(total, fails, guest, maxMessages, Scan(SEARCH_PAGE * request, false, request == 0))
  {
    assert request <= total / SEARCH_PAGE;
    if request > 0 {
      assert StoppedAt(fails, request, SEARCH_PAGE * request);
    }
  }

  /** A page of `n` that is not full ends the scan; a guest's never is. */
  lemma ShortPageEnds(total: nat, fails: nat -> bool, guest: bool, maxMessages: int, request: nat, n: nat)
    requires Underway(total, fails, maxMessages, request) && SEARCH_PAGE * request < maxMessages && !fails(request)
    requires guest ==> request == 0
    requires var left, limit := total - SEARCH_PAGE * request, ServedLimit(SEARCH_PAGE, guest);
             n == (if left < limit then left else limit) && n < SEARCH_PAGE
    ensures Ends(total, fails, guest, maxMessages, Scan(SEARCH_PAGE * request + n, true, false))
  {
    if !guest {
      assert total / SEARCH_PAGE == request;
    }
  }

  lemma LimitEnds(total: nat, fails: nat -> bool, guest: bool, maxMessages: int, request: nat)
    requires Underway(total, fails, maxMessages, request) && SEARCH_PAGE * request >= maxMessages
    requires guest ==> request == 0
    ensures Ends(total, fails, guest, maxMessages, Scan(SEARCH_PAGE * request, false, false))
  {
    assert request <= total / SEARCH_PAGE;
    assert SEARCH_PAGE * request <= SEARCH_PAGE * (total / SEARCH_PAGE);
  }

  lemma FullPageGoesOn(total: nat, fails: nat -> bool, maxMessages: int, request: nat)
    requires Underway(total, fails, maxMessages, request) && SEARCH_PAGE * request < maxMessages && !fails(request)
    requires SEARCH_PAGE * (request + 1) <= total
    ensures Underway(total, fails, maxMessages, request + 1)
  {
  }

  /** chatScan over the histories `at`, where request `k` fails exactly when `fails(k)`. What it visits is the
      newest part of the history found by the first request, in order and without gaps. */
  method ChatScan(at: nat -> seq<Entry>, fails: nat -> bool, guest: bool, maxMessages: int)
    returns (visited: seq<Entry>, scanned: nat, complete: bool, failed: bool)
    requires Growing(at)
    ensures |visited| == scanned <= |at(0)|
    ensures Ids(visited) == Newest(Ids(at(0)), scanned)
    ensures Ends(|at(0)|, fails, guest, maxMessages, Scan(scanned, complete, failed))
  {
    visited, scanned := [], 0;
    var before, request := 0, 0;
    while scanned < maxMessages
      invariant |visited| == scanned == SEARCH_PAGE * request && Walked(at(0), visited, before)
      invariant guest ==> request == 0
      invariant Underway(|at(0)|, fails, maxMessages, request)
      decreases maxMessages - scanned
    {
      if fails(request) {
        FailedPageEnds(|at(0)|, fails, guest, maxMessages, request);
        return visited, scanned, false, scanned == 0;
      }
      var page := Page(at(request), before, ServedLimit(SEARCH_PAGE, guest));
      WalkOn(at, request, visited, before, ServedLimit(SEARCH_PAGE, guest));
      if |page| < SEARCH_PAGE {
        ShortPageEnds(|at(0)|, fails, guest, maxMessages, request, |page|);
      } else {
        FullPageGoesOn(|at(0)|, fails, maxMessages, request);
      }
      if |page| == 0 {
        return visited, scanned, true, false;
      }
      visited, scanned := VisitPage(visited, scanned, page);
      before := page[|page| - 1].id;
      if |page| < SEARCH_PAGE {
        return visited, scanned, true, false;
      }
      request := request + 1;
    }
    LimitEnds(|at(0)|, fails, guest, maxMessages, request);
    complete, failed := false, false;
  }

  /** For instance: of 51 messages a guest's search sees 50, and reports itself complete. */
  method GuestMissesOldest() returns (scanned: nat, complete: bool)
    ensures scanned == 50 && complete
  {
    var history := seq(51, i => Entry(i + 1, false, true, ""));
    var at := (k: nat) => history;
    assert Growing(at);
    var visited, failed;
    visited, scanned, complete, failed := ChatScan(at, k => false, true, 2000);
  }

  lemma IdsConcat(a: seq<Entry>, b: seq<Entry>)
    ensures Ids(a + b) == Ids(a) + Ids(b)
  {
  }

  /** A newest-first walk over ordered ids never meets an id twice, and misses none above its end. */
  lemma NewestIsGapFree(h: seq<Entry>, n: nat)
    requires Ordered(h) && n <= |h|
    ensures var walk := Newest(Ids(h), n);
            && (forall i, j :: 0 <= i < j < n ==> walk[j] < walk[i])
            && forall k :: 0 <= k < |h| ==> (h[k].id in walk <==> |h| - n <= k)
  {
    var walk := Newest(Ids(h), n);
    assert forall i :: 0 <= i < n ==> walk[i] == h[|h| - 1 - i].id;
    forall k | 0 <= k < |h| ensures h[k].id in walk <==> |h| - n <= k {
      if |h| - n <= k {
        assert walk[|h| - 1 - k] == h[k].id;
      }
    }
  }

  // ---------------------------------------------------------------------------------------------
  // Export

  datatype Line = Notice(messages: nat, unreadable: nat, complete: bool) | Message(entry: Entry)

  function LinesOf(h: seq<Entry>): seq<Line> {
    seq(|h|, i requires 0 <= i < |h| => Message(h[i]))
  }

  function Unreadable(h: seq<Entry>): nat {
    if h == [] then 0
    else Unreadable(h[..|h| - 1]) + if !h[|h| - 1].deleted && !h[|h| - 1].readable then 1 else 0
  }

  /** The places of the entries that are neither tombstones nor readable. */
  function HiddenPlaces(h: seq<Entry>): set<nat> {
    set i: nat | i < |h| && !h[i].deleted && !h[i].readable
  }

  lemma LastPlace(h: seq<Entry>, e: Entry)
    ensures HiddenPlaces(h + [e]) == HiddenPlaces(h) + if !e.deleted && !e.readable then {|h|} else {}
  {
  }

  /** The count is that of the entries neither deleted nor readable, and zero exactly when there is none. */
  lemma {:induction false} UnreadableCounts(h: seq<Entry>)
    ensures Unreadable(h) == |HiddenPlaces(h)|
    ensures Unreadable(h) == 0 <==> HiddenPlaces(h) == {}
  {
    if h == [] {
    } else {
      var front, last := h[..|h| - 1], h[|h| - 1];
      UnreadableCounts(front);
      LastPlace(front, last);
      assert h == front + [last];
    }
  }

  /** The swap loop that turns newest-first into oldest-first. */
  method ReverseInPlace<T>(lines: array<T>)
    modifies lines
    ensures lines[..] == Reversed(old(lines[..]))
  {
    var i, j := 0, lines.Length - 1;
    while i < j
      invariant 0 <= i <= j + 1 && i + j == lines.Length - 1
      invariant forall k :: 0 <= k < lines.Length ==>
                  lines[k] == if i <= k <= j then old(lines[k]) else old(lines[lines.Length - 1 - k])
    {
      lines[i], lines[j] := lines[j], lines[i];
      i, j := i + 1, j - 1;
    }
  }

  /** The collecting loop of the export: one line per visited entry, and the count of unreadable ones. */
  method CollectLines(visited: seq<Entry>) returns (lines: array<Line>, unreadable: nat)
    ensures fresh(lines) && lines[..] == LinesOf(visited) && unreadable == Unreadable(visited)
  {
    lines := new Line[|visited|](i => Notice(0, 0, false));
    unreadable := 0;
    for i := 0 to |visited|
      invariant forall k :: 0 <= k < i ==> lines[k] == Message(visited[k])
      invariant unreadable == Unreadable(visited[..i])
    {
      assert visited[..i + 1][..i] == visited[..i];
      if !visited[i].deleted && !visited[i].readable {
        unreadable := unreadable + 1;
      }
      lines[i] := Message(visited[i]);
    }
    assert visited[..|visited|] == visited;
  }

  /** The visited entries oldest first are a suffix of the first history. */
  lemma OldestFirstIsSuffix(ids: seq<int>, visited: seq<Entry>)
    requires |visited| <= |ids| && Ids(visited) == Newest(ids, |visited|)
    ensures Ids(Reversed(visited)) == ids[|ids| - |visited|..]
  {
    forall i | 0 <= i < |visited| ensures Reversed(visited)[i].id == ids[|ids| - |visited| + i] {
      assert Ids(visited)[|visited| - 1 - i] == Reversed(ids)[|visited| - 1 - i];
    }
  }

  /** The notice, when there is something to say, and one line per message. */
  function Transcript(shown: seq<Entry>, complete: bool): seq<Line> {
    var unreadable := Unreadable(Reversed(shown));
    (if complete && unreadable == 0 then [] else [Notice(|shown|, unreadable, complete)]) + LinesOf(shown)
  }

  lemma WholeSuffix(ids: seq<int>, n: nat)
    requires n == |ids|
    ensures ids[|ids| - n..] == ids
  {
  }

  lemma ReversedLines(visited: seq<Entry>, lines: seq<Line>)
    requires lines == Reversed(LinesOf(visited))
    ensures lines == LinesOf(Reversed(visited)) && Reversed(Reversed(visited)) == visited
  {
  }

  /** The part of ChatExportHistory after the scan. */
  method WriteTranscript(visited: seq<Entry>, complete: bool) returns (text: seq<Line>)
    ensures text == Transcript(Reversed(visited), complete)
  {
    var lines, unreadable := CollectLines(visited);
    ReverseInPlace(lines);
    text := lines[..];
    ReversedLines(visited, text);
    if !complete || unreadable > 0 {
      text := [Notice(|visited|, unreadable, complete)] + text;
    }
  }

  /** ChatExportHistory: the transcript is the newest part of the first history, oldest first, headed by a
      notice exactly when it is partial or holds an unreadable message. */
  method ExportHistory(at: nat -> seq<Entry>, fails: nat -> bool, guest: bool, maxMessages: int)
    returns (text: seq<Line>, ghost shown: seq<Entry>, complete: bool, failed: bool)
    requires Growing(at)
    ensures failed ==> text == []
    ensures !failed ==> |shown| <= |at(0)| && Ids(shown) == Ids(at(0))[|at(0)| - |shown|..]
    ensures !failed ==> text == Transcript(shown, complete)
    ensures complete && !guest ==> Ids(shown) == Ids(at(0))
    ensures var limit := if maxMessages <= 0 then EXPORT_DEFAULT_MAX else maxMessages;
            Ends(|at(0)|, fails, guest, limit, Scan(|shown|, complete, failed))
  {
    var limit := if maxMessages <= 0 then EXPORT_DEFAULT_MAX else maxMessages;
    var visited, scanned;
    visited, scanned, complete, failed := ChatScan(at, fails, guest, limit);
    shown := Reversed(visited);
    if failed {
      return [], shown, complete, true;
    }
    OldestFirstIsSuffix(Ids(at(0)), visited);
    if complete && !guest {
      WholeSuffix(Ids(at(0)), |shown|);
    }
    text := WriteTranscript(visited, complete);
  }
}
