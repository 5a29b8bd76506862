/**
 Fitting a Cockpit snapshot into its size limit (host_mcp.py `_bound_cockpit_snapshot`): which rows,
 requests and sessions go, and in what order, whatever the size of a document is.
 */
module HostSnapshot {
  const MAX_COCKPIT_SNAPSHOT_BYTES: nat := 24 * 1024

  /** A copy of a session document; ids are numbered in their order as text. */
  datatype Doc = Doc(id: nat, terminal: bool, updated: int, timeline: seq<string>, pending: seq<string>)

  /** The order in which timelines and sessions go: terminal ones, then the longest untouched. */
  predicate Earlier(a: Doc, b: Doc) {
    if a.terminal != b.terminal then a.terminal
    else if a.updated != b.updated then a.updated < b.updated
    else a.id < b.id
  }

  /** The order in which pending requests are hidden: the longest list first. */
  predicate Fuller(a: Doc, b: Doc) {
    if |a.pending| != |b.pending| then |a.pending| > |b.pending|
    else if a.updated != b.updated then a.updated < b.updated
    else a.id > b.id
  }

  // ---------------------------------------------------------------- what trimming may do

  /** `b` is `a` with the oldest timeline rows and the latest pending requests cut off. */
  predicate Trims(a: Doc, b: Doc) {
    && b.id == a.id && b.terminal == a.terminal && b.updated == a.updated
    && |b.timeline| <= |a.timeline| && b.timeline == a.timeline[|a.timeline| - |b.timeline|..]
    && b.pending <= a.pending
  }

  predicate AllTrim(docs: seq<Doc>, cut: seq<Doc>) {
    |cut| == |docs| && forall i :: 0 <= i < |docs| ==> Trims(docs[i], cut[i])
  }

  predicate LostRows(docs: seq<Doc>, cut: seq<Doc>, i: nat)
    requires i < |docs| && i < |cut|
  {
    |cut[i].timeline| < |docs[i].timeline|
  }

  predicate LostRequests(docs: seq<Doc>, cut: seq<Doc>, i: nat)
    requires i < |docs| && i < |cut|
  {
    |cut[i].pending| < |docs[i].pending|
  }

  /** Rows go from one session at a time, in order: nothing is cut from a timeline while an earlier
      one, in particular any terminal one, still has rows. */
  predicate RowsInOrder(docs: seq<Doc>, cut: seq<Doc>)
    requires |cut| == |docs|
  {
    forall i, j :: 0 <= i < |cut| && 0 <= j < |cut| && LostRows(docs, cut, i) && Earlier(cut[j], cut[i]) ==> cut[j].timeline == []
  }

  predicate NoRows(cut: seq<Doc>) {
    forall i :: 0 <= i < |cut| ==> cut[i].timeline == []
  }

  predicate NoRequests(cut: seq<Doc>) {
    forall i :: 0 <= i < |cut| ==> cut[i].pending == []
  }

  /** No request is hidden while a timeline row is left, and a list that lost requests is within one of
      the longest. */
  predicate RequestsLast(docs: seq<Doc>, cut: seq<Doc>)
    requires |cut| == |docs|
  {
    forall i :: 0 <= i < |cut| && LostRequests(docs, cut, i) ==>
      NoRows(cut) && forall j :: 0 <= j < |cut| ==> |cut[j].pending| <= |cut[i].pending| + 1
  }

  /** `r` are the documents of `cut` at the places `at`. */
  predicate Picks(cut: seq<Doc>, r: seq<Doc>, at: seq<nat>) {
    && |at| == |r| && (forall k :: 0 <= k < |at| ==> at[k] < |cut| && r[k] == cut[at[k]])
    && (forall k, l :: 0 <= k < l < |at| ==> at[k] < at[l])
  }

  /** No session goes while a pending request is left, and sessions go in order. */
  predicate SessionsLast(cut: seq<Doc>, r: seq<Doc>, at: seq<nat>)
    requires Picks(cut, r, at)
  {
    && (|r| < |cut| ==> NoRows(cut) && NoRequests(cut))
    && (forall i, k :: 0 <= i < |cut| && i !in at && 0 <= k < |r| ==> !Earlier(r[k], cut[i]))
  }

  // ---------------------------------------------------------------- choosing

  /** `min` over the documents with a timeline, or nothing. */
  method FirstWithRows(docs: seq<Doc>) returns (k: nat)
    ensures k <= |docs| && (k == |docs| <==> NoRows(docs))
    ensures k < |docs| ==> docs[k].timeline != []
                           && forall j :: 0 <= j < |docs| && docs[j].timeline != [] ==> !Earlier(docs[j], docs[k])
  {
    k := |docs|;
    var i := 0;
    while i < |docs|
      invariant i <= |docs| && k <= |docs| && (k < |docs| ==> k < i && docs[k].timeline != [])
      invariant k == |docs| ==> forall j :: 0 <= j < i ==> docs[j].timeline == []
      invariant k < |docs| ==> forall j :: 0 <= j < i && docs[j].timeline != [] ==> !Earlier(docs[j], docs[k])
    {
      if docs[i].timeline != [] && (k == |docs| || Earlier(docs[i], docs[k])) {
        k := i;
      }
      i := i + 1;
    }
  }

  /** `max` over the documents with pending requests, or nothing. */
  method FullestPending(docs: seq<Doc>) returns (k: nat)
    ensures k <= |docs| && (k == |docs| <==> NoRequests(docs))
    ensures k < |docs| ==> docs[k].pending != [] && forall j :: 0 <= j < |docs| ==> |docs[j].pending| <= |docs[k].pending|
    ensures k < |docs| ==> forall j :: 0 <= j < |docs| && docs[j].pending != [] ==> !Fuller(docs[j], docs[k])
  {
    k := |docs|;
    var i := 0;
    while i < |docs|
      invariant i <= |docs| && k <= |docs| && (k < |docs| ==> k < i && docs[k].pending != [])
      invariant k == |docs| ==> forall j :: 0 <= j < i ==> docs[j].pending == []
      invariant k < |docs| ==> forall j :: 0 <= j < i ==> |docs[j].pending| <= |docs[k].pending|
      invariant k < |docs| ==> forall j :: 0 <= j < i && docs[j].pending != [] ==> !Fuller(docs[j], docs[k])
    {
      if docs[i].pending != [] && (k == |docs| || Fuller(docs[i], docs[k])) {
        k := i;
      }
      i := i + 1;
    }
  }

  /** `min` over all documents. */
  method FirstSession(docs: seq<Doc>) returns (k: nat)
    requires docs != []
    ensures k < |docs| && forall j :: 0 <= j < |docs| ==> !Earlier(docs[j], docs[k])
  {
    k := 0;
    var i := 1;
    while i < |docs|
      invariant 1 <= i <= |docs| && k < i
      invariant forall j :: 0 <= j < i ==> !Earlier(docs[j], docs[k])
    {
      if Earlier(docs[i], docs[k]) { k := i; }
      i := i + 1;
    }
  }

  // ---------------------------------------------------------------- counting down

  function Rows(docs: seq<Doc>): nat {
    if docs == [] then 0 else Rows(docs[..|docs| - 1]) + |docs[|docs| - 1].timeline|
  }

  function Requests(docs: seq<Doc>): nat {
    if docs == [] then 0 else Requests(docs[..|docs| - 1]) + |docs[|docs| - 1].pending|
  }

  lemma {:induction false} RowsUpdate(docs: seq<Doc>, k: nat, d: Doc)
    requires k < |docs|
    ensures Rows(docs[k := d]) == Rows(docs) - |docs[k].timeline| + |d.timeline|
    decreases |docs|
  {
    var n := |docs| - 1;
    if k == n {
      assert docs[k := d][..n] == docs[..n];
    } else {
      assert docs[k := d][..n] == docs[..n][k := d];
      RowsUpdate(docs[..n], k, d);
    }
  }

  lemma {:induction false} RequestsUpdate(docs: seq<Doc>, k: nat, d: Doc)
    requires k < |docs|
    ensures Requests(docs[k := d]) == Requests(docs) - |docs[k].pending| + |d.pending|
    decreases |docs|
  {
    var n := |docs| - 1;
    if k == n {
      assert docs[k := d][..n] == docs[..n];
    } else {
      assert docs[k := d][..n] == docs[..n][k := d];
      RequestsUpdate(docs[..n], k, d);
    }
  }

  function Without<T>(s: seq<T>, k: nat): (w: seq<T>)
    requires k < |s|
    ensures |w| == |s| - 1
    ensures forall j :: 0 <= j < |w| ==> w[j] == s[if j < k then j else j + 1]
    ensures forall m :: 0 <= m < |s| && m != k ==> s[m] in w
  {
    var w := s[..k] + s[k + 1..];
    assert forall m :: 0 <= m < |s| && m != k ==> s[m] == w[if m < k then m else m - 1];
    w
  }

  // ---------------------------------------------------------------- the three loops

  type Size = seq<Doc> -> nat

  function DropRow(docs: seq<Doc>, k: nat): seq<Doc>
    requires k < |docs| && docs[k].timeline != []
  {
    docs[k := docs[k].(timeline := docs[k].timeline[1..])]
  }

  function HideRequest(docs: seq<Doc>, k: nat): seq<Doc>
    requires k < |docs| && docs[k].pending != []
  {
    docs[k := docs[k].(pending := docs[k].pending[..|docs[k].pending| - 1])]
  }

  /** What the first loop may have made of `docs`: rows are gone, in order, and nothing else. */
  predicate RowsCut(docs: seq<Doc>, cut: seq<Doc>) {
    && AllTrim(docs, cut) && RowsInOrder(docs, cut)
    && forall i :: 0 <= i < |docs| ==> cut[i].pending == docs[i].pending
  }

  /** What the second loop may have made of `docs`: no rows are left and requests are gone, the
      longest lists first. */
  predicate RequestsCut(docs: seq<Doc>, cut: seq<Doc>) {
    AllTrim(docs, cut) && NoRows(cut) && RequestsLast(docs, cut)
  }

  /** What the third loop may have made of `cut`: some sessions are gone, in order. */
  predicate SessionsCut(cut: seq<Doc>, r: seq<Doc>, at: seq<nat>) {
    Picks(cut, r, at) && SessionsLast(cut, r, at)
  }

  /** `k` is the session whose oldest row goes next. */
  predicate NextRow(before: seq<Doc>, k: nat) {
    && k < |before| && before[k].timeline != []
    && forall j :: 0 <= j < |before| && before[j].timeline != [] ==> !Earlier(before[j], before[k])
  }

  /** `k` is the session whose last request is hidden next. */
  predicate NextRequest(before: seq<Doc>, k: nat) {
    && k < |before| && before[k].pending != []
    && forall j :: 0 <= j < |before| && before[j].pending != [] ==> !Fuller(before[j], before[k])
  }

  /** `k` is the session that goes next. */
  predicate NextSession(before: seq<Doc>, k: nat) {
    k < |before| && forall j :: 0 <= j < |before| ==> !Earlier(before[j], before[k])
  }

  /** The last row dropped was the next to go and had to: the rows of `docs` left before it made a
      document that was too large. */
  ghost predicate LastRowHadToGo(docs: seq<Doc>, size: Size, cut: seq<Doc>) {
    exists before: seq<Doc>, k: nat :: RowsCut(docs, before) && NextRow(before, k) && cut == DropRow(before, k)
                                       && size(before) > MAX_COCKPIT_SNAPSHOT_BYTES
  }

  ghost predicate LastRequestHadToGo(docs: seq<Doc>, size: Size, cut: seq<Doc>) {
    exists before: seq<Doc>, k: nat :: RequestsCut(docs, before) && NextRequest(before, k) && cut == HideRequest(before, k)
                                       && size(before) > MAX_COCKPIT_SNAPSHOT_BYTES
  }

  ghost predicate LastSessionHadToGo(cut: seq<Doc>, size: Size, r: seq<Doc>) {
    exists before: seq<Doc>, at: seq<nat>, k: nat ::
      SessionsCut(cut, before, at) && NextSession(before, k) && r == Without(before, k)
      && size(before) > MAX_COCKPIT_SNAPSHOT_BYTES
  }

  lemma TrimsRow(a: Doc, b: Doc)
    requires Trims(a, b) && b.timeline != []
    ensures Trims(a, b.(timeline := b.timeline[1..]))
  {
    var n := |a.timeline| - |b.timeline|;
    assert a.timeline[n..][1..] == a.timeline[n + 1..];
  }

  lemma TrimsRequest(a: Doc, b: Doc)
    requires Trims(a, b) && b.pending != []
    ensures Trims(a, b.(pending := b.pending[..|b.pending| - 1]))
  {
  }

  lemma RowHadToGo(docs: seq<Doc>, size: Size, before: seq<Doc>, k: nat)
    requires RowsCut(docs, before) && NextRow(before, k) && size(before) > MAX_COCKPIT_SNAPSHOT_BYTES
    ensures LastRowHadToGo(docs, size, DropRow(before, k))
  {
    hide RowsCut;
  }

  lemma RequestHadToGo(docs: seq<Doc>, size: Size, before: seq<Doc>, k: nat)
    requires RequestsCut(docs, before) && NextRequest(before, k) && size(before) > MAX_COCKPIT_SNAPSHOT_BYTES
    ensures LastRequestHadToGo(docs, size, HideRequest(before, k))
  {
    hide RequestsCut;
  }

  lemma SessionHadToGo(cut: seq<Doc>, size: Size, before: seq<Doc>, at: seq<nat>, k: nat)
    requires SessionsCut(cut, before, at) && NextSession(before, k) && size(before) > MAX_COCKPIT_SNAPSHOT_BYTES
    ensures LastSessionHadToGo(cut, size, Without(before, k))
  {
    hide SessionsCut, Without;
  }

  /** Dropping a row does not change the order of the sessions. */
  lemma SameOrder(cut: seq<Doc>, k: nat, i: nat, j: nat)
    requires k < |cut| && cut[k].timeline != [] && i < |cut| && j < |cut|
    ensures Earlier(DropRow(cut, k)[j], DropRow(cut, k)[i]) == Earlier(cut[j], cut[i])
  {
  }

  lemma DropRowOrder(docs: seq<Doc>, cut: seq<Doc>, k: nat)
    requires |cut| == |docs| && RowsInOrder(docs, cut) && NextRow(cut, k)
    ensures RowsInOrder(docs, DropRow(cut, k))
  {
    var after := DropRow(cut, k);
    hide Earlier;
    forall i, j | 0 <= i < |after| && 0 <= j < |after| && LostRows(docs, after, i) && Earlier(after[j], after[i])
      ensures after[j].timeline == []
    {
      SameOrder(cut, k, i, j);
      if i != k { assert LostRows(docs, cut, i); }
    }
  }

  lemma DropRowTrims(docs: seq<Doc>, cut: seq<Doc>, k: nat)
    requires AllTrim(docs, cut) && k < |cut| && cut[k].timeline != []
    ensures AllTrim(docs, DropRow(cut, k))
  {
    TrimsRow(docs[k], cut[k]);
    hide Trims;
  }

  lemma DropRowKeeps(docs: seq<Doc>, cut: seq<Doc>, k: nat)
    requires RowsCut(docs, cut) && NextRow(cut, k)
    ensures RowsCut(docs, DropRow(cut, k)) && Rows(DropRow(cut, k)) < Rows(cut)
  {
    hide RowsInOrder, Rows, Earlier, Trims;
    DropRowTrims(docs, cut, k);
    DropRowOrder(docs, cut, k);
    RowsUpdate(cut, k, cut[k].(timeline := cut[k].timeline[1..]));
    hide AllTrim;
  }

  lemma HideRequestKeeps(docs: seq<Doc>, cut: seq<Doc>, k: nat)
    requires RequestsCut(docs, cut) && k < |cut| && cut[k].pending != []
    requires forall j :: 0 <= j < |cut| ==> |cut[j].pending| <= |cut[k].pending|
    ensures RequestsCut(docs, HideRequest(cut, k)) && Requests(HideRequest(cut, k)) < Requests(cut)
  {
    var after := HideRequest(cut, k);
    RequestsUpdate(cut, k, after[k]);
    TrimsRequest(docs[k], cut[k]);
    assert forall i :: 0 <= i < |cut| && i != k ==> after[i] == cut[i];
    hide Requests, Trims;
    forall i | 0 <= i < |after| && LostRequests(docs, after, i)
      ensures forall j :: 0 <= j < |after| ==> |after[j].pending| <= |after[i].pending| + 1
    {
      if i != k { assert LostRequests(docs, cut, i); }
    }
  }

  /** Drop one timeline row, the oldest of the first session that has any. */
  method DropOneRow(ghost docs: seq<Doc>, cut: seq<Doc>, ghost size: Size) returns (next: seq<Doc>)
    requires RowsCut(docs, cut) && !NoRows(cut) && size(cut) > MAX_COCKPIT_SNAPSHOT_BYTES
    ensures RowsCut(docs, next) && Rows(next) < Rows(cut) && LastRowHadToGo(docs, size, next)
  {
    var k := FirstWithRows(cut);
    assert |cut| == |docs|;
    hide RowsCut, NoRows, Rows, LastRowHadToGo, Earlier;
    assert NextRow(cut, k);
    DropRowKeeps(docs, cut, k);
    RowHadToGo(docs, size, cut, k);
    next := DropRow(cut, k);
  }

  /** Drop timeline rows until the document fits or none is left. */
  method DropRows(docs: seq<Doc>, size: Size) returns (cut: seq<Doc>)
    ensures RowsCut(docs, cut)
    ensures size(cut) <= MAX_COCKPIT_SNAPSHOT_BYTES || NoRows(cut)
    ensures cut == docs || LastRowHadToGo(docs, size, cut)
  {
    cut := docs;
    while size(cut) > MAX_COCKPIT_SNAPSHOT_BYTES
      invariant RowsCut(docs, cut)
      invariant cut == docs || LastRowHadToGo(docs, size, cut)
      decreases Rows(cut)
    {
      hide RowsCut, Rows, LastRowHadToGo, NoRows;
      if NoRows(cut) { break; }
      cut := DropOneRow(docs, cut, size);
    }
  }

  /** Hide pending requests until the document fits or none is left. */
  method HideRequests(docs: seq<Doc>, rows: seq<Doc>, size: Size) returns (cut: seq<Doc>)
    requires RowsCut(docs, rows) && NoRows(rows)
    ensures RequestsCut(docs, cut)
    ensures size(cut) <= MAX_COCKPIT_SNAPSHOT_BYTES || NoRequests(cut)
    ensures cut == rows || LastRequestHadToGo(docs, size, cut)
  {
    cut := rows;
    while size(cut) > MAX_COCKPIT_SNAPSHOT_BYTES
      invariant RequestsCut(docs, cut)
      invariant cut == rows || LastRequestHadToGo(docs, size, cut)
      decreases Requests(cut)
    {
      var k := FullestPending(cut);
      if k == |cut| { break; }
      HideRequestKeeps(docs, cut, k);
      RequestHadToGo(docs, size, cut, k);
      hide RequestsCut, Requests, NoRows, LastRequestHadToGo;
      cut := HideRequest(cut, k);
    }
  }

  /** Drop whole sessions until the document fits or none is left; `at` are the places of those kept. */
  method DropSessions(cut: seq<Doc>, size: Size) returns (r: seq<Doc>, ghost at: seq<nat>)
    requires NoRows(cut) && NoRequests(cut)
    ensures SessionsCut(cut, r, at)
    ensures size(r) <= MAX_COCKPIT_SNAPSHOT_BYTES || r == []
    ensures r == cut || LastSessionHadToGo(cut, size, r)
  {
    r := cut;
    at := seq(|cut|, i => i);
    assert Picks(cut, r, at) && SessionsLast(cut, r, at);
    while size(r) > MAX_COCKPIT_SNAPSHOT_BYTES && r != []
      invariant SessionsCut(cut, r, at)
      invariant r == cut || LastSessionHadToGo(cut, size, r)
      decreases |r|
    {
      var k := FirstSession(r);
      DropSessionKeeps(cut, r, at, k);
      SessionHadToGo(cut, size, r, at, k);
      hide Earlier, SessionsCut, LastSessionHadToGo;
      at := Without(at, k);
      r := Without(r, k);
    }
  }

  lemma DropSessionPicks(cut: seq<Doc>, r: seq<Doc>, at: seq<nat>, k: nat)
    requires Picks(cut, r, at) && k < |r|
    ensures Picks(cut, Without(r, k), Without(at, k))
    ensures forall i :: i in at && i !in Without(at, k) ==> i == at[k]
  {
  }

  lemma DropSessionKeeps(cut: seq<Doc>, r: seq<Doc>, at: seq<nat>, k: nat)
    requires SessionsCut(cut, r, at) && NoRows(cut) && NoRequests(cut) && NextSession(r, k)
    ensures |at| == |r| && SessionsCut(cut, Without(r, k), Without(at, k))
  {
    var r', at' := Without(r, k), Without(at, k);
    DropSessionPicks(cut, r, at, k);
    assert r[k] == cut[at[k]];
    hide Earlier, NoRows, NoRequests, Picks, Without;
    forall i, j | 0 <= i < |cut| && i !in at' && 0 <= j < |r'| ensures !Earlier(r'[j], cut[i]) {
      assert r'[j] == r[if j < k then j else j + 1];
      assert i in at ==> i == at[k];
    }
  }

  /** `_bound_cockpit_snapshot`: `cut` is the snapshot after the first two loops, `at` the places of the
      sessions that the third one keeps. */
  method BoundSnapshot(docs: seq<Doc>, size: Size) returns (r: seq<Doc>, ghost cut: seq<Doc>, ghost at: seq<nat>)
    ensures size([]) <= MAX_COCKPIT_SNAPSHOT_BYTES ==> size(r) <= MAX_COCKPIT_SNAPSHOT_BYTES
    ensures size(docs) <= MAX_COCKPIT_SNAPSHOT_BYTES ==> r == docs
    ensures AllTrim(docs, cut) && RowsInOrder(docs, cut) && RequestsLast(docs, cut)
    ensures SessionsCut(cut, r, at)
    ensures r == docs || LastRowHadToGo(docs, size, r) || LastRequestHadToGo(docs, size, r)
            || LastSessionHadToGo(cut, size, r)
  {
    at := seq(|docs|, i => i);
    if size(docs) <= MAX_COCKPIT_SNAPSHOT_BYTES {
      return docs, docs, at;
    }
    var rows := DropRows(docs, size);
    r, cut := rows, rows;
    if size(rows) > MAX_COCKPIT_SNAPSHOT_BYTES {
      var shown := HideRequests(docs, rows, size);
      r, cut := shown, shown;
      NothingLeftInOrder(docs, cut);
      if size(shown) > MAX_COCKPIT_SNAPSHOT_BYTES {
        r, at := DropSessions(shown, size);
      }
    }
  }

  lemma NothingLeftInOrder(docs: seq<Doc>, cut: seq<Doc>)
    requires |cut| == |docs| && NoRows(cut)
    ensures RowsInOrder(docs, cut)
  {
  }
}
