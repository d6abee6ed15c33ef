/**
 Keyset pagination of one wallet's history, newest first. A page is anchored at
 a transaction of the caller's own history and holds what is strictly older in
 (creation time, transaction id) order. Timestamps may tie; ids break ties.
 */
module LedgerHistory {
  import opened Prelude
  import opened Ledger

  datatype Line = Line(time: int, tx: nat, amount: int)

  datatype Page = Lines(lines: seq<Line>) | Refused(error: HistoryError)

  datatype HistoryError = NotYours | InvalidCursor

  const MAX_PAGE := 100

  /** `a` comes after `b` in time, then id. */
  predicate Newer(a: Line, b: Line) {
    a.time > b.time || (a.time == b.time && a.tx > b.tx)
  }

  /** The caller's own leg of every transaction that touches the account. */
  function LinesOf(ps: seq<Posting>, times: map<nat, int>, account: nat): seq<Line>
    requires forall p :: p in ps ==> p.tx in times
  {
    if ps == [] then []
    else
      var last := ps[|ps| - 1];
      LinesOf(ps[..|ps| - 1], times, account) +
      (if last.account == account then [Line(times[last.tx], last.tx, last.amount)] else [])
  }

  predicate Distinct(lines: seq<Line>) {
    forall i, j :: 0 <= i < j < |lines| ==> lines[i].tx != lines[j].tx
  }

  /** One posting per account and transaction makes transaction ids usable as cursors. */
  lemma {:induction false} LinesAreDistinct(ps: seq<Posting>, times: map<nat, int>, account: nat)
    requires (forall p :: p in ps ==> p.tx in times) && OnePerAccount(ps)
    ensures Distinct(LinesOf(ps, times, account))
    ensures forall l :: l in LinesOf(ps, times, account) ==>
      exists i :: 0 <= i < |ps| && ps[i].tx == l.tx && ps[i].account == account
  {
    if ps != [] {
      var before, n := ps[..|ps| - 1], |ps| - 1;
      LinesAreDistinct(before, times, account);
      forall l | l in LinesOf(ps, times, account)
        ensures exists i :: 0 <= i < |ps| && ps[i].tx == l.tx && ps[i].account == account
      {
        if l in LinesOf(before, times, account) {
          var i :| 0 <= i < n && before[i].tx == l.tx && before[i].account == account;
          assert ps[i] == before[i];
        } else {
          assert ps[n].tx == l.tx;
        }
      }
      forall l | l in LinesOf(before, times, account) && ps[n].account == account ensures l.tx != ps[n].tx {
        var i :| 0 <= i < n && before[i].tx == l.tx && before[i].account == account;
        assert ps[i] == before[i];
      }
    }
  }

  // ----- the query -----

  function Insert(l: Line, sorted: seq<Line>): seq<Line> {
    if sorted == [] || Newer(l, sorted[0]) then [l] + sorted
    else [sorted[0]] + Insert(l, sorted[1..])
  }

  function NewestFirst(lines: seq<Line>): seq<Line> {
    if lines == [] then [] else Insert(lines[0], NewestFirst(lines[1..]))
  }

  function OlderThan(lines: seq<Line>, anchor: Option<Line>): seq<Line> {
    if lines == [] then []
    else (if anchor == None || Newer(anchor.value, lines[0]) then [lines[0]] else []) + OlderThan(lines[1..], anchor)
  }

  function Find(lines: seq<Line>, tx: nat): Option<Line> {
    if lines == [] then None else if lines[0].tx == tx then Some(lines[0]) else Find(lines[1..], tx)
  }

  function Clamp(limit: int): nat {
    Max(1, Min(limit, MAX_PAGE))
  }

  function HistoryBefore(caller: nat, owner: nat, lines: seq<Line>, limit: int, before: Option<nat>): Page {
    if caller != owner then Refused(NotYours)
    else if before.Some? && Find(lines, before.value) == None then Refused(InvalidCursor)
    else
      var anchor := if before.Some? then Find(lines, before.value) else None;
      Lines(Take(OlderThan(NewestFirst(lines), anchor), Clamp(limit)))
  }

  // ----- sorting -----

  predicate Descending(lines: seq<Line>) {
    forall i, j :: 0 <= i < j < |lines| ==> Newer(lines[i], lines[j])
  }

  lemma {:induction false} InsertAdds(l: Line, sorted: seq<Line>)
    ensures multiset(Insert(l, sorted)) == multiset(sorted) + multiset{l}
    ensures forall x :: x in Insert(l, sorted) <==> x == l || x in sorted
  {
    if sorted != [] && !Newer(l, sorted[0]) {
      InsertAdds(l, sorted[1..]);
      assert sorted == [sorted[0]] + sorted[1..];
    }
  }

  lemma {:induction false} InsertSorts(l: Line, sorted: seq<Line>)
    requires Descending(sorted) && forall k :: k in sorted ==> k.tx != l.tx
    ensures Descending(Insert(l, sorted))
  {
    if sorted != [] && !Newer(l, sorted[0]) {
      InsertSorts(l, sorted[1..]);
      InsertAdds(l, sorted[1..]);
      var rest := Insert(l, sorted[1..]);
      forall j | 0 <= j < |rest| ensures Newer(sorted[0], rest[j]) {
        assert rest[j] in rest;
      }
    } else {
      assert forall k :: k in sorted ==> Newer(l, k);
    }
  }

  lemma {:induction false} NewestFirstSorts(lines: seq<Line>)
    requires Distinct(lines)
    ensures Descending(NewestFirst(lines)) && multiset(NewestFirst(lines)) == multiset(lines)
  {
    if lines != [] {
      NewestFirstSorts(lines[1..]);
      forall k | k in NewestFirst(lines[1..]) ensures k.tx != lines[0].tx {
        assert k in multiset(lines[1..]);
      }
      InsertAdds(lines[0], NewestFirst(lines[1..]));
      InsertSorts(lines[0], NewestFirst(lines[1..]));
      assert lines == [lines[0]] + lines[1..];
    }
  }

  lemma {:induction false} FindFinds(lines: seq<Line>, l: Line)
    requires Distinct(lines) && l in lines
    ensures Find(lines, l.tx) == Some(l)
  {
    if lines[0] != l {
      assert l in lines[1..];
      FindFinds(lines[1..], l);
    }
  }

  lemma {:induction false} OlderThanFacts(lines: seq<Line>, anchor: Option<Line>)
    requires Descending(lines)
    ensures var older := OlderThan(lines, anchor);
      Descending(older) && forall l :: l in older <==> l in lines && (anchor == None || Newer(anchor.value, l))
  {
    if lines != [] {
      OlderThanFacts(lines[1..], anchor);
      assert lines == [lines[0]] + lines[1..];
      var rest := OlderThan(lines[1..], anchor);
      forall l | l in rest ensures Newer(lines[0], l) {
        assert l in lines[1..];
      }
    }
  }

  lemma {:induction false} AllOlder(lines: seq<Line>, anchor: Option<Line>)
    requires forall l :: l in lines ==> anchor == None || Newer(anchor.value, l)
    ensures OlderThan(lines, anchor) == lines
  {
    if lines != [] {
      AllOlder(lines[1..], anchor);
    }
  }

  lemma {:induction false} OlderThanIsSuffix(lines: seq<Line>, k: nat)
    requires Descending(lines) && k < |lines|
    ensures OlderThan(lines, Some(lines[k])) == lines[k + 1..]
  {
    if k > 0 {
      OlderThanIsSuffix(lines[1..], k - 1);
    } else {
      AllOlder(lines[1..], Some(lines[0]));
    }
  }

  // ----- walking the pages -----

  predicate PageAt(owner: nat, lines: seq<Line>, limit: int, pages: seq<seq<Line>>, k: nat)
    requires k < |pages|
  {
    if k == 0 then HistoryBefore(owner, owner, lines, limit, None) == Lines(pages[0])
    else
      && pages[k - 1] != []
      && HistoryBefore(owner, owner, lines, limit, Some(pages[k - 1][|pages[k - 1]| - 1].tx)) == Lines(pages[k])
  }

  /**
   Page `k` is read from `snapshots[k]`, anchored at the last line of the page
   before; the walk goes on only past pages that are not empty.
   */
  predicate IsWalk(owner: nat, snapshots: seq<seq<Line>>, limit: int, pages: seq<seq<Line>>) {
    && |pages| == |snapshots|
    && forall k :: 0 <= k < |pages| ==> PageAt(owner, snapshots[k], limit, pages, k)
  }

  function Concat(pages: seq<seq<Line>>): seq<Line> {
    if pages == [] then [] else Concat(pages[..|pages| - 1]) + pages[|pages| - 1]
  }

  function Last(lines: seq<Line>): Line requires lines != [] {
    lines[|lines| - 1]
  }

  /** The page after `done` lines starts at line `done`. */
  lemma NextPage(owner: nat, lines: seq<Line>, limit: int, done: nat)
    requires Distinct(lines) && 0 < done <= |NewestFirst(lines)|
    ensures HistoryBefore(owner, owner, lines, limit, Some(NewestFirst(lines)[done - 1].tx))
         == Lines(Take(NewestFirst(lines)[done..], Clamp(limit)))
  {
    var sorted := NewestFirst(lines);
    NewestFirstSorts(lines);
    assert sorted[done - 1] in multiset(lines);
    FindFinds(lines, sorted[done - 1]);
    OlderThanIsSuffix(sorted, done - 1);
  }

  predicate IsFixedWalk(owner: nat, lines: seq<Line>, limit: int, pages: seq<seq<Line>>) {
    forall k :: 0 <= k < |pages| ==> PageAt(owner, lines, limit, pages, k)
  }

  function LastPage(pages: seq<seq<Line>>): seq<Line> requires pages != [] {
    pages[|pages| - 1]
  }

  /** Each page goes on where the pages before it end. */
  lemma PageContinues(owner: nat, lines: seq<Line>, limit: int, pages: seq<seq<Line>>)
    requires Distinct(lines) && IsFixedWalk(owner, lines, limit, pages) && pages != []
    requires Concat(pages[..|pages| - 1]) <= NewestFirst(lines)
    ensures LastPage(pages) == Take(NewestFirst(lines)[|Concat(pages[..|pages| - 1])|..], Clamp(limit))
  {
    var n := |pages| - 1;
    var before := pages[..n];
    assert PageAt(owner, lines, limit, pages, n);
    if n == 0 {
      AllOlder(NewestFirst(lines), None);
      assert Concat(before) == [];
    } else {
      assert before[n - 1] == pages[n - 1] != [];
      assert Concat(before) == Concat(before[..n - 1]) + before[n - 1];
      assert Last(Concat(before)) == Last(pages[n - 1]);
      NextPage(owner, lines, limit, |Concat(before)|);
    }
  }

  lemma TakeExtends(sorted: seq<Line>, done: seq<Line>, page: seq<Line>, n: nat)
    requires done <= sorted && page == Take(sorted[|done|..], n) && n > 0
    ensures done + page <= sorted
    ensures page == [] ==> done == sorted
  {
  }

  lemma ShorterWalk(owner: nat, lines: seq<Line>, limit: int, pages: seq<seq<Line>>)
    requires IsFixedWalk(owner, lines, limit, pages) && pages != []
    ensures IsFixedWalk(owner, lines, limit, pages[..|pages| - 1])
  {
    var before := pages[..|pages| - 1];
    forall k | 0 <= k < |before| ensures PageAt(owner, lines, limit, before, k) {
      assert PageAt(owner, lines, limit, pages, k);
    }
  }

  /** On a fixed ledger the pages are consecutive stretches of the whole history. */
  lemma {:induction false} WalkIsPrefix(owner: nat, lines: seq<Line>, limit: int, pages: seq<seq<Line>>)
    requires Distinct(lines) && IsFixedWalk(owner, lines, limit, pages)
    ensures Concat(pages) <= NewestFirst(lines)
    ensures pages != [] && LastPage(pages) == [] ==> Concat(pages) == NewestFirst(lines)
  {
    if pages != [] {
      var before := pages[..|pages| - 1];
      ShorterWalk(owner, lines, limit, pages);
      WalkIsPrefix(owner, lines, limit, before);
      PageContinues(owner, lines, limit, pages);
      TakeExtends(NewestFirst(lines), Concat(before), LastPage(pages), Clamp(limit));
    }
  }

  /** Following the cursors to an empty page yields every line exactly once, newest first. */
  lemma WalkIsComplete(owner: nat, lines: seq<Line>, limit: int, pages: seq<seq<Line>>)
    requires Distinct(lines) && IsFixedWalk(owner, lines, limit, pages)
    requires pages != [] && LastPage(pages) == []
    ensures multiset(Concat(pages)) == multiset(lines) && Descending(Concat(pages))
  {
    WalkIsPrefix(owner, lines, limit, pages);
    NewestFirstSorts(lines);
  }

  lemma {:induction false} ConcatLength(pages: seq<seq<Line>>)
    requires forall k :: 0 <= k < |pages| - 1 ==> pages[k] != []
    ensures |Concat(pages)| + 1 >= |pages|
    ensures pages != [] && pages[|pages| - 1] != [] ==> |Concat(pages)| >= |pages|
  {
    if pages != [] {
      ConcatLength(pages[..|pages| - 1]);
    }
  }

  /** And an empty page comes: a walk has at most one page more than there are lines. */
  lemma {:induction false} WalkEnds(owner: nat, lines: seq<Line>, limit: int, pages: seq<seq<Line>>)
    requires Distinct(lines) && IsFixedWalk(owner, lines, limit, pages)
    ensures |pages| <= |lines| + 1
  {
    WalkIsPrefix(owner, lines, limit, pages);
    NewestFirstSorts(lines);
    forall k | 0 <= k < |pages| - 1 ensures pages[k] != [] {
      assert PageAt(owner, lines, limit, pages, k + 1);
    }
    ConcatLength(pages);
    assert |multiset(lines)| == |multiset(NewestFirst(lines))|;
  }

  predicate Grows(snapshots: seq<seq<Line>>) {
    && (forall k :: 0 <= k < |snapshots| ==> Distinct(snapshots[k]))
    && (forall i, j :: 0 <= i < j < |snapshots| ==> snapshots[i] <= snapshots[j])
  }

  /** A page holds lines of its own snapshot, all older than its anchor. */
  lemma PageFacts(owner: nat, lines: seq<Line>, limit: int, before: Option<nat>)
    requires Distinct(lines) && HistoryBefore(owner, owner, lines, limit, before).Lines?
    ensures var page := HistoryBefore(owner, owner, lines, limit, before).lines;
      && Descending(page) && (forall l :: l in page ==> l in lines)
      && (before.Some? ==> Find(lines, before.value).Some?)
      && (before.Some? ==> forall l :: l in page ==> Newer(Find(lines, before.value).value, l))
  {
    NewestFirstSorts(lines);
    var anchor := if before.Some? then Find(lines, before.value) else None;
    OlderThanFacts(NewestFirst(lines), anchor);
    var page, older := HistoryBefore(owner, owner, lines, limit, before).lines, OlderThan(NewestFirst(lines), anchor);
    assert page <= older;
    forall l | l in page ensures l in older && l in lines {
      var k :| 0 <= k < |page| && page[k] == l;
      assert older[k] == l && l in older;
      assert l in NewestFirst(lines);
      assert l in multiset(NewestFirst(lines));
    }
  }

  /** Beyond the anchor, when there is one. */
  predicate Beyond(l: Line, anchor: Option<Line>) {
    anchor.Some? ==>
      l.time < anchor.value.time || (l.time == anchor.value.time && l.tx < anchor.value.tx)
  }

  predicate BelowAll(page: seq<Line>, l: Line) {
    forall k :: k in page ==> Beyond(l, Some(k))
  }

  predicate PageOf(page: seq<Line>, lines: seq<Line>, anchor: Option<Line>, most: nat) {
    && |page| <= most
    && (forall l :: l in page ==> l in lines && Beyond(l, anchor))
    && (forall l :: l in lines && Beyond(l, anchor) && l !in page ==> |page| == most && BelowAll(page, l))
  }

  predicate HasTx(lines: seq<Line>, tx: nat) {
    exists l :: l in lines && l.tx == tx
  }

  lemma {:induction false} FoundIffThere(lines: seq<Line>, tx: nat)
    ensures Find(lines, tx).Some? <==> HasTx(lines, tx)
    ensures Find(lines, tx).Some? ==> Find(lines, tx).value in lines && Find(lines, tx).value.tx == tx
  {
    if lines != [] {
      FoundIffThere(lines[1..], tx);
      assert lines == [lines[0]] + lines[1..];
      if HasTx(lines, tx) && lines[0].tx != tx {
        var l :| l in lines && l.tx == tx;
        assert l in lines[1..];
      }
    }
  }

  lemma TakeIsPage(older: seq<Line>, lines: seq<Line>, anchor: Option<Line>, most: nat)
    requires Descending(older) && forall l :: l in older <==> l in lines && Beyond(l, anchor)
    ensures PageOf(Take(older, most), lines, anchor, most)
  {
    var page := Take(older, most);
    assert forall i :: 0 <= i < |page| ==> page[i] == older[i] && older[i] in page;
    forall l | l in older && l !in page ensures |page| == most && BelowAll(page, l) {
      var k :| 0 <= k < |older| && older[k] == l;
      assert k >= |page|;
      forall x | x in page ensures Beyond(l, Some(x)) {
        var i :| 0 <= i < |page| && page[i] == x;
        assert older[i] == x && i < k;
      }
    }
  }

  /**
   What a history request is answered: strangers and unknown cursors are
   refused, and nothing else is; a page holds at most the clamped limit of the
   lines beyond its cursor, and the newest ones, and is short only at the end.
   */
  lemma HistoryAnswers(caller: nat, owner: nat, lines: seq<Line>, limit: int, before: Option<nat>)
    requires Distinct(lines)
    ensures var answer := HistoryBefore(caller, owner, lines, limit, before);
      && (answer == Refused(NotYours) <==> caller != owner)
      && (answer == Refused(InvalidCursor) <==> caller == owner && before.Some? && !HasTx(lines, before.value))
      && (answer.Lines? ==> (before.Some? ==> Find(lines, before.value).Some?))
      && (answer.Lines? ==> PageOf(answer.lines, lines, if before.Some? then Find(lines, before.value) else None,
                                   if limit < 1 then 1 else if limit > 100 then 100 else limit))
  {
    if before.Some? {
      FoundIffThere(lines, before.value);
    }
    if HistoryBefore(caller, owner, lines, limit, before).Lines? {
      var anchor := if before.Some? then Find(lines, before.value) else None;
      NewestFirstSorts(lines);
      OlderThanFacts(NewestFirst(lines), anchor);
      var older := OlderThan(NewestFirst(lines), anchor);
      forall l ensures l in older <==> l in lines && Beyond(l, anchor) {
        assert l in NewestFirst(lines) <==> l in multiset(lines);
      }
      TakeIsPage(older, lines, anchor, Clamp(limit));
    }
  }

  lemma DescendingAppend(a: seq<Line>, b: seq<Line>)
    requires Descending(a) && Descending(b) && a != [] && forall l :: l in b ==> Newer(Last(a), l)
    ensures Descending(a + b)
  {
    forall i, j | 0 <= i < |a| <= j < |a + b| ensures Newer((a + b)[i], (a + b)[j]) {
      assert (a + b)[j] in b;
    }
  }

  /** Commits between pages never make a line come back: the walk stays strictly descending. */
  lemma {:induction false} GrowthNeverRepeats(owner: nat, snapshots: seq<seq<Line>>, limit: int, pages: seq<seq<Line>>)
    requires IsWalk(owner, snapshots, limit, pages) && Grows(snapshots)
    ensures Descending(Concat(pages))
    ensures pages != [] ==> forall l :: l in LastPage(pages) ==> l in snapshots[|pages| - 1]
  {
    if pages != [] {
      var n := |pages| - 1;
      var before, lines := pages[..n], snapshots[n];
      assert IsWalk(owner, snapshots[..n], limit, before) by {
        forall k | 0 <= k < n ensures PageAt(owner, snapshots[k], limit, before, k) {
          assert PageAt(owner, snapshots[k], limit, pages, k);
        }
      }
      GrowthNeverRepeats(owner, snapshots[..n], limit, before);
      assert PageAt(owner, lines, limit, pages, n);
      if n == 0 {
        PageFacts(owner, lines, limit, None);
        assert Concat(before) == [];
      } else {
        var last := Last(before[n - 1]);
        assert before[n - 1] == LastPage(before) && snapshots[..n][n - 1] == snapshots[n - 1];
        assert last in LastPage(before);
        assert snapshots[n - 1] <= lines;
        assert last in lines;
        FindFinds(lines, last);
        PageFacts(owner, lines, limit, Some(last.tx));
        assert Last(Concat(before)) == last;
        DescendingAppend(Concat(before), pages[n]);
      }
    }
  }

  // ----- histories of a ledger run -----

  predicate Timed(ps: seq<Posting>, times: map<nat, int>) {
    forall p :: p in ps ==> p.tx in times
  }

  /** A user's lines after a run, whatever time each transaction was stamped with. */
  function HistoryOf(users: set<nat>, cmds: seq<Command>, times: map<nat, int>, account: nat): seq<Line>
    requires Timed(Run(users, EMPTY, cmds).postings, times)
  {
    LinesOf(Run(users, EMPTY, cmds).postings, times, account)
  }

  lemma HistoryIsDistinct(users: set<nat>, cmds: seq<Command>, times: map<nat, int>, account: nat)
    requires AllFresh(users, cmds) && Timed(Run(users, EMPTY, cmds).postings, times)
    ensures Distinct(HistoryOf(users, cmds, times, account))
  {
    RunKeepsValid(users, cmds);
    LinesAreDistinct(Run(users, EMPTY, cmds).postings, times, account);
  }

  /** The lines of an account are its postings, debits and credits, each at its transaction's time. */
  lemma {:induction false} LinesArePostings(ps: seq<Posting>, times: map<nat, int>, account: nat)
    requires Timed(ps, times)
    ensures forall p :: p in ps && p.account == account ==>
      Line(times[p.tx], p.tx, p.amount) in LinesOf(ps, times, account)
    ensures forall l :: l in LinesOf(ps, times, account) ==> l.tx in times && l.time == times[l.tx]
    ensures forall l :: l in LinesOf(ps, times, account) ==> Posting(l.tx, account, l.amount) in ps
  {
    if ps != [] {
      var before := ps[..|ps| - 1];
      assert ps == before + [ps[|ps| - 1]];
      LinesArePostings(before, times, account);
    }
  }

  /** The line is in the sequence, and at one place only. */
  predicate OnceIn(lines: seq<Line>, l: Line) {
    multiset(lines)[l] == 1
  }

  lemma {:induction false} DistinctOnce(lines: seq<Line>, l: Line)
    requires Distinct(lines) && l in lines
    ensures OnceIn(lines, l)
  {
    var rest := lines[1..];
    assert lines == [lines[0]] + rest;
    if lines[0] == l {
      assert forall k :: 0 <= k < |rest| ==> rest[k] == lines[k + 1] && rest[k].tx != lines[0].tx;
      assert l !in rest;
    } else {
      DistinctOnce(rest, l);
    }
  }

  /** Later time first; at equal times, larger id first. */
  predicate NewestComeFirst(lines: seq<Line>) {
    forall i, j :: 0 <= i < j < |lines| ==>
      lines[j].time < lines[i].time || (lines[j].time == lines[i].time && lines[j].tx < lines[i].tx)
  }

  /**
   After any run, a walk to an empty page lists every posting of the account
   exactly once with its own amount and time, and nothing else, newest first.
   */
  lemma RunHistoryIsComplete(users: set<nat>, cmds: seq<Command>, times: map<nat, int>, account: nat,
                             owner: nat, limit: int, pages: seq<seq<Line>>)
    requires AllFresh(users, cmds) && Timed(Run(users, EMPTY, cmds).postings, times)
    requires IsFixedWalk(owner, HistoryOf(users, cmds, times, account), limit, pages)
    requires pages != [] && LastPage(pages) == []
    ensures var ps, all := Run(users, EMPTY, cmds).postings, Concat(pages);
      && (forall p :: p in ps && p.account == account ==> OnceIn(all, Line(times[p.tx], p.tx, p.amount)))
      && (forall l :: l in all ==> l.tx in times && l.time == times[l.tx] && Posting(l.tx, account, l.amount) in ps)
      && NewestComeFirst(all)
    ensures multiset(Concat(pages)) == multiset(HistoryOf(users, cmds, times, account)) && Descending(Concat(pages))
    ensures |pages| <= |HistoryOf(users, cmds, times, account)| + 1
  {
    var ps, lines, all := Run(users, EMPTY, cmds).postings, HistoryOf(users, cmds, times, account), Concat(pages);
    HistoryIsDistinct(users, cmds, times, account);
    WalkIsComplete(owner, lines, limit, pages);
    WalkEnds(owner, lines, limit, pages);
    LinesArePostings(ps, times, account);
    forall p | p in ps && p.account == account ensures OnceIn(all, Line(times[p.tx], p.tx, p.amount)) {
      DistinctOnce(lines, Line(times[p.tx], p.tx, p.amount));
    }
    forall l | l in all ensures l in lines {
      assert l in multiset(all);
    }
  }

  lemma ExecuteAppends(users: set<nat>, b: Book, cmd: Command)
    ensures b.postings <= Execute(users, b, cmd).0.postings
  {
  }

  lemma {:induction false} PostingsGrow(users: set<nat>, cmds: seq<Command>, n: nat)
    requires n <= |cmds|
    ensures Run(users, EMPTY, cmds[..n]).postings <= Run(users, EMPTY, cmds).postings
  {
    if n == |cmds| {
      assert cmds[..n] == cmds;
    } else {
      var before := cmds[..|cmds| - 1];
      assert before[..n] == cmds[..n];
      PostingsGrow(users, before, n);
      ExecuteAppends(users, Run(users, EMPTY, before), cmds[|cmds| - 1]);
    }
  }

  lemma {:induction false} LinesOfPrefix(a: seq<Posting>, b: seq<Posting>, times: map<nat, int>, account: nat)
    requires a <= b && Timed(b, times)
    ensures Timed(a, times) && LinesOf(a, times, account) <= LinesOf(b, times, account)
  {
    if a == b {
    } else {
      LinesOfPrefix(a, b[..|b| - 1], times, account);
    }
  }

  ghost predicate SnapshotAt(users: set<nat>, cmds: seq<Command>, times: map<nat, int>, account: nat,
                             n: nat, snapshot: seq<Line>) {
    && n <= |cmds| && Timed(Run(users, EMPTY, cmds[..n]).postings, times)
    && snapshot == HistoryOf(users, cmds[..n], times, account)
  }

  /** Page `k` is read when the first `at[k]` requests of the run have been answered. */
  ghost predicate ReadDuring(users: set<nat>, cmds: seq<Command>, times: map<nat, int>, account: nat,
                             at: seq<nat>, snapshots: seq<seq<Line>>) {
    && |at| == |snapshots|
    && (forall i, j :: 0 <= i < j < |at| ==> at[i] <= at[j])
    && (forall k :: 0 <= k < |at| ==> SnapshotAt(users, cmds, times, account, at[k], snapshots[k]))
  }

  lemma RunSnapshotsGrow(users: set<nat>, cmds: seq<Command>, times: map<nat, int>, account: nat,
                         at: seq<nat>, snapshots: seq<seq<Line>>)
    requires AllFresh(users, cmds) && ReadDuring(users, cmds, times, account, at, snapshots)
    ensures Grows(snapshots)
  {
    forall k | 0 <= k < |snapshots| ensures Distinct(snapshots[k]) {
      assert SnapshotAt(users, cmds, times, account, at[k], snapshots[k]);
      FreshBefore(users, cmds, at[k]);
      HistoryIsDistinct(users, cmds[..at[k]], times, account);
    }
    forall i, j | 0 <= i < j < |snapshots| ensures snapshots[i] <= snapshots[j] {
      assert SnapshotAt(users, cmds, times, account, at[i], snapshots[i]);
      assert SnapshotAt(users, cmds, times, account, at[j], snapshots[j]);
      assert cmds[..at[j]][..at[i]] == cmds[..at[i]];
      PostingsGrow(users, cmds[..at[j]], at[i]);
      LinesOfPrefix(Run(users, EMPTY, cmds[..at[i]]).postings, Run(users, EMPTY, cmds[..at[j]]).postings, times,
        account);
    }
  }

  /** Pages read at any moments of a run never show a posting twice. */
  lemma RunningHistoryNeverRepeats(users: set<nat>, cmds: seq<Command>, times: map<nat, int>, account: nat,
                                   at: seq<nat>, snapshots: seq<seq<Line>>,
                                   owner: nat, limit: int, pages: seq<seq<Line>>)
    requires AllFresh(users, cmds) && ReadDuring(users, cmds, times, account, at, snapshots)
    requires IsWalk(owner, snapshots, limit, pages)
    ensures Descending(Concat(pages))
  {
    RunSnapshotsGrow(users, cmds, times, account, at, snapshots);
    GrowthNeverRepeats(owner, snapshots, limit, pages);
  }
}
