/**
 The client's message list: merging without duplicates, unread arithmetic, and
 how far history may honestly be marked read.
 */
module Store {
  import opened Prelude

  datatype Msg = Msg(id: nat, conversation: nat, sender: nat, pos: int, sentAt: int, client: nat)

  // ----- order -----

  /** Position, then time, then id. */
  predicate Before(a: Msg, b: Msg) {
    a.pos < b.pos || (a.pos == b.pos && (a.sentAt < b.sentAt || (a.sentAt == b.sentAt && a.id < b.id)))
  }

  predicate Sorted(list: seq<Msg>) {
    forall i, j :: 0 <= i < j < |list| ==> !Before(list[j], list[i])
  }

  function Insert(m: Msg, list: seq<Msg>): seq<Msg> {
    if list == [] || !Before(list[0], m) then [m] + list else [list[0]] + Insert(m, list[1..])
  }

  /** Stable sort of a copy. */
  function Sort(list: seq<Msg>): seq<Msg> {
    if list == [] then [] else Insert(list[0], Sort(list[1..]))
  }

  lemma {:induction false} InsertAdds(m: Msg, list: seq<Msg>)
    ensures multiset(Insert(m, list)) == multiset(list) + multiset{m}
    ensures forall x :: x in Insert(m, list) <==> x == m || x in list
  {
    if list != [] && Before(list[0], m) {
      InsertAdds(m, list[1..]);
      assert list == [list[0]] + list[1..];
    }
  }

  lemma {:induction false} InsertSorts(m: Msg, list: seq<Msg>)
    requires Sorted(list)
    ensures Sorted(Insert(m, list))
  {
    if list != [] && Before(list[0], m) {
      InsertSorts(m, list[1..]);
      InsertAdds(m, list[1..]);
      var rest := Insert(m, list[1..]);
      forall j | 0 <= j < |rest| ensures !Before(rest[j], list[0]) {
        assert rest[j] in rest;
      }
    }
  }

  lemma {:induction false} SortFacts(list: seq<Msg>)
    ensures Sorted(Sort(list)) && multiset(Sort(list)) == multiset(list)
  {
    if list != [] {
      SortFacts(list[1..]);
      InsertAdds(list[0], Sort(list[1..]));
      InsertSorts(list[0], Sort(list[1..]));
      assert list == [list[0]] + list[1..];
    }
  }

  lemma {:induction false} SortIsIdempotent(list: seq<Msg>)
    requires Sorted(list)
    ensures Sort(list) == list
  {
    if list != [] {
      SortIsIdempotent(list[1..]);
    }
  }

  lemma SortMembers(list: seq<Msg>, m: Msg)
    ensures m in Sort(list) <==> m in list
  {
    SortFacts(list);
    assert m in multiset(Sort(list)) <==> m in multiset(list);
  }

  // ----- merge -----

  /** Same row, or same idempotency key in the same conversation. */
  predicate Same(a: Msg, b: Msg) {
    a.id == b.id || (a.conversation == b.conversation && a.client == b.client)
  }

  predicate Known(list: seq<Msg>, m: Msg) {
    exists k :: k in list && Same(k, m)
  }

  function Append(existing: seq<Msg>, incoming: seq<Msg>): seq<Msg> {
    if incoming == [] then existing
    else
      var out, m := Append(existing, incoming[..|incoming| - 1]), incoming[|incoming| - 1];
      if Known(out, m) then out else out + [m]
  }

  function Merge(existing: seq<Msg>, incoming: seq<Msg>): seq<Msg> {
    Sort(Append(existing, incoming))
  }

  predicate NoDuplicates(list: seq<Msg>) {
    forall i, j :: 0 <= i < j < |list| ==> !Same(list[i], list[j])
  }

  lemma {:induction false} AppendFacts(existing: seq<Msg>, incoming: seq<Msg>)
    ensures var out := Append(existing, incoming);
      && existing <= out
      && (forall m :: m in out ==> m in existing || m in incoming)
      && (forall m :: m in incoming ==> Known(out, m))
      && (NoDuplicates(existing) ==> NoDuplicates(out))
  {
    if incoming != [] {
      var before, m := incoming[..|incoming| - 1], incoming[|incoming| - 1];
      AppendFacts(existing, before);
      var out, out' := Append(existing, before), Append(existing, incoming);
      forall k | k in incoming ensures Known(out', k) {
        if k in before {
          var w :| w in out && Same(w, k);
          assert w in out';
        } else if out' == out + [m] {
          assert out'[|out|] == m && m in out' && Same(m, k);
        }
      }
    }
  }

  lemma {:induction false} AppendKnownIsNothing(existing: seq<Msg>, incoming: seq<Msg>)
    requires forall m :: m in incoming ==> Known(existing, m)
    ensures Append(existing, incoming) == existing
  {
    if incoming != [] {
      AppendKnownIsNothing(existing, incoming[..|incoming| - 1]);
    }
  }

  lemma PrependKeepsNoDuplicates(m: Msg, list: seq<Msg>)
    requires NoDuplicates(list) && forall k :: k in list ==> !Same(m, k)
    ensures NoDuplicates([m] + list)
  {
  }

  lemma {:induction false} InsertKeepsNoDuplicates(m: Msg, list: seq<Msg>)
    requires NoDuplicates(list) && forall k :: k in list ==> !Same(k, m)
    ensures NoDuplicates(Insert(m, list))
    ensures forall k :: k in Insert(m, list) ==> k == m || k in list
  {
    if list != [] && Before(list[0], m) {
      InsertKeepsNoDuplicates(m, list[1..]);
      assert list == [list[0]] + list[1..];
      var rest := Insert(m, list[1..]);
      forall k | k in rest ensures !Same(list[0], k) {
        assert k == m || k in list[1..];
      }
      PrependKeepsNoDuplicates(list[0], rest);
    } else {
      PrependKeepsNoDuplicates(m, list);
    }
  }

  lemma {:induction false} SortKeepsNoDuplicates(list: seq<Msg>)
    requires NoDuplicates(list)
    ensures NoDuplicates(Sort(list))
  {
    if list != [] {
      SortKeepsNoDuplicates(list[1..]);
      forall k | k in Sort(list[1..]) ensures !Same(k, list[0]) {
        SortMembers(list[1..], k);
      }
      InsertKeepsNoDuplicates(list[0], Sort(list[1..]));
    }
  }

  /**
   Merging keeps every existing message, represents every incoming one, adds
   nothing else, introduces no duplicate, and leaves the list sorted.
   */
  lemma MergeFacts(existing: seq<Msg>, incoming: seq<Msg>)
    ensures var out := Merge(existing, incoming);
      && Sorted(out)
      && (forall m :: m in existing ==> m in out)
      && (forall m :: m in out ==> m in existing || m in incoming)
      && (forall m :: m in incoming ==> Known(out, m))
      && (NoDuplicates(existing) ==> NoDuplicates(out))
  {
    var out, list := Merge(existing, incoming), Append(existing, incoming);
    AppendFacts(existing, incoming);
    SortFacts(list);
    forall m ensures m in out <==> m in list {
      SortMembers(list, m);
    }
    forall m | m in incoming ensures Known(out, m) {
      var w :| w in list && Same(w, m);
      assert w in out;
    }
    if NoDuplicates(existing) {
      SortKeepsNoDuplicates(list);
    }
  }

  /** Merging the same rows again changes nothing. */
  lemma MergeIsIdempotent(existing: seq<Msg>, incoming: seq<Msg>)
    ensures Merge(Merge(existing, incoming), incoming) == Merge(existing, incoming)
  {
    MergeFacts(existing, incoming);
    AppendKnownIsNothing(Merge(existing, incoming), incoming);
    SortIsIdempotent(Merge(existing, incoming));
  }

  /** The program's version, with its two indexes. */
  method MergeMessages(existing: seq<Msg>, incoming: seq<Msg>) returns (merged: seq<Msg>)
    ensures merged == Merge(existing, incoming)
  {
    var byId := set m | m in existing :: m.id;
    var byClient := set m | m in existing :: (m.conversation, m.client);
    var out := existing;
    for i := 0 to |incoming|
      invariant out == Append(existing, incoming[..i])
      invariant byId == set m | m in out :: m.id
      invariant byClient == set m | m in out :: (m.conversation, m.client)
    {
      var m := incoming[i];
      assert incoming[..i + 1][..i] == incoming[..i];
      if m.id !in byId && (m.conversation, m.client) !in byClient {
        assert !Known(out, m);
        byId := byId + {m.id};
        byClient := byClient + {(m.conversation, m.client)};
        out := out + [m];
      } else {
        assert Known(out, m);
      }
    }
    assert incoming[..|incoming|] == incoming;
    merged := Sort(out);
  }

  // ----- unread arithmetic -----

  function Newer(list: seq<Msg>, read: int): seq<Msg> {
    if list == [] then []
    else (if list[0].pos > read then [list[0]] else []) + Newer(list[1..], read)
  }

  function Highest(list: seq<Msg>, low: int): int {
    if list == [] then low else Highest(list[1..], Max(low, list[0].pos))
  }

  function CountOthers(list: seq<Msg>, me: nat): nat {
    if list == [] then 0 else (if list[0].sender != me then 1 else 0) + CountOthers(list[1..], me)
  }

  function Positions(list: seq<Msg>): set<int> {
    set m | m in list :: m.pos
  }

  /** The newest position the client knows of. */
  function Latest(read: int, lastSeq: Option<int>, list: seq<Msg>): int {
    Highest(Newer(list, read), Max(if lastSeq.Some? then lastSeq.value else 0, read))
  }

  function UnreadCount(marker: Option<int>, lastSeq: Option<int>, list: seq<Msg>, me: nat): int {
    if marker == None then 0
    else
      var read, after := marker.value, Newer(list, marker.value);
      CountOthers(after, me) + Max(0, Latest(read, lastSeq, list) - read - |Positions(after)|)
  }

  predicate DistinctPositions(list: seq<Msg>) {
    forall i, j :: 0 <= i < j < |list| ==> list[i].pos != list[j].pos
  }

  /** Positions in (read, latest] that are not in `known`, counted one by one. */
  function Gaps(read: int, latest: int, known: set<int>): nat
    decreases latest - read
  {
    if latest <= read then 0 else Gaps(read, latest - 1, known) + (if latest in known then 0 else 1)
  }

  function Own(list: seq<Msg>, me: nat): set<int> {
    set m | m in list && m.sender == me :: m.pos
  }

  lemma {:induction false} NewerFacts(list: seq<Msg>, read: int)
    ensures forall m :: m in Newer(list, read) <==> m in list && m.pos > read
    ensures DistinctPositions(list) ==> DistinctPositions(Newer(list, read))
  {
    if list != [] {
      NewerFacts(list[1..], read);
      assert list == [list[0]] + list[1..];
    }
  }

  lemma {:induction false} HighestFacts(list: seq<Msg>, low: int)
    ensures Highest(list, low) >= low && forall m :: m in list ==> m.pos <= Highest(list, low)
  {
    if list != [] {
      HighestFacts(list[1..], Max(low, list[0].pos));
      assert list == [list[0]] + list[1..];
    }
  }

  lemma SetsOfCons(first: Msg, rest: seq<Msg>, me: nat)
    ensures Positions([first] + rest) == Positions(rest) + {first.pos}
    ensures Own([first] + rest, me) == if first.sender == me then Own(rest, me) + {first.pos} else Own(rest, me)
    ensures Own(rest, me) <= Positions(rest)
  {
  }

  /** Distinct positions: own and others' messages add up to the loaded positions. */
  lemma {:induction false} OwnAndOthers(list: seq<Msg>, me: nat)
    requires DistinctPositions(list)
    ensures |Positions(list)| == |list| && |Own(list, me)| + CountOthers(list, me) == |list|
  {
    if list != [] {
      var first, rest := list[0], list[1..];
      OwnAndOthers(rest, me);
      assert list == [first] + rest;
      SetsOfCons(first, rest, me);
      assert first.pos !in Positions(rest);
    }
  }

  lemma {:induction false} GapsBelow(read: int, latest: int, a: set<int>, b: set<int>)
    requires forall p :: read < p <= latest ==> (p in a <==> p in b)
    ensures Gaps(read, latest, a) == Gaps(read, latest, b)
    decreases latest - read
  {
    if latest > read {
      GapsBelow(read, latest - 1, a, b);
    }
  }

  lemma {:induction false} GapsAreTheRest(read: int, latest: int, known: set<int>)
    requires read <= latest && forall p :: p in known ==> read < p <= latest
    ensures Gaps(read, latest, known) == latest - read - |known|
    decreases latest - read
  {
    if latest == read {
      assert forall p :: p !in known;
    } else {
      GapsAreTheRest(read, latest - 1, known - {latest});
      GapsBelow(read, latest - 1, known, known - {latest});
    }
  }

  lemma {:induction false} HighestIsReached(list: seq<Msg>, low: int)
    ensures Highest(list, low) == low || exists m :: m in list && m.pos == Highest(list, low)
  {
    if list != [] {
      HighestIsReached(list[1..], Max(low, list[0].pos));
      assert list == [list[0]] + list[1..];
      assert list[0] in list;
    }
  }

  /** The newest position is at or beyond the marker, the announced one and every loaded one, and is one of them. */
  lemma LatestIsNewest(read: int, lastSeq: Option<int>, list: seq<Msg>)
    ensures var latest := Latest(read, lastSeq, list);
      && latest >= read && (lastSeq.Some? ==> latest >= lastSeq.value) && (forall m :: m in list ==> m.pos <= latest)
      && (latest in {read, if lastSeq.Some? then lastSeq.value else 0} || exists m :: m in list && m.pos == latest)
  {
    var low := Max(if lastSeq.Some? then lastSeq.value else 0, read);
    NewerFacts(list, read);
    HighestFacts(Newer(list, read), low);
    HighestIsReached(Newer(list, read), low);
  }

  /** The unread count is the number of positions after the marker not loaded as one's own. */
  lemma UnreadIsNotOwn(read: int, lastSeq: Option<int>, list: seq<Msg>, me: nat)
    requires DistinctPositions(list)
    ensures UnreadCount(Some(read), lastSeq, list, me) == Gaps(read, Latest(read, lastSeq, list), Own(list, me))
  {
    var after, latest := Newer(list, read), Latest(read, lastSeq, list);
    NewerFacts(list, read);
    HighestFacts(after, Max(if lastSeq.Some? then lastSeq.value else 0, read));
    OwnAndOthers(after, me);
    GapsAreTheRest(read, latest, Own(after, me));
    GapsAreTheRest(read, latest, Positions(after));
    GapsBelow(read, latest, Own(after, me), Own(list, me));
  }

  lemma {:induction false} GapsAntitone(read: int, latest: int, a: set<int>, b: set<int>)
    requires forall p :: read < p <= latest && p in b ==> p in a
    ensures Gaps(read, latest, a) <= Gaps(read, latest, b)
    decreases latest - read
  {
    if latest > read {
      GapsAntitone(read, latest - 1, a, b);
    }
  }

  /**
   With `mine` the positions the user really wrote: others' messages are never
   undercounted, and the count is exact when all of one's own are loaded.
   */
  lemma UnreadNeverUndercounts(read: int, lastSeq: Option<int>, list: seq<Msg>, me: nat, mine: set<int>)
    requires DistinctPositions(list) && Own(list, me) <= mine
    ensures var latest := Latest(read, lastSeq, list);
      && UnreadCount(Some(read), lastSeq, list, me) >= Gaps(read, latest, mine)
      && ((forall p :: p in mine && read < p <= latest ==> p in Own(list, me)) ==>
            UnreadCount(Some(read), lastSeq, list, me) == Gaps(read, latest, mine))
  {
    var latest := Latest(read, lastSeq, list);
    UnreadIsNotOwn(read, lastSeq, list, me);
    GapsAntitone(read, latest, mine, Own(list, me));
    if forall p :: p in mine && read < p <= latest ==> p in Own(list, me) {
      GapsBelow(read, latest, mine, Own(list, me));
    }
  }

  // ----- how far history may be marked read -----

  predicate LoadedBetween(list: seq<Msg>, marker: int, through: int) {
    forall p :: marker < p <= through ==> p in Positions(list)
  }

  /** Loaded without holes from the marker, and not one position further. */
  predicate GaplessUpTo(list: seq<Msg>, marker: int, through: int) {
    marker <= through && through + 1 !in Positions(list) && LoadedBetween(list, marker, through)
  }

  method ReadableThrough(list: seq<Msg>, marker: int) returns (through: int)
    ensures GaplessUpTo(list, marker, through)
    ensures forall t :: t > through ==> !LoadedBetween(list, marker, t)
  {
    var loaded := Positions(list);
    through := marker;
    while through + 1 in loaded
      invariant marker <= through && forall p :: marker < p <= through ==> p in loaded
      decreases |set p | p in loaded && p > through|
    {
      assert (set p | p in loaded && p > through) == (set p | p in loaded && p > through + 1) + {through + 1};
      through := through + 1;
    }
    assert through + 1 !in loaded;
  }
}
