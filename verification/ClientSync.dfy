/**
 A client and its server keeping one conversation in step. The server runs any
 sequence of `Messaging` operations. The client drains history pages through a
 single job with an `again` flag, hears announcements late, repeatedly or not
 in order, merges replies to its own sends ahead of history, and mirrors its
 read marker.
 */
module ClientSync {
  import opened Prelude
  import Messaging
  import Store

  const PAGE := 100

  // ----- the history job -----

  /**
   `began` and `issued` are the times of the current attempt and of its latest
   page request, `floor` the length of the server's log at that request.
   */
  datatype Job = Job(again: bool, since: int, began: nat, issued: nat, floor: nat)

  /** A trigger starts a drain, or leaves word with the one that is running. */
  function Refreshed(job: Option<Job>, cursor: int, now: nat, served: nat): Job {
    if job.Some? then job.value.(again := true) else Job(false, cursor, now, now, served)
  }

  /** A failing request earns one more attempt when something asked for it meanwhile. */
  function Failed(job: Job, cursor: int, now: nat, served: nat): Option<Job> {
    if job.again then Some(Job(false, cursor, now, now, served)) else None
  }

  /** After a page of `size` rows moved the cursor: next page, next attempt, or done. */
  function Paged(job: Job, size: nat, cursor: int, now: nat, served: nat): Option<Job> {
    if size == PAGE && cursor <= job.since then Failed(job, cursor, now, served)
    else if size == PAGE then Some(Job(job.again, cursor, job.began, now, served))
    else if job.again then Some(Job(false, cursor, now, now, served))
    else None
  }

  // ----- client, server and time -----

  datatype Client = Client(
    list: seq<Store.Msg>,
    cursor: int,
    job: Option<Job>,
    seen: set<nat>,
    marker: Option<int>)

  /** An announcement of position `pos` handled at time `at`. */
  datatype Heard = Heard(pos: int, at: nat)

  /** `failures` holds the start times of the page requests that failed. */
  datatype World = World(log: seq<Messaging.Op>, clock: nat, client: Client, heard: set<Heard>, failures: set<nat>)

  const START := World([], 0, Client([], 0, None, {}, None), {}, {})

  datatype Step =
    | Serve(op: Messaging.Op)
    | Hear(event: Messaging.Event)
    | Refresh
    | Respond(served: nat)
    | Fail
    | Echo(pos: nat)
    | Learn(served: nat)

  function Server(w: World): Messaging.Conv {
    Messaging.Run(w.log)
  }

  /** The client's copy of a row. Positions are distinct, so its time never decides an order. */
  function Chat(m: Messaging.Msg): Store.Msg {
    Store.Msg(m.id, 0, m.sender, m.pos, 0, m.client)
  }

  function Chats(page: seq<Messaging.Msg>): seq<Store.Msg> {
    seq(|page|, i requires 0 <= i < |page| => Chat(page[i]))
  }

  predicate HasId(messages: seq<Messaging.Msg>, id: nat) {
    exists m :: m in messages && m.id == id
  }

  predicate Enabled(w: World, me: nat, step: Step) {
    match step
    case Serve(op) => op.Send? ==> !HasId(Server(w).messages, op.messageId)
    case Hear(event) => event in Server(w).outbox
    case Refresh => true
    case Respond(served) => w.client.job.Some? && w.client.job.value.floor <= served <= |w.log|
    case Fail => w.client.job.Some?
    case Echo(pos) => 1 <= pos <= |Server(w).messages| && Server(w).messages[pos - 1].sender == me
    case Learn(served) => served <= |w.log| && me in Messaging.Run(w.log[..served]).seats
  }

  function RefreshClient(c: Client, now: nat, served: nat): Client {
    c.(job := Some(Refreshed(c.job, c.cursor, now, served)))
  }

  /** A new event always refreshes; a redelivered one only while its row is missing. */
  function HearClient(c: Client, event: nat, pos: int, now: nat, served: nat): Client {
    var job := if event in c.seen && c.cursor >= pos then c.job else Some(Refreshed(c.job, c.cursor, now, served));
    c.(seen := c.seen + {event}, job := job)
  }

  function FailClient(c: Client, now: nat, served: nat): Client
    requires c.job.Some?
  {
    c.(job := Failed(c.job.value, c.cursor, now, served))
  }

  function PageClient(c: Client, page: seq<Store.Msg>, now: nat, served: nat): Client
    requires c.job.Some?
  {
    var cursor := Store.Highest(page, c.cursor);
    c.(list := Store.Merge(c.list, page), cursor := cursor, job := Paged(c.job.value, |page|, cursor, now, served))
  }

  /** The reply to one's own send; a caught-up marker steps over it. */
  function EchoClient(c: Client, m: Store.Msg): Client {
    c.(list := Store.Merge(c.list, [m]), marker := if c.marker == Some(m.pos - 1) then Some(m.pos) else c.marker)
  }

  function LearnClient(c: Client, known: int): Client {
    c.(marker := Some(if c.marker.Some? then Max(c.marker.value, known) else known))
  }

  function Failing(w: World): World
    requires w.client.job.Some?
  {
    w.(client := FailClient(w.client, w.clock, |w.log|), failures := w.failures + {w.client.job.value.issued})
  }

  function Responding(w: World, page: seq<Store.Msg>): World
    requires w.client.job.Some?
  {
    var client, job := PageClient(w.client, page, w.clock, |w.log|), w.client.job.value;
    w.(client := client,
       failures := if |page| == PAGE && client.cursor <= job.since then w.failures + {job.issued} else w.failures)
  }

  function Effect(w: World, me: nat, step: Step): World
    requires Enabled(w, me, step)
  {
    match step
    case Serve(op) => w.(log := w.log + [op])
    case Hear(event) =>
      w.(client := HearClient(w.client, event.id, event.pos, w.clock, |w.log|),
        heard := w.heard + {Heard(event.pos, w.clock)})
    case Refresh => w.(client := RefreshClient(w.client, w.clock, |w.log|))
    case Respond(served) =>
      var page := Messaging.Page(Messaging.Run(w.log[..served]), me, w.client.job.value.since, PAGE);
      if page == None then Failing(w) else Responding(w, Chats(page.value))
    case Fail => Failing(w)
    case Echo(pos) => w.(client := EchoClient(w.client, Chat(Server(w).messages[pos - 1])))
    case Learn(served) => w.(client := LearnClient(w.client, Messaging.Run(w.log[..served]).seats[me]))
  }

  function Next(w: World, me: nat, step: Step): World {
    if Enabled(w, me, step) then Effect(w, me, step).(clock := w.clock + 1) else w
  }

  /** Where a run leads; a step that is not possible changes nothing. */
  function Play(me: nat, steps: seq<Step>): World {
    if steps == [] then START else Next(Play(me, steps[..|steps| - 1]), me, steps[|steps| - 1])
  }

  // ----- what every reachable world keeps -----

  predicate DistinctIds(messages: seq<Messaging.Msg>) {
    forall i, j :: 0 <= i < j < |messages| ==> messages[i].id != messages[j].id
  }

  predicate IsCopy(m: Store.Msg, messages: seq<Messaging.Msg>) {
    1 <= m.pos <= |messages| && m == Chat(messages[m.pos - 1])
  }

  predicate AllCopies(list: seq<Store.Msg>, messages: seq<Messaging.Msg>) {
    forall m :: m in list ==> IsCopy(m, messages)
  }

  predicate LoadedUpTo(list: seq<Store.Msg>, messages: seq<Messaging.Msg>, cursor: int) {
    0 <= cursor <= |messages| && forall i :: 0 <= i < cursor ==> Chat(messages[i]) in list
  }

  predicate Faithful(list: seq<Store.Msg>, cursor: int, messages: seq<Messaging.Msg>) {
    Store.Sorted(list) && Store.NoDuplicates(list) && AllCopies(list, messages) && LoadedUpTo(list, messages, cursor)
  }

  function Length(log: seq<Messaging.Op>, served: nat): nat
    requires served <= |log|
  {
    |Messaging.Run(log[..served]).messages|
  }

  /** The running job continues the cursor and was issued after everything it must answer for. */
  predicate JobSound(job: Option<Job>, cursor: int, clock: nat, log: seq<Messaging.Op>, heard: set<Heard>) {
    job.Some? ==>
      && job.value.began <= job.value.issued < clock
      && job.value.floor <= |log|
      && job.value.since == cursor <= Length(log, job.value.floor)
      && forall h :: h in heard && h.at <= job.value.issued ==> h.pos <= Length(log, job.value.floor)
  }

  predicate FailedSince(failures: set<nat>, at: nat) {
    exists f :: f in failures && f >= at
  }

  /** What is owed to an announcement. */
  predicate Promised(h: Heard, cursor: int, job: Option<Job>, failures: set<nat>) {
    h.pos <= cursor || FailedSince(failures, h.at) || (job.Some? && (job.value.again || h.at <= job.value.began))
  }

  predicate Wakeful(w: World) {
    forall h :: h in w.heard ==> h.at < w.clock && Promised(h, w.client.cursor, w.client.job, w.failures)
  }

  predicate HeardExist(heard: set<Heard>, n: nat) {
    forall h :: h in heard ==> h.pos <= n
  }

  predicate MarkerCovered(w: World, me: nat) {
    w.client.marker.Some? ==> Messaging.Covers(Server(w), me, w.client.marker.value, Messaging.Acked(w.log, me))
  }

  predicate Inv(w: World, me: nat) {
    && DistinctIds(Server(w).messages)
    && Faithful(w.client.list, w.client.cursor, Server(w).messages)
    && HeardExist(w.heard, |Server(w).messages|)
    && JobSound(w.client.job, w.client.cursor, w.clock, w.log, w.heard)
    && Wakeful(w)
    && MarkerCovered(w, me)
  }

  // ----- the server's log -----

  lemma MessagesGrowByOne(c: Messaging.Conv, op: Messaging.Op)
    ensures c.messages <= Messaging.Apply(c, op).0.messages
  {
  }

  lemma RunOfAppend(log: seq<Messaging.Op>, op: Messaging.Op)
    ensures Messaging.Run(log + [op]) == Messaging.Apply(Messaging.Run(log), op).0
  {
  }

  lemma {:induction false} MessagesGrow(log: seq<Messaging.Op>, served: nat)
    requires served <= |log|
    ensures Messaging.Run(log[..served]).messages <= Messaging.Run(log).messages
    decreases |log| - served
  {
    if served == |log| {
      assert log[..served] == log;
    } else {
      MessagesGrow(log, served + 1);
      assert log[..served + 1] == log[..served] + [log[served]];
      RunOfAppend(log[..served], log[served]);
      MessagesGrowByOne(Messaging.Run(log[..served]), log[served]);
    }
  }

  lemma LengthOfAll(log: seq<Messaging.Op>)
    ensures Length(log, |log|) == |Messaging.Run(log).messages|
  {
    assert log[..|log|] == log;
  }

  // ----- merging pages and echoes -----

  lemma CopiesAreUnique(a: Store.Msg, b: Store.Msg, log: seq<Messaging.Op>)
    requires var messages := Messaging.Run(log).messages;
      DistinctIds(messages) && IsCopy(a, messages) && IsCopy(b, messages)
    requires Store.Same(a, b) || a.pos == b.pos
    ensures a == b
  {
    Messaging.EveryRunIsSequenced(log);
  }

  /** Merging genuine rows loads each of them and disturbs nothing. */
  lemma MergeKeepsFaithful(list: seq<Store.Msg>, cursor: int, log: seq<Messaging.Op>, incoming: seq<Store.Msg>)
    requires var messages := Messaging.Run(log).messages;
      DistinctIds(messages) && Faithful(list, cursor, messages) && AllCopies(incoming, messages)
    ensures Faithful(Store.Merge(list, incoming), cursor, Messaging.Run(log).messages)
    ensures forall m :: m in incoming ==> m in Store.Merge(list, incoming)
  {
    Store.MergeFacts(list, incoming);
    var out := Store.Merge(list, incoming);
    forall m | m in incoming ensures m in out {
      var w :| w in out && Store.Same(w, m);
      CopiesAreUnique(w, m, log);
    }
  }

  lemma {:induction false} HighestOfStretch(page: seq<Store.Msg>, low: int)
    requires forall i :: 0 <= i < |page| ==> page[i].pos == low + 1 + i
    ensures Store.Highest(page, low) == low + |page|
  {
    if page != [] {
      HighestOfStretch(page[1..], low + 1);
    }
  }

  lemma StretchOfPrefix(a: seq<Messaging.Msg>, b: seq<Messaging.Msg>, low: nat, high: nat)
    requires a <= b && low <= high <= |a|
    ensures a[low..high] == b[low..high]
  {
  }

  /** The rows a page request brings, wherever in the log the server answered it. */
  lemma PageRows(log: seq<Messaging.Op>, served: nat, me: nat, since: nat)
    requires served <= |log| && me in Messaging.Run(log[..served]).seats && since <= Length(log, served)
    ensures var messages, high := Messaging.Run(log).messages, Min(Length(log, served), since + PAGE);
      && since <= high <= |messages|
      && Messaging.Page(Messaging.Run(log[..served]), me, since, PAGE) == Some(messages[since..high])
  {
    var earlier, messages := Messaging.Run(log[..served]).messages, Messaging.Run(log).messages;
    Messaging.PageIsStretch(log[..served], me, since, PAGE);
    MessagesGrow(log, served);
    StretchOfPrefix(earlier, messages, since, Min(|earlier|, since + PAGE));
  }

  lemma PageMerges(list: seq<Store.Msg>, cursor: nat, log: seq<Messaging.Op>, high: nat)
    requires var messages := Messaging.Run(log).messages;
      DistinctIds(messages) && Faithful(list, cursor, messages) && cursor <= high <= |messages|
    ensures var messages := Messaging.Run(log).messages; var page := Chats(messages[cursor..high]);
      && |page| == high - cursor
      && Store.Highest(page, cursor) == high
      && Faithful(Store.Merge(list, page), high, messages)
  {
    Messaging.EveryRunIsSequenced(log);
    var messages := Messaging.Run(log).messages;
    var page := Chats(messages[cursor..high]);
    assert forall i :: 0 <= i < |page| ==> page[i] == Chat(messages[cursor + i]);
    HighestOfStretch(page, cursor);
    MergeKeepsFaithful(list, cursor, log, page);
    forall i | cursor <= i < high ensures Chat(messages[i]) in Store.Merge(list, page) {
      assert page[i - cursor] == Chat(messages[i]);
    }
  }

  // ----- every step keeps the invariant -----

  lemma GrowthKeepsFaithful(list: seq<Store.Msg>, cursor: int, a: seq<Messaging.Msg>, b: seq<Messaging.Msg>)
    requires Faithful(list, cursor, a) && a <= b
    ensures Faithful(list, cursor, b)
  {
  }

  lemma CoverageGrows(log: seq<Messaging.Op>, op: Messaging.Op, me: nat, marker: int)
    requires Messaging.Covers(Messaging.Run(log), me, marker, Messaging.Acked(log, me))
    ensures Messaging.Covers(Messaging.Run(log + [op]), me, marker, Messaging.Acked(log + [op], me))
  {
  }

  /** A marker the server ever reported is covered from then on. */
  lemma {:induction false} ReportedIsCovered(log: seq<Messaging.Op>, served: nat, me: nat)
    requires served <= |log| && me in Messaging.Run(log[..served]).seats
    ensures Messaging.Covers(Messaging.Run(log), me, Messaging.Run(log[..served]).seats[me], Messaging.Acked(log, me))
  {
    if served == |log| {
      assert log[..served] == log;
      Messaging.MarkersNeverSkip(log);
    } else {
      var before, op := log[..|log| - 1], log[|log| - 1];
      assert log == before + [op] && before[..served] == log[..served];
      ReportedIsCovered(before, served, me);
      CoverageGrows(before, op, me, Messaging.Run(log[..served]).seats[me]);
    }
  }

  lemma NewJobIsSound(again: bool, began: nat, cursor: int, clock: nat, log: seq<Messaging.Op>, heard: set<Heard>)
    requires began <= clock && 0 <= cursor <= |Messaging.Run(log).messages|
    requires HeardExist(heard, |Messaging.Run(log).messages|)
    ensures JobSound(Some(Job(again, cursor, began, clock, |log|)), cursor, clock + 1, log, heard)
  {
    LengthOfAll(log);
  }

  lemma GrowthKeepsIds(c: Messaging.Conv, op: Messaging.Op)
    requires DistinctIds(c.messages) && (op.Send? ==> !HasId(c.messages, op.messageId))
    ensures DistinctIds(Messaging.Apply(c, op).0.messages)
  {
  }

  lemma GrowthKeepsJob(w: World, op: Messaging.Op)
    requires JobSound(w.client.job, w.client.cursor, w.clock, w.log, w.heard)
    ensures JobSound(w.client.job, w.client.cursor, w.clock + 1, w.log + [op], w.heard)
  {
    if w.client.job.Some? {
      var floor := w.client.job.value.floor;
      assert (w.log + [op])[..floor] == w.log[..floor];
    }
  }

  lemma ServeKeeps(w: World, me: nat, op: Messaging.Op)
    requires Inv(w, me) && Enabled(w, me, Serve(op))
    ensures Inv(Next(w, me, Serve(op)), me)
  {
    RunOfAppend(w.log, op);
    MessagesGrowByOne(Server(w), op);
    GrowthKeepsIds(Server(w), op);
    GrowthKeepsFaithful(w.client.list, w.client.cursor, Server(w).messages, Messaging.Run(w.log + [op]).messages);
    GrowthKeepsJob(w, op);
    if w.client.marker.Some? {
      CoverageGrows(w.log, op, me, w.client.marker.value);
    }
  }

  lemma AnnouncedExists(log: seq<Messaging.Op>, event: Messaging.Event)
    requires event in Messaging.Run(log).outbox
    ensures 1 <= event.pos <= |Messaging.Run(log).messages|
  {
    Messaging.EveryRunIsSequenced(log);
    var c := Messaging.Run(log);
    var i :| 0 <= i < |c.outbox| && c.outbox[i] == event;
    assert Messaging.EventOf(c.outbox[i], c.messages[i]);
  }

  lemma RefreshedIsSound(w: World, heard: set<Heard>)
    requires JobSound(w.client.job, w.client.cursor, w.clock, w.log, w.heard)
    requires 0 <= w.client.cursor <= |Server(w).messages| && HeardExist(heard, |Server(w).messages|)
    requires forall h :: h in heard ==> h in w.heard || h.at == w.clock
    ensures JobSound(Some(Refreshed(w.client.job, w.client.cursor, w.clock, |w.log|)), w.client.cursor, w.clock + 1,
      w.log, heard)
  {
    if w.client.job == None {
      NewJobIsSound(false, w.clock, w.client.cursor, w.clock, w.log, heard);
    }
  }

  lemma RefreshKeeps(w: World, me: nat)
    requires Inv(w, me)
    ensures Inv(Next(w, me, Refresh), me)
  {
    RefreshedIsSound(w, w.heard);
  }

  lemma HearKeeps(w: World, me: nat, event: Messaging.Event)
    requires Inv(w, me) && Enabled(w, me, Hear(event))
    ensures Inv(Next(w, me, Hear(event)), me)
  {
    AnnouncedExists(w.log, event);
    RefreshedIsSound(w, w.heard + {Heard(event.pos, w.clock)});
  }

  lemma EchoKeeps(w: World, me: nat, pos: nat)
    requires Inv(w, me) && Enabled(w, me, Echo(pos))
    ensures Inv(Next(w, me, Echo(pos)), me)
  {
    Messaging.EveryRunIsSequenced(w.log);
    MergeKeepsFaithful(w.client.list, w.client.cursor, w.log, [Chat(Server(w).messages[pos - 1])]);
  }

  lemma LearnKeeps(w: World, me: nat, served: nat)
    requires Inv(w, me) && Enabled(w, me, Learn(served))
    ensures Inv(Next(w, me, Learn(served)), me)
  {
    ReportedIsCovered(w.log, served, me);
  }

  lemma FailingKeeps(w: World, me: nat)
    requires Inv(w, me) && w.client.job.Some?
    ensures Inv(Failing(w).(clock := w.clock + 1), me)
  {
    NewJobIsSound(false, w.clock, w.client.cursor, w.clock, w.log, w.heard);
    var w' := Failing(w);
    assert w.client.job.value.issued in w'.failures;
    forall h | h in w.heard ensures Promised(h, w'.client.cursor, w'.client.job, w'.failures) {
      assert Promised(h, w.client.cursor, w.client.job, w.failures);
    }
  }

  /** A served page fits the cursor: it loads up to its end, and a short one reaches the request's floor. */
  lemma PageArrives(w: World, me: nat, served: nat)
    requires Inv(w, me) && Enabled(w, me, Respond(served)) && me in Messaging.Run(w.log[..served]).seats
    ensures var c, job, messages := w.client, w.client.job.value, Server(w).messages;
      var high := Min(Length(w.log, served), c.cursor + PAGE);
      && c.cursor <= high <= |messages|
      && Messaging.Page(Messaging.Run(w.log[..served]), me, job.since, PAGE) == Some(messages[c.cursor..high])
      && (high < c.cursor + PAGE ==> high == Length(w.log, served) >= Length(w.log, job.floor))
  {
    var floor := w.client.job.value.floor;
    assert w.log[..served][..floor] == w.log[..floor];
    MessagesGrow(w.log[..served], floor);
    PageRows(w.log, served, me, w.client.cursor);
  }

  lemma RespondKeeps(w: World, me: nat, served: nat)
    requires Inv(w, me) && Enabled(w, me, Respond(served)) && me in Messaging.Run(w.log[..served]).seats
    ensures Inv(Next(w, me, Respond(served)), me)
  {
    PageArrives(w, me, served);
    var high := Min(Length(w.log, served), w.client.cursor + PAGE);
    PageMerges(w.client.list, w.client.cursor, w.log, high);
    var job, page := w.client.job.value, Chats(Server(w).messages[w.client.cursor..high]);
    var w' := Responding(w, page);
    if |page| == PAGE {
      NewJobIsSound(job.again, job.began, high, w.clock, w.log, w.heard);
    } else if job.again {
      NewJobIsSound(false, w.clock, high, w.clock, w.log, w.heard);
    }
    forall h | h in w.heard ensures Promised(h, w'.client.cursor, w'.client.job, w'.failures) {
      assert Promised(h, w.client.cursor, w.client.job, w.failures);
    }
  }

  lemma NextKeeps(w: World, me: nat, step: Step)
    requires Inv(w, me)
    ensures Inv(Next(w, me, step), me)
  {
    if Enabled(w, me, step) {
      match step
      case Serve(op) => ServeKeeps(w, me, op);
      case Hear(event) => HearKeeps(w, me, event);
      case Refresh => RefreshKeeps(w, me);
      case Respond(served) =>
        if me in Messaging.Run(w.log[..served]).seats {
          RespondKeeps(w, me, served);
        } else {
          FailingKeeps(w, me);
        }
      case Fail => FailingKeeps(w, me);
      case Echo(pos) => EchoKeeps(w, me, pos);
      case Learn(served) => LearnKeeps(w, me, served);
    } else {
    }
  }

  lemma {:induction false} PlayKeeps(me: nat, steps: seq<Step>)
    ensures Inv(Play(me, steps), me)
  {
    if steps != [] {
      PlayKeeps(me, steps[..|steps| - 1]);
      NextKeeps(Play(me, steps[..|steps| - 1]), me, steps[|steps| - 1]);
    }
  }

  // ----- the promises to the reader -----

  predicate InFlightSince(job: Option<Job>, at: nat) {
    job.Some? && at <= job.value.issued
  }

  predicate OwedByAgain(job: Option<Job>) {
    job.Some? && job.value.again
  }

  /**
   No wakeup is lost: an announced position is behind the cursor, or a page
   request issued since then is in flight, is still owed, or has failed.
   */
  lemma NoLostWakeup(me: nat, steps: seq<Step>, h: Heard)
    requires h in Play(me, steps).heard
    ensures var w := Play(me, steps);
      || h.pos <= w.client.cursor
      || InFlightSince(w.client.job, h.at) || OwedByAgain(w.client.job) || FailedSince(w.failures, h.at)
  {
    PlayKeeps(me, steps);
  }

  /** At rest, what was announced and not answered by a failure is on the screen. */
  lemma AtRestAllIsLoaded(me: nat, steps: seq<Step>, h: Heard)
    requires h in Play(me, steps).heard && Play(me, steps).client.job == None
    requires !FailedSince(Play(me, steps).failures, h.at)
    ensures var w := Play(me, steps);
      forall i :: 0 <= i < h.pos ==> i < |Server(w).messages| && Chat(Server(w).messages[i]) in w.client.list
  {
    PlayKeeps(me, steps);
  }

  predicate OnceAt(list: seq<Store.Msg>, k: int, m: Store.Msg) {
    0 <= k < |list| && list[k] == m && forall j :: 0 <= j < |list| && list[j].pos == m.pos ==> j == k
  }

  /** The list is strictly ascending, genuine, and holds each position up to the cursor exactly once. */
  lemma HistoryIsGapless(me: nat, steps: seq<Step>)
    ensures var w := Play(me, steps); var list := w.client.list;
      && (forall i, j :: 0 <= i < j < |list| ==> list[i].pos < list[j].pos)
      && AllCopies(list, Server(w).messages)
      && 0 <= w.client.cursor <= |Server(w).messages|
      && (forall i :: 0 <= i < w.client.cursor ==>
        Server(w).messages[i].pos == i + 1 && exists k :: OnceAt(list, k, Chat(Server(w).messages[i])))
  {
    PlayKeeps(me, steps);
    var w := Play(me, steps);
    var list, messages := w.client.list, Server(w).messages;
    Messaging.EveryRunIsSequenced(w.log);
    forall i, j | 0 <= i < j < |list| ensures list[i].pos < list[j].pos {
      assert !Store.Before(list[j], list[i]) && !Store.Same(list[i], list[j]);
      assert IsCopy(list[i], messages) && IsCopy(list[j], messages);
      if list[i].pos == list[j].pos {
        CopiesAreUnique(list[i], list[j], w.log);
      }
    }
    forall i | 0 <= i < w.client.cursor ensures exists k :: OnceAt(list, k, Chat(messages[i])) {
      assert Chat(messages[i]) in list;
      var k :| 0 <= k < |list| && list[k] == Chat(messages[i]);
      assert OnceAt(list, k, Chat(messages[i]));
    }
  }

  /**
   A served page always moves on: a full one by exactly its size, so the
   "history did not advance" branch is dead, and a short one up to everything
   the server held when it was asked.
   */
  lemma PagesAdvance(me: nat, steps: seq<Step>, served: nat)
    requires var w := Play(me, steps); Enabled(w, me, Respond(served)) && me in Messaging.Run(w.log[..served]).seats
    ensures var w := Play(me, steps); var job, w' := w.client.job.value, Next(w, me, Respond(served));
      && w'.failures == w.failures
      && w'.client.cursor == Min(Length(w.log, served), job.since + PAGE)
      && (w'.client.cursor != job.since + PAGE ==> w'.client.cursor >= Length(w.log, job.floor))
      && (w'.client.job == None ==> w'.client.cursor >= Length(w.log, job.floor))
  {
    PlayKeeps(me, steps);
    var w := Play(me, steps);
    PageArrives(w, me, served);
    PageMerges(w.client.list, w.client.cursor, w.log, Min(Length(w.log, served), w.client.cursor + PAGE));
  }

  /** The mirrored marker, too, never steps over someone else's unacknowledged message. */
  lemma ClientMarkerNeverSkips(me: nat, steps: seq<Step>)
    requires Play(me, steps).client.marker.Some?
    ensures var w := Play(me, steps); Messaging.Covers(Server(w), me, w.client.marker.value, Messaging.Acked(w.log, me))
  {
    PlayKeeps(me, steps);
  }

  /**
   The reply to a send is loaded at once without moving the cursor, and a
   caught-up marker steps over it; any other marker stays.
   */
  lemma EchoAdvances(me: nat, steps: seq<Step>, pos: nat)
    requires Enabled(Play(me, steps), me, Echo(pos))
    ensures var w := Play(me, steps); var c, c' := w.client, Next(w, me, Echo(pos)).client;
      && Chat(Server(w).messages[pos - 1]) in c'.list
      && (forall m :: m in c.list ==> m in c'.list)
      && c'.marker == (if c.marker == Some(pos - 1) then Some(pos) else c.marker)
      && c' == c.(list := c'.list, marker := c'.marker)
  {
    PlayKeeps(me, steps);
    var w := Play(me, steps);
    var m := Chat(Server(w).messages[pos - 1]);
    Messaging.EveryRunIsSequenced(w.log);
    MergeKeepsFaithful(w.client.list, w.client.cursor, w.log, [m]);
    Store.MergeFacts(w.client.list, [m]);
  }

  /** A marker the server reports is taken over unless the client is ahead of it, and nothing else changes. */
  lemma LearnAdvances(me: nat, steps: seq<Step>, served: nat)
    requires Enabled(Play(me, steps), me, Learn(served))
    ensures var w := Play(me, steps); var c, c' := w.client, Next(w, me, Learn(served)).client;
      var known := Messaging.Run(w.log[..served]).seats[me];
      && c'.marker.Some? && c'.marker.value >= known
      && (c.marker.Some? ==> c'.marker.value >= c.marker.value)
      && (c'.marker == Some(known) || c'.marker == c.marker)
      && c' == c.(marker := c'.marker)
  {
  }

  /** A handled event is remembered; redelivered with its message loaded, it does nothing at all. */
  lemma HearIsRemembered(w: World, me: nat, event: Messaging.Event)
    requires Enabled(w, me, Hear(event))
    ensures var c, w' := w.client, Next(w, me, Hear(event));
      && event.id in w'.client.seen && Heard(event.pos, w.clock) in w'.heard
      && w'.client == c.(seen := c.seen + {event.id}, job := w'.client.job)
      && (event.id in c.seen && event.pos <= c.cursor ==> w'.client == c)
      && (event.id !in c.seen || event.pos > c.cursor ==> w'.client.job == Next(w, me, Refresh).client.job)
  {
  }

  /** A trigger always leaves a drain that was asked after it, or has one started from the cursor. */
  lemma RefreshIsHeard(w: World, me: nat)
    ensures var c, c' := w.client, Next(w, me, Refresh).client;
      && c'.job.Some? && (c.job.Some? ==> c'.job.value.again)
      && (c.job == None ==> c'.job.value.since == c.cursor && c'.job.value.issued == w.clock)
      && c' == c.(job := c'.job)
  {
  }

  // ----- a quiet server is drained -----

  function Answered(w: World, me: nat, times: nat): World
    decreases times
  {
    if times == 0 then w else Answered(Next(w, me, Respond(|w.log|)), me, times - 1)
  }

  /** One request per full page, one short page, and a last one if asked again. */
  function RoundsLeft(w: World): int
    requires w.client.job.Some?
  {
    (|Server(w).messages| - w.client.cursor) / PAGE + (if w.client.job.value.again then 2 else 1)
  }

  lemma AnswerNow(w: World, me: nat)
    requires Inv(w, me) && w.client.job.Some? && me in Server(w).seats
    ensures var w', n := Next(w, me, Respond(|w.log|)), |Server(w).messages|;
      && Inv(w', me) && w'.log == w.log
      && w'.client.cursor == Min(n, w.client.cursor + PAGE)
      && (n >= w.client.cursor + PAGE ==> w'.client.job.Some? && w'.client.job.value.again == w.client.job.value.again)
      && (n < w.client.cursor + PAGE ==> w'.client.job.Some? == w.client.job.value.again)
      && (n < w.client.cursor + PAGE && w'.client.job.Some? ==> !w'.client.job.value.again)
      && (if w'.client.job.Some? then RoundsLeft(w') == RoundsLeft(w) - 1 else RoundsLeft(w) == 1)
  {
    assert w.log[..|w.log|] == w.log;
    NextKeeps(w, me, Respond(|w.log|));
    PageArrives(w, me, |w.log|);
    PageMerges(w.client.list, w.client.cursor, w.log, Min(|Server(w).messages|, w.client.cursor + PAGE));
  }

  /** With nobody writing and no failure, the drain ends after that many answers, at the server's end. */
  lemma {:induction false} QuietDrainEnds(w: World, me: nat, rounds: nat)
    requires Inv(w, me) && w.client.job.Some? && me in Server(w).seats && rounds == RoundsLeft(w)
    ensures var done := Answered(w, me, rounds); done.client.job == None && done.client.cursor == |Server(w).messages|
    decreases rounds
  {
    AnswerNow(w, me);
    var w' := Next(w, me, Respond(|w.log|));
    assert rounds > 0 && Answered(w, me, rounds) == Answered(w', me, rounds - 1);
    if w'.client.job.Some? {
      QuietDrainEnds(w', me, rounds - 1);
    }
  }
}
