/** cli/main.py: `follow_events`, the client that reconnects with the last id it has seen,
    and `_exit_code`. */
module Follow {
  import opened Models
  import opened Database
  import opened History
  import opened System
  import opened SystemProof
  import opened Stream
  import opened Wire

  /** One GET of the event stream: an error status, or the lines that arrive before the
      connection ends or drops (none, if it could not be opened). */
  datatype Connection = Refused | Opened(lines: seq<string>)

  datatype How = Done | Dropped | Raised

  /** What `for ev in parse_sse_lines(...)` makes of a connection's items: the events it
      yields, the last id, and how the loop was left. A missing key raises. */
  datatype Consumed = Consumed(out: seq<Item>, lastId: int, how: How)

  predicate EndsItem(i: Item) {
    i.kind == Some("job.completed") || i.kind == Some("job.failed")
  }

  function Consume(items: seq<Item>, lastId: int, broken: bool): Consumed {
    if items == [] then Consumed([], lastId, if broken then Raised else Dropped)
    else if items[0].id == None then Consumed([], lastId, Raised)
    else if items[0].kind == None then Consumed([items[0]], items[0].id.value, Raised)
    else if EndsItem(items[0]) then Consumed([items[0]], items[0].id.value, Done)
    else
      var r := Consume(items[1..], items[0].id.value, broken);
      r.(out := [items[0]] + r.out)
  }

  datatype Ending = Completed | GaveUp | Aborted

  datatype Followed = Followed(out: seq<Item>, end: Ending)

  function Answer(c: Codec, conn: Connection, lastId: int): Consumed {
    match conn
    case Refused => Consumed([], lastId, Raised)
    case Opened(lines) => var p := Parse(c, BLANK, lines); Consume(p.items, lastId, p.broken)
  }

  /** `server(k, id)` is what the k-th connection, opened with Last-Event-ID `id`, brings. */
  function FollowFrom(c: Codec, server: (nat, int) -> Connection, maxReconnects: int, k: nat, lastId: int): Followed
    decreases maxReconnects - k
  {
    var r := Answer(c, server(k, lastId), lastId);
    match r.how
    case Done => Followed(r.out, Completed)
    case Raised => Followed(r.out, Aborted)
    case Dropped =>
      if k + 1 > maxReconnects then Followed(r.out, GaveUp)
      else
        var rest := FollowFrom(c, server, maxReconnects, k + 1, r.lastId);
        Followed(r.out + rest.out, rest.end)
  }

  /** The body of the `with` statement: yield events until the connection is over. */
  method ReadConnection(c: Codec, conn: Connection, fromId: int) returns (out: seq<Item>, lastId: int, how: How)
    ensures Consumed(out, lastId, how) == Answer(c, conn, fromId)
  {
    out, lastId := [], fromId;
    if conn.Refused? {
      return out, lastId, Raised;
    }
    var items, broken := ParseSseLines(c, conn.lines);
    var k := 0;
    while k < |items|
      invariant k <= |items|
      invariant var rest := Consume(items[k..], lastId, broken);
                Answer(c, conn, fromId) == rest.(out := out + rest.out)
    {
      var ev := items[k];
      assert items[k..][0] == ev && items[k..][1..] == items[k + 1..];
      k := k + 1;
      if ev.id == None {
        return out, lastId, Raised;
      }
      lastId := ev.id.value;
      Associative(out, [ev], Consume(items[k..], lastId, broken).out);
      out := out + [ev];
      if ev.kind == None {
        return out, lastId, Raised;
      }
      if EndsItem(ev) {
        return out, lastId, Done;
      }
    }
    how := if broken then Raised else Dropped;
  }

  method FollowEvents(c: Codec, server: (nat, int) -> Connection, fromId: int, maxReconnects: int)
    returns (out: seq<Item>, end: Ending)
    ensures Followed(out, end) == FollowFrom(c, server, maxReconnects, 0, fromId)
  {
    out := [];
    var lastId := fromId;
    var reconnects: nat := 0;
    while true
      invariant FollowFrom(c, server, maxReconnects, 0, fromId) ==
                var rest := FollowFrom(c, server, maxReconnects, reconnects, lastId); Followed(out + rest.out, rest.end)
      decreases maxReconnects - reconnects
    {
      var got, seen, how := ReadConnection(c, server(reconnects, lastId), lastId);
      Associative(out, got, FollowFrom(c, server, maxReconnects, reconnects + 1, seen).out);
      out, lastId := out + got, seen;
      if how.Done? {
        return out, Completed;
      }
      if how.Raised? {
        return out, Aborted;
      }
      reconnects := reconnects + 1;
      if reconnects > maxReconnects {
        return out, GaveUp;
      }
    }
  }

  // ---------- resuming ----------

  /** What a client that has seen everything up to `after` is still owed. */
  function Owed(stream: seq<Event>, after: int): seq<Event> {
    UpToEnd(Above(stream, after))
  }

  lemma {:induction false} UpToEndIsPrefix(es: seq<Event>)
    ensures UpToEnd(es) <= es
    ensures forall i :: 0 <= i < |UpToEnd(es)| - 1 ==> !Closes(UpToEnd(es)[i])
    ensures HasEnd(es) ==> UpToEnd(es) != [] && Closes(UpToEnd(es)[|UpToEnd(es)| - 1])
    decreases |es|
  {
    if es != [] {
      UpToEndIsPrefix(es[1..]);
      HasEndCons(es);
    }
  }

  lemma {:induction false} AboveTwice(es: seq<Event>, a: int, b: int)
    requires a <= b
    ensures Above(Above(es, a), b) == Above(es, b)
    decreases |es|
  {
    if es != [] {
      var init, e := es[..|es| - 1], es[|es| - 1];
      AboveTwice(init, a, b);
      if e.id > a {
        assert (Above(init, a) + [e])[..|Above(init, a)|] == Above(init, a);
      }
    }
  }

  lemma IncreasingParts(read: seq<Event>, more: seq<Event>)
    requires Increasing(read + more)
    ensures Increasing(read)
    ensures read != [] ==> forall i :: 0 <= i < |more| ==> read[|read| - 1].id < more[i].id
  {
    assert forall i :: 0 <= i < |read| ==> (read + more)[i] == read[i];
    assert forall i :: 0 <= i < |more| ==> (read + more)[|read| + i] == more[i];
  }

  lemma PartsAround(read: seq<Event>, more: seq<Event>, after: int)
    requires Increasing(read + more) && forall i :: 0 <= i < |read + more| ==> (read + more)[i].id > after
    ensures LastId(read, after) >= after
    ensures forall i :: 0 <= i < |read| ==> read[i].id <= LastId(read, after)
    ensures forall i :: 0 <= i < |more| ==> more[i].id > LastId(read, after)
  {
    IncreasingParts(read, more);
    assert forall i :: 0 <= i < |read| ==> (read + more)[i] == read[i];
    if read == [] {
      assert read + more == more;
    } else {
      LastIsHighest(read, after);
    }
  }

  lemma AboveLast(read: seq<Event>, more: seq<Event>, after: int)
    requires Increasing(read + more) && forall i :: 0 <= i < |read + more| ==> (read + more)[i].id > after
    ensures LastId(read, after) >= after
    ensures Above(read + more, LastId(read, after)) == more
  {
    PartsAround(read, more, after);
    AboveIsSecond(read, more, LastId(read, after));
  }

  lemma AboveIsSecond(read: seq<Event>, more: seq<Event>, seen: int)
    requires forall i :: 0 <= i < |read| ==> read[i].id <= seen
    requires forall i :: 0 <= i < |more| ==> more[i].id > seen
    ensures Above(read + more, seen) == more
  {
    AboveJoin(read, more, seen);
    NoneAbove(read, seen);
    AllAbove(more, seen);
  }

  /** What is above `fromId` was read or is above the last id read. */
  lemma AboveRest(stream: seq<Event>, fromId: int, read: seq<Event>)
    requires Increasing(stream) && read <= Owed(stream, fromId)
    ensures Above(stream, fromId) == read + Above(stream, LastId(read, fromId))
  {
    var above := Above(stream, fromId);
    UpToEndIsPrefix(above);
    AboveKeeps(stream, fromId);
    AboveOrdered(stream, fromId);
    var more := above[|read|..];
    assert above == read + more;
    AboveLast(read, more, fromId);
    AboveTwice(stream, fromId, LastId(read, fromId));
  }

  /** After a part of what is owed, the rest is what is owed from the last id on. */
  lemma OwedResumes(stream: seq<Event>, after: int, read: seq<Event>)
    requires Increasing(stream) && read <= Owed(stream, after) && !HasEnd(read)
    ensures Owed(stream, after) == read + Owed(stream, LastId(read, after))
  {
    AboveRest(stream, after, read);
    UpToEndJoin(read, Above(stream, LastId(read, after)));
  }

  // ---------- one connection ----------

  function Items(es: seq<Event>): seq<Item> {
    seq(|es|, i requires 0 <= i < |es| => ItemOf(es[i]))
  }

  lemma EndsAlike(e: Event)
    ensures EndsItem(ItemOf(e)) <==> Closes(e)
  {
    match e.kind
    case JobStarted => assert KindName(JobStarted)[4] == 's';
    case LlmMessage => assert KindName(LlmMessage)[0] == 'l';
    case ToolCall => assert KindName(ToolCall)[0] == 't';
    case ToolResult => assert KindName(ToolResult)[0] == 't';
    case JobCompleted =>
    case JobFailed =>
  }

  lemma ItemsCons(e: Event, rest: seq<Event>)
    ensures Items([e] + rest) == [ItemOf(e)] + Items(rest)
  {
  }

  lemma {:induction false} ConsumeEvents(es: seq<Event>, lastId: int)
    ensures Consume(Items(es), lastId, false) ==
            Consumed(Items(UpToEnd(es)), LastId(UpToEnd(es), lastId), if HasEnd(es) then Done else Dropped)
    decreases |es|
  {
    if es != [] {
      EndsAlike(es[0]);
      HasEndCons(es);
      ItemsCons(es[0], es[1..]);
      assert es == [es[0]] + es[1..];
      assert Items(es)[1..] == Items(es[1..]);
      if !Closes(es[0]) {
        ConsumeEvents(es[1..], es[0].id);
        ItemsCons(es[0], UpToEnd(es[1..]));
      }
    }
  }

  /** How the server answers the k-th connection, opened with a given last id, and after
      how many characters of the response that connection drops. */
  datatype Service = Service(chunks: (nat, int) -> seq<Chunk>, cut: (nat, int) -> nat)

  function Arrived(c: Codec, sv: Service, k: nat, id: int): string {
    var text := Text(AllLines(c, sv.chunks(k, id)));
    if sv.cut(k, id) <= |text| then text[..sv.cut(k, id)] else text
  }

  function ServerOf(c: Codec, sv: Service): (nat, int) -> Connection {
    (k: nat, id: int) => Opened(Lines(Arrived(c, sv, k, id)))
  }

  /** A client connection reads some first part of the frames that were sent, up to the
      first terminal event; all of it, if nothing was cut. */
  lemma ConnectionReads(c: Codec, sv: Service, k: nat, id: int) returns (n: nat)
    requires Faithful(c)
    ensures n <= |Frames(sv.chunks(k, id))|
    ensures var got := Frames(sv.chunks(k, id))[..n];
            Answer(c, ServerOf(c, sv)(k, id), id) ==
            Consumed(Items(UpToEnd(got)), LastId(UpToEnd(got), id), if HasEnd(got) then Done else Dropped)
    ensures sv.cut(k, id) >= |Text(AllLines(c, sv.chunks(k, id)))| ==> n == |Frames(sv.chunks(k, id))|
  {
    var chunks := sv.chunks(k, id);
    var text := Text(AllLines(c, chunks));
    var cut := if sv.cut(k, id) <= |text| then sv.cut(k, id) else |text|;
    assert text[..|text|] == text;
    var m := CutAnywhere(c, chunks, cut);
    n := CompleteIsPrefix(c, chunks, m);
    assert Complete(chunks, m) == Items(Frames(chunks)[..n]);
    ConsumeEvents(Frames(chunks)[..n], id);
  }

  // ---------- any number of connections ----------

  /** The client may have read this much without having seen the end. */
  predicate ReadSoFar(stream: seq<Event>, fromId: int, read: seq<Event>) {
    read <= Owed(stream, fromId) && !HasEnd(read)
  }

  /** The last ids that a client that started from `fromId` can present. */
  ghost predicate Presents(stream: seq<Event>, fromId: int, id: int) {
    exists read :: ReadSoFar(stream, fromId, read) && id == LastId(read, fromId)
  }

  predicate ServesAt(sv: Service, stream: seq<Event>, k: nat, id: int) {
    UpToEnd(Frames(sv.chunks(k, id))) <= Owed(stream, id)
  }

  /** Every connection the client can open sends, up to the first terminal event, a first
      part of what is owed. */
  ghost predicate Serves(sv: Service, stream: seq<Event>, fromId: int) {
    forall k, id :: Presents(stream, fromId, id) ==> ServesAt(sv, stream, k, id)
  }

  /** The k-th connection is not cut and sends all that is owed. */
  predicate ServesAllAt(c: Codec, sv: Service, stream: seq<Event>, k: nat, id: int) {
    && UpToEnd(Frames(sv.chunks(k, id))) == Owed(stream, id)
    && sv.cut(k, id) >= |Text(AllLines(c, sv.chunks(k, id)))|
  }

  ghost predicate ServesAll(c: Codec, sv: Service, stream: seq<Event>, fromId: int, k: nat) {
    forall id :: Presents(stream, fromId, id) ==> ServesAllAt(c, sv, stream, k, id)
  }

  lemma {:induction false} UpToEndMonotone(a: seq<Event>, b: seq<Event>)
    requires a <= b
    ensures UpToEnd(a) <= UpToEnd(b)
    ensures HasEnd(a) ==> UpToEnd(a) == UpToEnd(b)
    ensures !HasEnd(a) ==> UpToEnd(a) == a && !HasEnd(UpToEnd(a))
  {
    assert b == a + b[|a|..];
    UpToEndJoin(a, b[|a|..]);
    UpToEndJoin(a, []);
    assert a + [] == a;
  }

  lemma ItemsJoin(a: seq<Event>, b: seq<Event>)
    ensures Items(a + b) == Items(a) + Items(b)
  {
  }

  lemma PresentsFirst(stream: seq<Event>, id: int)
    ensures Presents(stream, id, id)
  {
    assert ReadSoFar(stream, id, []);
  }

  lemma PresentsOne(stream: seq<Event>, fromId: int, first: seq<Event>, id: int)
    requires Increasing(stream) && ReadSoFar(stream, fromId, first)
    requires Presents(stream, LastId(first, fromId), id)
    ensures Presents(stream, fromId, id)
  {
    OwedResumes(stream, fromId, first);
    var read :| ReadSoFar(stream, LastId(first, fromId), read) && id == LastId(read, LastId(first, fromId));
    HasEndOfJoin(first, read);
    assert ReadSoFar(stream, fromId, first + read);
    assert id == LastId(first + read, fromId);
  }

  /** What a client can present after reading `first`, it could present from the start. */
  lemma PresentsLater(stream: seq<Event>, fromId: int, first: seq<Event>)
    requires Increasing(stream) && ReadSoFar(stream, fromId, first)
    ensures forall id :: Presents(stream, LastId(first, fromId), id) ==> Presents(stream, fromId, id)
  {
    forall id | Presents(stream, LastId(first, fromId), id) ensures Presents(stream, fromId, id) {
      PresentsOne(stream, fromId, first, id);
    }
  }

  /** One connection: the client reads a first part of what it is owed, all of it if it
      sees the end or nothing is missing. */
  lemma OneConnection(c: Codec, sv: Service, stream: seq<Event>, k: nat, id: int) returns (first: seq<Event>)
    requires Faithful(c) && ServesAt(sv, stream, k, id)
    ensures Answer(c, ServerOf(c, sv)(k, id), id) ==
            Consumed(Items(first), LastId(first, id), if HasEnd(first) then Done else Dropped)
    ensures first <= Owed(stream, id)
    ensures HasEnd(first) || ServesAllAt(c, sv, stream, k, id) ==> first == Owed(stream, id)
  {
    var n := ConnectionReads(c, sv, k, id);
    var sent := Frames(sv.chunks(k, id));
    var got := sent[..n];
    UpToEndMonotone(got, sent);
    first := UpToEnd(got);
    UpToEndMonotone(got, got);
    if HasEnd(got) {
      EndedIsAll(stream, id, got);
    }
    if n == |sent| {
      assert got == sent;
    }
  }

  /** Resume composes: however often the connection drops, and wherever, what the client
      yields is a first part of what one uninterrupted run would yield; all of it when it
      completes. It never aborts, and it gives up only without having seen the end. */
  lemma {:induction false} ResumeComposes(c: Codec, sv: Service, stream: seq<Event>, maxReconnects: int, k: nat,
                                          id: int)
    returns (read: seq<Event>)
    requires Faithful(c) && Increasing(stream) && Serves(sv, stream, id)
    ensures var r := FollowFrom(c, ServerOf(c, sv), maxReconnects, k, id);
            && r.out == Items(read) && read <= Owed(stream, id)
            && (r.end == Completed ==> read == Owed(stream, id) && HasEnd(read))
            && (r.end == GaveUp ==> !HasEnd(read))
            && r.end != Aborted
    decreases maxReconnects - k
  {
    PresentsFirst(stream, id);
    var first := OneConnection(c, sv, stream, k, id);
    read := first;
    if !HasEnd(first) && k + 1 <= maxReconnects {
      PresentsLater(stream, id, first);
      OwedResumes(stream, id, first);
      var rest := ResumeComposes(c, sv, stream, maxReconnects, k + 1, LastId(first, id));
      ItemsJoin(first, rest);
      HasEndOfJoin(first, rest);
      read := first + rest;
    }
  }

  /** Nothing is owed beyond the first terminal event. */
  lemma EndedIsAll(stream: seq<Event>, id: int, got: seq<Event>)
    requires HasEnd(got) && UpToEnd(got) <= Owed(stream, id)
    ensures UpToEnd(got) == Owed(stream, id) && HasEnd(UpToEnd(got))
  {
    UpToEndIsPrefix(got);
    UpToEndIsPrefix(Above(stream, id));
    var n := |UpToEnd(got)|;
    assert Owed(stream, id)[n - 1] == UpToEnd(got)[n - 1];
  }

  /** What holds of all connections from `id` on holds of all from a later id on. */
  lemma ServesLater(c: Codec, sv: Service, stream: seq<Event>, id: int, first: seq<Event>, good: nat)
    requires Increasing(stream) && Serves(sv, stream, id) && HasEnd(Owed(stream, id))
    requires ServesAll(c, sv, stream, id, good) && ReadSoFar(stream, id, first)
    ensures Serves(sv, stream, LastId(first, id)) && ServesAll(c, sv, stream, LastId(first, id), good)
    ensures HasEnd(Owed(stream, LastId(first, id)))
  {
    PresentsLater(stream, id, first);
    OwedResumes(stream, id, first);
    HasEndOfJoin(first, Owed(stream, LastId(first, id)));
  }

  /** One connection on the way to the good one. */
  lemma TowardsGood(c: Codec, sv: Service, stream: seq<Event>, k: nat, id: int, good: nat) returns (first: seq<Event>)
    requires Faithful(c) && Increasing(stream) && Serves(sv, stream, id) && HasEnd(Owed(stream, id))
    requires ServesAll(c, sv, stream, id, good)
    ensures Answer(c, ServerOf(c, sv)(k, id), id) ==
            Consumed(Items(first), LastId(first, id), if HasEnd(first) then Done else Dropped)
    ensures k == good ==> HasEnd(first)
    ensures !HasEnd(first) ==>
              Serves(sv, stream, LastId(first, id)) && ServesAll(c, sv, stream, LastId(first, id), good)
              && HasEnd(Owed(stream, LastId(first, id)))
  {
    PresentsFirst(stream, id);
    first := OneConnection(c, sv, stream, k, id);
    if !HasEnd(first) {
      ServesLater(c, sv, stream, id, first, good);
    }
  }

  /** If one of the connections the client may make is not cut and sends everything that is
      owed, terminal event included, the client completes. */
  lemma {:induction false} OneGoodConnectionSuffices(c: Codec, sv: Service, stream: seq<Event>, maxReconnects: int,
                                                     k: nat, id: int, good: nat)
    requires Faithful(c) && Increasing(stream) && Serves(sv, stream, id) && HasEnd(Owed(stream, id))
    requires k <= good && (good == k || good <= maxReconnects) && ServesAll(c, sv, stream, id, good)
    ensures FollowFrom(c, ServerOf(c, sv), maxReconnects, k, id).end == Completed
    decreases good - k
  {
    var first := TowardsGood(c, sv, stream, k, id, good);
    if !HasEnd(first) {
      OneGoodConnectionSuffices(c, sv, stream, maxReconnects, k + 1, LastId(first, id), good);
    }
  }

  // ---------- the exit code ----------

  /** `_exit_code`; `None` stands for a missing key. */
  function ExitCode(last: Option<Item>): Option<int> {
    if last == None then Some(1)
    else if last.value.kind == None then None
    else if last.value.kind == Some("job.completed") then Some(0)
    else if last.value.data == None then None
    else
      var payload := last.value.data.value.payload;
      if payload.End? && payload.status == Cancelled then Some(2) else Some(1)
  }

  function LastItem(out: seq<Item>): Option<Item> {
    if out == [] then None else Some(out[|out| - 1])
  }

  function CodeOf(status: Status): int {
    match status
    case Succeeded => 0
    case Cancelled => 2
    case _ => 1
  }

  // ---------- the client and the platform ----------

  /** The job had ended when this connection took its snapshot, above where the client
      started. */
  predicate EndSeen(sh: Shared, t: TaskId, fromId: int, v: View)
    requires ViewOk(sh, v)
  {
    HasEnd(EventsAfter(sh.db.log[..v.snapshot], t, fromId))
  }

  /** The k-th connection, opened at `id`, is the view `v` of the platform's state `sh`;
      and the events of the task were published in order, or the snapshot saw the end, in
      which case publishing does not matter. */
  predicate IsView(sv: Service, sh: Shared, t: TaskId, fromId: int, k: nat, id: int, v: View) {
    && ViewOk(sh, v) && Frames(sv.chunks(k, id)) == Delivered(sh, t, id, v)
    && (InOrder(sh, t) || EndSeen(sh, t, fromId, v))
  }

  /** So is each connection that the client can open. */
  ghost predicate ServedFrom(sv: Service, sh: Shared, t: TaskId, view: (nat, int) -> View, fromId: int) {
    forall k, id :: Presents(OfTask(sh.db.log, t), fromId, id) ==> IsView(sv, sh, t, fromId, k, id, view(k, id))
  }

  /** The k-th connection is not cut and its snapshot sees the end. */
  predicate SeesEnd(c: Codec, sv: Service, sh: Shared, t: TaskId, fromId: int, k: nat, id: int, v: View) {
    && ViewOk(sh, v) && EndSeen(sh, t, fromId, v)
    && sv.cut(k, id) >= |Text(AllLines(c, sv.chunks(k, id)))|
  }

  ghost predicate FinishedBy(c: Codec, sv: Service, sh: Shared, t: TaskId, view: (nat, int) -> View, fromId: int,
                             k: nat) {
    forall id :: Presents(OfTask(sh.db.log, t), fromId, id) ==> SeesEnd(c, sv, sh, t, fromId, k, id, view(k, id))
  }

  lemma AbovePrefix(es: seq<Event>, n: nat, after: int)
    requires n <= |es|
    ensures Above(es[..n], after) <= Above(es, after)
  {
    assert es == es[..n] + es[n..];
    AboveJoin(es[..n], es[n..], after);
  }

  lemma DeliveredIsOwed(sh: Shared, t: TaskId, id: int, v: View)
    requires Numbered(sh.db.log) && AllLogged(sh) && ViewOk(sh, v)
    requires InOrder(sh, t) || HasEnd(EventsAfter(sh.db.log[..v.snapshot], t, id))
    ensures UpToEnd(Delivered(sh, t, id, v)) <= Owed(OfTask(sh.db.log, t), id)
    ensures HasEnd(EventsAfter(sh.db.log[..v.snapshot], t, id)) ==>
              UpToEnd(Delivered(sh, t, id, v)) == Owed(OfTask(sh.db.log, t), id)
  {
    var stream, history := OfTask(sh.db.log, t), EventsAfter(sh.db.log[..v.snapshot], t, id);
    HistoryIsAbove(sh.db.log[..v.snapshot], t, id);
    OfTaskPrefix(sh.db.log, v.snapshot, t);
    AbovePrefix(stream, |OfTask(sh.db.log[..v.snapshot], t)|, id);
    UpToEndMonotone(history, Above(stream, id));
    if !HasEnd(history) {
      HandoffIsComplete(sh, t, id, v);
      AbovePrefix(stream, Reach(sh, t, v), id);
      UpToEndMonotone(Above(stream[..Reach(sh, t, v)], id), Above(stream, id));
    }
  }

  lemma EndOf(es: seq<Event>) returns (e: Event)
    requires HasEnd(es)
    ensures e in es && Closes(e)
  {
    var i :| 0 <= i < |es| && Closes(es[i]);
    e := es[i];
  }

  lemma EndBy(es: seq<Event>, e: Event)
    requires e in es && Closes(e)
    ensures HasEnd(es)
  {
  }

  lemma AboveMember(es: seq<Event>, after: int, e: Event)
    ensures e in Above(es, after) <==> e in es && e.id > after
  {
    AboveFrom(es, after);
  }

  /** A client that has not seen the end yet still has it ahead. */
  lemma EndAhead(stream: seq<Event>, seen: seq<Event>, fromId: int, id: int)
    requires Increasing(stream) && seen <= stream && Presents(stream, fromId, id)
    requires HasEnd(Above(seen, fromId))
    ensures HasEnd(Above(seen, id))
  {
    var read :| ReadSoFar(stream, fromId, read) && id == LastId(read, fromId);
    var e := EndOf(Above(seen, fromId));
    AboveMember(seen, fromId, e);
    AboveMember(stream, fromId, e);
    AboveRest(stream, fromId, read);
    if e in read {
      EndBy(read, e);
    }
    AboveMember(stream, id, e);
    AboveMember(seen, id, e);
    EndBy(Above(seen, id), e);
  }

  lemma {:induction false} EndingOfTask(log: seq<Event>, t: TaskId, e: Event)
    requires e in OfTask(log, t) && Closes(e)
    ensures e in Endings(log, t)
    decreases |log|
  {
    OfTaskFrom(log, t);
    if e != log[|log| - 1] {
      EndingOfTask(log[..|log| - 1], t, e);
    }
  }

  lemma LastIsEnding(log: seq<Event>, t: TaskId, read: seq<Event>, id: int)
    requires read == Owed(OfTask(log, t), id) && HasEnd(read)
    ensures read != [] && Closes(read[|read| - 1]) && read[|read| - 1] in Endings(log, t)
  {
    var above := Above(OfTask(log, t), id);
    UpToEndIsPrefix(above);
    UpToEndMonotone(above, above);
    var e := read[|read| - 1];
    assert above[|read| - 1] == e;
    AboveFrom(OfTask(log, t), id);
    EndingOfTask(log, t, e);
  }

  /** A completed client reports the stored outcome: exit code 0, 2 or 1 exactly when the
      row is succeeded, cancelled or failed. */
  lemma ExitCodeIsStatus(db: Db, t: TaskId, read: seq<Event>, id: int)
    requires Sound(db) && t in db.tasks && read == Owed(OfTask(db.log, t), id) && HasEnd(read)
    ensures IsTerminal(db.tasks[t].status)
    ensures ExitCode(LastItem(Items(read))) == Some(CodeOf(db.tasks[t].status))
  {
    LastIsEnding(db.log, t, read, id);
    var e := read[|read| - 1];
    EndingTells(db, t, e);
    CodeOfEnding(e);
    assert LastItem(Items(read)) == Some(ItemOf(e));
  }

  lemma EndingTells(db: Db, t: TaskId, e: Event)
    requires Sound(db) && t in db.tasks && e in Endings(db.log, t)
    ensures IsTerminal(db.tasks[t].status) && Announces(e, db.tasks[t])
  {
    assert Accounted(Endings(db.log, t), db.tasks[t]);
  }

  lemma CodeOfEnding(e: Event)
    requires Closes(e) && e.payload.End? && IsTerminal(e.payload.status) && e.kind == EndKind(e.payload.status)
    ensures ExitCode(Some(ItemOf(e))) == Some(CodeOf(e.payload.status))
  {
    EndsAlike(e);
  }

  lemma ViewServes(sv: Service, sh: Shared, t: TaskId, fromId: int, k: nat, id: int, v: View)
    requires Numbered(sh.db.log) && AllLogged(sh) && IsView(sv, sh, t, fromId, k, id, v)
    requires Presents(OfTask(sh.db.log, t), fromId, id)
    ensures ServesAt(sv, OfTask(sh.db.log, t), k, id)
    ensures EndSeen(sh, t, fromId, v) ==> UpToEnd(Frames(sv.chunks(k, id))) == Owed(OfTask(sh.db.log, t), id)
  {
    var stream, n := OfTask(sh.db.log, t), v.snapshot;
    OfTaskOrdered(sh.db.log, t);
    if EndSeen(sh, t, fromId, v) {
      HistoryIsAbove(sh.db.log[..n], t, fromId);
      HistoryIsAbove(sh.db.log[..n], t, id);
      OfTaskPrefix(sh.db.log, n, t);
      EndAhead(stream, OfTask(sh.db.log[..n], t), fromId, id);
    }
    DeliveredIsOwed(sh, t, id, v);
  }

  lemma ViewsServe(sv: Service, sh: Shared, t: TaskId, view: (nat, int) -> View, fromId: int)
    requires Numbered(sh.db.log) && AllLogged(sh) && ServedFrom(sv, sh, t, view, fromId)
    ensures Serves(sv, OfTask(sh.db.log, t), fromId)
  {
    forall k: nat, id | Presents(OfTask(sh.db.log, t), fromId, id) ensures ServesAt(sv, OfTask(sh.db.log, t), k, id) {
      assert IsView(sv, sh, t, fromId, k, id, view(k, id));
      ViewServes(sv, sh, t, fromId, k, id, view(k, id));
    }
  }

  /** In any reachable state, over any connections to a task's stream: the client yields,
      frame by frame and without gap or repeat, a first part of the persisted log slice
      from `fromId` to the first terminal event; and if it completes, the whole slice, and
      its exit code tells the stored status. For a finished task nothing is assumed about
      publishing: it is enough that each connection's snapshot saw the end. */
  lemma ClientSeesTheLog(cfg: Config, steps: seq<Step>, t: TaskId, c: Codec, sv: Service,
                         view: (nat, int) -> View, fromId: int, maxReconnects: int)
    returns (read: seq<Event>)
    requires IsRun(cfg, Init(cfg), steps) && t in Run(cfg, Init(cfg), steps).sh.db.tasks
    requires Faithful(c) && ServedFrom(sv, Run(cfg, Init(cfg), steps).sh, t, view, fromId)
    ensures var sh := Run(cfg, Init(cfg), steps).sh; var owed := Owed(OfTask(sh.db.log, t), fromId);
            var r := FollowFrom(c, ServerOf(c, sv), maxReconnects, 0, fromId);
            && r.out == Items(read) && read <= owed && r.end != Aborted
            && (r.end == Completed ==>
                  read == owed && ExitCode(LastItem(r.out)) == Some(CodeOf(sh.db.tasks[t].status)))
  {
    InitHolds(cfg);
    RunKeeps(cfg, Init(cfg), steps);
    var s := Run(cfg, Init(cfg), steps);
    InvIsLogged(s);
    OfTaskOrdered(s.sh.db.log, t);
    ViewsServe(sv, s.sh, t, view, fromId);
    read := ResumeComposes(c, sv, OfTask(s.sh.db.log, t), maxReconnects, 0, fromId);
    if FollowFrom(c, ServerOf(c, sv), maxReconnects, 0, fromId).end == Completed {
      InvIsSound(s);
      ExitCodeIsStatus(s.sh.db, t, read, fromId);
    }
  }

  /** And the client of a finished task completes, if one of the connections within its
      limit is not cut and was opened after the end, whatever was published or not. */
  lemma FinishedIsSeen(cfg: Config, steps: seq<Step>, t: TaskId, c: Codec, sv: Service,
                       view: (nat, int) -> View, fromId: int, maxReconnects: int, good: nat)
    requires IsRun(cfg, Init(cfg), steps)
    requires Faithful(c) && ServedFrom(sv, Run(cfg, Init(cfg), steps).sh, t, view, fromId)
    requires good == 0 || good <= maxReconnects
    requires FinishedBy(c, sv, Run(cfg, Init(cfg), steps).sh, t, view, fromId, good)
    ensures FollowFrom(c, ServerOf(c, sv), maxReconnects, 0, fromId).end == Completed
  {
    InitHolds(cfg);
    RunKeeps(cfg, Init(cfg), steps);
    var s := Run(cfg, Init(cfg), steps);
    var stream := OfTask(s.sh.db.log, t);
    InvIsLogged(s);
    OfTaskOrdered(s.sh.db.log, t);
    ViewsServe(sv, s.sh, t, view, fromId);
    forall id | Presents(stream, fromId, id) ensures ServesAllAt(c, sv, stream, good, id) {
      assert IsView(sv, s.sh, t, fromId, good, id, view(good, id));
      assert SeesEnd(c, sv, s.sh, t, fromId, good, id, view(good, id));
      ViewServes(sv, s.sh, t, fromId, good, id, view(good, id));
    }
    PresentsFirst(stream, fromId);
    assert SeesEnd(c, sv, s.sh, t, fromId, good, fromId, view(good, fromId));
    EndIsOwed(s.sh, t, fromId, view(good, fromId));
    OneGoodConnectionSuffices(c, sv, stream, maxReconnects, 0, fromId, good);
  }

  lemma EndIsOwed(sh: Shared, t: TaskId, fromId: int, v: View)
    requires ViewOk(sh, v) && EndSeen(sh, t, fromId, v)
    ensures HasEnd(Owed(OfTask(sh.db.log, t), fromId))
  {
    HistoryIsAbove(sh.db.log[..v.snapshot], t, fromId);
    OfTaskPrefix(sh.db.log, v.snapshot, t);
    AbovePrefix(OfTask(sh.db.log, t), |OfTask(sh.db.log[..v.snapshot], t)|, fromId);
    UpToEndMonotone(Above(OfTask(sh.db.log[..v.snapshot], t), fromId), Above(OfTask(sh.db.log, t), fromId));
    UpToEndIsPrefix(Above(OfTask(sh.db.log[..v.snapshot], t), fromId));
  }

  lemma InvIsSound(s: State)
    requires Inv(s)
    ensures Sound(s.sh.db)
  {
  }
}
