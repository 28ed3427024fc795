/** cli/main.py, `follow_events`: how many connections the client makes, at which ids, and
    when it completes, gives up or aborts, whatever the server sends. */
module Reconnects {
  import opened Wire
  import opened Follow

  /** The last connection that the client may make. */
  function Limit(maxReconnects: int): nat {
    if maxReconnects > 0 then maxReconnects else 0
  }

  /** The last id that connection `k + n` presents, if connection `k` presents `id` and all
      up to it drop. */
  function IdAfter(c: Codec, server: (nat, int) -> Connection, k: nat, id: int, n: nat): int
    decreases n
  {
    if n == 0 then id else IdAfter(c, server, k + 1, Answer(c, server(k, id), id).lastId, n - 1)
  }

  /** What the n-th connection brings, opened at the id that the client then presents. */
  function Brings(c: Codec, server: (nat, int) -> Connection, k: nat, id: int, n: nat): Consumed {
    var at := IdAfter(c, server, k, id, n);
    Answer(c, server(k + n, at), at)
  }

  predicate DropsAt(c: Codec, server: (nat, int) -> Connection, k: nat, id: int, n: int) {
    n >= 0 && Brings(c, server, k, id, n).how == Dropped
  }

  /** The connections before the n-th all dropped. */
  predicate AllDrop(c: Codec, server: (nat, int) -> Connection, k: nat, id: int, n: nat) {
    forall i :: 0 <= i < n ==> DropsAt(c, server, k, id, i)
  }

  /** What the first `n` connections bring together. */
  function Together(c: Codec, server: (nat, int) -> Connection, k: nat, id: int, n: nat): seq<Item>
    decreases n
  {
    if n == 0 then [] else
      var r := Answer(c, server(k, id), id);
      r.out + Together(c, server, k + 1, r.lastId, n - 1)
  }

  lemma BringsNext(c: Codec, server: (nat, int) -> Connection, k: nat, id: int, n: nat)
    ensures Brings(c, server, k, id, n + 1)
            == Brings(c, server, k + 1, Answer(c, server(k, id), id).lastId, n)
    ensures Brings(c, server, k, id, 0) == Answer(c, server(k, id), id)
  {
  }

  lemma AllDropNext(c: Codec, server: (nat, int) -> Connection, k: nat, id: int, n: nat)
    requires Answer(c, server(k, id), id).how == Dropped
    requires AllDrop(c, server, k + 1, Answer(c, server(k, id), id).lastId, n)
    ensures AllDrop(c, server, k, id, n + 1)
  {
    forall i | 0 <= i < n + 1 ensures DropsAt(c, server, k, id, i) {
      if i > 0 {
        BringsNext(c, server, k, id, i - 1);
        assert DropsAt(c, server, k + 1, Answer(c, server(k, id), id).lastId, i - 1);
      }
    }
  }

  /** How the client ends after `n` connections that dropped and one more, the last one
      allowed if `last`. */
  predicate EndsAt(c: Codec, server: (nat, int) -> Connection, k: nat, id: int, n: nat, last: bool, r: Followed) {
    && AllDrop(c, server, k, id, n)
    && r.out == Together(c, server, k, id, n + 1)
    && match Brings(c, server, k, id, n).how
       case Done => r.end == Completed
       case Raised => r.end == Aborted
       case Dropped => last && r.end == GaveUp
  }

  lemma EndsNow(c: Codec, server: (nat, int) -> Connection, maxReconnects: int, k: nat, id: int)
    requires Answer(c, server(k, id), id).how != Dropped || k + 1 > maxReconnects
    ensures EndsAt(c, server, k, id, 0, k + 1 > maxReconnects, FollowFrom(c, server, maxReconnects, k, id))
  {
    var r := Answer(c, server(k, id), id);
    assert Together(c, server, k + 1, r.lastId, 0) == [];
    assert r.out + [] == r.out;
  }

  lemma EndsLater(c: Codec, server: (nat, int) -> Connection, k: nat, id: int, m: nat, last: bool, rest: Followed)
    requires Answer(c, server(k, id), id).how == Dropped
    requires EndsAt(c, server, k + 1, Answer(c, server(k, id), id).lastId, m, last, rest)
    ensures EndsAt(c, server, k, id, m + 1, last, Followed(Answer(c, server(k, id), id).out + rest.out, rest.end))
  {
    AllDropNext(c, server, k, id, m);
    BringsNext(c, server, k, id, m);
  }

  /** The client makes connections until one does not drop, at most up to the limit. */
  lemma {:induction false} EndsSomewhere(c: Codec, server: (nat, int) -> Connection, maxReconnects: int,
                                         k: nat, id: int)
    returns (n: nat)
    ensures n == 0 || k + n <= maxReconnects
    ensures EndsAt(c, server, k, id, n, k + n + 1 > maxReconnects, FollowFrom(c, server, maxReconnects, k, id))
    decreases maxReconnects - k
  {
    var r := Answer(c, server(k, id), id);
    if r.how != Dropped || k + 1 > maxReconnects {
      n := 0;
      EndsNow(c, server, maxReconnects, k, id);
    } else {
      var m := EndsSomewhere(c, server, maxReconnects, k + 1, r.lastId);
      n := m + 1;
      EndsLater(c, server, k, id, m, k + 1 + m + 1 > maxReconnects,
                FollowFrom(c, server, maxReconnects, k + 1, r.lastId));
    }
  }

  /** The first connection that does not drop decides; so there is only one way to end. */
  lemma OnlyOneEnd(c: Codec, server: (nat, int) -> Connection, k: nat, id: int, n: nat, m: nat)
    requires AllDrop(c, server, k, id, n) && !DropsAt(c, server, k, id, m)
    ensures n <= m
  {
  }

  /** At most one plus `maxReconnects` connections are made, each at the last id that the
      one before brought. The client gives up exactly if all of these drop, and then not
      before the last one; it completes exactly if the first that does not drop brings the
      terminal event; it aborts exactly if that one raises. It yields what they bring. */
  lemma HowItEnds(c: Codec, server: (nat, int) -> Connection, maxReconnects: int, fromId: int)
    returns (n: nat)
    ensures n <= Limit(maxReconnects)
    ensures var r := FollowFrom(c, server, maxReconnects, 0, fromId);
            && AllDrop(c, server, 0, fromId, n)
            && r.out == Together(c, server, 0, fromId, n + 1)
            && (r.end == GaveUp <==> AllDrop(c, server, 0, fromId, Limit(maxReconnects) + 1))
            && (r.end == GaveUp ==> n == Limit(maxReconnects))
            && (r.end == Completed <==> Brings(c, server, 0, fromId, n).how == Done)
            && (r.end == Aborted <==> Brings(c, server, 0, fromId, n).how == Raised)
  {
    n := EndsSomewhere(c, server, maxReconnects, 0, fromId);
    var limit := Limit(maxReconnects);
    if DropsAt(c, server, 0, fromId, n) {
      assert AllDrop(c, server, 0, fromId, n + 1);
    } else if AllDrop(c, server, 0, fromId, limit + 1) {
      OnlyOneEnd(c, server, 0, fromId, limit + 1, n);
    }
  }

  /** A refused connection (an error status) aborts at once; what came before is kept. */
  lemma RefusalAborts(c: Codec, server: (nat, int) -> Connection, maxReconnects: int, fromId: int, n: nat)
    requires n <= Limit(maxReconnects) && AllDrop(c, server, 0, fromId, n)
    requires server(n, IdAfter(c, server, 0, fromId, n)) == Refused
    ensures var r := FollowFrom(c, server, maxReconnects, 0, fromId);
            r.end == Aborted && r.out == Together(c, server, 0, fromId, n)
  {
    var m := HowItEnds(c, server, maxReconnects, fromId);
    assert Brings(c, server, 0, fromId, n) == Consumed([], IdAfter(c, server, 0, fromId, n), Raised);
    assert !DropsAt(c, server, 0, fromId, n);
    OnlyOneEnd(c, server, 0, fromId, m, n);
    assert !AllDrop(c, server, 0, fromId, Limit(maxReconnects) + 1);
    NotDropped(c, server, maxReconnects, fromId, m);
    OnlyOneEnd(c, server, 0, fromId, n, m);
    NothingMore(c, server, 0, fromId, n);
  }

  lemma NotDropped(c: Codec, server: (nat, int) -> Connection, maxReconnects: int, fromId: int, m: nat)
    requires FollowFrom(c, server, maxReconnects, 0, fromId).end != GaveUp
    requires var r := FollowFrom(c, server, maxReconnects, 0, fromId);
             && (r.end == Completed <==> Brings(c, server, 0, fromId, m).how == Done)
             && (r.end == Aborted <==> Brings(c, server, 0, fromId, m).how == Raised)
    ensures !DropsAt(c, server, 0, fromId, m)
  {
  }

  lemma {:induction false} NothingMore(c: Codec, server: (nat, int) -> Connection, k: nat, id: int, n: nat)
    requires Brings(c, server, k, id, n).out == []
    ensures Together(c, server, k, id, n + 1) == Together(c, server, k, id, n)
    decreases n
  {
    if n == 0 {
      assert Together(c, server, k + 1, Answer(c, server(k, id), id).lastId, 0) == [];
    } else {
      BringsNext(c, server, k, id, n - 1);
      NothingMore(c, server, k + 1, Answer(c, server(k, id), id).lastId, n - 1);
    }
  }

  /** Connections beyond the limit do not matter: servers that agree on the first one plus
      `maxReconnects` give the same output and the same ending. */
  lemma OnlyTheseCount(c: Codec, one: (nat, int) -> Connection, two: (nat, int) -> Connection,
                       maxReconnects: int, fromId: int)
    requires forall k: nat, id: int :: k <= Limit(maxReconnects) ==> one(k, id) == two(k, id)
    ensures FollowFrom(c, one, maxReconnects, 0, fromId) == FollowFrom(c, two, maxReconnects, 0, fromId)
  {
    SameFrom(c, one, two, maxReconnects, 0, fromId);
  }

  lemma {:induction false} SameFrom(c: Codec, one: (nat, int) -> Connection, two: (nat, int) -> Connection,
                                    maxReconnects: int, k: nat, id: int)
    requires k <= Limit(maxReconnects)
    requires forall j: nat, i: int :: j <= Limit(maxReconnects) ==> one(j, i) == two(j, i)
    ensures FollowFrom(c, one, maxReconnects, k, id) == FollowFrom(c, two, maxReconnects, k, id)
    decreases maxReconnects - k
  {
    assert one(k, id) == two(k, id);
    if k + 1 <= maxReconnects {
      SameFrom(c, one, two, maxReconnects, k + 1, Answer(c, one(k, id), id).lastId);
    }
  }
}
