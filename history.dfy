/**
 * Chat messages and the snapshot GET /history serves: the `messages`
 * collection sorted by date, most recent first, cut to 100 and reversed.
 */
module History {

  /** One chat message, `{ username, message, date }`, as broadcast and as stored; `date` is a clock reading. */
  datatype Message = Message(username: string, message: string, date: int)

  /** The `limit` of the history query. */
  const LIMIT: nat := 100

  /** The log is in the order the messages were stamped: dates strictly increase. */
  predicate Chronological(log: seq<Message>)
  {
    forall i, j :: 0 <= i < j < |log| ==> log[i].date < log[j].date
  }

  /** Every message of the log was stamped before `t`. */
  predicate Before(log: seq<Message>, t: int)
  {
    forall i :: 0 <= i < |log| ==> log[i].date < t
  }

  predicate SortedDescending(s: seq<Message>)
  {
    forall i, j :: 0 <= i < j < |s| ==> s[i].date >= s[j].date
  }

  predicate SortedAscending(s: seq<Message>)
  {
    forall i, j :: 0 <= i < j < |s| ==> s[i].date <= s[j].date
  }

  function Min(a: nat, b: nat): nat
  {
    if a <= b then a else b
  }

  /** The elements of `s` from last to first. */
  function Reverse(s: seq<Message>): (r: seq<Message>)
    ensures |r| == |s|
  {
    if s == [] then [] else [s[|s| - 1]] + Reverse(s[..|s| - 1])
  }

  /** Places `m` into a most-recent-first sequence, ahead of every message not later than it. */
  function InsertDescending(m: Message, s: seq<Message>): (r: seq<Message>)
    ensures |r| == |s| + 1
    ensures multiset(r) == multiset(s) + multiset{m}
  {
    if s == [] || s[0].date <= m.date then [m] + s
    else
      assert s == [s[0]] + s[1..];
      [s[0]] + InsertDescending(m, s[1..])
  }

  /** `sort: { date: -1 }`: the log ordered most recent first (the order among equal dates is not specified). */
  function SortByDateDescending(log: seq<Message>): (r: seq<Message>)
    ensures |r| == |log|
    ensures multiset(r) == multiset(log)
  {
    if log == [] then []
    else
      assert log == [log[0]] + log[1..];
      InsertDescending(log[0], SortByDateDescending(log[1..]))
  }

  /** `limit: 100`: the first LIMIT elements, or all when there are fewer. */
  function Limit(s: seq<Message>): (r: seq<Message>)
    ensures |r| == Min(LIMIT, |s|)
    ensures r == s[..|r|]
  {
    if |s| <= LIMIT then s else s[..LIMIT]
  }

  /** GET /history: `find` sorted by date descending with limit 100, then `reverse()`. */
  function Snapshot(log: seq<Message>): (r: seq<Message>)
    ensures |r| == Min(LIMIT, |log|)
    ensures |r| <= LIMIT
  {
    Reverse(Limit(SortByDateDescending(log)))
  }

  // ---------------------------------------------------------------------
  // Properties

  lemma {:induction false} ReverseAt(s: seq<Message>, i: nat)
    requires i < |s|
    ensures Reverse(s)[i] == s[|s| - 1 - i]
  {
    if i > 0 {
      ReverseAt(s[..|s| - 1], i - 1);
    }
  }

  /** Reversing turns a most-recent-first sequence into an oldest-first one. */
  lemma ReverseOfDescending(s: seq<Message>)
    requires SortedDescending(s)
    ensures SortedAscending(Reverse(s))
  {
    var r := Reverse(s);
    forall i, j | 0 <= i < j < |r|
      ensures r[i].date <= r[j].date
    {
      ReverseAt(s, i);
      ReverseAt(s, j);
    }
  }

  /** Inserting keeps a most-recent-first sequence most recent first. */
  lemma {:induction false} InsertKeepsDescending(m: Message, s: seq<Message>)
    requires SortedDescending(s)
    ensures SortedDescending(InsertDescending(m, s))
  {
    if s == [] || s[0].date <= m.date {
    } else {
      InsertKeepsDescending(m, s[1..]);
      var rest := InsertDescending(m, s[1..]);
      assert rest[0] in multiset(rest);
      assert rest[0] == m || rest[0] in s[1..];
    }
  }

  /** The sort of the history query really orders the log most recent first. */
  lemma {:induction false} SortIsDescending(log: seq<Message>)
    ensures SortedDescending(SortByDateDescending(log))
  {
    if log != [] {
      SortIsDescending(log[1..]);
      InsertKeepsDescending(log[0], SortByDateDescending(log[1..]));
    }
  }

  /** A message older than everything already sorted goes to the end. */
  lemma {:induction false} InsertOldest(m: Message, s: seq<Message>)
    requires forall i :: 0 <= i < |s| ==> m.date < s[i].date
    ensures InsertDescending(m, s) == s + [m]
  {
    if s != [] {
      InsertOldest(m, s[1..]);
    }
  }

  /** For a chronological log, sorting most recent first is reversing. */
  lemma {:induction false} SortOfChronological(log: seq<Message>)
    requires Chronological(log)
    ensures SortByDateDescending(log) == Reverse(log)
  {
    if log != [] {
      var rest := log[1..];
      SortOfChronological(rest);
      forall i | 0 <= i < |Reverse(rest)|
        ensures log[0].date < Reverse(rest)[i].date
      {
        ReverseAt(rest, i);
      }
      InsertOldest(log[0], Reverse(rest));
      ReverseFront(log);
    }
  }

  /** Reversing a sequence puts its first element last. */
  lemma ReverseFront(s: seq<Message>)
    requires s != []
    ensures Reverse(s) == Reverse(s[1..]) + [s[0]]
  {
    var r, r' := Reverse(s), Reverse(s[1..]) + [s[0]];
    forall i | 0 <= i < |s|
      ensures r[i] == r'[i]
    {
      ReverseAt(s, i);
      if i < |s| - 1 {
        ReverseAt(s[1..], i);
      }
    }
  }

  /** The snapshot is oldest first and holds only logged messages. */
  lemma SnapshotOrdered(log: seq<Message>)
    ensures SortedAscending(Snapshot(log))
    ensures multiset(Snapshot(log)) <= multiset(log)
  {
    var sorted := SortByDateDescending(log);
    SortIsDescending(log);
    var kept := Limit(sorted);
    assert sorted == kept + sorted[|kept|..];
    assert multiset(sorted) == multiset(kept) + multiset(sorted[|kept|..]);
    ReverseOfDescending(kept);
    ReverseMultiset(kept);
  }

  lemma {:induction false} ReverseMultiset(s: seq<Message>)
    ensures multiset(Reverse(s)) == multiset(s)
  {
    if s != [] {
      ReverseMultiset(s[..|s| - 1]);
      assert s == s[..|s| - 1] + [s[|s| - 1]];
    }
  }

  /** Reversing the first min(100, n) entries of the reversed log gives its last min(100, n), in order. */
  lemma {:induction false} RecentOfReversed(log: seq<Message>)
    ensures Reverse(Limit(Reverse(log))) == log[|log| - Min(LIMIT, |log|)..]
  {
    var n := |log|;
    var kept := Limit(Reverse(log));
    var k := |kept|;
    var r, tail := Reverse(kept), log[n - k..];
    forall i | 0 <= i < k
      ensures r[i] == tail[i]
    {
      ReverseAt(kept, i);
      assert kept[k - 1 - i] == Reverse(log)[k - 1 - i];
      ReverseAt(log, k - 1 - i);
    }
  }

  /** For a chronological log, the snapshot is the last min(100, n) messages, oldest first. */
  lemma SnapshotIsRecentTail(log: seq<Message>)
    requires Chronological(log)
    ensures Snapshot(log) == log[|log| - Min(LIMIT, |log|)..]
  {
    SortOfChronological(log);
    RecentOfReversed(log);
  }

  /** Of 101 messages logged in turn, the snapshot leaves out only the first. */
  lemma SnapshotDropsOldest(log: seq<Message>)
    requires Chronological(log) && |log| == LIMIT + 1
    ensures Snapshot(log) == log[1..]
  {
    SnapshotIsRecentTail(log);
  }
}
