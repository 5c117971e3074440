/** `meetings tail`: show the last messages of a room, then follow it. */
module Tail {
  import opened Wrappers
  import opened SeqFacts

  /** A message: the day it belongs to, its number within that day, and its text. */
  datatype Turn = Turn(date: int, n: nat, content: string)

  datatype Cursor = Start | At(date: int, n: nat)

  type Log = seq<Turn>

  /** Strictly after, by day and then by number. */
  predicate Past(c: Cursor, t: Turn) {
    c.Start? || t.date > c.date || (t.date == c.date && t.n > c.n)
  }

  predicate Before(a: Turn, b: Turn)
    ensures Before(a, b) <==> Past(CursorOf(a), b)
  {
    a.date < b.date || (a.date == b.date && a.n < b.n)
  }

  /** A room's log: in order of day, and of number within a day. */
  ghost predicate Ordered(log: Log) {
    forall i, j :: 0 <= i < j < |log| ==> Before(log[i], log[j])
  }

  function CursorOf(t: Turn): Cursor { At(t.date, t.n) }

  // ---------------------------------------------------------------- the store

  /** `store::read_after`: days before the cursor's are skipped, its own day is read from `n + 1`, and
      later days from 0. */
  function ReadAfter(log: Log, c: Cursor): Log {
    if log == [] then []
    else
      var t := log[0];
      var from := if c.At? && t.date == c.date then c.n + 1 else 0;
      var rest := ReadAfter(log[1..], c);
      if c.At? && t.date < c.date then rest else if t.n >= from then [t] + rest else rest
  }

  /** How many messages of an ordered log are at or before the cursor. */
  function Passed(log: Log, c: Cursor): nat {
    if log == [] || Past(c, log[0]) then 0 else 1 + Passed(log[1..], c)
  }

  /** What is read is exactly what lies past the cursor: a suffix of the log. */
  lemma {:induction false} ReadAfterIsSuffix(log: Log, c: Cursor)
    requires Ordered(log)
    ensures Passed(log, c) <= |log| && ReadAfter(log, c) == log[Passed(log, c)..]
    ensures forall i :: 0 <= i < |log| ==> (Past(c, log[i]) <==> i >= Passed(log, c))
  {
    if log != [] {
      ReadAfterIsSuffix(log[1..], c);
      assert log == [log[0]] + log[1..];
      if Past(c, log[0]) {
        assert forall i :: 0 <= i < |log| ==> log[i] == log[0] || Before(log[0], log[i]);
        assert Passed(log[1..], c) == 0;
      }
    }
  }

  /** After the message at `k`, exactly the later ones are past the cursor; more log changes nothing. */
  lemma PassedAt(log: Log, k: nat)
    requires Ordered(log) && k < |log|
    ensures Passed(log, CursorOf(log[k])) == k + 1
  {
    var c := CursorOf(log[k]);
    ReadAfterIsSuffix(log, c);
    assert !Past(c, log[k]);
    assert k + 1 < |log| ==> Past(c, log[k + 1]);
  }

  lemma PassedGrows(log: Log, longer: Log, c: Cursor)
    requires Ordered(longer) && log <= longer && Ordered(log)
    ensures Passed(log, c) <= Passed(longer, c)
    ensures Passed(log, c) < |log| ==> Passed(longer, c) == Passed(log, c)
  {
    ReadAfterIsSuffix(log, c);
    ReadAfterIsSuffix(longer, c);
    var k := Passed(log, c);
    assert forall i :: 0 <= i < |log| ==> longer[i] == log[i];
    if k < |log| {
      assert Past(c, longer[k]);
      assert k > 0 ==> !Past(c, longer[k - 1]);
    } else {
      assert k > 0 ==> !Past(c, longer[k - 1]);
    }
  }

  /** The last `count` messages. */
  function Last(log: Log, count: nat): Log {
    if |log| <= count then log else log[|log| - count..]
  }

  // ---------------------------------------------------------------- following

  /** One tick of the loop: the room is not there yet, the read failed, or it saw the log as it was. */
  datatype Poll = Absent | Failed | Saw(log: Log)

  /** What the ticks saw is one growing, ordered log. */
  ghost predicate Growing(polls: seq<Poll>) {
    && (forall i :: 0 <= i < |polls| && polls[i].Saw? ==> Ordered(polls[i].log))
    && (forall i, j :: 0 <= i < j < |polls| && polls[i].Saw? && polls[j].Saw? ==> polls[i].log <= polls[j].log)
  }

  /** The log as the last successful read saw it. */
  ghost function Seen(polls: seq<Poll>): Log {
    if polls == [] then []
    else if polls[|polls| - 1].Saw? then polls[|polls| - 1].log
    else Seen(polls[..|polls| - 1])
  }

  lemma {:induction false} SeenIsPrefix(polls: seq<Poll>, k: nat)
    requires Growing(polls) && k < |polls| && polls[k].Saw?
    ensures Seen(polls[..k]) <= polls[k].log && Ordered(Seen(polls[..k]))
  {
    SeenIs(polls[..k]);
  }

  lemma {:induction false} SeenIs(polls: seq<Poll>)
    ensures Seen(polls) == [] || exists i :: 0 <= i < |polls| && polls[i].Saw? && polls[i].log == Seen(polls)
  {
    if polls != [] && !polls[|polls| - 1].Saw? {
      SeenIs(polls[..|polls| - 1]);
      if Seen(polls) != [] {
        var i :| 0 <= i < |polls| - 1 && polls[..|polls| - 1][i].Saw? && polls[..|polls| - 1][i].log == Seen(polls);
        assert polls[i].Saw?;
      }
    }
  }

  /** Prints one batch, moving the cursor with every message. */
  method PrintBatch(turns: Log, before: Log, start: Cursor) returns (printed: Log, cursor: Cursor)
    ensures printed == before + turns
    ensures cursor == if turns == [] then start else CursorOf(turns[|turns| - 1])
  {
    printed, cursor := before, start;
    for i := 0 to |turns|
      invariant printed == before + turns[..i]
      invariant cursor == if i == 0 then start else CursorOf(turns[i - 1])
    {
      printed := printed + [turns[i]];
      cursor := CursorOf(turns[i]);
    }
  }

  ghost function CursorAfter(printed: Log, start: Cursor): Cursor {
    if printed == [] then start else CursorOf(printed[|printed| - 1])
  }

  /** The follow loop prints every message past its starting cursor once and in order, whatever ticks
      fail and however late the room appears. */
  method Follow(start: Cursor, polls: seq<Poll>) returns (printed: Log, cursor: Cursor)
    requires Growing(polls)
    ensures printed == ReadAfter(Seen(polls), start)
    ensures cursor == CursorAfter(printed, start)
  {
    printed, cursor := [], start;
    for k := 0 to |polls|
      invariant printed == ReadAfter(Seen(polls[..k]), start)
      invariant cursor == CursorAfter(printed, start)
    {
      assert polls[..k + 1][..k] == polls[..k];
      if polls[k].Saw? {
        SeenIsPrefix(polls, k);
        var turns := ReadAfter(polls[k].log, cursor);
        NextBatch(Seen(polls[..k]), polls[k].log, start, printed, cursor);
        printed, cursor := PrintBatch(turns, printed, cursor);
      }
    }
    assert polls[..|polls|] == polls;
  }

  /** What follows the cursor of the last message of a prefix is the rest of the log. */
  lemma AfterPrefix(head: Log, log: Log)
    requires Ordered(log) && head <= log
    ensures ReadAfter(log, if head == [] then Start else CursorOf(head[|head| - 1])) == log[|head|..]
  {
    if head == [] {
      ReadAfterIsSuffix(log, Start);
    } else {
      assert head[|head| - 1] == log[|head| - 1];
      PassedAt(log, |head| - 1);
      ReadAfterIsSuffix(log, CursorOf(head[|head| - 1]));
    }
  }

  lemma SplitPrefix(head: Log, log: Log, k: nat)
    requires head <= log && k <= |head|
    ensures head[k..] + log[|head|..] == log[k..]
  {
  }

  /** What is new since the last printed message is what is still missing. */
  lemma NextBatch(seen: Log, log: Log, start: Cursor, printed: Log, cursor: Cursor)
    requires Ordered(log) && Ordered(seen) && seen <= log && printed == ReadAfter(seen, start)
    requires cursor == if printed == [] then start else CursorOf(printed[|printed| - 1])
    ensures printed + ReadAfter(log, cursor) == ReadAfter(log, start)
  {
    if printed != [] {
      var k := Passed(seen, start);
      ReadAfterIsSuffix(seen, start);
      assert printed == seen[k..] && printed[|printed| - 1] == seen[|seen| - 1];
      PassedGrows(seen, log, start);
      ReadAfterIsSuffix(log, start);
      AfterPrefix(seen, log);
      SplitPrefix(seen, log, k);
    }
  }

  // ---------------------------------------------------------------- starting up

  /** The log the start-up ended with. */
  function Head(first: Log, second: Log, count: nat): Log {
    if Last(first, count) == [] then second else first
  }

  /** Without `--since`: show the last `count`, and start at the last message shown, or, when nothing was
      shown, at the last one a second read finds.  Whatever the log grows to, what follows the cursor is
      exactly what was not there yet. */
  method StartUp(first: Log, second: Log, count: nat) returns (shown: Log, cursor: Cursor)
    ensures |shown| == (if count < |first| then count else |first|) && Suffix(shown, first)
    ensures var head := Head(first, second, count);
            forall log :: Ordered(log) && head <= log ==> ReadAfter(log, cursor) == log[|head|..]
  {
    shown := Last(first, count);
    var last := if shown == [] then Last(second, 1) else shown;
    cursor := if last == [] then Start else CursorOf(last[|last| - 1]);
    ghost var head := Head(first, second, count);
    forall log | Ordered(log) && head <= log ensures ReadAfter(log, cursor) == log[|head|..] {
      AfterPrefix(head, log);
    }
  }

  predicate AnySaw(polls: seq<Poll>) {
    exists i :: 0 <= i < |polls| && polls[i].Saw?
  }

  lemma {:induction false} SeenConcat(a: seq<Poll>, b: seq<Poll>)
    ensures Seen(a + b) == if AnySaw(b) then Seen(b) else Seen(a)
    ensures !AnySaw(b) ==> Seen(b) == []
    decreases |b|
  {
    if b == [] {
      assert a + b == a;
    } else {
      var p, last := b[..|b| - 1], b[|b| - 1];
      assert (a + b)[..|a + b| - 1] == a + p;
      SeenConcat(a, p);
      if !last.Saw? && AnySaw(b) {
        var i :| 0 <= i < |b| && b[i].Saw?;
        assert p[i].Saw?;
      }
    }
  }

  /** The reads made before the loop: one, or two when the first showed nothing. */
  function StartReads(first: Log, second: Log, count: nat): seq<Poll> {
    if Last(first, count) == [] then [Saw(first), Saw(second)] else [Saw(first)]
  }

  lemma FinalLog(first: Log, second: Log, count: nat, polls: seq<Poll>)
    requires Growing(StartReads(first, second, count) + polls)
    ensures var final, head := Seen(StartReads(first, second, count) + polls), Head(first, second, count);
            && Growing(polls) && first <= head <= final && Ordered(final)
            && final == if AnySaw(polls) then Seen(polls) else head
  {
    var early := StartReads(first, second, count);
    GrowingParts(early, polls);
    SeenConcat(early, polls);
    assert early[0] == Saw(first) && early[|early| - 1] == Saw(Head(first, second, count));
    if AnySaw(polls) {
      SeenExtends(early, polls);
      assert early[|early| - 1].log <= Seen(polls);
    }
  }

  lemma OutputExactly(first: Log, second: Log, count: nat, final: Log, out: Log)
    requires var head := Head(first, second, count); first <= head <= final && out == Last(first, count) + final[|head|..]
    ensures out == final[|first| - |Last(first, count)|..] <==> Last(first, count) != [] || |first| == |second|
    ensures Suffix(out, final)
  {
    var shown := Last(first, count);
    if shown != [] {
      SplitPrefix(first, final, |first| - |shown|);
    } else {
      assert out == final[|second|..] && |out| == |final| - |second|;
    }
  }

  /** The reads whose result matters: those of the loop, and without `--since` those before it. */
  function Reads(since: Option<Cursor>, first: Log, second: Log, count: nat, polls: seq<Poll>): seq<Poll> {
    (if since.Some? then [] else StartReads(first, second, count)) + polls
  }

  /** The whole command.  With `--since` the output is every message past the given one.  Without, it is
      always a suffix of the log, and it is everything from the first message shown on exactly when the
      first read showed something or nothing was appended between the two start-up reads. */
  method RunTail(since: Option<Cursor>, first: Log, second: Log, count: nat, polls: seq<Poll>) returns (out: Log)
    requires Growing(Reads(since, first, second, count, polls))
    ensures var final := Seen(Reads(since, first, second, count, polls));
            match since
            case Some(cursor) => out == ReadAfter(final, cursor)
            case None =>
              var from := |first| - |Last(first, count)|;
              && Suffix(out, final) && |first| <= |final|
              && (out == final[from..] <==> Last(first, count) != [] || |first| == |second|)
  {
    if since.Some? {
      assert [] + polls == polls;
      var end;
      out, end := Follow(since.value, polls);
    } else {
      FinalLog(first, second, count, polls);
      var shown, cursor := StartUp(first, second, count);
      var followed, end := Follow(cursor, polls);
      out := shown + followed;
      ghost var final, head := Seen(StartReads(first, second, count) + polls), Head(first, second, count);
      FollowedIs(head, final, polls, cursor);
      LastIs(first, count, shown);
      OutputExactly(first, second, count, final, out);
    }
  }

  lemma LastIs(log: Log, count: nat, shown: Log)
    requires |shown| == (if count < |log| then count else |log|) && Suffix(shown, log)
    ensures shown == Last(log, count)
  {
  }

  lemma FollowedIs(head: Log, final: Log, polls: seq<Poll>, cursor: Cursor)
    requires head <= final && Ordered(final) && final == if AnySaw(polls) then Seen(polls) else head
    requires forall log :: Ordered(log) && head <= log ==> ReadAfter(log, cursor) == log[|head|..]
    ensures ReadAfter(Seen(polls), cursor) == final[|head|..]
  {
    if !AnySaw(polls) {
      SeenConcat([], polls);
    }
  }

  lemma GrowingParts(a: seq<Poll>, b: seq<Poll>)
    requires Growing(a + b)
    ensures Growing(a) && Growing(b)
  {
    var all := a + b;
    assert forall i :: 0 <= i < |a| ==> a[i] == all[i];
    assert forall i :: 0 <= i < |b| ==> b[i] == all[|a| + i];
  }

  lemma SeenExtends(a: seq<Poll>, b: seq<Poll>)
    requires Growing(a + b) && AnySaw(b) && forall i :: 0 <= i < |a| ==> a[i].Saw?
    ensures Ordered(Seen(b)) && forall i :: 0 <= i < |a| ==> a[i].log <= Seen(b)
  {
    LastSaw(b);
    var j :| 0 <= j < |b| && b[j].Saw? && b[j].log == Seen(b);
    var all := a + b;
    assert all[|a| + j] == b[j];
    forall i | 0 <= i < |a| ensures a[i].log <= Seen(b) {
      assert all[i] == a[i];
    }
  }

  lemma {:induction false} LastSaw(polls: seq<Poll>)
    requires AnySaw(polls)
    ensures exists j :: 0 <= j < |polls| && polls[j].Saw? && polls[j].log == Seen(polls)
  {
    if !polls[|polls| - 1].Saw? {
      var p := polls[..|polls| - 1];
      var i :| 0 <= i < |polls| && polls[i].Saw?;
      assert p[i].Saw?;
      LastSaw(p);
      var j :| 0 <= j < |p| && p[j].Saw? && p[j].log == Seen(p);
      assert polls[j] == p[j];
    }
  }
}
