/** `doctor`'s service-liveness announcer: a persisted per-service string, one step per tick. */
module Debounce {
  import opened Wrappers

  datatype Status = Ok | Warn | Fail | Skip {
    function Label(): string {
      match this
      case Ok => "ok"
      case Warn => "warn"
      case Fail => "fail"
      case Skip => "skip"
    }
  }

  const U32_MAX: nat := 0xFFFF_FFFF

  // ---------------------------------------------------------------- the stored text

  function Digit(d: nat): char
    requires d < 10
  {
    "0123456789"[d]
  }

  function Decimal(n: nat): string {
    if n < 10 then [Digit(n)] else Decimal(n / 10) + [Digit(n % 10)]
  }

  function Digits(s: string): Option<nat> {
    if s == [] then Some(0)
    else match Digits(s[..|s| - 1])
      case None => None
      case Some(n) =>
        if '0' <= s[|s| - 1] <= '9' then Some(10 * n + (s[|s| - 1] as int - '0' as int)) else None
  }

  /** An unsigned 32-bit number: an optional plus sign, then at least one digit. */
  function ParseU32(s: string): Option<nat> {
    var body := if s != [] && s[0] == '+' then s[1..] else s;
    if body == [] then None
    else match Digits(body)
      case Some(n) => if n <= U32_MAX then Some(n) else None
      case None => None
  }

  function Split(s: string): (r: seq<string>)
    ensures |r| >= 1
  {
    if s == [] then [[]]
    else
      var rest := Split(s[1..]);
      if s[0] == '|' then [[]] + rest else [[s[0]] + rest[0]] + rest[1..]
  }

  /** What the room was last told, the status it disagrees with, and for how many ticks running. */
  datatype Entry = Entry(posted: string, pending: string, streak: nat)

  function Encode(e: Entry): string {
    e.posted + "|" + e.pending + "|" + Decimal(e.streak)
  }

  function Parse(v: string): Entry {
    var it := Split(v);
    Entry(it[0], if |it| > 1 then it[1] else it[0],
          if |it| > 2 then (match ParseU32(it[2]) case Some(n) => n case None => 0) else 0)
  }

  ghost predicate Plain(s: string) { '|' !in s }

  lemma {:induction false} DecimalDigits(n: nat)
    ensures |Decimal(n)| >= 1 && Digits(Decimal(n)) == Some(n)
    ensures forall i :: 0 <= i < |Decimal(n)| ==> '0' <= Decimal(n)[i] <= '9'
  {
    if n >= 10 {
      DecimalDigits(n / 10);
      assert Decimal(n)[..|Decimal(n)| - 1] == Decimal(n / 10);
    } else {
      assert Decimal(n)[..0] == [];
    }
  }

  /** Any decimal number reads back, with or without a plus sign, if it fits 32 bits; a larger one does not. */
  lemma NumbersRead(n: nat)
    ensures var read := if n <= 0xFFFF_FFFF then Some(n) else None; ParseU32(Decimal(n)) == read && ParseU32("+" + Decimal(n)) == read
  {
    DecimalDigits(n);
    assert ("+" + Decimal(n))[1..] == Decimal(n);
  }

  lemma {:induction false} SplitPlain(a: string, b: string)
    requires Plain(a)
    ensures Split(a + "|" + b) == [a] + Split(b)
    ensures Split(a) == [a]
  {
    var s := a + "|" + b;
    if a == [] {
      assert s[1..] == b;
    } else {
      SplitPlain(a[1..], b);
      assert s[1..] == a[1..] + "|" + b && s[0] == a[0] != '|';
      assert ([a[1..]] + Split(b))[1..] == Split(b);
      assert [a[0]] + a[1..] == a;
    }
  }

  lemma SplitEntry(e: Entry)
    requires Plain(e.posted) && Plain(e.pending)
    ensures Split(Encode(e)) == [e.posted, e.pending, Decimal(e.streak)]
  {
    var d := Decimal(e.streak);
    DecimalDigits(e.streak);
    assert Encode(e) == e.posted + "|" + (e.pending + "|" + d);
    SplitPlain(e.posted, e.pending + "|" + d);
    SplitPlain(e.pending, d);
    SplitPlain(d, "");
  }

  /** The stored form reads back, for every entry the program can write. */
  lemma EntryRoundTrip(e: Entry)
    requires Plain(e.posted) && Plain(e.pending) && e.streak <= U32_MAX
    ensures Parse(Encode(e)) == e
  {
    SplitEntry(e);
    DecimalDigits(e.streak);
    assert ParseU32(Decimal(e.streak)) == Some(e.streak);
  }

  // ---------------------------------------------------------------- one service, one tick

  /** The new entry, and the status announced over, if a line is due. */
  function Advance(confirm: nat, e: Entry, after: string): (Entry, Option<string>) {
    var before := if e.posted == "" then "unknown" else e.posted;
    if before == after then (Entry(after, after, 0), None)
    else
      var streak := if e.pending == after then e.streak + 1 else 1;
      if streak < confirm then (Entry(before, after, streak), None)
      else (Entry(after, after, 0), Some(before))
  }

  /** The same on the stored text; a first run only takes the baseline. */
  function Step(confirm: nat, firstRun: bool, stored: Option<string>, now: Status): (string, Option<string>) {
    var after := now.Label();
    if firstRun then (Encode(Entry(after, after, 0)), None)
    else
      var e := match stored case Some(v) => Parse(v) case None => Entry("", "", 0);
      var (next, line) := Advance(confirm, e, after);
      (Encode(next), line)
  }

  // ---------------------------------------------------------------- the window specification

  /** How many of the last statuses are the same. */
  ghost function RunLength(h: seq<Status>): nat {
    if |h| < 2 then |h|
    else if h[|h| - 1] == h[|h| - 2] then RunLength(h[..|h| - 1]) + 1
    else 1
  }

  ghost predicate Window(confirm: nat, h: seq<Status>) {
    confirm <= |h| && forall i :: |h| - confirm <= i < |h| ==> h[i] == h[|h| - 1]
  }

  /** What the room believes after the history `h`: the baseline of a first run, else "unknown", until
      a line is announced. */
  ghost function Told(confirm: nat, first: bool, h: seq<Status>): string
    decreases |h|, 0
  {
    if h == [] then "unknown"
    else if (first && |h| == 1) || Announces(confirm, first, h) then h[|h| - 1].Label()
    else Told(confirm, first, h[..|h| - 1])
  }

  /** A line is due: the last `confirm` statuses agree with each other and not with what was told. */
  ghost predicate Announces(confirm: nat, first: bool, h: seq<Status>)
    requires h != []
    decreases |h| - 1, 1
  {
    && !(first && |h| == 1)
    && Window(confirm, h)
    && h[|h| - 1].Label() != Told(confirm, first, h[..|h| - 1])
  }

  lemma {:induction false} RunLengthIsWindow(confirm: nat, h: seq<Status>)
    requires h != [] && confirm >= 1
    ensures 1 <= RunLength(h) <= |h|
    ensures RunLength(h) >= confirm <==> Window(confirm, h)
  {
    if |h| >= 2 && confirm >= 2 {
      var p := h[..|h| - 1];
      RunLengthIsWindow(confirm - 1, p);
      if h[|h| - 1] == h[|h| - 2] {
        assert Window(confirm, h) <==> Window(confirm - 1, p);
      }
    } else if |h| >= 2 {
      RunLengthIsWindow(1, h[..|h| - 1]);
    }
  }

  /** The stored text after a history in which the service was present at every tick. */
  function Stored(confirm: nat, first: bool, h: seq<Status>): string
    requires h != []
  {
    if |h| == 1 then Step(confirm, first, None, h[0]).0
    else Step(confirm, false, Some(Stored(confirm, first, h[..|h| - 1])), h[|h| - 1]).0
  }

  function Line(confirm: nat, first: bool, h: seq<Status>): Option<string>
    requires h != []
  {
    if |h| == 1 then Step(confirm, first, None, h[0]).1
    else Step(confirm, false, Some(Stored(confirm, first, h[..|h| - 1])), h[|h| - 1]).1
  }

  /** What the stored text means after a non-empty history. */
  ghost function Meaning(confirm: nat, first: bool, h: seq<Status>): Entry
    requires h != []
  {
    Standing(Told(confirm, first, h), h[|h| - 1].Label(), RunLength(h))
  }

  ghost predicate Spoken(s: string) {
    s == "unknown" || exists x: Status :: s == x.Label()
  }

  lemma {:induction false} ToldIsSpoken(confirm: nat, first: bool, h: seq<Status>)
    ensures Spoken(Told(confirm, first, h)) && Plain(Told(confirm, first, h)) && Told(confirm, first, h) != ""
  {
    if h != [] {
      ToldIsSpoken(confirm, first, h[..|h| - 1]);
    }
  }

  /** What is stored when the room was told `told` and the last status, seen `run` times running, is `last`. */
  function Standing(told: string, last: string, run: nat): Entry {
    if last == told then Entry(told, told, 0) else Entry(told, last, run)
  }

  /** One tick, for any standing entry. */
  lemma AdvanceStanding(confirm: nat, told: string, last: string, run: nat, after: string)
    requires told != ""
    ensures var run' := if last == after then run + 1 else 1;
            Advance(confirm, Standing(told, last, run), after) ==
              if after == told then (Entry(told, told, 0), None)
              else if run' < confirm then (Entry(told, after, run'), None)
              else (Entry(after, after, 0), Some(told))
  {
  }

  lemma LabelInjective(a: Status, b: Status)
    ensures a.Label() == b.Label() <==> a == b
    ensures a.Label() != "unknown" && a.Label() != ""
  {
    assert |a.Label()| == |b.Label()| && a != b ==> a.Label()[0] != b.Label()[0];
  }

  /** What is told next, and what stands then. */
  lemma MeaningStep(confirm: nat, first: bool, h: seq<Status>)
    requires 1 <= confirm && h != [] && !(first && |h| == 1)
    ensures var told, after := Told(confirm, first, h[..|h| - 1]), h[|h| - 1].Label();
            && (Announces(confirm, first, h) <==> RunLength(h) >= confirm && after != told)
            && Meaning(confirm, first, h) ==
               (if Announces(confirm, first, h) then Entry(after, after, 0) else Standing(told, after, RunLength(h)))
  {
    RunLengthIsWindow(confirm, h);
  }

  /** One tick against the specification. */
  lemma AdvanceRefines(confirm: nat, first: bool, h: seq<Status>)
    requires 1 <= confirm && h != [] && !(first && |h| == 1)
    ensures var p := h[..|h| - 1];
            Advance(confirm, if p == [] then Entry("", "", 0) else Meaning(confirm, first, p), h[|h| - 1].Label()) ==
            (Meaning(confirm, first, h), if Announces(confirm, first, h) then Some(Told(confirm, first, p)) else None)
  {
    var p, now := h[..|h| - 1], h[|h| - 1];
    var told := Told(confirm, first, p);
    ToldIsSpoken(confirm, first, p);
    MeaningStep(confirm, first, h);
    if p == [] {
      LabelInjective(now, now);
    } else {
      LabelInjective(p[|p| - 1], now);
      assert p[|p| - 1] == h[|h| - 2];
      AdvanceStanding(confirm, told, p[|p| - 1].Label(), RunLength(p), now.Label());
    }
  }

  lemma MeaningFits(confirm: nat, first: bool, h: seq<Status>)
    requires 1 <= confirm <= U32_MAX && h != []
    requires Meaning(confirm, first, h).streak < confirm
    ensures Parse(Encode(Meaning(confirm, first, h))) == Meaning(confirm, first, h)
  {
    ToldIsSpoken(confirm, first, h);
    EntryRoundTrip(Meaning(confirm, first, h));
  }

  /** One tick on the stored text, after a text with the right meaning. */
  lemma StepRefines(confirm: nat, first: bool, h: seq<Status>, stored: Option<string>)
    requires 1 <= confirm <= U32_MAX && h != [] && !(first && |h| == 1)
    requires stored.None? <==> |h| == 1
    requires stored.Some? ==> Parse(stored.value) == Meaning(confirm, first, h[..|h| - 1])
    ensures var (text, line) := Step(confirm, false, stored, h[|h| - 1]);
            && Parse(text) == Meaning(confirm, first, h)
            && line == if Announces(confirm, first, h) then Some(Told(confirm, first, h[..|h| - 1])) else None
  {
    AdvanceRefines(confirm, first, h);
    MeaningFits(confirm, first, h);
  }

  /** The announcer refines the window specification: after any history, the stored text has its
      meaning, and a line is due exactly when the window says so, over what was told before. */
  lemma {:induction false} Refines(confirm: nat, first: bool, h: seq<Status>)
    requires 1 <= confirm <= U32_MAX && h != []
    ensures Parse(Stored(confirm, first, h)) == Meaning(confirm, first, h)
    ensures Line(confirm, first, h) ==
            if Announces(confirm, first, h) then Some(Told(confirm, first, h[..|h| - 1])) else None
    decreases |h|
  {
    if first && |h| == 1 {
      assert Meaning(confirm, first, h) == Entry(h[0].Label(), h[0].Label(), 0);
      MeaningFits(confirm, first, h);
    } else {
      var p := h[..|h| - 1];
      if p != [] {
        Refines(confirm, first, p);
      }
      StepRefines(confirm, first, h, if p == [] then None else Some(Stored(confirm, first, p)));
    }
  }

  // ---------------------------------------------------------------- corollaries

  ghost predicate LineAt(confirm: nat, first: bool, h: seq<Status>, j: nat)
    requires j < |h|
  {
    Announces(confirm, first, h[..j + 1])
  }

  lemma LineAtPrefix(confirm: nat, first: bool, h: seq<Status>, j: nat)
    requires j + 1 < |h|
    ensures LineAt(confirm, first, h[..|h| - 1], j) <==> LineAt(confirm, first, h, j)
  {
    assert h[..|h| - 1][..j + 1] == h[..j + 1];
  }

  /** What is told, and so the "before" of the next line, is the "after" of the last line. */
  lemma {:induction false} ToldIsLastLine(confirm: nat, first: bool, h: seq<Status>, k: nat)
    requires k < |h| && LineAt(confirm, first, h, k)
    requires forall j :: k < j < |h| ==> !LineAt(confirm, first, h, j)
    ensures Told(confirm, first, h) == h[k].Label()
    decreases |h|
  {
    assert h[..|h|] == h;
    if k < |h| - 1 {
      assert !LineAt(confirm, first, h, |h| - 1);
      var p := h[..|h| - 1];
      forall j: nat | k <= j < |p| ensures LineAt(confirm, first, p, j) <==> LineAt(confirm, first, h, j) {
        LineAtPrefix(confirm, first, h, j);
      }
      ToldIsLastLine(confirm, first, p, k);
    }
  }

  /** Before any line, it is the baseline: the first run's status, or "unknown" for a latecomer. */
  lemma {:induction false} ToldIsBaseline(confirm: nat, first: bool, h: seq<Status>)
    requires h != [] && forall j :: 0 <= j < |h| ==> !LineAt(confirm, first, h, j)
    ensures Told(confirm, first, h) == if first then h[0].Label() else "unknown"
    decreases |h|
  {
    assert h[..|h|] == h;
    assert !LineAt(confirm, first, h, |h| - 1);
    if |h| > 1 {
      var p := h[..|h| - 1];
      forall j: nat | j < |p| ensures !LineAt(confirm, first, p, j) {
        LineAtPrefix(confirm, first, h, j);
      }
      ToldIsBaseline(confirm, first, p);
    }
  }

  /** With two or more confirmations, a service that never shows the same status twice running is never
      announced; in particular one flapping between two bad statuses. */
  lemma FlappingIsSilent(confirm: nat, first: bool, h: seq<Status>)
    requires 2 <= confirm <= U32_MAX && h != []
    requires |h| >= 2 ==> h[|h| - 1] != h[|h| - 2]
    ensures Line(confirm, first, h) == None
  {
    Refines(confirm, first, h);
    RunLengthIsWindow(confirm, h);
  }

  // ---------------------------------------------------------------- all services, every tick

  type Name = string

  datatype Check = Check(name: Name, status: Status, detail: string)

  datatype Announcement = Announcement(name: Name, before: string, after: Status, detail: string)

  /** The reported services this machine knows; a repeated name keeps its last status. */
  function Current(known: set<Name>, checks: seq<Check>): map<Name, Status> {
    if checks == [] then map[]
    else
      var earlier, c := Current(known, checks[..|checks| - 1]), checks[|checks| - 1];
      if c.name in known then earlier[c.name := c.status] else earlier
  }

  /** `checks` report `n`, the last time as `st`. */
  ghost predicate Reports(checks: seq<Check>, n: Name, st: Status) {
    exists i :: 0 <= i < |checks| && checks[i].name == n && checks[i].status == st &&
      forall j :: i < j < |checks| ==> checks[j].name != n
  }

  lemma ReportsAppend(checks: seq<Check>, c: Check, n: Name, st: Status)
    requires if c.name == n then st == c.status else Reports(checks, n, st)
    ensures Reports(checks + [c], n, st)
  {
    var more := checks + [c];
    assert more[|checks|] == c && forall i :: 0 <= i < |checks| ==> more[i] == checks[i];
  }

  /** Exactly the known services that are reported, each with its last status. */
  lemma {:induction false} CurrentExactly(known: set<Name>, checks: seq<Check>, n: Name)
    ensures n in Current(known, checks) <==> n in known && exists i :: 0 <= i < |checks| && checks[i].name == n
    ensures n in Current(known, checks) ==> Reports(checks, n, Current(known, checks)[n])
  {
    if checks != [] {
      var p, c := checks[..|checks| - 1], checks[|checks| - 1];
      CurrentExactly(known, p, n);
      assert checks == p + [c];
      if n in Current(known, checks) {
        ReportsAppend(p, c, n, Current(known, checks)[n]);
      }
    }
  }

  lemma ReportsOnce(checks: seq<Check>, n: Name, a: Status, b: Status)
    requires Reports(checks, n, a) && Reports(checks, n, b)
    ensures a == b
  {
  }

  function Lookup(state: map<Name, string>, name: Name): Option<string> {
    if name in state then Some(state[name]) else None
  }

  function Tick(confirm: nat, state: map<Name, string>, now: map<Name, Status>): map<Name, string> {
    map n | n in now :: Step(confirm, state == map[], Lookup(state, n), now[n]).0
  }

  function Due(confirm: nat, state: map<Name, string>, now: map<Name, Status>, n: Name): Option<string>
    requires n in now
  {
    Step(confirm, state == map[], Lookup(state, n), now[n]).1
  }

  function After(confirm: nat, state: map<Name, string>, ticks: seq<map<Name, Status>>): map<Name, string> {
    if ticks == [] then state
    else Tick(confirm, After(confirm, state, ticks[..|ticks| - 1]), ticks[|ticks| - 1])
  }

  function HistoryOf(ticks: seq<map<Name, Status>>, n: Name): (h: seq<Status>)
    requires forall t :: 0 <= t < |ticks| ==> n in ticks[t]
    ensures |h| == |ticks| && forall t :: 0 <= t < |ticks| ==> h[t] == ticks[t][n]
  {
    seq(|ticks|, t requires 0 <= t < |ticks| => ticks[t][n])
  }

  /** One tick for one service, whose entry so far has the right text. */
  lemma TickAlone(confirm: nat, state: map<Name, string>, now: map<Name, Status>, n: Name, first: bool, h: seq<Status>)
    requires n in now && h != [] && h[|h| - 1] == now[n]
    requires if |h| == 1 then n !in state && first == (state == map[])
             else n in state && state[n] == Stored(confirm, first, h[..|h| - 1])
    ensures Due(confirm, state, now, n) == Line(confirm, first, h)
    ensures n in Tick(confirm, state, now) && Tick(confirm, state, now)[n] == Stored(confirm, first, h)
  {
  }

  /** What the file says of a service depends on the history of that service alone. */
  lemma {:induction false} StoredAlone(confirm: nat, state: map<Name, string>, ticks: seq<map<Name, Status>>, n: Name)
    requires ticks != [] && n !in state && forall t :: 0 <= t < |ticks| ==> n in ticks[t]
    ensures var first, h, p := state == map[], HistoryOf(ticks, n), After(confirm, state, ticks[..|ticks| - 1]);
            && Due(confirm, p, ticks[|ticks| - 1], n) == Line(confirm, first, h)
            && n in After(confirm, state, ticks) && After(confirm, state, ticks)[n] == Stored(confirm, first, h)
    decreases |ticks|
  {
    var h, front, now := HistoryOf(ticks, n), ticks[..|ticks| - 1], ticks[|ticks| - 1];
    if |ticks| > 1 {
      StoredAlone(confirm, state, front, n);
      assert HistoryOf(front, n) == h[..|h| - 1];
    } else {
      assert After(confirm, state, front) == state;
    }
    TickAlone(confirm, After(confirm, state, front), now, n, state == map[], h);
  }

  /** A service present at every tick is announced by the window specification alone, whatever the other
      services do; it starts from its own first status if the state file was empty, else from "unknown". */
  lemma ServiceRefines(confirm: nat, state: map<Name, string>, ticks: seq<map<Name, Status>>, n: Name)
    requires 1 <= confirm <= U32_MAX && ticks != [] && n !in state
    requires forall t :: 0 <= t < |ticks| ==> n in ticks[t]
    ensures var first, h, p := state == map[], HistoryOf(ticks, n), After(confirm, state, ticks[..|ticks| - 1]);
            && Due(confirm, p, ticks[|ticks| - 1], n) ==
               (if Announces(confirm, first, h) then Some(Told(confirm, first, h[..|h| - 1])) else None)
            && n in After(confirm, state, ticks) && After(confirm, state, ticks)[n] == Stored(confirm, first, h)
  {
    StoredAlone(confirm, state, ticks, n);
    Refines(confirm, state == map[], HistoryOf(ticks, n));
  }

  /** What the machine's services are at each tick. */
  function Seen(known: set<Name>, lists: seq<seq<Check>>): seq<map<Name, Status>> {
    seq(|lists|, t requires 0 <= t < |lists| => Current(known, lists[t]))
  }

  /** At tick `t` the service is `h[t]`. */
  ghost predicate Shows(ticks: seq<map<Name, Status>>, n: Name, h: seq<Status>) {
    |ticks| == |h| && forall t :: 0 <= t < |h| ==> n in ticks[t] && ticks[t][n] == h[t]
  }

  /** What the last tick says of it and leaves in the file, by the window specification. */
  ghost predicate Tells(confirm: nat, state: map<Name, string>, ticks: seq<map<Name, Status>>, n: Name, h: seq<Status>, checks: seq<Check>)
    requires |ticks| == |h| > 0
  {
    var first, p, now := state == map[], After(confirm, state, ticks[..|ticks| - 1]), ticks[|ticks| - 1];
    && n in now
    && LineOf(confirm, p, checks, now, n) ==
       (if Announces(confirm, first, h)
        then [Announcement(n, Told(confirm, first, h[..|h| - 1]), h[|h| - 1], DetailOf(checks, n))] else [])
    && n in After(confirm, state, ticks) && After(confirm, state, ticks)[n] == Stored(confirm, first, h)
  }

  lemma HistoryTells(confirm: nat, state: map<Name, string>, ticks: seq<map<Name, Status>>, n: Name, checks: seq<Check>)
    requires 1 <= confirm <= U32_MAX && ticks != [] && n !in state && forall t :: 0 <= t < |ticks| ==> n in ticks[t]
    ensures Tells(confirm, state, ticks, n, HistoryOf(ticks, n), checks)
  {
    ServiceRefines(confirm, state, ticks, n);
  }

  lemma ShownTells(confirm: nat, state: map<Name, string>, ticks: seq<map<Name, Status>>, n: Name, h: seq<Status>, checks: seq<Check>)
    requires 1 <= confirm <= U32_MAX && ticks != [] && n !in state && Shows(ticks, n, h)
    ensures Tells(confirm, state, ticks, n, h, checks)
  {
    assert HistoryOf(ticks, n) == h;
    HistoryTells(confirm, state, ticks, n, checks);
  }

  lemma SeenShows(known: set<Name>, lists: seq<seq<Check>>, n: Name, h: seq<Status>)
    requires n in known && |lists| == |h| && forall t :: 0 <= t < |h| ==> Reports(lists[t], n, h[t])
    ensures Shows(Seen(known, lists), n, h)
  {
    var ticks := Seen(known, lists);
    forall t | 0 <= t < |ticks| ensures n in ticks[t] && ticks[t][n] == h[t] {
      CurrentExactly(known, lists[t], n);
      ReportsOnce(lists[t], n, h[t], ticks[t][n]);
    }
  }

  /** A known service that is reported as `h[t]` at every tick `t`: the last tick has a line for it exactly
      when the window says so, over what was told before, with the detail of its first check. */
  lemma ReportedService(confirm: nat, known: set<Name>, state: map<Name, string>, lists: seq<seq<Check>>, n: Name, h: seq<Status>)
    requires 1 <= confirm <= U32_MAX && n in known && n !in state && |lists| == |h| > 0
    requires forall t :: 0 <= t < |h| ==> Reports(lists[t], n, h[t])
    ensures Tells(confirm, state, Seen(known, lists), n, h, lists[|lists| - 1])
  {
    SeenShows(known, lists, n, h);
    ShownTells(confirm, state, Seen(known, lists), n, h, lists[|lists| - 1]);
  }

  /** A service the machine does not know is never stored, and so never announced. */
  lemma StrangersAreSilent(confirm: nat, known: set<Name>, state: map<Name, string>, lists: seq<seq<Check>>, n: Name)
    requires n !in known && lists != []
    ensures n !in After(confirm, state, Seen(known, lists))
  {
    var ticks := Seen(known, lists);
    CurrentExactly(known, lists[|lists| - 1], n);
    assert n !in ticks[|ticks| - 1];
    AfterKeys(confirm, state, ticks);
  }

  lemma AfterKeys(confirm: nat, state: map<Name, string>, ticks: seq<map<Name, Status>>)
    requires ticks != []
    ensures After(confirm, state, ticks).Keys == ticks[|ticks| - 1].Keys
  {
  }

  // ---------------------------------------------------------------- the program

  /** Order of names by code point. */
  predicate Less(a: Name, b: Name) {
    b != [] && (a == [] || a[0] < b[0] || (a[0] == b[0] && Less(a[1..], b[1..])))
  }

  lemma {:induction false} LessTotal(a: Name, b: Name)
    ensures a == b || Less(a, b) || Less(b, a)
  {
    if a != [] && b != [] && a[0] == b[0] {
      LessTotal(a[1..], b[1..]);
      assert a == [a[0]] + a[1..] && b == [b[0]] + b[1..];
    }
  }

  lemma {:induction false} LessTransitive(a: Name, b: Name, c: Name)
    requires Less(a, b) && Less(b, c)
    ensures Less(a, c)
  {
    if a != [] && a[0] == b[0] && b[0] == c[0] {
      LessTransitive(a[1..], b[1..], c[1..]);
    }
  }

  ghost predicate Sorted(names: seq<Name>) {
    forall i, j :: 0 <= i < j < |names| ==> Less(names[i], names[j])
  }

  method Insert(names: seq<Name>, n: Name) returns (r: seq<Name>)
    requires Sorted(names) && n !in names
    ensures Sorted(r) && forall x :: x in r <==> x in names || x == n
  {
    var i := 0;
    while i < |names| && Less(names[i], n)
      invariant 0 <= i <= |names| && forall j :: 0 <= j < i ==> Less(names[j], n)
    {
      i := i + 1;
    }
    forall j | i <= j < |names| ensures Less(n, names[j]) {
      LessTotal(names[i], n);
      if j > i {
        LessTransitive(n, names[i], names[j]);
      }
    }
    r := names[..i] + [n] + names[i..];
    assert forall x :: x in names <==> x in names[..i] || x in names[i..];
  }

  method SortedNames(s: set<Name>) returns (r: seq<Name>)
    ensures Sorted(r) && forall n :: n in r <==> n in s
  {
    var left := s;
    r := [];
    while left != {}
      invariant Sorted(r) && left <= s && forall n :: n in r <==> n in s && n !in left
    {
      var n :| n in left;
      left := left - {n};
      r := Insert(r, n);
    }
  }

  /** The detail of the first check with this name. */
  function DetailOf(checks: seq<Check>, name: Name): string {
    if checks == [] then "" else if checks[0].name == name then checks[0].detail else DetailOf(checks[1..], name)
  }

  /** It is that of the first check with the name, whatever comes after; empty when there is none. */
  lemma {:induction false} DetailOfFirst(checks: seq<Check>, name: Name)
    ensures if exists i :: 0 <= i < |checks| && checks[i].name == name then
              exists i :: 0 <= i < |checks| && checks[i].name == name && DetailOf(checks, name) == checks[i].detail &&
                forall j :: 0 <= j < i ==> checks[j].name != name
            else DetailOf(checks, name) == ""
  {
    if checks != [] && checks[0].name != name {
      var rest := checks[1..];
      DetailOfFirst(rest, name);
      assert forall i :: 1 <= i < |checks| ==> checks[i] == rest[i - 1];
      if exists i :: 0 <= i < |rest| && rest[i].name == name {
        var i :| 0 <= i < |rest| && rest[i].name == name && DetailOf(rest, name) == rest[i].detail &&
          forall j :: 0 <= j < i ==> rest[j].name != name;
        assert checks[i + 1] == rest[i];
      }
    }
  }

  function LineOf(confirm: nat, state: map<Name, string>, checks: seq<Check>, now: map<Name, Status>, n: Name): seq<Announcement>
    requires n in now
  {
    match Due(confirm, state, now, n)
    case None => []
    case Some(before) => [Announcement(n, before, now[n], DetailOf(checks, n))]
  }

  function LinesOf(confirm: nat, state: map<Name, string>, checks: seq<Check>, now: map<Name, Status>, names: seq<Name>): seq<Announcement>
    requires forall n :: n in names ==> n in now
  {
    if names == [] then []
    else
      LinesOf(confirm, state, checks, now, names[..|names| - 1]) +
      LineOf(confirm, state, checks, now, names[|names| - 1])
  }

  function TickOf(confirm: nat, state: map<Name, string>, now: map<Name, Status>, names: seq<Name>): map<Name, string>
    requires forall n :: n in names ==> n in now
  {
    if names == [] then map[]
    else
      var n := names[|names| - 1];
      TickOf(confirm, state, now, names[..|names| - 1])[n := Step(confirm, state == map[], Lookup(state, n), now[n]).0]
  }

  lemma {:induction false} TickOfAll(confirm: nat, state: map<Name, string>, now: map<Name, Status>, names: seq<Name>)
    requires forall n :: n in names ==> n in now
    ensures var t := TickOf(confirm, state, now, names);
            && (forall n :: n in t <==> n in names)
            && (forall n :: n in names ==> t[n] == Tick(confirm, state, now)[n])
  {
    if names != [] {
      TickOfAll(confirm, state, now, names[..|names| - 1]);
      assert names == names[..|names| - 1] + [names[|names| - 1]];
    }
  }

  lemma {:induction false} LinesNamed(confirm: nat, state: map<Name, string>, checks: seq<Check>, now: map<Name, Status>, names: seq<Name>)
    requires forall n :: n in names ==> n in now
    ensures var lines := LinesOf(confirm, state, checks, now, names);
            && (forall a :: a in lines ==> a.name in names && LineOf(confirm, state, checks, now, a.name) == [a])
            && (forall n :: n in names && Due(confirm, state, now, n).Some? ==> LineOf(confirm, state, checks, now, n)[0] in lines)
  {
    if names != [] {
      var p, last := names[..|names| - 1], names[|names| - 1];
      LinesNamed(confirm, state, checks, now, p);
      assert names == p + [last];
    }
  }

  /** The lines are those due, one per service and no other, in name order. */
  lemma {:induction false} LinesExactly(confirm: nat, state: map<Name, string>, checks: seq<Check>, now: map<Name, Status>, names: seq<Name>)
    requires Sorted(names) && forall n :: n in names ==> n in now
    ensures var lines := LinesOf(confirm, state, checks, now, names);
            && (forall a :: a in lines ==> a.name in names && LineOf(confirm, state, checks, now, a.name) == [a])
            && (forall n :: n in names && Due(confirm, state, now, n).Some? ==> LineOf(confirm, state, checks, now, n)[0] in lines)
            && (forall i, j :: 0 <= i < j < |lines| ==> Less(lines[i].name, lines[j].name))
  {
    LinesNamed(confirm, state, checks, now, names);
    if names != [] {
      var p, last := names[..|names| - 1], names[|names| - 1];
      LinesExactly(confirm, state, checks, now, p);
      forall n | n in p ensures Less(n, last) {
        var i :| 0 <= i < |p| && p[i] == n;
        assert names[i] == n;
      }
    }
  }

  method Visit(confirm: nat, state: map<Name, string>, checks: seq<Check>, now: map<Name, Status>, names: seq<Name>)
    returns (lines: seq<Announcement>, next: map<Name, string>)
    requires forall n :: n in names ==> n in now
    ensures lines == LinesOf(confirm, state, checks, now, names)
    ensures next == TickOf(confirm, state, now, names)
  {
    lines, next := [], map[];
    for k := 0 to |names|
      invariant lines == LinesOf(confirm, state, checks, now, names[..k])
      invariant next == TickOf(confirm, state, now, names[..k])
    {
      var name := names[k];
      var (entry, before) := Step(confirm, state == map[], Lookup(state, name), now[name]);
      next := next[name := entry];
      if before.Some? {
        lines := lines + [Announcement(name, before.value, now[name], DetailOf(checks, name))];
      }
      assert names[..k + 1][..k] == names[..k];
    }
    assert names[..|names|] == names;
  }

  class Announcer {
    const confirm: nat
    const known: set<Name>
    var state: map<Name, string>   // the persisted file; empty when it is missing or unreadable

    constructor (confirm: nat, known: set<Name>)
      ensures this.confirm == confirm && this.known == known && state == map[]
    {
      this.confirm, this.known, state := confirm, known, map[];
    }

    /** Remembers the last verdict per service and returns only what changed. */
    method Transitions(checks: seq<Check>) returns (lines: seq<Announcement>, ghost names: seq<Name>)
      modifies this
      ensures state == Tick(confirm, old(state), Current(known, checks))
      ensures Sorted(names) && forall n :: n in names <==> n in Current(known, checks)
      ensures lines == LinesOf(confirm, old(state), checks, Current(known, checks), names)
      // exactly the known services that are reported
      ensures forall n :: n in names <==> n in known && exists i :: 0 <= i < |checks| && checks[i].name == n
      ensures state.Keys == Current(known, checks).Keys
    {
      var now := Current(known, checks);
      var sorted := SortedNames(now.Keys);
      names := sorted;
      forall n ensures n in now <==> n in known && exists i :: 0 <= i < |checks| && checks[i].name == n {
        CurrentExactly(known, checks, n);
      }
      var next;
      lines, next := Visit(confirm, state, checks, now, sorted);
      TickOfAll(confirm, state, now, names);
      state := next;
    }
  }
}
