/** The throttle on transfer progress events. Times are nanoseconds; the transfer key is the identifier, the
    direction and the name put together. */
module Progress {
  const INTERVAL := 100_000_000   // 100 milliseconds

  datatype Report = Report(
    id: string, direction: string, name: string, active: bool, transferred: int, total: int, at: int)

  datatype Last = Last(at: int, transferred: int)

  type State = map<string, Last>

  function Key(r: Report): string {
    r.id + "\0" + r.direction + "\0" + r.name
  }

  /** One percent of the total, rounded up; zero when the total is unknown. */
  function StepOf(total: int): (step: nat)
    ensures step > 0 <==> total > 0
    ensures total > 0 ==> total <= 100 * step
  {
    if total > 0 then Max(1, (total + 99) / 100) else 0
  }

  function Max(a: int, b: int): int {
    if a > b then a else b
  }

  predicate Emits(s: State, r: Report) {
    || !r.active
    || Key(r) !in s
    || r.at - s[Key(r)].at >= INTERVAL
    || (StepOf(r.total) > 0 && r.transferred - s[Key(r)].transferred >= StepOf(r.total))
  }

  function After(s: State, r: Report): State {
    if !Emits(s, r) then s
    else if !r.active then s - {Key(r)}
    else s[Key(r) := Last(r.at, r.transferred)]
  }

  class Throttle {
    var state: State

    constructor ()
      ensures state == map[]
    {
      state := map[];
    }

    /** ftEmit: whether the report goes out, and what is remembered. A terminal report always goes out and
        forgets its key; no other key is touched. */
    method FtEmit(r: Report) returns (emit: bool)
      modifies this
      ensures emit == Emits(old(state), r) && state == After(old(state), r)
      ensures !r.active ==> emit && Key(r) !in state
      ensures forall k :: k != Key(r) ==> (k in state <==> k in old(state))
      ensures forall k :: k != Key(r) && k in state ==> state[k] == old(state)[k]
    {
      var terminal := !r.active;
      var key := Key(r);
      var step := 0;
      if r.total > 0 {
        step := Max(1, (r.total + 99) / 100);
      }
      emit := terminal || key !in state;
      if !emit {
        var previous := state[key];
        emit := r.at - previous.at >= INTERVAL || (step > 0 && r.transferred - previous.transferred >= step);
      }
      if emit {
        if terminal {
          state := state - {key};
        } else {
          state := state[key := Last(r.at, r.transferred)];
        }
      }
    }
  }

  // ---------------------------------------------------------------------------------------------
  // Sequences of reports

  function StateAfter(s: State, reports: seq<Report>): State {
    if reports == [] then s else After(StateAfter(s, reports[..|reports| - 1]), reports[|reports| - 1])
  }

  /** How many active events of one key go out. */
  function ActiveEmitted(s: State, reports: seq<Report>, key: string): nat {
    if reports == [] then 0
    else
      var front, last := reports[..|reports| - 1], reports[|reports| - 1];
      ActiveEmitted(s, front, key) +
      if last.active && Key(last) == key && Emits(StateAfter(s, front), last) then 1 else 0
  }

  /** The reports of one transfer in flight: one total, progress that never goes back and never passes a known
      total, and a clock that never goes back, within `from` and `to`. */
  ghost predicate InFlight(reports: seq<Report>, key: string, total: int, from: int, to: int) {
    && (forall i :: 0 <= i < |reports| && Key(reports[i]) == key ==>
          && reports[i].active && reports[i].total == total && from <= reports[i].at <= to
          && 0 <= reports[i].transferred && (total > 0 ==> reports[i].transferred <= total))
    && (forall i, j :: 0 <= i < j < |reports| && Key(reports[i]) == key && Key(reports[j]) == key ==>
          reports[i].at <= reports[j].at && reports[i].transferred <= reports[j].transferred)
  }

  /** What is remembered comes from some earlier report of the key. */
  ghost predicate Remembers(s: State, reports: seq<Report>, key: string) {
    key in s ==>
      exists i :: 0 <= i < |reports| && Key(reports[i]) == key && s[key] == Last(reports[i].at, reports[i].transferred)
  }

  lemma {:induction false} RemembersAReport(s: State, reports: seq<Report>, key: string)
    requires key !in s
    ensures Remembers(StateAfter(s, reports), reports, key)
  {
    if reports == [] {
    } else {
      var front, last := reports[..|reports| - 1], reports[|reports| - 1];
      RemembersAReport(s, front, key);
      var before := StateAfter(s, front);
      if Key(last) == key && Emits(before, last) {
        assert reports[|reports| - 1] == last;
      } else if key in before {
        var i :| 0 <= i < |front| && Key(front[i]) == key && before[key] == Last(front[i].at, front[i].transferred);
        assert reports[i] == front[i];
      }
    }
  }

  /** The account of one transfer: `count` events out, the last of them at `last`. */
  ghost predicate Paid(count: nat, last: Last, total: int, from: int, intervals: nat, steps: nat) {
    && count <= 1 + intervals + steps
    && intervals * INTERVAL <= last.at - from
    && 0 <= last.transferred
    && steps * StepOf(total) <= last.transferred
    && (total <= 0 ==> steps == 0)
  }

  /** One more event is paid for by a full interval of time or a full step of progress since the last one. */
  lemma PayOne(count: nat, last: Last, next: Last, total: int, from: int, intervals: nat, steps: nat)
    returns (intervals': nat, steps': nat)
    requires Paid(count, last, total, from, intervals, steps)
    requires last.at <= next.at && last.transferred <= next.transferred
    requires || next.at - last.at >= INTERVAL
             || (StepOf(total) > 0 && next.transferred - last.transferred >= StepOf(total))
    ensures Paid(count + 1, next, total, from, intervals', steps')
  {
    if next.at - last.at >= INTERVAL {
      intervals', steps' := intervals + 1, steps;
    } else {
      intervals', steps' := intervals, steps + 1;
      assert steps' * StepOf(total) == steps * StepOf(total) + StepOf(total);
    }
  }

  ghost predicate Account(s: State, reports: seq<Report>, key: string, total: int, from: int,
                          intervals: nat, steps: nat)
  {
    var after := StateAfter(s, reports);
    if key in after then Paid(ActiveEmitted(s, reports, key), after[key], total, from, intervals, steps)
    else ActiveEmitted(s, reports, key) == 0
  }

  lemma FirstEvent(last: Last, total: int, from: int)
    requires from <= last.at && 0 <= last.transferred
    ensures Paid(1, last, total, from, 0, 0)
  {
  }

  lemma InFlightFront(reports: seq<Report>, key: string, total: int, from: int, to: int)
    requires reports != [] && InFlight(reports, key, total, from, to)
    ensures InFlight(reports[..|reports| - 1], key, total, from, to)
  {
  }

  /** What is remembered is not ahead of the next report. */
  lemma RememberedIsEarlier(s: State, reports: seq<Report>, key: string, total: int, from: int, to: int)
    requires key !in s && reports != [] && InFlight(reports, key, total, from, to) && Key(reports[|reports| - 1]) == key
    ensures var before, last := StateAfter(s, reports[..|reports| - 1]), reports[|reports| - 1];
            key in before ==> before[key].at <= last.at && before[key].transferred <= last.transferred
  {
    var front := reports[..|reports| - 1];
    var before := StateAfter(s, front);
    RemembersAReport(s, front, key);
    if key in before {
      var i :| 0 <= i < |front| && Key(front[i]) == key && before[key] == Last(front[i].at, front[i].transferred);
      assert reports[i] == front[i];
    }
  }

  /** After the first event, each further one is paid for. */
  lemma {:induction false} EveryEventIsPaidFor(
      s: State, reports: seq<Report>, key: string, total: int, from: int, to: int)
    returns (intervals: nat, steps: nat)
    requires key !in s && InFlight(reports, key, total, from, to)
    ensures Account(s, reports, key, total, from, intervals, steps)
  {
    intervals, steps := 0, 0;
    if reports == [] {
    } else {
      var front, last := reports[..|reports| - 1], reports[|reports| - 1];
      InFlightFront(reports, key, total, from, to);
      intervals, steps := EveryEventIsPaidFor(s, front, key, total, from, to);
      var before := StateAfter(s, front);
      if Key(last) == key && Emits(before, last) {
        var now := Last(last.at, last.transferred);
        if key in before {
          RememberedIsEarlier(s, reports, key, total, from, to);
          intervals, steps := PayOne(ActiveEmitted(s, front, key), before[key], now, total, from, intervals, steps);
        } else {
          FirstEvent(now, total, from);
          intervals, steps := 0, 0;
        }
      }
    }
  }

  lemma StepsFitTotal(steps: nat, total: int)
    requires total > 0 && steps * StepOf(total) <= total
    ensures steps <= 100
  {
    assert (steps - 100) * StepOf(total) <= 0;
  }

  /** At most 101 events and one per tenth of a second for a transfer of known size; without a known size, one
      and one per tenth of a second. */
  lemma ActiveEventsAreBounded(s: State, reports: seq<Report>, key: string, total: int, from: int, to: int)
    requires key !in s && InFlight(reports, key, total, from, to) && from <= to
    ensures ActiveEmitted(s, reports, key) <= (if total > 0 then 101 else 1) + (to - from) / INTERVAL
  {
    var intervals, steps := EveryEventIsPaidFor(s, reports, key, total, from, to);
    var after := StateAfter(s, reports);
    if key in after {
      RemembersAReport(s, reports, key);
      var i :| && 0 <= i < |reports| && Key(reports[i]) == key
               && after[key] == Last(reports[i].at, reports[i].transferred);
      if total > 0 {
        StepsFitTotal(steps, total);
      }
      assert intervals <= (to - from) / INTERVAL;
    }
  }

  /** Whatever came before, a terminal event starts the count afresh. */
  lemma BetweenTerminals(
      s: State, before: seq<Report>, terminal: Report, reports: seq<Report>, total: int, from: int, to: int)
    requires !terminal.active && InFlight(reports, Key(terminal), total, from, to) && from <= to
    ensures var start := StateAfter(s, before + [terminal]);
            ActiveEmitted(start, reports, Key(terminal)) <= (if total > 0 then 101 else 1) + (to - from) / INTERVAL
  {
    assert (before + [terminal])[..|before|] == before;
    ActiveEventsAreBounded(StateAfter(s, before + [terminal]), reports, Key(terminal), total, from, to);
  }

  // ---------------------------------------------------------------------------------------------
  // What is never held back

  /** The report at position `i` goes out. */
  predicate GoesOut(s: State, reports: seq<Report>, i: nat)
    requires i < |reports|
  {
    Emits(StateAfter(s, reports[..i]), reports[i])
  }

  /** What is remembered for a key is its latest active report that went out, with no terminal report since. */
  ghost predicate RemembersOut(s: State, reports: seq<Report>, key: string, i: nat)
    requires i < |reports|
  {
    && Key(reports[i]) == key && reports[i].active && GoesOut(s, reports, i)
    && StateAfter(s, reports)[key := Last(reports[i].at, reports[i].transferred)] == StateAfter(s, reports)
  }

  lemma {:induction false} RememberedWentOut(s: State, reports: seq<Report>, key: string) returns (i: nat)
    requires key !in s && key in StateAfter(s, reports)
    ensures i < |reports| && RemembersOut(s, reports, key, i)
  {
    var front, last := reports[..|reports| - 1], reports[|reports| - 1];
    if Key(last) == key && Emits(StateAfter(s, front), last) {
      i := |front|;
    } else {
      i := RememberedWentOut(s, front, key);
      assert front[..i] == reports[..i];
    }
  }

  /** Less than a tenth of a second later, and less than one percent further. */
  predicate CloseBehind(early: Report, late: Report) {
    && late.at - early.at < INTERVAL
    && (late.total > 0 ==> 100 * (late.transferred - early.transferred) < late.total + 99)
  }

  /** The frontend is never far behind: a report is held back only when it is active and one for the same transfer,
      less than a tenth of a second and one percent earlier, went out. In particular every terminal report and the
      first report of a transfer go out. */
  lemma HeldBackOnlyCloseBehind(s: State, reports: seq<Report>) returns (i: nat)
    requires reports != [] && Key(reports[|reports| - 1]) !in s && !GoesOut(s, reports, |reports| - 1)
    ensures var last := reports[|reports| - 1];
            && last.active && i < |reports| - 1 && Key(reports[i]) == Key(last) && reports[i].active
            && GoesOut(s, reports, i) && CloseBehind(reports[i], last)
  {
    var front, last := reports[..|reports| - 1], reports[|reports| - 1];
    i := RememberedWentOut(s, front, Key(last));
    assert front[..i] == reports[..i];
    var remembered := StateAfter(s, front)[Key(last)];
    assert remembered == Last(front[i].at, front[i].transferred);
  }

  // Keys

  ghost predicate NoNul(s: string) {
    forall i :: 0 <= i < |s| ==> s[i] != '\0'
  }

  /** Two strings without a NUL, each followed by one, differ before or at the end of the shorter. */
  lemma NulSplits(a: string, b: string, a': string, b': string)
    requires NoNul(a) && NoNul(b) && a + "\0" + a' == b + "\0" + b'
    ensures a == b && a' == b'
  {
    var x, y := a + "\0" + a', b + "\0" + b';
    assert x[|a|] == '\0' && y[|b|] == '\0';
    assert x[..|a|] == a && y[..|b|] == b;
    assert x[|a| + 1..] == a' && y[|b| + 1..] == b';
  }

  /** Transfers whose identifier and direction hold no NUL share a key exactly when identifier, direction and name
      agree. */
  lemma KeyIsTheTransfer(a: Report, b: Report)
    requires NoNul(a.id) && NoNul(b.id) && NoNul(a.direction) && NoNul(b.direction)
    ensures Key(a) == Key(b) <==> a.id == b.id && a.direction == b.direction && a.name == b.name
  {
    if Key(a) == Key(b) {
      assert Key(a) == a.id + "\0" + (a.direction + "\0" + a.name);
      assert Key(b) == b.id + "\0" + (b.direction + "\0" + b.name);
      NulSplits(a.id, b.id, a.direction + "\0" + a.name, b.direction + "\0" + b.name);
      NulSplits(a.direction, b.direction, a.name, b.name);
    }
  }
}
