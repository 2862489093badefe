/** The caregiver alert view (src/components/CaregiverAlertSystem.tsx): the
    filter over the alert list, the three counters above it and the two
    filter controls. The view only reads the alerts; its own state -- the
    selected priority and whether resolved alerts are shown -- is replaced
    wholesale by each control. */
module AlertView {
  import opened Base
  import opened Api

  /** Whether the filter keeps `a`: a resolved alert only when resolved
      alerts are shown, and only alerts of the selected severity when one
      is selected. */
  predicate Shown(a: Alert, selected: Option<Severity>, showResolved: bool) {
    && !(!showResolved && a.resolved)
    && !(selected.Some? && a.severity != selected.value)
  }

  /** `filteredAlerts`: the alerts the filter keeps, in list order. */
  function FilteredAlerts(alerts: seq<Alert>, selected: Option<Severity>, showResolved: bool): (r: seq<Alert>)
    ensures |r| <= |alerts|
    ensures forall a :: a in r <==> a in alerts && Shown(a, selected, showResolved)
    ensures forall a :: multiset(r)[a] == if Shown(a, selected, showResolved) then multiset(alerts)[a] else 0
  {
    if alerts == [] then []
    else
      var rest := FilteredAlerts(alerts[1..], selected, showResolved);
      assert alerts == [alerts[0]] + alerts[1..];
      if Shown(alerts[0], selected, showResolved) then [alerts[0]] + rest else rest
  }

  /** `xs` is `ys` with some elements left out, the rest in their order. */
  predicate Subsequence(xs: seq<Alert>, ys: seq<Alert>)
    decreases |ys|
  {
    if xs == [] then true
    else if ys == [] then false
    else if xs[0] == ys[0] then Subsequence(xs[1..], ys[1..])
    else Subsequence(xs, ys[1..])
  }

  /** The filter keeps the alerts in their order: its result is a
      subsequence of the list. */
  lemma {:induction false} FilteredIsSubsequence(alerts: seq<Alert>, selected: Option<Severity>, showResolved: bool)
    ensures Subsequence(FilteredAlerts(alerts, selected, showResolved), alerts)
  {
    if alerts != [] {
      FilteredIsSubsequence(alerts[1..], selected, showResolved);
      var rest := FilteredAlerts(alerts[1..], selected, showResolved);
      if !Shown(alerts[0], selected, showResolved) {
        SubsequenceOfTail(rest, alerts);
      }
    }
  }

  /** A subsequence of the tail is a subsequence of the whole list. */
  lemma {:induction false} SubsequenceOfTail(xs: seq<Alert>, ys: seq<Alert>)
    requires ys != [] && Subsequence(xs, ys[1..])
    ensures Subsequence(xs, ys)
    decreases |ys|, 0
  {
    if xs != [] && xs[0] == ys[0] {
      // Subsequence(xs, ys[1..]) with xs[0] found further on, so xs[1..] is
      // a subsequence of the tail too
      SubsequenceDropHead(xs, ys[1..]);
    }
  }

  /** Dropping the head of a subsequence keeps it a subsequence. */
  lemma {:induction false} SubsequenceDropHead(xs: seq<Alert>, ys: seq<Alert>)
    requires xs != [] && Subsequence(xs, ys)
    ensures Subsequence(xs[1..], ys)
    decreases |ys|, 1
  {
    if xs[0] == ys[0] {
      if xs[1..] != [] {
        SubsequenceOfTail(xs[1..], ys);
      }
    } else {
      SubsequenceDropHead(xs, ys[1..]);
      if xs[1..] != [] {
        SubsequenceOfTail(xs[1..], ys);
      }
    }
  }

  /** With resolved alerts hidden none is shown, and with a priority
      selected every alert shown has exactly that severity. */
  lemma FilterHonoursControls(alerts: seq<Alert>, selected: Option<Severity>, showResolved: bool)
    ensures var r := FilteredAlerts(alerts, selected, showResolved);
            && (!showResolved ==> forall i | 0 <= i < |r| :: !r[i].resolved)
            && (selected.Some? ==> forall i | 0 <= i < |r| :: r[i].severity == selected.value)
  {
    var r := FilteredAlerts(alerts, selected, showResolved);
    assert forall i | 0 <= i < |r| :: r[i] in r;
  }

  /** With no priority selected and resolved alerts shown, the filter keeps
      the whole list. */
  lemma {:induction false} FilterWithoutControlsKeepsAll(alerts: seq<Alert>)
    ensures FilteredAlerts(alerts, None, true) == alerts
  {
    if alerts != [] {
      FilterWithoutControlsKeepsAll(alerts[1..]);
    }
  }

  /** The three counters above the list. */
  datatype Counter = UrgentCounter | MediumCounter | ResolvedCounter

  /** What each counter counts: unresolved urgent or high alerts; unresolved
      medium alerts; resolved alerts. */
  predicate Counts(c: Counter, a: Alert) {
    match c
    case UrgentCounter => (a.severity == Urgent || a.severity == High) && !a.resolved
    case MediumCounter => a.severity == Medium && !a.resolved
    case ResolvedCounter => a.resolved
  }

  /** `alerts.filter(...).length` for a counter. */
  function Count(alerts: seq<Alert>, c: Counter): (n: nat)
    ensures n <= |alerts|
    ensures n == 0 <==> forall i | 0 <= i < |alerts| :: !Counts(c, alerts[i])
  {
    if alerts == [] then 0
    else
      var rest := Count(alerts[1..], c);
      assert forall i | 1 <= i < |alerts| :: alerts[i] == alerts[1..][i - 1];
      (if Counts(c, alerts[0]) then 1 else 0) + rest
  }

  /** Counting distributes over concatenation, and a single alert adds one
      exactly when it counts: together these fix `Count` as the number of
      counted alerts, duplicates included. */
  lemma {:induction false} CountAppend(xs: seq<Alert>, ys: seq<Alert>, c: Counter)
    ensures Count(xs + ys, c) == Count(xs, c) + Count(ys, c)
    ensures forall a :: Count([a], c) == if Counts(c, a) then 1 else 0
  {
    if xs != [] {
      assert (xs + ys)[1..] == xs[1..] + ys;
      CountAppend(xs[1..], ys, c);
    } else {
      assert xs + ys == ys;
    }
    forall a ensures Count([a], c) == if Counts(c, a) then 1 else 0 {
      assert [a][1..] == [];
    }
  }

  /** No alert is counted by two counters. */
  lemma CountersExclusive(a: Alert)
    ensures !(Counts(UrgentCounter, a) && Counts(MediumCounter, a))
    ensures !(Counts(UrgentCounter, a) && Counts(ResolvedCounter, a))
    ensures !(Counts(MediumCounter, a) && Counts(ResolvedCounter, a))
  {
  }

  /** Since the counters are disjoint, together they never exceed the number
      of alerts. */
  lemma {:induction false} CountersBounded(alerts: seq<Alert>)
    ensures Count(alerts, UrgentCounter) + Count(alerts, MediumCounter) + Count(alerts, ResolvedCounter) <= |alerts|
  {
    if alerts != [] {
      CountersBounded(alerts[1..]);
      CountersExclusive(alerts[0]);
    }
  }

  /** A priority button: clicking the selected priority clears the
      selection, clicking any other selects it. */
  function SelectPriority(selected: Option<Severity>, clicked: Severity): (r: Option<Severity>)
    ensures r.None? <==> selected == Some(clicked)
    ensures r.Some? ==> r.value == clicked
  {
    if selected == Some(clicked) then None else Some(clicked)
  }

  /** Clicking the same priority twice from no selection comes back to no
      selection; clicking two different priorities leaves the second one
      selected. */
  lemma SelectPriorityTwice(selected: Option<Severity>, p: Severity, q: Severity)
    ensures SelectPriority(SelectPriority(None, p), p) == None
    ensures p != q ==> SelectPriority(SelectPriority(selected, p), q) == Some(q)
  {
  }

  /** The show-resolved button flips its flag. */
  function ToggleShowResolved(showResolved: bool): (r: bool)
    ensures r != showResolved
  {
    !showResolved
  }
}
