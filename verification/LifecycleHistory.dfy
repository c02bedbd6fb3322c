/**
 * LifecycleHistoryDerivation: the diff of two snapshots into history entries, and the forward-transition check.
 * Derive and RequireForwardTransition are the loops of the source; Derived and Forward are what they compute.
 */
module LifecycleHistory {
  import opened Spi
  import opened Ordering

  // ----- forward transitions ---------------------------------------------------------------------------------

  /** The step's completion in previous is still recorded, unchanged, in incoming. */
  predicate KeepsCompletion(previous: SagaInstance, incoming: SagaInstance, step: StepName) {
    previous.HasCompleted(step) ==>
      incoming.HasCompleted(step) && incoming.steps[step].touched == previous.steps[step].touched
  }

  predicate KeepsTerminalStatus(previous: SagaInstance, incoming: SagaInstance) {
    Terminal(previous.status) ==> incoming.status == previous.status
  }

  predicate Forward(previous: SagaInstance, incoming: SagaInstance) {
    && (forall n <- previous.steps :: KeepsCompletion(previous, incoming, n))
    && KeepsTerminalStatus(previous, incoming)
  }

  datatype Violation = LostCompletion(step: StepName) | LeftTerminalStatus

  /** Names the first violated rule: the least step name whose completion is lost, else the status. */
  method RequireForwardTransition(previous: SagaInstance, incoming: SagaInstance) returns (violation: Option<Violation>)
    ensures violation.None? <==> Forward(previous, incoming)
    ensures violation.Some? && violation.value.LostCompletion? ==>
              && violation.value.step in previous.steps
              && !KeepsCompletion(previous, incoming, violation.value.step)
              && forall n <- previous.steps :: Less(n, violation.value.step) ==> KeepsCompletion(previous, incoming, n)
    ensures violation == Some(LeftTerminalStatus) ==>
              && !KeepsTerminalStatus(previous, incoming)
              && forall n <- previous.steps :: KeepsCompletion(previous, incoming, n)
  {
    hide Sorted, KeepsCompletion;
    var names := SortedKeys(previous.steps.Keys);
    SortedEnumerates(previous.steps.Keys);
    for i := 0 to |names|
      invariant forall j :: 0 <= j < i ==> KeepsCompletion(previous, incoming, names[j])
    {
      if !KeepsCompletion(previous, incoming, names[i]) {
        forall n | n in previous.steps && Less(n, names[i]) ensures KeepsCompletion(previous, incoming, n) {
          assert n in names;
          var j :| 0 <= j < |names| && names[j] == n;
          LessTotal(n, names[i]);
          assert j < i;
        }
        return Some(LostCompletion(names[i]));
      }
    }
    assert forall n <- previous.steps :: n in names;
    if Terminal(previous.status) && incoming.status != previous.status {
      return Some(LeftTerminalStatus);
    }
    return None;
  }

  /** new TreeMap<>(m): whatever order the map's keys come in, they come out ascending. */
  method SortedKeys(keys: set<StepName>) returns (names: seq<StepName>)
    ensures names == Sorted(keys)
  {
    names := [];
    var todo := keys;
    while todo != {}
      invariant todo <= keys && Enumerates(names, keys - todo)
    {
      var n :| n in todo;
      InsertSorted(names, n);
      names := Insert(names, n);
      todo := todo - {n};
    }
    SortedUnique(names, keys);
  }

  lemma ForwardTransitive(a: SagaInstance, b: SagaInstance, c: SagaInstance)
    requires Forward(a, b) && Forward(b, c)
    ensures Forward(a, c)
  {
    forall n | n in a.steps ensures KeepsCompletion(a, c, n) {
      assert KeepsCompletion(a, b, n);
      if a.HasCompleted(n) {
        assert KeepsCompletion(b, c, n);
      }
    }
  }

  // ----- derivation ------------------------------------------------------------------------------------------

  function NewlyCompleted(previous: SagaInstance, incoming: SagaInstance): set<StepName> {
    set n | n in incoming.steps && incoming.HasCompleted(n) && !previous.HasCompleted(n)
  }

  function CreatedEntry(incoming: SagaInstance, number: int): LifecycleEntry {
    LifecycleEntry(incoming.sagaId, number, EntryKind.Created, None, [], None, None, incoming.createdAt)
  }

  function StepEntry(incoming: SagaInstance, step: StepName, number: int): LifecycleEntry
    requires step in incoming.steps
  {
    LifecycleEntry(incoming.sagaId, number, EntryKind.StepCompleted, Some(step), incoming.steps[step].touched,
                   None, None, incoming.lastModifiedAt)
  }

  function StepEntries(incoming: SagaInstance, names: seq<StepName>, number: int): (entries: seq<LifecycleEntry>)
    requires forall i :: 0 <= i < |names| ==> names[i] in incoming.steps
    ensures |entries| == |names|
    ensures forall i :: 0 <= i < |names| ==> entries[i] == StepEntry(incoming, names[i], number + i)
  {
    if names == [] then [] else [StepEntry(incoming, names[0], number)] + StepEntries(incoming, names[1..], number + 1)
  }

  function TerminalEntry(incoming: SagaInstance, number: int): LifecycleEntry
    requires Terminal(incoming.status)
  {
    if incoming.status == SagaStatus.Completed then
      LifecycleEntry(incoming.sagaId, number, EntryKind.Completed, None, [], incoming.outcome, None,
                     incoming.lastModifiedAt)
    else
      LifecycleEntry(incoming.sagaId, number, EntryKind.Failed, None, [], None, incoming.failure,
                     incoming.lastModifiedAt)
  }

  predicate BecameTerminal(previous: Option<SagaInstance>, incoming: SagaInstance) {
    Terminal(incoming.status) && (previous.Some? ==> previous.value.status != incoming.status)
  }

  /** The entries of one save: CREATED or the steps completed since, by name; then the terminal entry, if any. */
  ghost function Derived(previous: Option<SagaInstance>, incoming: SagaInstance, next: int): seq<LifecycleEntry> {
    var head := LeadingEntries(previous, incoming, next);
    head + TerminalEntries(previous, incoming, next + |head|)
  }

  ghost function LeadingEntries(previous: Option<SagaInstance>, incoming: SagaInstance,
                                next: int): seq<LifecycleEntry> {
    if previous.None? then [CreatedEntry(incoming, next)]
    else
      var steps := NewlyCompleted(previous.value, incoming);
      SortedEnumerates(steps);
      assert forall i :: 0 <= i < |Sorted(steps)| ==> Sorted(steps)[i] in Sorted(steps);
      StepEntries(incoming, Sorted(steps), next)
  }

  function TerminalEntries(previous: Option<SagaInstance>, incoming: SagaInstance, next: int): seq<LifecycleEntry> {
    if BecameTerminal(previous, incoming) then [TerminalEntry(incoming, next)] else []
  }

  /** Saving a snapshot once more is accepted and adds nothing to the history. */
  lemma SavedOnceMore(a: SagaInstance, next: int)
    ensures Forward(a, a) && Derived(Some(a), a, next) == []
  {
    assert NewlyCompleted(a, a) == {};
    SortedEnumerates({});
  }

  /**
   * Every derived entry is one the SagaLifecycleEntry constructor accepts; they are numbered consecutively from next,
   * and the step completions among them are strictly ascending by step name.
   */
  lemma DerivedWellFormed(previous: Option<SagaInstance>, incoming: SagaInstance, next: int)
    ensures var d := Derived(previous, incoming, next);
            && (forall i :: 0 <= i < |d| ==> d[i].sequenceNumber == next + i && d[i].sagaId == incoming.sagaId)
            && (incoming.Valid() && next >= 0 ==> forall i :: 0 <= i < |d| ==> d[i].Valid())
            && (forall i, j :: 0 <= i < j < |d| && IsStepEntry(d[i]) && IsStepEntry(d[j]) ==>
                  Less(d[i].stepName.value, d[j].stepName.value))
  {
    hide NewlyCompleted, StrictlySorted, Sorted;
    if previous.Some? {
      var steps := NewlyCompleted(previous.value, incoming);
      SortedEnumerates(steps);
      var names, d := Sorted(steps), Derived(previous, incoming, next);
      forall i, j | 0 <= i < j < |d| && IsStepEntry(d[i]) && IsStepEntry(d[j])
        ensures Less(d[i].stepName.value, d[j].stepName.value)
      {
        SortedPair(names, i, j);
      }
    }
  }

  lemma SortedPair(names: seq<StepName>, i: nat, j: nat)
    requires StrictlySorted(names) && i < j < |names|
    ensures Less(names[i], names[j])
  {
  }

  method Derive(previous: Option<SagaInstance>, incoming: SagaInstance, next: int)
    returns (entries: seq<LifecycleEntry>)
    ensures entries == Derived(previous, incoming, next)
  {
    hide NewlyCompleted, StepEntry, Sorted;
    entries := [];
    var sequence := next;
    if previous.None? {
      entries := [CreatedEntry(incoming, sequence)];
      sequence := sequence + 1;
    } else {
      var names := NewlyCompletedSteps(previous.value, incoming);
      ghost var leading := LeadingEntries(previous, incoming, next);
      for i := 0 to |names|
        invariant sequence == next + i && entries == leading[..i]
      {
        entries := entries + [StepEntry(incoming, names[i], sequence)];
        sequence := sequence + 1;
      }
    }
    assert entries == LeadingEntries(previous, incoming, next);
    if previous.None? || incoming.status != previous.value.status {
      if incoming.status == SagaStatus.Completed {
        entries := entries + [LifecycleEntry(incoming.sagaId, sequence, EntryKind.Completed, None, [], incoming.outcome,
                                             None, incoming.lastModifiedAt)];
      } else if incoming.status == SagaStatus.Failed {
        entries := entries + [LifecycleEntry(incoming.sagaId, sequence, EntryKind.Failed, None, [], None,
                                             incoming.failure, incoming.lastModifiedAt)];
      }
    }
  }

  method NewlyCompletedSteps(previous: SagaInstance, incoming: SagaInstance) returns (names: seq<StepName>)
    ensures names == Sorted(NewlyCompleted(previous, incoming))
    ensures forall i :: 0 <= i < |names| ==> names[i] in incoming.steps
  {
    names := [];
    var todo := incoming.steps.Keys;
    while todo != {}
      invariant todo <= incoming.steps.Keys
      invariant Enumerates(names, NewlyCompleted(previous, incoming) - todo)
    {
      var n :| n in todo;
      var wasCompleted := n in previous.steps && previous.steps[n].Done();
      if incoming.steps[n].Done() && !wasCompleted {
        InsertSorted(names, n);
        names := Insert(names, n);
      }
      todo := todo - {n};
    }
    SortedUnique(names, NewlyCompleted(previous, incoming));
    assert forall i :: 0 <= i < |names| ==> names[i] in names;
  }

  // ----- the history of a chain of committed snapshots ------------------------------------------------------

  /** Derived, concatenated along the chain, numbered consecutively from base. */
  ghost function HistoryOf(chain: seq<SagaInstance>, base: int): seq<LifecycleEntry> {
    if chain == [] then []
    else
      var n := |chain| - 1;
      var before := HistoryOf(chain[..n], base);
      before + Derived(if n == 0 then None else Some(chain[n - 1]), chain[n], base + |before|)
  }

  ghost predicate ForwardChain(chain: seq<SagaInstance>) {
    forall i :: 0 < i < |chain| ==> Forward(chain[i - 1], chain[i])
  }

  /** No lost update: every snapshot of a chain is a forward transition of every earlier one, not just the last. */
  lemma {:induction false} ForwardFromEveryEarlier(chain: seq<SagaInstance>, i: nat, j: nat)
    requires ForwardChain(chain) && i <= j < |chain|
    ensures Forward(chain[i], chain[j])
    decreases j - i
  {
    if i < j {
      ForwardFromEveryEarlier(chain, i, j - 1);
      ForwardTransitive(chain[i], chain[j - 1], chain[j]);
    }
  }

  function CompletedSteps(instance: SagaInstance): set<StepName> {
    set n | n in instance.steps && instance.HasCompleted(n)
  }

  predicate IsStepEntry(e: LifecycleEntry) {
    e.kind == EntryKind.StepCompleted && e.stepName.Some?
  }

  /** The steps whose completion h records. */
  function Recorded(h: seq<LifecycleEntry>): set<StepName> {
    set e | e in h && IsStepEntry(e) :: e.stepName.value
  }

  predicate IsTerminalEntry(e: LifecycleEntry) {
    e.kind == EntryKind.Completed || e.kind == EntryKind.Failed
  }

  /** The saga is created once, by the first entry. */
  predicate CreatedOnce(h: seq<LifecycleEntry>) {
    && h != [] && h[0].kind == EntryKind.Created
    && forall i :: 0 < i < |h| ==> h[i].kind != EntryKind.Created
  }

  predicate StepsDistinct(h: seq<LifecycleEntry>) {
    forall i, j :: 0 <= i < j < |h| && IsStepEntry(h[i]) && IsStepEntry(h[j]) ==> h[i].stepName != h[j].stepName
  }

  predicate StepEntriesMatch(h: seq<LifecycleEntry>, current: SagaInstance) {
    forall i :: 0 <= i < |h| && IsStepEntry(h[i]) ==>
      && current.HasCompleted(h[i].stepName.value)
      && h[i].touched == current.steps[h[i].stepName.value].touched
  }

  /**
   * Each completion since the first save is recorded once, with the touched aggregates it still has; the steps
   * completed when first stored and the recorded ones are exactly the steps completed now.
   */
  predicate StepsFaithful(h: seq<LifecycleEntry>, first: SagaInstance, current: SagaInstance) {
    && StepsDistinct(h)
    && StepEntriesMatch(h, current)
    && CompletedSteps(first) !! Recorded(h)
    && CompletedSteps(current) == CompletedSteps(first) + Recorded(h)
    && forall n <- first.steps :: KeepsCompletion(first, current, n)
  }

  predicate TerminalEntriesMatch(h: seq<LifecycleEntry>, status: SagaStatus) {
    forall i :: 0 <= i < |h| ==>
      && (h[i].kind == EntryKind.Completed ==> status == SagaStatus.Completed)
      && (h[i].kind == EntryKind.Failed ==> status == SagaStatus.Failed)
  }

  predicate HasTerminalEntry(h: seq<LifecycleEntry>) {
    exists i :: 0 <= i < |h| && IsTerminalEntry(h[i])
  }

  predicate TerminalOnce(h: seq<LifecycleEntry>) {
    forall i, j :: 0 <= i < j < |h| && IsTerminalEntry(h[i]) ==> !IsTerminalEntry(h[j])
  }

  /** There is one terminal entry, of the kind of the current status, iff that is terminal. */
  predicate TerminalFaithful(h: seq<LifecycleEntry>, current: SagaInstance) {
    && TerminalOnce(h)
    && TerminalEntriesMatch(h, current.status)
    && (Terminal(current.status) <==> HasTerminalEntry(h))
  }

  lemma RecordedConcat(h: seq<LifecycleEntry>, d: seq<LifecycleEntry>)
    ensures Recorded(h + d) == Recorded(h) + Recorded(d)
  {
  }

  lemma StepNameRecorded(h: seq<LifecycleEntry>, i: nat)
    requires i < |h| && IsStepEntry(h[i])
    ensures h[i].stepName.value in Recorded(h)
  {
    assert h[i] in h;
  }

  lemma StepEntriesRecorded(incoming: SagaInstance, names: seq<StepName>, next: int)
    requires StrictlySorted(names) && forall i :: 0 <= i < |names| ==> names[i] in CompletedSteps(incoming)
    ensures (forall i :: 0 <= i < |names| ==> names[i] in incoming.steps) &&
            var d := StepEntries(incoming, names, next);
            && StepsDistinct(d) && StepEntriesMatch(d, incoming) && (forall n :: n in Recorded(d) <==> n in names)
  {
    hide StepEntries, StrictlySorted;
    var d := StepEntries(incoming, names, next);
    NamedEntries(incoming, names, next);
    forall i, j | 0 <= i < j < |d| ensures d[i].stepName != d[j].stepName {
      SortedDistinct(names, i, j);
    }
    forall n ensures n in Recorded(d) <==> n in names {
      NamesRecorded(d, names, n);
    }
  }

  lemma SortedDistinct(names: seq<StepName>, i: nat, j: nat)
    requires StrictlySorted(names) && i < j < |names|
    ensures names[i] != names[j]
  {
    LessTotal(names[i], names[j]);
  }

  lemma NamedEntries(incoming: SagaInstance, names: seq<StepName>, next: int)
    requires forall i :: 0 <= i < |names| ==> names[i] in CompletedSteps(incoming)
    ensures (forall i :: 0 <= i < |names| ==> names[i] in incoming.steps) &&
            var d := StepEntries(incoming, names, next);
            && |d| == |names| && StepEntriesMatch(d, incoming)
            && forall i :: 0 <= i < |d| ==> IsStepEntry(d[i]) && d[i].stepName == Some(names[i])
  {
  }

  lemma NamesRecorded(d: seq<LifecycleEntry>, names: seq<StepName>, n: StepName)
    requires |d| == |names| && forall i :: 0 <= i < |d| ==> IsStepEntry(d[i]) && d[i].stepName == Some(names[i])
    ensures n in Recorded(d) <==> n in names
  {
    if n in names {
      var i :| 0 <= i < |names| && names[i] == n;
      StepNameRecorded(d, i);
    }
    if n in Recorded(d) {
      var e :| e in d && IsStepEntry(e) && e.stepName.value == n;
      var i :| 0 <= i < |d| && d[i] == e;
      assert names[i] == n;
    }
  }

  lemma LeadingSteps(previous: SagaInstance, incoming: SagaInstance, next: int)
    ensures var d := LeadingEntries(Some(previous), incoming, next);
            && StepsDistinct(d) && StepEntriesMatch(d, incoming) && Recorded(d) == NewlyCompleted(previous, incoming)
  {
    var steps := NewlyCompleted(previous, incoming);
    var names := Sorted(steps);
    SortedEnumerates(steps);
    assert forall i :: 0 <= i < |names| ==> names[i] in names;
    StepEntriesRecorded(incoming, names, next);
  }

  /** The step part of the diff of two snapshots. */
  lemma DerivedSteps(previous: SagaInstance, incoming: SagaInstance, next: int)
    ensures var d := Derived(Some(previous), incoming, next);
            && StepsDistinct(d) && StepEntriesMatch(d, incoming) && Recorded(d) == NewlyCompleted(previous, incoming)
  {
    hide StepsDistinct, StepEntriesMatch, Recorded, LeadingEntries, NewlyCompleted;
    LeadingSteps(previous, incoming, next);
    var leading := LeadingEntries(Some(previous), incoming, next);
    NoStepEntries(leading, TerminalEntries(Some(previous), incoming, next + |leading|), incoming);
  }

  lemma NoStepEntries(h: seq<LifecycleEntry>, t: seq<LifecycleEntry>, current: SagaInstance)
    requires StepsDistinct(h) && StepEntriesMatch(h, current)
    requires forall i :: 0 <= i < |t| ==> !IsStepEntry(t[i])
    ensures StepsDistinct(h + t) && StepEntriesMatch(h + t, current) && Recorded(h + t) == Recorded(h)
  {
    RecordedConcat(h, t);
    assert Recorded(t) == {};
  }

  /** The rest of the diff: never CREATED, and a terminal entry, last, iff the status became terminal. */
  lemma DerivedTerminal(previous: SagaInstance, incoming: SagaInstance, next: int)
    ensures var d := Derived(Some(previous), incoming, next);
            && (forall i :: 0 <= i < |d| ==> d[i].kind != EntryKind.Created)
            && (forall i :: 0 <= i < |d| - 1 ==> IsStepEntry(d[i]))
            && TerminalEntriesMatch(d, incoming.status)
            && (HasTerminalEntry(d) <==> BecameTerminal(Some(previous), incoming))
  {
    var d := Derived(Some(previous), incoming, next);
    if BecameTerminal(Some(previous), incoming) {
      assert IsTerminalEntry(d[|d| - 1]);
    }
  }

  lemma DistinctConcat(h: seq<LifecycleEntry>, d: seq<LifecycleEntry>)
    requires StepsDistinct(h) && StepsDistinct(d) && Recorded(h) !! Recorded(d)
    ensures StepsDistinct(h + d)
  {
    hide Recorded;
    var g := h + d;
    forall i, j | 0 <= i < j < |g| && IsStepEntry(g[i]) && IsStepEntry(g[j]) ensures g[i].stepName != g[j].stepName {
      if i < |h| <= j {
        StepNameRecorded(h, i);
        StepNameRecorded(d, j - |h|);
      }
    }
  }

  /** What was recorded before still holds of a later snapshot. */
  lemma MatchesLater(h: seq<LifecycleEntry>, previous: SagaInstance, incoming: SagaInstance)
    requires StepEntriesMatch(h, previous) && Forward(previous, incoming)
    ensures StepEntriesMatch(h, incoming)
  {
    forall i | 0 <= i < |h| && IsStepEntry(h[i])
      ensures incoming.HasCompleted(h[i].stepName.value) && h[i].touched == incoming.steps[h[i].stepName.value].touched
    {
      assert KeepsCompletion(previous, incoming, h[i].stepName.value);
    }
  }

  lemma KeepsFromFirst(first: SagaInstance, previous: SagaInstance, incoming: SagaInstance, n: StepName)
    requires n in first.steps && KeepsCompletion(first, previous, n) && Forward(previous, incoming)
    ensures KeepsCompletion(first, incoming, n)
  {
    if first.HasCompleted(n) {
      assert KeepsCompletion(previous, incoming, n);
    }
  }

  lemma NextSaveSteps(h: seq<LifecycleEntry>, first: SagaInstance, previous: SagaInstance, incoming: SagaInstance,
                      next: int)
    requires StepsFaithful(h, first, previous) && Forward(previous, incoming)
    ensures StepsFaithful(h + Derived(Some(previous), incoming, next), first, incoming)
  {
    hide Derived, Recorded, StepsDistinct, StepEntriesMatch, Forward, KeepsCompletion;
    var d := Derived(Some(previous), incoming, next);
    DerivedSteps(previous, incoming, next);
    RecordedConcat(h, d);
    DistinctConcat(h, d);
    MatchesLater(h, previous, incoming);
    MatchConcat(h, d, incoming);
    KeepsCompleted(previous, incoming);
    forall n | n in first.steps ensures KeepsCompletion(first, incoming, n) {
      KeepsFromFirst(first, previous, incoming, n);
    }
  }

  lemma MatchConcat(h: seq<LifecycleEntry>, d: seq<LifecycleEntry>, current: SagaInstance)
    requires StepEntriesMatch(h, current) && StepEntriesMatch(d, current)
    ensures StepEntriesMatch(h + d, current)
  {
  }

  lemma KeepsCompleted(previous: SagaInstance, incoming: SagaInstance)
    requires Forward(previous, incoming)
    ensures CompletedSteps(previous) <= CompletedSteps(incoming)
  {
    forall n | n in CompletedSteps(previous) ensures n in CompletedSteps(incoming) {
      assert KeepsCompletion(previous, incoming, n);
    }
  }

  lemma NextSaveTerminal(h: seq<LifecycleEntry>, previous: SagaInstance, incoming: SagaInstance, next: int)
    requires TerminalFaithful(h, previous) && KeepsTerminalStatus(previous, incoming)
    ensures TerminalFaithful(h + Derived(Some(previous), incoming, next), incoming)
  {
    var d := Derived(Some(previous), incoming, next);
    DerivedTerminal(previous, incoming, next);
    var g := h + d;
    if HasTerminalEntry(h) {
      var i :| 0 <= i < |h| && IsTerminalEntry(h[i]);
      assert IsTerminalEntry(g[i]);
    } else if HasTerminalEntry(d) {
      var i :| 0 <= i < |d| && IsTerminalEntry(d[i]);
      assert IsTerminalEntry(g[|h| + i]);
    }
  }

  lemma FirstSaveFaithful(first: SagaInstance, base: int)
    ensures Faithful(Derived(None, first, base), first, first)
  {
    var h := Derived(None, first, base);
    assert Recorded(h) == {};
    if Terminal(first.status) {
      assert IsTerminalEntry(h[1]);
    }
  }

  /** h tells, without repetition, how a saga first stored as first came to be what current says. */
  predicate Faithful(h: seq<LifecycleEntry>, first: SagaInstance, current: SagaInstance) {
    CreatedOnce(h) && StepsFaithful(h, first, current) && TerminalFaithful(h, current)
  }

  lemma NextSaveFaithful(h: seq<LifecycleEntry>, first: SagaInstance, previous: SagaInstance, incoming: SagaInstance,
                         next: int)
    requires Faithful(h, first, previous) && Forward(previous, incoming)
    ensures Faithful(h + Derived(Some(previous), incoming, next), first, incoming)
  {
    NextSaveSteps(h, first, previous, incoming, next);
    NextSaveTerminal(h, previous, incoming, next);
    DerivedTerminal(previous, incoming, next);
  }

  /** The history of any forward chain is faithful to its first and last snapshots. */
  lemma {:induction false} HistoryFaithful(chain: seq<SagaInstance>, base: int)
    requires chain != [] && ForwardChain(chain)
    ensures Faithful(HistoryOf(chain, base), chain[0], chain[|chain| - 1])
  {
    hide Faithful, Derived;
    var n := |chain| - 1;
    if n == 0 {
      FirstSaveFaithful(chain[0], base);
      assert HistoryOf(chain, base) == Derived(None, chain[0], base);
    } else {
      var before := HistoryOf(chain[..n], base);
      HistoryFaithful(chain[..n], base);
      NextSaveFaithful(before, chain[0], chain[n - 1], chain[n], base + |before|);
    }
  }

  // ----- what the entries say --------------------------------------------------------------------------------

  /**
   * The entry tells of what the snapshot is and the one before, if any, was not: CREATED, at the time the snapshot says
   * the saga was created; a step newly completed, or the saga's end with its outcome or failure, when it was modified.
   */
  predicate Tells(e: LifecycleEntry, previous: Option<SagaInstance>, incoming: SagaInstance) {
    && e.sagaId == incoming.sagaId
    && match e.kind
       case Created =>
         && previous.None?
         && e.stepName.None? && e.touched == [] && e.outcomeStep.None? && e.failure.None?
         && e.occurredAt == incoming.createdAt
       case StepCompleted =>
         && previous.Some? && e.stepName.Some? && e.stepName.value in incoming.steps
         && var n := e.stepName.value;
            && incoming.steps[n].status == StepStatus.Completed && e.touched == incoming.steps[n].touched
            && (n in previous.value.steps ==> previous.value.steps[n].status != StepStatus.Completed)
            && e.outcomeStep.None? && e.failure.None? && e.occurredAt == incoming.lastModifiedAt
       case Completed =>
         && incoming.status == SagaStatus.Completed
         && (previous.Some? ==> previous.value.status != SagaStatus.Completed)
         && e.stepName.None? && e.touched == [] && e.outcomeStep == incoming.outcome && e.failure.None?
         && e.occurredAt == incoming.lastModifiedAt
       case Failed =>
         && incoming.status == SagaStatus.Failed
         && (previous.Some? ==> previous.value.status != SagaStatus.Failed)
         && e.stepName.None? && e.touched == [] && e.outcomeStep.None? && e.failure == incoming.failure
         && e.occurredAt == incoming.lastModifiedAt
  }

  /** Every entry of a diff tells of what it came from. */
  lemma DerivedTells(previous: Option<SagaInstance>, incoming: SagaInstance, next: int)
    ensures forall i :: 0 <= i < |Derived(previous, incoming, next)| ==>
              Tells(Derived(previous, incoming, next)[i], previous, incoming)
  {
    var d, leading := Derived(previous, incoming, next), LeadingEntries(previous, incoming, next);
    forall i | 0 <= i < |d| ensures Tells(d[i], previous, incoming) {
      if i < |leading| && previous.Some? {
        var steps := NewlyCompleted(previous.value, incoming);
        SortedEnumerates(steps);
        assert Sorted(steps)[i] in Sorted(steps);
        assert Sorted(steps)[i] in steps;
      }
    }
  }

  /** The snapshot before the k-th of a chain. */
  function Before(chain: seq<SagaInstance>, k: nat): Option<SagaInstance>
    requires k < |chain|
  {
    if k == 0 then None else Some(chain[k - 1])
  }

  /** Every entry of the history of a chain tells of one of its saves, under consecutive numbers. */
  predicate ToldBy(h: seq<LifecycleEntry>, chain: seq<SagaInstance>, base: int) {
    forall i :: 0 <= i < |h| ==>
      h[i].sequenceNumber == base + i && exists k :: 0 <= k < |chain| && Tells(h[i], Before(chain, k), chain[k])
  }

  lemma {:induction false} HistoryTells(chain: seq<SagaInstance>, base: int)
    ensures ToldBy(HistoryOf(chain, base), chain, base)
  {
    hide Tells, Derived;
    if chain != [] {
      var n := |chain| - 1;
      var front, h := chain[..n], HistoryOf(chain, base);
      var before := HistoryOf(front, base);
      HistoryTells(front, base);
      DerivedTells(Before(chain, n), chain[n], base + |before|);
      DerivedWellFormed(Before(chain, n), chain[n], base + |before|);
      forall i | 0 <= i < |h|
        ensures h[i].sequenceNumber == base + i
        ensures exists k :: 0 <= k < |chain| && Tells(h[i], Before(chain, k), chain[k])
      {
        if i < |before| {
          var k :| 0 <= k < |front| && Tells(before[i], Before(front, k), front[k]);
          assert Before(front, k) == Before(chain, k);
        } else {
          assert Tells(h[i], Before(chain, n), chain[n]);
        }
      }
    }
  }

  // ----- squashing saves -------------------------------------------------------------------------------------

  /** What an entry says apart from its place and time: (step, touched list) completions and terminal kinds. */
  datatype Fact = StepFact(step: StepName, touched: seq<AggregateReference>) | KindFact(kind: EntryKind)

  function FactOf(e: LifecycleEntry): Fact {
    if IsStepEntry(e) then StepFact(e.stepName.value, e.touched) else KindFact(e.kind)
  }

  function Facts(h: seq<LifecycleEntry>): set<Fact> {
    set e | e in h :: FactOf(e)
  }

  function StepFacts(current: SagaInstance, steps: set<StepName>): set<Fact>
    requires steps <= CompletedSteps(current)
  {
    set n | n in steps :: StepFact(n, current.steps[n].touched)
  }

  lemma {:induction false} StepEntriesFacts(incoming: SagaInstance, names: seq<StepName>, number: int)
    requires forall i :: 0 <= i < |names| ==> names[i] in incoming.steps
    ensures Facts(StepEntries(incoming, names, number)) == set n | n in names :: StepFact(n, incoming.steps[n].touched)
  {
    if names != [] {
      StepEntriesFacts(incoming, names[1..], number + 1);
      FactsConcat([StepEntry(incoming, names[0], number)], StepEntries(incoming, names[1..], number + 1));
      assert names == [names[0]] + names[1..];
      FactsOfOne(StepEntry(incoming, names[0], number));
    }
  }

  lemma FactsOfOne(e: LifecycleEntry)
    ensures Facts([e]) == {FactOf(e)}
  {
    assert e in [e];
  }

  lemma FactsConcat(h: seq<LifecycleEntry>, d: seq<LifecycleEntry>)
    ensures Facts(h + d) == Facts(h) + Facts(d)
  {
  }

  function TerminalFacts(previous: SagaInstance, incoming: SagaInstance): set<Fact> {
    if BecameTerminal(Some(previous), incoming) then {KindFact(TerminalEntry(incoming, 0).kind)} else {}
  }

  lemma LeadingFacts(previous: SagaInstance, incoming: SagaInstance, next: int)
    ensures var d := LeadingEntries(Some(previous), incoming, next);
            && Facts(d) == StepFacts(incoming, NewlyCompleted(previous, incoming))
            && |d| == |NewlyCompleted(previous, incoming)|
  {
    var steps := NewlyCompleted(previous, incoming);
    var names := Sorted(steps);
    SortedEnumerates(steps);
    EnumerationLength(names, steps);
    assert forall i :: 0 <= i < |names| ==> names[i] in names;
    StepEntriesFacts(incoming, names, next);
  }

  lemma DerivedFacts(previous: SagaInstance, incoming: SagaInstance, next: int)
    ensures var d := Derived(Some(previous), incoming, next);
            && Facts(d) == StepFacts(incoming, NewlyCompleted(previous, incoming)) + TerminalFacts(previous, incoming)
            && |d| == |NewlyCompleted(previous, incoming)| + |TerminalFacts(previous, incoming)|
  {
    hide LeadingEntries, NewlyCompleted, StepFacts, Facts;
    LeadingFacts(previous, incoming, next);
    var leading := LeadingEntries(Some(previous), incoming, next);
    var terminal := TerminalEntries(Some(previous), incoming, next + |leading|);
    FactsConcat(leading, terminal);
    if BecameTerminal(Some(previous), incoming) {
      FactsOfOne(TerminalEntry(incoming, next + |leading|));
    } else {
      NoFacts();
    }
  }

  lemma NoFacts()
    ensures Facts([]) == {}
  {
  }

  lemma NewlyCompletedAlong(a: SagaInstance, b: SagaInstance, c: SagaInstance)
    requires Forward(a, b) && Forward(b, c)
    ensures var ab, bc, ac := NewlyCompleted(a, b), NewlyCompleted(b, c), NewlyCompleted(a, c);
            ac == ab + bc && ab !! bc && StepFacts(c, ac) == StepFacts(b, ab) + StepFacts(c, bc)
  {
    forall n | a.HasCompleted(n) ensures b.HasCompleted(n) && c.HasCompleted(n) {
      assert KeepsCompletion(a, b, n) && KeepsCompletion(b, c, n);
    }
    var ab, bc, ac := NewlyCompleted(a, b), NewlyCompleted(b, c), NewlyCompleted(a, c);
    forall n | n in ab ensures n in ac && c.steps[n].touched == b.steps[n].touched {
      assert KeepsCompletion(b, c, n);
    }
    assert ac == ab + bc;
    assert StepFacts(c, ac) == StepFacts(c, ab) + StepFacts(c, bc);
    assert StepFacts(c, ab) == StepFacts(b, ab);
  }

  /**
   * Squashing two saves into one loses only order and time: the diffs a to b and b to c say, each fact once,
   * what the diff a to c says.
   */
  lemma SquashingKeepsFacts(a: SagaInstance, b: SagaInstance, c: SagaInstance, i: int, j: int, k: int)
    requires Forward(a, b) && Forward(b, c)
    ensures Facts(Derived(Some(a), b, i)) + Facts(Derived(Some(b), c, j)) == Facts(Derived(Some(a), c, k))
    ensures |Derived(Some(a), b, i)| + |Derived(Some(b), c, j)| == |Derived(Some(a), c, k)|
  {
    hide Derived, Facts, StepFacts, NewlyCompleted;
    DerivedFacts(a, b, i);
    DerivedFacts(b, c, j);
    DerivedFacts(a, c, k);
    NewlyCompletedAlong(a, b, c);
  }
}
