/** No double submission: what the pending list guarantees over every run. */
module OrderTheorems {
  import opened Common
  import opened OrderModel

  // ---- The pending list -----------------------------------------------------

  predicate Distinctly(list: seq<Entry>) {
    list == [] || (Flag(list[1..], list[0].link).None? && Distinctly(list[1..]))
  }

  lemma {:induction false} SetEntryFlag(list: seq<Entry>, e: Entry, link: Link)
    ensures Flag(SetEntry(list, e), link) == if link == e.link then Some(e.reduceOnly) else Flag(list, link)
    ensures Distinctly(list) ==> Distinctly(SetEntry(list, e))
  {
    if list != [] && list[0].link != e.link {
      SetEntryFlag(list[1..], e, link);
      SetEntryFlag(list[1..], e, list[0].link);
    }
  }

  /** Every entry of the list for this link carries this flag. */
  predicate Agrees(list: seq<Entry>, link: Link, reduceOnly: bool) {
    forall i :: 0 <= i < |list| && list[i].link == link ==> list[i].reduceOnly == reduceOnly
  }

  lemma {:induction false} SetAllFlag(list: seq<Entry>, entries: seq<Entry>, link: Link, reduceOnly: bool)
    requires Agrees(entries, link, reduceOnly)
    requires Flag(list, link) == Some(reduceOnly) || (Flag(entries, link).Some? && Flag(list, link).None?)
    ensures Flag(SetAll(list, entries), link) == Some(reduceOnly)
    decreases |entries|
  {
    if entries != [] {
      SetEntryFlag(list, entries[0], link);
      SetAllFlag(SetEntry(list, entries[0]), entries[1..], link, reduceOnly);
    }
  }

  lemma {:induction false} SetAllKeeps(list: seq<Entry>, entries: seq<Entry>, link: Link)
    requires Flag(entries, link).None?
    ensures Flag(SetAll(list, entries), link) == Flag(list, link)
    decreases |entries|
  {
    if entries != [] {
      SetEntryFlag(list, entries[0], link);
      SetAllKeeps(SetEntry(list, entries[0]), entries[1..], link);
    }
  }

  lemma {:induction false} SetAllDistinct(list: seq<Entry>, entries: seq<Entry>)
    requires Distinctly(list)
    ensures Distinctly(SetAll(list, entries))
    decreases |entries|
  {
    if entries != [] {
      SetEntryFlag(list, entries[0], entries[0].link);
      SetAllDistinct(SetEntry(list, entries[0]), entries[1..]);
    }
  }

  lemma {:induction false} DistinctAgrees(list: seq<Entry>, link: Link)
    requires Distinctly(list)
    ensures Flag(list, link).Some? ==> Agrees(list, link, Flag(list, link).value)
    ensures Flag(list, link).None? ==> forall i :: 0 <= i < |list| ==> list[i].link != link
  {
    if list != [] {
      DistinctAgrees(list[1..], link);
      forall i | 0 < i < |list|
        ensures list[i] == list[1..][i - 1]
      {
      }
    }
  }

  /** A merge keeps every local entry the journal does not contradict, and adds the journal's. */
  lemma MergeFlag(pending: seq<Entry>, entries: seq<Entry>, link: Link, reduceOnly: bool)
    requires Distinctly(pending) && Agrees(entries, link, reduceOnly)
    requires Flag(pending, link) == Some(reduceOnly) || (Flag(entries, link).Some? && Flag(pending, link).None?)
    ensures Flag(Merge(pending, entries), link) == Some(reduceOnly)
  {
    DistinctAgrees(pending, link);
    if Flag(pending, link).Some? {
      SetAllFlag([], pending, link, reduceOnly);
    } else {
      SetAllKeeps([], pending, link);
    }
    SetAllFlag(SetAll([], pending), entries, link, reduceOnly);
  }

  lemma MergeDistinct(pending: seq<Entry>, entries: seq<Entry>)
    ensures Distinctly(Merge(pending, entries))
  {
    SetAllDistinct([], pending);
    SetAllDistinct(SetAll([], pending), entries);
  }

  lemma {:induction false} WithoutFlag(list: seq<Entry>, gone: Link, link: Link)
    ensures Flag(Without(list, gone), link) == if link == gone then None else Flag(list, link)
  {
    if list != [] { WithoutFlag(list[1..], gone, link); }
  }

  lemma {:induction false} WithoutDistinct(list: seq<Entry>, gone: Link)
    requires Distinctly(list)
    ensures Distinctly(Without(list, gone))
  {
    if list != [] {
      WithoutDistinct(list[1..], gone);
      WithoutFlag(list[1..], gone, list[0].link);
    }
  }

  lemma {:induction false} AppendFlag(list: seq<Entry>, e: Entry, link: Link)
    requires Flag(list, e.link).None?
    ensures Flag(list + [e], link) == if link == e.link then Some(e.reduceOnly) else Flag(list, link)
    ensures Distinctly(list) ==> Distinctly(list + [e])
  {
    if list != [] {
      assert (list + [e])[1..] == list[1..] + [e];
      AppendFlag(list[1..], e, link);
      AppendFlag(list[1..], e, list[0].link);
    }
  }

  lemma {:induction false} FlagIsEntry(list: seq<Entry>, link: Link)
    requires Flag(list, link).Some?
    ensures exists i :: 0 <= i < |list| && list[i] == Entry(link, Flag(list, link).value)
  {
    if list[0].link != link {
      FlagIsEntry(list[1..], link);
      var i :| 0 <= i < |list[1..]| && list[1..][i] == Entry(link, Flag(list[1..], link).value);
      assert list[i + 1] == list[1..][i];
    } else {
      assert list[0] == Entry(link, Flag(list, link).value);
    }
  }

  // ---- What the environment owes the store ----------------------------------------

  /** The scope's open intents are shown as pending, with their own flags. */
  ghost predicate Shows(pending: seq<Entry>, open: Intents, scope: Scope) {
    forall l :: l in open && open[l].scope == scope ==> Flag(pending, l) == Some(open[l].reduceOnly)
  }

  /** A journal read echoes the flags of open intents and lists those the store has forgotten. */
  ghost predicate Echoes(pending: seq<Entry>, open: Intents, scope: Scope, entries: seq<Entry>) {
    forall l :: l in open && open[l].scope == scope ==>
      && Agrees(entries, l, open[l].reduceOnly)
      && (Flag(pending, l).None? ==> Flag(entries, l).Some?)
  }

  /** Link ids are fresh, and the journal reads the store takes in are echoes. */
  ghost predicate Honest(s: State, open: Intents, e: Event) {
    && (Issued(s, e).Some? ==>
          Issued(s, e).value.link !in open && Flag(s.pending, Issued(s, e).value.link).None?)
    && (e.ListAnswered? && e.entries.Some? && OwnedOperation(s, e.id) ==>
          Echoes(s.pending, open, s.env.scope, e.entries.value))
  }

  ghost predicate HonestRun(s: State, open: Intents, events: seq<Event>)
    decreases |events|
  {
    events == [] ||
    (Honest(s, open, events[0]) && HonestRun(Step(s, events[0]), Track(s, open, events[0]), events[1..]))
  }

  // ---- How one step changes the pending list ----------------------------------------

  datatype Change = Keep | Forget | Append(e: Entry) | Drop(link: Link) | MergeIn(entries: seq<Entry>)

  function Apply(c: Change, pending: seq<Entry>): seq<Entry> {
    match c
    case Keep => pending
    case Forget => []
    case Append(e) => pending + [e]
    case Drop(link) => Without(pending, link)
    case MergeIn(entries) => Merge(pending, entries)
  }

  predicate OwnedOperation(s: State, id: nat) {
    id in s.operations && Owned(s, s.operations[id].context)
  }

  function ChangeOf(s: State, e: Event): Change {
    var issued := Issued(s, e);
    var resolved := Resolved(s, e);
    if Forgets(s, e) then Forget
    else if issued.Some? then Append(issued.value)
    else if resolved.Some? && OwnedOperation(s, e.id) then Drop(resolved.value)
    else if e.ListAnswered? && OwnedOperation(s, e.id) && s.operations[e.id].Listing? && e.entries.Some?
    then MergeIn(e.entries.value)
    else Keep
  }

  ghost predicate Changes(s: State, e: Event) {
    var t := Step(s, e);
    var c := ChangeOf(s, e);
    && t.pending == Apply(c, s.pending)
    && (t.loaded ==> c.MergeIn? || (s.loaded && !c.Forget?))
    && (t.env.scope != s.env.scope ==> c.Forget?)
    && (c.Append? ==> s.loaded && !Blocks(s.pending, c.e.reduceOnly))
  }

  lemma ReadingChanges(s: State, e: Event)
    requires e.Environs? || e.ClearOrders? || e.Refresh? || e.ListAnswered?
    ensures Changes(s, e)
  {
    hide Merge, Blocks;
  }

  lemma PlacingChanges(s: State, e: Event)
    requires e.BeginPlace? || e.ResumePlace? || e.SettlePlace?
    ensures Changes(s, e)
  {
    hide Merge, Blocks;
  }

  lemma AnswerChanges(s: State, e: Event)
    requires e.PlaceAnswered?
    ensures Changes(s, e)
  {
    hide Merge, Blocks, Without;
  }

  lemma AckChanges(s: State, e: Event)
    requires e.AckAnswered?
    ensures Changes(s, e)
  {
    hide Merge, Blocks, Without;
  }

  lemma QueryChanges(s: State, e: Event)
    requires e.BeginQuery? || e.QueryAnswered?
    ensures Changes(s, e)
  {
    hide Merge, Blocks, Without;
  }

  lemma StepChanges(s: State, e: Event)
    ensures Changes(s, e)
  {
    hide Changes;
    match e
    case PlaceAnswered(_, _) => AnswerChanges(s, e);
    case AckAnswered(_, _) => AckChanges(s, e);
    case BeginQuery(_) => QueryChanges(s, e);
    case QueryAnswered(_, _) => QueryChanges(s, e);
    case BeginPlace(_, _) => PlacingChanges(s, e);
    case ResumePlace(_, _) => PlacingChanges(s, e);
    case SettlePlace(_) => PlacingChanges(s, e);
    case _ => ReadingChanges(s, e);
  }

  // ---- The invariant ----------------------------------------------------------------

  /** What the list says of the scope's open intents is true of them. */
  ghost predicate Truthful(pending: seq<Entry>, open: Intents, scope: Scope) {
    forall l :: l in open && open[l].scope == scope ==> Flag(pending, l) in {None, Some(open[l].reduceOnly)}
  }

  /** At most one open intent of each kind per account and epoch. */
  ghost predicate NoDouble(open: Intents) {
    forall l, m :: l in open && m in open && open[l] == open[m] ==> l == m
  }

  ghost predicate Inv(s: State, open: Intents) {
    && Distinctly(s.pending)
    && Truthful(s.pending, open, s.env.scope)
    && (s.loaded ==> Shows(s.pending, open, s.env.scope))
    && NoDouble(open)
  }

  function TrackChange(c: Change, resolved: Option<Link>, scope: Scope, open: Intents): Intents {
    if c.Append? then open[c.e.link := Intent(scope, c.e.reduceOnly)]
    else if resolved.Some? then open - {resolved.value}
    else open
  }

  lemma TrackIsChange(s: State, open: Intents, e: Event)
    ensures Track(s, open, e) == TrackChange(ChangeOf(s, e), Resolved(s, e), s.env.scope, open)
    ensures ChangeOf(s, e).Drop? ==> Resolved(s, e) == Some(ChangeOf(s, e).link)
    ensures ChangeOf(s, e).Append? <==> Issued(s, e).Some?
    ensures ChangeOf(s, e).Append? ==> ChangeOf(s, e).e == Issued(s, e).value
    ensures ChangeOf(s, e).MergeIn? ==>
      e.ListAnswered? && OwnedOperation(s, e.id) && e.entries == Some(ChangeOf(s, e).entries)
    ensures ChangeOf(s, e).Forget? <==> Forgets(s, e)
  {
    hide Submits, Owned;
  }

  ghost predicate HonestChange(c: Change, pending: seq<Entry>, open: Intents, scope: Scope) {
    match c
    case Append(e) => e.link !in open && Flag(pending, e.link).None?
    case MergeIn(entries) => Echoes(pending, open, scope, entries)
    case _ => true
  }

  lemma ChangeDistinct(c: Change, pending: seq<Entry>, open: Intents, scope: Scope)
    requires Distinctly(pending) && HonestChange(c, pending, open, scope)
    ensures Distinctly(Apply(c, pending))
  {
    match c
    case Append(e) => AppendFlag(pending, e, e.link);
    case Drop(link) => WithoutDistinct(pending, link);
    case MergeIn(entries) => MergeDistinct(pending, entries);
    case _ =>
  }

  /** An intent that is shown stays shown, and a merge shows every open one. */
  lemma ChangeFlag(c: Change, resolved: Option<Link>, pending: seq<Entry>, open: Intents, scope: Scope, l: Link)
    requires Distinctly(pending) && Truthful(pending, open, scope) && HonestChange(c, pending, open, scope)
    requires c.Drop? ==> resolved == Some(c.link)
    requires var after := TrackChange(c, resolved, scope, open); l in after && after[l].scope == scope
    requires c != Forget
    ensures Flag(Apply(c, pending), l) ==
      if c.MergeIn? || (c.Append? && l == c.e.link) then Some(TrackChange(c, resolved, scope, open)[l].reduceOnly)
      else Flag(pending, l)
  {
    match c
    case Append(e) => AppendFlag(pending, e, l);
    case Drop(link) => WithoutFlag(pending, link, l);
    case MergeIn(entries) => MergeFlag(pending, entries, l, open[l].reduceOnly);
    case _ =>
  }

  lemma ChangeNoDouble(c: Change, resolved: Option<Link>, pending: seq<Entry>, open: Intents, scope: Scope)
    requires NoDouble(open)
    requires c.Append? ==> Shows(pending, open, scope) && !Blocks(pending, c.e.reduceOnly)
    ensures NoDouble(TrackChange(c, resolved, scope, open))
  {
    if c.Append? {
      forall l | l in open && open[l] == Intent(scope, c.e.reduceOnly)
        ensures false
      {
        FlagIsEntry(pending, l);
      }
    }
  }

  lemma ChangeShows(c: Change, resolved: Option<Link>, pending: seq<Entry>, open: Intents, scope: Scope)
    requires Distinctly(pending) && Truthful(pending, open, scope) && HonestChange(c, pending, open, scope)
    requires c.Drop? ==> resolved == Some(c.link)
    requires c != Forget
    ensures var after := TrackChange(c, resolved, scope, open);
      && Truthful(Apply(c, pending), after, scope)
      && (c.MergeIn? || Shows(pending, open, scope) ==> Shows(Apply(c, pending), after, scope))
  {
    hide Apply;
    var after := TrackChange(c, resolved, scope, open);
    forall l | l in after && after[l].scope == scope
      ensures Flag(Apply(c, pending), l) == if c.MergeIn? || (c.Append? && l == c.e.link)
                                            then Some(after[l].reduceOnly) else Flag(pending, l)
    {
      ChangeFlag(c, resolved, pending, open, scope, l);
    }
  }

  lemma StepInv(s: State, open: Intents, e: Event)
    requires Inv(s, open) && Honest(s, open, e)
    ensures Inv(Step(s, e), Track(s, open, e))
  {
    hide Step, Apply, ChangeOf, Track, Issued, Resolved, Echoes, Shows, Truthful, NoDouble, Distinctly, Blocks,
      TrackChange, Forgets;
    var c, resolved := ChangeOf(s, e), Resolved(s, e);
    StepChanges(s, e);
    TrackIsChange(s, open, e);
    ChangeDistinct(c, s.pending, open, s.env.scope);
    ChangeNoDouble(c, resolved, s.pending, open, s.env.scope);
    if c.Forget? {
      ForgottenIsTruthful(c, s.pending, Track(s, open, e), Step(s, e).env.scope);
    } else {
      ChangeShows(c, resolved, s.pending, open, s.env.scope);
    }
  }

  lemma ForgottenIsTruthful(c: Change, pending: seq<Entry>, open: Intents, scope: Scope)
    requires c.Forget?
    ensures Truthful(Apply(c, pending), open, scope)
  {
  }

  lemma {:induction false} RunInv(s: State, open: Intents, events: seq<Event>)
    requires Inv(s, open) && HonestRun(s, open, events)
    ensures Inv(Run(s, events), Unresolved(s, open, events))
    decreases |events|
  {
    if events != [] {
      hide Inv, Honest, Step, Track;
      StepInv(s, open, events[0]);
      RunInv(Step(s, events[0]), Track(s, open, events[0]), events[1..]);
    }
  }

  // ---- Theorems -----------------------------------------------------------------------

  /**
   No double submission. At any time at most one reduce-only and one other intent of an account
   and epoch are unresolved, provided journal reads list the intents the store has forgotten.
   */
  lemma NoDoubleSubmission(env: Environment, events: seq<Event>, l: Link, m: Link)
    requires HonestRun(Initial(env), map[], events)
    ensures var open := Unresolved(Initial(env), map[], events);
      l in open && m in open && open[l].scope == open[m].scope && open[l].reduceOnly == open[m].reduceOnly
      ==> l == m
  {
    RunInv(Initial(env), map[], events);
  }

  /** An unresolved intent leaves the pending list in exactly the steps that forget the whole list. */
  lemma UnresolvedLeavesOnlyWhenForgotten(env: Environment, events: seq<Event>, e: Event, l: Link)
    requires HonestRun(Initial(env), map[], events)
    requires var s, open := Run(Initial(env), events), Unresolved(Initial(env), map[], events);
      && Honest(s, open, e)
      && l in Track(s, open, e) && l in open && open[l].scope == s.env.scope
      && Flag(s.pending, l).Some?
    ensures var s := Run(Initial(env), events);
      Flag(Step(s, e).pending, l).None? <==> Forgets(s, e)
  {
    var s, open := Run(Initial(env), events), Unresolved(Initial(env), map[], events);
    RunInv(Initial(env), map[], events);
    hide Step, ChangeOf, Track, Issued, Resolved, Forgets, Echoes, Shows, Distinctly, Blocks;
    StepChanges(s, e);
    TrackIsChange(s, open, e);
    if ChangeOf(s, e) != Forget {
      ChangeFlag(ChangeOf(s, e), Resolved(s, e), s.pending, open, s.env.scope, l);
    }
  }

  /** No step of the run forgets the pending list. */
  predicate Remembers(s: State, events: seq<Event>)
    decreases |events|
  {
    events == [] || (!Forgets(s, events[0]) && Remembers(Step(s, events[0]), events[1..]))
  }

  /** An intent that is shown if it is open stays so as long as nothing is forgotten. */
  lemma {:induction false} RemembersOne(s: State, open: Intents, events: seq<Event>, l: Link)
    requires Inv(s, open) && HonestRun(s, open, events) && Remembers(s, events)
    requires l in open && open[l].scope == s.env.scope ==> Flag(s.pending, l).Some?
    ensures var after := Unresolved(s, open, events);
      l in after && after[l].scope == s.env.scope
      ==> Flag(Run(s, events).pending, l) == Some(after[l].reduceOnly)
    decreases |events|
  {
    if events != [] {
      var e := events[0];
      StepInv(s, open, e);
      StepShows(s, open, e, l);
      RemembersOne(Step(s, e), Track(s, open, e), events[1..], l);
    }
  }

  lemma StepShows(s: State, open: Intents, e: Event, l: Link)
    requires Inv(s, open) && Honest(s, open, e) && !Forgets(s, e)
    requires l in open && open[l].scope == s.env.scope ==> Flag(s.pending, l).Some?
    ensures var open' := Track(s, open, e);
      l in open' && open'[l].scope == s.env.scope ==> Flag(Step(s, e).pending, l).Some?
    ensures Step(s, e).env.scope == s.env.scope
  {
    hide Step, Apply, ChangeOf, Track, Issued, Resolved, Forgets, Echoes, Shows, NoDouble, Distinctly, Blocks;
    StepChanges(s, e);
    TrackIsChange(s, open, e);
    if l in Track(s, open, e) && Track(s, open, e)[l].scope == s.env.scope {
      ChangeFlag(ChangeOf(s, e), Resolved(s, e), s.pending, open, s.env.scope, l);
    }
  }

  /**
   Within one account and epoch, and without clearing the orders, an intent sent stays pending
   through any refreshes, reconnects, failed reconciliations and late answers until it is resolved.
   */
  lemma UnresolvedStaysPending(env: Environment, before: seq<Event>, e: Event, after: seq<Event>)
    requires HonestRun(Initial(env), map[], before)
    requires var s, open := Run(Initial(env), before), Unresolved(Initial(env), map[], before);
      && Honest(s, open, e) && Issued(s, e).Some?
      && HonestRun(Step(s, e), Track(s, open, e), after) && Remembers(Step(s, e), after)
    ensures var s, open := Run(Initial(env), before), Unresolved(Initial(env), map[], before);
      var open' := Unresolved(Step(s, e), Track(s, open, e), after);
      var l := Issued(s, e).value.link;
      l in open' && open'[l].scope == s.env.scope
      ==> Flag(Run(Step(s, e), after).pending, l) == Some(open'[l].reduceOnly)
  {
    var s, open := Run(Initial(env), before), Unresolved(Initial(env), map[], before);
    var l := Issued(s, e).value.link;
    RunInv(Initial(env), map[], before);
    StepInv(s, open, e);
    IssueKeepsScope(s, e);
    StepShows(s, open, e, l);
    RemembersOne(Step(s, e), Track(s, open, e), after, l);
  }

  lemma IssueKeepsScope(s: State, e: Event)
    requires Issued(s, e).Some?
    ensures !Forgets(s, e)
  {
  }

  // ---- Clearing the orders -------------------------------------------------------------

  /** Clears the orders, answers the re-read and submits again. */
  function Resubmission(s: State, entries: seq<Entry>, intent: Entry): seq<Event> {
    [ClearOrders, ListAnswered(s.nextOperation, Some(entries)),
     BeginPlace(intent, true), ResumePlace(s.nextOperation + 1, true)]
  }

  lemma ClearedAndRead(s: State, entries: seq<Entry>)
    requires CanRead(s.env)
    ensures var t := Step(Step(s, ClearOrders), ListAnswered(s.nextOperation, Some(entries)));
      && t.env == s.env && t.loaded && !t.loading && !t.failed && !t.placing && t.querying.None?
      && t.pending == SetAll([], entries) && t.nextOperation == s.nextOperation + 1
  {
    assert SetAll([], []) == [];
  }

  lemma PlacedAgain(t: State, intent: Entry)
    requires CanRead(t.env) && t.loaded && !t.loading && !t.failed && !t.placing && t.querying.None?
    ensures var u := Step(t, BeginPlace(intent, true));
      Issued(u, ResumePlace(t.nextOperation, true)) == if Blocks(t.pending, intent.reduceOnly) then None else Some(intent)
    ensures Step(t, BeginPlace(intent, true)).env == t.env
  {
    hide Blocks;
  }

  lemma UnresolvedFour(s: State, open: Intents, events: seq<Event>)
    requires |events| == 4
    ensures var t := Step(s, events[0]);
      var u := Step(t, events[1]);
      var v := Step(u, events[2]);
      Unresolved(s, open, events)
      == Track(v, Track(u, Track(t, Track(s, open, events[0]), events[1]), events[2]), events[3])
  {
    hide Step, Track;
    var t := Step(s, events[0]);
    var u := Step(t, events[1]);
    var v := Step(u, events[2]);
    var a := Track(s, open, events[0]);
    var b := Track(t, a, events[1]);
    var c := Track(u, b, events[2]);
    assert events[1..][1..] == events[2..] && events[2..][1..] == events[3..] && events[3..][1..] == [];
    assert Unresolved(v, c, events[3..]) == Track(v, c, events[3]);
    assert Unresolved(u, b, events[2..]) == Unresolved(v, c, events[3..]);
    assert Unresolved(t, a, events[1..]) == Unresolved(u, b, events[2..]);
  }

  lemma ResubmissionDoublesIff(s: State, open: Intents, entries: seq<Entry>, l: Link, intent: Entry)
    requires CanRead(s.env)
    requires l in open && open[l] == Intent(s.env.scope, intent.reduceOnly)
    requires intent.link !in open && NoDouble(open)
    ensures NoDouble(Unresolved(s, open, Resubmission(s, entries, intent)))
      <==> Blocks(SetAll([], entries), intent.reduceOnly)
  {
    hide Blocks, SetAll;
    var events := Resubmission(s, entries, intent);
    var t := Step(s, events[0]);
    var u := Step(t, events[1]);
    var v := Step(u, events[2]);
    ClearedAndRead(s, entries);
    PlacedAgain(u, intent);
    assert Track(s, open, events[0]) == open && Track(t, open, events[1]) == open && Track(u, open, events[2]) == open;
    UnresolvedFour(s, open, events);
    var after := Track(v, open, events[3]);
    if !Blocks(u.pending, intent.reduceOnly) {
      assert after[l] == after[intent.link];
    }
  }

  lemma {:induction false} UnresolvedAppend(s: State, open: Intents, a: seq<Event>, b: seq<Event>)
    ensures Unresolved(s, open, a + b) == Unresolved(Run(s, a), Unresolved(s, open, a), b)
    decreases |a|
  {
    if a == [] {
      assert a + b == b;
    } else {
      assert (a + b)[1..] == a[1..] + b;
      UnresolvedAppend(Step(s, a[0]), Track(s, open, a[0]), a[1..], b);
    }
  }

  lemma RunFour(s: State, events: seq<Event>)
    requires |events| == 4
    ensures Run(s, events) == Step(Step(Step(Step(s, events[0]), events[1]), events[2]), events[3])
  {
    hide Step;
    assert events[1..][1..] == events[2..] && events[2..][1..] == events[3..] && events[3..][1..] == [];
    var t := Step(s, events[0]);
    var u := Step(t, events[1]);
    var v := Step(u, events[2]);
    assert Run(v, events[3..]) == Step(v, events[3]);
    assert Run(u, events[2..]) == Run(v, events[3..]);
    assert Run(t, events[1..]) == Run(u, events[2..]);
  }

  /**
   In any reachable state, clearing the orders while an intent is unresolved lets another of its
   kind be sent exactly when the journal read that follows lists no blocking entry.
   */
  lemma ClearedOrdersCanDouble(env: Environment, before: seq<Event>, entries: seq<Entry>, l: Link, intent: Entry)
    requires HonestRun(Initial(env), map[], before)
    requires var s, open := Run(Initial(env), before), Unresolved(Initial(env), map[], before);
      && CanRead(s.env)
      && l in open && open[l] == Intent(s.env.scope, intent.reduceOnly)
      && intent.link !in open
    ensures var s := Run(Initial(env), before);
      NoDouble(Unresolved(Initial(env), map[], before + Resubmission(s, entries, intent)))
      <==> Blocks(SetAll([], entries), intent.reduceOnly)
  {
    var s, open := Run(Initial(env), before), Unresolved(Initial(env), map[], before);
    RunInv(Initial(env), map[], before);
    UnresolvedAppend(Initial(env), map[], before, Resubmission(s, entries, intent));
    hide Run, Unresolved, Blocks, SetAll;
    ResubmissionDoublesIff(s, open, entries, l, intent);
  }

  /** The first order of a session: the journal is read, found empty, and the order is sent. */
  function FirstSubmission(intent: Entry): seq<Event> {
    [Refresh, ListAnswered(0, Some([])), BeginPlace(intent, true), ResumePlace(1, true)]
  }

  lemma FirstIsSent(env: Environment, intent: Entry)
    requires CanRead(env)
    ensures var events := FirstSubmission(intent);
      && Run(Initial(env), events).env == env
      && Unresolved(Initial(env), map[], events) == map[intent.link := Intent(env.scope, intent.reduceOnly)]
  {
    var events := FirstSubmission(intent);
    var s := Initial(env);
    var t := Step(s, events[0]);
    var u := Step(t, events[1]);
    var v := Step(u, events[2]);
    assert SetAll([], []) == [];
    assert u.env == env && u.loaded && !u.loading && !u.failed && !u.placing && u.querying.None? && u.pending == [];
    assert u.nextOperation == 1;
    PlacedAgain(u, intent);
    assert Track(s, map[], events[0]) == map[] && Track(t, map[], events[1]) == map[] && Track(u, map[], events[2]) == map[];
    UnresolvedFour(s, map[], events);
    RunFour(s, events);
    assert v.env == env;
    assert Step(v, events[3]).env == v.env;
  }

  /**
   A run from the start in which two intents of one kind, account and epoch are unresolved at
   once: the orders are cleared while the first is on its way, and the journal read that follows
   is answered before that intent reaches the journal.
   */
  lemma ClearedOrdersDoubleRun(env: Environment, first: Entry, second: Entry)
    requires CanRead(env) && first.link != second.link && first.reduceOnly == second.reduceOnly
    ensures var start := FirstSubmission(first);
      var again := Resubmission(Run(Initial(env), start), [], second);
      var open := Unresolved(Initial(env), map[], start + again);
      && first.link in open && second.link in open
      && open[first.link] == open[second.link] == Intent(env.scope, first.reduceOnly)
  {
    var start := FirstSubmission(first);
    var s := Run(Initial(env), start);
    var open := map[first.link := Intent(env.scope, first.reduceOnly)];
    FirstIsSent(env, first);
    UnresolvedAppend(Initial(env), map[], start, Resubmission(s, [], second));
    ResubmissionTracked(s, open, second);
  }

  lemma ResubmissionTracked(s: State, open: Intents, intent: Entry)
    requires CanRead(s.env)
    ensures Unresolved(s, open, Resubmission(s, [], intent))
      == open[intent.link := Intent(s.env.scope, intent.reduceOnly)]
  {
    hide Blocks;
    var events := Resubmission(s, [], intent);
    var t := Step(s, events[0]);
    var u := Step(t, events[1]);
    ClearedAndRead(s, []);
    assert SetAll([], []) == [];
    PlacedAgain(u, intent);
    NothingBlocks(intent.reduceOnly);
    assert Track(s, open, events[0]) == open && Track(t, open, events[1]) == open && Track(u, open, events[2]) == open;
    UnresolvedFour(s, open, events);
  }

  lemma NothingBlocks(reduceOnly: bool)
    ensures !Blocks([], reduceOnly)
  {
  }
}
