/**
 The order journal behind the order store: an intent is written before it is sent, and a
 submission whose answer was lost is queried, never sent again.

 Mutations of an account are serialised, so at most one submission is in flight; a crash or a
 cancelled task may end it at any time. Every write may fail, and the first one may be torn.
 */
module OrderJournal {
  import opened Common

  type Scope(==, !new)
  type Details(==, !new)

  datatype Request = Request(link: string, reduceOnly: bool, details: Details)
  datatype Outcome = Pending | Accepted | Rejected
  datatype Record = Damaged | Stored(request: Request, outcome: Outcome, acknowledged: bool)

  datatype Id = Id(scope: Scope, link: string)

  datatype State = State(records: map<Id, Record>, flying: Option<Id>, sent: seq<Id>)

  const INITIAL := State(map[], None, [])

  datatype Write = Written | NotWritten | Torn
  datatype Answer = Receipt | BadReceipt | CertainFailure | Lost

  datatype Event =
    | Submit(scope: Scope, request: Request, write: Write)
    | Answered(answer: Answer, saved: bool)
    | Crash
    | Acknowledge(id: Id, saved: bool)
    | Reconcile(id: Id, found: bool, saved: bool)

  datatype Reply = Sent | Replayed | Unknown | Refused | Blocked

  predicate ValidLink(link: string) {
    1 <= |link| <= 36
  }

  /** What the list of pending submissions shows: no outcome yet, or one nobody has acknowledged. */
  predicate Listed(r: Record) {
    r.Stored? && (r.outcome.Pending? || (r.outcome.Accepted? && !r.acknowledged))
  }

  /** A damaged record makes the whole list of its scope unreadable. */
  ghost predicate Readable(records: map<Id, Record>, scope: Scope) {
    forall id :: id in records && id.scope == scope ==> records[id].Stored?
  }

  /** A listed submission blocks another one, unless only the new one is reduce-only. */
  ghost predicate Blocking(records: map<Id, Record>, scope: Scope, reduceOnly: bool) {
    exists id :: id in records && id.scope == scope && Listed(records[id])
                 && (!reduceOnly || records[id].request.reduceOnly)
  }

  /** What a submission is told, and whether it goes out. */
  ghost function Decide(s: State, scope: Scope, request: Request, write: Write): Reply {
    var id := Id(scope, request.link);
    if !ValidLink(request.link) then Refused
    else if id in s.records then
      (if s.records[id].Damaged? || s.records[id].request != request || s.records[id].outcome.Rejected? then Refused
       else if s.records[id].outcome.Accepted? then Replayed
       else Unknown)
    else if !Readable(s.records, scope) then Refused
    else if Blocking(s.records, scope, request.reduceOnly) then Blocked
    else if write.Written? then Sent
    else Refused
  }

  /** Whether the submission gets as far as writing its intent. */
  ghost predicate Writes(s: State, scope: Scope, request: Request) {
    && ValidLink(request.link) && Id(scope, request.link) !in s.records
    && Readable(s.records, scope) && !Blocking(s.records, scope, request.reduceOnly)
  }

  ghost function SubmitOnce(s: State, scope: Scope, request: Request, write: Write): State {
    var id := Id(scope, request.link);
    if s.flying.Some? || !Writes(s, scope, request) || write.NotWritten? then s
    else if write.Torn? then s.(records := s.records[id := Damaged])
    else
      s.(records := s.records[id := Stored(request, Pending, false)], flying := Some(id), sent := s.sent + [id])
  }

  function SetOutcome(s: State, id: Id, outcome: Outcome): State {
    if id in s.records && s.records[id].Stored? && s.records[id].outcome.Pending?
    then s.(records := s.records[id := s.records[id].(outcome := outcome)]) else s
  }

  function Finish(s: State, answer: Answer, saved: bool): State {
    if s.flying.None? then s
    else
      var t := s.(flying := None);
      if !saved then t
      else match answer
        case Receipt => SetOutcome(t, s.flying.value, Accepted)
        case CertainFailure => SetOutcome(t, s.flying.value, Rejected)
        case _ => t
  }

  ghost function Step(s: State, e: Event): State {
    match e
    case Submit(scope, request, write) => SubmitOnce(s, scope, request, write)
    case Answered(answer, saved) => Finish(s, answer, saved)
    case Crash => s.(flying := None)
    case Acknowledge(id, saved) =>
      if s.flying.None? && saved && id in s.records && s.records[id].Stored? && s.records[id].outcome.Accepted?
      then s.(records := s.records[id := s.records[id].(acknowledged := true)]) else s
    case Reconcile(id, found, saved) =>
      if s.flying.None? && found && saved then SetOutcome(s, id, Accepted) else s
  }

  ghost function Run(s: State, events: seq<Event>): State
    decreases |events|
  {
    if events == [] then s else Run(Step(s, events[0]), events[1..])
  }

  // ---- Invariants ----------------------------------------------------------------

  /** What was sent is on record, under its own link. */
  ghost predicate Recorded(s: State) {
    && (forall i :: 0 <= i < |s.sent| ==> s.sent[i] in s.records && s.records[s.sent[i]].Stored?)
    && (forall id :: id in s.records && s.records[id].Stored? ==> s.records[id].request.link == id.link)
  }

  ghost predicate OneOfEachKind(records: map<Id, Record>) {
    forall a, b ::
      (a in records && b in records && a.scope == b.scope && Listed(records[a]) && Listed(records[b])
       && records[a].request.reduceOnly == records[b].request.reduceOnly) ==> a == b
  }

  /** Only outcomes are acknowledged. */
  ghost predicate Sound(records: map<Id, Record>) {
    forall id :: id in records && records[id].Stored? && records[id].outcome.Pending? ==> !records[id].acknowledged
  }

  ghost predicate Inv(s: State) {
    Distinct(s.sent) && Recorded(s) && OneOfEachKind(s.records) && Sound(s.records)
  }

  lemma StepSent(s: State, e: Event)
    requires Distinct(s.sent) && Recorded(s) && Sound(s.records)
    ensures Distinct(Step(s, e).sent) && Recorded(Step(s, e)) && Sound(Step(s, e).records)
  {
    hide Readable, Blocking;
  }

  lemma SubmitOneOfEach(s: State, scope: Scope, request: Request, write: Write)
    requires OneOfEachKind(s.records)
    ensures OneOfEachKind(SubmitOnce(s, scope, request, write).records)
  {
    var t := SubmitOnce(s, scope, request, write);
    if t.sent != s.sent {
      var id := Id(scope, request.link);
      forall a | a in s.records && a.scope == scope && Listed(s.records[a])
        ensures s.records[a].request.reduceOnly != request.reduceOnly
      {
      }
    }
  }

  lemma StepOneOfEach(s: State, e: Event)
    requires OneOfEachKind(s.records)
    ensures OneOfEachKind(Step(s, e).records)
  {
    hide Readable, Blocking;
    if e.Submit? {
      SubmitOneOfEach(s, e.scope, e.request, e.write);
    }
  }

  lemma {:induction false} RunInv(s: State, events: seq<Event>)
    requires Inv(s)
    ensures Inv(Run(s, events))
    decreases |events|
  {
    if events != [] {
      hide Distinct, Recorded, OneOfEachKind, Sound, Step;
      StepSent(s, events[0]);
      StepOneOfEach(s, events[0]);
      RunInv(Step(s, events[0]), events[1..]);
    }
  }

  // ---- Theorems --------------------------------------------------------------------

  /** No intent is ever sent to the exchange twice, whatever is retried, lost or crashed. */
  lemma SentAtMostOnce(events: seq<Event>, i: nat, j: nat)
    requires i < j < |Run(INITIAL, events).sent|
    ensures Run(INITIAL, events).sent[i] != Run(INITIAL, events).sent[j]
  {
    RunInv(INITIAL, events);
  }

  /** In every scope at most one reduce-only and one other submission are unsettled. */
  lemma OneUnsettledOfEachKind(events: seq<Event>, a: Id, b: Id)
    requires var s := Run(INITIAL, events);
      && a in s.records && b in s.records && a.scope == b.scope
      && Listed(s.records[a]) && Listed(s.records[b])
      && s.records[a].request.reduceOnly == s.records[b].request.reduceOnly
    ensures a == b
  {
    RunInv(INITIAL, events);
  }

  /** The step settles this submission: certainly refused, or its receipt acknowledged. */
  predicate Settles(s: State, e: Event, id: Id) {
    || (e.Answered? && e.saved && e.answer.CertainFailure? && s.flying == Some(id))
    || (e.Acknowledge? && e.saved && e.id == id)
  }

  /** A listed submission stays listed, under the request it was made with, until it is settled. */
  lemma StepListed(s: State, e: Event, id: Id)
    requires Sound(s.records) && id in s.records && Listed(s.records[id])
    ensures id in Step(s, e).records
    ensures Settles(s, e, id) || (Listed(Step(s, e).records[id]) && Step(s, e).records[id].request == s.records[id].request)
  {
    hide Readable, Blocking;
  }

  /** No step of the run settles this submission. */
  ghost predicate Unsettled(s: State, events: seq<Event>, id: Id)
    decreases |events|
  {
    events == [] || (!Settles(s, events[0], id) && Unsettled(Step(s, events[0]), events[1..], id))
  }

  /**
   What is sent stays listed, with its own reduce-only flag, until it is certainly refused or
   acknowledged; so no second submission of its kind goes out meanwhile.
   */
  lemma {:induction false} SentStaysListed(s: State, events: seq<Event>, id: Id)
    requires Inv(s) && id in s.records && Listed(s.records[id]) && Unsettled(s, events, id)
    ensures var t := Run(s, events);
      id in t.records && Listed(t.records[id]) && t.records[id].request == s.records[id].request
    decreases |events|
  {
    if events != [] {
      hide Step, Distinct, Recorded, OneOfEachKind, Sound;
      StepSent(s, events[0]);
      StepOneOfEach(s, events[0]);
      StepListed(s, events[0], id);
      SentStaysListed(Step(s, events[0]), events[1..], id);
    }
  }

  /** Even a caller that has forgotten an unsettled intent cannot get another of its kind sent. */
  lemma UnsettledIntentBlocks(before: seq<Event>, id: Id, after: seq<Event>, request: Request, write: Write)
    requires var s := Run(INITIAL, before);
      && id in s.records && Listed(s.records[id]) && Unsettled(s, after, id)
      && (!request.reduceOnly || s.records[id].request.reduceOnly)
    ensures var t := Run(Run(INITIAL, before), after);
      Decide(t, id.scope, request, write) != Sent && Step(t, Submit(id.scope, request, write)).sent == t.sent
  {
    RunInv(INITIAL, before);
    SentStaysListed(Run(INITIAL, before), after, id);
  }

  /** The reply says whether the intent was sent. */
  lemma ReplyTellsWhetherSent(s: State, scope: Scope, request: Request, write: Write)
    requires s.flying.None?
    ensures Decide(s, scope, request, write) == Sent <==>
      SubmitOnce(s, scope, request, write).sent == s.sent + [Id(scope, request.link)]
  {
    hide Readable, Blocking;
    assert |s.sent + [Id(scope, request.link)]| == |s.sent| + 1;
  }
}
