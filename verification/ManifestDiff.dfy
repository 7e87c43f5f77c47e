/** Comparing the manifest of an installed plugin with an incoming one. */
module ManifestDiff {
  import opened Common

  datatype Params =
    | ShowInfo(heading: string, text: string)
    | OpenPage(destination: string)
    | ComputeSeries(runtime: string, abi: string, moduleBase64: string,
                    caption: string, initial: real, min: real, max: real)
    | AccountWorkflow(runtime: string, abi: string, moduleBase64: string, defaultInput: string)
    | Strategy(runtime: string, abi: string, moduleBase64: string, defaultInput: string)

  /** The action id of a command is the constructor of its parameters. */
  datatype Command = Command(kind: string, id: string, title: string, params: Params)

  datatype Manifest = Manifest(
    schemaVersion: nat, id: string, publisherId: string, publisher: string, name: string,
    description: string, version: string, requestedCapabilities: seq<string>, contributions: seq<Command>)

  datatype Field = SchemaVersion | PublisherId | Publisher | Name | Description | Version | RequestedCapabilities

  const FIELD_ORDER := [SchemaVersion, PublisherId, Publisher, Name, Description, Version, RequestedCapabilities]

  datatype Diff = Diff(
    changedFields: seq<Field>,
    added: seq<Command>,
    removed: seq<Command>,
    changed: seq<(Command, Command)>,
    orderChanged: bool,
    sameContent: bool,
    publisherIdChanged: bool)

  // ---- The comparison -----------------------------------------------------------

  predicate CapabilitiesEqual(a: seq<string>, b: seq<string>) {
    |a| == |b| && forall i :: 0 <= i < |a| ==> a[i] == b[i]
  }

  predicate FieldChanged(f: Field, a: Manifest, b: Manifest) {
    match f
    case SchemaVersion => a.schemaVersion != b.schemaVersion
    case PublisherId => a.publisherId != b.publisherId
    case Publisher => a.publisher != b.publisher
    case Name => a.name != b.name
    case Description => a.description != b.description
    case Version => a.version != b.version
    case RequestedCapabilities => !CapabilitiesEqual(a.requestedCapabilities, b.requestedCapabilities)
  }

  predicate SameAction(a: Params, b: Params) {
    match a
    case ShowInfo(_, _) => b.ShowInfo?
    case OpenPage(_) => b.OpenPage?
    case ComputeSeries(_, _, _, _, _, _, _) => b.ComputeSeries?
    case AccountWorkflow(_, _, _, _) => b.AccountWorkflow?
    case Strategy(_, _, _, _) => b.Strategy?
  }

  predicate CommandEqual(a: Command, b: Command) {
    && a.kind == b.kind && a.id == b.id && a.title == b.title && SameAction(a.params, b.params)
    && match a.params
       case ShowInfo(heading, text) => heading == b.params.heading && text == b.params.text
       case OpenPage(destination) => destination == b.params.destination
       case ComputeSeries(runtime, abi, moduleBase64, caption, initial, min, max) =>
         && runtime == b.params.runtime && abi == b.params.abi && moduleBase64 == b.params.moduleBase64
         && caption == b.params.caption && initial == b.params.initial && min == b.params.min && max == b.params.max
       case AccountWorkflow(runtime, abi, moduleBase64, input) =>
         && runtime == b.params.runtime && abi == b.params.abi
         && moduleBase64 == b.params.moduleBase64 && input == b.params.defaultInput
       case Strategy(runtime, abi, moduleBase64, input) =>
         && runtime == b.params.runtime && abi == b.params.abi
         && moduleBase64 == b.params.moduleBase64 && input == b.params.defaultInput
  }

  /** Commands by id; a later one with the same id replaces an earlier one. */
  function ById(commands: seq<Command>): map<string, Command> {
    if commands == [] then map[]
    else
      var last := commands[|commands| - 1];
      ById(commands[..|commands| - 1])[last.id := last]
  }

  function ChangedFields(fields: seq<Field>, a: Manifest, b: Manifest): seq<Field> {
    if fields == [] then []
    else
      var rest := ChangedFields(fields[1..], a, b);
      if FieldChanged(fields[0], a, b) then [fields[0]] + rest else rest
  }

  function Missing(commands: seq<Command>, other: map<string, Command>): seq<Command> {
    if commands == [] then []
    else
      var rest := Missing(commands[1..], other);
      if commands[0].id in other then rest else [commands[0]] + rest
  }

  function CommonIds(commands: seq<Command>, other: map<string, Command>): seq<string> {
    if commands == [] then []
    else
      var rest := CommonIds(commands[1..], other);
      if commands[0].id in other then [commands[0].id] + rest else rest
  }

  function Changed(before: map<string, Command>, incoming: seq<Command>): seq<(Command, Command)> {
    if incoming == [] then []
    else
      var after := incoming[0];
      var rest := Changed(before, incoming[1..]);
      if after.id in before && !CommandEqual(before[after.id], after) then [(before[after.id], after)] + rest else rest
  }

  /** Nothing, for manifests of different plugins: the original refuses to compare them. */
  function Compare(current: Manifest, incoming: Manifest): Option<Diff> {
    if current.id != incoming.id then None
    else
      var currentById, incomingById := ById(current.contributions), ById(incoming.contributions);
      var changedFields := ChangedFields(FIELD_ORDER, current, incoming);
      var added := Missing(incoming.contributions, currentById);
      var removed := Missing(current.contributions, incomingById);
      var changed := Changed(currentById, incoming.contributions);
      var orderChanged :=
        CommonIds(current.contributions, incomingById) != CommonIds(incoming.contributions, currentById);
      Some(Diff(changedFields, added, removed, changed, orderChanged,
                changedFields == [] && added == [] && removed == [] && changed == [] && !orderChanged,
                current.publisherId != incoming.publisherId))
  }

  /** How an import checks that the manifest it was shown is the one it commits. */
  predicate ManifestsMatch(a: Manifest, b: Manifest) {
    && a.schemaVersion == b.schemaVersion && a.id == b.id && a.publisherId == b.publisherId
    && a.publisher == b.publisher && a.name == b.name && a.description == b.description
    && a.version == b.version && a.contributions == b.contributions
    && a.requestedCapabilities == b.requestedCapabilities
  }

  // ---- Lists ---------------------------------------------------------------------

  predicate UniqueIds(commands: seq<Command>) {
    forall i, j :: 0 <= i < j < |commands| ==> commands[i].id != commands[j].id
  }

  /** Commands with the same id are the same command; unique ids are the case the parser admits. */
  predicate SameIdSameCommand(commands: seq<Command>) {
    forall i, j :: 0 <= i < |commands| && 0 <= j < |commands| && commands[i].id == commands[j].id ==>
      commands[i] == commands[j]
  }

  lemma UniqueIdsSuffice(commands: seq<Command>)
    requires UniqueIds(commands)
    ensures SameIdSameCommand(commands)
  {
    forall i, j | 0 <= i < |commands| && 0 <= j < |commands| && commands[i].id == commands[j].id
      ensures i == j
    {
    }
  }

  /** The index holds each command exactly if no id is shared by different ones. */
  lemma ByIdExact(commands: seq<Command>)
    ensures forall i :: 0 <= i < |commands| ==> commands[i].id in ById(commands)
    ensures SameIdSameCommand(commands) <==>
      forall i :: 0 <= i < |commands| ==> ById(commands)[commands[i].id] == commands[i]
  {
    ByIdHolds(commands);
    hide ById;
    if SameIdSameCommand(commands) {
      forall i | 0 <= i < |commands|
        ensures ById(commands)[commands[i].id] == commands[i]
      {
        var k :| 0 <= k < |commands| && commands[k] == ById(commands)[commands[i].id] && commands[k].id == commands[i].id;
      }
    }
  }

  lemma {:induction false} ByIdHolds(commands: seq<Command>)
    ensures forall id :: id in ById(commands) ==> exists i :: 0 <= i < |commands| && commands[i] == ById(commands)[id]
                                                           && commands[i].id == id
    ensures forall i :: 0 <= i < |commands| ==> commands[i].id in ById(commands)
    ensures UniqueIds(commands) ==> forall i :: 0 <= i < |commands| ==> ById(commands)[commands[i].id] == commands[i]
  {
    if commands != [] {
      var front := commands[..|commands| - 1];
      ByIdHolds(front);
      assert forall i :: 0 <= i < |front| ==> front[i] == commands[i];
    }
  }

  lemma {:induction false} MissingNone(commands: seq<Command>, other: map<string, Command>)
    ensures Missing(commands, other) == [] <==> forall i :: 0 <= i < |commands| ==> commands[i].id in other
    ensures Missing(commands, other) == [] ==> CommonIds(commands, other) == Ids(commands)
  {
    if commands != [] {
      MissingNone(commands[1..], other);
      assert forall i :: 0 < i < |commands| ==> commands[i] == commands[1..][i - 1];
    }
  }

  function Ids(commands: seq<Command>): seq<string> {
    if commands == [] then [] else [commands[0].id] + Ids(commands[1..])
  }

  lemma {:induction false} IdsAt(commands: seq<Command>)
    ensures |Ids(commands)| == |commands|
    ensures forall i :: 0 <= i < |commands| ==> Ids(commands)[i] == commands[i].id
  {
    if commands != [] { IdsAt(commands[1..]); }
  }

  lemma CommandEqualIsEquality(a: Command, b: Command)
    ensures CommandEqual(a, b) <==> a == b
  {
  }

  lemma {:induction false} ChangedNone(before: map<string, Command>, incoming: seq<Command>)
    ensures Changed(before, incoming) == [] <==>
      forall i :: 0 <= i < |incoming| && incoming[i].id in before ==> before[incoming[i].id] == incoming[i]
  {
    if incoming != [] {
      ChangedNone(before, incoming[1..]);
      if incoming[0].id in before { CommandEqualIsEquality(before[incoming[0].id], incoming[0]); }
      assert forall i :: 0 < i < |incoming| ==> incoming[i] == incoming[1..][i - 1];
    }
  }

  lemma FieldsNone(a: Manifest, b: Manifest)
    ensures ChangedFields(FIELD_ORDER, a, b) == [] <==>
      && a.schemaVersion == b.schemaVersion && a.publisherId == b.publisherId && a.publisher == b.publisher
      && a.name == b.name && a.description == b.description && a.version == b.version
      && a.requestedCapabilities == b.requestedCapabilities
  {
    ChangedNoField(FIELD_ORDER, a, b);
    assert FIELD_ORDER[0] == SchemaVersion && FIELD_ORDER[1] == PublisherId && FIELD_ORDER[2] == Publisher
        && FIELD_ORDER[3] == Name && FIELD_ORDER[4] == Description && FIELD_ORDER[5] == Version
        && FIELD_ORDER[6] == RequestedCapabilities;
    hide ChangedFields;
  }

  lemma {:induction false} ChangedNoField(fields: seq<Field>, a: Manifest, b: Manifest)
    ensures ChangedFields(fields, a, b) == [] <==>
      forall i :: 0 <= i < |fields| ==> !FieldChanged(fields[i], a, b)
  {
    if fields != [] {
      ChangedNoField(fields[1..], a, b);
      assert forall i :: 0 < i < |fields| ==> fields[i] == fields[1..][i - 1];
    }
  }

  // ---- Theorems --------------------------------------------------------------------

  lemma SameCommands(current: seq<Command>, incoming: seq<Command>)
    requires SameIdSameCommand(current)
    ensures current == incoming <==>
      && Missing(incoming, ById(current)) == []
      && Missing(current, ById(incoming)) == []
      && Changed(ById(current), incoming) == []
      && CommonIds(current, ById(incoming)) == CommonIds(incoming, ById(current))
  {
    var before, after := ById(current), ById(incoming);
    ByIdExact(current);
    ByIdExact(incoming);
    MissingNone(incoming, before);
    MissingNone(current, after);
    ChangedNone(before, incoming);
    IdsAt(current);
    IdsAt(incoming);
    hide ById, Missing, Changed, CommonIds, Ids;
    if Missing(incoming, before) == [] && Missing(current, after) == [] && Changed(before, incoming) == []
       && CommonIds(current, after) == CommonIds(incoming, before) {
      assert |current| == |incoming|;
      forall i | 0 <= i < |current|
        ensures current[i] == incoming[i]
      {
        assert Ids(current)[i] == Ids(incoming)[i];
        assert incoming[i].id in before && before[incoming[i].id] == incoming[i];
      }
    }
  }

  /** The content is called the same exactly when the manifests are equal, and exactly when they match. */
  lemma SameContentIff(current: Manifest, incoming: Manifest)
    requires current.id == incoming.id && SameIdSameCommand(current.contributions)
    ensures Compare(current, incoming).Some?
    ensures Compare(current, incoming).value.sameContent <==> current == incoming
    ensures Compare(current, incoming).value.sameContent <==> ManifestsMatch(current, incoming)
  {
    FieldsNone(current, incoming);
    SameCommands(current.contributions, incoming.contributions);
    hide ById, Missing, Changed, CommonIds, ChangedFields;
  }

  /** A manifest is the same content as itself only if no id is shared by different commands. */
  lemma SameAsItself(m: Manifest)
    requires Compare(m, m).Some? && Compare(m, m).value.sameContent
    ensures SameIdSameCommand(m.contributions)
  {
    ByIdExact(m.contributions);
    ChangedNone(ById(m.contributions), m.contributions);
    hide ById, Missing, Changed, CommonIds, ChangedFields;
  }

  /** The comparison with a manifest decides equality for every incoming one exactly under that condition. */
  lemma ComparisonDecidesEqualityIff(current: Manifest)
    ensures SameIdSameCommand(current.contributions) <==>
      forall incoming: Manifest | incoming.id == current.id ::
        Compare(current, incoming).Some? && (Compare(current, incoming).value.sameContent <==> current == incoming)
  {
    hide Compare, SameIdSameCommand;
    if SameIdSameCommand(current.contributions) {
      forall incoming: Manifest | incoming.id == current.id
        ensures Compare(current, incoming).Some?
        ensures Compare(current, incoming).value.sameContent <==> current == incoming
      {
        SameContentIff(current, incoming);
      }
    } else {
      DifferentFromItself(current);
    }
  }

  lemma DifferentFromItself(m: Manifest)
    requires !SameIdSameCommand(m.contributions)
    ensures Compare(m, m).Some? && !Compare(m, m).value.sameContent
  {
    if Compare(m, m).value.sameContent {
      SameAsItself(m);
      assert false;
    }
  }

  // ---- The diff is complete ------------------------------------------------------------

  function Afters(changed: seq<(Command, Command)>): seq<Command> {
    if changed == [] then [] else [changed[0].1] + Afters(changed[1..])
  }

  function IdSet(commands: seq<Command>): set<string> {
    set i | 0 <= i < |commands| :: commands[i].id
  }

  lemma {:induction false} MissingHolds(commands: seq<Command>, other: map<string, Command>)
    ensures forall c :: c in Missing(commands, other) <==> c in commands && c.id !in other
  {
    if commands != [] {
      MissingHolds(commands[1..], other);
      assert commands == [commands[0]] + commands[1..];
    }
  }

  lemma {:induction false} ChangedHolds(before: map<string, Command>, incoming: seq<Command>)
    ensures forall c :: c in Afters(Changed(before, incoming)) <==>
      c in incoming && c.id in before && before[c.id] != c
  {
    if incoming != [] {
      ChangedHolds(before, incoming[1..]);
      if incoming[0].id in before { CommandEqualIsEquality(before[incoming[0].id], incoming[0]); }
      assert incoming == [incoming[0]] + incoming[1..];
    }
  }

  /** Without shared ids a list of commands is its index. */
  lemma Indexed(commands: seq<Command>)
    requires SameIdSameCommand(commands)
    ensures forall c :: c in commands <==> c.id in ById(commands) && ById(commands)[c.id] == c
    ensures forall id :: id in ById(commands) ==> ById(commands)[id].id == id
  {
    ByIdHolds(commands);
    ByIdExact(commands);
    hide ById;
    forall c: Command | c.id in ById(commands) && ById(commands)[c.id] == c
      ensures c in commands
    {
      var i :| 0 <= i < |commands| && commands[i] == ById(commands)[c.id] && commands[i].id == c.id;
    }
  }

  lemma IdSetHolds(commands: seq<Command>, id: string)
    ensures id in IdSet(commands) <==> exists c :: c in commands && c.id == id
  {
    if id in IdSet(commands) {
      var i :| 0 <= i < |commands| && commands[i].id == id;
      assert commands[i] in commands;
    }
  }

  /** The ids of the replacements are those whose command differs. */
  lemma ReplacedIds(before: map<string, Command>, incoming: seq<Command>, id: string)
    requires SameIdSameCommand(incoming)
    ensures id in IdSet(Afters(Changed(before, incoming))) <==>
      id in before && id in ById(incoming) && before[id] != ById(incoming)[id]
  {
    var afters := Afters(Changed(before, incoming));
    Indexed(incoming);
    ChangedHolds(before, incoming);
    IdSetHolds(afters, id);
    hide ById, Changed, Afters, IdSet;
    if id in before && id in ById(incoming) && before[id] != ById(incoming)[id] {
      assert ById(incoming)[id] in afters;
    }
  }

  /** Removing, adding and replacing what the diff lists turns the current commands into the incoming ones. */
  lemma DiffIsComplete(current: Manifest, incoming: Manifest, c: Command)
    requires current.id == incoming.id
    requires SameIdSameCommand(current.contributions) && SameIdSameCommand(incoming.contributions)
    ensures Compare(current, incoming).Some?
    ensures var d := Compare(current, incoming).value;
      c in incoming.contributions <==>
        || c in d.added
        || c in Afters(d.changed)
        || (c in current.contributions && c !in d.removed && c.id !in IdSet(Afters(d.changed)))
  {
    var before, after := ById(current.contributions), ById(incoming.contributions);
    Indexed(current.contributions);
    Indexed(incoming.contributions);
    MissingHolds(incoming.contributions, before);
    MissingHolds(current.contributions, after);
    ChangedHolds(before, incoming.contributions);
    ReplacedIds(before, incoming.contributions, c.id);
    hide ById, Missing, Changed, Afters, ChangedFields, CommonIds, IdSet, SameIdSameCommand;
  }
}
