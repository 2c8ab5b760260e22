/** Translation of messages between clients and one workspace's daemon: IDs are scoped on the way
    out and unscoped on the way in, at any depth, and nothing else that is not routing changes. */
module Routing {
  import opened VersionedStore
  import opened ScopedId

  /** A JSON value; a record lists its fields in order. */
  datatype Json = Null | Bool(b: bool) | Number(n: real) | String(s: Text) | Array(items: Items) | Record(fields: Fields)
  datatype Items = NoItems | Item(head: Json, tail: Items)
  datatype Fields = NoFields | Field(key: string, value: Json, rest: Fields)

  datatype Direction = In | Out

  const SCOPED := {"agentId", "parentAgentId", "terminalId", "sourceAgentId", "targetAgentId", "callerAgentId"}
  const OPAQUE := {"env", "event", "content", "message", "text", "config", "labels", "request", "pendingPermissions",
                   "resolution", "detail", "state", "data", "arguments", "input", "output", "metadata", "extra", "outputSchema"}
  const LISTED := {"agent", "agents", "terminal", "terminals"}
  const PROJECT := {"projectId", "projectKey"}

  /** The workspace a daemon serves: its name and project, and its own ID for it. */
  datatype Scope = Scope(name: Text, projectRef: Text, localId: Text)

  function Bytes(s: string): Text {
    seq(|s|, i requires 0 <= i < |s| => (s[i] as int % 256) as byte)
  }

  const CREATE := "agent.create.request"

  function Lookup(fields: Fields, key: string): Option<Json> {
    match fields
    case NoFields => None
    case Field(k, value, rest) =>
      var later := Lookup(rest, key);
      if later.Some? then later else if k == key then Some(value) else None
  }

  predicate IsCreate(fields: Fields) {
    Lookup(fields, "type") == Some(String(Bytes(CREATE)))
  }

  predicate IsScoped(key: string, context: string) {
    key in SCOPED || (key == "id" && context in LISTED)
  }

  /** One scoped ID: outward it is scoped, inward it must be this workspace's. */
  function TranslateId(id: Text, scope: Scope, direction: Direction): Option<Json> {
    if direction.Out? then Some(String(Scoped(scope.name, id)))
    else
      var parsed := Parse(id);
      if parsed.None? || parsed.value.workspace != scope.name then None else Some(String(parsed.value.backend))
  }

  function TranslateWorkspace(id: Text, scope: Scope, direction: Direction): Option<Json> {
    if direction.Out? then Some(String(scope.name))
    else if id != scope.name then None else Some(String(scope.localId))
  }

  /** None is a throw. */
  function Translate(value: Json, scope: Scope, direction: Direction, context: string): Option<Json>
    decreases value, 0
  {
    match value
    case Array(items) =>
      var r := TranslateItems(items, scope, direction, context);
      if r.None? then None else Some(Array(r.value))
    case Record(fields) =>
      var r := TranslateFields(fields, scope, direction, context, IsCreate(fields));
      if r.None? then None else Some(Record(r.value))
    case _ => Some(value)
  }

  function TranslateItems(items: Items, scope: Scope, direction: Direction, context: string): Option<Items>
    decreases items, 0
  {
    match items
    case NoItems => Some(NoItems)
    case Item(head, tail) =>
      var h := Translate(head, scope, direction, context);
      var t := TranslateItems(tail, scope, direction, context);
      if h.None? || t.None? then None else Some(Item(h.value, t.value))
  }

  function TranslateFields(fields: Fields, scope: Scope, direction: Direction, context: string, create: bool): Option<Fields>
    decreases fields, 0
  {
    match fields
    case NoFields => Some(NoFields)
    case Field(key, value, rest) =>
      var v := TranslateField(key, value, scope, direction, context, create);
      var r := TranslateFields(rest, scope, direction, context, create);
      if v.None? || r.None? then None else Some(Field(key, v.value, r.value))
  }

  function TranslateField(key: string, value: Json, scope: Scope, direction: Direction, context: string, create: bool): Option<Json>
    decreases value, 1
  {
    if direction.In? && create && key == "agentId" then Some(value)
    else if value.String? && IsScoped(key, context) then TranslateId(value.s, scope, direction)
    else if key == "workspaceId" && value.String? then TranslateWorkspace(value.s, scope, direction)
    else if key in PROJECT && direction.Out? then Some(String(scope.projectRef))
    else if key in OPAQUE then Some(value)
    else Translate(value, scope, direction, key)
  }

  // ----- The type of a record survives -----

  /** Translating keeps the keys, in order, and every field that is not a routing key. */
  lemma {:induction false} TypeKept(fields: Fields, scope: Scope, direction: Direction, context: string, create: bool)
    ensures var r := TranslateFields(fields, scope, direction, context, create);
      r.Some? ==> (IsCreate(r.value) <==> IsCreate(fields))
    ensures var r := TranslateFields(fields, scope, direction, context, create);
      r.Some? ==> (Lookup(r.value, "type").Some? <==> Lookup(fields, "type").Some?)
  {
    match fields
    case NoFields =>
    case Field(key, value, rest) =>
      TypeKept(rest, scope, direction, context, create);
      if key == "type" { TypeFieldKept(value, scope, direction, context, create); }
  }

  /** A type that is text is not touched; any other value stays what it is, text or not. */
  lemma TypeFieldKept(value: Json, scope: Scope, direction: Direction, context: string, create: bool)
    ensures var r := TranslateField("type", value, scope, direction, context, create);
      r.Some? ==> (value.String? <==> r.value.String?) && (value.String? ==> r.value == value)
  {
    assert "type" !in SCOPED && "type" !in PROJECT && "type" != "id" && "type" != "workspaceId" && "type" != "agentId";
  }

  // ----- In, then out -----

  lemma IdThereAndBack(id: Text, scope: Scope)
    requires TranslateId(id, scope, In).Some?
    ensures TranslateId(TranslateId(id, scope, In).value.s, scope, Out) == Some(String(id))
  {
    ScopedParse(id);
  }

  /** What the outward pass gives back as it was: where the walk goes, every project key holds the
      workspace's project already, and every agent ID of a create record is one the outward pass leaves
      alone, so no text. */
  predicate Returns(value: Json, scope: Scope, context: string)
    decreases value, 0
  {
    match value
    case Array(items) => ItemsReturn(items, scope, context)
    case Record(fields) => FieldsReturn(fields, scope, context, IsCreate(fields))
    case _ => true
  }

  predicate ItemsReturn(items: Items, scope: Scope, context: string)
    decreases items, 0
  {
    match items
    case NoItems => true
    case Item(head, tail) => Returns(head, scope, context) && ItemsReturn(tail, scope, context)
  }

  predicate FieldsReturn(fields: Fields, scope: Scope, context: string, create: bool)
    decreases fields, 0
  {
    match fields
    case NoFields => true
    case Field(key, value, rest) => FieldReturns(key, value, scope, context, create) && FieldsReturn(rest, scope, context, create)
  }

  predicate FieldReturns(key: string, value: Json, scope: Scope, context: string, create: bool)
    decreases value, 1
  {
    if create && key == "agentId" then TranslateField(key, value, scope, Out, context, create) == Some(value)
    else if value.String? && (IsScoped(key, context) || key == "workspaceId") then true
    else if key in PROJECT then value == String(scope.projectRef)
    else key in OPAQUE || Returns(value, scope, key)
  }

  /** On every message the inward pass accepts, outward after inward is the identity exactly where
      project keys and the agent IDs of create records allow it. */
  lemma {:induction false} OutAfterInIff(value: Json, scope: Scope, context: string)
    requires Translate(value, scope, In, context).Some?
    ensures Translate(Translate(value, scope, In, context).value, scope, Out, context) == Some(value) <==> Returns(value, scope, context)
    decreases value, 0
  {
    match value
    case Array(items) => OutAfterInItems(items, scope, context);
    case Record(fields) =>
      var create := IsCreate(fields);
      TypeKept(fields, scope, In, context, create);
      OutAfterInFields(fields, scope, context, create);
    case _ =>
  }

  lemma {:induction false} OutAfterInItems(items: Items, scope: Scope, context: string)
    requires TranslateItems(items, scope, In, context).Some?
    ensures TranslateItems(TranslateItems(items, scope, In, context).value, scope, Out, context) == Some(items) <==>
            ItemsReturn(items, scope, context)
    decreases items, 0
  {
    match items
    case NoItems =>
    case Item(head, tail) =>
      OutAfterInIff(head, scope, context);
      OutAfterInItems(tail, scope, context);
      OutSucceeds(Translate(head, scope, In, context).value, scope, context);
      OutItemsSucceed(TranslateItems(tail, scope, In, context).value, scope, context);
  }

  lemma {:induction false} OutAfterInFields(fields: Fields, scope: Scope, context: string, create: bool)
    requires TranslateFields(fields, scope, In, context, create).Some?
    ensures TranslateFields(TranslateFields(fields, scope, In, context, create).value, scope, Out, context, create) == Some(fields) <==>
            FieldsReturn(fields, scope, context, create)
    decreases fields, 0
  {
    match fields
    case NoFields =>
    case Field(key, value, rest) =>
      OutAfterInField(key, value, scope, context, create);
      OutAfterInFields(rest, scope, context, create);
      OutFieldsSucceed(TranslateFields(rest, scope, In, context, create).value, scope, context, create);
  }

  lemma OutAfterInField(key: string, value: Json, scope: Scope, context: string, create: bool)
    requires TranslateField(key, value, scope, In, context, create).Some?
    ensures TranslateField(key, TranslateField(key, value, scope, In, context, create).value, scope, Out, context, create).Some?
    ensures TranslateField(key, TranslateField(key, value, scope, In, context, create).value, scope, Out, context, create) == Some(value) <==>
            FieldReturns(key, value, scope, context, create)
    decreases value, 1
  {
    var inward := TranslateField(key, value, scope, In, context, create).value;
    OutSucceeds(inward, scope, key);
    if create && key == "agentId" {
    } else if value.String? && IsScoped(key, context) {
      IdThereAndBack(value.s, scope);
    } else if key == "workspaceId" && value.String? {
    } else if key !in OPAQUE {
      OutAfterInIff(value, scope, key);
      StringsStay(value, scope, In, key);
    }
  }

  /** Translation makes no value text that was not. */
  lemma StringsStay(value: Json, scope: Scope, direction: Direction, context: string)
    requires Translate(value, scope, direction, context).Some?
    ensures Translate(value, scope, direction, context).value.String? <==> value.String?
  {
  }

  // ----- Out, then in -----

  lemma {:induction false} OutSucceeds(value: Json, scope: Scope, context: string)
    ensures Translate(value, scope, Out, context).Some?
    decreases value, 0
  {
    match value
    case Array(items) => OutItemsSucceed(items, scope, context);
    case Record(fields) => OutFieldsSucceed(fields, scope, context, IsCreate(fields));
    case _ =>
  }

  lemma {:induction false} OutItemsSucceed(items: Items, scope: Scope, context: string)
    ensures TranslateItems(items, scope, Out, context).Some?
    decreases items, 0
  {
    match items
    case NoItems =>
    case Item(head, tail) =>
      OutSucceeds(head, scope, context);
      OutItemsSucceed(tail, scope, context);
  }

  lemma {:induction false} OutFieldsSucceed(fields: Fields, scope: Scope, context: string, create: bool)
    ensures TranslateFields(fields, scope, Out, context, create).Some?
    decreases fields, 0
  {
    match fields
    case NoFields =>
    case Field(key, value, rest) =>
      OutSucceeds(value, scope, key);
      OutFieldsSucceed(rest, scope, context, create);
  }

  /** What the inward pass gives back as it was sent: where the walk goes, every ID is text that can be
      scoped in a named workspace, every workspace ID is the daemon's own, every project key holds the
      workspace's project, and every agent ID of a create record is one the outward pass leaves alone. */
  predicate Homes(value: Json, scope: Scope, context: string)
    decreases value, 0
  {
    match value
    case Array(items) => ItemsHome(items, scope, context)
    case Record(fields) => FieldsHome(fields, scope, context, IsCreate(fields))
    case _ => true
  }

  predicate ItemsHome(items: Items, scope: Scope, context: string)
    decreases items, 0
  {
    match items
    case NoItems => true
    case Item(head, tail) => Homes(head, scope, context) && ItemsHome(tail, scope, context)
  }

  predicate FieldsHome(fields: Fields, scope: Scope, context: string, create: bool)
    decreases fields, 0
  {
    match fields
    case NoFields => true
    case Field(key, value, rest) => FieldHomes(key, value, scope, context, create) && FieldsHome(rest, scope, context, create)
  }

  predicate FieldHomes(key: string, value: Json, scope: Scope, context: string, create: bool)
    decreases value, 1
  {
    if create && key == "agentId" then TranslateField(key, value, scope, Out, context, create) == Some(value)
    else if value.String? && IsScoped(key, context) then Name(scope.name) && value.s != [] && Utf8(value.s)
    else if key == "workspaceId" && value.String? then value.s == scope.localId
    else if key in PROJECT then value == String(scope.projectRef)
    else key in OPAQUE || Homes(value, scope, key)
  }

  /** On every message of a daemon inward after outward is the identity exactly then. */
  lemma {:induction false} InAfterOutIff(value: Json, scope: Scope, context: string)
    ensures Translate(value, scope, Out, context).Some?
    ensures Translate(Translate(value, scope, Out, context).value, scope, In, context) == Some(value) <==> Homes(value, scope, context)
    decreases value, 0
  {
    OutSucceeds(value, scope, context);
    match value
    case Array(items) => InAfterOutItems(items, scope, context);
    case Record(fields) =>
      var create := IsCreate(fields);
      OutFieldsSucceed(fields, scope, context, create);
      TypeKept(fields, scope, Out, context, create);
      InAfterOutFields(fields, scope, context, create);
    case _ =>
  }

  lemma {:induction false} InAfterOutItems(items: Items, scope: Scope, context: string)
    ensures TranslateItems(items, scope, Out, context).Some?
    ensures TranslateItems(TranslateItems(items, scope, Out, context).value, scope, In, context) == Some(items) <==>
            ItemsHome(items, scope, context)
    decreases items, 0
  {
    match items
    case NoItems =>
    case Item(head, tail) =>
      InAfterOutIff(head, scope, context);
      InAfterOutItems(tail, scope, context);
  }

  lemma {:induction false} InAfterOutFields(fields: Fields, scope: Scope, context: string, create: bool)
    ensures TranslateFields(fields, scope, Out, context, create).Some?
    ensures TranslateFields(TranslateFields(fields, scope, Out, context, create).value, scope, In, context, create) == Some(fields) <==>
            FieldsHome(fields, scope, context, create)
    decreases fields, 0
  {
    match fields
    case NoFields =>
    case Field(key, value, rest) =>
      InAfterOutField(key, value, scope, context, create);
      InAfterOutFields(rest, scope, context, create);
  }

  lemma InAfterOutField(key: string, value: Json, scope: Scope, context: string, create: bool)
    ensures TranslateField(key, value, scope, Out, context, create).Some?
    ensures TranslateField(key, TranslateField(key, value, scope, Out, context, create).value, scope, In, context, create) == Some(value) <==>
            FieldHomes(key, value, scope, context, create)
    decreases value, 1
  {
    OutSucceeds(value, scope, key);
    if value.String? && IsScoped(key, context) {
      ParseScoped(scope.name, value.s);
    } else if key == "workspaceId" && value.String? {
    } else if key !in OPAQUE && key !in PROJECT {
      InAfterOutIff(value, scope, key);
      StringsStay(value, scope, Out, key);
    }
  }

  // ----- What does not come back -----

  function IdField(id: Text): Fields {
    Field("agentId", String(id), NoFields)
  }

  lemma IdFieldTranslated(id: Text, scope: Scope, context: string)
    ensures TranslateFields(IdField(id), scope, In, context, true) == Some(IdField(id))
    ensures TranslateFields(IdField(id), scope, Out, context, true) == Some(IdField(Scoped(scope.name, id)))
    ensures Scoped(scope.name, id) != id
  {
    assert TranslateField("agentId", String(id), scope, In, context, true) == Some(String(id));
    assert TranslateField("agentId", String(id), scope, Out, context, true) == Some(String(Scoped(scope.name, id)));
    EncodeLonger(id);
    assert |Scoped(scope.name, id)| == |scope.name| + 1 + |Encode(id)|;
  }

  /** An agent ID chosen by the client on creation is passed in as it is, but would be scoped on the
      way out: for such a record the round trip fails, whatever the ID. */
  lemma CreateIdIsScopedOnReturn(id: Text, scope: Scope)
    ensures var m := Record(Field("type", String(Bytes(CREATE)), IdField(id)));
      Translate(m, scope, In, "") == Some(m) && Translate(m, scope, Out, "").Some? && Translate(m, scope, Out, "") != Some(m)
  {
    var kind := String(Bytes(CREATE));
    var fields := Field("type", kind, IdField(id));
    assert Lookup(IdField(id), "type").None?;
    assert IsCreate(fields);
    IdFieldTranslated(id, scope, "");
    TypeTranslated(kind, id, scope, In);
    TypeTranslated(kind, id, scope, Out);
  }

  lemma TypeTranslated(kind: Json, id: Text, scope: Scope, direction: Direction)
    requires kind.String? && TranslateFields(IdField(id), scope, direction, "", true).Some?
    ensures TranslateFields(Field("type", kind, IdField(id)), scope, direction, "", true) ==
            Some(Field("type", kind, TranslateFields(IdField(id), scope, direction, "", true).value))
  {
    TypeFieldKept(kind, scope, direction, "", true);
    assert TranslateField("type", kind, scope, direction, "", true) == Some(kind);
  }

  lemma {:induction false} EncodeLonger(b: Text)
    ensures |Encode(b)| >= |b|
  {
    if |b| > 2 { EncodeLonger(b[3..]); }
  }
}

/** The slots of a connection: a backend's slot and the client's name for it are in one-to-one
    correspondence for as long as the connection lasts. */
module TerminalSlots {
  import opened VersionedStore

  const SLOTS := 256

  datatype Binding = Binding(workspaceId: string, backendSlot: int)

  class Slots {
    var bindings: map<nat, Binding>

    ghost predicate Valid()
      reads this
    {
      && (forall s :: s in bindings ==> s < SLOTS)
      && (forall s, t :: s in bindings && t in bindings && bindings[s] == bindings[t] ==> s == t)
    }

    constructor ()
      ensures Valid() && bindings == map[]
    {
      bindings := map[];
    }

    /** The slot of a binding, the same every time; a new binding takes the lowest free slot, and
        fails exactly when all are taken. */
    method Outward(workspaceId: string, backendSlot: int) returns (slot: Option<nat>)
      requires Valid()
      modifies this
      ensures Valid()
      ensures slot.None? <==> (forall s :: 0 <= s < SLOTS ==> s in old(bindings)) &&
                              Binding(workspaceId, backendSlot) !in old(bindings).Values
      ensures slot.None? ==> bindings == old(bindings)
      ensures slot.Some? ==> slot.value in bindings && bindings[slot.value] == Binding(workspaceId, backendSlot)
      ensures slot.Some? && slot.value in old(bindings) ==> bindings == old(bindings)
      ensures slot.Some? && slot.value !in old(bindings) ==>
        && bindings == old(bindings)[slot.value := Binding(workspaceId, backendSlot)]
        && (forall s: nat :: s < slot.value ==> s in old(bindings))
    {
      var binding := Binding(workspaceId, backendSlot);
      var known := bindings.Keys;
      while known != {}
        invariant known <= bindings.Keys
        invariant forall s :: s in bindings && s !in known ==> bindings[s] != binding
        decreases |known|
      {
        var s :| s in known;
        if bindings[s] == binding {
          assert binding in bindings.Values;
          return Some(s);
        }
        known := known - {s};
      }
      assert binding !in bindings.Values;
      for s: nat := 0 to SLOTS
        invariant forall t: nat :: t < s ==> t in bindings
        invariant bindings == old(bindings)
      {
        if s !in bindings {
          bindings := bindings[s := binding];
          return Some(s);
        }
      }
      slot := None;
    }

    method Inward(slot: nat) returns (binding: Option<Binding>)
      ensures binding == if slot in bindings then Some(bindings[slot]) else None
    {
      binding := if slot in bindings then Some(bindings[slot]) else None;
    }
  }

  /** What a client sends to a slot goes to the backend slot it was announced for, however many other
      slots were bound since. */
  method OutwardThenInward(slots: Slots, workspaceId: string, backendSlot: int, others: seq<Binding>)
    returns (slot: Option<nat>, back: Option<Binding>)
    requires slots.Valid()
    modifies slots
    ensures slots.Valid() && (slot.Some? ==> back == Some(Binding(workspaceId, backendSlot)))
  {
    slot := slots.Outward(workspaceId, backendSlot);
    for i := 0 to |others|
      invariant slots.Valid()
      invariant slot.Some? ==> slot.value in slots.bindings && slots.bindings[slot.value] == Binding(workspaceId, backendSlot)
    {
      var _ := slots.Outward(others[i].workspaceId, others[i].backendSlot);
    }
    if slot.None? { return None, None; }
    back := slots.Inward(slot.value);
  }
}
