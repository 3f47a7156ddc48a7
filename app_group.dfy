/**
 * The app-group record table of the app-group credential backend
 * (builtin/credential/appgroup/path_group.go).
 *
 * A group is a record (groupStorageEntry) stored under "group/" followed by the
 * lower-cased group name. Its handlers create or update a whole record, update
 * or read one field of an existing record, read the record and delete it.
 * Every record that reaches storage keeps TTL <= MaxTTL.
 *
 * The pure functions CreateOrUpdate, UpdateField, DeleteGroup, ReadGroup and
 * ReadField say what each handler does to the table and what it replies; the
 * class GroupBackend holds the table and runs the handlers step by step, and
 * each handler method is proved to match its function.
 */
module AppGroup {
  import opened Wrappers
  import opened GoInt
  import opened GoStrings

  // ---------------------------------------------------------------------------
  // The stored record

  /** groupStorageEntry. TTL, MaxTTL and Wrapped are time.Duration values (nanoseconds). */
  datatype GroupEntry = GroupEntry(
    apps: seq<string>,
    additionalPolicies: seq<string>,
    numUses: int64,
    ttl: int64,
    maxTTL: int64,
    wrapped: int64)

  /** The zero record that a create starts from. */
  const EMPTY_ENTRY := GroupEntry([], [], 0, 0, 0, 0)

  /** The six fields of a record, each with its own update and read handler. */
  datatype Field = Apps | AdditionalPolicies | NumUses | TTL | MaxTTL | Wrapped

  /** The value of one field: a list of names, a count, or a duration. */
  datatype FieldValue = Names(names: seq<string>) | Count(count: int64) | Span(span: int64)

  predicate HasKind(f: Field, v: FieldValue)
  {
    match f
    case Apps | AdditionalPolicies => v.Names?
    case NumUses => v.Count?
    case TTL | MaxTTL | Wrapped => v.Span?
  }

  function Get(g: GroupEntry, f: Field): (v: FieldValue)
    ensures HasKind(f, v)
  {
    match f
    case Apps => Names(g.apps)
    case AdditionalPolicies => Names(g.additionalPolicies)
    case NumUses => Count(g.numUses)
    case TTL => Span(g.ttl)
    case MaxTTL => Span(g.maxTTL)
    case Wrapped => Span(g.wrapped)
  }

  function Set(g: GroupEntry, f: Field, v: FieldValue): GroupEntry
    requires HasKind(f, v)
  {
    match f
    case Apps => g.(apps := v.names)
    case AdditionalPolicies => g.(additionalPolicies := v.names)
    case NumUses => g.(numUses := v.count)
    case TTL => g.(ttl := v.span)
    case MaxTTL => g.(maxTTL := v.span)
    case Wrapped => g.(wrapped := v.span)
  }

  /** Setting one field changes that field to the new value and no other field. */
  lemma GetSet(g: GroupEntry, f: Field, v: FieldValue, f': Field)
    requires HasKind(f, v)
    ensures Get(Set(g, f, v), f') == if f' == f then v else Get(g, f')
  {
  }

  /** Every stored record keeps its TTL at most its MaxTTL. */
  predicate Bounded(entries: map<string, GroupEntry>)
  {
    forall k :: k in entries ==> entries[k].ttl <= entries[k].maxTTL
  }

  // ---------------------------------------------------------------------------
  // Requests, as the framework's FieldData hands them to a handler

  /** A request or response value: a string, an integer, or a list of strings. */
  datatype Value = Str(s: string) | Num(n: int) | List(items: seq<string>)

  lemma BoundedInsert(entries: map<string, GroupEntry>, key: string, g: GroupEntry)
    requires Bounded(entries) && g.ttl <= g.maxTTL
    ensures Bounded(entries[key := g])
  {
  }

  /** The fields a caller supplied, by name. */
  type Request = map<string, Value>

  datatype FieldType = TypeString | TypeInt | TypeDurationSecond

  predicate Fits(v: Value, t: FieldType)
  {
    if t == TypeString then v.Str? else v.Num? && MIN_INT64 <= v.n <= MAX_INT64
  }

  /** The framework passes on only declared fields, each parsed to its declared type. */
  predicate Conforms(req: Request, schema: map<string, FieldType>)
  {
    forall k :: k in req ==> k in schema && Fits(req[k], schema[k])
  }

  /** The name under which the schema declares the use count. */
  const NUM_USES_KEY := "num-uses"

  /** The name under which the handlers look the use count up. */
  const NUM_USES_KEY_AS_WRITTEN := "num_uses"

  /** The request field a record field is read from; the use count's name is a parameter. */
  function RequestKey(f: Field, numUsesKey: string): string
  {
    match f
    case Apps => "apps"
    case AdditionalPolicies => "additional_policies"
    case NumUses => numUsesKey
    case TTL => "ttl"
    case MaxTTL => "max_ttl"
    case Wrapped => "wrapped"
  }

  /** The struct tag a field is reported under, also used in the "missing ..." messages. */
  function ResponseKey(f: Field): string
  {
    match f
    case Apps => "apps"
    case AdditionalPolicies => "additional_policies"
    case NumUses => "num_uses"
    case TTL => "ttl"
    case MaxTTL => "max_ttl"
    case Wrapped => "wrapped"
  }

  function TypeOf(f: Field): FieldType
  {
    match f
    case Apps | AdditionalPolicies => TypeString
    case NumUses => TypeInt
    case TTL | MaxTTL | Wrapped => TypeDurationSecond
  }

  /** The fields of the "group/<group_name>" path. */
  const GROUP_FIELDS: map<string, FieldType> := map[
    "group_name" := TypeString,
    "apps" := TypeString,
    "additional_policies" := TypeString,
    NUM_USES_KEY := TypeInt,
    "ttl" := TypeDurationSecond,
    "max_ttl" := TypeDurationSecond,
    "wrapped" := TypeDurationSecond]

  /** The fields of the "group/<group_name>/<field>" path of one record field. */
  function FieldSchema(f: Field): map<string, FieldType>
  {
    map["group_name" := TypeString, RequestKey(f, NUM_USES_KEY) := TypeOf(f)]
  }

  /** data.Get("group_name").(string): the empty string when not supplied. */
  function GroupName(req: Request): string
  {
    if "group_name" in req && req["group_name"].Str? then req["group_name"].s else ""
  }

  /** The storage key of a group: "group/" + strings.ToLower(name). */
  function Key(name: string): string
  {
    "group/" + ToLower(name)
  }

  // The two coercions below stand for the handlers' type assertions
  // (raw.(string), raw.(int)); Conforms makes their fallback unreachable.

  function StrOf(v: Value): string
  {
    if v.Str? then v.s else ""
  }

  function IntOf(v: Value): int64
  {
    if v.Num? && MIN_INT64 <= v.n <= MAX_INT64 then v.n else 0
  }

  /** How a supplied request value is stored in a field. */
  function Converted(f: Field, v: Value, parse: string -> seq<string>): (r: FieldValue)
    ensures HasKind(f, r)
    ensures f == Apps ==> r.Names? && forall i :: 0 <= i < |r.names| ==> ',' !in r.names[i]
    ensures f == NumUses && v.Num? && MIN_INT64 <= v.n <= MAX_INT64 ==> r == Count(v.n)
    ensures (f == TTL || f == MaxTTL || f == Wrapped) && v.Num? && -MAX_SECONDS <= v.n <= MAX_SECONDS ==>
              r == Span(v.n * SECOND)
  {
    match f
    case Apps => Names(Split(StrOf(v), ','))
    case AdditionalPolicies => Names(parse(StrOf(v)))
    case NumUses => Count(IntOf(v))
    case TTL | MaxTTL | Wrapped => Span(FromSeconds(IntOf(v)))
  }

  /** One "update only if value is supplied" step of a create or update. */
  function Assign(g: GroupEntry, f: Field, req: Request, parse: string -> seq<string>, numUsesKey: string): (r: GroupEntry)
    ensures RequestKey(f, numUsesKey) !in req ==> r == g
    ensures RequestKey(f, numUsesKey) in req ==> Get(r, f) == Converted(f, req[RequestKey(f, numUsesKey)], parse)
    ensures forall f' :: f' != f ==> Get(r, f') == Get(g, f')
  {
    var key := RequestKey(f, numUsesKey);
    if key in req then Set(g, f, Converted(f, req[key], parse)) else g
  }

  /** The record a create or update builds: the supplied fields over the base record. */
  function Merged(base: GroupEntry, req: Request, parse: string -> seq<string>, numUsesKey: string): (r: GroupEntry)
    ensures forall f :: RequestKey(f, numUsesKey) !in req ==> Get(r, f) == Get(base, f)
    ensures forall f :: RequestKey(f, numUsesKey) in req ==> Get(r, f) == Converted(f, req[RequestKey(f, numUsesKey)], parse)
  {
    var g1 := Assign(base, Apps, req, parse, numUsesKey);
    var g2 := Assign(g1, AdditionalPolicies, req, parse, numUsesKey);
    var g3 := Assign(g2, NumUses, req, parse, numUsesKey);
    var g4 := Assign(g3, TTL, req, parse, numUsesKey);
    var g5 := Assign(g4, MaxTTL, req, parse, numUsesKey);
    Assign(g5, Wrapped, req, parse, numUsesKey)
  }

  /** Six "update only if supplied" steps, in the handler's order, build the merged record. */
  lemma MergedInSteps(g0: GroupEntry, g1: GroupEntry, g2: GroupEntry, g3: GroupEntry, g4: GroupEntry, g5: GroupEntry,
                      req: Request, parse: string -> seq<string>, numUsesKey: string)
    requires g1 == Assign(g0, Apps, req, parse, numUsesKey)
    requires g2 == Assign(g1, AdditionalPolicies, req, parse, numUsesKey)
    requires g3 == Assign(g2, NumUses, req, parse, numUsesKey)
    requires g4 == Assign(g3, TTL, req, parse, numUsesKey)
    requires g5 == Assign(g4, MaxTTL, req, parse, numUsesKey)
    ensures Merged(g0, req, parse, numUsesKey) == Assign(g5, Wrapped, req, parse, numUsesKey)
    ensures Merged(g0, req, parse, numUsesKey).ttl == g5.ttl
    ensures Merged(g0, req, parse, numUsesKey).maxTTL == g5.maxTTL
  {
  }

  // ---------------------------------------------------------------------------
  // Handler outcomes

  /** Whether the storage backend fails on this request: its Get (or the JSON decode), or its Put or Delete. */
  datatype Fault = NoFault | ReadFault(error: string) | WriteFault(error: string)

  /** What a handler returns: (nil, nil), an error response, (nil, err), or a response with data. */
  datatype Reply = NoReply | ErrorReply(message: string) | Failure(error: string) | DataReply(data: map<string, Value>)

  /** A handler's reply together with the table it leaves behind. */
  datatype Effect = Effect(reply: Reply, entries: map<string, GroupEntry>)

  /** What groupEntry returns. */
  datatype Load = LoadError(error: string) | Absent | Present(entry: GroupEntry)

  const MISSING_GROUP_NAME := "missing group_name"
  const TTL_ABOVE_MAX_TTL := "ttl should not be greater than max_ttl"
  const MAX_TTL_BELOW_TTL := "max_ttl should be greater than ttl"

  /** The message a per-field update of TTL or MaxTTL gives when the result has TTL above MaxTTL. */
  function BoundMessage(f: Field): string
  {
    if f == TTL then TTL_ABOVE_MAX_TTL else MAX_TTL_BELOW_TTL
  }

  /** The stored record of a group, or the zero record when there is none. */
  function Stored(entries: map<string, GroupEntry>, name: string): GroupEntry
  {
    if Key(name) in entries then entries[Key(name)] else EMPTY_ENTRY
  }

  /** The early returns that the per-field and read handlers share. */
  function Prologue(entries: map<string, GroupEntry>, name: string, fault: Fault): Option<Reply>
  {
    if name == "" then Some(ErrorReply(MISSING_GROUP_NAME))
    else if fault.ReadFault? then Some(Failure(fault.error))
    else if Key(name) !in entries then Some(NoReply)
    else None
  }

  /** setGroupEntry followed by "return nil, err". */
  function Write(entries: map<string, GroupEntry>, name: string, g: GroupEntry, fault: Fault): Effect
  {
    if fault.WriteFault? then Effect(Failure(fault.error), entries)
    else Effect(NoReply, entries[Key(name) := g])
  }

  /** pathGroupCreateUpdate. */
  function CreateOrUpdate(entries: map<string, GroupEntry>, req: Request, fault: Fault,
                          parse: string -> seq<string>, numUsesKey: string): (e: Effect)
    ensures e.reply != NoReply ==> e.entries == entries
    ensures e.entries.Keys <= entries.Keys + {Key(GroupName(req))}
    ensures forall k :: k in entries && k != Key(GroupName(req)) ==> k in e.entries && e.entries[k] == entries[k]
  {
    var name := GroupName(req);
    if name == "" then Effect(ErrorReply(MISSING_GROUP_NAME), entries)
    else if fault.ReadFault? then Effect(Failure(fault.error), entries)
    else
      var g := Merged(Stored(entries, name), req, parse, numUsesKey);
      if g.ttl > g.maxTTL then Effect(ErrorReply(TTL_ABOVE_MAX_TTL), entries)
      else Write(entries, name, g, fault)
  }

  /** pathGroupAppsUpdate, ..., pathGroupWrappedUpdate: the update handler of field f. */
  function UpdateField(entries: map<string, GroupEntry>, f: Field, req: Request, fault: Fault,
                       parse: string -> seq<string>, numUsesKey: string): (e: Effect)
    ensures e.entries.Keys == entries.Keys
    ensures e.reply != NoReply ==> e.entries == entries
    ensures forall k :: k in entries && k != Key(GroupName(req)) ==> e.entries[k] == entries[k]
  {
    var name := GroupName(req);
    var early := Prologue(entries, name, fault);
    var key := RequestKey(f, numUsesKey);
    if early.Some? then Effect(early.value, entries)
    else if key !in req then Effect(ErrorReply("missing " + ResponseKey(f)), entries)
    else
      var g := Set(entries[Key(name)], f, Converted(f, req[key], parse));
      if (f == TTL || f == MaxTTL) && g.ttl > g.maxTTL then Effect(ErrorReply(BoundMessage(f)), entries)
      else Write(entries, name, g, fault)
  }

  /** pathGroupDelete. */
  function DeleteGroup(entries: map<string, GroupEntry>, req: Request, fault: Fault): (e: Effect)
    ensures e.reply == NoReply <==> GroupName(req) != "" && !fault.WriteFault?
    ensures e.reply != NoReply ==> e.entries == entries
    ensures e.reply == NoReply ==> e.entries.Keys == entries.Keys - {Key(GroupName(req))}
    ensures forall k :: k in e.entries ==> k in entries && e.entries[k] == entries[k]
  {
    var name := GroupName(req);
    if name == "" then Effect(ErrorReply(MISSING_GROUP_NAME), entries)
    else if fault.WriteFault? then Effect(Failure(fault.error), entries)
    else Effect(NoReply, entries - {Key(name)})
  }

  /** structs.New(group).Map(): the record's fields under their struct tags, as they are. */
  function StructMap(g: GroupEntry): map<string, Value>
  {
    map[
      "apps" := List(g.apps),
      "additional_policies" := List(g.additionalPolicies),
      "num_uses" := Num(g.numUses),
      "ttl" := Num(g.ttl),
      "max_ttl" := Num(g.maxTTL),
      "wrapped" := Num(g.wrapped)]
  }

  /** The copy a read reports: every duration divided by time.Second. */
  function InSeconds(g: GroupEntry): GroupEntry
  {
    g.(ttl := ToSeconds(g.ttl), maxTTL := ToSeconds(g.maxTTL), wrapped := ToSeconds(g.wrapped))
  }

  /** pathGroupRead. */
  function ReadGroup(entries: map<string, GroupEntry>, req: Request, fault: Fault): (r: Reply)
    ensures r.DataReply? <==> GroupName(req) != "" && !fault.ReadFault? && Key(GroupName(req)) in entries
    ensures r.DataReply? ==> r.data.Keys == {"apps", "additional_policies", "num_uses", "ttl", "max_ttl", "wrapped"}
    ensures GroupName(req) != "" && !fault.ReadFault? && Key(GroupName(req)) !in entries ==> r == NoReply
  {
    var name := GroupName(req);
    var early := Prologue(entries, name, fault);
    if early.Some? then early.value else DataReply(StructMap(InSeconds(entries[Key(name)])))
  }

  /** How a per-field read reports a field: lists and counts as stored, durations in seconds. */
  function FieldView(g: GroupEntry, f: Field): Value
  {
    match Get(g, f)
    case Names(n) => List(n)
    case Count(c) => Num(c)
    case Span(d) => Num(ToSeconds(d))
  }

  /** pathGroupAppsRead, ..., pathGroupWrappedRead: the read handler of field f. */
  function ReadField(entries: map<string, GroupEntry>, f: Field, req: Request, fault: Fault): (r: Reply)
    ensures r.DataReply? <==> GroupName(req) != "" && !fault.ReadFault? && Key(GroupName(req)) in entries
    ensures r.DataReply? ==> r.data.Keys == {ResponseKey(f)}
    ensures GroupName(req) != "" && !fault.ReadFault? && Key(GroupName(req)) !in entries ==> r == NoReply
  {
    var name := GroupName(req);
    var early := Prologue(entries, name, fault);
    if early.Some? then early.value else DataReply(map[ResponseKey(f) := FieldView(entries[Key(name)], f)])
  }

  // ---------------------------------------------------------------------------
  // Properties of the handlers

  /**
   * A failed storage read (or decode) is returned to the caller as it is, by every handler
   * that loads the group, and nothing is written.
   */
  lemma ReadFaultsReturned(entries: map<string, GroupEntry>, f: Field, req: Request, e: string,
                           parse: string -> seq<string>, numUsesKey: string)
    requires GroupName(req) != ""
    ensures CreateOrUpdate(entries, req, ReadFault(e), parse, numUsesKey) == Effect(Failure(e), entries)
    ensures UpdateField(entries, f, req, ReadFault(e), parse, numUsesKey) == Effect(Failure(e), entries)
    ensures ReadGroup(entries, req, ReadFault(e)) == Failure(e)
    ensures ReadField(entries, f, req, ReadFault(e)) == Failure(e)
  {
  }

  /**
   * A failed storage write or delete is returned to the caller as it is, and the table keeps
   * its old contents: for a delete, and for a create, update or per-field update that got
   * as far as storing its record.
   */
  lemma WriteFaultsReturned(entries: map<string, GroupEntry>, f: Field, req: Request, e: string,
                            parse: string -> seq<string>, numUsesKey: string)
    requires GroupName(req) != ""
    ensures DeleteGroup(entries, req, WriteFault(e)) == Effect(Failure(e), entries)
    ensures var g := Merged(Stored(entries, GroupName(req)), req, parse, numUsesKey);
            g.ttl <= g.maxTTL ==> CreateOrUpdate(entries, req, WriteFault(e), parse, numUsesKey) == Effect(Failure(e), entries)
    ensures var name := GroupName(req);
            var key := RequestKey(f, numUsesKey);
            Key(name) in entries && key in req ==>
              var g := Set(entries[Key(name)], f, Converted(f, req[key], parse));
              !((f == TTL || f == MaxTTL) && g.ttl > g.maxTTL) ==>
                UpdateField(entries, f, req, WriteFault(e), parse, numUsesKey) == Effect(Failure(e), entries)
  {
  }

  /** A create or update stores nothing that breaks TTL <= MaxTTL. */
  lemma CreateOrUpdateKeepsBound(entries: map<string, GroupEntry>, req: Request, fault: Fault,
                                 parse: string -> seq<string>, numUsesKey: string)
    requires Bounded(entries)
    ensures Bounded(CreateOrUpdate(entries, req, fault, parse, numUsesKey).entries)
  {
  }

  /**
   * A create or update replies with no response exactly when the name is there, storage
   * does not fail and the merged record keeps TTL <= MaxTTL; then it has written that whole
   * record under the group's key and nothing else, and otherwise it has written nothing.
   */
  lemma CreateOrUpdateWritesRecordOrNothing(entries: map<string, GroupEntry>, req: Request, fault: Fault,
                                            parse: string -> seq<string>, numUsesKey: string)
    ensures var e := CreateOrUpdate(entries, req, fault, parse, numUsesKey);
            var name := GroupName(req);
            var g := Merged(Stored(entries, name), req, parse, numUsesKey);
            && (e.reply == NoReply <==> name != "" && fault == NoFault && g.ttl <= g.maxTTL)
            && (e.reply == NoReply ==> e.entries == entries[Key(name) := g])
            && (e.reply != NoReply ==> e.entries == entries)
  {
  }

  /**
   * In the record a successful create or update stores, every supplied field has its
   * converted value and every other field keeps its stored value, or zero for a new group.
   */
  lemma CreateOrUpdateChangesOnlySupplied(entries: map<string, GroupEntry>, req: Request, fault: Fault,
                                          parse: string -> seq<string>, numUsesKey: string, f: Field)
    requires CreateOrUpdate(entries, req, fault, parse, numUsesKey).reply == NoReply
    ensures var e := CreateOrUpdate(entries, req, fault, parse, numUsesKey);
            var name := GroupName(req);
            && Key(name) in e.entries
            && Get(e.entries[Key(name)], f) ==
                 if RequestKey(f, numUsesKey) in req then Converted(f, req[RequestKey(f, numUsesKey)], parse)
                 else if Key(name) in entries then Get(entries[Key(name)], f)
                 else Get(EMPTY_ENTRY, f)
  {
  }

  /** Every handler answers an empty group name with "missing group_name" and writes nothing. */
  lemma EmptyNameRejected(entries: map<string, GroupEntry>, f: Field, req: Request, fault: Fault,
                          parse: string -> seq<string>, numUsesKey: string)
    requires GroupName(req) == ""
    ensures CreateOrUpdate(entries, req, fault, parse, numUsesKey) == Effect(ErrorReply(MISSING_GROUP_NAME), entries)
    ensures UpdateField(entries, f, req, fault, parse, numUsesKey) == Effect(ErrorReply(MISSING_GROUP_NAME), entries)
    ensures DeleteGroup(entries, req, fault) == Effect(ErrorReply(MISSING_GROUP_NAME), entries)
    ensures ReadGroup(entries, req, fault) == ErrorReply(MISSING_GROUP_NAME)
    ensures ReadField(entries, f, req, fault) == ErrorReply(MISSING_GROUP_NAME)
  {
  }

  /** A per-field update stores nothing that breaks TTL <= MaxTTL. */
  lemma UpdateFieldKeepsBound(entries: map<string, GroupEntry>, f: Field, req: Request, fault: Fault,
                              parse: string -> seq<string>, numUsesKey: string)
    requires Bounded(entries)
    ensures Bounded(UpdateField(entries, f, req, fault, parse, numUsesKey).entries)
  {
    var name := GroupName(req);
    var key := RequestKey(f, numUsesKey);
    if Prologue(entries, name, fault).None? && key in req {
      var stored := entries[Key(name)];
      var v := Converted(f, req[key], parse);
      GetSet(stored, f, v, TTL);
      GetSet(stored, f, v, MaxTTL);
    }
  }

  /**
   * A per-field update writes nothing unless it replies with no response; it replies with no
   * response and writes nothing when the group does not exist. For an existing group it
   * replies "missing <field>" when the value is not supplied, refuses a TTL or MaxTTL that
   * would leave TTL above MaxTTL, and otherwise writes (or fails with the storage error):
   * so it writes exactly when the name is set, storage does not fail, the value is supplied
   * and the bound holds. What it writes is the group's record with field f set to the
   * supplied value and every other field, and every other record, as they were.
   */
  lemma UpdateFieldChangesOnlyThatField(entries: map<string, GroupEntry>, f: Field, req: Request, fault: Fault,
                                        parse: string -> seq<string>, numUsesKey: string, other: Field)
    ensures var e := UpdateField(entries, f, req, fault, parse, numUsesKey);
            var name := GroupName(req);
            var key := RequestKey(f, numUsesKey);
            && (e.reply != NoReply ==> e.entries == entries)
            && (name != "" && !fault.ReadFault? && Key(name) !in entries ==> e == Effect(NoReply, entries))
            && (name != "" && !fault.ReadFault? && Key(name) in entries && key !in req ==>
                  e == Effect(ErrorReply("missing " + ResponseKey(f)), entries))
            && (Key(name) in entries ==>
                  var g := Set(entries[Key(name)], f, if key in req then Converted(f, req[key], parse) else Get(entries[Key(name)], f));
                  var refused := key in req && (f == TTL || f == MaxTTL) && g.ttl > g.maxTTL;
                  && (name != "" && !fault.ReadFault? && refused ==> e == Effect(ErrorReply(BoundMessage(f)), entries))
                  && (e.reply == NoReply <==> name != "" && fault == NoFault && key in req && !refused))
            && (e.reply == NoReply && Key(name) in entries ==>
                  && name != "" && fault == NoFault && key in req
                  && Key(name) in e.entries
                  && e.entries == entries[Key(name) := e.entries[Key(name)]]
                  && Get(e.entries[Key(name)], other) ==
                       if other == f then Converted(f, req[key], parse) else Get(entries[Key(name)], other))
  {
    var name := GroupName(req);
    var key := RequestKey(f, numUsesKey);
    if Prologue(entries, name, fault).None? && key in req {
      GetSet(entries[Key(name)], f, Converted(f, req[key], parse), other);
    }
  }

  /** Replacing the name by a case variant keeps the group's storage key. */
  lemma RenamedRequest(req: Request, other: string)
    requires SameIgnoringCase(GroupName(req), other)
    ensures var req' := req["group_name" := Str(other)];
            && GroupName(req') == other
            && Key(GroupName(req')) == Key(GroupName(req))
            && (GroupName(req') == "" <==> GroupName(req) == "")
  {
    ToLowerEqual(GroupName(req), other);
  }

  /** A merge does not look at the group's name. */
  lemma MergedIgnoresName(base: GroupEntry, req: Request, other: string, parse: string -> seq<string>, numUsesKey: string)
    requires numUsesKey != "group_name"
    ensures Merged(base, req, parse, numUsesKey) == Merged(base, req["group_name" := Str(other)], parse, numUsesKey)
  {
    var req' := req["group_name" := Str(other)];
    forall g: GroupEntry, f: Field
      ensures Assign(g, f, req, parse, numUsesKey) == Assign(g, f, req', parse, numUsesKey)
    {
      assert RequestKey(f, numUsesKey) != "group_name";
    }
  }

  /** A create or update treats group names that differ only in case as the same group. */
  lemma CreateOrUpdateIgnoresCase(entries: map<string, GroupEntry>, req: Request, other: string, fault: Fault,
                                  parse: string -> seq<string>, numUsesKey: string)
    requires numUsesKey != "group_name"
    requires SameIgnoringCase(GroupName(req), other)
    ensures CreateOrUpdate(entries, req, fault, parse, numUsesKey)
            == CreateOrUpdate(entries, req["group_name" := Str(other)], fault, parse, numUsesKey)
  {
    RenamedRequest(req, other);
    MergedIgnoresName(Stored(entries, GroupName(req)), req, other, parse, numUsesKey);
  }

  /** A per-field update treats group names that differ only in case as the same group. */
  lemma UpdateFieldIgnoresCase(entries: map<string, GroupEntry>, f: Field, req: Request, other: string, fault: Fault,
                               parse: string -> seq<string>, numUsesKey: string)
    requires numUsesKey != "group_name"
    requires SameIgnoringCase(GroupName(req), other)
    ensures UpdateField(entries, f, req, fault, parse, numUsesKey)
            == UpdateField(entries, f, req["group_name" := Str(other)], fault, parse, numUsesKey)
  {
    var req' := req["group_name" := Str(other)];
    var key := RequestKey(f, numUsesKey);
    RenamedRequest(req, other);
    assert key != "group_name";
    assert Prologue(entries, GroupName(req), fault) == Prologue(entries, GroupName(req'), fault);
    assert (key in req <==> key in req') && (key in req ==> req[key] == req'[key]);
  }

  /** Delete and both reads treat group names that differ only in case as the same group. */
  lemma DeleteAndReadsIgnoreCase(entries: map<string, GroupEntry>, f: Field, req: Request, other: string, fault: Fault)
    requires SameIgnoringCase(GroupName(req), other)
    ensures var req' := req["group_name" := Str(other)];
            && DeleteGroup(entries, req, fault) == DeleteGroup(entries, req', fault)
            && ReadGroup(entries, req, fault) == ReadGroup(entries, req', fault)
            && ReadField(entries, f, req, fault) == ReadField(entries, f, req', fault)
  {
    RenamedRequest(req, other);
  }

  /**
   * Write-then-read for the durations: after a per-field update of TTL, MaxTTL or Wrapped
   * with s seconds, reading that field reports s again (Go stores s * time.Second and the
   * read divides by time.Second), as long as s * time.Second fits in an int64.
   */
  lemma UpdateThenReadSeconds(entries: map<string, GroupEntry>, f: Field, req: Request,
                              parse: string -> seq<string>, s: int)
    requires f == TTL || f == MaxTTL || f == Wrapped
    requires Key(GroupName(req)) in entries
    requires RequestKey(f, NUM_USES_KEY) in req && req[RequestKey(f, NUM_USES_KEY)] == Num(s)
    requires -MAX_SECONDS <= s <= MAX_SECONDS
    requires UpdateField(entries, f, req, NoFault, parse, NUM_USES_KEY).reply == NoReply
    ensures ReadField(UpdateField(entries, f, req, NoFault, parse, NUM_USES_KEY).entries, f, req, NoFault)
            == DataReply(map[ResponseKey(f) := Num(s)])
  {
    SecondsRoundTrip(s);
    var e := UpdateField(entries, f, req, NoFault, parse, NUM_USES_KEY);
    UpdateFieldChangesOnlyThatField(entries, f, req, NoFault, parse, NUM_USES_KEY, f);
  }

  /**
   * Write-then-read after a create or update: a duration supplied as s seconds is reported as
   * s by both the whole-record read and the per-field read.
   */
  lemma CreateThenReadSeconds(entries: map<string, GroupEntry>, f: Field, req: Request,
                              parse: string -> seq<string>, s: int)
    requires f == TTL || f == MaxTTL || f == Wrapped
    requires RequestKey(f, NUM_USES_KEY) in req && req[RequestKey(f, NUM_USES_KEY)] == Num(s)
    requires -MAX_SECONDS <= s <= MAX_SECONDS
    requires CreateOrUpdate(entries, req, NoFault, parse, NUM_USES_KEY).reply == NoReply
    ensures var after := CreateOrUpdate(entries, req, NoFault, parse, NUM_USES_KEY).entries;
            && ReadField(after, f, req, NoFault) == DataReply(map[ResponseKey(f) := Num(s)])
            && ReadGroup(after, req, NoFault).DataReply?
            && ReadGroup(after, req, NoFault).data[ResponseKey(f)] == Num(s)
  {
    var after := CreateOrUpdate(entries, req, NoFault, parse, NUM_USES_KEY).entries;
    CreateOrUpdateChangesOnlySupplied(entries, req, NoFault, parse, NUM_USES_KEY, f);
    assert Get(after[Key(GroupName(req))], f) == Span(s * SECOND);
    ReadsOfSeconds(after, f, req, s);
  }

  /** A stored duration of s * time.Second is reported as s by both reads. */
  lemma ReadsOfSeconds(entries: map<string, GroupEntry>, f: Field, req: Request, s: int)
    requires f == TTL || f == MaxTTL || f == Wrapped
    requires -MAX_SECONDS <= s <= MAX_SECONDS
    requires GroupName(req) != "" && Key(GroupName(req)) in entries
    requires Get(entries[Key(GroupName(req))], f) == Span(s * SECOND)
    ensures ReadField(entries, f, req, NoFault) == DataReply(map[ResponseKey(f) := Num(s)])
    ensures ReadGroup(entries, req, NoFault).DataReply?
    ensures ReadGroup(entries, req, NoFault).data[ResponseKey(f)] == Num(s)
  {
    SecondsRoundTrip(s);
  }

  /** A stored policies list is reported as it is by both reads. */
  lemma ReadsOfPolicies(entries: map<string, GroupEntry>, req: Request, policies: seq<string>)
    requires GroupName(req) != "" && Key(GroupName(req)) in entries
    requires entries[Key(GroupName(req))].additionalPolicies == policies
    ensures ReadField(entries, AdditionalPolicies, req, NoFault) == DataReply(map["additional_policies" := List(policies)])
    ensures ReadGroup(entries, req, NoFault).DataReply?
    ensures ReadGroup(entries, req, NoFault).data["additional_policies"] == List(policies)
  {
  }

  /**
   * Write-then-read for the additional policies: after a successful per-field update of an
   * existing group with the string p, both reads report ParsePolicies(p).
   */
  lemma PoliciesUpdateThenRead(entries: map<string, GroupEntry>, req: Request, parse: string -> seq<string>, p: string)
    requires Key(GroupName(req)) in entries
    requires "additional_policies" in req && req["additional_policies"] == Str(p)
    requires UpdateField(entries, AdditionalPolicies, req, NoFault, parse, NUM_USES_KEY).reply == NoReply
    ensures var after := UpdateField(entries, AdditionalPolicies, req, NoFault, parse, NUM_USES_KEY).entries;
            && ReadField(after, AdditionalPolicies, req, NoFault) == DataReply(map["additional_policies" := List(parse(p))])
            && ReadGroup(after, req, NoFault).DataReply?
            && ReadGroup(after, req, NoFault).data["additional_policies"] == List(parse(p))
  {
    var after := UpdateField(entries, AdditionalPolicies, req, NoFault, parse, NUM_USES_KEY).entries;
    UpdateFieldChangesOnlyThatField(entries, AdditionalPolicies, req, NoFault, parse, NUM_USES_KEY, AdditionalPolicies);
    assert Get(after[Key(GroupName(req))], AdditionalPolicies) == Names(parse(p));
    ReadsOfPolicies(after, req, parse(p));
  }

  /**
   * Write-then-read for the additional policies after a create or update that supplies the
   * string p: both reads report ParsePolicies(p).
   */
  lemma PoliciesCreateThenRead(entries: map<string, GroupEntry>, req: Request, parse: string -> seq<string>, p: string)
    requires "additional_policies" in req && req["additional_policies"] == Str(p)
    requires CreateOrUpdate(entries, req, NoFault, parse, NUM_USES_KEY).reply == NoReply
    ensures var after := CreateOrUpdate(entries, req, NoFault, parse, NUM_USES_KEY).entries;
            && ReadField(after, AdditionalPolicies, req, NoFault) == DataReply(map["additional_policies" := List(parse(p))])
            && ReadGroup(after, req, NoFault).DataReply?
            && ReadGroup(after, req, NoFault).data["additional_policies"] == List(parse(p))
  {
    var after := CreateOrUpdate(entries, req, NoFault, parse, NUM_USES_KEY).entries;
    CreateOrUpdateChangesOnlySupplied(entries, req, NoFault, parse, NUM_USES_KEY, AdditionalPolicies);
    assert Get(after[Key(GroupName(req))], AdditionalPolicies) == Names(parse(p));
    ReadsOfPolicies(after, req, parse(p));
  }

  /**
   * Apps are stored as the comma-split of the supplied string: the apps a read reports
   * after a create or update join back, with commas, to exactly the supplied string.
   */
  lemma CreateThenReadApps(entries: map<string, GroupEntry>, req: Request, parse: string -> seq<string>, apps: string)
    requires "apps" in req && req["apps"] == Str(apps)
    requires CreateOrUpdate(entries, req, NoFault, parse, NUM_USES_KEY).reply == NoReply
    ensures var r := ReadField(CreateOrUpdate(entries, req, NoFault, parse, NUM_USES_KEY).entries, Apps, req, NoFault);
            && r == DataReply(map["apps" := List(Split(apps, ','))])
            && Join(r.data["apps"].items, ',') == apps
  {
    CreateOrUpdateChangesOnlySupplied(entries, req, NoFault, parse, NUM_USES_KEY, Apps);
    JoinSplit(apps, ',');
  }

  /** After a group is deleted, reading it under any case variant of its name finds nothing. */
  lemma DeleteThenRead(entries: map<string, GroupEntry>, req: Request, other: string)
    requires DeleteGroup(entries, req, NoFault).reply == NoReply
    requires SameIgnoringCase(GroupName(req), other)
    ensures ReadGroup(DeleteGroup(entries, req, NoFault).entries, map["group_name" := Str(other)], NoFault) == NoReply
  {
    ToLowerEqual(GroupName(req), other);
  }

  /** The whole-record read and the per-field read report every field alike. */
  lemma ReadGroupAgreesWithReadField(entries: map<string, GroupEntry>, req: Request, fault: Fault, f: Field)
    ensures var whole := ReadGroup(entries, req, fault);
            var one := ReadField(entries, f, req, fault);
            && (whole.DataReply? <==> one.DataReply?)
            && (!whole.DataReply? ==> whole == one)
            && (whole.DataReply? ==> ResponseKey(f) in whole.data && whole.data[ResponseKey(f)] == one.data[ResponseKey(f)])
  {
  }

  // ---------------------------------------------------------------------------
  // The use count's field name

  /**
   * As written, the create/update and use-count handlers look the count up as "num_uses",
   * a name no request can carry because the schema declares "num-uses": the supplied
   * count is never stored.
   */
  lemma NumUsesNeverReadAsWritten(entries: map<string, GroupEntry>, base: GroupEntry, req: Request, fault: Fault,
                                  parse: string -> seq<string>)
    requires Conforms(req, GROUP_FIELDS) || Conforms(req, FieldSchema(NumUses))
    ensures Merged(base, req, parse, NUM_USES_KEY_AS_WRITTEN).numUses == base.numUses
    ensures UpdateField(entries, NumUses, req, fault, parse, NUM_USES_KEY_AS_WRITTEN).entries == entries
  {
    assert NUM_USES_KEY_AS_WRITTEN !in req;
  }

  /** A request that creates group "web" with num-uses 5 stores 0 as written and 5 as intended. */
  lemma NumUsesAsWrittenExample(parse: string -> seq<string>)
    ensures var req := map["group_name" := Str("web"), NUM_USES_KEY := Num(5)];
            && Conforms(req, GROUP_FIELDS)
            && CreateOrUpdate(map[], req, NoFault, parse, NUM_USES_KEY_AS_WRITTEN).reply == NoReply
            && Stored(CreateOrUpdate(map[], req, NoFault, parse, NUM_USES_KEY_AS_WRITTEN).entries, "web").numUses == 0
            && CreateOrUpdate(map[], req, NoFault, parse, NUM_USES_KEY).reply == NoReply
            && Stored(CreateOrUpdate(map[], req, NoFault, parse, NUM_USES_KEY).entries, "web").numUses == 5
  {
    ExampleConforms();
    ExampleCreate(parse, NUM_USES_KEY_AS_WRITTEN);
    ExampleCreate(parse, NUM_USES_KEY);
  }

  /** The example request carries only declared fields, each of its declared type. */
  lemma ExampleConforms()
    ensures Conforms(map["group_name" := Str("web"), NUM_USES_KEY := Num(5)], GROUP_FIELDS)
  {
    var req := map["group_name" := Str("web"), NUM_USES_KEY := Num(5)];
    assert req.Keys == {"group_name", NUM_USES_KEY};
  }

  /** The example request creates group "web" under either use-count name; only the schema's name keeps the count. */
  lemma ExampleCreate(parse: string -> seq<string>, numUsesKey: string)
    requires numUsesKey == NUM_USES_KEY || numUsesKey == NUM_USES_KEY_AS_WRITTEN
    ensures var e := CreateOrUpdate(map[], map["group_name" := Str("web"), NUM_USES_KEY := Num(5)], NoFault, parse, numUsesKey);
            && e.reply == NoReply
            && Stored(e.entries, "web").numUses == if numUsesKey == NUM_USES_KEY then 5 else 0
  {
    var req := map["group_name" := Str("web"), NUM_USES_KEY := Num(5)];
    assert GroupName(req) == "web";
    var g := Merged(EMPTY_ENTRY, req, parse, numUsesKey);
    assert CreateOrUpdate(map[], req, NoFault, parse, numUsesKey) == Effect(NoReply, map[Key("web") := g]);
  }

  /** Under the schema's name, a use-count update stores the supplied count and a read reports it. */
  lemma NumUsesUpdateStoresSupplied(entries: map<string, GroupEntry>, req: Request, parse: string -> seq<string>, n: int)
    requires GroupName(req) != "" && Key(GroupName(req)) in entries
    requires NUM_USES_KEY in req && req[NUM_USES_KEY] == Num(n) && MIN_INT64 <= n <= MAX_INT64
    ensures var e := UpdateField(entries, NumUses, req, NoFault, parse, NUM_USES_KEY);
            && e.reply == NoReply
            && e.entries[Key(GroupName(req))].numUses == n
            && ReadField(e.entries, NumUses, req, NoFault) == DataReply(map["num_uses" := Num(n)])
  {
  }

  // ---------------------------------------------------------------------------
  // The backend: the table and its handlers

  /** "return nil, err" after a write. */
  function Returned(err: Option<string>): Reply
  {
    if err.Some? then Failure(err.value) else NoReply
  }

  class GroupBackend {
    /** The group records in storage, by storage key. */
    var entries: map<string, GroupEntry>

    /** policyutil.ParsePolicies, whose body is not part of this model. */
    const parsePolicies: string -> seq<string>

    ghost predicate Valid()
      reads this
    {
      Bounded(entries)
    }

    constructor (parsePolicies: string -> seq<string>)
      ensures Valid() && entries == map[] && this.parsePolicies == parsePolicies
    {
      this.entries := map[];
      this.parsePolicies := parsePolicies;
    }

    /** groupEntry: the stored record of a group, if any. */
    method LoadGroup(name: string, fault: Fault) returns (r: Load)
      ensures name == "" ==> r == LoadError(MISSING_GROUP_NAME)
      ensures name != "" && fault.ReadFault? ==> r == LoadError(fault.error)
      ensures name != "" && !fault.ReadFault? ==> r == if Key(name) in entries then Present(entries[Key(name)]) else Absent
    {
      if name == "" {
        return LoadError(MISSING_GROUP_NAME);
      }
      if fault.ReadFault? {
        return LoadError(fault.error);
      }
      var key := "group/" + ToLower(name);
      if key in entries {
        r := Present(entries[key]);
      } else {
        r := Absent;
      }
    }

    /** setGroupEntry: writes the whole record under the group's key, or nothing when storage fails. */
    method StoreGroup(name: string, g: GroupEntry, fault: Fault) returns (err: Option<string>)
      modifies this
      ensures fault.WriteFault? ==> err == Some(fault.error) && entries == old(entries)
      ensures !fault.WriteFault? ==> err == None && entries == old(entries)[Key(name) := g]
    {
      if fault.WriteFault? {
        return Some(fault.error);
      }
      entries := entries["group/" + ToLower(name) := g];
      err := None;
    }

    /** The first three "update only if supplied" steps of pathGroupCreateUpdate: apps, policies, use count. */
    method ApplyNamesAndCount(base: GroupEntry, req: Request) returns (group: GroupEntry)
      ensures group == Assign(Assign(Assign(base, Apps, req, parsePolicies, NUM_USES_KEY),
                                     AdditionalPolicies, req, parsePolicies, NUM_USES_KEY),
                              NumUses, req, parsePolicies, NUM_USES_KEY)
    {
      group := base;
      if "apps" in req {
        group := group.(apps := Split(StrOf(req["apps"]), ','));
      }
      ghost var g1 := group;
      assert g1 == Assign(base, Apps, req, parsePolicies, NUM_USES_KEY);
      if "additional_policies" in req {
        group := group.(additionalPolicies := parsePolicies(StrOf(req["additional_policies"])));
      }
      assert group == Assign(g1, AdditionalPolicies, req, parsePolicies, NUM_USES_KEY);
      if NUM_USES_KEY in req {
        group := group.(numUses := IntOf(req[NUM_USES_KEY]));
      }
    }

    /**
     * The body of pathGroupCreateUpdate between loading and storing: the supplied fields
     * over the loaded record, in the handler's order, refused when TTL exceeds MaxTTL.
     */
    method ApplySupplied(base: GroupEntry, req: Request) returns (result: Result<GroupEntry, string>)
      ensures var g := Merged(base, req, parsePolicies, NUM_USES_KEY);
              result == if g.ttl > g.maxTTL then Err(TTL_ABOVE_MAX_TTL) else Ok(g)
      ensures result.Ok? ==> result.value.ttl <= result.value.maxTTL
    {
      ghost var g1 := Assign(base, Apps, req, parsePolicies, NUM_USES_KEY);
      ghost var g2 := Assign(g1, AdditionalPolicies, req, parsePolicies, NUM_USES_KEY);
      var group := ApplyNamesAndCount(base, req);
      ghost var g3 := group;
      if "ttl" in req {
        group := group.(ttl := FromSeconds(IntOf(req["ttl"])));
      }
      ghost var g4 := group;
      assert g4 == Assign(g3, TTL, req, parsePolicies, NUM_USES_KEY);
      if "max_ttl" in req {
        group := group.(maxTTL := FromSeconds(IntOf(req["max_ttl"])));
      }
      assert group == Assign(g4, MaxTTL, req, parsePolicies, NUM_USES_KEY);
      MergedInSteps(base, g1, g2, g3, g4, group, req, parsePolicies, NUM_USES_KEY);
      if group.ttl > group.maxTTL {
        return Err(TTL_ABOVE_MAX_TTL);
      }
      ghost var g5 := group;
      if "wrapped" in req {
        group := group.(wrapped := FromSeconds(IntOf(req["wrapped"])));
      }
      assert group == Assign(g5, Wrapped, req, parsePolicies, NUM_USES_KEY);
      result := Ok(group);
    }

    /** pathGroupCreateUpdate. */
    method CreateUpdate(req: Request, fault: Fault) returns (reply: Reply)
      requires Valid()
      modifies this
      ensures Valid()
      ensures Effect(reply, entries) == CreateOrUpdate(old(entries), req, fault, parsePolicies, NUM_USES_KEY)
    {
      var name := GroupName(req);
      if name == "" {
        return ErrorReply(MISSING_GROUP_NAME);
      }
      var loaded := LoadGroup(name, fault);
      if loaded.LoadError? {
        return Failure(loaded.error);
      }
      var group := if loaded.Present? then loaded.entry else EMPTY_ENTRY;
      assert group == Stored(entries, name);
      var merged := ApplySupplied(group, req);
      if merged.Err? {
        return ErrorReply(merged.error);
      }
      BoundedInsert(entries, Key(name), merged.value);
      var err := StoreGroup(name, merged.value, fault);
      reply := Returned(err);
    }

    /** pathGroupRead: reports the record with its durations in seconds; storage is not changed. */
    method Read(req: Request, fault: Fault) returns (reply: Reply)
      ensures reply == ReadGroup(entries, req, fault)
    {
      var name := GroupName(req);
      if name == "" {
        return ErrorReply(MISSING_GROUP_NAME);
      }
      ToLowerIdempotent(name);
      var loaded := LoadGroup(ToLower(name), fault);
      match loaded {
        case LoadError(e) => return Failure(e);
        case Absent => return NoReply;
        case Present(group) =>
          group := group.(ttl := ToSeconds(group.ttl));
          group := group.(maxTTL := ToSeconds(group.maxTTL));
          group := group.(wrapped := ToSeconds(group.wrapped));
          reply := DataReply(StructMap(group));
      }
    }

    /** pathGroupDelete. */
    method Delete(req: Request, fault: Fault) returns (reply: Reply)
      requires Valid()
      modifies this
      ensures Valid()
      ensures Effect(reply, entries) == DeleteGroup(old(entries), req, fault)
    {
      var name := GroupName(req);
      if name == "" {
        return ErrorReply(MISSING_GROUP_NAME);
      }
      if fault.WriteFault? {
        return Failure(fault.error);
      }
      entries := entries - {"group/" + ToLower(name)};
      reply := NoReply;
    }

    /**
     * The early returns every per-field handler begins with: a missing name, a failed load
     * (the load uses the lower-cased name) and a group that does not exist.
     */
    method Existing(name: string, fault: Fault) returns (early: Option<Reply>, group: GroupEntry)
      ensures early == Prologue(entries, name, fault)
      ensures early.None? ==> group == entries[Key(name)]
    {
      if name == "" {
        return Some(ErrorReply(MISSING_GROUP_NAME)), EMPTY_ENTRY;
      }
      ToLowerIdempotent(name);
      var loaded := LoadGroup(ToLower(name), fault);
      match loaded {
        case LoadError(e) => early, group := Some(Failure(e)), EMPTY_ENTRY;
        case Absent => early, group := Some(NoReply), EMPTY_ENTRY;
        case Present(g) => early, group := None, g;
      }
    }

    /** pathGroupAppsUpdate. */
    method AppsUpdate(req: Request, fault: Fault) returns (reply: Reply)
      requires Valid()
      modifies this
      ensures Valid()
      ensures Effect(reply, entries) == UpdateField(old(entries), Apps, req, fault, parsePolicies, NUM_USES_KEY)
    {
      var name := GroupName(req);
      var early, group := Existing(name, fault);
      if early.Some? {
        return early.value;
      }
      if "apps" in req {
        group := group.(apps := Split(StrOf(req["apps"]), ','));
        BoundedInsert(entries, Key(name), group);
        var err := StoreGroup(name, group, fault);
        reply := Returned(err);
      } else {
        reply := ErrorReply("missing " + "apps");
      }
    }

    /** pathGroupAdditionalPoliciesUpdate. */
    method AdditionalPoliciesUpdate(req: Request, fault: Fault) returns (reply: Reply)
      requires Valid()
      modifies this
      ensures Valid()
      ensures Effect(reply, entries) == UpdateField(old(entries), AdditionalPolicies, req, fault, parsePolicies, NUM_USES_KEY)
    {
      var name := GroupName(req);
      var early, group := Existing(name, fault);
      if early.Some? {
        return early.value;
      }
      if "additional_policies" in req {
        group := group.(additionalPolicies := parsePolicies(StrOf(req["additional_policies"])));
        BoundedInsert(entries, Key(name), group);
        var err := StoreGroup(name, group, fault);
        reply := Returned(err);
      } else {
        reply := ErrorReply("missing " + "additional_policies");
      }
    }

    /** pathGroupNumUsesUpdate. */
    method NumUsesUpdate(req: Request, fault: Fault) returns (reply: Reply)
      requires Valid()
      modifies this
      ensures Valid()
      ensures Effect(reply, entries) == UpdateField(old(entries), NumUses, req, fault, parsePolicies, NUM_USES_KEY)
    {
      var name := GroupName(req);
      var early, group := Existing(name, fault);
      if early.Some? {
        return early.value;
      }
      if NUM_USES_KEY in req {
        group := group.(numUses := IntOf(req[NUM_USES_KEY]));
        BoundedInsert(entries, Key(name), group);
        var err := StoreGroup(name, group, fault);
        reply := Returned(err);
      } else {
        reply := ErrorReply("missing " + "num_uses");
      }
    }

    /** pathGroupTTLUpdate. */
    method TTLUpdate(req: Request, fault: Fault) returns (reply: Reply)
      requires Valid()
      modifies this
      ensures Valid()
      ensures Effect(reply, entries) == UpdateField(old(entries), TTL, req, fault, parsePolicies, NUM_USES_KEY)
    {
      var name := GroupName(req);
      var early, group := Existing(name, fault);
      if early.Some? {
        return early.value;
      }
      if "ttl" in req {
        group := group.(ttl := FromSeconds(IntOf(req["ttl"])));
        if group.ttl > group.maxTTL {
          return ErrorReply(TTL_ABOVE_MAX_TTL);
        }
        BoundedInsert(entries, Key(name), group);
        var err := StoreGroup(name, group, fault);
        reply := Returned(err);
      } else {
        reply := ErrorReply("missing " + "ttl");
      }
    }

    /** pathGroupMaxTTLUpdate. */
    method MaxTTLUpdate(req: Request, fault: Fault) returns (reply: Reply)
      requires Valid()
      modifies this
      ensures Valid()
      ensures Effect(reply, entries) == UpdateField(old(entries), MaxTTL, req, fault, parsePolicies, NUM_USES_KEY)
    {
      var name := GroupName(req);
      var early, group := Existing(name, fault);
      if early.Some? {
        return early.value;
      }
      if "max_ttl" in req {
        group := group.(maxTTL := FromSeconds(IntOf(req["max_ttl"])));
        if group.ttl > group.maxTTL {
          return ErrorReply(MAX_TTL_BELOW_TTL);
        }
        BoundedInsert(entries, Key(name), group);
        var err := StoreGroup(name, group, fault);
        reply := Returned(err);
      } else {
        reply := ErrorReply("missing " + "max_ttl");
      }
    }

    /** pathGroupWrappedUpdate. */
    method WrappedUpdate(req: Request, fault: Fault) returns (reply: Reply)
      requires Valid()
      modifies this
      ensures Valid()
      ensures Effect(reply, entries) == UpdateField(old(entries), Wrapped, req, fault, parsePolicies, NUM_USES_KEY)
    {
      var name := GroupName(req);
      var early, group := Existing(name, fault);
      if early.Some? {
        return early.value;
      }
      if "wrapped" in req {
        group := group.(wrapped := FromSeconds(IntOf(req["wrapped"])));
        BoundedInsert(entries, Key(name), group);
        var err := StoreGroup(name, group, fault);
        reply := Returned(err);
      } else {
        reply := ErrorReply("missing " + "wrapped");
      }
    }

    /** pathGroupAppsRead. */
    method AppsRead(req: Request, fault: Fault) returns (reply: Reply)
      ensures reply == ReadField(entries, Apps, req, fault)
    {
      var early, group := Existing(GroupName(req), fault);
      if early.Some? {
        return early.value;
      }
      reply := DataReply(map["apps" := List(group.apps)]);
    }

    /** pathGroupAdditionalPoliciesRead. */
    method AdditionalPoliciesRead(req: Request, fault: Fault) returns (reply: Reply)
      ensures reply == ReadField(entries, AdditionalPolicies, req, fault)
    {
      var early, group := Existing(GroupName(req), fault);
      if early.Some? {
        return early.value;
      }
      reply := DataReply(map["additional_policies" := List(group.additionalPolicies)]);
    }

    /** pathGroupNumUsesRead. */
    method NumUsesRead(req: Request, fault: Fault) returns (reply: Reply)
      ensures reply == ReadField(entries, NumUses, req, fault)
    {
      var early, group := Existing(GroupName(req), fault);
      if early.Some? {
        return early.value;
      }
      reply := DataReply(map["num_uses" := Num(group.numUses)]);
    }

    /** pathGroupTTLRead. */
    method TTLRead(req: Request, fault: Fault) returns (reply: Reply)
      ensures reply == ReadField(entries, TTL, req, fault)
    {
      var early, group := Existing(GroupName(req), fault);
      if early.Some? {
        return early.value;
      }
      reply := DataReply(map["ttl" := Num(ToSeconds(group.ttl))]);
    }

    /** pathGroupMaxTTLRead. */
    method MaxTTLRead(req: Request, fault: Fault) returns (reply: Reply)
      ensures reply == ReadField(entries, MaxTTL, req, fault)
    {
      var early, group := Existing(GroupName(req), fault);
      if early.Some? {
        return early.value;
      }
      reply := DataReply(map["max_ttl" := Num(ToSeconds(group.maxTTL))]);
    }

    /** pathGroupWrappedRead. */
    method WrappedRead(req: Request, fault: Fault) returns (reply: Reply)
      ensures reply == ReadField(entries, Wrapped, req, fault)
    {
      var early, group := Existing(GroupName(req), fault);
      if early.Some? {
        return early.value;
      }
      reply := DataReply(map["wrapped" := Num(ToSeconds(group.wrapped))]);
    }
  }
}
