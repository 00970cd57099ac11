/**
  The five kind-tagged records of tektome_utils/schema.py and the validation
  that builds them from a raw field-name -> value mapping.

  Each record has two declared fields: `id` (one identifier, or a list of
  identifiers) and `kind` (a string that must equal the record's literal).
  Validation checks both fields independently, in declaration order, and
  reports every failure it finds; keys other than `id` and `kind` are ignored.
 */
module Schema {
  import opened Wrappers
  import opened Uuids

  /** A raw input value, as a caller or a decoded JSON document supplies it. */
  datatype Raw =
    | Null
    | Bool(b: bool)
    | Int(i: int)
    | Str(s: string)
    | UuidValue(u: Uuid)
    | List(items: seq<Raw>)

  /** The five record classes. */
  datatype Model =
    | ResourceModel
    | ResourcesModel
    | ProjectModel
    | ProjectsModel
    | AttributeDefinitionsModel

  /** The one `kind` literal each class accepts. */
  function Literal(m: Model): string {
    match m
    case ResourceModel => "resource"
    case ResourcesModel => "resource[]"
    case ProjectModel => "project"
    case ProjectsModel => "project[]"
    case AttributeDefinitionsModel => "attribute_definition[]"
  }

  /** Whether the class declares `id` as a list of identifiers rather than one. */
  predicate IsListModel(m: Model) {
    m.ResourcesModel? || m.ProjectsModel? || m.AttributeDefinitionsModel?
  }

  /** A validated record. Singular classes hold `id`, list classes hold `ids`. */
  datatype Record =
    | Resource(id: Uuid, kind: string)
    | Resources(ids: seq<Uuid>, kind: string)
    | Project(id: Uuid, kind: string)
    | Projects(ids: seq<Uuid>, kind: string)
    | AttributeDefinitions(ids: seq<Uuid>, kind: string)

  /** The value of a record's `id` field, whichever its cardinality. */
  datatype IdValue = One(u: Uuid) | Many(us: seq<Uuid>)

  function ModelOf(r: Record): Model {
    match r
    case Resource(_, _) => ResourceModel
    case Resources(_, _) => ResourcesModel
    case Project(_, _) => ProjectModel
    case Projects(_, _) => ProjectsModel
    case AttributeDefinitions(_, _) => AttributeDefinitionsModel
  }

  function IdOf(r: Record): (v: IdValue)
    ensures v.Many? <==> IsListModel(ModelOf(r))
  {
    if r.Resource? || r.Project? then One(r.id) else Many(r.ids)
  }

  /** The record of class m with the given fields; the inverse of ModelOf, IdOf and kind. */
  function Build(m: Model, id: IdValue, kind: string): (r: Record)
    requires id.Many? <==> IsListModel(m)
    ensures ModelOf(r) == m && IdOf(r) == id && r.kind == kind
  {
    match m
    case ResourceModel => Resource(id.u, kind)
    case ResourcesModel => Resources(id.us, kind)
    case ProjectModel => Project(id.u, kind)
    case ProjectsModel => Projects(id.us, kind)
    case AttributeDefinitionsModel => AttributeDefinitions(id.us, kind)
  }

  /** Where a failure was found: a field, or one element of a list field. */
  datatype Loc = Field(name: string) | Element(name: string, index: nat)

  /** Why a value was refused. */
  datatype ErrorKind =
    | Missing                   // the key is absent
    | WrongType                 // the value has the wrong shape (null included)
    | BadFormat                 // a string that is not a canonical identifier
    | ValueError(message: string) // the `kind` check refused the string

  datatype FieldError = FieldError(loc: Loc, kind: ErrorKind)

  /** The message the `kind` check raises for class m. */
  function KindMessage(m: Model): string {
    "kind must be '" + Literal(m) + "'"
  }

  /** Whether a raw value is acceptable where one identifier is declared. */
  predicate IsUuidLike(v: Raw) {
    v.UuidValue? || (v.Str? && IsCanonical(v.s))
  }

  /** Whether a raw value is acceptable as the `id` field of class m. */
  predicate IsAcceptableId(m: Model, v: Raw) {
    if IsListModel(m) then
      v.List? && forall i :: 0 <= i < |v.items| ==> IsUuidLike(v.items[i])
    else
      IsUuidLike(v)
  }

  /** Coerces one raw value to an identifier: an identifier as is, a string by parsing. */
  function CoerceUuid(v: Raw): (r: Result<Uuid, ErrorKind>)
    ensures r.Ok? <==> IsUuidLike(v)
    ensures v.UuidValue? ==> r == Ok(v.u)
    ensures v.Str? && r.Ok? ==> Format(r.value) == Lowered(v.s)
    ensures r.Err? ==> r.error == if v.Str? then BadFormat else WrongType
  {
    match v
    case UuidValue(u) => Ok(u)
    case Str(s) =>
      if Parse(s).Some? then
        FormatParse(s);
        Ok(Parse(s).value)
      else
        Err(BadFormat)
    case _ => Err(WrongType)
  }

  /**
    Coerces every element of a list, all or nothing: the identifiers in order
    when every element is acceptable, otherwise one error per refused element,
    located at its index.
   */
  function CoerceUuidList(name: string, items: seq<Raw>): (r: Result<seq<Uuid>, seq<FieldError>>)
    ensures r.Ok? <==> forall i :: 0 <= i < |items| ==> IsUuidLike(items[i])
    ensures r.Ok? ==> |r.value| == |items|
    ensures r.Ok? ==> forall i :: 0 <= i < |items| ==> CoerceUuid(items[i]) == Ok(r.value[i])
    ensures r.Err? ==> forall i :: 0 <= i < |items| && !IsUuidLike(items[i]) ==>
      FieldError(Element(name, i), CoerceUuid(items[i]).error) in r.error
    ensures r.Err? ==> forall e :: e in r.error ==>
      && e.loc.Element? && e.loc.name == name && e.loc.index < |items|
      && CoerceUuid(items[e.loc.index]) == Err(e.kind)
    decreases |items|
  {
    if items == [] then Ok([])
    else
      var n := |items| - 1;
      var prefix := CoerceUuidList(name, items[..n]);
      var last := CoerceUuid(items[n]);
      match (prefix, last)
      case (Ok(us), Ok(u)) => Ok(us + [u])
      case (Ok(_), Err(k)) => Err([FieldError(Element(name, n), k)])
      case (Err(es), Ok(_)) => Err(es)
      case (Err(es), Err(k)) => Err(es + [FieldError(Element(name, n), k)])
  }

  /** Validates the `id` field of class m. */
  function ValidateId(m: Model, input: map<string, Raw>): (r: Result<IdValue, seq<FieldError>>)
    ensures r.Ok? <==> "id" in input && IsAcceptableId(m, input["id"])
    ensures r.Ok? ==> (r.value.Many? <==> IsListModel(m))
    ensures r.Ok? && r.value.One? ==> CoerceUuid(input["id"]) == Ok(r.value.u)
    ensures r.Ok? && r.value.Many? ==>
      && |r.value.us| == |input["id"].items|
      && forall i :: 0 <= i < |r.value.us| ==> CoerceUuid(input["id"].items[i]) == Ok(r.value.us[i])
    ensures r.Err? ==> |r.error| > 0
    ensures "id" !in input ==> r == Err([FieldError(Field("id"), Missing)])
  {
    if "id" !in input then Err([FieldError(Field("id"), Missing)])
    else
      var v := input["id"];
      if IsListModel(m) then
        match v
        case List(items) =>
          (match CoerceUuidList("id", items)
           case Ok(us) => Ok(Many(us))
           case Err(es) => Err(es))
        case _ => Err([FieldError(Field("id"), WrongType)])
      else
        match CoerceUuid(v)
        case Ok(u) => Ok(One(u))
        case Err(k) => Err([FieldError(Field("id"), k)])
  }

  /** The class's `kind` check: the string unchanged when it is the literal, else the message. */
  function CheckKind(m: Model, v: string): (r: Result<string, string>)
    ensures r.Ok? <==> v == Literal(m)
    ensures r.Ok? ==> r.value == v
    ensures r.Err? ==> r.error == KindMessage(m)
  {
    if v != Literal(m) then Err(KindMessage(m)) else Ok(v)
  }

  /** Validates the `kind` field of class m: present, a string, then CheckKind. */
  function ValidateKind(m: Model, input: map<string, Raw>): (r: Result<string, seq<FieldError>>)
    ensures r.Ok? <==> "kind" in input && input["kind"] == Str(Literal(m))
    ensures r.Ok? ==> r.value == Literal(m)
    ensures "kind" !in input ==> r == Err([FieldError(Field("kind"), Missing)])
    ensures "kind" in input && !input["kind"].Str? ==> r == Err([FieldError(Field("kind"), WrongType)])
    ensures "kind" in input && input["kind"].Str? && input["kind"].s != Literal(m) ==>
      r == Err([FieldError(Field("kind"), ValueError(KindMessage(m)))])
  {
    if "kind" !in input then Err([FieldError(Field("kind"), Missing)])
    else
      match input["kind"]
      case Str(v) =>
        (match CheckKind(m, v)
         case Ok(k) => Ok(k)
         case Err(msg) => Err([FieldError(Field("kind"), ValueError(msg))]))
      case _ => Err([FieldError(Field("kind"), WrongType)])
  }

  function ErrorsOf<T>(r: Result<T, seq<FieldError>>): seq<FieldError> {
    if r.Err? then r.error else []
  }

  /**
    Builds a record of class m from a raw mapping: both fields are validated,
    and either the record or the errors of both fields (those of `id` first)
    come back.
   */
  function Validate(m: Model, input: map<string, Raw>): (r: Result<Record, seq<FieldError>>)
    ensures r.Ok? <==>
      && "id" in input && IsAcceptableId(m, input["id"])
      && "kind" in input && input["kind"] == Str(Literal(m))
    ensures r.Ok? ==> ModelOf(r.value) == m && r.value.kind == Literal(m)
    ensures r.Ok? ==> ValidateId(m, input).Ok? && IdOf(r.value) == ValidateId(m, input).value
    ensures r.Err? ==> |r.error| > 0
    ensures r.Err? ==> r.error == ErrorsOf(ValidateId(m, input)) + ErrorsOf(ValidateKind(m, input))
  {
    var id := ValidateId(m, input);
    var kind := ValidateKind(m, input);
    if id.Ok? && kind.Ok? then Ok(Build(m, id.value, kind.value))
    else Err(ErrorsOf(id) + ErrorsOf(kind))
  }

  /** How a record is dumped: identifiers kept as values, or rendered as text for JSON. */
  datatype DumpMode = PythonMode | JsonMode

  function DumpUuid(u: Uuid, mode: DumpMode): Raw {
    if mode == JsonMode then Str(Format(u)) else UuidValue(u)
  }

  /** The record's fields as a mapping (model_dump); list order is kept. */
  function Dump(r: Record, mode: DumpMode): (out: map<string, Raw>)
    ensures out.Keys == {"id", "kind"}
    ensures out["kind"] == Str(r.kind)
    ensures IdOf(r).One? ==> out["id"] == DumpUuid(IdOf(r).u, mode)
    ensures IdOf(r).Many? ==>
      && out["id"].List? && |out["id"].items| == |IdOf(r).us|
      && forall i :: 0 <= i < |IdOf(r).us| ==> out["id"].items[i] == DumpUuid(IdOf(r).us[i], mode)
  {
    var id := match IdOf(r)
      case One(u) => DumpUuid(u, mode)
      case Many(us) => List(seq(|us|, i requires 0 <= i < |us| => DumpUuid(us[i], mode)));
    map["id" := id, "kind" := Str(r.kind)]
  }
}
