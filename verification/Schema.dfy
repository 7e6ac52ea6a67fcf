/** Translating the callers' JSON-schema fragments into Gemini's typed schema. */
module Schema {
  import opened Wrappers

  // The Go values a schema fragment is built of. A list typed as strings is Texts; any
  // other list is a List, whatever is in it.
  datatype Any =
    | Text(s: string)
    | Texts(ss: seq<string>)
    | List(items: seq<Any>)
    | Object(fields: map<string, Any>)
    | Decimal(n: real)
    | Flag(b: bool)
    | Nil

  datatype Type = Unspecified | ObjectType | StringType | NumberType | IntegerType | BooleanType | ArrayType

  datatype Typed = Typed(
    kind: Type, description: string, enum: seq<string>, required: seq<string>,
    properties: Option<map<string, Typed>>, items: Option<Typed>)

  datatype Json =
    | Null
    | Bool(b: bool)
    | Number(n: real)
    | String(s: string)
    | Array(elems: seq<Json>)
    | Record(members: map<string, Json>)

  function JsonSchemaType(t: string): Type {
    if t == "object" then ObjectType
    else if t == "string" then StringType
    else if t == "number" then NumberType
    else if t == "integer" then IntegerType
    else if t == "boolean" then BooleanType
    else if t == "array" then ArrayType
    else Unspecified
  }

  // ---------- Reading a fragment ----------

  function TextAt(node: Any, key: string): Option<string> {
    if node.Object? && key in node.fields && node.fields[key].Text? then Some(node.fields[key].s) else None
  }

  function TextsAt(node: Any, key: string): Option<seq<string>> {
    if node.Object? && key in node.fields && node.fields[key].Texts? then Some(node.fields[key].ss) else None
  }

  function ObjectAt(node: Any, key: string): (r: Option<Any>)
    ensures r.Some? ==> r.value.Object? && r.value < node
  {
    if node.Object? && key in node.fields && node.fields[key].Object? then Some(node.fields[key]) else None
  }

  // Every property met on the way down is an object.
  predicate Translatable(node: Any)
    decreases node, 1
  {
    && (match ObjectAt(node, "properties")
        case Some(props) => TranslatableProperties(props)
        case None => true)
    && (match ObjectAt(node, "items")
        case Some(items) => Translatable(items)
        case None => true)
  }

  function OrEmpty<T>(o: Option<seq<T>>): seq<T> {
    if o.Some? then o.value else []
  }

  function KindOf(node: Any): Type {
    match TextAt(node, "type")
    case Some(t) => JsonSchemaType(t)
    case None => Unspecified
  }

  function Translate(node: Any): Typed
    requires Translatable(node)
    decreases node, 1
  {
    Typed(
      KindOf(node),
      OrEmpty(TextAt(node, "description")),
      OrEmpty(TextsAt(node, "enum")),
      OrEmpty(TextsAt(node, "required")),
      match ObjectAt(node, "properties")
      case Some(props) => Some(TranslateProperties(props))
      case None => None,
      match ObjectAt(node, "items")
      case Some(items) => Some(Translate(items))
      case None => None)
  }

  datatype Error = PropertyNotObject(name: string)

  predicate TranslatableProperties(props: Any)
    requires props.Object?
    decreases props, 0
  {
    forall name :: name in props.fields ==> props.fields[name].Object? && Translatable(props.fields[name])
  }

  function TranslateProperties(props: Any): map<string, Typed>
    requires props.Object? && TranslatableProperties(props)
    decreases props, 0
  {
    map name | name in props.fields :: Translate(props.fields[name])
  }

  /** Translates the properties, in no particular order. */
  method PropertiesFromJSON(props: Any) returns (r: Result<map<string, Typed>, Error>)
    requires props.Object?
    ensures r.Success? <==> TranslatableProperties(props)
    ensures r.Success? ==> r.value == TranslateProperties(props)
    decreases props, 0
  {
    var translated: map<string, Typed> := map[];
    var names := props.fields.Keys;
    while names != {}
      invariant names <= props.fields.Keys && translated.Keys == props.fields.Keys - names
      invariant forall name :: name in translated ==>
        props.fields[name].Object? && Translatable(props.fields[name])
          && translated[name] == Translate(props.fields[name])
      decreases names
    {
      hide Translate, Translatable;
      var name :| name in names;
      names := names - {name};
      var child := props.fields[name];
      if !child.Object? { return Failure(PropertyNotObject(name)); }
      var childSchema := SchemaFromJSON(child);
      if childSchema.Failure? { return Failure(childSchema.error); }
      translated := translated[name := childSchema.value];
    }
    forall name | name in props.fields ensures name in translated { assert name in translated.Keys; }
    return Success(translated);
  }

  /** A fresh schema with the fields that need no recursion. */
  method HeadFromJSON(node: Any) returns (schema: Typed)
    ensures schema == Typed(KindOf(node), OrEmpty(TextAt(node, "description")), OrEmpty(TextsAt(node, "enum")),
                            OrEmpty(TextsAt(node, "required")), None, None)
  {
    schema := Typed(Unspecified, "", [], [], None, None);
    var t := TextAt(node, "type");
    if t.Some? { schema := schema.(kind := JsonSchemaType(t.value)); }
    var d := TextAt(node, "description");
    if d.Some? { schema := schema.(description := d.value); }
    var enum := TextsAt(node, "enum");
    if enum.Some? { schema := schema.(enum := enum.value); }
    var required := TextsAt(node, "required");
    if required.Some? { schema := schema.(required := required.value); }
    hide TextAt, TextsAt, JsonSchemaType;
  }

  /** Fills the schema field by field. It fails exactly when some property, here or
      further down, is not an object. */
  method SchemaFromJSON(node: Any) returns (r: Result<Typed, Error>)
    ensures r.Success? <==> Translatable(node)
    ensures r.Success? ==> r.value == Translate(node)
    decreases node, 1
  {
    hide KindOf, OrEmpty, TextAt, TextsAt, ObjectAt, TranslatableProperties, TranslateProperties;
    var schema := HeadFromJSON(node);
    var props := ObjectAt(node, "properties");
    if props.Some? {
      var translated := PropertiesFromJSON(props.value);
      if translated.Failure? { return Failure(translated.error); }
      schema := schema.(properties := Some(translated.value));
    }
    var items := ObjectAt(node, "items");
    if items.Some? {
      var itemSchema := SchemaFromJSON(items.value);
      if itemSchema.Failure? { return itemSchema; }
      schema := schema.(items := Some(itemSchema.value));
    }
    return Success(schema);
  }

  /** The top level: an object of the given properties. */
  method SchemaFromProperties(properties: map<string, Any>, required: seq<string>) returns (r: Result<Typed, Error>)
    ensures var node := ToolSchema(properties, required);
            (r.Success? <==> Translatable(node)) && (r.Success? ==> r.value == Translate(node))
  {
    var fragment := map["type" := Text("object"), "properties" := Object(properties)];
    if |required| > 0 { fragment := fragment["required" := Texts(required)]; }
    r := SchemaFromJSON(Object(fragment));
  }

  function ToolSchema(properties: map<string, Any>, required: seq<string>): Any {
    var fragment := map["type" := Text("object"), "properties" := Object(properties)];
    Object(if |required| > 0 then fragment["required" := Texts(required)] else fragment)
  }

  // ---------- What a fragment accepts ----------

  // The JSON a fragment is written as: what the other provider is sent.
  function Encoded(a: Any): Json {
    match a
    case Text(s) => String(s)
    case Texts(ss) => Array(seq(|ss|, i requires 0 <= i < |ss| => String(ss[i])))
    case List(items) => Array(seq(|items|, i requires 0 <= i < |items| => Encoded(items[i])))
    case Object(fields) => Record(map k | k in fields :: Encoded(fields[k]))
    case Decimal(n) => Number(n)
    case Flag(b) => Bool(b)
    case Nil => Null
  }

  // The seven names of section 6.1.1 of JSON Schema Validation 2020-12.
  predicate IsNamed(name: string, v: Json) {
    || (name == "null" && v.Null?)
    || (name == "boolean" && v.Bool?)
    || (name == "object" && v.Record?)
    || (name == "array" && v.Array?)
    || (name == "number" && v.Number?)
    || (name == "string" && v.String?)
    || (name == "integer" && v.Number? && v.n == v.n.Floor as real)
  }

  predicate TypeAllows(t: Json, v: Json) {
    match t
    case String(name) => IsNamed(name, v)
    case Array(names) => exists i :: 0 <= i < |names| && names[i].String? && IsNamed(names[i].s, v)
    case _ => false
  }

  predicate EnumAllows(e: Json, v: Json) {
    e.Array? && v in e.elems
  }

  predicate RequiredAllows(r: Json, v: Json) {
    r.Array? && (v.Record? ==> forall i :: 0 <= i < |r.elems| ==> r.elems[i].String? && r.elems[i].s in v.members)
  }

  // The assertions outside the five keywords, such as maxItems, at one node.
  type Keywords = (Json, Json) -> bool

  const NOTHING_MORE: Keywords := (_, _) => true

  predicate ValidHere(m: map<string, Json>, v: Json) {
    && ("type" in m ==> TypeAllows(m["type"], v))
    && ("enum" in m ==> EnumAllows(m["enum"], v))
    && ("required" in m ==> RequiredAllows(m["required"], v))
  }

  ghost predicate ValidMembers(more: Keywords, m: map<string, Json>, v: Json)
    decreases v, 0
  {
    "properties" in m ==> m["properties"].Record? && (v.Record? ==>
      forall name :: name in m["properties"].members && name in v.members ==>
        Validates(more, m["properties"].members[name], v.members[name]))
  }

  ghost predicate ValidElements(more: Keywords, m: map<string, Json>, v: Json)
    decreases v, 0
  {
    "items" in m && v.Array? ==> forall i :: 0 <= i < |v.elems| ==> Validates(more, m["items"], v.elems[i])
  }

  // JSON Schema 2020-12, sections 6.1.1, 6.1.2 and 6.5.3 of Validation and sections 4.3.2,
  // 10.3.2.1 and 10.3.1.2 of Core, together with further keywords. What is not a schema
  // accepts nothing.
  ghost predicate Validates(more: Keywords, schema: Json, v: Json)
    decreases v, 1
  {
    match schema
    case Bool(b) => b
    case Record(m) => ValidHere(m, v) && ValidMembers(more, m, v) && ValidElements(more, m, v) && more(schema, v)
    case _ => false
  }

  // ---------- What a typed schema accepts ----------

  predicate IsType(t: Type, v: Json) {
    match t
    case Unspecified => true
    case ObjectType => v.Record?
    case StringType => v.String?
    case NumberType => v.Number?
    case IntegerType => v.Number? && v.n == v.n.Floor as real
    case BooleanType => v.Bool?
    case ArrayType => v.Array?
  }

  predicate InEnum(enum: seq<string>, v: Json) {
    enum != [] ==> v.String? && v.s in enum
  }

  predicate HasAll(v: Json, names: seq<string>) {
    v.Record? ==> forall i :: 0 <= i < |names| ==> names[i] in v.members
  }

  // Its empty lists constrain nothing.
  predicate AcceptedHere(schema: Typed, v: Json) {
    IsType(schema.kind, v) && InEnum(schema.enum, v) && HasAll(v, schema.required)
  }

  ghost predicate AcceptsMembers(schema: Typed, v: Json)
    decreases v, 0
  {
    schema.properties.Some? && v.Record? ==>
      forall name :: name in schema.properties.value && name in v.members ==>
        Accepts(schema.properties.value[name], v.members[name])
  }

  ghost predicate AcceptsElements(schema: Typed, v: Json)
    decreases v, 0
  {
    schema.items.Some? && v.Array? ==> forall i :: 0 <= i < |v.elems| ==> Accepts(schema.items.value, v.elems[i])
  }

  ghost predicate Accepts(schema: Typed, v: Json)
    decreases v, 1
  {
    AcceptedHere(schema, v) && AcceptsMembers(schema, v) && AcceptsElements(schema, v)
  }

  // ---------- Which fragments keep their meaning ----------

  const TYPED: set<string> := {"object", "string", "number", "integer", "boolean", "array"}
  const EVERY: set<string> := {"null", "boolean", "object", "array", "number", "string"}

  // One of the six names there is a type for, or a list that leaves nothing out.
  predicate KeepsType(t: Any) {
    match t
    case Text(name) => name in TYPED
    case Texts(names) => forall name :: name in EVERY ==> name in names
    case List(names) => forall name :: name in EVERY ==> Text(name) in names
    case _ => false
  }

  predicate KeepsEnum(e: Any) {
    e.Texts? && e.ss != []
  }

  predicate KeepsRequired(r: Any) {
    r.Texts? || r == List([])
  }

  // Read off the fragment's five keywords, all the way down.
  predicate Supported(node: Any)
    decreases node
  {
    && node.Object?
    && ("type" in node.fields ==> KeepsType(node.fields["type"]))
    && ("enum" in node.fields ==> KeepsEnum(node.fields["enum"]))
    && ("required" in node.fields ==> KeepsRequired(node.fields["required"]))
    && ("properties" in node.fields ==> SupportedProperties(node.fields["properties"]))
    && ("items" in node.fields ==> node.fields["items"] == Flag(true) || Supported(node.fields["items"]))
  }

  predicate SupportedProperties(props: Any)
    decreases props
  {
    props.Object? && forall name :: name in props.fields ==> Supported(props.fields[name])
  }

  ghost predicate Exact(node: Any)
    requires Translatable(node)
  {
    forall v :: Accepts(Translate(node), v) <==> Validates(NOTHING_MORE, Encoded(node), v)
  }

  lemma NamesAgree(name: string, v: Json)
    requires name in TYPED
    ensures IsType(JsonSchemaType(name), v) <==> IsNamed(name, v)
  {
  }

  lemma TypeAgrees(node: Any, v: Json)
    requires node.Object? && "type" in node.fields && KeepsType(node.fields["type"])
    ensures IsType(KindOf(node), v) <==> TypeAllows(Encoded(node.fields["type"]), v)
  {
    var t := node.fields["type"];
    if t.Text? {
      NamesAgree(t.s, v);
    } else {
      var name := NameOf(v);
      var names := Encoded(t).elems;
      assert name in EVERY;
      if t.Texts? {
        var i :| 0 <= i < |t.ss| && t.ss[i] == name;
        assert names[i] == String(name);
      } else {
        var i :| 0 <= i < |t.items| && t.items[i] == Text(name);
        assert names[i] == Encoded(t.items[i]);
      }
    }
  }

  function NameOf(v: Json): (name: string)
    ensures name in EVERY && IsNamed(name, v)
  {
    match v
    case Null => "null"
    case Bool(_) => "boolean"
    case Number(_) => "number"
    case String(_) => "string"
    case Array(_) => "array"
    case Record(_) => "object"
  }

  lemma EnumAgrees(node: Any, v: Json)
    requires node.Object? && "enum" in node.fields && KeepsEnum(node.fields["enum"])
    ensures InEnum(OrEmpty(TextsAt(node, "enum")), v) <==> EnumAllows(Encoded(node.fields["enum"]), v)
  {
    var ss := node.fields["enum"].ss;
    var elems := Encoded(Texts(ss)).elems;
    if v.String? && v.s in ss {
      var i :| 0 <= i < |ss| && ss[i] == v.s;
      assert elems[i] == v;
    }
  }

  lemma RequiredAgrees(node: Any, v: Json)
    requires node.Object? && "required" in node.fields && KeepsRequired(node.fields["required"])
    ensures HasAll(v, OrEmpty(TextsAt(node, "required"))) <==> RequiredAllows(Encoded(node.fields["required"]), v)
  {
    var r := node.fields["required"];
    if r.Texts? {
      var elems := Encoded(r).elems;
      assert forall i :: 0 <= i < |r.ss| ==> elems[i] == String(r.ss[i]);
    } else {
      assert Encoded(r).elems == [];
    }
  }

  lemma HereAgrees(node: Any, v: Json)
    requires Translatable(node) && Supported(node)
    ensures AcceptedHere(Translate(node), v) <==> ValidHere(Encoded(node).members, v)
  {
    if "type" in node.fields { TypeAgrees(node, v); }
    if "enum" in node.fields { EnumAgrees(node, v); }
    if "required" in node.fields { RequiredAgrees(node, v); }
    hide IsType, TypeAllows, EnumAllows, RequiredAllows, KeepsType, KeepsEnum, KeepsRequired, JsonSchemaType;
  }

  /** Meaning is preserved: on any supported fragment the typed schema accepts exactly the
      values the fragment accepts. */
  lemma {:induction false} TranslationIsExact(node: Any, v: Json)
    requires Translatable(node) && Supported(node)
    ensures Accepts(Translate(node), v) <==> Validates(NOTHING_MORE, Encoded(node), v)
    decreases node, 1
  {
    HereAgrees(node, v);
    MembersAgree(node, v);
    ElementsAgree(node, v);
    hide AcceptedHere, AcceptsMembers, AcceptsElements, ValidHere, ValidMembers, ValidElements, Translate, Supported;
  }

  lemma {:induction false} MembersAgree(node: Any, v: Json)
    requires Translatable(node) && Supported(node)
    ensures AcceptsMembers(Translate(node), v) <==> ValidMembers(NOTHING_MORE, Encoded(node).members, v)
    decreases node, 0
  {
    if "properties" in node.fields && v.Record? {
      var props := node.fields["properties"];
      forall name | name in props.fields && name in v.members
        ensures Accepts(Translate(props.fields[name]), v.members[name])
           <==> Validates(NOTHING_MORE, Encoded(props.fields[name]), v.members[name])
      {
        TranslationIsExact(props.fields[name], v.members[name]);
      }
      hide Accepts, Validates, Supported;
    }
  }

  lemma {:induction false} ElementsAgree(node: Any, v: Json)
    requires Translatable(node) && Supported(node)
    ensures AcceptsElements(Translate(node), v) <==> ValidElements(NOTHING_MORE, Encoded(node).members, v)
    decreases node, 0
  {
    if "items" in node.fields && node.fields["items"].Object? && v.Array? {
      var items := node.fields["items"];
      forall i | 0 <= i < |v.elems|
        ensures Accepts(Translate(items), v.elems[i]) <==> Validates(NOTHING_MORE, Encoded(items), v.elems[i])
      {
        TranslationIsExact(items, v.elems[i]);
      }
    }
  }

  // ---------- Any fragment ----------

  // What the translation reads of a fragment.
  predicate Reads(key: string, a: Any) {
    || (key == "description" && a.Text?)
    || (key == "type" && a.Text? && a.s in TYPED)
    || (key == "enum" && KeepsEnum(a))
    || (key == "required" && a.Texts?)
    || (key == "properties" && a.Object?)
    || (key == "items" && a.Object?)
  }

  function Kept(node: Any): Any
    requires node.Object? && Translatable(node)
    decreases node, 1
  {
    Object(map key | key in node.fields && Reads(key, node.fields[key]) ::
      if key == "properties" then
        assert ObjectAt(node, "properties") == Some(node.fields[key]); KeptProperties(node.fields[key])
      else if key == "items" then
        assert ObjectAt(node, "items") == Some(node.fields[key]); Kept(node.fields[key])
      else
        node.fields[key])
  }

  function KeptProperties(props: Any): Any
    requires props.Object? && TranslatableProperties(props)
    decreases props, 0
  {
    Object(map name | name in props.fields :: Kept(props.fields[name]))
  }

  ghost predicate Survives(node: Any)
    requires node.Object? && Translatable(node)
  {
    Translatable(Kept(node)) && Supported(Kept(node)) && Translate(Kept(node)) == Translate(node)
  }

  lemma KeptShape(node: Any)
    requires node.Object? && Translatable(node)
    ensures Kept(node).Object?
    ensures TextAt(Kept(node), "description") == TextAt(node, "description")
    ensures KindOf(Kept(node)) == KindOf(node)
    ensures OrEmpty(TextsAt(Kept(node), "enum")) == OrEmpty(TextsAt(node, "enum"))
    ensures TextsAt(Kept(node), "required") == TextsAt(node, "required")
    ensures ObjectAt(Kept(node), "properties") ==
            match ObjectAt(node, "properties") case Some(props) => Some(KeptProperties(props)) case None => None
    ensures ObjectAt(Kept(node), "items") ==
            match ObjectAt(node, "items") case Some(items) => Some(Kept(items)) case None => None
  {
  }

  lemma KeptIsSupportedHere(node: Any)
    requires node.Object? && Translatable(node)
    ensures var kept := Kept(node).fields;
      && ("type" in kept ==> KeepsType(kept["type"])) && ("enum" in kept ==> KeepsEnum(kept["enum"]))
      && ("required" in kept ==> KeepsRequired(kept["required"]))
      && ("properties" in kept ==> kept["properties"].Object?) && ("items" in kept ==> kept["items"].Object?)
  {
  }

  ghost predicate PropertiesSurvive(props: Any)
    requires props.Object? && TranslatableProperties(props)
  {
    var kept := KeptProperties(props);
    TranslatableProperties(kept) && SupportedProperties(kept) && TranslateProperties(kept) == TranslateProperties(props)
  }

  lemma {:induction false} KeptIsSupported(node: Any)
    requires node.Object? && Translatable(node)
    ensures Survives(node)
    decreases node, 1
  {
    var kept := Kept(node);
    var props, items := ObjectAt(node, "properties"), ObjectAt(node, "items");
    if props.Some? { KeptPropertiesAreSupported(props.value); }
    if items.Some? { KeptIsSupported(items.value); }
    KeptShape(node);
    KeptIsSupportedHere(node);
    hide Kept, KeptProperties, KindOf, TextAt, TextsAt, KeepsType, KeepsEnum, KeepsRequired, OrEmpty,
      TranslatableProperties, SupportedProperties, TranslateProperties;
  }

  lemma {:induction false} KeptPropertiesAreSupported(props: Any)
    requires props.Object? && TranslatableProperties(props)
    ensures PropertiesSurvive(props)
    decreases props, 0
  {
    forall name | name in props.fields ensures Survives(props.fields[name]) && Kept(props.fields[name]).Object? {
      KeptIsSupported(props.fields[name]);
    }
    hide Kept, Translate, Supported, Translatable;
  }

  /** What a translation means, for any fragment at all: the typed schema accepts exactly
      the values accepted by what is left of the fragment once the types without a name in
      the typed schema, the empty or untyped enums, the untyped lists of required names and
      the items that are no objects are taken out of it. */
  lemma TranslationMeans(node: Any, v: Json)
    requires node.Object? && Translatable(node)
    ensures Translatable(Kept(node)) && Supported(Kept(node))
    ensures Accepts(Translate(node), v) <==> Validates(NOTHING_MORE, Encoded(Kept(node)), v)
  {
    KeptIsSupported(node);
    TranslationIsExact(Kept(node), v);
  }

  lemma Untyped(name: string)
    requires name !in TYPED
    ensures JsonSchemaType(name) == Unspecified
  {
  }

  /** Every node keeps its description; a node without a text for one has none. */
  lemma DescriptionIsKept(node: Any)
    requires node.Object? && Translatable(node)
    ensures Translate(node).description ==
      if "description" in node.fields && node.fields["description"].Text? then node.fields["description"].s else ""
    ensures ObjectAt(node, "items").Some? ==>
      Translate(node).items == Some(Translate(node.fields["items"]))
    ensures ObjectAt(node, "properties").Some? ==>
      Translate(node).properties.Some?
      && Translate(node).properties.value.Keys == node.fields["properties"].fields.Keys
      && forall name :: name in node.fields["properties"].fields ==>
        Translatable(node.fields["properties"].fields[name])
        && Translate(node).properties.value[name] == Translate(node.fields["properties"].fields[name])
  {
  }

  lemma HereIsLenient(node: Any, v: Json)
    requires node.Object? && Translatable(node) && ValidHere(Encoded(node).members, v)
    ensures AcceptedHere(Translate(node), v)
  {
    var fields := node.fields;
    assert forall key :: key in fields ==> Encoded(node).members[key] == Encoded(fields[key]);
    if "type" in fields && fields["type"].Text? {
      if fields["type"].s in TYPED { TypeAgrees(node, v); } else { Untyped(fields["type"].s); }
    }
    if "enum" in fields && KeepsEnum(fields["enum"]) { EnumAgrees(node, v); }
    if "required" in fields && fields["required"].Texts? { RequiredAgrees(node, v); }
  }

  /** With any further keywords anywhere, whatever they demand, nothing the fragment
      accepts is turned away. */
  lemma {:induction false} TranslationIsLenient(more: Keywords, node: Any, v: Json)
    requires node.Object? && Translatable(node) && Validates(more, Encoded(node), v)
    ensures Accepts(Translate(node), v)
    decreases node
  {
    HereIsLenient(node, v);
    var schema := Translate(node);
    var props, items := ObjectAt(node, "properties"), ObjectAt(node, "items");
    if props.Some? && v.Record? {
      forall name | name in props.value.fields && name in v.members
        ensures Accepts(Translate(props.value.fields[name]), v.members[name])
      {
        assert Encoded(node).members["properties"].members[name] == Encoded(props.value.fields[name]);
        TranslationIsLenient(more, props.value.fields[name], v.members[name]);
      }
    }
    if items.Some? && v.Array? {
      forall i | 0 <= i < |v.elems| ensures Accepts(schema.items.value, v.elems[i]) {
        TranslationIsLenient(more, items.value, v.elems[i]);
      }
    }
    hide AcceptedHere, Validates;
  }

  // ---------- When a keyword is lost ----------

  const KEYWORDS: set<string> := {"type", "enum", "required", "properties", "items"}

  // No node has two of the five keywords, so that none hides what happens to another.
  predicate Lone(node: Any)
    decreases node
  {
    && (node.Object? ==>
          && (forall j, k :: j in KEYWORDS && k in KEYWORDS && j in node.fields && k in node.fields ==> j == k)
          && ("items" in node.fields ==> Lone(node.fields["items"]))
          && ("properties" in node.fields && node.fields["properties"].Object? ==>
                forall name :: name in node.fields["properties"].fields ==>
                  Lone(node.fields["properties"].fields[name])))
  }

  // A value of one type only.
  function Sample(name: string): (v: Json)
    requires name in EVERY
    ensures forall other :: IsNamed(other, v) <==> other == name
  {
    if name == "null" then Null
    else if name == "boolean" then Bool(true)
    else if name == "object" then Record(map[])
    else if name == "array" then Array([])
    else if name == "string" then String("")
    else assert 0.5.Floor == 0; Number(0.5)
  }

  lemma LostType(t: Any) returns (v: Json)
    requires !KeepsType(t)
    ensures !TypeAllows(Encoded(t), v) && IsType(if t.Text? then JsonSchemaType(t.s) else Unspecified, v)
  {
    match t {
      case Text(name) => v := if name == "null" then Bool(true) else Null;
      case Texts(names) =>
        var name :| name in EVERY && name !in names;
        v := Sample(name);
      case List(names) =>
        var name :| name in EVERY && Text(name) !in names;
        v := Sample(name);
        forall i | 0 <= i < |names| && Encoded(names[i]).String? ensures names[i].Text? && names[i] != Text(name) {}
      case _ => v := Null;
    }
  }

  // A list is not among its own elements.
  lemma LostEnum(e: Any) returns (v: Json)
    requires !KeepsEnum(e)
    ensures !EnumAllows(Encoded(e), v)
  {
    v := Encoded(e);
    if v.Array? { assert v !in v.elems; }
  }

  lemma LostRequired(r: Any)
    requires !KeepsRequired(r)
    ensures !RequiredAllows(Encoded(r), Record(map[]))
  {
    if r.List? && r.items != [] {
      var first := Encoded(r).elems[0];
      assert !(first.String? && first.s in Record(map[]).members);
    }
  }

  // With one keyword, only that one can turn a value away.
  lemma LostHere(node: Any, v: Json)
    requires node.Object? && Translatable(node) && Lone(node)
    requires || ("type" in node.fields && !TypeAllows(Encoded(node.fields["type"]), v) && IsType(KindOf(node), v))
             || ("enum" in node.fields && !KeepsEnum(node.fields["enum"])
                 && !EnumAllows(Encoded(node.fields["enum"]), v))
             || ("required" in node.fields && !node.fields["required"].Texts?
                 && !RequiredAllows(Encoded(node.fields["required"]), v))
    ensures Accepts(Translate(node), v) && !Validates(NOTHING_MORE, Encoded(node), v)
  {
    assert {"type", "enum", "required", "properties", "items"} == KEYWORDS;
    assert "properties" !in node.fields && "items" !in node.fields;
    assert !ValidHere(Encoded(node).members, v);
    hide TypeAllows, EnumAllows, RequiredAllows, JsonSchemaType, Lone, IsType;
  }

  lemma LostMember(node: Any, name: string, w: Json)
    requires node.Object? && Translatable(node) && Lone(node) && "properties" in node.fields
    requires var props := node.fields["properties"];
      props.Object? && name in props.fields && Translatable(props.fields[name])
      && Accepts(Translate(props.fields[name]), w) && !Validates(NOTHING_MORE, Encoded(props.fields[name]), w)
    ensures var v := Record(map[name := w]);
      Accepts(Translate(node), v) && !Validates(NOTHING_MORE, Encoded(node), v)
  {
    var props := node.fields["properties"];
    var v := Record(map[name := w]);
    assert "type" !in node.fields && "enum" !in node.fields && "required" !in node.fields && "items" !in node.fields;
    assert Encoded(node).members["properties"] == Encoded(props);
    assert Encoded(props).members[name] == Encoded(props.fields[name]);
    assert v.members[name] == w;
    assert !ValidMembers(NOTHING_MORE, Encoded(node).members, v) by { hide Lone, Accepts, Validates, JsonSchemaType; }
    assert AcceptsMembers(Translate(node), v) by { hide Lone, Accepts, Validates, JsonSchemaType; }
    assert AcceptedHere(Translate(node), v) && AcceptsElements(Translate(node), v) by { hide Lone; }
    hide Lone, AcceptsMembers, AcceptsElements, AcceptedHere, ValidMembers, Translate;
  }

  lemma LostElement(node: Any, w: Json)
    requires node.Object? && Translatable(node) && Lone(node) && "items" in node.fields
    requires var items := node.fields["items"];
      && (items.Object? ==> Accepts(Translate(items), w)) && !Validates(NOTHING_MORE, Encoded(items), w)
    ensures var v := Array([w]);
      Accepts(Translate(node), v) && !Validates(NOTHING_MORE, Encoded(node), v)
  {
    var v := Array([w]);
    assert "type" !in node.fields && "enum" !in node.fields && "required" !in node.fields;
    assert "properties" !in node.fields;
    assert Encoded(node).members["items"] == Encoded(node.fields["items"]);
    assert v.elems[0] == w;
    assert !ValidElements(NOTHING_MORE, Encoded(node).members, v) by { hide Lone, Accepts, Validates, JsonSchemaType; }
    assert AcceptsElements(Translate(node), v) by { hide Lone, Accepts, Validates, JsonSchemaType; }
    assert AcceptedHere(Translate(node), v) && AcceptsMembers(Translate(node), v) by { hide Lone; }
    hide Lone, AcceptsMembers, AcceptsElements, AcceptedHere, ValidElements, Translate;
  }

  lemma LostProperties(node: Any)
    requires node.Object? && Translatable(node) && Lone(node)
    requires "properties" in node.fields && !node.fields["properties"].Object?
    ensures Accepts(Translate(node), Null) && !Validates(NOTHING_MORE, Encoded(node), Null)
  {
    assert "type" !in node.fields && "enum" !in node.fields && "required" !in node.fields;
    assert Encoded(node).members["properties"] == Encoded(node.fields["properties"]);
  }

  /** A value the typed schema accepts although the fragment does not. */
  lemma {:induction false} LostMeaning(node: Any) returns (v: Json)
    requires node.Object? && Translatable(node) && Lone(node) && !Supported(node)
    ensures Accepts(Translate(node), v) && !Validates(NOTHING_MORE, Encoded(node), v)
    decreases node
  {
    hide Accepts, Validates, Translate, KeepsType, KeepsEnum, TypeAllows, EnumAllows, RequiredAllows;
    var f := node.fields;
    if "type" in f && !KeepsType(f["type"]) {
      v := LostType(f["type"]);
      LostHere(node, v);
    } else if "enum" in f && !KeepsEnum(f["enum"]) {
      v := LostEnum(f["enum"]);
      LostHere(node, v);
    } else if "required" in f && !KeepsRequired(f["required"]) {
      v := Record(map[]);
      LostRequired(f["required"]);
      LostHere(node, v);
    } else if "properties" in f && !f["properties"].Object? {
      v := Null;
      LostProperties(node);
    } else if "properties" in f && !SupportedProperties(f["properties"]) {
      var name :| name in f["properties"].fields && !Supported(f["properties"].fields[name]);
      var w := LostMeaning(f["properties"].fields[name]);
      v := Record(map[name := w]);
      LostMember(node, name, w);
    } else {
      var w := Null;
      if f["items"].Object? { w := LostMeaning(f["items"]); } else { NoSchema(f["items"]); }
      v := Array([w]);
      LostElement(node, w);
    }
  }

  lemma NoSchema(a: Any)
    requires !a.Object? && a != Flag(true)
    ensures !Validates(NOTHING_MORE, Encoded(a), Null)
  {
  }

  /** Keyword by keyword, support is exactly what keeps the meaning: a fragment with no two
      keywords at one node is translated exactly if and only if it is supported. */
  lemma LoneIsExactIff(node: Any)
    requires node.Object? && Translatable(node) && Lone(node)
    ensures Exact(node) <==> Supported(node)
  {
    if Supported(node) {
      forall v ensures Accepts(Translate(node), v) <==> Validates(NOTHING_MORE, Encoded(node), v) {
        TranslationIsExact(node, v);
      }
    } else {
      var v := LostMeaning(node);
    }
  }

  /** The seventh type is lost: the fragment accepts null alone, its translation anything. */
  lemma NullTypeIsLost(v: Json)
    ensures var node := Object(map["type" := Text("null")]);
      Translatable(node) && Accepts(Translate(node), v) && (Validates(NOTHING_MORE, Encoded(node), v) <==> v.Null?)
  {
    var node := Object(map["type" := Text("null")]);
    assert ObjectAt(node, "items") == None && ObjectAt(node, "properties") == None;
    assert Encoded(node).members["type"] == String("null");
  }

  /** An empty enum is lost: the fragment accepts nothing, its translation every string. */
  lemma EmptyEnumIsLost(v: string)
    ensures var node := Object(map["type" := Text("string"), "enum" := Texts([])]);
      Translatable(node) && Accepts(Translate(node), String(v)) && !Validates(NOTHING_MORE, Encoded(node), String(v))
  {
    var node := Object(map["type" := Text("string"), "enum" := Texts([])]);
    assert ObjectAt(node, "items") == None && ObjectAt(node, "properties") == None;
    assert Encoded(node).members["enum"] == Array([]);
  }

  /** So is one whose list is not typed as strings, though it holds nothing else. */
  lemma UntypedEnumIsLost(only: string, v: string)
    requires v != only
    ensures var node := Object(map["type" := Text("string"), "enum" := List([Text(only)])]);
      Translatable(node) && Accepts(Translate(node), String(v)) && !Validates(NOTHING_MORE, Encoded(node), String(v))
  {
    var node := Object(map["type" := Text("string"), "enum" := List([Text(only)])]);
    assert ObjectAt(node, "items") == None && ObjectAt(node, "properties") == None;
    var elems := Encoded(List([Text(only)])).elems;
    assert |elems| == 1 && elems[0] == Encoded(Text(only));
    assert Encoded(node).members["enum"] == Array(elems);
  }

  // The keyword used for the list of decomposed claims: section 6.4.1 of Validation.
  const MAX_ITEMS: Keywords := (schema: Json, v: Json) =>
    schema.Record? && "maxItems" in schema.members && schema.members["maxItems"].Number? && v.Array? ==>
      |v.elems| as real <= schema.members["maxItems"].n

  function StringsUpTo(max: nat): Any {
    Object(map["type" := Text("array"), "items" := Object(map["type" := Text("string")]),
               "maxItems" := Decimal(max as real)])
  }

  /** A `maxItems` is lost on the way. */
  lemma MaxItemsIsLost(max: nat)
    ensures var node, v := StringsUpTo(max), Array(seq(max + 1, _ => String("")));
      Translatable(node) && Accepts(Translate(node), v) && !Validates(MAX_ITEMS, Encoded(node), v)
  {
    var node, v := StringsUpTo(max), Array(seq(max + 1, _ => String("")));
    var item := Object(map["type" := Text("string")]);
    assert ObjectAt(node, "items") == Some(item) && ObjectAt(node, "properties") == None;
    assert ObjectAt(item, "properties") == None && ObjectAt(item, "items") == None;
    assert !MAX_ITEMS(Encoded(node), v) by {
      assert Encoded(node).members["maxItems"] == Number(max as real);
    }
    assert Accepts(Translate(item), String(""));
    forall i | 0 <= i < |v.elems| ensures Accepts(Translate(item), v.elems[i]) {}
    assert AcceptsElements(Translate(node), v) by { hide Validates, Accepts, Encoded; }
    assert AcceptedHere(Translate(node), v) && AcceptsMembers(Translate(node), v) by { hide Validates, Encoded; }
    hide AcceptsElements, AcceptedHere, AcceptsMembers, Translate, ValidHere, ValidMembers, ValidElements;
  }
}
