/**
 The rewriting of a JSON Schema into the strict form the API takes: objects are closed, `oneOf`
 becomes `anyOf`, and what is not supported becomes a note in the description. Nothing that the
 original with closed objects accepts is refused by the result.
 */
module SchemaStrictness {
  import opened Options

  // ----- schemas -----

  datatype Type = One(name: string) | Many(names: seq<string>)

  /** A combinator: absent, present with something other than a list, or a list of variants. */
  datatype Combinator = Absent | NotAList | Variants(list: seq<Schema>)

  datatype Named = Named(name: string, schema: Schema)

  /** An object of schemas by name. */
  datatype Table = NoTable | Table(entries: seq<Named>)

  datatype Additional = Closed | Governed(id: nat)

  /** A schema keyword by keyword; `others` holds the keywords that the rewriting does not know. */
  datatype Schema = Schema(
    defs: Table, ref: Option<string>, typ: Option<Type>,
    anyOf: Combinator, oneOf: Combinator, allOf: Combinator,
    description: Option<string>, title: Option<string>,
    properties: Table, additional: Option<Additional>, required: Option<seq<string>>,
    format: Option<string>, items: Option<Schema>, minItems: Option<int>,
    others: map<string, nat>)

  const EMPTY := Schema(NoTable, None, None, Absent, Absent, Absent, None, None,
                        NoTable, None, None, None, None, None, map[])

  const FORMATS := {"date-time", "time", "date", "duration", "email", "hostname", "uri", "ipv4", "ipv6", "uuid"}

  const OBJECT := Some(One("object"))
  const STRING := Some(One("string"))
  const ARRAY := Some(One("array"))

  /** The rewriting throws on a node that says neither what type it has nor what it is made of. */
  datatype Outcome<+T> = Raised | Done(value: T)

  predicate Supports(format: string) { format in FORMATS }

  predicate SmallMinimum(n: int) { n == 0 || n == 1 }

  // ----- the rewriting -----

  /** What is left of a schema once its supported keywords have been popped. */
  function Leftover(s: Schema): Schema {
    var rest := s.(defs := NoTable, ref := None, typ := None, anyOf := Absent, oneOf := Absent, allOf := Absent,
                   description := None, title := None);
    if s.typ == OBJECT then rest.(properties := NoTable, additional := None, required := None)
    else if s.typ == STRING then
      rest.(format := if s.format.Some? && Supports(s.format.value) then None else s.format)
    else if s.typ == ARRAY then
      rest.(items := None, minItems := if s.minItems.Some? && SmallMinimum(s.minItems.value) then None else s.minItems)
    else rest
  }

  /** The description, with a note of what is left over if anything is. */
  function Described(description: Option<string>, left: Schema, write: Schema -> string): Option<string> {
    if left == EMPTY then description
    else
      var before := Or(description, "");
      Some((if before != "" then before + "\n\n" else "") + "{" + write(left) + "}")
  }

  function StrictList(list: seq<Schema>, write: Schema -> string): (r: Outcome<seq<Schema>>)
    ensures r.Done? ==> |r.value| == |list|
    decreases list, 0
  {
    if list == [] then Done([])
    else
      var earlier, last := StrictList(list[..|list| - 1], write), Strict(list[|list| - 1], write);
      if earlier.Raised? || last.Raised? then Raised else Done(earlier.value + [last.value])
  }

  function StrictNamed(list: seq<Named>, write: Schema -> string): (r: Outcome<seq<Named>>)
    ensures r.Done? ==> |r.value| == |list|
    decreases list, 0
  {
    if list == [] then Done([])
    else
      var earlier, last := StrictNamed(list[..|list| - 1], write), Strict(list[|list| - 1].schema, write);
      if earlier.Raised? || last.Raised? then Raised
      else Done(earlier.value + [Named(list[|list| - 1].name, last.value)])
  }

  /** The schemas of a table, none if there is no table. */
  function StrictTable(t: Table, write: Schema -> string): Outcome<seq<Named>>
    decreases t, 0
  {
    if t.NoTable? then Done([]) else StrictNamed(t.entries, write)
  }

  /** What the node is made of: the first combinator that is a list, or else its type. */
  function StrictShape(s: Schema, write: Schema -> string): Outcome<Schema>
    decreases s, 0
  {
    if s.anyOf.Variants? then
      match StrictList(s.anyOf.list, write)
      case Raised => Raised
      case Done(list) => Done(EMPTY.(anyOf := Variants(list)))
    else if s.oneOf.Variants? then
      match StrictList(s.oneOf.list, write)
      case Raised => Raised
      case Done(list) => Done(EMPTY.(anyOf := Variants(list)))
    else if s.allOf.Variants? then
      match StrictList(s.allOf.list, write)
      case Raised => Raised
      case Done(list) => Done(EMPTY.(allOf := Variants(list)))
    else if s.typ.None? then Raised
    else Done(EMPTY.(typ := s.typ))
  }

  /** The keywords that go with the node's own type. */
  function StrictDetails(s: Schema, strict: Schema, write: Schema -> string): Outcome<Schema>
    decreases s, 0
  {
    if s.typ == OBJECT then
      match StrictTable(s.properties, write)
      case Raised => Raised
      case Done(list) => Done(strict.(properties := Table(list), additional := Some(Closed), required := s.required))
    else if s.typ == STRING then
      Done(if s.format.Some? && Supports(s.format.value) then strict.(format := s.format) else strict)
    else if s.typ == ARRAY then
      var kept :=
        if s.minItems.Some? && SmallMinimum(s.minItems.value) then strict.(minItems := s.minItems) else strict;
      if s.items.None? then Done(kept)
      else
        match Strict(s.items.value, write)
        case Raised => Raised
        case Done(items) => Done(kept.(items := Some(items)))
    else Done(strict)
  }

  function Strict(s: Schema, write: Schema -> string): Outcome<Schema>
    decreases s, 1
  {
    match StrictTable(s.defs, write)
    case Raised => Raised
    case Done(list) =>
      var defs := if s.defs.Table? then Table(list) else NoTable;
      if s.ref.Some? then Done(EMPTY.(defs := defs, ref := s.ref))
      else
        match StrictShape(s, write)
        case Raised => Raised
        case Done(shape) =>
          match StrictDetails(s, shape, write)
          case Raised => Raised
          case Done(strict) =>
            Done(strict.(defs := defs, title := s.title,
                         description := Described(s.description, Leftover(s), write)))
  }

  method TransformList(list: seq<Schema>, write: Schema -> string) returns (r: Outcome<seq<Schema>>)
    ensures r == StrictList(list, write)
    decreases list, 0
  {
    var strict: seq<Schema> := [];
    for i := 0 to |list|
      invariant StrictList(list[..i], write) == Done(strict)
    {
      assert list[..i + 1][..i] == list[..i];
      var node := TransformNode(list[i], write);
      if node.Raised? {
        RaisedStays(list, i + 1, write);
        return Raised;
      }
      strict := strict + [node.value];
    }
    assert list[..|list|] == list;
    r := Done(strict);
  }

  lemma {:induction false} RaisedStays(list: seq<Schema>, n: nat, write: Schema -> string)
    requires n <= |list| && StrictList(list[..n], write).Raised?
    ensures StrictList(list, write).Raised?
  {
    if n == |list| {
      assert list[..n] == list;
    } else {
      assert list[..|list| - 1][..n] == list[..n];
      RaisedStays(list[..|list| - 1], n, write);
    }
  }

  method TransformNamed(list: seq<Named>, write: Schema -> string) returns (r: Outcome<seq<Named>>)
    ensures r == StrictNamed(list, write)
    decreases list, 0
  {
    var strict: seq<Named> := [];
    for i := 0 to |list|
      invariant StrictNamed(list[..i], write) == Done(strict)
    {
      assert list[..i + 1][..i] == list[..i];
      var node := TransformNode(list[i].schema, write);
      if node.Raised? {
        RaisedStaysNamed(list, i + 1, write);
        return Raised;
      }
      strict := strict + [Named(list[i].name, node.value)];
    }
    assert list[..|list|] == list;
    r := Done(strict);
  }

  lemma {:induction false} RaisedStaysNamed(list: seq<Named>, n: nat, write: Schema -> string)
    requires n <= |list| && StrictNamed(list[..n], write).Raised?
    ensures StrictNamed(list, write).Raised?
  {
    if n == |list| {
      assert list[..n] == list;
    } else {
      assert list[..|list| - 1][..n] == list[..n];
      RaisedStaysNamed(list[..|list| - 1], n, write);
    }
  }

  method TransformShape(schema: Schema, write: Schema -> string) returns (r: Outcome<Schema>)
    ensures r == StrictShape(schema, write)
    decreases schema, 0
  {
    if schema.anyOf.Variants? {
      var list := TransformList(schema.anyOf.list, write);
      r := if list.Raised? then Raised else Done(EMPTY.(anyOf := Variants(list.value)));
    } else if schema.oneOf.Variants? {
      var list := TransformList(schema.oneOf.list, write);
      r := if list.Raised? then Raised else Done(EMPTY.(anyOf := Variants(list.value)));
    } else if schema.allOf.Variants? {
      var list := TransformList(schema.allOf.list, write);
      r := if list.Raised? then Raised else Done(EMPTY.(allOf := Variants(list.value)));
    } else {
      r := if schema.typ == None then Raised else Done(EMPTY.(typ := schema.typ));
    }
  }

  /** Keywords are popped off the working copy one after another, and the strict schema is filled field by field. */
  method TransformNode(schema: Schema, write: Schema -> string) returns (r: Outcome<Schema>)
    ensures r == Strict(schema, write)
    decreases schema, 1
  {
    var rest, strict := schema, EMPTY;
    var defs := rest.defs;
    rest := rest.(defs := NoTable);
    if defs.Table? {
      var strictDefs := TransformNamed(defs.entries, write);
      if strictDefs.Raised? {
        return Raised;
      }
      strict := strict.(defs := Table(strictDefs.value));
    }
    var ref := rest.ref;
    rest := rest.(ref := None);
    if ref.Some? {
      return Done(strict.(ref := ref));
    }
    var typ := rest.typ;
    rest := rest.(typ := None, anyOf := Absent, oneOf := Absent, allOf := Absent);
    var shape := TransformShape(schema, write);
    if shape.Raised? {
      return Raised;
    }
    strict := shape.value.(defs := strict.defs);
    strict := strict.(description := rest.description, title := rest.title);
    rest := rest.(description := None, title := None);
    if typ == OBJECT {
      var properties: Outcome<seq<Named>> := Done([]);
      if rest.properties.Table? {
        properties := TransformNamed(rest.properties.entries, write);
      }
      assert properties == StrictTable(schema.properties, write);
      if properties.Raised? {
        return Raised;
      }
      strict := strict.(properties := Table(properties.value), additional := Some(Closed), required := rest.required);
      rest := rest.(properties := NoTable, additional := None, required := None);
    } else if typ == STRING {
      if rest.format.Some? && Supports(rest.format.value) {
        strict := strict.(format := rest.format);
        rest := rest.(format := None);
      }
    } else if typ == ARRAY {
      if rest.items.Some? {
        var items := TransformNode(rest.items.value, write);
        if items.Raised? {
          return Raised;
        }
        strict := strict.(items := Some(items.value));
        rest := rest.(items := None);
      }
      if rest.minItems.Some? && SmallMinimum(rest.minItems.value) {
        strict := strict.(minItems := rest.minItems);
        rest := rest.(minItems := None);
      }
    }
    if rest != EMPTY {
      var existing := Or(strict.description, "");
      var noted := (if existing != "" then existing + "\n\n" else "") + "{" + write(rest) + "}";
      strict := strict.(description := Some(noted));
    }
    r := Done(strict);
  }

  // ----- what a schema accepts -----

  datatype Instance =
    | Null
    | Bool(b: bool)
    | Number(n: real)
    | String(s: string)
    | Array(items: seq<Instance>)
    | Object(members: map<string, Instance>)

  /** One step of a JSON pointer into a schema. */
  datatype Step =
    | Definition(name: string)
    | Property(name: string)
    | AnyOfAt(i: nat)
    | OneOfAt(i: nat)
    | AllOfAt(i: nat)
    | ItemSchema

  /** What schemas leave open: which pointer from the root a reference is, formats, and all other keywords. */
  datatype Rules = Rules(target: string -> Option<seq<Step>>, fits: (string, string) -> bool,
                         others: (map<string, nat>, Instance) -> bool, governed: (nat, Instance) -> bool)

  predicate IsOf(name: string, v: Instance) {
    match v
    case Null => name == "null"
    case Bool(_) => name == "boolean"
    case Number(n) => name == "number" || (name == "integer" && n.Floor as real == n)
    case String(_) => name == "string"
    case Array(_) => name == "array"
    case Object(_) => name == "object"
  }

  predicate HasType(t: Type, v: Instance) {
    match t
    case One(name) => IsOf(name, v)
    case Many(names) => exists i :: 0 <= i < |names| && IsOf(names[i], v)
  }

  function Find(entries: seq<Named>, name: string): Option<Schema> {
    if entries == [] then None
    else if entries[|entries| - 1].name == name then Some(entries[|entries| - 1].schema)
    else Find(entries[..|entries| - 1], name)
  }

  function InTable(t: Table, name: string): Option<Schema> { if t.Table? then Find(t.entries, name) else None }

  function Variant(c: Combinator, i: nat): Option<Schema> {
    if c.Variants? && i < |c.list| then Some(c.list[i]) else None
  }

  function Follow(s: Schema, step: Step): Option<Schema> {
    match step
    case Definition(name) => InTable(s.defs, name)
    case Property(name) => InTable(s.properties, name)
    case AnyOfAt(i) => Variant(s.anyOf, i)
    case OneOfAt(i) => Variant(s.oneOf, i)
    case AllOfAt(i) => Variant(s.allOf, i)
    case ItemSchema => s.items
  }

  function Lead(s: Schema, path: seq<Step>): Option<Schema>
    decreases |path|
  {
    if path == [] then Some(s)
    else
      match Follow(s, path[0])
      case None => None
      case Some(u) => Lead(u, path[1..])
  }

  function Resolve(root: Schema, ref: string, o: Rules): Option<Schema> {
    match o.target(ref)
    case Some(path) => Lead(root, path)
    case None => None
  }

  predicate Declares(t: Table, name: string) {
    t.Table? && exists i :: 0 <= i < |t.entries| && t.entries[i].name == name
  }

  predicate OnlyDeclared(t: Table, v: Instance) {
    v.Object? ==> forall k :: k in v.members ==> Declares(t, k)
  }

  /**
   `s` accepts `v`, following at most `depth` references one after another. In the closed reading an
   object-typed node has no members but those it declares.
   */
  ghost predicate Accepts(root: Schema, s: Schema, v: Instance, closed: bool, depth: nat, o: Rules)
    decreases depth, s, 1
  {
    && AcceptsRef(root, s, v, closed, depth, o)
    && AcceptsShape(root, s, v, closed, depth, o)
    && AcceptsMembers(root, s, v, closed, depth, o)
    && AcceptsItems(root, s, v, closed, depth, o)
    && (s.format.Some? && v.String? ==> o.fits(s.format.value, v.s))
    && (s.others != map[] ==> o.others(s.others, v))
  }

  ghost predicate AcceptsRef(root: Schema, s: Schema, v: Instance, closed: bool, depth: nat, o: Rules)
    decreases depth, s, 0
  {
    s.ref.Some? ==>
      var t := Resolve(root, s.ref.value, o);
      t.Some? && depth > 0 && Accepts(root, t.value, v, closed, depth - 1, o)
  }

  ghost predicate AcceptsShape(root: Schema, s: Schema, v: Instance, closed: bool, depth: nat, o: Rules)
    decreases depth, s, 0
  {
    && (s.typ.Some? ==> HasType(s.typ.value, v))
    && (s.anyOf.Variants? ==>
         exists i :: 0 <= i < |s.anyOf.list| && Accepts(root, s.anyOf.list[i], v, closed, depth, o))
    && (s.oneOf.Variants? ==>
         exists i :: 0 <= i < |s.oneOf.list| && Accepts(root, s.oneOf.list[i], v, closed, depth, o)
           && forall j :: 0 <= j < |s.oneOf.list| && j != i ==> !Accepts(root, s.oneOf.list[j], v, closed, depth, o))
    && (s.allOf.Variants? ==>
         forall i :: 0 <= i < |s.allOf.list| ==> Accepts(root, s.allOf.list[i], v, closed, depth, o))
  }

  ghost predicate AcceptsMembers(root: Schema, s: Schema, v: Instance, closed: bool, depth: nat, o: Rules)
    decreases depth, s, 0
  {
    v.Object? ==>
      && (s.properties.Table? ==>
           forall i :: 0 <= i < |s.properties.entries| && s.properties.entries[i].name in v.members ==>
             Accepts(root, s.properties.entries[i].schema, v.members[s.properties.entries[i].name], closed, depth, o))
      && (s.additional == Some(Closed) || (closed && s.typ == OBJECT) ==> OnlyDeclared(s.properties, v))
      && (s.additional.Some? && s.additional.value.Governed? ==> o.governed(s.additional.value.id, v))
      && (s.required.Some? ==> forall i :: 0 <= i < |s.required.value| ==> s.required.value[i] in v.members)
  }

  ghost predicate AcceptsItems(root: Schema, s: Schema, v: Instance, closed: bool, depth: nat, o: Rules)
    decreases depth, s, 0
  {
    v.Array? ==>
      && (s.items.Some? ==>
           forall i :: 0 <= i < |v.items| ==> Accepts(root, s.items.value, v.items[i], closed, depth, o))
      && (s.minItems.Some? ==> |v.items| >= s.minItems.value)
  }

  predicate Combined(s: Schema) { s.anyOf.Variants? || s.oneOf.Variants? || s.allOf.Variants? }

  // ----- the strict form, keyword by keyword -----

  lemma {:induction false} StrictListAt(list: seq<Schema>, i: nat, write: Schema -> string)
    requires StrictList(list, write).Done? && i < |list|
    ensures Strict(list[i], write) == Done(StrictList(list, write).value[i])
  {
    if i < |list| - 1 { StrictListAt(list[..|list| - 1], i, write); }
  }

  lemma {:induction false} StrictNamedAt(list: seq<Named>, i: nat, write: Schema -> string)
    requires StrictNamed(list, write).Done? && i < |list|
    ensures var strict := StrictNamed(list, write).value[i];
      strict.name == list[i].name && Strict(list[i].schema, write) == Done(strict.schema)
  {
    if i < |list| - 1 { StrictNamedAt(list[..|list| - 1], i, write); }
  }

  lemma {:induction false} FindStrict(list: seq<Named>, name: string, write: Schema -> string)
    requires StrictNamed(list, write).Done?
    ensures var was, now := Find(list, name), Find(StrictNamed(list, write).value, name);
      (was.Some? <==> now.Some?) && (was.Some? ==> Strict(was.value, write) == Done(now.value))
  {
    if list != [] {
      var earlier := list[..|list| - 1];
      FindStrict(earlier, name, write);
      var strict := StrictNamed(list, write).value;
      assert strict[..|strict| - 1] == StrictNamed(earlier, write).value;
    }
  }

  lemma DefsOf(s: Schema, t: Schema, write: Schema -> string)
    requires Strict(s, write) == Done(t)
    ensures s.defs.Table? ==>
      StrictNamed(s.defs.entries, write).Done? && t.defs == Table(StrictNamed(s.defs.entries, write).value)
    ensures s.defs.NoTable? ==> t.defs == NoTable
  {
    hide StrictShape, StrictDetails, Described, Leftover;
    assert StrictTable(s.defs, write).Done?;
  }

  /** The strict form of a node without a reference, stage by stage. */
  lemma StrictIs(s: Schema, t: Schema, write: Schema -> string)
    requires Strict(s, write) == Done(t) && s.ref.None?
    ensures StrictShape(s, write).Done? && StrictDetails(s, StrictShape(s, write).value, write).Done?
    ensures t == StrictDetails(s, StrictShape(s, write).value, write).value
                 .(defs := t.defs, title := s.title, description := Described(s.description, Leftover(s), write))
  {
    hide StrictTable, StrictShape, StrictDetails, Described, Leftover;
  }

  /** The shape sets nothing but a combinator or the type. */
  lemma ShapeFrame(s: Schema, write: Schema -> string)
    requires StrictShape(s, write).Done?
    ensures var shape := StrictShape(s, write).value;
      shape == EMPTY.(anyOf := shape.anyOf, allOf := shape.allOf, typ := shape.typ)
  {
    hide StrictList;
  }

  /** The details set nothing but the keywords that go with the type. */
  lemma DetailsFrame(s: Schema, strict: Schema, write: Schema -> string)
    requires StrictDetails(s, strict, write).Done?
    ensures var u := StrictDetails(s, strict, write).value;
      u == strict.(properties := u.properties, additional := u.additional, required := u.required,
                   format := u.format, items := u.items, minItems := u.minItems)
  {
    hide Strict, StrictTable, Supports, SmallMinimum;
  }

  /** One combinator, or else the type. */
  lemma ShapeOf(s: Schema, t: Schema, write: Schema -> string)
    requires Strict(s, write) == Done(t) && s.ref.None?
    ensures StrictShape(s, write).Done? && t.ref.None? && t.oneOf.Absent?
    ensures var shape := StrictShape(s, write).value;
      t.anyOf == shape.anyOf && t.allOf == shape.allOf && t.typ == shape.typ
    ensures t.others == map[]
  {
    StrictIs(s, t, write);
    ShapeFrame(s, write);
    DetailsFrame(s, StrictShape(s, write).value, write);
    hide Strict, StrictShape, StrictDetails, Described, Leftover;
  }

  lemma MembersOf(s: Schema, strict: Schema, write: Schema -> string)
    requires StrictDetails(s, strict, write).Done?
    requires strict.properties == NoTable && strict.additional == None && strict.required == None
    ensures var u := StrictDetails(s, strict, write).value;
      && (s.typ == OBJECT ==>
           && StrictTable(s.properties, write).Done? && u.properties == Table(StrictTable(s.properties, write).value)
           && u.additional == Some(Closed) && u.required == s.required)
      && (s.typ != OBJECT ==> u.properties == NoTable && u.additional == None && u.required == None)
  {
    hide Strict, StrictTable, Supports, SmallMinimum;
  }

  lemma ItemsOf(s: Schema, strict: Schema, write: Schema -> string)
    requires StrictDetails(s, strict, write).Done?
    requires strict.items == None && strict.format == None && strict.minItems == None
    ensures var u := StrictDetails(s, strict, write).value;
      && (u.items.Some? <==> s.typ == ARRAY && s.items.Some?)
      && (u.items.Some? ==> Strict(s.items.value, write) == Done(u.items.value))
      && u.format == (if s.typ == STRING && s.format.Some? && Supports(s.format.value) then s.format else None)
      && u.minItems == (if s.typ == ARRAY && s.minItems.Some? && SmallMinimum(s.minItems.value) then s.minItems
                        else None)
  {
    hide Strict, StrictTable, Supports, SmallMinimum;
  }

  /** The keywords that go with the type. */
  lemma DetailsOf(s: Schema, t: Schema, write: Schema -> string)
    requires Strict(s, write) == Done(t) && s.ref.None?
    ensures s.typ == OBJECT ==>
      && StrictTable(s.properties, write).Done? && t.properties == Table(StrictTable(s.properties, write).value)
      && t.additional == Some(Closed) && t.required == s.required
    ensures s.typ != OBJECT ==> t.properties == NoTable && t.additional == None && t.required == None
    ensures t.items.Some? <==> s.typ == ARRAY && s.items.Some?
    ensures t.items.Some? ==> Strict(s.items.value, write) == Done(t.items.value)
  {
    StrictIs(s, t, write);
    ShapeFrame(s, write);
    MembersOf(s, StrictShape(s, write).value, write);
    ItemsOf(s, StrictShape(s, write).value, write);
    hide Strict, StrictShape, StrictDetails, StrictTable, Described, Leftover;
  }

  lemma KeptOf(s: Schema, t: Schema, write: Schema -> string)
    requires Strict(s, write) == Done(t) && s.ref.None?
    ensures t.format == if s.typ == STRING && s.format.Some? && Supports(s.format.value) then s.format else None
    ensures t.minItems ==
      if s.typ == ARRAY && s.minItems.Some? && SmallMinimum(s.minItems.value) then s.minItems else None
    ensures t.title == s.title
  {
    StrictIs(s, t, write);
    ShapeFrame(s, write);
    ItemsOf(s, StrictShape(s, write).value, write);
    hide Strict, StrictShape, StrictDetails, Described, Leftover, Supports, SmallMinimum;
  }

  // ----- references -----

  /** The rewriting leaves the step something to find: definitions always, `oneOf` never, the rest by the node. */
  predicate StepKept(s: Schema, step: Step) {
    match step
    case Definition(_) => true
    case Property(_) => s.ref.None? && s.typ == OBJECT
    case AnyOfAt(_) => s.ref.None?
    case OneOfAt(_) => false
    case AllOfAt(_) => s.ref.None? && !s.anyOf.Variants? && !s.oneOf.Variants?
    case ItemSchema => s.ref.None? && s.typ == ARRAY
  }

  predicate PathKept(s: Schema, path: seq<Step>)
    decreases |path|
  {
    path == []
    || (StepKept(s, path[0]) && var u := Follow(s, path[0]); u.Some? ==> PathKept(u.value, path[1..]))
  }

  lemma VariantStrict(list: seq<Schema>, i: nat, write: Schema -> string)
    requires StrictList(list, write).Done?
    ensures var was, now := Variant(Variants(list), i), Variant(Variants(StrictList(list, write).value), i);
      (was.Some? <==> now.Some?) && (was.Some? ==> Strict(was.value, write) == Done(now.value))
  {
    if i < |list| { StrictListAt(list, i, write); }
  }

  lemma TableStrict(list: seq<Named>, name: string, write: Schema -> string)
    requires StrictNamed(list, write).Done?
    ensures var was, now := InTable(Table(list), name), InTable(Table(StrictNamed(list, write).value), name);
      (was.Some? <==> now.Some?) && (was.Some? ==> Strict(was.value, write) == Done(now.value))
  {
    FindStrict(list, name, write);
  }

  /** The strict form of a node with a reference has nothing but that and its definitions. */
  lemma ReferenceOnly(s: Schema, t: Schema, write: Schema -> string)
    requires Strict(s, write) == Done(t) && s.ref.Some?
    ensures t == EMPTY.(defs := t.defs, ref := s.ref)
  {
    hide StrictTable, StrictShape, StrictDetails, Described, Leftover;
  }

  /** One step leads to the strict form of what it led to, if it is kept, and nowhere else. */
  lemma FollowStrict(s: Schema, t: Schema, step: Step, write: Schema -> string)
    requires Strict(s, write) == Done(t) && Follow(s, step).Some?
    ensures Follow(t, step).Some? <==> StepKept(s, step)
    ensures StepKept(s, step) ==> Strict(Follow(s, step).value, write) == Done(Follow(t, step).value)
  {
    DefsOf(s, t, write);
    if step.Definition? { TableStrict(s.defs.entries, step.name, write); }
    if s.ref.Some? {
      ReferenceOnly(s, t, write);
    } else {
      ShapeOf(s, t, write);
      DetailsOf(s, t, write);
      hide Strict, InTable;
      match step
      case Property(name) =>
        if s.typ == OBJECT { TableStrict(s.properties.entries, name, write); }
      case AnyOfAt(i) => VariantStrict(s.anyOf.list, i, write);
      case AllOfAt(i) =>
        if StepKept(s, step) { VariantStrict(s.allOf.list, i, write); }
      case _ =>
    }
  }

  /** A pointer that led somewhere leads to its strict form exactly when all its steps are kept. */
  lemma {:induction false} PathLeads(s: Schema, t: Schema, path: seq<Step>, write: Schema -> string)
    requires Strict(s, write) == Done(t) && Lead(s, path).Some?
    ensures Lead(t, path).Some? <==> PathKept(s, path)
    ensures PathKept(s, path) ==> Strict(Lead(s, path).value, write) == Done(Lead(t, path).value)
    decreases |path|
  {
    if path != [] {
      FollowStrict(s, t, path[0], write);
      hide Strict, Follow, StepKept;
      if StepKept(s, path[0]) {
        PathLeads(Follow(s, path[0]).value, Follow(t, path[0]).value, path[1..], write);
      }
    }
  }

  predicate RefKept(root: Schema, ref: string, o: Rules) {
    Resolve(root, ref, o).Some? ==> PathKept(root, o.target(ref).value)
  }

  /** All references in `s` that lead somewhere are kept. */
  predicate KeepsRefs(root: Schema, s: Schema, o: Rules)
    decreases s, 1
  {
    && (s.ref.Some? ==> RefKept(root, s.ref.value, o))
    && KeepsTable(root, s.defs, o) && KeepsTable(root, s.properties, o)
    && KeepsVariants(root, s.anyOf, o) && KeepsVariants(root, s.oneOf, o) && KeepsVariants(root, s.allOf, o)
    && (s.items.Some? ==> KeepsRefs(root, s.items.value, o))
  }

  predicate KeepsTable(root: Schema, t: Table, o: Rules)
    decreases t, 0
  {
    t.Table? ==> forall i :: 0 <= i < |t.entries| ==> KeepsRefs(root, t.entries[i].schema, o)
  }

  predicate KeepsVariants(root: Schema, c: Combinator, o: Rules)
    decreases c, 0
  {
    c.Variants? ==> forall i :: 0 <= i < |c.list| ==> KeepsRefs(root, c.list[i], o)
  }

  lemma {:induction false} FindKeeps(root: Schema, entries: seq<Named>, name: string, o: Rules)
    requires forall i :: 0 <= i < |entries| ==> KeepsRefs(root, entries[i].schema, o)
    ensures Find(entries, name).Some? ==> KeepsRefs(root, Find(entries, name).value, o)
  {
    hide KeepsRefs;
    if entries != [] && entries[|entries| - 1].name != name { FindKeeps(root, entries[..|entries| - 1], name, o); }
  }

  lemma FollowKeeps(root: Schema, s: Schema, step: Step, o: Rules)
    requires KeepsRefs(root, s, o) && Follow(s, step).Some?
    ensures KeepsRefs(root, Follow(s, step).value, o)
  {
    match step
    case Definition(name) => FindKeeps(root, s.defs.entries, name, o);
    case Property(name) => FindKeeps(root, s.properties.entries, name, o);
    case _ =>
  }

  lemma {:induction false} LeadKeeps(root: Schema, s: Schema, path: seq<Step>, o: Rules)
    requires KeepsRefs(root, s, o) && Lead(s, path).Some?
    ensures KeepsRefs(root, Lead(s, path).value, o)
    decreases |path|
  {
    if path != [] {
      FollowKeeps(root, s, path[0], o);
      hide KeepsRefs, Follow;
      LeadKeeps(root, Follow(s, path[0]).value, path[1..], o);
    }
  }

  /** A reference that is kept leads to the strict form of what it led to. */
  lemma ResolveStrict(root: Schema, troot: Schema, ref: string, o: Rules, write: Schema -> string)
    requires Strict(root, write) == Done(troot) && KeepsRefs(root, root, o)
    requires Resolve(root, ref, o).Some? && RefKept(root, ref, o)
    ensures var was, now := Resolve(root, ref, o).value, Resolve(troot, ref, o);
      now.Some? && Strict(was, write) == Done(now.value) && KeepsRefs(root, was, o)
  {
    hide KeepsRefs, Strict;
    PathLeads(root, troot, o.target(ref).value, write);
    LeadKeeps(root, root, o.target(ref).value, o);
  }

  // ----- nothing that was accepted is refused -----

  lemma SoundShape(root: Schema, troot: Schema, s: Schema, t: Schema, v: Instance, depth: nat, o: Rules,
                   write: Schema -> string)
    requires Strict(root, write) == Done(troot) && Strict(s, write) == Done(t) && s.ref.None?
    requires KeepsRefs(root, root, o) && KeepsRefs(root, s, o)
    requires AcceptsShape(root, s, v, true, depth, o)
    ensures AcceptsShape(troot, t, v, false, depth, o)
    decreases depth, s, 0
  {
    ShapeOf(s, t, write);
    hide Strict, HasType, Accepts, StrictList;
    if s.anyOf.Variants? {
      var i :| 0 <= i < |s.anyOf.list| && Accepts(root, s.anyOf.list[i], v, true, depth, o);
      SoundVariant(root, troot, s.anyOf.list, i, v, depth, o, write);
      assert 0 <= i < |t.anyOf.list| && Accepts(troot, t.anyOf.list[i], v, false, depth, o);
    } else if s.oneOf.Variants? {
      var i :| 0 <= i < |s.oneOf.list| && Accepts(root, s.oneOf.list[i], v, true, depth, o);
      SoundVariant(root, troot, s.oneOf.list, i, v, depth, o, write);
      assert 0 <= i < |t.anyOf.list| && Accepts(troot, t.anyOf.list[i], v, false, depth, o);
    } else if s.allOf.Variants? {
      forall i | 0 <= i < |t.allOf.list|
        ensures Accepts(troot, t.allOf.list[i], v, false, depth, o)
      {
        SoundVariant(root, troot, s.allOf.list, i, v, depth, o, write);
      }
    }
  }

  lemma SoundVariant(root: Schema, troot: Schema, list: seq<Schema>, i: nat, v: Instance, depth: nat, o: Rules,
                     write: Schema -> string)
    requires Strict(root, write) == Done(troot) && StrictList(list, write).Done? && i < |list|
    requires KeepsRefs(root, root, o) && KeepsRefs(root, list[i], o)
    requires Accepts(root, list[i], v, true, depth, o)
    ensures Accepts(troot, StrictList(list, write).value[i], v, false, depth, o)
    decreases depth, list, 0
  {
    StrictListAt(list, i, write);
    SoundNode(root, troot, list[i], StrictList(list, write).value[i], v, depth, o, write);
  }

  lemma SoundMembers(root: Schema, troot: Schema, s: Schema, t: Schema, v: Instance, depth: nat, o: Rules,
                     write: Schema -> string)
    requires Strict(root, write) == Done(troot) && Strict(s, write) == Done(t) && s.ref.None?
    requires KeepsRefs(root, root, o) && KeepsRefs(root, s, o)
    requires AcceptsMembers(root, s, v, true, depth, o)
    ensures AcceptsMembers(troot, t, v, false, depth, o)
    decreases depth, s, 0
  {
    DetailsOf(s, t, write);
    hide Strict;
    if s.typ == OBJECT && v.Object? {
      if s.properties.Table? {
        var was, now := s.properties.entries, t.properties.entries;
        assert now == StrictNamed(was, write).value;
        forall i | 0 <= i < |now|
          ensures now[i].name == was[i].name
          ensures now[i].name in v.members ==> Accepts(troot, now[i].schema, v.members[now[i].name], false, depth, o)
        {
          StrictNamedAt(was, i, write);
          if now[i].name in v.members {
            SoundNode(root, troot, was[i].schema, now[i].schema, v.members[now[i].name], depth, o, write);
          }
        }
        DeclaredStill(s.properties, t.properties, v);
      } else {
        assert forall k :: k in v.members ==> Declares(s.properties, k);
        assert t.properties.entries == [];
      }
    }
  }

  lemma DeclaredStill(was: Table, now: Table, v: Instance)
    requires was.Table? && now.Table? && |was.entries| == |now.entries|
    requires forall i :: 0 <= i < |now.entries| ==> now.entries[i].name == was.entries[i].name
    requires OnlyDeclared(was, v)
    ensures OnlyDeclared(now, v)
  {
    if v.Object? {
      forall k | k in v.members
        ensures Declares(now, k)
      {
        assert Declares(was, k);
        var i :| 0 <= i < |was.entries| && was.entries[i].name == k;
        assert now.entries[i].name == k;
      }
    }
  }

  lemma SoundItems(root: Schema, troot: Schema, s: Schema, t: Schema, v: Instance, depth: nat, o: Rules,
                   write: Schema -> string)
    requires Strict(root, write) == Done(troot) && Strict(s, write) == Done(t) && s.ref.None?
    requires KeepsRefs(root, root, o) && KeepsRefs(root, s, o)
    requires AcceptsItems(root, s, v, true, depth, o)
    ensures AcceptsItems(troot, t, v, false, depth, o)
    decreases depth, s, 0
  {
    DetailsOf(s, t, write);
    KeptOf(s, t, write);
    hide Strict;
    if v.Array? && t.items.Some? {
      forall i | 0 <= i < |v.items|
        ensures Accepts(troot, t.items.value, v.items[i], false, depth, o)
      {
        SoundNode(root, troot, s.items.value, t.items.value, v.items[i], depth, o, write);
      }
    }
  }

  lemma {:induction false} SoundNode(root: Schema, troot: Schema, s: Schema, t: Schema, v: Instance, depth: nat,
                                     o: Rules, write: Schema -> string)
    requires Strict(root, write) == Done(troot) && Strict(s, write) == Done(t)
    requires KeepsRefs(root, root, o) && KeepsRefs(root, s, o)
    requires Accepts(root, s, v, true, depth, o)
    ensures Accepts(troot, t, v, false, depth, o)
    decreases depth, s, 1
  {
    if s.ref.Some? {
      ResolveStrict(root, troot, s.ref.value, o, write);
      var was := Resolve(root, s.ref.value, o).value;
      SoundNode(root, troot, was, Strict(was, write).value, v, depth - 1, o, write);
    } else {
      SoundShape(root, troot, s, t, v, depth, o, write);
      SoundMembers(root, troot, s, t, v, depth, o, write);
      SoundItems(root, troot, s, t, v, depth, o, write);
      ShapeOf(s, t, write);
      KeptOf(s, t, write);
    }
  }

  /**
   Whatever an original schema accepts when its object-typed nodes are read as closed, its strict form
   accepts as it stands, if the references that lead somewhere are kept.
   */
  lemma Sound(root: Schema, v: Instance, depth: nat, o: Rules, write: Schema -> string)
    requires Strict(root, write).Done? && KeepsRefs(root, root, o) && Accepts(root, root, v, true, depth, o)
    ensures Accepts(Strict(root, write).value, Strict(root, write).value, v, false, depth, o)
  {
    SoundNode(root, Strict(root, write).value, root, Strict(root, write).value, v, depth, o, write);
  }

  // ----- and nothing more is accepted where nothing had to be dropped -----

  /** Nothing to note, no second combinator, no type beside one, no `oneOf`, nothing beside a reference. */
  predicate PlainNode(s: Schema) {
    if s.ref.Some? then s == EMPTY.(defs := s.defs, ref := s.ref)
    else
      && Leftover(s) == EMPTY
      && !s.oneOf.Variants? && !(s.anyOf.Variants? && s.allOf.Variants?)
      && (Combined(s) ==> s.typ == None)
      && (s.additional.Some? ==> s.additional.value.Closed?)
  }

  predicate Plain(s: Schema)
    decreases s, 1
  {
    && PlainNode(s) && PlainTable(s.defs) && PlainTable(s.properties)
    && (s.anyOf.Variants? ==> forall i :: 0 <= i < |s.anyOf.list| ==> Plain(s.anyOf.list[i]))
    && (s.allOf.Variants? ==> forall i :: 0 <= i < |s.allOf.list| ==> Plain(s.allOf.list[i]))
    && (s.items.Some? ==> Plain(s.items.value))
  }

  predicate PlainTable(t: Table)
    decreases t, 0
  {
    t.Table? ==> forall i :: 0 <= i < |t.entries| ==> Plain(t.entries[i].schema)
  }

  lemma {:induction false} FindPlain(entries: seq<Named>, name: string)
    requires forall i :: 0 <= i < |entries| ==> Plain(entries[i].schema)
    ensures Find(entries, name).Some? ==> Plain(Find(entries, name).value)
  {
    if entries != [] && entries[|entries| - 1].name != name { FindPlain(entries[..|entries| - 1], name); }
  }

  /** What a step leads to in the strict form of a plain node, it led to before. */
  lemma FollowPlain(s: Schema, t: Schema, step: Step, write: Schema -> string)
    requires Strict(s, write) == Done(t) && Plain(s)
    ensures Follow(s, step).Some? <==> Follow(t, step).Some?
    ensures Follow(s, step).Some? ==>
      && StepKept(s, step) && Plain(Follow(s, step).value)
      && Strict(Follow(s, step).value, write) == Done(Follow(t, step).value)
  {
    DefsOf(s, t, write);
    if step.Definition? && s.defs.Table? {
      TableStrict(s.defs.entries, step.name, write);
      FindPlain(s.defs.entries, step.name);
    }
    if s.ref.Some? {
      ReferenceOnly(s, t, write);
    } else {
      ShapeOf(s, t, write);
      DetailsOf(s, t, write);
      hide Strict;
      match step
      case Property(name) =>
        if s.properties.Table? {
          TableStrict(s.properties.entries, name, write);
          FindPlain(s.properties.entries, name);
        }
      case AnyOfAt(i) =>
        if s.anyOf.Variants? { VariantStrict(s.anyOf.list, i, write); }
      case AllOfAt(i) =>
        if s.allOf.Variants? { VariantStrict(s.allOf.list, i, write); }
      case _ =>
    }
  }

  lemma {:induction false} LeadPlain(s: Schema, t: Schema, path: seq<Step>, write: Schema -> string)
    requires Strict(s, write) == Done(t) && Plain(s)
    ensures Lead(s, path).Some? <==> Lead(t, path).Some?
    ensures Lead(s, path).Some? ==>
      PathKept(s, path) && Plain(Lead(s, path).value) && Strict(Lead(s, path).value, write) == Done(Lead(t, path).value)
    decreases |path|
  {
    if path != [] {
      FollowPlain(s, t, path[0], write);
      hide Strict, Follow, StepKept, Plain;
      if Follow(s, path[0]).Some? {
        LeadPlain(Follow(s, path[0]).value, Follow(t, path[0]).value, path[1..], write);
      }
    }
  }

  /** A reference of the strict form led somewhere before. */
  lemma ResolvePlain(root: Schema, troot: Schema, ref: string, o: Rules, write: Schema -> string)
    requires Strict(root, write) == Done(troot) && Plain(root) && Resolve(troot, ref, o).Some?
    ensures Resolve(root, ref, o).Some? && Plain(Resolve(root, ref, o).value)
    ensures Strict(Resolve(root, ref, o).value, write) == Done(Resolve(troot, ref, o).value)
  {
    hide Strict, Plain;
    LeadPlain(root, troot, o.target(ref).value, write);
  }

  /** A plain schema keeps its references. */
  lemma {:induction false} PlainKeeps(root: Schema, s: Schema, o: Rules, write: Schema -> string)
    requires Strict(root, write).Done? && Plain(root) && Plain(s)
    ensures KeepsRefs(root, s, o)
    decreases s, 1
  {
    hide Strict, PlainNode, PathKept;
    if s.ref.Some? && Resolve(root, s.ref.value, o).Some? {
      LeadPlain(root, Strict(root, write).value, o.target(s.ref.value).value, write);
    }
    PlainTableKeeps(root, s.defs, o, write);
    PlainTableKeeps(root, s.properties, o, write);
    PlainVariantsKeep(root, s.anyOf, o, write);
    PlainVariantsKeep(root, s.allOf, o, write);
    if s.items.Some? { PlainKeeps(root, s.items.value, o, write); }
    assert !s.oneOf.Variants? by { PlainNodeHasNoOneOf(s); }
  }

  lemma PlainNodeHasNoOneOf(s: Schema)
    requires PlainNode(s)
    ensures !s.oneOf.Variants?
  {
  }

  lemma PlainTableKeeps(root: Schema, t: Table, o: Rules, write: Schema -> string)
    requires Strict(root, write).Done? && Plain(root) && PlainTable(t)
    ensures KeepsTable(root, t, o)
    decreases t, 0
  {
    if t.Table? {
      forall i | 0 <= i < |t.entries|
        ensures KeepsRefs(root, t.entries[i].schema, o)
      {
        PlainKeeps(root, t.entries[i].schema, o, write);
      }
    }
  }

  lemma PlainVariantsKeep(root: Schema, c: Combinator, o: Rules, write: Schema -> string)
    requires Strict(root, write).Done? && Plain(root)
    requires c.Variants? ==> forall i :: 0 <= i < |c.list| ==> Plain(c.list[i])
    ensures KeepsVariants(root, c, o)
    decreases c, 0
  {
    if c.Variants? {
      forall i | 0 <= i < |c.list|
        ensures KeepsRefs(root, c.list[i], o)
      {
        PlainKeeps(root, c.list[i], o, write);
      }
    }
  }

  lemma ExactVariant(root: Schema, troot: Schema, list: seq<Schema>, i: nat, v: Instance, depth: nat, o: Rules,
                     write: Schema -> string)
    requires Strict(root, write) == Done(troot) && Plain(root)
    requires StrictList(list, write).Done? && i < |list| && Plain(list[i])
    requires Accepts(troot, StrictList(list, write).value[i], v, false, depth, o)
    ensures Accepts(root, list[i], v, true, depth, o)
    decreases depth, list, 0
  {
    StrictListAt(list, i, write);
    ExactNode(root, troot, list[i], StrictList(list, write).value[i], v, depth, o, write);
  }

  lemma ExactShape(root: Schema, troot: Schema, s: Schema, t: Schema, v: Instance, depth: nat, o: Rules,
                   write: Schema -> string)
    requires Strict(root, write) == Done(troot) && Plain(root) && Strict(s, write) == Done(t) && Plain(s) && s.ref.None?
    requires AcceptsShape(troot, t, v, false, depth, o)
    ensures AcceptsShape(root, s, v, true, depth, o)
    decreases depth, s, 0
  {
    ShapeOf(s, t, write);
    hide Strict, HasType, Leftover, Accepts, StrictList;
    if s.anyOf.Variants? {
      var i :| 0 <= i < |t.anyOf.list| && Accepts(troot, t.anyOf.list[i], v, false, depth, o);
      ExactVariant(root, troot, s.anyOf.list, i, v, depth, o, write);
      assert 0 <= i < |s.anyOf.list| && Accepts(root, s.anyOf.list[i], v, true, depth, o);
    } else if s.allOf.Variants? {
      forall i | 0 <= i < |s.allOf.list|
        ensures Accepts(root, s.allOf.list[i], v, true, depth, o)
      {
        ExactVariant(root, troot, s.allOf.list, i, v, depth, o, write);
      }
    }
  }

  lemma ExactMembers(root: Schema, troot: Schema, s: Schema, t: Schema, v: Instance, depth: nat, o: Rules,
                     write: Schema -> string)
    requires Strict(root, write) == Done(troot) && Plain(root) && Strict(s, write) == Done(t) && Plain(s) && s.ref.None?
    requires AcceptsMembers(troot, t, v, false, depth, o)
    ensures AcceptsMembers(root, s, v, true, depth, o)
    decreases depth, s, 0
  {
    DetailsOf(s, t, write);
    hide Strict;
    if s.typ == OBJECT && v.Object? {
      if s.properties.Table? {
        var was, now := s.properties.entries, t.properties.entries;
        assert now == StrictNamed(was, write).value;
        forall i | 0 <= i < |was|
          ensures now[i].name == was[i].name
          ensures was[i].name in v.members ==> Accepts(root, was[i].schema, v.members[was[i].name], true, depth, o)
        {
          StrictNamedAt(was, i, write);
          if was[i].name in v.members {
            ExactNode(root, troot, was[i].schema, now[i].schema, v.members[was[i].name], depth, o, write);
          }
        }
        DeclaredStill(t.properties, s.properties, v);
      } else {
        assert t.properties.entries == [];
        assert forall k :: k in v.members ==> Declares(t.properties, k);
      }
    }
  }

  lemma ExactItems(root: Schema, troot: Schema, s: Schema, t: Schema, v: Instance, depth: nat, o: Rules,
                   write: Schema -> string)
    requires Strict(root, write) == Done(troot) && Plain(root) && Strict(s, write) == Done(t) && Plain(s) && s.ref.None?
    requires AcceptsItems(troot, t, v, false, depth, o)
    ensures AcceptsItems(root, s, v, true, depth, o)
    decreases depth, s, 0
  {
    DetailsOf(s, t, write);
    KeptOf(s, t, write);
    hide Strict;
    if v.Array? && s.items.Some? {
      forall i | 0 <= i < |v.items|
        ensures Accepts(root, s.items.value, v.items[i], true, depth, o)
      {
        ExactNode(root, troot, s.items.value, t.items.value, v.items[i], depth, o, write);
      }
    }
  }

  lemma OnlyReference(root: Schema, s: Schema, v: Instance, closed: bool, depth: nat, o: Rules)
    requires s == EMPTY.(defs := s.defs, ref := s.ref)
    ensures Accepts(root, s, v, closed, depth, o) <==> AcceptsRef(root, s, v, closed, depth, o)
  {
    hide AcceptsRef;
  }

  lemma {:induction false} ExactNode(root: Schema, troot: Schema, s: Schema, t: Schema, v: Instance, depth: nat,
                                     o: Rules, write: Schema -> string)
    requires Strict(root, write) == Done(troot) && Plain(root) && Strict(s, write) == Done(t) && Plain(s)
    requires Accepts(troot, t, v, false, depth, o)
    ensures Accepts(root, s, v, true, depth, o)
    decreases depth, s, 1
  {
    if s.ref.Some? {
      assert t.ref == s.ref;
      ResolvePlain(root, troot, s.ref.value, o, write);
      var was, now := Resolve(root, s.ref.value, o).value, Resolve(troot, s.ref.value, o).value;
      ExactNode(root, troot, was, now, v, depth - 1, o, write);
      OnlyReference(root, s, v, true, depth, o);
    } else {
      hide AcceptsMembers, AcceptsItems, PlainTable;
      ExactShape(root, troot, s, t, v, depth, o, write);
      ExactMembers(root, troot, s, t, v, depth, o, write);
      ExactItems(root, troot, s, t, v, depth, o, write);
      KeptOf(s, t, write);
      hide Strict, AcceptsShape;
    }
  }

  /** Where nothing had to be dropped, the strict form accepts just what the original does with its objects closed. */
  lemma Exact(root: Schema, v: Instance, depth: nat, o: Rules, write: Schema -> string)
    requires Strict(root, write).Done? && Plain(root)
    ensures var t := Strict(root, write).value;
      Accepts(t, t, v, false, depth, o) <==> Accepts(root, root, v, true, depth, o)
  {
    var t := Strict(root, write).value;
    if Accepts(t, t, v, false, depth, o) { ExactNode(root, t, root, t, v, depth, o, write); }
    if Accepts(root, root, v, true, depth, o) {
      PlainKeeps(root, root, o, write);
      Sound(root, v, depth, o, write);
    }
  }

  /** The closing is not for nothing: an open object schema accepts what its strict form refuses. */
  lemma OpenObjectNarrowed(o: Rules, write: Schema -> string)
    ensures var s, v := EMPTY.(typ := OBJECT), Object(map["x" := Null]);
      && Accepts(s, s, v, false, 0, o)
      && Strict(s, write).Done? && !Accepts(Strict(s, write).value, Strict(s, write).value, v, false, 0, o)
  {
    var s, v := EMPTY.(typ := OBJECT), Object(map["x" := Null]);
    assert Leftover(s) == EMPTY;
    var t := Strict(s, write).value;
    assert t.properties == Table([]) && t.additional == Some(Closed);
    assert "x" in v.members && !Declares(t.properties, "x");
    assert !AcceptsMembers(t, t, v, false, 0, o);
  }

  /** A list of what the first variant says, beside that. */
  const FIRST_VARIANT := "#/oneOf/0"
  const TEXT := EMPTY.(typ := STRING)
  const TEXTS := EMPTY.(typ := ARRAY, items := Some(EMPTY.(ref := Some(FIRST_VARIANT))))
  const TEXT_OR_TEXTS := EMPTY.(oneOf := Variants([TEXT, TEXTS]))

  lemma TextsAccepted(o: Rules)
    requires o.target(FIRST_VARIANT) == Some([OneOfAt(0)])
    ensures Accepts(TEXT_OR_TEXTS, TEXT_OR_TEXTS, Array([String("a")]), true, 1, o)
    ensures !KeepsRefs(TEXT_OR_TEXTS, TEXT_OR_TEXTS, o)
  {
    var s, v, list := TEXT_OR_TEXTS, Array([String("a")]), TEXT_OR_TEXTS.oneOf.list;
    assert [OneOfAt(0)][1..] == [];
    assert Resolve(s, FIRST_VARIANT, o) == Some(TEXT);
    assert Accepts(s, TEXT, String("a"), true, 0, o);
    assert Accepts(s, TEXTS.items.value, String("a"), true, 1, o);
    assert Accepts(s, TEXTS, v, true, 1, o);
    assert !AcceptsShape(s, TEXT, v, true, 1, o);
    assert list[1] == TEXTS && list[0] == TEXT;
    assert AcceptsShape(s, s, v, true, 1, o);
    assert !KeepsRefs(s, TEXTS.items.value, o);
    assert !KeepsRefs(s, list[1], o);
  }

  lemma StrictPair(a: Schema, b: Schema, write: Schema -> string)
    requires Strict(a, write) == Done(a) && Strict(b, write) == Done(b)
    ensures StrictList([a, b], write) == Done([a, b])
  {
    hide Strict;
    assert [a, b][..1] == [a] && [a][..0] == [] && [] + [a] == [a] && [a] + [b] == [a, b];
    assert StrictList([], write) == Done([]);
    assert StrictList([a], write) == Done([a]);
  }

  lemma TextsStrict(write: Schema -> string)
    ensures Strict(TEXT_OR_TEXTS, write) == Done(EMPTY.(anyOf := Variants([TEXT, TEXTS])))
  {
    assert StrictTable(NoTable, write) == Done([]);
    assert Leftover(TEXT) == EMPTY && Leftover(TEXTS) == EMPTY && Leftover(TEXT_OR_TEXTS) == EMPTY;
    assert Strict(TEXTS.items.value, write) == Done(TEXTS.items.value);
    assert Strict(TEXT, write) == Done(TEXT) && Strict(TEXTS, write) == Done(TEXTS);
    StrictPair(TEXT, TEXTS, write);
  }

  lemma TextsRefused(o: Rules)
    requires o.target(FIRST_VARIANT) == Some([OneOfAt(0)])
    ensures var t := EMPTY.(anyOf := Variants([TEXT, TEXTS])); !Accepts(t, t, Array([String("a")]), false, 1, o)
  {
    var t, v := EMPTY.(anyOf := Variants([TEXT, TEXTS])), Array([String("a")]);
    assert Resolve(t, FIRST_VARIANT, o) == None;
    assert !AcceptsRef(t, TEXTS.items.value, String("a"), false, 1, o);
    assert v.items[0] == String("a") && !AcceptsItems(t, TEXTS, v, false, 1, o);
    assert !AcceptsShape(t, TEXT, v, false, 1, o);
    assert !AcceptsShape(t, t, v, false, 1, o);
  }

  /** A reference into `oneOf`: the strict form has nothing there, and refuses what the original accepts. */
  lemma DanglingReference(o: Rules, write: Schema -> string)
    requires o.target(FIRST_VARIANT) == Some([OneOfAt(0)])
    ensures var s, v := TEXT_OR_TEXTS, Array([String("a")]);
      && Accepts(s, s, v, true, 1, o) && !KeepsRefs(s, s, o)
      && Strict(s, write).Done? && !Accepts(Strict(s, write).value, Strict(s, write).value, v, false, 1, o)
  {
    hide Accepts, Strict, KeepsRefs;
    TextsAccepted(o);
    TextsStrict(write);
    TextsRefused(o);
  }

  // ----- rewriting twice -----

  /** A combinator beside keywords that the node's type keeps: the type goes, and they are left behind without it. */
  predicate Mixes(s: Schema) {
    && Combined(s)
    && (|| s.typ == OBJECT
        || (s.typ == STRING && s.format.Some? && Supports(s.format.value))
        || (s.typ == ARRAY && (s.items.Some? || (s.minItems.Some? && SmallMinimum(s.minItems.value)))))
  }

  predicate SettledList(list: seq<Schema>)
    decreases list, 0
  {
    list == [] || (SettledList(list[..|list| - 1]) && Settled(list[|list| - 1]))
  }

  predicate SettledNamed(list: seq<Named>)
    decreases list, 0
  {
    list == [] || (SettledNamed(list[..|list| - 1]) && Settled(list[|list| - 1].schema))
  }

  predicate SettledTable(t: Table)
    decreases t, 0
  {
    t.Table? ==> SettledNamed(t.entries)
  }

  /** No node that the rewriting reaches mixes. */
  predicate Settled(s: Schema)
    decreases s, 1
  {
    && SettledTable(s.defs)
    && (s.ref.None? ==>
         && !Mixes(s)
         && SettledShape(s) && SettledDetails(s))
  }

  predicate SettledShape(s: Schema)
    decreases s, 0
  {
    if s.anyOf.Variants? then SettledList(s.anyOf.list)
    else if s.oneOf.Variants? then SettledList(s.oneOf.list)
    else s.allOf.Variants? ==> SettledList(s.allOf.list)
  }

  predicate SettledDetails(s: Schema)
    decreases s, 0
  {
    && (s.typ == OBJECT ==> SettledTable(s.properties))
    && (s.typ == ARRAY && s.items.Some? ==> Settled(s.items.value))
  }

  lemma DescribedAgain(d: Option<string>, left: Schema, write: Schema -> string)
    ensures Described(d, left, write) == d <==> left == EMPTY
  {
    if left != EMPTY && d.Some? {
      assert |Described(d, left, write).value| > |d.value|;
    }
  }

  lemma LeftoverAgain(s: Schema, t: Schema, write: Schema -> string)
    requires Strict(s, write) == Done(t) && s.ref.None?
    ensures Leftover(t) == EMPTY <==> !Mixes(s)
  {
    ShapeOf(s, t, write);
    DetailsOf(s, t, write);
    KeptOf(s, t, write);
    hide Strict, StrictTable, StrictNamed, StrictList, Supports, SmallMinimum;
  }

  lemma {:induction false} TwiceList(list: seq<Schema>, write: Schema -> string)
    requires StrictList(list, write).Done?
    ensures var once := StrictList(list, write).value; var twice := StrictList(once, write);
      twice.Done? && (twice.value == once <==> SettledList(list))
    decreases list, 0
  {
    if list != [] {
      var earlier, last := list[..|list| - 1], list[|list| - 1];
      TwiceList(earlier, write);
      Twice(last, write);
      hide Strict, Settled;
      var once := StrictList(list, write).value;
      var before := StrictList(earlier, write).value;
      assert once[..|once| - 1] == before && once[|once| - 1] == Strict(last, write).value;
      var twice := StrictList(once, write).value;
      assert twice == StrictList(before, write).value + [Strict(once[|once| - 1], write).value];
      assert twice == once <==> twice[..|once| - 1] == before && twice[|once| - 1] == once[|once| - 1];
      assert twice[..|once| - 1] == StrictList(before, write).value;
    }
  }

  lemma {:induction false} TwiceNamed(list: seq<Named>, write: Schema -> string)
    requires StrictNamed(list, write).Done?
    ensures var once := StrictNamed(list, write).value; var twice := StrictNamed(once, write);
      twice.Done? && (twice.value == once <==> SettledNamed(list))
    decreases list, 0
  {
    if list != [] {
      var earlier, last := list[..|list| - 1], list[|list| - 1];
      TwiceNamed(earlier, write);
      Twice(last.schema, write);
      hide Strict, Settled;
      var once := StrictNamed(list, write).value;
      var before := StrictNamed(earlier, write).value;
      assert once[..|once| - 1] == before && once[|once| - 1] == Named(last.name, Strict(last.schema, write).value);
      var twice := StrictNamed(once, write).value;
      assert twice == StrictNamed(before, write).value
                      + [Named(last.name, Strict(once[|once| - 1].schema, write).value)];
      assert twice == once <==> twice[..|once| - 1] == before && twice[|once| - 1] == once[|once| - 1];
      assert twice[..|once| - 1] == StrictNamed(before, write).value;
    }
  }

  lemma TwiceTable(t: Table, write: Schema -> string)
    requires StrictTable(t, write).Done?
    ensures var once := StrictTable(t, write).value; var twice := StrictNamed(once, write);
      twice.Done? && (twice.value == once <==> SettledTable(t))
    decreases t, 0
  {
    if t.Table? { TwiceNamed(t.entries, write); }
  }

  lemma TwiceShape(s: Schema, t: Schema, write: Schema -> string)
    requires Strict(s, write) == Done(t) && s.ref.None?
    ensures StrictShape(t, write).Done?
    ensures var shape := StrictShape(t, write).value;
      && shape == EMPTY.(anyOf := shape.anyOf, allOf := shape.allOf, typ := t.typ)
      && (shape.anyOf == t.anyOf && shape.allOf == t.allOf <==> SettledShape(s))
    decreases s, 0
  {
    ShapeOf(s, t, write);
    hide Strict;
    if s.anyOf.Variants? {
      TwiceList(s.anyOf.list, write);
    } else if s.oneOf.Variants? {
      TwiceList(s.oneOf.list, write);
    } else if s.allOf.Variants? {
      TwiceList(s.allOf.list, write);
    }
  }

  lemma DetailsDone(t: Schema, shape: Schema, write: Schema -> string)
    requires t.typ == OBJECT ==> StrictTable(t.properties, write).Done?
    requires t.typ == ARRAY && t.items.Some? ==> Strict(t.items.value, write).Done?
    ensures StrictDetails(t, shape, write).Done?
  {
    hide Strict, StrictTable, Supports, SmallMinimum;
  }

  /** What the second rewriting makes of the keywords that went with the type. */
  lemma TwiceDetails(s: Schema, t: Schema, shape: Schema, write: Schema -> string)
    requires Strict(s, write) == Done(t) && s.ref.None?
    requires shape == EMPTY.(anyOf := shape.anyOf, allOf := shape.allOf, typ := t.typ)
    ensures StrictDetails(t, shape, write).Done?
    ensures var u := StrictDetails(t, shape, write).value;
      && (!Mixes(s) ==>
           && u.additional == t.additional && u.required == t.required
           && u.format == t.format && u.minItems == t.minItems
           && (u.properties == t.properties && u.items == t.items <==> SettledDetails(s)))
    decreases s, 0, 1
  {
    ShapeOf(s, t, write);
    DetailsOf(s, t, write);
    KeptOf(s, t, write);
    TypeKept(s, t, write);
    hide Strict, StrictShape, StrictDetails, StrictNamed, Supports, SmallMinimum;
    if s.typ == OBJECT { TwiceProperties(s, t, write); }
    if s.typ == ARRAY && s.items.Some? { Twice(s.items.value, write); }
    DetailsDone(t, shape, write);
    MembersOf(t, shape, write);
    ItemsOf(t, shape, write);
  }

  lemma TypeKept(s: Schema, t: Schema, write: Schema -> string)
    requires Strict(s, write) == Done(t) && s.ref.None?
    ensures t.typ == if Combined(s) then None else s.typ
  {
    ShapeOf(s, t, write);
    hide Strict, StrictList;
  }

  lemma TwiceProperties(s: Schema, t: Schema, write: Schema -> string)
    requires Strict(s, write) == Done(t) && s.ref.None? && s.typ == OBJECT
    ensures StrictTable(t.properties, write).Done?
    ensures t.properties == Table(StrictTable(t.properties, write).value) <==> SettledTable(s.properties)
    decreases s, 0, 0
  {
    DetailsOf(s, t, write);
    hide Strict;
    TwiceTable(s.properties, write);
    assert StrictTable(t.properties, write) == StrictNamed(t.properties.entries, write);
  }

  /** Rewriting a strict form always succeeds, and gives the same again exactly when no node mixes. */
  lemma {:induction false} Twice(s: Schema, write: Schema -> string)
    requires Strict(s, write).Done?
    ensures var once := Strict(s, write).value; var twice := Strict(once, write);
      twice.Done? && (twice.value == once <==> Settled(s))
    decreases s, 1
  {
    var t := Strict(s, write).value;
    assert StrictTable(s.defs, write).Done?;
    TwiceTable(s.defs, write);
    DefsOf(s, t, write);
    if s.ref.None? {
      TwiceShape(s, t, write);
      var shape := StrictShape(t, write).value;
      TwiceDetails(s, t, shape, write);
      LeftoverAgain(s, t, write);
      DescribedAgain(t.description, Leftover(t), write);
      ShapeOf(s, t, write);
      assert StrictTable(t.defs, write).Done?;
      DetailsFrame(t, shape, write);
      var u := StrictDetails(t, shape, write).value;
      var defs := if t.defs.Table? then Table(StrictTable(t.defs, write).value) else NoTable;
      assert Strict(t, write).value
          == u.(defs := defs, title := t.title, description := Described(t.description, Leftover(t), write));
    }
  }

  /** An object type beside `anyOf`: the second rewriting finds `properties` without their type. */
  lemma MixedChangesTwice(write: Schema -> string)
    ensures var s := EMPTY.(typ := OBJECT, anyOf := Variants([EMPTY.(typ := STRING)]));
      && Strict(s, write).Done? && Strict(Strict(s, write).value, write).Done?
      && Strict(Strict(s, write).value, write).value != Strict(s, write).value
  {
    var variant := EMPTY.(typ := STRING);
    var s := EMPTY.(typ := OBJECT, anyOf := Variants([variant]));
    assert [variant][..0] == [];
    assert StrictList([], write) == Done([]);
    assert Strict(variant, write).Done?;
    assert StrictList([variant], write).Done?;
    assert StrictShape(s, write).Done?;
    assert StrictTable(NoTable, write) == Done([]);
    assert StrictDetails(s, StrictShape(s, write).value, write).Done?;
    Twice(s, write);
  }

  // ----- when rewriting throws -----

  /** A node without a reference says its type or has a list to combine. */
  predicate Shaped(s: Schema) { s.ref.Some? || s.typ.Some? || Combined(s) }

  /** Every node that the rewriting reaches is shaped. */
  predicate ShapedAll(s: Schema)
    decreases s, 1
  {
    && Shaped(s) && ShapedTable(s.defs)
    && (s.ref.None? ==>
         && (if s.anyOf.Variants? then ShapedList(s.anyOf)
             else if s.oneOf.Variants? then ShapedList(s.oneOf)
             else ShapedList(s.allOf))
         && (s.typ == OBJECT ==> ShapedTable(s.properties))
         && (s.typ == ARRAY && s.items.Some? ==> ShapedAll(s.items.value)))
  }

  predicate ShapedTable(t: Table)
    decreases t, 0
  {
    t.Table? ==> forall i :: 0 <= i < |t.entries| ==> ShapedAll(t.entries[i].schema)
  }

  predicate ShapedList(c: Combinator)
    decreases c, 0
  {
    c.Variants? ==> forall i :: 0 <= i < |c.list| ==> ShapedAll(c.list[i])
  }

  lemma {:induction false} ListRaises(list: seq<Schema>, write: Schema -> string)
    ensures StrictList(list, write).Done? <==> forall i :: 0 <= i < |list| ==> ShapedAll(list[i])
    decreases list, 0
  {
    if list != [] {
      var earlier := list[..|list| - 1];
      ListRaises(earlier, write);
      RaisesIff(list[|list| - 1], write);
      hide ShapedAll, Strict;
      assert forall i :: 0 <= i < |earlier| ==> earlier[i] == list[i];
    }
  }

  lemma {:induction false} NamedRaises(list: seq<Named>, write: Schema -> string)
    ensures StrictNamed(list, write).Done? <==> forall i :: 0 <= i < |list| ==> ShapedAll(list[i].schema)
    decreases list, 0
  {
    if list != [] {
      var earlier := list[..|list| - 1];
      NamedRaises(earlier, write);
      RaisesIff(list[|list| - 1].schema, write);
      hide ShapedAll, Strict;
      assert forall i :: 0 <= i < |earlier| ==> earlier[i] == list[i];
    }
  }

  lemma TableRaises(t: Table, write: Schema -> string)
    ensures StrictTable(t, write).Done? <==> ShapedTable(t)
    decreases t, 0
  {
    if t.Table? { NamedRaises(t.entries, write); }
  }

  lemma VariantsRaise(c: Combinator, write: Schema -> string)
    requires c.Variants?
    ensures StrictList(c.list, write).Done? <==> ShapedList(c)
    decreases c, 0
  {
    ListRaises(c.list, write);
  }

  /** The rewriting throws exactly when it reaches a node that says neither its type nor what it is made of. */
  lemma {:induction false} RaisesIff(s: Schema, write: Schema -> string)
    ensures Strict(s, write).Raised? <==> !ShapedAll(s)
    decreases s, 1
  {
    TableRaises(s.defs, write);
    if s.ref.None? {
      if s.anyOf.Variants? {
        VariantsRaise(s.anyOf, write);
      } else if s.oneOf.Variants? {
        VariantsRaise(s.oneOf, write);
      } else if s.allOf.Variants? {
        VariantsRaise(s.allOf, write);
      }
      TableRaises(s.properties, write);
      if s.items.Some? { RaisesIff(s.items.value, write); }
      hide StrictTable, StrictList, ShapedTable, ShapedList, Supports, SmallMinimum, Described, Leftover;
    }
  }

  // ----- what becomes of each keyword -----

  /** The string formats that the API takes. */
  predicate KnownFormat(format: string) {
    || format == "date-time" || format == "time" || format == "date" || format == "duration" || format == "email"
    || format == "hostname" || format == "uri" || format == "ipv4" || format == "ipv6" || format == "uuid"
  }

  /** Every keyword that goes with a type is kept in the strict form or left to be noted, and never both. */
  predicate Sorted(s: Schema, t: Schema, left: Schema) {
    && (if s.typ == Some(One("object")) then
          && t.properties.Table? && left.properties == NoTable
          && t.additional == Some(Closed) && left.additional == None
          && t.required == s.required && left.required == None
        else
          && t.properties == NoTable && left.properties == s.properties
          && t.additional == None && left.additional == s.additional
          && t.required == None && left.required == s.required)
    && (if s.typ == Some(One("string")) && s.format.Some? && KnownFormat(s.format.value) then
          t.format == s.format && left.format == None
        else t.format == None && left.format == s.format)
    && (if s.typ == Some(One("array")) then t.items.Some? == s.items.Some? && left.items == None
        else t.items == None && left.items == s.items)
    && (if s.typ == Some(One("array")) && (s.minItems == Some(0) || s.minItems == Some(1)) then
          t.minItems == s.minItems && left.minItems == None
        else t.minItems == None && left.minItems == s.minItems)
    && t.others == map[] && left.others == s.others
  }

  /** The old description, and behind it, on a line of its own further down, what is left over, if anything is. */
  predicate Noted(now: Option<string>, was: Option<string>, left: Schema, write: Schema -> string) {
    if left == EMPTY then now == was
    else
      match was
      case Some(text) => now == Some((if |text| > 0 then text + "\n\n" else "") + "{" + write(left) + "}")
      case None => now == Some("{" + write(left) + "}")
  }

  /** A node without a reference: its title stays, its keywords are sorted, and what is left over is noted. */
  lemma NodeSays(s: Schema, write: Schema -> string)
    requires Strict(s, write).Done? && s.ref.None?
    ensures var t := Strict(s, write).value;
      t.title == s.title && Sorted(s, t, Leftover(s)) && Noted(t.description, s.description, Leftover(s), write)
    ensures var left := Leftover(s);
      && left.defs == NoTable && left.ref == None && left.typ == None && left.description == None && left.title == None
      && left.anyOf == Absent && left.oneOf == Absent && left.allOf == Absent
  {
    var t := Strict(s, write).value;
    StrictIs(s, t, write);
    ShapeOf(s, t, write);
    DetailsOf(s, t, write);
    KeptOf(s, t, write);
    DescribedIsNoted(s.description, Leftover(s), write);
    SupportsKnown(s.format);
    hide Strict, StrictShape, StrictDetails, StrictTable, Described, Noted, EMPTY, KnownFormat, Supports;
  }

  lemma SupportsKnown(format: Option<string>)
    ensures format.Some? ==> (Supports(format.value) <==> KnownFormat(format.value))
  {
  }

  lemma DescribedIsNoted(was: Option<string>, left: Schema, write: Schema -> string)
    ensures Noted(Described(was, left, write), was, left, write)
  {
    assert "" + "{" == "{";
    if was.Some? && was.value != "" { assert |was.value| > 0; }
  }
}
