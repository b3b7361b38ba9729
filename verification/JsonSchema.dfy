/** JSON values, and which of them a JSON Schema accepts (JSON Schema Core and
    Validation, draft 2020-12), as far as a schema for a message needs it. */
module JsonSchema {
  import opened Common

  /** A JSON string or member name.  Those with a meaning here have a constructor of
      their own; Other never spells one of them. */
  datatype Name =
    | Ref | Defs | Definitions | Dialect | Base
    | Type | Properties | Required | AdditionalProperties | Items | MinLength | Minimum | Enum | AllOf | AnyOf | Not
    | Narad | Id | ProducedAt | Attempts | LastError | Headers | Body
    | ObjectType | ArrayType | StringType | NumberType | IntegerType | BooleanType | NullType
    | Other(text: string)

  /** What a $ref says: the root of its resource, a JSON pointer from it, or another
      document. */
  datatype Target = Root | Pointer(tokens: seq<Name>) | Elsewhere(uri: string)

  datatype Json =
    | Null | Bool(b: bool) | Num(n: real) | Str(s: Name) | Link(target: Target)
    | Arr(items: seq<Json>) | Obj(fields: map<Name, Json>)

  /** The length of a string. */
  function Length(s: Name): nat
  {
    match s
    case Other(text) => |text|
    case Id => 2
    case Base => 3
    case Ref | Type | Enum | Not | Body | NullType => 4
    case Defs | Items | AllOf | AnyOf | ArrayType => 5
    case Narad | ObjectType | StringType | NumberType => 6
    case Dialect | Minimum | Headers | IntegerType | BooleanType => 7
    case Required | Attempts => 8
    case MinLength => 9
    case Properties | LastError => 10
    case Definitions | ProducedAt => 11
    case AdditionalProperties => 20
  }

  // ----- references -----

  function Digit(c: char): Option<nat> { if '0' <= c <= '9' then Some((c - '0') as nat) else None }

  function Number(s: string): Option<nat>
  {
    if s == "" then None
    else
      var d := Digit(s[|s| - 1]);
      if |s| == 1 || d.None? then d
      else
        var front := Number(s[..|s| - 1]);
        if front.None? then None else Some(10 * front.value + d.value)
  }

  /** A schema with an $id, which is a resource of its own. */
  predicate HasId(j: Json) { j.Obj? && Base in j.fields && j.fields[Base].Str? }

  /** The resource that a schema's own references are resolved in. */
  function Resource(base: Json, schema: Json): Json { if HasId(schema) then schema else base }

  /** A schema that a reference leads to, with the resource it is in. */
  datatype Place = Place(base: Json, schema: Json)

  function Resolve(base: Json, j: Json, tokens: seq<Name>): Option<Place>
    decreases |tokens|
  {
    if tokens == [] then Some(Place(base, j))
    else
      var next := Child(j, tokens[0]);
      if next.None? then None else Resolve(Resource(base, next.value), next.value, tokens[1..])
  }

  /** The member of an object, or the element of an array, that a token names. */
  function Child(j: Json, token: Name): Option<Json>
  {
    match j
    case Obj(fields) => Take(fields, token)
    case Arr(items) =>
      var i := if token.Other? then Number(token.text) else None;
      if i.Some? && i.value < |items| then Some(items[i.value]) else None
    case _ => None
  }

  function Follow(base: Json, target: Target): Option<Place>
  {
    match target
    case Root => Some(Place(base, base))
    case Pointer(tokens) => Resolve(base, base, tokens)
    case Elsewhere(_) => None
  }

  // ----- acceptance -----

  /** Both, when both are known. */
  function Both(a: Option<bool>, b: Option<bool>): Option<bool>
  {
    if a.None? || b.None? then None else Some(a.value && b.value)
  }

  predicate HasType(t: Json, v: Json)
  {
    t.Str?
    && match t.s
       case ObjectType => v.Obj?
       case ArrayType => v.Arr?
       case StringType => v.Str?
       case NumberType => v.Num?
       case IntegerType => v.Num? && v.n.Floor as real == v.n
       case BooleanType => v.Bool?
       case NullType => v.Null?
       case _ => false
  }

  function Take(f: map<Name, Json>, n: Name): Option<Json> { if n in f then Some(f[n]) else None }

  function Member(f: map<Name, Json>, n: Name): map<Name, Json>
  {
    var m := Take(f, n);
    if m.Some? && m.value.Obj? then m.value.fields else map[]
  }

  function Elements(f: map<Name, Json>, n: Name): seq<Json>
  {
    var m := Take(f, n);
    if m.Some? && m.value.Arr? then m.value.items else []
  }

  predicate TypeOk(t: Option<Json>, v: Json)
  {
    t.Some? ==>
      if t.value.Arr? then exists k :: 0 <= k < |t.value.items| && HasType(t.value.items[k], v) else HasType(t.value, v)
  }

  predicate RequiredOk(names: seq<Json>, v: Json)
  {
    v.Obj? ==> forall k :: 0 <= k < |names| && names[k].Str? ==> names[k].s in v.fields
  }

  predicate AtLeast(bound: Option<Json>, n: real) { bound.Some? && bound.value.Num? ==> bound.value.n <= n }

  /** The keywords that do not look into other schemas. */
  predicate Plain(f: map<Name, Json>, v: Json)
  {
    TypeOk(Take(f, Type), v) && RequiredOk(Elements(f, Required), v)
    && (v.Str? ==> AtLeast(Take(f, MinLength), Length(v.s) as real))
    && (v.Num? ==> AtLeast(Take(f, Minimum), v.n))
    && (Take(f, Enum).Some? ==> v in Elements(f, Enum))
  }

  /** Whether a schema of the resource base accepts v, not known if that takes more
      than fuel steps from schema to schema. */
  ghost function Accepts(fuel: nat, base: Json, schema: Json, v: Json): Option<bool>
    decreases fuel, 0
  {
    if fuel == 0 then None
    else
      match schema
      case Bool(b) => Some(b)
      case Obj(f) => Keywords(fuel - 1, Resource(base, schema), f, v)
      case _ => Some(false)
  }

  ghost function Keywords(fuel: nat, base: Json, f: map<Name, Json>, v: Json): Option<bool>
    decreases fuel, 3
  {
    Both(Some(Plain(f, v)),
         Both(Referred(fuel, base, Take(f, Ref), v),
              Both(Every(fuel, base, Applied(f, v)),
                   Both(if Take(f, AnyOf).None? then Some(true) else Any(fuel, base, AllChecks(Elements(f, AnyOf), v)),
                        Negated(fuel, base, Take(f, Not), v)))))
  }

  ghost function Referred(fuel: nat, base: Json, ref: Option<Json>, v: Json): Option<bool>
    decreases fuel, 1
  {
    if ref.Some? && ref.value.Link? then
      var t := Follow(base, ref.value.target);
      if t.None? then Some(false) else Accepts(fuel, t.value.base, t.value.schema, v)
    else Some(true)
  }

  /** A schema with a part of the value that it has to accept. */
  datatype Check = Check(schema: Json, part: Json)

  function MemberChecks(props: map<Name, Json>, v: Json): set<Check>
  {
    if v.Obj? then set n | n in props && n in v.fields :: Check(props[n], v.fields[n]) else {}
  }

  function OtherChecks(props: map<Name, Json>, others: Option<Json>, v: Json): set<Check>
  {
    if v.Obj? && others.Some? then set n | n in v.fields && n !in props :: Check(others.value, v.fields[n]) else {}
  }

  function ItemChecks(items: Option<Json>, v: Json): set<Check>
  {
    if v.Arr? && items.Some? then set x | x in v.items :: Check(items.value, x) else {}
  }

  function AllChecks(schemas: seq<Json>, v: Json): set<Check> { set s | s in schemas :: Check(s, v) }

  /** The checks of properties, additionalProperties, items and allOf. */
  function Applied(f: map<Name, Json>, v: Json): set<Check>
  {
    MemberChecks(Member(f, Properties), v) + OtherChecks(Member(f, Properties), Take(f, AdditionalProperties), v)
    + ItemChecks(Take(f, Items), v) + AllChecks(Elements(f, AllOf), v)
  }

  /** Whether all checks come out well, not known if one does not come out. */
  ghost function AllOk(verdict: Check -> Option<bool>, checks: set<Check>): Option<bool>
  {
    if exists c <- checks :: verdict(c).None? then None else Some(forall c <- checks :: verdict(c) == Some(true))
  }

  ghost function SomeOk(verdict: Check -> Option<bool>, checks: set<Check>): Option<bool>
  {
    if exists c <- checks :: verdict(c).None? then None else Some(exists c <- checks :: verdict(c) == Some(true))
  }

  ghost function Verdicts(fuel: nat, base: Json): Check -> Option<bool>
    decreases fuel, 1
  {
    (c: Check) => Accepts(fuel, base, c.schema, c.part)
  }

  ghost function Every(fuel: nat, base: Json, checks: set<Check>): Option<bool>
    decreases fuel, 2
  {
    AllOk(Verdicts(fuel, base), checks)
  }

  ghost function Any(fuel: nat, base: Json, checks: set<Check>): Option<bool>
    decreases fuel, 2
  {
    SomeOk(Verdicts(fuel, base), checks)
  }

  ghost function Negated(fuel: nat, base: Json, schema: Option<Json>, v: Json): Option<bool>
    decreases fuel, 1
  {
    if schema.None? then Some(true)
    else
      var r := Accepts(fuel, base, schema.value, v);
      if r.None? then None else Some(!r.value)
  }

  // ----- where references may point -----

  /** A reference to somewhere in $defs, definitions or $schema, or to another document. */
  predicate Survives(target: Target)
  {
    target.Elsewhere?
    || (target.Pointer? && target.tokens != [] && target.tokens[0] in {Defs, Definitions, Dialect})
  }

  /** Every reference of the resource that the schema is in is one of those.  A schema with
      an $id of its own may refer to what it likes. */
  predicate RefersToDefs(j: Json)
    decreases j, 1
  {
    match j
    case Link(target) => Survives(target)
    case Arr(items) => forall k :: 0 <= k < |items| ==> RefersToDefs(items[k])
    case Obj(_) => HasId(j) || OwnReferences(j)
    case _ => true
  }

  /** The same for the references in the members of j, whether or not it has an $id.  What
      properties holds is no schema, so a member $id there makes no resource of it. */
  predicate OwnReferences(j: Json)
    requires j.Obj?
    decreases j, 0
  {
    forall n :: n in j.fields ==>
      RefersToDefs(j.fields[n])
      && (n == Properties && j.fields[n].Obj? ==>
            forall m :: m in j.fields[n].fields ==> RefersToDefs(j.fields[n].fields[m]))
  }

  /** Following a reference in the resources s and w leads to the same schema: to one in
      the resource itself, with only such references, or to one in the same other resource. */
  predicate Alike(s: Json, w: Json, p: Option<Place>, q: Option<Place>)
  {
    if p.None? then q.None?
    else
      q.Some? && p.value.schema == q.value.schema
      && (p.value.base == q.value.base
          || (p.value.base == s && q.value.base == w && RefersToDefs(p.value.schema)))
  }

  /** What a pointer leads to from a schema with only such references does not depend on
      the resource that the schema is in. */
  lemma {:induction false} ResolvedRefersToDefs(s: Json, w: Json, j: Json, tokens: seq<Name>)
    requires RefersToDefs(j) && !HasId(j)
    ensures Alike(s, w, Resolve(s, j, tokens), Resolve(w, j, tokens))
    decreases |tokens|
  {
    if tokens != [] {
      var next := Child(j, tokens[0]);
      if next.Some? && !HasId(next.value) {
        ChildRefersToDefs(j, tokens[0]);
        ResolvedRefersToDefs(s, w, next.value, tokens[1..]);
      }
    }
  }

  lemma ChildRefersToDefs(j: Json, token: Name)
    requires RefersToDefs(j) && !HasId(j)
    ensures var c := Child(j, token); c.Some? ==> RefersToDefs(c.value)
  {
  }
}
