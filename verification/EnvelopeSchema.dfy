/** Wrapping the schema of a message in a schema of the envelope around it. */
module EnvelopeSchema {
  import opened Common
  import opened JsonSchema

  /** A schema document: nothing but white space, not a JSON object, or one.  A JSON
      null decodes into an object with no members, and is written out as null. */
  datatype Text = Blank | Malformed | Parsed(j: Json)

  datatype Wrapped = EmptySchema | NotAnObject | Schema(j: Json)

  const LIFTED: set<Name> := {Defs, Definitions, Dialect, Base}

  function TypeOnly(t: Name): map<Name, Json> { map[Type := Str(t)] }

  function FieldSchema(n: Name): map<Name, Json>
  {
    match n
    case Narad | ProducedAt => TypeOnly(IntegerType)
    case Id => TypeOnly(StringType)[MinLength := Num(1.0)]
    case Attempts => TypeOnly(IntegerType)[Minimum := Num(1.0)]
    case Headers => TypeOnly(ObjectType)[AdditionalProperties := Obj(TypeOnly(StringType))]
    case _ => TypeOnly(StringType)
  }

  const FIELDS: set<Name> := {Narad, Id, ProducedAt, Attempts, LastError, Headers, Body}

  function Fields(body: Json): map<Name, Json>
  {
    map n | n in FIELDS :: if n == Body then body else Obj(FieldSchema(n))
  }

  function Envelope(body: Json): map<Name, Json>
  {
    map[
      Type := Str(ObjectType),
      Properties := Obj(Fields(body)),
      Required := Arr([Str(Narad), Str(Id), Str(Body), Str(ProducedAt)]),
      AdditionalProperties := Bool(false)
    ]
  }

  function Lift(root: map<Name, Json>, from: map<Name, Json>, n: Name): map<Name, Json>
  {
    if n in from then root[n := from[n]] else root
  }

  /** The body's schema, without what is lifted to the root or dropped. */
  function Kept(f: map<Name, Json>): map<Name, Json> { f - LIFTED }

  function Wrap(f: map<Name, Json>): Json
  {
    Obj(Lift(Lift(Lift(Envelope(Obj(Kept(f))), f, Dialect), f, Defs), f, Definitions))
  }

  /** EnvelopeSchema: takes the members out one at a time and puts them in at the root. */
  method WrapSchema(text: Text) returns (r: Wrapped)
    ensures text.Blank? ==> r == EmptySchema
    ensures text.Malformed? || (text.Parsed? && !text.j.Obj? && !text.j.Null?) ==> r == NotAnObject
    ensures text.Parsed? && text.j.Null? ==> r == Schema(Obj(Envelope(Null)))
    ensures text.Parsed? && text.j.Obj? ==> r == Schema(Wrap(text.j.fields))
  {
    if text.Blank? { return EmptySchema; }
    if text.Malformed? || !(text.j.Obj? || text.j.Null?) { return NotAnObject; }
    var fields := if text.j.Obj? then text.j.fields else map[];
    var defs, legacyDefs, dialect := Take(fields, Defs), Take(fields, Definitions), Take(fields, Dialect);
    fields := fields - {Defs};
    fields := fields - {Definitions};
    fields := fields - {Dialect};
    fields := fields - {Base};
    var root := Envelope(if text.j.Null? then Null else Obj(fields));
    if dialect.Some? { root := root[Dialect := dialect.value]; }
    if defs.Some? { root := root[Defs := defs.value]; }
    if legacyDefs.Some? { root := root[Definitions := legacyDefs.value]; }
    assert text.j.Obj? ==> fields == Kept(text.j.fields);
    return Schema(Obj(root));
  }

  // ----- the same schema under the original root and under the wrapped one -----

  /** Both resources have the same definitions and dialect. */
  predicate SameDefs(s: Json, w: Json)
  {
    s.Obj? && w.Obj? && forall n <- {Defs, Definitions, Dialect} :: Take(s.fields, n) == Take(w.fields, n)
  }

  lemma SameTarget(s: Json, w: Json, target: Target)
    requires SameDefs(s, w) && OwnReferences(s) && Survives(target)
    ensures Alike(s, w, Follow(s, target), Follow(w, target))
  {
    if target.Pointer? {
      var first := target.tokens[0];
      assert Take(s.fields, first) == Take(w.fields, first);
      if first in s.fields && !HasId(s.fields[first]) {
        assert RefersToDefs(s.fields[first]);
        ResolvedRefersToDefs(s, w, s.fields[first], target.tokens[1..]);
      }
    }
  }

  ghost predicate ChecksReferToDefs(checks: set<Check>) { forall c <- checks :: RefersToDefs(c.schema) }

  lemma AppliedRefersToDefs(f: map<Name, Json>, v: Json)
    requires OwnReferences(Obj(f))
    ensures ChecksReferToDefs(Applied(f, v))
  {
    assert Properties in f ==> RefersToDefs(f[Properties]);
    assert AllOf in f ==> RefersToDefs(f[AllOf]);
  }

  lemma SameOutcome(a: Check -> Option<bool>, b: Check -> Option<bool>, checks: set<Check>)
    requires forall c <- checks :: a(c) == b(c)
    ensures AllOk(a, checks) == AllOk(b, checks) && SomeOk(a, checks) == SomeOk(b, checks)
  {
  }

  lemma SameNegated(fuel: nat, s: Json, w: Json, schema: Option<Json>, v: Json)
    requires schema.Some? ==> Accepts(fuel, s, schema.value, v) == Accepts(fuel, w, schema.value, v)
    ensures Negated(fuel, s, schema, v) == Negated(fuel, w, schema, v)
  {
  }

  /** A schema whose references all point into the definitions accepts the same
      values under both roots, however often its references go round in circles. */
  lemma {:induction false} SameAccepts(fuel: nat, s: Json, w: Json, j: Json, v: Json)
    requires SameDefs(s, w) && OwnReferences(s) && RefersToDefs(j)
    ensures Accepts(fuel, s, j, v) == Accepts(fuel, w, j, v)
    decreases fuel, 0
  {
    if fuel > 0 && j.Obj? && !HasId(j) {
      SameKeywords(fuel - 1, s, w, j.fields, v);
    }
  }

  lemma {:induction false} SameChecks(fuel: nat, s: Json, w: Json, checks: set<Check>)
    requires SameDefs(s, w) && OwnReferences(s) && ChecksReferToDefs(checks)
    ensures Every(fuel, s, checks) == Every(fuel, w, checks) && Any(fuel, s, checks) == Any(fuel, w, checks)
    decreases fuel, 1
  {
    forall c <- checks ensures Verdicts(fuel, s)(c) == Verdicts(fuel, w)(c) {
      SameAccepts(fuel, s, w, c.schema, c.part);
    }
    SameOutcome(Verdicts(fuel, s), Verdicts(fuel, w), checks);
  }

  lemma {:induction false} SameReferred(fuel: nat, s: Json, w: Json, ref: Option<Json>, v: Json)
    requires SameDefs(s, w) && OwnReferences(s) && (ref.Some? ==> RefersToDefs(ref.value))
    ensures Referred(fuel, s, ref, v) == Referred(fuel, w, ref, v)
    decreases fuel, 1
  {
    if ref.Some? && ref.value.Link? {
      SameTarget(s, w, ref.value.target);
      var t := Follow(s, ref.value.target);
      if t.Some? && t.value.base == s && RefersToDefs(t.value.schema) { SameAccepts(fuel, s, w, t.value.schema, v); }
    }
  }

  /** No keyword of a schema tells the two roots apart. */
  lemma {:induction false} SameKeywords(fuel: nat, s: Json, w: Json, f: map<Name, Json>, v: Json)
    requires SameDefs(s, w) && OwnReferences(s) && OwnReferences(Obj(f))
    ensures Keywords(fuel, s, f, v) == Keywords(fuel, w, f, v)
    decreases fuel, 2
  {
    AppliedRefersToDefs(f, v);
    SameChecks(fuel, s, w, Applied(f, v));
    AnyOfRefersToDefs(f, v);
    SameChecks(fuel, s, w, AllChecks(Elements(f, AnyOf), v));
    assert Ref in f ==> RefersToDefs(f[Ref]);
    SameReferred(fuel, s, w, Take(f, Ref), v);
    if Not in f {
      assert RefersToDefs(f[Not]);
      SameAccepts(fuel, s, w, f[Not], v);
    }
    SameNegated(fuel, s, w, Take(f, Not), v);
  }

  lemma AnyOfRefersToDefs(f: map<Name, Json>, v: Json)
    requires OwnReferences(Obj(f))
    ensures ChecksReferToDefs(AllChecks(Elements(f, AnyOf), v))
  {
    assert AnyOf in f ==> RefersToDefs(f[AnyOf]);
  }

  /** What is lifted or dropped takes no part in what a schema accepts. */
  lemma KeptAccepts(fuel: nat, base: Json, f: map<Name, Json>, v: Json)
    ensures Keywords(fuel, base, f, v) == Keywords(fuel, base, Kept(f), v)
  {
    KeptTakes(f);
  }

  const KEYWORDS: set<Name> :=
    {Ref, Type, Properties, Required, AdditionalProperties, Items, MinLength, Minimum, Enum, AllOf, AnyOf, Not}

  lemma KeptTakes(f: map<Name, Json>)
    ensures forall n <- KEYWORDS :: Take(f, n) == Take(Kept(f), n)
  {
  }

  /** The body's schema accepts under any root with the same definitions what the
      original accepts on its own. */
  lemma BodyAccepts(fuel: nat, f: map<Name, Json>, w: Json, v: Json)
    requires OwnReferences(Obj(f)) && SameDefs(Obj(f), w)
    ensures Accepts(fuel, w, Obj(Kept(f)), v) == Accepts(fuel, Obj(f), Obj(f), v)
  {
    if fuel > 0 {
      KeptHasNoBase(f);
      KeptBody(fuel, f, Kept(f), w, v);
    }
  }

  lemma KeptHasNoBase(f: map<Name, Json>)
    ensures Base !in Kept(f)
  {
  }

  lemma KeptBody(fuel: nat, f: map<Name, Json>, g: map<Name, Json>, w: Json, v: Json)
    requires fuel > 0 && OwnReferences(Obj(f)) && SameDefs(Obj(f), w) && g == Kept(f) && Base !in g
    ensures Accepts(fuel, w, Obj(g), v) == Accepts(fuel, Obj(f), Obj(f), v)
  {
    KeptKeywords(fuel - 1, f, g, w, v);
  }

  lemma KeptKeywords(fuel: nat, f: map<Name, Json>, g: map<Name, Json>, w: Json, v: Json)
    requires OwnReferences(Obj(f)) && SameDefs(Obj(f), w) && g == Kept(f)
    ensures Keywords(fuel, w, g, v) == Keywords(fuel, Obj(f), f, v)
  {
    KeptRefersToDefs(f);
    SameKeywords(fuel, Obj(f), w, g, v);
    KeptAccepts(fuel, Obj(f), f, v);
  }

  lemma LiftKeeps(root: map<Name, Json>, f: map<Name, Json>, n: Name)
    requires n in LIFTED
    ensures var r := Lift(root, f, n);
            Kept(r) == Kept(root) && (n !in root ==> Take(r, n) == Take(f, n))
            && forall m :: m != n ==> Take(r, m) == Take(root, m)
  {
  }

  lemma WrapKeepsDefs(f: map<Name, Json>)
    ensures SameDefs(Obj(f), Wrap(f)) && Kept(Wrap(f).fields) == Envelope(Obj(Kept(f)))
  {
    var e := Envelope(Obj(Kept(f)));
    EnvelopeLiftsNothing(Obj(Kept(f)));
    LiftKeeps(e, f, Dialect);
    var e1 := Lift(e, f, Dialect);
    LiftKeeps(e1, f, Defs);
    var e2 := Lift(e1, f, Defs);
    LiftKeeps(e2, f, Definitions);
    assert Take(e1, Defs) == None && Take(e2, Definitions) == None;
  }

  lemma EnvelopeLiftsNothing(body: Json)
    ensures var e := Envelope(body); Kept(e) == e && forall n <- LIFTED :: Take(e, n) == None
  {
  }

  lemma KeptRefersToDefs(f: map<Name, Json>)
    requires OwnReferences(Obj(f))
    ensures OwnReferences(Obj(Kept(f)))
  {
  }

  // ----- what the wrapped schema accepts -----

  predicate IsInteger(v: Json) { v.Num? && v.n.Floor as real == v.n }

  /** A member of an envelope is well formed, its body aside. */
  predicate FieldOk(n: Name, v: Json)
  {
    match n
    case Narad | ProducedAt => IsInteger(v)
    case Id => v.Str? && v.s != Other("")
    case Attempts => IsInteger(v) && v.n >= 1.0
    case LastError => v.Str?
    case Headers => v.Obj? && forall h <- v.fields :: v.fields[h].Str?
    case Body => true
    case _ => false
  }

  predicate EnvelopeOk(o: map<Name, Json>)
  {
    Narad in o && Id in o && Body in o && ProducedAt in o && forall n <- o :: FieldOk(n, o[n])
  }

  lemma LeafAccepts(fuel: nat, base: Json, f: map<Name, Json>, v: Json)
    requires f.Keys <= {Type, MinLength, Minimum}
    ensures Keywords(fuel, base, f, v) == Some(Plain(f, v))
  {
    assert Applied(f, v) == {};
    assert Every(fuel, base, {}) == Some(true);
  }

  lemma LengthPositive(s: Name)
    ensures Length(s) >= 1 <==> s != Other("")
  {
  }

  lemma TypeOnlyMeans(n: Name, v: Json)
    ensures TypeOnly(n).Keys <= {Type} && Plain(TypeOnly(n), v) == HasType(Str(n), v)
  {
  }

  lemma IdMeans(v: Json)
    ensures FieldSchema(Id).Keys <= {Type, MinLength} && Plain(FieldSchema(Id), v) == FieldOk(Id, v)
  {
    if v.Str? { LengthPositive(v.s); }
  }

  lemma AttemptsMeans(v: Json)
    ensures FieldSchema(Attempts).Keys <= {Type, Minimum} && Plain(FieldSchema(Attempts), v) == FieldOk(Attempts, v)
  {
  }

  lemma FieldMeans(n: Name, v: Json)
    requires n in {Narad, Id, ProducedAt, Attempts, LastError}
    ensures FieldSchema(n).Keys <= {Type, MinLength, Minimum} && Plain(FieldSchema(n), v) == FieldOk(n, v)
  {
    if n == Id {
      IdMeans(v);
    } else if n == Attempts {
      AttemptsMeans(v);
    } else if n == LastError {
      TypeOnlyMeans(StringType, v);
    } else {
      TypeOnlyMeans(IntegerType, v);
    }
  }

  lemma LeafObject(fuel: nat, base: Json, f: map<Name, Json>, v: Json)
    requires fuel > 0 && f.Keys <= {Type, MinLength, Minimum}
    ensures Accepts(fuel, base, Obj(f), v) == Some(Plain(f, v))
  {
    LeafAccepts(fuel - 1, base, f, v);
  }

  lemma FieldAccepts(fuel: nat, base: Json, n: Name, v: Json)
    requires fuel > 0 && n in {Narad, Id, ProducedAt, Attempts, LastError}
    ensures Accepts(fuel, base, Obj(FieldSchema(n)), v) == Some(FieldOk(n, v))
  {
    FieldMeans(n, v);
    LeafObject(fuel, base, FieldSchema(n), v);
  }

  lemma HeaderChecks(v: Json)
    ensures var leaf := Obj(TypeOnly(StringType));
            var checks := Applied(TypeOnly(ObjectType)[AdditionalProperties := leaf], v);
            (forall c <- checks :: v.Obj? && c.schema == leaf && exists h :: h in v.fields && v.fields[h] == c.part)
            && (v.Obj? ==> forall h <- v.fields :: Check(leaf, v.fields[h]) in checks)
  {
    var leaf := Obj(TypeOnly(StringType));
    var f := TypeOnly(ObjectType)[AdditionalProperties := leaf];
    assert Member(f, Properties) == map[] && Elements(f, AllOf) == [] && Take(f, Items) == None;
    assert Take(f, AdditionalProperties) == Some(leaf);
    assert Applied(f, v) == OtherChecks(map[], Some(leaf), v);
  }

  lemma HeaderAccepts(fuel: nat, base: Json, v: Json)
    requires fuel > 0
    ensures Accepts(fuel, base, Obj(TypeOnly(StringType)), v) == Some(v.Str?)
  {
    LeafObject(fuel, base, TypeOnly(StringType), v);
  }

  lemma HeadersOutcome(verdict: Check -> Option<bool>, v: Json)
    requires forall h :: verdict(Check(Obj(TypeOnly(StringType)), h)) == Some(h.Str?)
    ensures AllOk(verdict, Applied(FieldSchema(Headers), v))
            == Some(v.Obj? ==> forall h <- v.fields :: v.fields[h].Str?)
  {
    HeaderChecks(v);
    var leaf, checks := Obj(TypeOnly(StringType)), Applied(FieldSchema(Headers), v);
    forall c <- checks ensures verdict(c) == Some(c.part.Str?) { assert c == Check(leaf, c.part); }
    if v.Obj? {
      forall h <- v.fields ensures Check(leaf, v.fields[h]) in checks {}
    }
  }

  lemma HeadersEvery(fuel: nat, base: Json, v: Json)
    requires fuel > 0
    ensures Every(fuel, base, Applied(FieldSchema(Headers), v))
            == Some(v.Obj? ==> forall h <- v.fields :: v.fields[h].Str?)
  {
    forall h ensures Verdicts(fuel, base)(Check(Obj(TypeOnly(StringType)), h)) == Some(h.Str?) {
      HeaderAccepts(fuel, base, h);
    }
    HeadersOutcome(Verdicts(fuel, base), v);
  }

  lemma HeadersPlain(v: Json)
    ensures var f := FieldSchema(Headers);
            Plain(f, v) == v.Obj? && !(Base in f)
            && Take(f, Ref) == None && Take(f, AnyOf) == None && Take(f, Not) == None
  {
  }

  lemma HeadersAccept(fuel: nat, base: Json, v: Json)
    requires fuel > 1
    ensures Accepts(fuel, base, Obj(FieldSchema(Headers)), v) == Some(FieldOk(Headers, v))
  {
    HeadersEvery(fuel - 1, base, v);
    HeadersPlain(v);
    assert Keywords(fuel - 1, base, FieldSchema(Headers), v) == Some(FieldOk(Headers, v));
  }

  /** The checks of an envelope: each member against its field, or against nothing. */
  lemma EnvelopeChecks(body: Json, o: map<Name, Json>)
    ensures Applied(Envelope(body), Obj(o))
            == MemberChecks(Fields(body), Obj(o)) + OtherChecks(Fields(body), Some(Bool(false)), Obj(o))
  {
    var f := Envelope(body);
    assert Take(f, Properties) == Some(Obj(Fields(body))) && Take(f, AdditionalProperties) == Some(Bool(false));
    assert Take(f, Items) == None && Take(f, AllOf) == None;
  }

  /** The members of an object o, what each has to be, and the one that a schema of
      its own decides about. */
  datatype Form = Form(props: map<Name, Json>, ok: (Name, Json) -> bool, inner: Name, o: map<Name, Json>)

  /** The verdict on a member is whether it is as it has to be, and nothing is let
      through that is not one. */
  ghost predicate Judges(verdict: Check -> Option<bool>, m: Form)
  {
    (forall n, v :: n in m.props && n != m.inner ==> verdict(Check(m.props[n], v)) == Some(m.ok(n, v)))
    && (forall v :: verdict(Check(Bool(false), v)) == Some(false))
    && m.inner in m.props && (forall v :: m.ok(m.inner, v)) && forall n, v :: n !in m.props ==> !m.ok(n, v)
  }

  function CheckFor(m: Form, n: Name): Check
    requires n in m.o
  {
    Check(if n in m.props then m.props[n] else Bool(false), m.o[n])
  }

  function Checks(m: Form): set<Check> { set n | n in m.o :: CheckFor(m, n) }

  function Inner(verdict: Check -> Option<bool>, m: Form): Option<bool>
  {
    if m.inner in m.o then verdict(CheckFor(m, m.inner)) else Some(true)
  }

  /** The outcome of the checks, given the outcome of the one for the inner member. */
  lemma OutcomeOfChecks(verdict: Check -> Option<bool>, m: Form)
    requires Judges(verdict, m)
    ensures AllOk(verdict, Checks(m)) == Both(Inner(verdict, m), Some(forall n <- m.o :: m.ok(n, m.o[n])))
  {
    if m.inner in m.o {
      assert CheckFor(m, m.inner) in Checks(m);
    }
    forall n <- m.o ensures CheckFor(m, n) in Checks(m) {}
    if Inner(verdict, m).Some? {
      var all := Inner(verdict, m).value && forall n <- m.o :: m.ok(n, m.o[n]);
      if !all {
        var n :| n in m.o && (if n == m.inner then !Inner(verdict, m).value else !m.ok(n, m.o[n]));
        assert verdict(CheckFor(m, n)) == Some(false);
      }
    }
  }

  function EnvelopeForm(body: Json, o: map<Name, Json>): Form { Form(Fields(body), (n, v) => FieldOk(n, v), Body, o) }

  lemma ChecksOfForm(body: Json, o: map<Name, Json>)
    ensures Applied(Envelope(body), Obj(o)) == Checks(EnvelopeForm(body, o))
  {
    EnvelopeChecks(body, o);
    SplitChecks(EnvelopeForm(body, o));
  }

  lemma SplitChecks(m: Form)
    ensures Checks(m) == MemberChecks(m.props, Obj(m.o)) + OtherChecks(m.props, Some(Bool(false)), Obj(m.o))
  {
    forall c | c in Checks(m)
      ensures c in MemberChecks(m.props, Obj(m.o)) + OtherChecks(m.props, Some(Bool(false)), Obj(m.o))
    {
      var n :| n in m.o && c == CheckFor(m, n);
    }
    forall n | n in m.o ensures CheckFor(m, n) in Checks(m) {}
  }

  lemma MemberAccepts(fuel: nat, base: Json, body: Json, n: Name, v: Json)
    requires fuel > 1 && n in FIELDS && n != Body
    ensures Accepts(fuel, base, Fields(body)[n], v) == Some(FieldOk(n, v))
  {
    if n == Headers {
      HeadersAccept(fuel, base, v);
    } else {
      FieldAccepts(fuel, base, n, v);
    }
  }

  lemma AcceptsJudges(fuel: nat, base: Json, body: Json, o: map<Name, Json>)
    requires fuel > 1
    ensures Judges(Verdicts(fuel, base), EnvelopeForm(body, o))
  {
    var verdict := Verdicts(fuel, base);
    forall v ensures verdict(Check(Bool(false), v)) == Some(false) {
      assert Accepts(fuel, base, Bool(false), v) == Some(false);
    }
    forall n, v | n in FIELDS && n != Body ensures verdict(Check(Fields(body)[n], v)) == Some(FieldOk(n, v)) {
      MemberAccepts(fuel, base, body, n, v);
    }
    FormFields(body, o);
    FormJudged(verdict, EnvelopeForm(body, o));
  }

  lemma FormFields(body: Json, o: map<Name, Json>)
    ensures var m := EnvelopeForm(body, o);
            m.props == Fields(body) && m.props.Keys == FIELDS && m.inner == Body
            && (forall v :: m.ok(Body, v)) && (forall n, v :: n !in FIELDS ==> !m.ok(n, v))
            && forall n, v :: m.ok(n, v) == FieldOk(n, v)
  {
  }

  lemma FormJudged(verdict: Check -> Option<bool>, m: Form)
    requires m.props.Keys == FIELDS && m.inner == Body
    requires (forall v :: m.ok(Body, v)) && forall n, v :: n !in FIELDS ==> !m.ok(n, v)
    requires forall n, v :: n in FIELDS && n != Body ==> verdict(Check(m.props[n], v)) == Some(m.ok(n, v))
    requires forall v :: verdict(Check(Bool(false), v)) == Some(false)
    ensures Judges(verdict, m)
  {
  }

  lemma EnvelopeEvery(fuel: nat, base: Json, body: Json, o: map<Name, Json>)
    requires fuel > 1
    ensures Every(fuel, base, Applied(Envelope(body), Obj(o)))
            == Both(if Body in o then Accepts(fuel, base, body, o[Body]) else Some(true),
                    Some(forall n <- o :: FieldOk(n, o[n])))
  {
    var m := EnvelopeForm(body, o);
    AcceptsJudges(fuel, base, body, o);
    OutcomeOfChecks(Verdicts(fuel, base), m);
    ChecksOfForm(body, o);
  }

  lemma NoOtherKeywords(fuel: nat, base: Json, f: map<Name, Json>, v: Json)
    requires Take(f, Ref) == Take(f, AnyOf) == Take(f, Not) == None
    ensures Keywords(fuel, base, f, v) == Both(Some(Plain(f, v)), Every(fuel, base, Applied(f, v)))
  {
  }

  lemma EnvelopePlain(body: Json, v: Json)
    ensures var f := Envelope(body);
            Plain(f, v) == (v.Obj? && Narad in v.fields && Id in v.fields && Body in v.fields && ProducedAt in v.fields)
            && Take(f, Ref) == Take(f, AnyOf) == Take(f, Not) == None && (!v.Obj? ==> Applied(f, v) == {})
  {
    EnvelopeTakes(body);
    var names := [Str(Narad), Str(Id), Str(Body), Str(ProducedAt)];
    assert names[0].s == Narad && names[1].s == Id && names[2].s == Body && names[3].s == ProducedAt;
  }

  lemma EnvelopeTakes(body: Json)
    ensures var f := Envelope(body);
            Take(f, Required) == Some(Arr([Str(Narad), Str(Id), Str(Body), Str(ProducedAt)]))
            && Take(f, Type) == Some(Str(ObjectType))
            && forall n <- {AllOf, Items, MinLength, Minimum, Enum} :: Take(f, n) == None
  {
  }

  /** What the keywords of an envelope's schema make of a value. */
  lemma EnvelopeKeywords(fuel: nat, base: Json, body: Json, v: Json)
    requires fuel > 1
    ensures Keywords(fuel, base, Envelope(body), v)
            == if v.Obj? && Body in v.fields then
                 Both(Some(EnvelopeOk(v.fields)), Accepts(fuel, base, body, v.fields[Body]))
               else Some(false)
  {
    EnvelopePlain(body, v);
    NoOtherKeywords(fuel, base, Envelope(body), v);
    if v.Obj? {
      EnvelopeEvery(fuel, base, body, v.fields);
      PlainAndFields(v.fields, if Body in v.fields then Accepts(fuel, base, body, v.fields[Body]) else Some(true));
    } else {
      NoChecks(fuel, base);
    }
  }

  lemma NoChecks(fuel: nat, base: Json)
    ensures Every(fuel, base, {}) == Some(true)
  {
  }

  lemma PlainAndFields(o: map<Name, Json>, inner: Option<bool>)
    ensures Both(Some(Narad in o && Id in o && Body in o && ProducedAt in o),
                 Both(inner, Some(forall n <- o :: FieldOk(n, o[n]))))
            == if inner.None? then None else if Body in o then Both(Some(EnvelopeOk(o)), inner) else Some(false)
  {
  }

  lemma RootAccepts(fuel: nat, f: map<Name, Json>, v: Json)
    ensures Accepts(fuel + 1, Obj(f), Obj(f), v) == Keywords(fuel, Obj(f), Kept(f), v)
  {
    KeptAccepts(fuel, Obj(f), f, v);
  }

  /** For every schema whose references all point into its definitions, circular ones
      included, the wrapped schema accepts a value exactly when the value is a well
      formed envelope and the original schema accepts its body.  With one more step
      from schema to schema, it knows so exactly when the original does. */
  lemma WrappedAccepts(fuel: nat, f: map<Name, Json>, v: Json)
    requires OwnReferences(Obj(f)) && fuel > 1
    ensures Accepts(fuel + 1, Wrap(f), Wrap(f), v)
            == if v.Obj? && Body in v.fields then
                 Both(Some(EnvelopeOk(v.fields)), Accepts(fuel, Obj(f), Obj(f), v.fields[Body]))
               else Some(false)
  {
    WrapKeepsDefs(f);
    EnvelopeAccepts(fuel, f, Wrap(f), v);
  }

  lemma EnvelopeAccepts(fuel: nat, f: map<Name, Json>, w: Json, v: Json)
    requires OwnReferences(Obj(f)) && fuel > 1 && SameDefs(Obj(f), w) && Kept(w.fields) == Envelope(Obj(Kept(f)))
    ensures Accepts(fuel + 1, w, w, v)
            == if v.Obj? && Body in v.fields then
                 Both(Some(EnvelopeOk(v.fields)), Accepts(fuel, Obj(f), Obj(f), v.fields[Body]))
               else Some(false)
  {
    RootAccepts(fuel, w.fields, v);
    EnvelopeKeywords(fuel, w, Obj(Kept(f)), v);
    if v.Obj? && Body in v.fields { BodyAccepts(fuel, f, w, v.fields[Body]); }
  }

  // ----- references that do not survive -----

  lemma OthersOnly(fuel: nat, base: Json, f: map<Name, Json>, sub: Json, n: Name, x: Json)
    requires f.Keys <= {Properties, AdditionalProperties} && n !in Member(f, Properties)
    requires Take(f, AdditionalProperties) == Some(sub)
    ensures Keywords(fuel, base, f, Obj(map[n := x])) == Accepts(fuel, base, sub, x)
  {
    var v := Obj(map[n := x]);
    assert Applied(f, v) == {Check(sub, x)};
    OneCheck(Verdicts(fuel, base), {Check(sub, x)}, Check(sub, x));
    NoOtherKeywords(fuel, base, f, v);
    assert Plain(f, v);
  }

  lemma OneCheck(verdict: Check -> Option<bool>, checks: set<Check>, c: Check)
    requires c in checks && forall d <- checks :: d == c
    ensures AllOk(verdict, checks) == verdict(c)
  {
    if verdict(c).Some? {
      forall d <- checks ensures verdict(d).Some? { assert d == c; }
      if verdict(c).value {
        forall d <- checks ensures verdict(d) == Some(true) { assert d == c; }
      }
    }
  }

  lemma OnlyReferred(fuel: nat, base: Json, f: map<Name, Json>, v: Json)
    requires Take(f, AnyOf) == Take(f, Not) == None && Applied(f, v) == {} && Plain(f, v)
    ensures Keywords(fuel, base, f, v) == Referred(fuel, base, Take(f, Ref), v)
  {
    NoChecks(fuel, base);
  }

  lemma RefOnly(fuel: nat, base: Json, target: Target, v: Json)
    ensures Accepts(fuel + 1, base, Obj(map[Ref := Link(target)]), v)
            == var t := Follow(base, target);
               if t.None? then Some(false) else Accepts(fuel, t.value.base, t.value.schema, v)
  {
    var f := map[Ref := Link(target)];
    assert Applied(f, v) == {} && Plain(f, v);
    assert Take(f, AnyOf) == None && Take(f, Not) == None && Take(f, Ref) == Some(Link(target));
    OnlyReferred(fuel, base, f, v);
    assert !(Base in f);
  }

  /** An object that everything accepts that accepts any object. */
  const EMPTY: Json := Obj(map[])

  lemma EmptyAccepts(fuel: nat, base: Json, f: map<Name, Json>)
    requires f.Keys <= {Properties, AdditionalProperties}
    ensures Keywords(fuel, base, f, EMPTY) == Some(true)
  {
    assert Applied(f, EMPTY) == {} && Plain(f, EMPTY);
    NoChecks(fuel, base);
    NoOtherKeywords(fuel, base, f, EMPTY);
  }

  /** A schema that refers to its own root does not mean the same once it is wrapped:
      the root is the envelope then.  This one wants every member to be like the
      whole, and it accepts an object with one empty member. */
  lemma RootReferenceChanges(fuel: nat, n: Name)
    requires fuel > 4
    ensures var f := map[AdditionalProperties := Obj(map[Ref := Link(Root)])];
            var body := Obj(map[n := EMPTY]);
            Accepts(fuel, Obj(f), Obj(f), body) == Some(true)
            && Accepts(fuel, Wrap(f), Obj(Kept(f)), body) == Some(false)
  {
    var sub := Obj(map[Ref := Link(Root)]);
    var f := map[AdditionalProperties := sub];
    assert Kept(f) == f;
    OthersOnly(fuel - 1, Obj(f), f, sub, n, EMPTY);
    RefOnly(fuel - 2, Obj(f), Root, EMPTY);
    EmptyAccepts(fuel - 3, Obj(f), f);
    WrapRejectsEmpty(fuel - 3, f);
    RootRejects(fuel, f, Wrap(f), sub, n);
  }

  lemma RootRejects(fuel: nat, f: map<Name, Json>, w: Json, sub: Json, n: Name)
    requires fuel > 2 && sub == Obj(map[Ref := Link(Root)]) && f == map[AdditionalProperties := sub]
    requires Accepts(fuel - 2, w, w, EMPTY) == Some(false)
    ensures Accepts(fuel, w, Obj(f), Obj(map[n := EMPTY])) == Some(false)
  {
    OthersReferToRoot(fuel - 1, w, f, sub, n);
    assert !(Base in f);
  }

  lemma OthersReferToRoot(fuel: nat, w: Json, f: map<Name, Json>, sub: Json, n: Name)
    requires fuel > 1 && sub == Obj(map[Ref := Link(Root)]) && f == map[AdditionalProperties := sub]
    ensures Keywords(fuel, w, f, Obj(map[n := EMPTY])) == Accepts(fuel - 1, w, w, EMPTY)
  {
    OthersOnly(fuel, w, f, sub, n, EMPTY);
    RefOnly(fuel - 1, w, Root, EMPTY);
  }

  lemma WrapRejectsEmpty(fuel: nat, f: map<Name, Json>)
    requires fuel > 1
    ensures Accepts(fuel + 1, Wrap(f), Wrap(f), EMPTY) == Some(false)
  {
    WrapKeepsDefs(f);
    RootAccepts(fuel, Wrap(f).fields, EMPTY);
    EnvelopeKeywords(fuel, Wrap(f), Obj(Kept(f)), EMPTY);
  }

  /** Nor does one that refers to its own properties: this one wants every other
      member to be like member a, and once wrapped there is no such property. */
  lemma PropertyReferenceChanges(fuel: nat, text: Name)
    requires fuel > 3
    ensures var a, b := Other("a"), Other("b");
            var f := map[Properties := Obj(map[a := Obj(TypeOnly(StringType))]),
                         AdditionalProperties := Obj(map[Ref := Link(Pointer([Properties, a]))])];
            var body := Obj(map[b := Str(text)]);
            Accepts(fuel, Obj(f), Obj(f), body) == Some(true)
            && Accepts(fuel, Wrap(f), Obj(Kept(f)), body) == Some(false)
  {
    var a, b := Other("a"), Other("b");
    var props := map[a := Obj(TypeOnly(StringType))];
    var target := Pointer([Properties, a]);
    var sub := Obj(map[Ref := Link(target)]);
    var f := map[Properties := Obj(props), AdditionalProperties := sub];
    PropertyFollowed(f, props, a);
    HeaderAccepts(fuel - 2, Obj(f), Str(text));
    OthersOnly(fuel - 1, Obj(f), f, sub, b, Str(text));
    RefOnly(fuel - 2, Obj(f), target, Str(text));
    var w := Wrap(f);
    PropertyNotFollowed(f, w, a);
    OthersOnly(fuel - 1, w, f, sub, b, Str(text));
    RefOnly(fuel - 2, w, target, Str(text));
  }

  lemma PropertyFollowed(f: map<Name, Json>, props: map<Name, Json>, a: Name)
    requires f.Keys == {Properties, AdditionalProperties} && f[Properties] == Obj(props) && a in props
    requires !HasId(Obj(props)) && !HasId(props[a])
    ensures Follow(Obj(f), Pointer([Properties, a])) == Some(Place(Obj(f), props[a])) && Kept(f) == f
  {
    assert [Properties, a][1..] == [a] && [a][1..] == [];
    assert Resolve(Obj(f), Obj(props), [a]) == Resolve(Obj(f), props[a], []);
  }

  lemma PropertyNotFollowed(f: map<Name, Json>, w: Json, a: Name)
    requires w == Wrap(f) && a.Other?
    ensures Follow(w, Pointer([Properties, a])) == None
  {
    var body := Obj(Kept(f));
    WrapKeepsDefs(f);
    EnvelopeProperties(body);
    NoSuchMember(w, Fields(body), a);
  }

  lemma EnvelopeProperties(body: Json)
    ensures Take(Envelope(body), Properties) == Some(Obj(Fields(body)))
  {
  }

  lemma NoSuchMember(w: Json, props: map<Name, Json>, a: Name)
    requires w.Obj? && Take(Kept(w.fields), Properties) == Some(Obj(props)) && a !in props
    ensures Follow(w, Pointer([Properties, a])) == None
  {
    assert [Properties, a][1..] == [a];
    var base := Resource(w, Obj(props));
    assert Child(w, Properties) == Some(Obj(props)) && Child(Obj(props), a) == None;
    assert Resolve(base, Obj(props), [a]) == None;
  }

  // ----- which references do survive -----

  /** A reference means the same once any schema is wrapped: what it led to, it leads to. */
  ghost predicate StaysPut(t: Target)
  {
    forall f: map<Name, Json> :: Follow(Obj(f), t).Some? ==> Lands(Obj(f), t) == Lands(Wrap(f), t)
  }

  /** The schema that a reference leads to. */
  function Lands(base: Json, t: Target): Option<Json>
  {
    var p := Follow(base, t);
    if p.None? then None else Some(p.value.schema)
  }

  /** Exactly the references into the definitions or the dialect do, and those to another
      document. */
  lemma ReferencesThatSurvive(t: Target)
    ensures StaysPut(t) <==> Survives(t)
  {
    if Survives(t) {
      forall f: map<Name, Json> | Follow(Obj(f), t).Some? ensures Lands(Obj(f), t) == Lands(Wrap(f), t) {
        DefinitionStays(f, t);
      }
    } else {
      var f := Breaks(t);
      assert Follow(Obj(f), t).Some? && Lands(Obj(f), t) != Lands(Wrap(f), t);
    }
  }

  lemma {:induction false} SameSchema(s: Json, w: Json, j: Json, tokens: seq<Name>)
    ensures var p, q := Resolve(s, j, tokens), Resolve(w, j, tokens);
            if p.None? then q.None? else q.Some? && p.value.schema == q.value.schema
    decreases |tokens|
  {
    if tokens != [] {
      var next := Child(j, tokens[0]);
      if next.Some? { SameSchema(Resource(s, next.value), Resource(w, next.value), next.value, tokens[1..]); }
    }
  }

  lemma DefinitionStays(f: map<Name, Json>, t: Target)
    requires Survives(t) && t.Pointer? && Follow(Obj(f), t).Some?
    ensures Lands(Obj(f), t) == Lands(Wrap(f), t)
  {
    WrapKeepsDefs(f);
    KeptPlace(Obj(f), Wrap(f), t);
  }

  lemma KeptPlace(s: Json, w: Json, t: Target)
    requires SameDefs(s, w) && Survives(t) && t.Pointer? && Follow(s, t).Some?
    ensures Lands(s, t) == Lands(w, t)
  {
    var first := t.tokens[0];
    assert Take(s.fields, first) == Take(w.fields, first);
    var next := Child(s, first);
    SameSchema(Resource(s, next.value), Resource(w, next.value), next.value, t.tokens[1..]);
  }

  /** Nothing in the envelope's own schema is a 7, */
  const SEVEN: Json := Num(7.0)

  predicate NoSeven(j: Json)
  {
    match j
    case Num(n) => n != 7.0
    case Arr(items) => forall k :: 0 <= k < |items| ==> NoSeven(items[k])
    case Obj(fields) => forall n :: n in fields ==> NoSeven(fields[n])
    case _ => true
  }

  lemma {:induction false} NeverSeven(base: Json, j: Json, tokens: seq<Name>)
    requires NoSeven(j)
    ensures var p := Resolve(base, j, tokens); p.Some? ==> p.value.schema != SEVEN
    decreases |tokens|
  {
    if tokens != [] {
      var next := Child(j, tokens[0]);
      if next.Some? { NeverSeven(Resource(base, next.value), next.value, tokens[1..]); }
    }
  }

  /** and this schema has one at the end of the tokens and nowhere else. */
  function Nest(tokens: seq<Name>): Json
    decreases |tokens|
  {
    if tokens == [] then SEVEN else Obj(map[tokens[0] := Nest(tokens[1..])])
  }

  lemma {:induction false} NestHasOne(base: Json, tokens: seq<Name>, path: seq<Name>)
    ensures var p := Resolve(base, Nest(tokens), path);
            (path == tokens ==> p.Some?) && (path == tokens <==> p.Some? && p.value.schema == SEVEN)
    decreases |tokens|
  {
    if tokens != [] && path != [] && path[0] == tokens[0] {
      var next := Nest(tokens[1..]);
      NestHasOne(Resource(base, next), tokens[1..], path[1..]);
      assert path == [path[0]] + path[1..] && tokens == [tokens[0]] + tokens[1..];
    }
  }

  lemma Breaks(t: Target) returns (f: map<Name, Json>)
    requires !Survives(t)
    ensures Follow(Obj(f), t).Some? && Lands(Obj(f), t) != Lands(Wrap(f), t)
  {
    f := map[];
    if t.Pointer? && t.tokens != [] {
      f := map[t.tokens[0] := Nest(t.tokens[1..])];
      assert Obj(f) == Nest(t.tokens);
      NestHasOne(Obj(f), t.tokens, t.tokens);
      NestIsLost(f, t.tokens);
    } else {
      assert Type in Wrap(f).fields;
    }
  }

  lemma NestIsLost(f: map<Name, Json>, tokens: seq<Name>)
    requires tokens != [] && tokens[0] !in {Defs, Definitions, Dialect} && Obj(f) == Nest(tokens)
    ensures var p := Resolve(Wrap(f), Wrap(f), tokens); p.Some? ==> p.value.schema != SEVEN
  {
    WrapsNest(f, tokens);
    var w, first, body := Wrap(f), tokens[0], Obj(Kept(f));
    var next := Child(w, first);
    if first == Properties {
      FieldsHaveNone(Resource(w, next.value), f, tokens);
    } else if next.Some? {
      EnvelopeHasNone(body, first);
      NeverSeven(Resource(w, next.value), next.value, tokens[1..]);
    }
  }

  lemma WrapsNest(f: map<Name, Json>, tokens: seq<Name>)
    requires tokens != [] && tokens[0] !in {Defs, Definitions, Dialect} && Obj(f) == Nest(tokens)
    ensures Wrap(f) == Obj(Envelope(Obj(Kept(f)))) && (tokens[0] == Properties ==> Kept(f) == f)
    ensures Child(Wrap(f), tokens[0]) == Take(Envelope(Obj(Kept(f))), tokens[0])
    ensures tokens[0] == Properties ==> Child(Wrap(f), Properties) == Some(Obj(Fields(Obj(f))))
  {
    EnvelopeProperties(Obj(Kept(f)));
  }

  lemma EnvelopeHasNone(body: Json, n: Name)
    requires n in Envelope(body) && n != Properties
    ensures NoSeven(Envelope(body)[n])
  {
  }

  lemma FieldsHaveNone(base: Json, f: map<Name, Json>, tokens: seq<Name>)
    requires tokens != [] && Obj(f) == Nest(tokens)
    ensures var p := Resolve(base, Obj(Fields(Obj(f))), tokens[1..]); p.Some? ==> p.value.schema != SEVEN
  {
    var rest := tokens[1..];
    if rest != [] && rest[0] in FIELDS {
      var next := Child(Obj(Fields(Obj(f))), rest[0]).value;
      FieldIs(Obj(f), rest[0]);
      if rest[0] == Body {
        NestHasOne(Resource(base, next), tokens, rest[1..]);
      } else {
        FieldHasNone(rest[0]);
        NeverSeven(Resource(base, next), next, rest[1..]);
      }
    }
  }

  lemma FieldIs(body: Json, n: Name)
    requires n in FIELDS
    ensures Child(Obj(Fields(body)), n) == Some(if n == Body then body else Obj(FieldSchema(n)))
  {
  }

  lemma FieldHasNone(n: Name)
    ensures NoSeven(Obj(FieldSchema(n)))
  {
  }
}
