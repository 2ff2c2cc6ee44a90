/**
 * The value-level model of a CAMP resource and of its one-shot builder
 * (camp-base AbstractResource and AbstractResource.Builder).
 *
 * A resource is described by the values its getters report; the builder by
 * its `built` flag, the default type it stamps and the working resource it
 * creates lazily. The classes in module AbstractResource are proved to
 * behave as the functions here say, and the lemmas here state what the
 * builder protocol promises over whole sequences of calls.
 */
module ResourceSpec {
  import opened Nullable

  /** io.brooklyn.camp.commontypes.RepresentationSkew; its contents are not modelled. */
  type RepresentationSkew(==)

  /** The type that AbstractResource.builder() stamps on the resources it builds. */
  const CAMP_TYPE: string := "Resource"

  /** Milliseconds in one second; timestamps are counted in milliseconds. */
  const MILLIS_PER_SECOND: nat := 1000

  /**
   * Time.dropMilliseconds on a timestamp given in milliseconds: the latest
   * whole second that is not after t.
   */
  function DropMilliseconds(t: nat): (r: nat)
    ensures r % MILLIS_PER_SECOND == 0
    ensures r <= t < r + MILLIS_PER_SECOND
  {
    t - t % MILLIS_PER_SECOND
  }

  /** Truncating an already truncated timestamp changes nothing. */
  lemma DropMillisecondsIdempotent(t: nat)
    ensures DropMilliseconds(DropMilliseconds(t)) == DropMilliseconds(t)
  {
  }

  /** What the getters of one AbstractResource report. */
  datatype ResourceFields = ResourceFields(
    id: Option<string>,
    name: Option<string>,
    resourceType: Option<string>,
    description: Option<string>,
    created: nat,
    tags: seq<string>,
    representationSkew: Option<RepresentationSkew>)

  /**
   * What the random-id generator (Identifiers.makeRandomId(8)) and the clock
   * (new Date()) yield at the moment a resource object is created.
   */
  datatype Environment = Environment(randomId: string, now: nat)

  /** The field initialisers of AbstractResource, run by `new AbstractResource()`. */
  function NewResource(env: Environment): (r: ResourceFields)
    ensures r.id == Some(env.randomId)
    ensures r.name == None && r.resourceType == None && r.description == None
    ensures r.created == DropMilliseconds(env.now) && r.created % MILLIS_PER_SECOND == 0
    ensures r.tags == [] && r.representationSkew == None
  {
    ResourceFields(Some(env.randomId), None, None, None, DropMilliseconds(env.now), [], None)
  }

  /** The private setters of AbstractResource, one per field, with their argument. */
  datatype Setter =
    | SetId(value: Option<string>)
    | SetName(value: Option<string>)
    | SetType(value: Option<string>)
    | SetDescription(value: Option<string>)
    | SetCreated(millis: nat)
    | SetTags(tags: seq<string>)
    | SetRepresentationSkew(skew: Option<RepresentationSkew>)

  /** The fields of a resource, to say which one a setter writes. */
  datatype Field = IdField | NameField | TypeField | DescriptionField | CreatedField | TagsField | SkewField

  /** The field a setter writes. */
  function Target(s: Setter): Field
  {
    match s
    case SetId(_) => IdField
    case SetName(_) => NameField
    case SetType(_) => TypeField
    case SetDescription(_) => DescriptionField
    case SetCreated(_) => CreatedField
    case SetTags(_) => TagsField
    case SetRepresentationSkew(_) => SkewField
  }

  /** r1 and r2 agree on field f. */
  predicate SameField(r1: ResourceFields, r2: ResourceFields, f: Field)
  {
    match f
    case IdField => r1.id == r2.id
    case NameField => r1.name == r2.name
    case TypeField => r1.resourceType == r2.resourceType
    case DescriptionField => r1.description == r2.description
    case CreatedField => r1.created == r2.created
    case TagsField => r1.tags == r2.tags
    case SkewField => r1.representationSkew == r2.representationSkew
  }

  /**
   * The field that s writes holds what s stores there: its argument, except
   * that a creation time is stored with its milliseconds dropped.
   */
  predicate Stores(r: ResourceFields, s: Setter)
  {
    match s
    case SetId(v) => r.id == v
    case SetName(v) => r.name == v
    case SetType(v) => r.resourceType == v
    case SetDescription(v) => r.description == v
    case SetCreated(t) => r.created == DropMilliseconds(t)
    case SetTags(ts) => r.tags == ts
    case SetRepresentationSkew(k) => r.representationSkew == k
  }

  /** Whether s stores something holds only of the field s writes. */
  lemma StoresReadsOnlyTarget(r1: ResourceFields, r2: ResourceFields, s: Setter)
    requires SameField(r1, r2, Target(s))
    ensures Stores(r1, s) <==> Stores(r2, s)
  {
  }

  /** Running one private setter on a resource. */
  function Apply(r: ResourceFields, s: Setter): (r': ResourceFields)
    ensures Stores(r', s)
    ensures forall f :: f != Target(s) ==> SameField(r, r', f)
  {
    match s
    case SetId(v) => r.(id := v)
    case SetName(v) => r.(name := v)
    case SetType(v) => r.(resourceType := v)
    case SetDescription(v) => r.(description := v)
    case SetCreated(t) => r.(created := DropMilliseconds(t))
    case SetTags(ts) => r.(tags := ts)
    case SetRepresentationSkew(k) => r.(representationSkew := k)
  }

  /** Storing the creation time a resource already has leaves it unchanged, once that time is whole seconds. */
  lemma ReapplyingCreatedIsNoop(r: ResourceFields)
    requires r.created % MILLIS_PER_SECOND == 0
    ensures Apply(r, SetCreated(r.created)) == r
  {
  }

  /** Running setters one after another, first to last. */
  function ApplyAll(r: ResourceFields, ss: seq<Setter>): ResourceFields
    decreases |ss|
  {
    if ss == [] then r else ApplyAll(Apply(r, ss[0]), ss[1..])
  }

  /** A field that none of the setters writes keeps its value. */
  lemma {:induction false} UntouchedFieldKept(r: ResourceFields, ss: seq<Setter>, f: Field)
    requires forall j :: 0 <= j < |ss| ==> Target(ss[j]) != f
    ensures SameField(r, ApplyAll(r, ss), f)
    decreases |ss|
  {
    if ss != [] {
      UntouchedFieldKept(Apply(r, ss[0]), ss[1..], f);
    }
  }

  /** The last setter that writes a field decides that field's value. */
  lemma {:induction false} LastWriteWins(r: ResourceFields, ss: seq<Setter>, i: nat)
    requires i < |ss|
    requires forall j :: i < j < |ss| ==> Target(ss[j]) != Target(ss[i])
    ensures Stores(ApplyAll(r, ss), ss[i])
    decreases |ss|
  {
    if i == 0 {
      UntouchedFieldKept(Apply(r, ss[0]), ss[1..], Target(ss[0]));
      StoresReadsOnlyTarget(Apply(r, ss[0]), ApplyAll(r, ss), ss[0]);
    } else {
      LastWriteWins(Apply(r, ss[0]), ss[1..], i - 1);
    }
  }

  /** Every setter keeps the creation time in whole seconds. */
  lemma {:induction false} CreatedStaysWholeSeconds(r: ResourceFields, ss: seq<Setter>)
    requires r.created % MILLIS_PER_SECOND == 0
    ensures ApplyAll(r, ss).created % MILLIS_PER_SECOND == 0
    decreases |ss|
  {
    if ss != [] {
      CreatedStaysWholeSeconds(Apply(r, ss[0]), ss[1..]);
    }
  }

  // ---------------------------------------------------------------------
  // The builder protocol

  /** The builder's fields `built`, `type` and `instance` (the working resource). */
  datatype BuilderState = BuilderState(built: bool, defaultType: Option<string>, working: Option<ResourceFields>)

  /** A builder call either returns normally or throws IllegalStateException. */
  datatype Outcome<+T> = Ok(value: T) | IllegalState

  /** Builder(type): not built, no working resource yet. */
  function NewBuilder(defaultType: Option<string>): (b: BuilderState)
    ensures !b.built && b.working == None && b.defaultType == defaultType
  {
    BuilderState(false, defaultType, None)
  }

  /** Builder.initialize(): a non-null default type is stored through the type setter. */
  function Initialize(defaultType: Option<string>, r: ResourceFields): (r': ResourceFields)
    ensures defaultType.Some? ==> r'.resourceType == defaultType
    ensures forall f :: f != TypeField ==> SameField(r, r', f)
    ensures defaultType == None ==> r' == r
  {
    if defaultType.Some? then Apply(r, SetType(defaultType)) else r
  }

  /**
   * Builder.instance(): refuses a built builder; otherwise returns the working
   * resource, creating and initialising it first if there is none.
   */
  function Instance(b: BuilderState, env: Environment): (res: (BuilderState, Outcome<ResourceFields>))
    ensures res.1 == IllegalState <==> b.built
    ensures b.built ==> res.0 == b
    ensures !b.built ==> res.0.working == Some(res.1.value)
    ensures res.0.built == b.built && res.0.defaultType == b.defaultType
    ensures b.working.Some? ==> res.0 == b
    ensures !b.built && b.working == None ==> res.1.value == Initialize(b.defaultType, NewResource(env))
  {
    if b.built then (b, IllegalState)
    else match b.working
      case Some(r) => (b, Ok(r))
      case None =>
        var r := Initialize(b.defaultType, NewResource(env));
        (b.(working := Some(r)), Ok(r))
  }

  /** A fluent setter of the builder: instance().setX(x), then return the builder (Ok(())). */
  function Set(b: BuilderState, env: Environment, s: Setter): (res: (BuilderState, Outcome<()>))
    ensures res.1 == IllegalState <==> b.built
    ensures b.built ==> res.0 == b
    ensures !b.built ==> res.0 == b.(working := Some(Apply(Instance(b, env).1.value, s)))
  {
    var (b', w) := Instance(b, env);
    if w.IllegalState? then (b', IllegalState)
    else (b'.(working := Some(Apply(w.value, s))), Ok(()))
  }

  /** Builder.build(): obtain the instance (which throws once built), then seal the builder. */
  function Build(b: BuilderState, env: Environment): (res: (BuilderState, Outcome<ResourceFields>))
    ensures res.1 == IllegalState <==> b.built
    ensures b.built ==> res.0 == b
    ensures !b.built ==> res.0.built && res.0.working == Some(res.1.value)
    ensures !b.built && b.working.Some? ==> res.1 == Ok(b.working.value)
    ensures res.0.defaultType == b.defaultType
  {
    var (b', w) := Instance(b, env);
    if w.IllegalState? then (b', IllegalState)
    else (b'.(built := true), w)
  }

  /** A call a client of the builder makes. */
  datatype Call = SetterCall(setter: Setter) | BuildCall

  /** The builder after one call. */
  function Step(b: BuilderState, env: Environment, c: Call): BuilderState
  {
    match c
    case SetterCall(s) => Set(b, env, s).0
    case BuildCall => Build(b, env).0
  }

  /** The builder after a sequence of calls. */
  function Run(b: BuilderState, env: Environment, cs: seq<Call>): BuilderState
    decreases |cs|
  {
    if cs == [] then b else Run(Step(b, env, cs[0]), env, cs[1..])
  }

  /** A chain of fluent setter calls. */
  function Setters(ss: seq<Setter>): (cs: seq<Call>)
    ensures |cs| == |ss| && forall i :: 0 <= i < |ss| ==> cs[i] == SetterCall(ss[i])
  {
    seq(|ss|, i requires 0 <= i < |ss| => SetterCall(ss[i]))
  }

  /** A sealed builder stays as it is whatever is called on it. */
  lemma {:induction false} SealedForever(b: BuilderState, env: Environment, cs: seq<Call>)
    requires b.built
    ensures Run(b, env, cs) == b
    decreases |cs|
  {
    if cs != [] {
      SealedForever(Step(b, env, cs[0]), env, cs[1..]);
    }
  }

  /**
   * Once build() has returned, the builder is sealed: any later calls leave it
   * as it is, and each setter, instance() and a second build() throws.
   */
  lemma AfterBuildEverythingThrows(b: BuilderState, env: Environment, later: Environment, cs: seq<Call>, s: Setter)
    requires Build(b, env).1.Ok?
    ensures var sealed := Build(b, env).0;
      && Run(sealed, later, cs) == sealed
      && Instance(Run(sealed, later, cs), later).1 == IllegalState
      && Set(Run(sealed, later, cs), later, s).1 == IllegalState
      && Build(Run(sealed, later, cs), later).1 == IllegalState
  {
    SealedForever(Build(b, env).0, later, cs);
  }

  /**
   * Once the working resource exists, the id generator and the clock are not
   * consulted again: it is created and initialised at most once.
   */
  lemma {:induction false} CreatedAtMostOnce(b: BuilderState, env1: Environment, env2: Environment, cs: seq<Call>)
    requires b.working.Some?
    ensures Run(b, env1, cs) == Run(b, env2, cs)
    decreases |cs|
  {
    if cs != [] {
      assert Step(b, env1, cs[0]) == Step(b, env2, cs[0]);
      CreatedAtMostOnce(Step(b, env1, cs[0]), env1, env2, cs[1..]);
    }
  }

  /** On an unsealed builder with a working resource, fluent setters run the private setters in order. */
  lemma {:induction false} SettersApplyInOrder(b: BuilderState, env: Environment, ss: seq<Setter>)
    requires !b.built && b.working.Some?
    ensures Run(b, env, Setters(ss)) == b.(working := Some(ApplyAll(b.working.value, ss)))
    decreases |ss|
  {
    if ss != [] {
      assert Setters(ss)[1..] == Setters(ss[1..]);
      var b' := Step(b, env, SetterCall(ss[0]));
      SettersApplyInOrder(b', env, ss[1..]);
    }
  }

  /** The resource built after a chain of setters on a fresh builder. */
  function Built(t: Option<string>, env: Environment, ss: seq<Setter>): ResourceFields
  {
    ApplyAll(Initialize(t, NewResource(env)), ss)
  }

  /**
   * build() after a chain of setters on a fresh builder returns the resource
   * those setters modified, created and initialised before the first of them.
   */
  lemma BuildReturnsWorkingResource(t: Option<string>, env: Environment, ss: seq<Setter>)
    ensures Build(Run(NewBuilder(t), env, Setters(ss)), env).1 == Ok(Built(t, env, ss))
  {
    var b := NewBuilder(t);
    var r := Initialize(t, NewResource(env));
    if ss != [] {
      assert Setters(ss)[1..] == Setters(ss[1..]);
      var b' := Step(b, env, SetterCall(ss[0]));
      assert b' == b.(working := Some(Apply(r, ss[0])));
      SettersApplyInOrder(b', env, ss[1..]);
    }
  }

  /** Without a type(...) call the built resource carries the builder's default type. */
  lemma BuiltTypeIsDefault(t: Option<string>, env: Environment, ss: seq<Setter>)
    requires forall j :: 0 <= j < |ss| ==> !ss[j].SetType?
    ensures Build(Run(NewBuilder(t), env, Setters(ss)), env).1.Ok?
    ensures Build(Run(NewBuilder(t), env, Setters(ss)), env).1.value.resourceType == t
  {
    BuildReturnsWorkingResource(t, env, ss);
    UntouchedFieldKept(Initialize(t, NewResource(env)), ss, TypeField);
  }

  /** The default type is stamped before any caller value, so the last type(x) call wins. */
  lemma BuiltTypeIsLastTypeSet(t: Option<string>, env: Environment, ss: seq<Setter>, i: nat)
    requires i < |ss| && ss[i].SetType?
    requires forall j :: i < j < |ss| ==> !ss[j].SetType?
    ensures Build(Run(NewBuilder(t), env, Setters(ss)), env).1.Ok?
    ensures Build(Run(NewBuilder(t), env, Setters(ss)), env).1.value.resourceType == ss[i].value
  {
    BuildReturnsWorkingResource(t, env, ss);
    LastWriteWins(Initialize(t, NewResource(env)), ss, i);
  }

  /** AbstractResource.builder() builds resources of type "Resource" unless type(x) is called. */
  lemma DefaultBuilderStampsCampType(env: Environment, ss: seq<Setter>)
    requires forall j :: 0 <= j < |ss| ==> !ss[j].SetType?
    ensures Build(Run(NewBuilder(Some(CAMP_TYPE)), env, Setters(ss)), env).1
         == Ok(Built(Some(CAMP_TYPE), env, ss))
    ensures Built(Some(CAMP_TYPE), env, ss).resourceType == Some("Resource")
  {
    BuildReturnsWorkingResource(Some(CAMP_TYPE), env, ss);
    BuiltTypeIsDefault(Some(CAMP_TYPE), env, ss);
  }

  /**
   * A field other than the type that no setter writes keeps the default of
   * `new AbstractResource()`: the generated id, null name, description and
   * skew, the truncated creation time, empty tags.
   */
  lemma BuiltFieldKeepsDefault(t: Option<string>, env: Environment, ss: seq<Setter>, f: Field)
    requires f != TypeField
    requires forall j :: 0 <= j < |ss| ==> Target(ss[j]) != f
    ensures SameField(NewResource(env), Built(t, env, ss), f)
  {
    UntouchedFieldKept(Initialize(t, NewResource(env)), ss, f);
  }

  /** The built resource's creation time is always in whole seconds. */
  lemma BuiltCreatedIsWholeSeconds(t: Option<string>, env: Environment, ss: seq<Setter>)
    ensures Built(t, env, ss).created % MILLIS_PER_SECOND == 0
  {
    CreatedStaysWholeSeconds(Initialize(t, NewResource(env)), ss);
  }
}
