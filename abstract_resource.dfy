/**
 * camp-base AbstractResource and its Builder, as objects updated in place.
 *
 * Each method's contract ties the objects' state to the value-level model in
 * module ResourceSpec (Resource.State(), Builder.Abstract()), where the
 * protocol's properties over whole call sequences are proved.
 */
module AbstractResource {
  import opened Nullable
  import Spec = ResourceSpec

  /** An AbstractResource: its fields are written only by the builder, through the setters below. */
  class Resource {
    var id: Option<string>
    var name: Option<string>
    var resourceType: Option<string>
    var description: Option<string>
    var created: nat
    var tags: seq<string>
    var representationSkew: Option<Spec.RepresentationSkew>

    /** What the getters report. */
    ghost function State(): Spec.ResourceFields
      reads this
    {
      Spec.ResourceFields(id, name, resourceType, description, created, tags, representationSkew)
    }

    /** `new AbstractResource()`, with the random id and the clock reading given by env. */
    constructor (env: Spec.Environment)
      ensures State() == Spec.NewResource(env)
    {
      id := Some(env.randomId);
      name := None;
      resourceType := None;
      description := None;
      created := Spec.DropMilliseconds(env.now);
      tags := [];
      representationSkew := None;
    }

    method SetId(x: Option<string>)
      modifies this
      ensures State() == Spec.Apply(old(State()), Spec.SetId(x))
    {
      id := x;
    }

    method SetName(x: Option<string>)
      modifies this
      ensures State() == Spec.Apply(old(State()), Spec.SetName(x))
    {
      name := x;
    }

    method SetDescription(x: Option<string>)
      modifies this
      ensures State() == Spec.Apply(old(State()), Spec.SetDescription(x))
    {
      description := x;
    }

    /** Stores the time with its milliseconds dropped, so that equality survives second-precision storage. */
    method SetCreated(x: nat)
      modifies this
      ensures State() == Spec.Apply(old(State()), Spec.SetCreated(x))
    {
      created := Spec.DropMilliseconds(x);
    }

    /** Stores an immutable copy of the caller's list: the resource never shares the array. */
    method SetTags(x: array<string>)
      modifies this
      ensures State() == Spec.Apply(old(State()), Spec.SetTags(x[..]))
    {
      tags := x[..];
    }

    method SetType(x: Option<string>)
      modifies this
      ensures State() == Spec.Apply(old(State()), Spec.SetType(x))
    {
      resourceType := x;
    }

    method SetRepresentationSkew(x: Option<Spec.RepresentationSkew>)
      modifies this
      ensures State() == Spec.Apply(old(State()), Spec.SetRepresentationSkew(x))
    {
      representationSkew := x;
    }
  }

  /**
   * AbstractResource.Builder (instantiated as AbstractResourceBuilder): creates
   * the resource up front, lets the fluent setters change it, and refuses
   * every use after build().
   */
  class Builder {
    var built: bool
    /** The builder's `type` field: the type stamped on the resource when it is created. */
    var defaultType: Option<string>
    var instance: Resource?

    ghost function Abstract(): Spec.BuilderState
      reads this, instance
    {
      Spec.BuilderState(built, defaultType, if instance == null then None else Some(instance.State()))
    }

    /** Builder(type) */
    constructor (t: Option<string>)
      ensures Abstract() == Spec.NewBuilder(t)
    {
      built := false;
      defaultType := t;
      instance := null;
    }

    /**
     * The state after a fluent setter call that stored s: as the model says,
     * returning this builder unless it was already built, keeping the working
     * resource once it exists.
     */
    twostate predicate SetterDone(env: Spec.Environment, s: Spec.Setter, new r: Spec.Outcome<Builder>)
      reads this, instance
    {
      && built == old(built) && defaultType == old(defaultType)
      && r == (if old(built) then Spec.IllegalState else Spec.Ok(this))
      && Abstract() == Spec.Set(old(Abstract()), env, s).0
      && (old(instance) != null ==> instance == old(instance))
      && (old(instance) == null && instance != null ==> fresh(instance))
    }

    /** instance(): the working resource, created and initialised on first use; refused after build(). */
    method Instance(env: Spec.Environment) returns (r: Spec.Outcome<Resource>)
      modifies this`instance
      decreases if instance == null then 1 else 0, 2
      ensures built == old(built) && defaultType == old(defaultType)
      ensures Abstract() == Spec.Instance(old(Abstract()), env).0
      ensures r.IllegalState? <==> old(built)
      ensures r.Ok? ==> r.value == instance && Spec.Instance(old(Abstract()), env).1 == Spec.Ok(instance.State())
      ensures old(instance) != null ==> instance == old(instance)
      ensures old(instance) == null && instance != null ==> fresh(instance)
    {
      if built {
        return Spec.IllegalState;
      }
      if instance == null {
        instance := new Resource(env);
        Initialize(env);
      }
      r := Spec.Ok(instance);
    }

    /** initialize(): a non-null default type is applied through the type setter. */
    method Initialize(env: Spec.Environment)
      requires !built && instance != null
      modifies this`instance, instance
      decreases 0, 4
      ensures built == old(built) && defaultType == old(defaultType) && instance == old(instance)
      ensures instance.State() == Spec.Initialize(defaultType, old(instance.State()))
    {
      if defaultType != None {
        var _ := Type(defaultType, env);
      }
    }

    /** build(): returns the working resource (creating it if needed) and seals the builder. */
    method Build(env: Spec.Environment) returns (r: Spec.Outcome<Resource>)
      modifies this`instance, this`built
      ensures defaultType == old(defaultType)
      ensures Abstract() == Spec.Build(old(Abstract()), env).0
      ensures r.IllegalState? <==> old(built)
      ensures r.Ok? ==> r.value == instance && Spec.Build(old(Abstract()), env).1 == Spec.Ok(instance.State())
      ensures old(instance) != null ==> instance == old(instance)
      ensures old(instance) == null && instance != null ==> fresh(instance)
    {
      var w := Instance(env);
      if w.IllegalState? {
        return Spec.IllegalState;
      }
      built := true;
      r := w;
    }

    method Type(x: Option<string>, env: Spec.Environment) returns (r: Spec.Outcome<Builder>)
      modifies this`instance, instance
      decreases if instance == null then 1 else 0, 3
      ensures SetterDone(env, Spec.SetType(x), r)
    {
      var w := Instance(env);
      if w.IllegalState? {
        return Spec.IllegalState;
      }
      w.value.SetType(x);
      r := Spec.Ok(this);
    }

    method Id(x: Option<string>, env: Spec.Environment) returns (r: Spec.Outcome<Builder>)
      modifies this`instance, instance
      ensures SetterDone(env, Spec.SetId(x), r)
    {
      var w := Instance(env);
      if w.IllegalState? {
        return Spec.IllegalState;
      }
      w.value.SetId(x);
      r := Spec.Ok(this);
    }

    method Name(x: Option<string>, env: Spec.Environment) returns (r: Spec.Outcome<Builder>)
      modifies this`instance, instance
      ensures SetterDone(env, Spec.SetName(x), r)
    {
      var w := Instance(env);
      if w.IllegalState? {
        return Spec.IllegalState;
      }
      w.value.SetName(x);
      r := Spec.Ok(this);
    }

    method Description(x: Option<string>, env: Spec.Environment) returns (r: Spec.Outcome<Builder>)
      modifies this`instance, instance
      ensures SetterDone(env, Spec.SetDescription(x), r)
    {
      var w := Instance(env);
      if w.IllegalState? {
        return Spec.IllegalState;
      }
      w.value.SetDescription(x);
      r := Spec.Ok(this);
    }

    method Created(x: nat, env: Spec.Environment) returns (r: Spec.Outcome<Builder>)
      modifies this`instance, instance
      ensures SetterDone(env, Spec.SetCreated(x), r)
    {
      var w := Instance(env);
      if w.IllegalState? {
        return Spec.IllegalState;
      }
      w.value.SetCreated(x);
      r := Spec.Ok(this);
    }

    /** tags(x): x is the caller's list, which stays the caller's to change. */
    method Tags(x: array<string>, env: Spec.Environment) returns (r: Spec.Outcome<Builder>)
      modifies this`instance, instance
      ensures SetterDone(env, Spec.SetTags(x[..]), r)
    {
      var w := Instance(env);
      if w.IllegalState? {
        return Spec.IllegalState;
      }
      w.value.SetTags(x);
      r := Spec.Ok(this);
    }

    method RepresentationSkew(x: Option<Spec.RepresentationSkew>, env: Spec.Environment) returns (r: Spec.Outcome<Builder>)
      modifies this`instance, instance
      ensures SetterDone(env, Spec.SetRepresentationSkew(x), r)
    {
      var w := Instance(env);
      if w.IllegalState? {
        return Spec.IllegalState;
      }
      w.value.SetRepresentationSkew(x);
      r := Spec.Ok(this);
    }
  }

  /** AbstractResource.builder(): a builder that stamps the type "Resource". */
  method NewResourceBuilder() returns (b: Builder)
    ensures fresh(b) && b.Abstract() == Spec.NewBuilder(Some(Spec.CAMP_TYPE))
  {
    b := new Builder(Some(Spec.CAMP_TYPE));
  }

  /**
   * A client: name and description on a fresh builder, then build; the result
   * carries the default type, and the sealed builder refuses a second build.
   */
  method NameDescriptionBuild(env: Spec.Environment, later: Spec.Environment)
  {
    var b := NewResourceBuilder();
    var r1 := b.Name(Some("MockWarComponent"), env);
    var r2 := b.Description(Some("Mock WAR"), env);
    assert r1 == r2 == Spec.Ok(b);
    var res := b.Build(env);
    assert res.Ok?;
    assert res.value.resourceType == Some("Resource");
    assert res.value.name == Some("MockWarComponent") && res.value.description == Some("Mock WAR");
    var again := b.Build(later);
    assert again == Spec.IllegalState;
    var late := b.Name(None, later);
    assert late == Spec.IllegalState && res.value.name == Some("MockWarComponent");
  }

  /** A client: changing the list after tags(list) leaves the resource's tags as they were. */
  method TagsAreCopied(env: Spec.Environment)
  {
    var b := new Builder(None);
    var list := new string[2]["web", "db"];
    var r := b.Tags(list, env);
    list[0] := "changed";
    var res := b.Build(env);
    assert res.Ok? && res.value.tags == ["web", "db"];
  }
}
