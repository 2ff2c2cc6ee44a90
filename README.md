# CAMP resource builder and platform DTO assembly

This project models two pieces of the CAMP server:

- **`AbstractResource` and its one-shot `Builder`** (camp-base). A resource has an id,
  name, type, description, creation time, tags and representation skew. The builder
  creates the resource up front. Its fluent setters write the resource's private fields.
  `build()` hands the resource out and seals the builder: from then on every setter,
  `instance()` and a second `build()` throws `IllegalStateException`.
- **`PlatformDto`'s assembling constructor** (camp-server). It turns each of the
  platform's six resource collections into a list of `LinkDto`s, in order, each tagged
  with the collection's resource class. It then adds one `apidoc` link to the API
  documentation.

Modules:

- `Nullable` (nullable.dfy): `Option`, standing for a Java reference that may be null.
- `ResourceSpec` (resource_spec.dfy): the value-level model. It covers the resource's
  fields, the private setters (`Apply`) and the builder's state machine (`Instance`, `Set`,
  `Build`, `Run`). It also holds the lemmas about whole call sequences: sealing, creation
  at most once, last write wins, default type and default fields.
- `AbstractResource` (abstract_resource.dfy): the classes `Resource` and `Builder`, updated
  in place as the Java does. Every method's postcondition ties the objects to
  `ResourceSpec` through `Resource.State()` and `Builder.Abstract()`. `initialize()` goes
  through the `type` setter, as in the source, so `Type`, `Instance` and `Initialize` are
  mutually recursive. They terminate because the working resource exists on the inner call.
- `PlatformDtos` (platform_dto.dfy): the class `PlatformDto`. `CollectLinks` is the
  for-loop each of the six link lists is built by. The collaborators are opaque types and
  function values of a `DtoFactory` datatype. The DTO's fields are constants, so only its
  constructors assign them.

Two behaviours the model takes exactly as the code has them:

- A second `build()` throws. `build()` obtains its result through `instance()`, which
  refuses a built builder (AbstractResource.java:118-120, :133). Repeat builds are not
  tolerated.
- The six link lists are read from the factory's platform (`dtoFactory.getPlatform()`),
  not from the summary argument. The summary only feeds the superclass.

## Model

| member | source | states |
|---|---|---|
| `ResourceSpec.DropMilliseconds` | camp-base/src/main/java/io/brooklyn/camp/spi/AbstractResource.java:78-81 | the stored creation time is the latest whole second not after the given time |
| `ResourceSpec.DropMillisecondsIdempotent` | camp-base/src/main/java/io/brooklyn/camp/spi/AbstractResource.java:78-81 | truncating twice is the same as truncating once |
| `ResourceSpec.NewResource` | camp-base/src/main/java/io/brooklyn/camp/spi/AbstractResource.java:32-38 | a new resource has the generated id, a whole-second creation time, empty tags, and null name, type, description and skew |
| `ResourceSpec.Apply` | camp-base/src/main/java/io/brooklyn/camp/spi/AbstractResource.java:69-90 | a private setter stores its argument in its own field (creation time truncated, tags copied) and leaves every other field as it was |
| `ResourceSpec.ReapplyingCreatedIsNoop` | camp-base/src/main/java/io/brooklyn/camp/spi/AbstractResource.java:78-81 | setting a whole-second creation time again changes nothing |
| `ResourceSpec.UntouchedFieldKept` | camp-base/src/main/java/io/brooklyn/camp/spi/AbstractResource.java:69-90 | a field no setter in a chain writes keeps its value |
| `ResourceSpec.LastWriteWins` | camp-base/src/main/java/io/brooklyn/camp/spi/AbstractResource.java:69-90 | the last setter in a chain that writes a field decides its value |
| `ResourceSpec.CreatedStaysWholeSeconds` | camp-base/src/main/java/io/brooklyn/camp/spi/AbstractResource.java:36 | every setter chain keeps the creation time in whole seconds |
| `ResourceSpec.NewBuilder` | camp-base/src/main/java/io/brooklyn/camp/spi/AbstractResource.java:105-111 | a new builder is not built, has no working resource and keeps the type it was given |
| `ResourceSpec.Initialize` | camp-base/src/main/java/io/brooklyn/camp/spi/AbstractResource.java:128-130 | a non-null default type is stamped on the resource; nothing else changes; a null default leaves the resource as it is |
| `ResourceSpec.Instance` | camp-base/src/main/java/io/brooklyn/camp/spi/AbstractResource.java:118-126 | refused exactly when built, without change; otherwise returns the working resource, creating and initialising it only if there is none |
| `ResourceSpec.Set` | camp-base/src/main/java/io/brooklyn/camp/spi/AbstractResource.java:141-147 | a fluent setter throws exactly when built, without change; otherwise it applies its private setter to the working resource |
| `ResourceSpec.Build` | camp-base/src/main/java/io/brooklyn/camp/spi/AbstractResource.java:132-136 | build throws exactly when already built; otherwise it seals the builder and returns the working resource, the existing one when there is one |
| `ResourceSpec.SealedForever` | camp-base/src/main/java/io/brooklyn/camp/spi/AbstractResource.java:118-120 | no sequence of calls changes a built builder |
| `ResourceSpec.AfterBuildEverythingThrows` | camp-base/src/main/java/io/brooklyn/camp/spi/AbstractResource.java:118-147 | after a successful build, any later calls leave the builder sealed and instance(), every setter and a second build throw |
| `ResourceSpec.CreatedAtMostOnce` | camp-base/src/main/java/io/brooklyn/camp/spi/AbstractResource.java:121-125 | once the working resource exists the id generator and clock no longer matter: it is created and initialised at most once |
| `ResourceSpec.SettersApplyInOrder` | camp-base/src/main/java/io/brooklyn/camp/spi/AbstractResource.java:141-147 | a chain of fluent setters on an unsealed builder applies the private setters to the same working resource, in order |
| `ResourceSpec.BuildReturnsWorkingResource` | camp-base/src/main/java/io/brooklyn/camp/spi/AbstractResource.java:132-136 | build after any setter chain on a fresh builder returns the created, initialised resource with those setters applied |
| `ResourceSpec.BuiltTypeIsDefault` | camp-base/src/main/java/io/brooklyn/camp/spi/AbstractResource.java:109-130 | without a type(x) call the built resource's type is the builder's default type |
| `ResourceSpec.BuiltTypeIsLastTypeSet` | camp-base/src/main/java/io/brooklyn/camp/spi/AbstractResource.java:128-141 | the default is stamped first, so the last type(x) call decides the built type |
| `ResourceSpec.DefaultBuilderStampsCampType` | camp-base/src/main/java/io/brooklyn/camp/spi/AbstractResource.java:94-96 | builder() builds resources of type "Resource" unless type(x) is called |
| `ResourceSpec.BuiltFieldKeepsDefault` | camp-base/src/main/java/io/brooklyn/camp/spi/AbstractResource.java:32-38 | a field other than the type that no setter writes keeps its default in the built resource |
| `ResourceSpec.BuiltCreatedIsWholeSeconds` | camp-base/src/main/java/io/brooklyn/camp/spi/AbstractResource.java:78-81 | a built resource's creation time is always in whole seconds |
| `AbstractResource.Resource.constructor` | camp-base/src/main/java/io/brooklyn/camp/spi/AbstractResource.java:32-41 | the new object's fields are the defaults of NewResource |
| `AbstractResource.Resource.SetId` | camp-base/src/main/java/io/brooklyn/camp/spi/AbstractResource.java:69-71 | the object's new state is Apply of SetId on its old state |
| `AbstractResource.Resource.SetName` | camp-base/src/main/java/io/brooklyn/camp/spi/AbstractResource.java:72-74 | the object's new state is Apply of SetName on its old state |
| `AbstractResource.Resource.SetDescription` | camp-base/src/main/java/io/brooklyn/camp/spi/AbstractResource.java:75-77 | the object's new state is Apply of SetDescription on its old state |
| `AbstractResource.Resource.SetCreated` | camp-base/src/main/java/io/brooklyn/camp/spi/AbstractResource.java:78-81 | the object's new state is Apply of SetCreated: the time without milliseconds |
| `AbstractResource.Resource.SetTags` | camp-base/src/main/java/io/brooklyn/camp/spi/AbstractResource.java:82-84 | the object stores the array's contents as a value, not the array |
| `AbstractResource.Resource.SetType` | camp-base/src/main/java/io/brooklyn/camp/spi/AbstractResource.java:85-87 | the object's new state is Apply of SetType on its old state |
| `AbstractResource.Resource.SetRepresentationSkew` | camp-base/src/main/java/io/brooklyn/camp/spi/AbstractResource.java:88-90 | the object's new state is Apply of SetRepresentationSkew on its old state |
| `AbstractResource.Builder.constructor` | camp-base/src/main/java/io/brooklyn/camp/spi/AbstractResource.java:105-111 | a new builder is NewBuilder of the given type |
| `AbstractResource.Builder.Instance` | camp-base/src/main/java/io/brooklyn/camp/spi/AbstractResource.java:118-126 | refines ResourceSpec.Instance; returns the working object, the same object on every later call, a fresh one only on the first |
| `AbstractResource.Builder.Initialize` | camp-base/src/main/java/io/brooklyn/camp/spi/AbstractResource.java:128-130 | the working object's state becomes ResourceSpec.Initialize of its old state |
| `AbstractResource.Builder.Build` | camp-base/src/main/java/io/brooklyn/camp/spi/AbstractResource.java:132-136 | refines ResourceSpec.Build; returns the very object the earlier setters modified |
| `AbstractResource.Builder.Type` | camp-base/src/main/java/io/brooklyn/camp/spi/AbstractResource.java:141 | refines ResourceSpec.Set with SetType; returns this builder unless built |
| `AbstractResource.Builder.Id` | camp-base/src/main/java/io/brooklyn/camp/spi/AbstractResource.java:142 | refines ResourceSpec.Set with SetId; returns this builder unless built |
| `AbstractResource.Builder.Name` | camp-base/src/main/java/io/brooklyn/camp/spi/AbstractResource.java:143 | refines ResourceSpec.Set with SetName; returns this builder unless built |
| `AbstractResource.Builder.Description` | camp-base/src/main/java/io/brooklyn/camp/spi/AbstractResource.java:144 | refines ResourceSpec.Set with SetDescription; returns this builder unless built |
| `AbstractResource.Builder.Created` | camp-base/src/main/java/io/brooklyn/camp/spi/AbstractResource.java:145 | refines ResourceSpec.Set with SetCreated; returns this builder unless built |
| `AbstractResource.Builder.Tags` | camp-base/src/main/java/io/brooklyn/camp/spi/AbstractResource.java:146 | refines ResourceSpec.Set with SetTags of the caller's list contents; returns this builder unless built |
| `AbstractResource.Builder.RepresentationSkew` | camp-base/src/main/java/io/brooklyn/camp/spi/AbstractResource.java:147 | refines ResourceSpec.Set with SetRepresentationSkew; returns this builder unless built |
| `AbstractResource.NewResourceBuilder` | camp-base/src/main/java/io/brooklyn/camp/spi/AbstractResource.java:94-96 | builder() is a fresh builder with default type "Resource" |
| `PlatformDtos.CollectLinks` | camp-server/src/main/java/io/brooklyn/camp/dto/PlatformDto.java:26-29 | the list has one entry per link of the collection, in the same order, entry i being LinkDto.newInstance(factory, kind, link i) |
| `PlatformDtos.KindTaggedUnique` | camp-server/src/main/java/io/brooklyn/camp/dto/PlatformDto.java:26-54 | a collection has exactly one kind-tagged link list |
| `PlatformDtos.KindTaggedSplit` | camp-server/src/main/java/io/brooklyn/camp/dto/PlatformDto.java:27-28 | the list for a collection split in two is the list for the front followed by the list for the back: order is preserved |
| `PlatformDtos.EmptyCollectionEmptyList` | camp-server/src/main/java/io/brooklyn/camp/dto/PlatformDto.java:26-54 | an empty collection gives an empty list |
| `PlatformDtos.PlatformDto.Empty` | camp-server/src/main/java/io/brooklyn/camp/dto/PlatformDto.java:23 | the no-argument constructor leaves every link field and apidoc null |
| `PlatformDtos.PlatformDto.constructor` | camp-server/src/main/java/io/brooklyn/camp/dto/PlatformDto.java:24-61 | every one of the six lists is present and is the kind-tagged image of its own platform collection; apidoc is the single link named "API documentation" to ApidocRestResource's URI |
| `PlatformDtos.PlatformDto.NewInstance` | camp-server/src/main/java/io/brooklyn/camp/dto/PlatformDto.java:104-106 | newInstance gives a fresh DTO in the state the assembling constructor leaves |
| `PlatformDtos.ListDependsOnlyOnOwnCollection` | camp-server/src/main/java/io/brooklyn/camp/dto/PlatformDto.java:24-54 | each list depends only on its own platform collection and the link factory, not on the other collections or on the summary |
| `PlatformDtos.AssemblyIsDeterministic` | camp-server/src/main/java/io/brooklyn/camp/dto/PlatformDto.java:24-61 | two DTOs assembled from the same factory have the same lists and apidoc link |
| `PlatformDtos.EmptyPlatformGivesEmptyLists` | camp-server/src/main/java/io/brooklyn/camp/dto/PlatformDto.java:24-61 | a platform with no resources gives six empty lists, none null, and an apidoc link |

## Left out

- The `synchronized` on `instance()` and `build()`: the builder is modelled sequentially, with no concurrent callers.
- `Identifiers.makeRandomId(8)` and `new Date()`: the id and clock reading a resource is created with come in as an `Environment` argument on every builder call. Only the call that creates the working resource uses it.
- `Time.dropMilliseconds` is not part of this model. It is taken to be `t - t % 1000` on a creation time counted in milliseconds from the epoch. Times before the epoch are not modelled.
- A `Date` is modelled as a whole number of milliseconds. `created(null)` is not modelled.
- The caller's tag list is modelled as an array of strings. `tags(null)` and null elements, which `ImmutableList.copyOf` rejects with a NullPointerException, are not modelled.
- The generic self type `U`, the unchecked casts, and subclasses overriding `createResource()` or `initialize()`: the model is the base builder, instantiated as `AbstractResourceBuilder`.
- The getters of `AbstractResource` and `PlatformDto` are field reads in Dafny. `Resource.State()` gathers the resource's getters.
- AbstractResource.Resource.SetId (and the other six setters) are private in Java and public in Dafny. Only the builder calls them here, but the model does not enforce that.
- `RepresentationSkew` is an opaque type.
- `DtoFactory`, `LinkDto.newInstance`, the URI factory and the platform's lookups are not part of this model. They are total function values and sequences in a `DtoFactory` datatype, so a collaborator that throws is not modelled.
- The `ResourceDto` superclass is not part of this model. `PlatformDto.summary` records only which summary it was given.
- The `CLASS_NAME` reflection assert in PlatformDto is not modelled.
- `PlatformRestResource` is not modelled: it is an HTTP endpoint that delegates to the DTO adapter.
- `MockWarComponent` is not modelled as such. The client method `AbstractResource.NameDescriptionBuild` is modelled after it: name, description, build. It uses `builder()` and so asserts the type "Resource". `ApplicationComponentTemplate.builder()` is not part of this model.
- `getCreated()` hands out the resource's own mutable `java.util.Date`. A holder of that Date can change it after build, so the resource is not immutable in Java and its creation time need not stay in whole seconds. The model stores the time as a number, so `ResourceSpec.BuiltCreatedIsWholeSeconds` holds only of the time as built.
- The `PlatformDto` getters hand out the DTO's own `ArrayList`s, so a caller can add to a list after construction. The model's lists are sequence values, so it does not capture that aliasing.
- `LinkDto.newInstance` allocates a new object on every call. The model's `linkDto` and `namedLinkDto` are pure functions, so `PlatformDtos.AssemblyIsDeterministic` states equal lists of equal values. In Java the lists hold distinct objects, and whether they compare equal depends on `LinkDto.equals`, which is not part of this model.
