/**
 * camp-server PlatformDto: the platform root document, whose six link lists
 * are assembled from the platform's six resource collections, each link
 * tagged with its collection's resource kind, plus a single link to the API
 * documentation.
 *
 * DtoFactory, LinkDto.newInstance, the URI factory, the platform's lookups
 * and the ResourceDto superclass are not part of this model: their results
 * are given as values and function values of the factory.
 */
module PlatformDtos {
  import opened Nullable

  /** io.brooklyn.camp.spi.Link: a link to one platform resource. */
  type Link
  /** A URI as the URI factory produces it. */
  type Uri
  /** A LinkDto as LinkDto.newInstance produces it. */
  type LinkDto
  /** The PlatformRootSummary handed to the ResourceDto superclass. */
  type PlatformRootSummary

  /** The resource classes that tag the links of each collection. */
  datatype ResourceKind =
    | PlatformComponentTemplate
    | ApplicationComponentTemplate
    | AssemblyTemplate
    | PlatformComponent
    | ApplicationComponent
    | Assembly

  /** REST resource classes whose URI the URI factory knows. */
  datatype RestResource = ApidocRestResource | PlatformRestResource

  /** The `links()` of the platform's six resource lookups. */
  datatype Platform = Platform(
    platformComponentTemplates: seq<Link>,
    applicationComponentTemplates: seq<Link>,
    assemblyTemplates: seq<Link>,
    platformComponents: seq<Link>,
    applicationComponents: seq<Link>,
    assemblies: seq<Link>)
  {
    /** The links of the collection of the given kind. */
    function Links(kind: ResourceKind): seq<Link>
    {
      match kind
      case PlatformComponentTemplate => platformComponentTemplates
      case ApplicationComponentTemplate => applicationComponentTemplates
      case AssemblyTemplate => assemblyTemplates
      case PlatformComponent => platformComponents
      case ApplicationComponent => applicationComponents
      case Assembly => assemblies
    }
  }

  /** The URI factory: uriOfRestResource. */
  datatype UriFactory = UriFactory(uriOfRestResource: RestResource -> Uri)

  /**
   * What PlatformDto's constructor uses of its DtoFactory: getPlatform(),
   * getUriFactory(), LinkDto.newInstance(factory, kind, link) as linkDto and
   * LinkDto.newInstance(uri, name) as namedLinkDto.
   */
  datatype DtoFactory = DtoFactory(
    platform: Platform,
    uriFactory: UriFactory,
    linkDto: (ResourceKind, Link) -> LinkDto,
    namedLinkDto: (Uri, string) -> LinkDto)

  /** The name of the apidoc link. */
  const API_DOCUMENTATION: string := "API documentation"

  /** list holds, in order and one for one, the LinkDtos of links tagged with kind. */
  ghost predicate KindTagged(list: seq<LinkDto>, f: DtoFactory, kind: ResourceKind, links: seq<Link>)
  {
    && |list| == |links|
    && forall i :: 0 <= i < |links| ==> list[i] == f.linkDto(kind, links[i])
  }

  /** Only one list is the kind-tagged image of a collection. */
  lemma KindTaggedUnique(l1: seq<LinkDto>, l2: seq<LinkDto>, f: DtoFactory, kind: ResourceKind, links: seq<Link>)
    requires KindTagged(l1, f, kind, links) && KindTagged(l2, f, kind, links)
    ensures l1 == l2
  {
  }

  /** The list for a collection split in two is the list for the front followed by the list for the back. */
  lemma KindTaggedSplit(list: seq<LinkDto>, f: DtoFactory, kind: ResourceKind, front: seq<Link>, back: seq<Link>)
    requires KindTagged(list, f, kind, front + back)
    ensures KindTagged(list[..|front|], f, kind, front)
    ensures KindTagged(list[|front|..], f, kind, back)
  {
  }

  /** The link list for an empty collection is empty. */
  lemma EmptyCollectionEmptyList(list: seq<LinkDto>, f: DtoFactory, kind: ResourceKind)
    requires KindTagged(list, f, kind, [])
    ensures list == []
  {
  }

  /** One of the constructor's for-loops: a fresh list, one `add` per link of the collection. */
  method CollectLinks(f: DtoFactory, kind: ResourceKind, links: seq<Link>) returns (list: seq<LinkDto>)
    ensures KindTagged(list, f, kind, links)
  {
    list := [];
    var i := 0;
    while i < |links|
      invariant 0 <= i <= |links|
      invariant KindTagged(list, f, kind, links[..i])
    {
      list := list + [f.linkDto(kind, links[i])];
      i := i + 1;
    }
    assert links[..i] == links;
  }

  /** The platform root DTO. Its fields are constants: only its constructors assign them; the getters read them. */
  class PlatformDto {
    /** The summary the ResourceDto superclass was built from; None for the no-argument constructor. */
    const summary: Option<PlatformRootSummary>
    const assemblyTemplates: Option<seq<LinkDto>>
    const platformComponentTemplates: Option<seq<LinkDto>>
    const applicationComponentTemplates: Option<seq<LinkDto>>
    const assemblies: Option<seq<LinkDto>>
    const platformComponents: Option<seq<LinkDto>>
    const applicationComponents: Option<seq<LinkDto>>
    const apidoc: Option<LinkDto>

    /** The link-list field for the given kind. */
    function ListOf(kind: ResourceKind): Option<seq<LinkDto>>
    {
      match kind
      case PlatformComponentTemplate => platformComponentTemplates
      case ApplicationComponentTemplate => applicationComponentTemplates
      case AssemblyTemplate => assemblyTemplates
      case PlatformComponent => platformComponents
      case ApplicationComponent => applicationComponents
      case Assembly => assemblies
    }

    /**
     * The fields as the assembling constructor leaves them for factory f:
     * every list present and the kind-tagged image of f's platform collection,
     * and apidoc the link named "API documentation" to ApidocRestResource.
     */
    ghost predicate AssembledFrom(f: DtoFactory)
    {
      && (forall kind :: ListOf(kind).Some? && KindTagged(ListOf(kind).value, f, kind, f.platform.Links(kind)))
      && apidoc == Some(f.namedLinkDto(f.uriFactory.uriOfRestResource(ApidocRestResource), API_DOCUMENTATION))
    }

    /** PlatformDto(): every link field null. */
    constructor Empty()
      ensures summary == None && apidoc == None
      ensures forall kind :: ListOf(kind) == None
    {
      summary := None;
      assemblyTemplates := None;
      platformComponentTemplates := None;
      applicationComponentTemplates := None;
      assemblies := None;
      platformComponents := None;
      applicationComponents := None;
      apidoc := None;
    }

    /** PlatformDto(dtoFactory, x): the six link lists in the code's order, then apidoc. */
    constructor (f: DtoFactory, x: PlatformRootSummary)
      ensures summary == Some(x)
      ensures AssembledFrom(f)
    {
      summary := Some(x);
      var pcts := CollectLinks(f, PlatformComponentTemplate, f.platform.platformComponentTemplates);
      platformComponentTemplates := Some(pcts);
      var acts := CollectLinks(f, ApplicationComponentTemplate, f.platform.applicationComponentTemplates);
      applicationComponentTemplates := Some(acts);
      var ats := CollectLinks(f, AssemblyTemplate, f.platform.assemblyTemplates);
      assemblyTemplates := Some(ats);
      var pcs := CollectLinks(f, PlatformComponent, f.platform.platformComponents);
      platformComponents := Some(pcs);
      var acs := CollectLinks(f, ApplicationComponent, f.platform.applicationComponents);
      applicationComponents := Some(acs);
      var asms := CollectLinks(f, Assembly, f.platform.assemblies);
      assemblies := Some(asms);
      apidoc := Some(f.namedLinkDto(f.uriFactory.uriOfRestResource(ApidocRestResource), API_DOCUMENTATION));
    }

    /** PlatformDto.newInstance(dtoFactory, x): the assembling constructor. */
    static method NewInstance(f: DtoFactory, x: PlatformRootSummary) returns (d: PlatformDto)
      ensures fresh(d) && d.summary == Some(x) && d.AssembledFrom(f)
    {
      d := new PlatformDto(f, x);
    }
  }

  /**
   * Each list depends only on its own collection (and the link factory): two
   * assembled DTOs whose factories agree on that collection have the same
   * list there, whatever their other collections and summaries.
   */
  lemma ListDependsOnlyOnOwnCollection(d1: PlatformDto, f1: DtoFactory, d2: PlatformDto, f2: DtoFactory, kind: ResourceKind)
    requires d1.AssembledFrom(f1) && d2.AssembledFrom(f2)
    requires f1.platform.Links(kind) == f2.platform.Links(kind)
    requires forall link :: f1.linkDto(kind, link) == f2.linkDto(kind, link)
    ensures d1.ListOf(kind) == d2.ListOf(kind)
  {
    var links := f1.platform.Links(kind);
    var l1, l2 := d1.ListOf(kind).value, d2.ListOf(kind).value;
    assert KindTagged(l2, f1, kind, links) by {
      forall i | 0 <= i < |links| ensures l2[i] == f1.linkDto(kind, links[i]) {
        assert l2[i] == f2.linkDto(kind, links[i]);
      }
    }
    KindTaggedUnique(l1, l2, f1, kind, links);
  }

  /** Assembling twice from the same factory gives the same lists and the same apidoc link. */
  lemma AssemblyIsDeterministic(d1: PlatformDto, d2: PlatformDto, f: DtoFactory)
    requires d1.AssembledFrom(f) && d2.AssembledFrom(f)
    ensures forall kind :: d1.ListOf(kind) == d2.ListOf(kind)
    ensures d1.apidoc == d2.apidoc
  {
    forall kind ensures d1.ListOf(kind) == d2.ListOf(kind) {
      ListDependsOnlyOnOwnCollection(d1, f, d2, f, kind);
    }
  }

  /** A platform with no resources gives empty lists, never null ones, and the apidoc link. */
  lemma EmptyPlatformGivesEmptyLists(d: PlatformDto, f: DtoFactory)
    requires d.AssembledFrom(f)
    requires forall kind :: f.platform.Links(kind) == []
    ensures forall kind :: d.ListOf(kind) == Some([])
    ensures d.apidoc.Some?
  {
  }
}
