/**
 * A page definition: the ordered input arguments of a page and the
 * generation of the abstract Java base class a module author derives to
 * lay the page out.
 */
module PageDefinition {
  import opened Seqs
  import opened Arguments
  import opened Lines

  /**
   * A page definition. Besides the state of the base class (name, the two
   * add-on flags and `autogenerated`), it records the choices a subclass
   * makes by overriding: the attribute list (`getPageAttributes`), whether
   * it is an add-on page (`AddonPageDefinition`), and the class and
   * attribute-method add-on suffixes.
   */
  datatype Page = Page(
    name: string,
    attributes: seq<Argument>,
    autogenerated: bool,
    isAddonPage: bool,
    noAddon: bool,
    classAddon: string,
    attributeMethodAddon: string)

  /**
   * A page built from its name alone: not autogenerated, using the default
   * add-on, with the base class's empty attribute list and empty suffixes.
   * `isAddonPage` says whether the object being built is an add-on page.
   */
  function NewPage(name: string, isAddonPage: bool): (p: Page)
    ensures p.name == name && p.isAddonPage == isAddonPage
    ensures !p.autogenerated && !p.noAddon
    ensures p.attributes == [] && p.classAddon == "" && p.attributeMethodAddon == ""
  {
    Page(name, [], false, isAddonPage, false, "", "")
  }

  /** A page built from its name and the autogenerated flag; otherwise as `NewPage`. */
  function NewAutoPage(name: string, autogenerated: bool, isAddonPage: bool): (p: Page)
    ensures p.name == name && p.autogenerated == autogenerated && p.isAddonPage == isAddonPage
    ensures !p.noAddon
    ensures p.attributes == [] && p.classAddon == "" && p.attributeMethodAddon == ""
  {
    NewPage(name, isAddonPage).(autogenerated := autogenerated)
  }

  function IsAutogenerated(p: Page): bool
  {
    p.autogenerated
  }

  /** Opts the page out of every add-on; nothing else about it changes. */
  function SetNoAddOn(p: Page): (q: Page)
    ensures q.noAddon
    ensures q.(noAddon := p.noAddon) == p
  {
    p.(noAddon := true)
  }

  /** The banner asking for a concrete class, naming where that class must live. */
  function Warnings(p: Page, modulePath: string, env: Externals): seq<Line>
  {
    [Warning(0), Warning(1), Warning(2), Warning(3), WarningTarget(modulePath, env.javaClass(p.name)),
     Warning(4), Warning(5)]
  }

  /** The package line, then the banner when the page is not autogenerated. */
  function Banner(p: Page, modulePath: string, env: Externals): seq<Line>
  {
    [Package(modulePath)] + (if IsAutogenerated(p) then [] else Warnings(p, modulePath, env))
  }

  /** The import lines of one argument: its own, then the import of an object class of another module. */
  function ArgumentImports(modulePath: string, env: Externals): Argument -> seq<Line>
  {
    (a: Argument) =>
      var own := env.writeImports(a, modulePath);
      seq(|own|, k requires 0 <= k < |own| => ArgumentImport(own[k]))
      + (if IsCrossModule(a, modulePath)
         then [ForeignImport(ReferencedObject(a).value.ownerPath, env.javaClass(ReferencedObject(a).value.name))]
         else [])
  }

  function Imports(p: Page, modulePath: string, env: Externals): seq<Line>
  {
    [FrameworkImport(SPage(p.classAddon)), FrameworkImport(SPageData), FrameworkImport(SPageNode),
     FrameworkImport(OLcServer), FrameworkImport(TextDataElt), FrameworkImport(MessageData),
     FrameworkImport(Structure), ModuleImport(modulePath, DataPackage), ModuleImport(modulePath, PagePackage)]
    + Bind(p.attributes, ArgumentImports(modulePath, env))
  }

  /** The class header, the bundle field and one private field per argument. */
  function Declarations(p: Page, env: Externals): seq<Line>
  {
    var args := p.attributes;
    [ClassOpen(env.javaClass(p.name), p.classAddon), PageDataField]
    + seq(|args|, i requires 0 <= i < |args| => Field(args[i].eltName, env.attribute(args[i].name)))
    + [Blank]
  }

  function GetterLines(env: Externals): Argument -> seq<Line>
  {
    (a: Argument) => [GetterOpen(a.eltName, env.javaClass(a.name)), GetterReturn(env.attribute(a.name)), Close(3), Blank]
  }

  function Getters(p: Page, env: Externals): seq<Line>
  {
    Bind(p.attributes, GetterLines(env))
  }

  /** The declared parameters of the title method and the constructor. */
  function Params(args: seq<Argument>, env: Externals): seq<Param>
  {
    seq(|args|, i requires 0 <= i < |args| => Param(args[i].typeName, env.attribute(args[i].name)))
  }

  /** True when the constructor attaches the application's default page add-on. */
  predicate UsesDefaultAddon(p: Page)
  {
    !p.isAddonPage && !p.noAddon
  }

  /** The title declaration and the constructor up to the creation of the bundle and the add-on. */
  function ConstructorHead(p: Page, env: Externals): seq<Line>
  {
    var args := p.attributes;
    [TitleDecl(Params(args, env)),
     ConstructorOpen(env.javaClass(p.name), Params(args, env)),
     SuperCall(p.name),
     SetTitle(seq(|args|, i requires 0 <= i < |args| => env.attribute(args[i].name))),
     PageDataInit]
    + (if UsesDefaultAddon(p) then [DefaultAddon] else [])
  }

  /** The constructor lines that turn one raw argument into a data element and register it. */
  function BodyLines(env: Externals): Argument -> seq<Line>
  {
    (a: Argument) =>
      var attr := env.attribute(a.name);
      match a.kind
      case NodeTree =>
        [TreeAssign(attr, env.lowerCase(a.name), a.name), Register(attr, 3)]
      case Array(payload) =>
        [ArrayAlloc(attr, payload.eltName, a.name, payload.typeNameWithArgument),
         LoopOpen(attr),
         AddElement(attr, payload.eltName, a.name),
         Close(3),
         Register(attr, 3)]
      case _ =>
        [Wrap(attr, a.eltName, a.name), Register(attr, 4)]
  }

  function ConstructorBody(p: Page, env: Externals): seq<Line>
  {
    Bind(p.attributes, BodyLines(env))
  }

  /** The end of the constructor, the bundle accessor and the end of the class. */
  function Trailer(p: Page): seq<Line>
  {
    [Close(3), Override, AccessorOpen(p.attributeMethodAddon), AccessorReturn, Close(3), Close(2)]
  }

  /** The lines of the abstract class generated for page `p` inside the module at `modulePath`. */
  function Generate(p: Page, modulePath: string, env: Externals): (out: seq<Line>)
  {
    Banner(p, modulePath, env) + Imports(p, modulePath, env) + Declarations(p, env) + Getters(p, env)
    + ConstructorHead(p, env) + ConstructorBody(p, env) + Trailer(p)
  }

  /** The generated class as text, one string per line. */
  function GenerateText(p: Page, modulePath: string, env: Externals): seq<string>
  {
    RenderAll(Generate(p, modulePath, env))
  }
}
