/** What the generated abstract page class contains, stated over the generator's lines. */
module PageProperties {
  import opened Seqs
  import opened Arguments
  import opened Lines
  import opened PageDefinition

  /** The section of the generated class a line belongs to; blank lines and closing braces occur in several. */
  datatype Section = Heading | ImportSection | DeclarationSection | GetterSection | HeadSection | BodySection
                   | TrailerSection | Layout

  function SectionOf(l: Line): Section
  {
    match l
    case Package(_) => Heading
    case Warning(_) => Heading
    case WarningTarget(_, _) => Heading
    case FrameworkImport(_) => ImportSection
    case ModuleImport(_, _) => ImportSection
    case ArgumentImport(_) => ImportSection
    case ForeignImport(_, _) => ImportSection
    case ClassOpen(_, _) => DeclarationSection
    case PageDataField => DeclarationSection
    case Field(_, _) => DeclarationSection
    case GetterOpen(_, _) => GetterSection
    case GetterReturn(_) => GetterSection
    case TitleDecl(_) => HeadSection
    case ConstructorOpen(_, _) => HeadSection
    case SuperCall(_) => HeadSection
    case SetTitle(_) => HeadSection
    case PageDataInit => HeadSection
    case DefaultAddon => HeadSection
    case Wrap(_, _, _) => BodySection
    case TreeAssign(_, _, _) => BodySection
    case ArrayAlloc(_, _, _, _) => BodySection
    case LoopOpen(_) => BodySection
    case AddElement(_, _, _) => BodySection
    case Register(_, _) => BodySection
    case Override => TrailerSection
    case AccessorOpen(_) => TrailerSection
    case AccessorReturn => TrailerSection
    case Blank => Layout
    case Close(_) => Layout
  }

  predicate InBanner(l: Line) { SectionOf(l) == Heading }
  predicate InImports(l: Line) { SectionOf(l) == ImportSection }
  predicate InDeclarations(l: Line) { SectionOf(l) in {DeclarationSection, Layout} }
  predicate InGetters(l: Line) { SectionOf(l) in {GetterSection, Layout} }
  predicate InHead(l: Line) { SectionOf(l) == HeadSection }
  predicate InBody(l: Line) { SectionOf(l) in {BodySection, Layout} }

  lemma BannerKinds(p: Page, path: string, env: Externals)
    ensures forall i :: 0 <= i < |Banner(p, path, env)| ==> InBanner(Banner(p, path, env)[i])
  {
  }

  lemma ImportKinds(p: Page, path: string, env: Externals)
    ensures forall i :: 0 <= i < |Imports(p, path, env)| ==> InImports(Imports(p, path, env)[i])
  {
    var f := ArgumentImports(path, env);
    forall i, j | 0 <= i < |p.attributes| && 0 <= j < |f(p.attributes[i])|
      ensures InImports(f(p.attributes[i])[j])
    {
      var own := env.writeImports(p.attributes[i], path);
      if j >= |own| {
        assert f(p.attributes[i])[j].ForeignImport?;
      }
    }
    BindKinds(p.attributes, f, InImports);
  }

  lemma DeclarationKinds(p: Page, env: Externals)
    ensures forall i :: 0 <= i < |Declarations(p, env)| ==> InDeclarations(Declarations(p, env)[i])
  {
  }

  lemma GetterKinds(p: Page, env: Externals)
    ensures forall i :: 0 <= i < |Getters(p, env)| ==> InGetters(Getters(p, env)[i])
  {
    BindKinds(p.attributes, GetterLines(env), InGetters);
  }

  lemma HeadKinds(p: Page, env: Externals)
    ensures forall i :: 0 <= i < |ConstructorHead(p, env)| ==> InHead(ConstructorHead(p, env)[i])
  {
  }

  lemma BodyKinds(p: Page, env: Externals)
    ensures forall i :: 0 <= i < |ConstructorBody(p, env)| ==> InBody(ConstructorBody(p, env)[i])
  {
    var f := BodyLines(env);
    forall i, j | 0 <= i < |p.attributes| && 0 <= j < |f(p.attributes[i])|
      ensures InBody(f(p.attributes[i])[j])
    {
      var a := p.attributes[i];
      match a.kind
      case NodeTree =>
      case Array(_) =>
      case Plain =>
      case Object(_) =>
    }
    BindKinds(p.attributes, f, InBody);
  }

  /** Selecting lines from the generated class selects them section by section. */
  lemma FilterSections(p: Page, path: string, env: Externals, keep: Line -> bool)
    ensures Filter(Generate(p, path, env), keep)
         == Filter(Banner(p, path, env), keep) + Filter(Imports(p, path, env), keep)
          + Filter(Declarations(p, env), keep) + Filter(Getters(p, env), keep)
          + Filter(ConstructorHead(p, env), keep) + Filter(ConstructorBody(p, env), keep)
          + Filter(Trailer(p), keep)
  {
    var s1, s2, s3, s4 := Banner(p, path, env), Imports(p, path, env), Declarations(p, env), Getters(p, env);
    var s5, s6, s7 := ConstructorHead(p, env), ConstructorBody(p, env), Trailer(p);
    FilterConcat(s1 + s2 + s3 + s4 + s5 + s6, s7, keep);
    FilterConcat(s1 + s2 + s3 + s4 + s5, s6, keep);
    FilterConcat(s1 + s2 + s3 + s4, s5, keep);
    FilterConcat(s1 + s2 + s3, s4, keep);
    FilterConcat(s1 + s2, s3, keep);
    FilterConcat(s1, s2, keep);
  }

  // A selection that rejects every role a section may hold selects nothing from it.

  lemma NoneFromBanner(p: Page, path: string, env: Externals, keep: Line -> bool, only: Section)
    requires forall l :: keep(l) ==> SectionOf(l) == only
    requires only != Heading && only != Layout
    ensures Filter(Banner(p, path, env), keep) == []
  {
    BannerKinds(p, path, env);
    FilterNone(Banner(p, path, env), keep);
  }

  lemma NoneFromImports(p: Page, path: string, env: Externals, keep: Line -> bool, only: Section)
    requires forall l :: keep(l) ==> SectionOf(l) == only
    requires only != ImportSection && only != Layout
    ensures Filter(Imports(p, path, env), keep) == []
  {
    ImportKinds(p, path, env);
    FilterNone(Imports(p, path, env), keep);
  }

  lemma NoneFromDeclarations(p: Page, env: Externals, keep: Line -> bool, only: Section)
    requires forall l :: keep(l) ==> SectionOf(l) == only
    requires only != DeclarationSection && only != Layout
    ensures Filter(Declarations(p, env), keep) == []
  {
    DeclarationKinds(p, env);
    FilterNone(Declarations(p, env), keep);
  }

  lemma NoneFromGetters(p: Page, env: Externals, keep: Line -> bool, only: Section)
    requires forall l :: keep(l) ==> SectionOf(l) == only
    requires only != GetterSection && only != Layout
    ensures Filter(Getters(p, env), keep) == []
  {
    GetterKinds(p, env);
    FilterNone(Getters(p, env), keep);
  }

  lemma NoneFromHead(p: Page, env: Externals, keep: Line -> bool, only: Section)
    requires forall l :: keep(l) ==> SectionOf(l) == only
    requires only != HeadSection && only != Layout
    ensures Filter(ConstructorHead(p, env), keep) == []
  {
    HeadKinds(p, env);
    FilterNone(ConstructorHead(p, env), keep);
  }

  lemma NoneFromBody(p: Page, env: Externals, keep: Line -> bool, only: Section)
    requires forall l :: keep(l) ==> SectionOf(l) == only
    requires only != BodySection && only != Layout
    ensures Filter(ConstructorBody(p, env), keep) == []
  {
    BodyKinds(p, env);
    FilterNone(ConstructorBody(p, env), keep);
  }

  lemma NoneFromTrailer(p: Page, keep: Line -> bool, only: Section)
    requires forall l :: keep(l) ==> SectionOf(l) == only
    requires only != TrailerSection && only != Layout
    ensures Filter(Trailer(p), keep) == []
  {
    FilterNone(Trailer(p), keep);
  }

  /** The selection of `keep` from the generated class, when `keep` only accepts lines of the declarations. */
  lemma OnlyDeclarations(p: Page, path: string, env: Externals, keep: Line -> bool)
    requires forall l :: keep(l) ==> SectionOf(l) == DeclarationSection
    ensures Filter(Generate(p, path, env), keep) == Filter(Declarations(p, env), keep)
  {
    FilterSections(p, path, env, keep);
    NoneFromBanner(p, path, env, keep, DeclarationSection);
    NoneFromImports(p, path, env, keep, DeclarationSection);
    NoneFromGetters(p, env, keep, DeclarationSection);
    NoneFromHead(p, env, keep, DeclarationSection);
    NoneFromBody(p, env, keep, DeclarationSection);
    NoneFromTrailer(p, keep, DeclarationSection);
  }

  lemma OnlyBanner(p: Page, path: string, env: Externals, keep: Line -> bool)
    requires forall l :: keep(l) ==> SectionOf(l) == Heading
    ensures Filter(Generate(p, path, env), keep) == Filter(Banner(p, path, env), keep)
  {
    FilterSections(p, path, env, keep);
    NoneFromImports(p, path, env, keep, Heading);
    NoneFromDeclarations(p, env, keep, Heading);
    NoneFromGetters(p, env, keep, Heading);
    NoneFromHead(p, env, keep, Heading);
    NoneFromBody(p, env, keep, Heading);
    NoneFromTrailer(p, keep, Heading);
  }

  lemma OnlyImports(p: Page, path: string, env: Externals, keep: Line -> bool)
    requires forall l :: keep(l) ==> SectionOf(l) == ImportSection
    ensures Filter(Generate(p, path, env), keep) == Filter(Imports(p, path, env), keep)
  {
    FilterSections(p, path, env, keep);
    NoneFromBanner(p, path, env, keep, ImportSection);
    NoneFromDeclarations(p, env, keep, ImportSection);
    NoneFromGetters(p, env, keep, ImportSection);
    NoneFromHead(p, env, keep, ImportSection);
    NoneFromBody(p, env, keep, ImportSection);
    NoneFromTrailer(p, keep, ImportSection);
  }

  lemma OnlyGetters(p: Page, path: string, env: Externals, keep: Line -> bool)
    requires forall l :: keep(l) ==> SectionOf(l) == GetterSection
    ensures Filter(Generate(p, path, env), keep) == Filter(Getters(p, env), keep)
  {
    FilterSections(p, path, env, keep);
    NoneFromBanner(p, path, env, keep, GetterSection);
    NoneFromImports(p, path, env, keep, GetterSection);
    NoneFromDeclarations(p, env, keep, GetterSection);
    NoneFromHead(p, env, keep, GetterSection);
    NoneFromBody(p, env, keep, GetterSection);
    NoneFromTrailer(p, keep, GetterSection);
  }

  lemma OnlyHead(p: Page, path: string, env: Externals, keep: Line -> bool)
    requires forall l :: keep(l) ==> SectionOf(l) == HeadSection
    ensures Filter(Generate(p, path, env), keep) == Filter(ConstructorHead(p, env), keep)
  {
    FilterSections(p, path, env, keep);
    NoneFromBanner(p, path, env, keep, HeadSection);
    NoneFromImports(p, path, env, keep, HeadSection);
    NoneFromDeclarations(p, env, keep, HeadSection);
    NoneFromGetters(p, env, keep, HeadSection);
    NoneFromBody(p, env, keep, HeadSection);
    NoneFromTrailer(p, keep, HeadSection);
  }

  lemma OnlyBody(p: Page, path: string, env: Externals, keep: Line -> bool)
    requires forall l :: keep(l) ==> SectionOf(l) == BodySection
    ensures Filter(Generate(p, path, env), keep) == Filter(ConstructorBody(p, env), keep)
  {
    FilterSections(p, path, env, keep);
    NoneFromBanner(p, path, env, keep, BodySection);
    NoneFromImports(p, path, env, keep, BodySection);
    NoneFromDeclarations(p, env, keep, BodySection);
    NoneFromGetters(p, env, keep, BodySection);
    NoneFromHead(p, env, keep, BodySection);
    NoneFromTrailer(p, keep, BodySection);
  }

  /** The private fields of one argument each, as the declarations list them. */
  function FieldDecls(args: seq<Argument>, env: Externals): seq<Line>
  {
    seq(|args|, i requires 0 <= i < |args| => Field(args[i].eltName, env.attribute(args[i].name)))
  }

  lemma DeclarationFields(p: Page, env: Externals)
    ensures Filter(Declarations(p, env), IsFieldOrPageData) == [PageDataField] + FieldDecls(p.attributes, env)
  {
    var keep := IsFieldOrPageData;
    var head := [ClassOpen(env.javaClass(p.name), p.classAddon), PageDataField];
    var fields := FieldDecls(p.attributes, env);
    assert Declarations(p, env) == head + fields + [Blank];
    FilterConcat(head + fields, [Blank], keep);
    FilterConcat(head, fields, keep);
    FilterAll(fields, keep);
    FilterNone([Blank], keep);
    assert Filter(head, keep) == [PageDataField] by {
      assert head[1..] == [PageDataField];
    }
  }

  /**
   * The class declares the bundle field once, then exactly one private
   * field per argument, typed by its precise data element class and named
   * by its attribute name, in declaration order.
   */
  lemma FieldsFollowPageData(p: Page, path: string, env: Externals)
    ensures var r := Filter(Generate(p, path, env), IsFieldOrPageData);
      && |r| == |p.attributes| + 1
      && r[0] == PageDataField
      && forall i :: 0 <= i < |p.attributes| ==>
           r[i + 1] == Field(p.attributes[i].eltName, env.attribute(p.attributes[i].name))
  {
    OnlyDeclarations(p, path, env, IsFieldOrPageData);
    DeclarationFields(p, env);
  }

  lemma GetterSelection(p: Page, env: Externals)
    ensures var r := Filter(Getters(p, env), IsGetterLine);
      && |r| == 2 * |p.attributes|
      && forall i :: 0 <= i < |p.attributes| ==>
           && r[2 * i] == GetterOpen(p.attributes[i].eltName, env.javaClass(p.attributes[i].name))
           && r[2 * i + 1] == GetterReturn(env.attribute(p.attributes[i].name))
  {
    var keep := IsGetterLine;
    var g := (a: Argument) => [GetterOpen(a.eltName, env.javaClass(a.name)), GetterReturn(env.attribute(a.name))];
    forall i | 0 <= i < |p.attributes|
      ensures Filter(GetterLines(env)(p.attributes[i]), keep) == g(p.attributes[i])
    {
      var a := p.attributes[i];
      assert GetterLines(env)(a) == g(a) + [Close(3), Blank];
      FilterConcat(g(a), [Close(3), Blank], keep);
      FilterAll(g(a), keep);
      FilterNone([Close(3), Blank], keep);
    }
    FilterBind(p.attributes, GetterLines(env), keep, g);
    BindPairs(p.attributes, g);
  }

  /**
   * Exactly one getter per argument, in declaration order: its header
   * `get<class form of the name>()` returns the precise data element class,
   * and it is followed by the return of the field of the same argument.
   */
  lemma GettersInOrder(p: Page, path: string, env: Externals)
    ensures var r := Filter(Generate(p, path, env), IsGetterLine);
      && |r| == 2 * |p.attributes|
      && forall i :: 0 <= i < |p.attributes| ==>
           && r[2 * i] == GetterOpen(p.attributes[i].eltName, env.javaClass(p.attributes[i].name))
           && r[2 * i + 1] == GetterReturn(env.attribute(p.attributes[i].name))
  {
    OnlyGetters(p, path, env, IsGetterLine);
    GetterSelection(p, env);
  }

  lemma HeadSignatures(p: Page, env: Externals)
    ensures var h := ConstructorHead(p, env);
      Filter(h, IsSignature) == [h[0], h[1], h[3]]
  {
    var keep := IsSignature;
    var h := ConstructorHead(p, env);
    assert h == [h[0], h[1]] + [h[2]] + [h[3]] + h[4..];
    FilterConcat([h[0], h[1]] + [h[2]] + [h[3]], h[4..], keep);
    FilterConcat([h[0], h[1]] + [h[2]], [h[3]], keep);
    FilterConcat([h[0], h[1]], [h[2]], keep);
    FilterAll([h[0], h[1]], keep);
    FilterNone([h[2]], keep);
    FilterAll([h[3]], keep);
    FilterNone(h[4..], keep);
  }

  /**
   * The title method, the constructor and the call computing the title
   * each list every argument once, in declaration order: the title method
   * and the constructor take the raw Java type and attribute name of each
   * argument, the title call passes the attribute names.
   */
  lemma SignaturesListAllArguments(p: Page, path: string, env: Externals)
    ensures var r := Filter(Generate(p, path, env), IsSignature);
      var args := p.attributes;
      && |r| == 3
      && r[0].TitleDecl? && r[1] == ConstructorOpen(env.javaClass(p.name), r[0].params) && r[2].SetTitle?
      && |r[0].params| == |args| && |r[2].attributes| == |args|
      && forall i :: 0 <= i < |args| ==>
           && r[0].params[i] == Param(args[i].typeName, env.attribute(args[i].name))
           && r[2].attributes[i] == env.attribute(args[i].name)
  {
    OnlyHead(p, path, env, IsSignature);
    HeadSignatures(p, env);
  }

  /**
   * The constructor attaches the application's default add-on exactly once
   * when the page is neither an add-on page nor opted out of add-ons, and
   * never otherwise.
   */
  lemma DefaultAddonIff(p: Page, path: string, env: Externals)
    ensures Count(Generate(p, path, env), IsDefaultAddon) == (if !p.isAddonPage && !p.noAddon then 1 else 0)
  {
    var keep := IsDefaultAddon;
    OnlyHead(p, path, env, keep);
    var h := ConstructorHead(p, env);
    if UsesDefaultAddon(p) {
      FilterPick(h, 5, keep);
    } else {
      FilterNone(h, keep);
    }
  }

  lemma HeadWithoutAddon(p: Page, env: Externals)
    ensures Filter(ConstructorHead(p, env), NotDefaultAddon) == ConstructorHead(SetNoAddOn(p), env)
  {
    var keep := NotDefaultAddon;
    var h := ConstructorHead(p, env);
    FilterConcat(h[..5], h[5..], keep);
    assert h == h[..5] + h[5..];
    FilterAll(h[..5], keep);
    FilterNone(h[5..], keep);
  }

  /** Only the constructor head can hold the default add-on line. */
  lemma LeadingSectionsKept(p: Page, path: string, env: Externals)
    ensures Filter(Banner(p, path, env), NotDefaultAddon) == Banner(p, path, env)
    ensures Filter(Imports(p, path, env), NotDefaultAddon) == Imports(p, path, env)
    ensures Filter(Declarations(p, env), NotDefaultAddon) == Declarations(p, env)
  {
    BannerKinds(p, path, env);
    ImportKinds(p, path, env);
    DeclarationKinds(p, env);
    FilterAll(Banner(p, path, env), NotDefaultAddon);
    FilterAll(Imports(p, path, env), NotDefaultAddon);
    FilterAll(Declarations(p, env), NotDefaultAddon);
  }

  lemma TrailingSectionsKept(p: Page, env: Externals)
    ensures Filter(Getters(p, env), NotDefaultAddon) == Getters(p, env)
    ensures Filter(ConstructorBody(p, env), NotDefaultAddon) == ConstructorBody(p, env)
    ensures Filter(Trailer(p), NotDefaultAddon) == Trailer(p)
  {
    GettersKept(p, env);
    BodyKept(p, env);
    FilterAll(Trailer(p), NotDefaultAddon);
  }

  lemma GettersKept(p: Page, env: Externals)
    ensures Filter(Getters(p, env), NotDefaultAddon) == Getters(p, env)
  {
    GetterKinds(p, env);
    FilterAll(Getters(p, env), NotDefaultAddon);
  }

  lemma BodyKept(p: Page, env: Externals)
    ensures Filter(ConstructorBody(p, env), NotDefaultAddon) == ConstructorBody(p, env)
  {
    BodyKinds(p, env);
    FilterAll(ConstructorBody(p, env), NotDefaultAddon);
  }

  /** Opting out of add-ons removes the default add-on line and changes nothing else in the generated class. */
  lemma SetNoAddOnDropsOnlyAddon(p: Page, path: string, env: Externals)
    ensures Generate(SetNoAddOn(p), path, env) == Filter(Generate(p, path, env), NotDefaultAddon)
  {
    FilterSections(p, path, env, NotDefaultAddon);
    LeadingSectionsKept(p, path, env);
    TrailingSectionsKept(p, env);
    HeadWithoutAddon(p, env);
  }

  /**
   * The banner of a hand-implemented page is written exactly when the page
   * is not autogenerated; its one varying line names the concrete class to
   * write, `<module>.action.<Class>Page`.
   */
  lemma BannerIffHandWritten(p: Page, path: string, env: Externals)
    ensures Filter(Generate(p, path, env), IsWarning)
         == if p.autogenerated then []
            else [Warning(0), Warning(1), Warning(2), Warning(3), WarningTarget(path, env.javaClass(p.name)),
                  Warning(4), Warning(5)]
  {
    var keep := IsWarning;
    OnlyBanner(p, path, env, keep);
    var b := Banner(p, path, env);
    FilterConcat([b[0]], b[1..], keep);
    assert b == [b[0]] + b[1..];
    FilterNone([b[0]], keep);
    FilterAll(b[1..], keep);
  }

  lemma OnlyTrailer(p: Page, path: string, env: Externals, keep: Line -> bool)
    requires forall l :: keep(l) ==> SectionOf(l) == TrailerSection
    ensures Filter(Generate(p, path, env), keep) == Filter(Trailer(p), keep)
  {
    FilterSections(p, path, env, keep);
    NoneFromBanner(p, path, env, keep, TrailerSection);
    NoneFromImports(p, path, env, keep, TrailerSection);
    NoneFromDeclarations(p, env, keep, TrailerSection);
    NoneFromGetters(p, env, keep, TrailerSection);
    NoneFromHead(p, env, keep, TrailerSection);
    NoneFromBody(p, env, keep, TrailerSection);
  }

  /** The class is declared once, as `Abs<Class>Page` extending the page class with the class add-on suffix. */
  lemma ClassHeader(p: Page, path: string, env: Externals)
    ensures Filter(Generate(p, path, env), IsClassOpen) == [ClassOpen(env.javaClass(p.name), p.classAddon)]
  {
    OnlyDeclarations(p, path, env, IsClassOpen);
    FilterPick(Declarations(p, env), 0, IsClassOpen);
  }

  /**
   * The class has exactly one bundle accessor: an override of
   * `getAll<methodAddon>PageAttributes` returning the page data.
   */
  lemma BundleAccessor(p: Page, path: string, env: Externals)
    ensures Filter(Generate(p, path, env), IsAccessor)
         == [Override, AccessorOpen(p.attributeMethodAddon), AccessorReturn]
  {
    OnlyTrailer(p, path, env, IsAccessor);
    TrailerAccessor(p);
  }

  lemma TrailerAccessor(p: Page)
    ensures Filter(Trailer(p), IsAccessor) == [Override, AccessorOpen(p.attributeMethodAddon), AccessorReturn]
  {
    var keep := IsAccessor;
    var t := Trailer(p);
    var a, b, c := t[..1], t[1..4], t[4..];
    assert t == a + b + c;
    FilterConcat(a + b, c, keep);
    FilterConcat(a, b, keep);
    FilterNone(a, keep);
    FilterAll(b, keep);
    FilterNone(c, keep);
  }
}
