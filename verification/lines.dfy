/**
 * The lines the page generator emits. Each line is kept as a structured
 * value naming its role in the generated class, and `Render` gives the
 * exact Java text written for it.
 */
module Lines {

  /** One parameter of the title method or the constructor: raw Java type and attribute name. */
  datatype Param = Param(typeName: string, attribute: string)

  /** The framework imports every generated page starts with; `SPage` carries the class add-on suffix. */
  datatype Framework = SPage(classAddon: string) | SPageData | SPageNode | OLcServer | TextDataElt
                     | MessageData | Structure

  /** The two packages of the page's own module that are imported. */
  datatype ModulePackage = DataPackage | PagePackage

  datatype Line =
    | Package(modulePath: string)
    | Warning(index: nat)                        // a fixed line of the banner of a hand-implemented page
    | WarningTarget(modulePath: string, className: string)  // the banner line naming the class to write
    | FrameworkImport(framework: Framework)
    | ModuleImport(modulePath: string, package: ModulePackage)
    | ArgumentImport(text: string)               // a line written by an argument's own import writer
    | ForeignImport(ownerPath: string, className: string)
    | ClassOpen(className: string, classAddon: string)
    | PageDataField
    | Field(eltName: string, attribute: string)
    | Blank
    | GetterOpen(eltName: string, accessor: string)
    | GetterReturn(attribute: string)
    | Close(indent: nat)                         // a closing brace after `indent` tabs
    | TitleDecl(params: seq<Param>)
    | ConstructorOpen(className: string, params: seq<Param>)
    | SuperCall(pageName: string)
    | SetTitle(attributes: seq<string>)
    | PageDataInit
    | DefaultAddon
    | Wrap(attribute: string, eltName: string, name: string)
    | TreeAssign(attribute: string, lowerName: string, name: string)
    | ArrayAlloc(attribute: string, eltName: string, name: string, typeWithArgument: string)
    | LoopOpen(attribute: string)
    | AddElement(attribute: string, eltName: string, name: string)
    | Register(attribute: string, indent: nat)
    | Override
    | AccessorOpen(methodAddon: string)
    | AccessorReturn

  /** A piece written by `w` while a parameter list is built. */
  datatype Fragment = Comma | Item(text: string)

  /**
   * The fragments the parameter-list loops write from index `i` on: a comma
   * is written before an item only when its index is positive.
   */
  function ListFragments(items: seq<string>, i: nat): seq<Fragment>
    requires i <= |items|
    decreases |items| - i
  {
    if i == |items| then []
    else (if i > 0 then [Comma] else []) + [Item("\t" + items[i])] + ListFragments(items, i + 1)
  }

  /**
   * The fragments for `n` items alternate item, comma, item, ... : item k at
   * position 2k and a comma at every odd position, so n items carry exactly
   * n - 1 commas, none leading or trailing.
   */
  lemma {:induction false} ListFragmentsAlternate(items: seq<string>)
    ensures var f := ListFragments(items, 0);
      && |f| == (if |items| == 0 then 0 else 2 * |items| - 1)
      && (forall k :: 0 <= k < |items| ==> f[2 * k] == Item("\t" + items[k]))
      && (forall k :: 0 < k < |items| ==> f[2 * k - 1] == Comma)
  {
    if |items| > 0 {
      ListFragmentsTail(items, 1);
      var f := ListFragments(items, 0);
      var rest := ListFragments(items, 1);
      assert f == [Item("\t" + items[0])] + rest;
      forall k | 0 < k < |items|
        ensures f[2 * k] == Item("\t" + items[k]) && f[2 * k - 1] == Comma
      {
        assert f[2 * k - 1] == rest[2 * (k - 1)];
        assert f[2 * k] == rest[2 * (k - 1) + 1];
      }
    }
  }

  /** From a positive index on, every item is preceded by its comma. */
  lemma {:induction false} ListFragmentsTail(items: seq<string>, i: nat)
    requires 0 < i <= |items|
    ensures var f := ListFragments(items, i);
      && |f| == 2 * (|items| - i)
      && (forall k :: 0 <= k < |items| - i ==> f[2 * k] == Comma && f[2 * k + 1] == Item("\t" + items[i + k]))
    decreases |items| - i
  {
    if i < |items| {
      ListFragmentsTail(items, i + 1);
      var f := ListFragments(items, i);
      var rest := ListFragments(items, i + 1);
      assert f == [Comma, Item("\t" + items[i])] + rest;
      forall k | 0 <= k < |items| - i
        ensures f[2 * k] == Comma && f[2 * k + 1] == Item("\t" + items[i + k])
      {
        if k > 0 {
          assert f[2 * k] == rest[2 * (k - 1)];
          assert f[2 * k + 1] == rest[2 * (k - 1) + 1];
        }
      }
    }
  }

  function Concat(fs: seq<Fragment>): string
  {
    if |fs| == 0 then []
    else (match fs[0] case Comma => "," case Item(t) => t) + Concat(fs[1..])
  }

  /** The text of a declared parameter: its Java type, a space, its attribute name. */
  function ParamText(p: Param): string
  {
    p.typeName + " " + p.attribute
  }

  function ParamList(ps: seq<Param>): string
  {
    Concat(ListFragments(seq(|ps|, k requires 0 <= k < |ps| => ParamText(ps[k])), 0))
  }

  function NameList(names: seq<string>): string
  {
    Concat(ListFragments(names, 0))
  }

  function Tabs(n: nat): string
  {
    if n == 0 then "" else "\t" + Tabs(n - 1)
  }

  /** The fixed lines of the banner, in the order they are written; the target line comes after the fourth. */
  function WarningText(k: nat): string
  {
    if k == 0 then "/* <<<< Warning >>>> : You need to implement a concrete class in a separate file *!*! -----"
    else if k == 1 then " > This is an automatically generated abstract class providing the interface to "
    else if k == 2 then " > the page you have to implement. Please create the class implementing "
    else if k == 3 then " > this abstract class at path: "
    else if k == 4 then " > Please do NOT modify the current file, as it will be erased and generated again."
    else " ----------------------------------------------------------------------------------------- */"
  }

  function FrameworkTarget(f: Framework): string
  {
    match f
    case SPage(addon) => "org.openlowcode.server.graphic.SPage" + addon
    case SPageData => "org.openlowcode.server.graphic.SPageData"
    case SPageNode => "org.openlowcode.server.graphic.SPageNode"
    case OLcServer => "org.openlowcode.server.runtime.OLcServer"
    case TextDataElt => "org.openlowcode.tools.structure.TextDataElt"
    case MessageData => "org.openlowcode.server.data.message.*"
    case Structure => "org.openlowcode.tools.structure.*"
  }

  /** The Java text written for a line. */
  function Render(l: Line): string
  {
    match l
    case Package(path) => "package " + path + ".page.generated;"
    case Warning(k) => WarningText(k)
    case WarningTarget(path, cls) => "    --> " + path + ".action." + cls + "Page"
    case FrameworkImport(f) => "import " + FrameworkTarget(f) + ";"
    case ModuleImport(path, pkg) => "import " + path + (if pkg.DataPackage? then ".data.*" else ".page.*") + ";"
    case ArgumentImport(text) => text
    case ForeignImport(owner, cls) => "import " + owner + ".data." + cls + ";"
    case ClassOpen(cls, addon) => "\t\tpublic abstract class Abs" + cls + "Page extends SPage" + addon + " {"
    case PageDataField => "\t\t\tprivate SPageData pagedata;"
    case Field(elt, attr) => "\t\t\tprivate " + elt + " " + attr + ";"
    case Blank => ""
    case GetterOpen(elt, accessor) => "\t\t\tpublic " + elt + " get" + accessor + "() {"
    case GetterReturn(attr) => "\t\t\t\treturn this." + attr + ";"
    case Close(n) => Tabs(n) + "}"
    case TitleDecl(ps) => "\t\t\tpublic abstract String generateTitle(" + ParamList(ps) + ") ;"
    case ConstructorOpen(cls, ps) => "\t\t\tpublic Abs" + cls + "Page(" + ParamList(ps) + ")  {"
    case SuperCall(name) => "\t\t\t\tsuper(\"" + name + "\");"
    case SetTitle(attrs) => "\t\t\t\tthis.setTitle(generateTitle(" + NameList(attrs) + "));"
    case PageDataInit => "\t\t\t\tpagedata = new SPageData();"
    case DefaultAddon => "\t\t\t\tthis.addAddon(OLcServer.getServer().getMainmodule().getPageAddonForModule());"
    case Wrap(attr, elt, name) => "\t\t\t\tthis." + attr + " = new " + elt + "(\"" + name + "\"," + attr + ");"
    case TreeAssign(attr, lower, name) =>
      "\t\t\tthis." + attr + " = " + lower + ".generateObjectTreeDataElt(\"" + name + "\");"
    case ArrayAlloc(attr, elt, name, typeArg) =>
      "\t\t\tthis." + attr + " = new  ArrayDataElt<" + elt + ">(\"" + name + "\",new " + typeArg + ");"
    case LoopOpen(attr) => "\t\t\tfor (int i=0;i<" + attr + ".length;i++) {"
    case AddElement(attr, elt, name) =>
      "\t\t\t\tthis." + attr + ".addElement(new " + elt + "(\"" + name + "\"," + attr + "[i]));"
    case Register(attr, n) => Tabs(n) + "pagedata.addDataElt(this." + attr + ");"
    case Override => "\t\t\t@Override"
    case AccessorOpen(addon) => "\t\t\tpublic SPageData getAll" + addon + "PageAttributes() {"
    case AccessorReturn => "\t\t\t\treturn this.pagedata;"
  }

  /** The text of a sequence of lines, one string per line. */
  function RenderAll(ls: seq<Line>): (text: seq<string>)
    ensures |text| == |ls|
    ensures forall i :: 0 <= i < |ls| ==> text[i] == Render(ls[i])
  {
    if |ls| == 0 then [] else [Render(ls[0])] + RenderAll(ls[1..])
  }

  // Selectors naming the roles the generator's properties talk about.

  predicate IsWarning(l: Line) { l.Warning? || l.WarningTarget? }
  predicate IsForeignImport(l: Line) { l.ForeignImport? }
  predicate IsFieldOrPageData(l: Line) { l.Field? || l.PageDataField? }
  predicate IsGetterLine(l: Line) { l.GetterOpen? || l.GetterReturn? }
  predicate IsSignature(l: Line) { l.TitleDecl? || l.ConstructorOpen? || l.SetTitle? }
  predicate IsDefaultAddon(l: Line) { l.DefaultAddon? }
  predicate IsMaterialize(l: Line) { l.Wrap? || l.TreeAssign? || l.ArrayAlloc? }
  predicate IsRegister(l: Line) { l.Register? }
  predicate IsAddElement(l: Line) { l.AddElement? }
  predicate IsBuildOrRegister(l: Line) { IsMaterialize(l) || IsRegister(l) }
  predicate IsArrayLoop(l: Line) { l.LoopOpen? || l.AddElement? }
  predicate IsConstructorStep(l: Line) { IsBuildOrRegister(l) || IsArrayLoop(l) }
  predicate NotDefaultAddon(l: Line) { !l.DefaultAddon? }
  predicate IsClassOpen(l: Line) { l.ClassOpen? }
  predicate IsAccessor(l: Line) { l.Override? || l.AccessorOpen? || l.AccessorReturn? }
}
