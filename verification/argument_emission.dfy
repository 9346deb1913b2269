/**
 * What the generated class does with each argument: the constructor code
 * that materialises and registers it, and the imports it needs.
 */
module ArgumentEmission {
  import opened Seqs
  import opened Arguments
  import opened Lines
  import opened PageDefinition
  import opened PageProperties

  /** The tab depth of the registration line: the scalar branch is indented one level deeper. */
  function RegisterIndent(a: Argument): nat
  {
    if a.kind.NodeTree? || a.kind.Array? then 3 else 4
  }

  /** Where the roles sit inside the constructor block of one argument. */
  lemma BlockShape(a: Argument, env: Externals)
    ensures var ls := BodyLines(env)(a);
      var reg := if a.kind.Array? then 4 else 1;
      && |ls| == (if a.kind.Array? then 5 else 2)
      && ls[reg] == Register(env.attribute(a.name), RegisterIndent(a))
      && (forall j :: 0 <= j < |ls| && j != reg ==> !ls[j].Register?)
      && IsMaterialize(ls[0]) && (forall j :: 0 < j < |ls| ==> !IsMaterialize(ls[j]))
      && (a.kind.Array? ==> ls[1] == LoopOpen(env.attribute(a.name)) && ls[3] == Close(3))
      && (forall j :: 0 <= j < |ls| && !(a.kind.Array? && j == 1) ==> !ls[j].LoopOpen?)
      && (a.kind.Array? ==> ls[2] == AddElement(env.attribute(a.name), PayloadEltName(a), a.name))
      && (forall j :: 0 <= j < |ls| && !(a.kind.Array? && j == 2) ==> !ls[j].AddElement?)
  {
    match a.kind
    case Array(_) =>
    case NodeTree =>
    case Plain =>
    case Object(_) =>
  }

  lemma BodyRegisters(p: Page, env: Externals)
    ensures var r := Filter(ConstructorBody(p, env), IsRegister);
      && |r| == |p.attributes|
      && forall i :: 0 <= i < |p.attributes| ==>
           r[i] == Register(env.attribute(p.attributes[i].name), RegisterIndent(p.attributes[i]))
  {
    var keep := IsRegister;
    var g := (a: Argument) => [Register(env.attribute(a.name), RegisterIndent(a))];
    forall i | 0 <= i < |p.attributes|
      ensures Filter(BodyLines(env)(p.attributes[i]), keep) == g(p.attributes[i])
    {
      var a := p.attributes[i];
      var ls := BodyLines(env)(a);
      BlockShape(a, env);
      if a.kind.Array? {
        FilterPick(ls, 4, keep);
      } else {
        FilterPick(ls, 1, keep);
      }
    }
    FilterBind(p.attributes, BodyLines(env), keep, g);
    BindSingles(p.attributes, g);
  }

  /** One block keeps, of its building and registering lines, the building line and then the registration. */
  lemma BlockBuildsThenRegisters(a: Argument, env: Externals)
    ensures Filter(BodyLines(env)(a), IsBuildOrRegister)
         == [FirstBodyLine(a, env), Register(env.attribute(a.name), RegisterIndent(a))]
  {
    var keep := IsBuildOrRegister;
    var ls := BodyLines(env)(a);
    BlockShape(a, env);
    if a.kind.Array? {
      var first, middle, last := ls[..1], ls[1..4], ls[4..];
      assert ls == first + middle + last;
      FilterConcat(first + middle, last, keep);
      FilterConcat(first, middle, keep);
      FilterAll(first, keep);
      FilterNone(middle, keep);
      FilterAll(last, keep);
    } else {
      FilterAll(ls, keep);
    }
  }

  /** Each block builds its argument's data element first and registers it last. */
  lemma BodyBuildsThenRegisters(p: Page, env: Externals)
    ensures var r := Filter(ConstructorBody(p, env), IsBuildOrRegister);
      && |r| == 2 * |p.attributes|
      && forall i :: 0 <= i < |p.attributes| ==>
           && r[2 * i] == FirstBodyLine(p.attributes[i], env)
           && r[2 * i + 1] == Register(env.attribute(p.attributes[i].name), RegisterIndent(p.attributes[i]))
  {
    var keep := IsBuildOrRegister;
    var g := (a: Argument) => [FirstBodyLine(a, env), Register(env.attribute(a.name), RegisterIndent(a))];
    forall i | 0 <= i < |p.attributes|
      ensures Filter(BodyLines(env)(p.attributes[i]), keep) == g(p.attributes[i])
    {
      BlockBuildsThenRegisters(p.attributes[i], env);
    }
    FilterBind(p.attributes, BodyLines(env), keep, g);
    BindPairs(p.attributes, g);
  }

  /**
   * The constructor registers every argument into the page data bundle
   * exactly once, in declaration order, through the field of that argument,
   * and each registration directly follows the building of that same
   * argument's data element.
   */
  lemma RegistrationsInOrder(p: Page, path: string, env: Externals)
    ensures var r := Filter(Generate(p, path, env), IsRegister);
      && |r| == |p.attributes|
      && forall i :: 0 <= i < |p.attributes| ==>
           r[i] == Register(env.attribute(p.attributes[i].name), RegisterIndent(p.attributes[i]))
    ensures var r := Filter(Generate(p, path, env), IsBuildOrRegister);
      && |r| == 2 * |p.attributes|
      && forall i :: 0 <= i < |p.attributes| ==>
           && r[2 * i] == FirstBodyLine(p.attributes[i], env)
           && r[2 * i + 1] == Register(env.attribute(p.attributes[i].name), RegisterIndent(p.attributes[i]))
  {
    OnlyBody(p, path, env, IsRegister);
    BodyRegisters(p, env);
    OnlyBody(p, path, env, IsBuildOrRegister);
    BodyBuildsThenRegisters(p, env);
  }

  /**
   * The first constructor line of an argument's block, which builds its
   * data element: the `Wrap`, `TreeAssign` or `ArrayAlloc` line, chosen by
   * the argument's kind as `OneBranchPerArgument` states.
   */
  function FirstBodyLine(a: Argument, env: Externals): Line
  {
    BodyLines(env)(a)[0]
  }

  lemma BodyMaterializations(p: Page, env: Externals)
    ensures var r := Filter(ConstructorBody(p, env), IsMaterialize);
      && |r| == |p.attributes|
      && forall i :: 0 <= i < |p.attributes| ==> r[i] == FirstBodyLine(p.attributes[i], env)
  {
    var keep := IsMaterialize;
    var g := (a: Argument) => [FirstBodyLine(a, env)];
    forall i | 0 <= i < |p.attributes|
      ensures Filter(BodyLines(env)(p.attributes[i]), keep) == g(p.attributes[i])
    {
      BlockShape(p.attributes[i], env);
      FilterPick(BodyLines(env)(p.attributes[i]), 0, keep);
    }
    FilterBind(p.attributes, BodyLines(env), keep, g);
    BindSingles(p.attributes, g);
  }

  /**
   * Exactly one kind-specific branch builds the data element of each
   * argument, in declaration order: a scalar or object argument is wrapped
   * into its precise data element class under its own name, a node tree is
   * built by the tree's own transformation, and an array gets an array data
   * element of its payload's class under its own name.
   */
  lemma OneBranchPerArgument(p: Page, path: string, env: Externals)
    ensures var r := Filter(Generate(p, path, env), IsMaterialize);
      var args := p.attributes;
      && |r| == |args|
      && forall i :: 0 <= i < |args| ==>
           && (r[i].Wrap? <==> args[i].kind.Plain? || args[i].kind.Object?)
           && (r[i].TreeAssign? <==> args[i].kind.NodeTree?)
           && (r[i].ArrayAlloc? <==> args[i].kind.Array?)
           && r[i].attribute == env.attribute(args[i].name)
           && r[i].name == args[i].name
           && (r[i].Wrap? ==> r[i].eltName == args[i].eltName)
           && (r[i].TreeAssign? ==> r[i].lowerName == env.lowerCase(args[i].name))
           && (r[i].ArrayAlloc? ==>
                 r[i].eltName == args[i].kind.payload.eltName
                 && r[i].typeWithArgument == args[i].kind.payload.typeNameWithArgument)
  {
    OnlyBody(p, path, env, IsMaterialize);
    BodyMaterializations(p, env);
  }

  /** The class of the elements an array argument holds; unused for other kinds. */
  function PayloadEltName(a: Argument): string
  {
    if a.kind.Array? then a.kind.payload.eltName else a.eltName
  }

  lemma BodyArrayElements(p: Page, env: Externals)
    ensures var r := Filter(ConstructorBody(p, env), IsAddElement);
      var arrays := Filter(p.attributes, IsArray);
      && |r| == |arrays|
      && forall k :: 0 <= k < |arrays| ==>
           r[k] == AddElement(env.attribute(arrays[k].name), PayloadEltName(arrays[k]), arrays[k].name)
  {
    var keep := IsAddElement;
    var h := (a: Argument) => AddElement(env.attribute(a.name), PayloadEltName(a), a.name);
    var g := (a: Argument) => if IsArray(a) then [h(a)] else [];
    forall i | 0 <= i < |p.attributes|
      ensures Filter(BodyLines(env)(p.attributes[i]), keep) == g(p.attributes[i])
    {
      var ls := BodyLines(env)(p.attributes[i]);
      BlockShape(p.attributes[i], env);
      if IsArray(p.attributes[i]) {
        FilterPick(ls, 2, keep);
      } else {
        FilterNone(ls, keep);
      }
    }
    FilterBind(p.attributes, BodyLines(env), keep, g);
    BindOptional(p.attributes, g, IsArray, h);
  }

  /** Each array block opens the loop over the raw array and adds the elements inside it. */
  lemma BodyArrayLoops(p: Page, env: Externals)
    ensures var r := Filter(ConstructorBody(p, env), IsArrayLoop);
      var arrays := Filter(p.attributes, IsArray);
      && |r| == 2 * |arrays|
      && forall k :: 0 <= k < |arrays| ==>
           && r[2 * k] == LoopOpen(env.attribute(arrays[k].name))
           && r[2 * k + 1] == AddElement(env.attribute(arrays[k].name), PayloadEltName(arrays[k]), arrays[k].name)
  {
    var keep := IsArrayLoop;
    var h1 := (a: Argument) => LoopOpen(env.attribute(a.name));
    var h2 := (a: Argument) => AddElement(env.attribute(a.name), PayloadEltName(a), a.name);
    var g := (a: Argument) => if IsArray(a) then [h1(a), h2(a)] else [];
    forall i | 0 <= i < |p.attributes|
      ensures Filter(BodyLines(env)(p.attributes[i]), keep) == g(p.attributes[i])
    {
      var a := p.attributes[i];
      var ls := BodyLines(env)(a);
      BlockShape(a, env);
      if IsArray(a) {
        var first, middle, last := ls[..1], ls[1..3], ls[3..];
        assert ls == first + middle + last;
        FilterConcat(first + middle, last, keep);
        FilterConcat(first, middle, keep);
        FilterNone(first, keep);
        FilterAll(middle, keep);
        FilterNone(last, keep);
      } else {
        FilterNone(ls, keep);
      }
    }
    FilterBind(p.attributes, BodyLines(env), keep, g);
    BindOptionalPairs(p.attributes, g, IsArray, h1, h2);
  }

  /**
   * The steps of one argument's constructor block, in order: build its data
   * element; for an array, open the loop over the raw values and add each
   * element; then register it.
   */
  function Steps(env: Externals): Argument -> seq<Line>
  {
    (a: Argument) =>
      var attr := env.attribute(a.name);
      match a.kind
      case Array(payload) =>
        [FirstBodyLine(a, env), LoopOpen(attr), AddElement(attr, payload.eltName, a.name), Register(attr, 3)]
      case _ =>
        [FirstBodyLine(a, env), Register(attr, RegisterIndent(a))]
  }

  lemma BlockSteps(a: Argument, env: Externals)
    ensures Filter(BodyLines(env)(a), IsConstructorStep) == Steps(env)(a)
  {
    var keep := IsConstructorStep;
    var ls := BodyLines(env)(a);
    BlockShape(a, env);
    if a.kind.Array? {
      var first, middle, last := ls[..3], ls[3..4], ls[4..];
      assert ls == first + middle + last;
      FilterConcat(first + middle, last, keep);
      FilterConcat(first, middle, keep);
      FilterAll(first, keep);
      FilterNone(middle, keep);
      FilterAll(last, keep);
    } else {
      FilterAll(ls, keep);
    }
  }

  lemma BodySteps(p: Page, env: Externals)
    ensures Filter(ConstructorBody(p, env), IsConstructorStep) == Bind(p.attributes, Steps(env))
  {
    forall i | 0 <= i < |p.attributes|
      ensures Filter(BodyLines(env)(p.attributes[i]), IsConstructorStep) == Steps(env)(p.attributes[i])
    {
      BlockSteps(p.attributes[i], env);
    }
    FilterBind(p.attributes, BodyLines(env), IsConstructorStep, Steps(env));
  }

  /**
   * The constructor handles the arguments one block at a time, in order:
   * each argument's data element is built, an array's elements are added in
   * a loop over its raw values, and only then is the element registered.
   */
  lemma ConstructorStepsInOrder(p: Page, path: string, env: Externals)
    ensures Filter(Generate(p, path, env), IsConstructorStep) == Bind(p.attributes, Steps(env))
  {
    OnlyBody(p, path, env, IsConstructorStep);
    BodySteps(p, env);
  }

  /**
   * Every element the constructor adds inside an array's loop is wrapped
   * into the array's payload class under the array argument's own name and
   * added to that array's field; one such line per array argument, in
   * declaration order.
   */
  lemma ArrayElementsUnderArrayName(p: Page, path: string, env: Externals)
    ensures var r := Filter(Generate(p, path, env), IsAddElement);
      var arrays := Filter(p.attributes, IsArray);
      && |r| == |arrays|
      && forall k :: 0 <= k < |arrays| ==>
           && r[k].name == arrays[k].name
           && r[k].attribute == env.attribute(arrays[k].name)
           && r[k].eltName == arrays[k].kind.payload.eltName
    ensures var r := Filter(Generate(p, path, env), IsArrayLoop);
      var arrays := Filter(p.attributes, IsArray);
      && |r| == 2 * |arrays|
      && forall k :: 0 <= k < |arrays| ==>
           && r[2 * k] == LoopOpen(env.attribute(arrays[k].name))
           && r[2 * k + 1] == AddElement(env.attribute(arrays[k].name), arrays[k].kind.payload.eltName, arrays[k].name)
  {
    OnlyBody(p, path, env, IsAddElement);
    BodyArrayElements(p, env);
    OnlyBody(p, path, env, IsArrayLoop);
    BodyArrayLoops(p, env);
  }

  /** Whether an argument refers to an object type of a module other than the one at `modulePath`. */
  function CrossModuleIn(modulePath: string): Argument -> bool
  {
    (a: Argument) => IsCrossModule(a, modulePath)
  }

  /** The import of the class of the object type an argument refers to. */
  function ForeignImportOf(a: Argument, env: Externals): Line
  {
    match ReferencedObject(a)
    case Some(d) => ForeignImport(d.ownerPath, env.javaClass(d.name))
    case None => ForeignImport("", "")
  }

  lemma ArgumentForeignImport(a: Argument, path: string, env: Externals)
    ensures Filter(ArgumentImports(path, env)(a), IsForeignImport)
         == (if IsCrossModule(a, path) then [ForeignImportOf(a, env)] else [])
  {
    var keep := IsForeignImport;
    var own := env.writeImports(a, path);
    var ownLines := seq(|own|, k requires 0 <= k < |own| => ArgumentImport(own[k]));
    var extra := if IsCrossModule(a, path) then [ForeignImportOf(a, env)] else [];
    assert ArgumentImports(path, env)(a) == ownLines + extra;
    FilterConcat(ownLines, extra, keep);
    FilterNone(ownLines, keep);
    FilterAll(extra, keep);
  }

  lemma ArgumentImportsSelection(args: seq<Argument>, path: string, env: Externals)
    ensures var r := Filter(Bind(args, ArgumentImports(path, env)), IsForeignImport);
      var xs := Filter(args, CrossModuleIn(path));
      && |r| == |xs|
      && forall k :: 0 <= k < |xs| ==> r[k] == ForeignImportOf(xs[k], env)
  {
    var keep := IsForeignImport;
    var h := (a: Argument) => ForeignImportOf(a, env);
    var g := (a: Argument) => if CrossModuleIn(path)(a) then [h(a)] else [];
    var f := ArgumentImports(path, env);
    forall i | 0 <= i < |args|
      ensures Filter(f(args[i]), keep) == g(args[i])
    {
      var a := args[i];
      ArgumentForeignImport(a, path, env);
      assert CrossModuleIn(path)(a) == IsCrossModule(a, path);
      assert g(a) == (if IsCrossModule(a, path) then [ForeignImportOf(a, env)] else []);
    }
    FilterBind(args, f, keep, g);
    BindOptional(args, g, CrossModuleIn(path), h);
  }

  lemma ImportSelection(p: Page, path: string, env: Externals)
    ensures var r := Filter(Imports(p, path, env), IsForeignImport);
      var xs := Filter(p.attributes, CrossModuleIn(path));
      && |r| == |xs|
      && forall k :: 0 <= k < |xs| ==> r[k] == ForeignImportOf(xs[k], env)
  {
    var f := ArgumentImports(path, env);
    ArgumentImportsSelection(p.attributes, path, env);
    var im := Imports(p, path, env);
    var fixed := im[..9];
    assert im == fixed + Bind(p.attributes, f);
    FilterConcat(fixed, Bind(p.attributes, f), IsForeignImport);
    FilterNone(fixed, IsForeignImport);
  }

  /**
   * The generator itself writes one object-class import (`ForeignImport`)
   * for every argument whose object (or whose array payload's object)
   * belongs to another module, naming that module's data package and the
   * object's class, in declaration order; for arguments whose object
   * belongs to the current module, and for all other arguments, it writes
   * none. The lines an argument's own import writer contributes are not
   * constrained here.
   */
  lemma ForeignImportsExactlyCrossModule(p: Page, path: string, env: Externals)
    ensures var r := Filter(Generate(p, path, env), IsForeignImport);
      var xs := Filter(p.attributes, CrossModuleIn(path));
      && |r| == |xs|
      && forall k :: 0 <= k < |xs| ==>
           && ReferencedObject(xs[k]).Some?
           && ReferencedObject(xs[k]).value.ownerPath != path
           && r[k] == ForeignImport(ReferencedObject(xs[k]).value.ownerPath,
                                    env.javaClass(ReferencedObject(xs[k]).value.name))
  {
    OnlyImports(p, path, env, IsForeignImport);
    ImportSelection(p, path, env);
  }

  /**
   * No object-class import the generator itself writes (`ForeignImport`)
   * names the current module; the lines an argument's own import writer
   * contributes are not constrained here.
   */
  lemma NoSameModuleImport(p: Page, path: string, env: Externals)
    ensures var out := Generate(p, path, env);
      forall i :: 0 <= i < |out| && out[i].ForeignImport? ==> out[i].ownerPath != path
  {
    var out := Generate(p, path, env);
    var r := Filter(out, IsForeignImport);
    ForeignImportsExactlyCrossModule(p, path, env);
    FilterKeepsMembers(out, IsForeignImport);
    forall i | 0 <= i < |out| && out[i].ForeignImport?
      ensures out[i].ownerPath != path
    {
      assert IsForeignImport(out[i]);
      var k :| 0 <= k < |r| && r[k] == out[i];
    }
  }
}
