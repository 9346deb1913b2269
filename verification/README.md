# Open Lowcode page generation and object-id storage, modelled in Dafny

This project models two pieces of Open Lowcode.

**The page generator** (`PageDefinition`). A module author declares a page
with a name and an ordered list of input arguments. `generateToFile` writes
the abstract Java class `Abs<Name>Page` that the author then derives. The
class contains:

- a warning banner, for hand-implemented pages only;
- imports: the framework and module imports, each argument's own imports,
  and one import per argument whose object type belongs to another module;
- one field and one getter per argument, plus the page-data bundle field;
- an abstract `generateTitle` method and a constructor, each taking the
  arguments in order;
- in the constructor, the default add-on line when it applies, and one block
  per argument that builds that argument's data element and registers it;
- the accessor `getAll…PageAttributes`.

The model describes each emitted line as a structured value (`Lines.Line`).
`Lines.Render` gives the exact Java text written for each line.
`PageDefinition.Generate` gives the full line sequence for a page, and
`PageDefinition.GenerateText` gives the text. Properties are stated on
filtered selections of the generated lines (`Seqs.Filter`). For example:
"the field lines are the bundle field followed by one field per argument,
in order".

**The object-id storage widget** (`CObjectIdStorage`). This client widget
reads a typed reference to page data from a server message. The message
must close with the tag `OBJIDS`. When the page is realised, the widget
resolves the reference against the page data and keeps the object id
element it finds. Afterwards it hands out copies of that id under whatever
name the requester gives. Forced updates and deep copies always fail. The
widget is modelled as an immutable record. Every runtime exception of the
source becomes an `Error` value in a `Result`. Building and extracting
return a plain `Result`. Realising, forced updates and deep copies change
or keep the widget, so they return a `Step`: the widget they leave,
together with their `Result`.

Files:

- `wrappers.dfy`: `Option` and `Result`.
- `seqs.dfy`: `Filter`, `Count`, `Bind` and their algebra.
- `arguments.dfy`: the page argument kinds.
- `lines.dfy`: emitted lines, parameter-list fragments and rendering.
- `page_definition.dfy`: the page record, its constructors, and the generator section by section.
- `page_properties.dfy`, `argument_emission.dfy`, `default_page.dfy`: properties of the generated class.
- `object_id_storage.dfy`: the widget.

## Model

| member | source | states |
|---|---|---|
| PageDefinition.NewPage | src/org/openlowcode/design/pages/PageDefinition.java:79-84 | A page built from a name is not autogenerated and uses the default add-on. It has the base class's empty attribute list and empty class and method add-on suffixes. |
| PageDefinition.NewAutoPage | src/org/openlowcode/design/pages/PageDefinition.java:92-95 | A page built from a name and the autogenerated flag carries that name and flag. It uses the default add-on and has the base class's empty attribute list and empty add-on suffixes. |
| PageDefinition.SetNoAddOn | src/org/openlowcode/design/pages/PageDefinition.java:110-112 | The page opts out of add-ons, and no other field of the page changes. |
| Lines.ListFragmentsAlternate | src/org/openlowcode/design/pages/PageDefinition.java:184-192 | For n items, the parameter-list loop writes item k at position 2k and a comma at every odd position. So there are exactly n-1 commas, with none leading or trailing. |
| Lines.RenderAll | src/org/openlowcode/design/pages/PageDefinition.java:121-259 | The text has one rendered string per generated line, in the same order. |
| PageProperties.BannerIffHandWritten | src/org/openlowcode/design/pages/PageDefinition.java:125-134 | A page that is not autogenerated gets the 7 banner lines in order. Their one varying line names the concrete class to write, `<module>.action.<Class>Page`. An autogenerated page gets no banner line. |
| PageProperties.ClassHeader | src/org/openlowcode/design/pages/PageDefinition.java:165 | The class is declared exactly once, as `Abs<Class>Page` extending the page class with the page's class add-on suffix. |
| ArgumentEmission.ForeignImportsExactlyCrossModule | src/org/openlowcode/design/pages/PageDefinition.java:146-163 | The object-class imports the generator itself writes (`ForeignImport`) are exactly one per argument, in order, whose object type (possibly an array's payload) is owned by another module. Each names that module's data package and the object's class. The lines an argument's own import writer emits are not constrained. |
| ArgumentEmission.NoSameModuleImport | src/org/openlowcode/design/pages/PageDefinition.java:157-160 | No object-class import the generator itself writes (`ForeignImport`) names the page's own module. The lines an argument's own import writer emits are not constrained. |
| PageProperties.FieldsFollowPageData | src/org/openlowcode/design/pages/PageDefinition.java:165-171 | The field declarations are the page-data field followed by one field per argument. They keep the arguments' order, precise element types and attribute names. |
| PageProperties.GettersInOrder | src/org/openlowcode/design/pages/PageDefinition.java:173-180 | Getter lines come in pairs, one pair per argument, in order. Each pair is the getter header (element type and class-cased name) and its return of the attribute. |
| PageProperties.SignaturesListAllArguments | src/org/openlowcode/design/pages/PageDefinition.java:184-212 | There are exactly three signature lines: title method, constructor (with the page's class name) and setTitle call. The first two take the same parameters: every argument in order, with its raw type and attribute name. setTitle passes the same attributes in the same order. |
| PageProperties.DefaultAddonIff | src/org/openlowcode/design/pages/PageDefinition.java:214-216 | The default add-on line appears once when the page is neither an add-on page nor opted out, and otherwise never appears. |
| PageProperties.SetNoAddOnDropsOnlyAddon | src/org/openlowcode/design/pages/PageDefinition.java:110-216 | The class generated after opting out equals the original class with the default add-on line removed and nothing else changed. |
| PageProperties.BundleAccessor | src/org/openlowcode/design/pages/PageDefinition.java:254-257 | The class has exactly one bundle accessor: an override of `getAll<methodAddon>PageAttributes` that returns the page data. |
| ArgumentEmission.OneBranchPerArgument | src/org/openlowcode/design/pages/PageDefinition.java:218-250 | Each argument gets exactly one element-building line, in order. A plain or object argument is wrapped, a node tree is assigned from its lower-cased variable, and an array is allocated with its payload's element type and type argument. The three branches are mutually exclusive. |
| ArgumentEmission.RegistrationsInOrder | src/org/openlowcode/design/pages/PageDefinition.java:218-250 | Each argument is registered in the bundle exactly once, in argument order, with its block's indentation. Taken together, the building and registering lines alternate: each registration directly follows the line that builds that same argument's data element. |
| ArgumentEmission.ArrayElementsUnderArrayName | src/org/openlowcode/design/pages/PageDefinition.java:241-246 | There is one element-adding line per array argument, in order. Each is built with the payload's element type under the array's name and attribute. The loop headers and element-adding lines alternate: each element-adding line directly follows the `for` loop over that same array's raw values. |
| ArgumentEmission.ConstructorStepsInOrder | src/org/openlowcode/design/pages/PageDefinition.java:218-250 | The constructor handles the arguments one block at a time, in order. Each block builds the argument's data element. For an array it then opens the loop over the raw values and adds the elements. Only then is the element registered. Together, these steps are exactly each argument's steps concatenated in argument order, so no step of one argument falls between another argument's steps. |
| DefaultPage.NameOnlyPage | src/org/openlowcode/design/pages/PageDefinition.java:56-58 | A page with the base class's default attribute list gets the banner, only the page-data field, no getter, and an empty title and constructor signature. It has no argument block, and it has the add-on line exactly when it is not an add-on page. |
| DefaultPage.AutoPageBanner | src/org/openlowcode/design/pages/PageDefinition.java:47-49 | A page built with the autogenerated flag carries the banner exactly when the flag is false. |
| ObjectIdStorage.Lookup | src/org/openlowcode/client/graphic/widget/CObjectIdStorage.java:69-71 | The lookup finds nothing exactly when no page data element carries the name. Otherwise it returns an element of the page data with that name. |
| ObjectIdStorage.Create | src/org/openlowcode/client/graphic/widget/CObjectIdStorage.java:56-60 | Building succeeds exactly when the reference reads and the structure closes with `OBJIDS`. A reading failure propagates, a wrong tag is a malformed-message error, and a new widget holds no payload. |
| ObjectIdStorage.Realize | src/org/openlowcode/client/graphic/widget/CObjectIdStorage.java:63-80 | Realising succeeds exactly when the first element named by the reference has the expected type and is an object id element. The payload then becomes that element and no node is returned. A missing name and a type mismatch give their errors, and any failure leaves the widget unchanged. |
| ObjectIdStorage.Extract | src/org/openlowcode/client/graphic/widget/CObjectIdStorage.java:83-91 | Extraction succeeds exactly for the object id type, with no locator, after resolution. It returns a new element under the requested name carrying the payload's id and object id. Other types and any given locator give their errors. |
| ObjectIdStorage.ForceUpdate | src/org/openlowcode/client/graphic/widget/CObjectIdStorage.java:94-97 | A forced update always fails as unsupported and leaves the widget unchanged. |
| ObjectIdStorage.DeepCopy | src/org/openlowcode/client/graphic/widget/CObjectIdStorage.java:100-102 | A deep copy always fails as not implemented and leaves the widget unchanged. |
| ObjectIdStorage.RealizeThenExtract | src/org/openlowcode/client/graphic/widget/CObjectIdStorage.java:76-88 | Round trip: after a successful realisation, a well-formed request returns exactly the id and object id of the page data element the reference names. |
| ObjectIdStorage.RealizeReplacesPayload | src/org/openlowcode/client/graphic/widget/CObjectIdStorage.java:77 | Realising depends only on the reference and the page data, not on an earlier payload, and a second realisation with the same data changes nothing. |
| ObjectIdStorage.RealizeAgreesWithLookup | src/org/openlowcode/client/graphic/widget/CObjectIdStorage.java:69-77 | Realising succeeds exactly when the element found by name is an object id element of the reference's type. An element of the right type that is not an object id element fails the cast. |
| ObjectIdStorage.ExtractBeforeRealize | src/org/openlowcode/client/graphic/widget/CObjectIdStorage.java:88 | A freshly built widget answers a well-formed request with the unresolved error. |

## Left out

- Writing to files (`SourceGenerator`, `sg.close`, `IOException`): the model produces the line sequence and its text instead.
- `sg.bl()` is rendered as an empty line; the generator's line-ending conventions are not modelled.
- `StringFormatter.formatForJavaClass`, `formatForAttribute`, `String.toLowerCase` and `ArgumentContent.writeImports` are taken as opaque function parameters (`Arguments.Externals`), because their code is not part of this model.
- The argument accessors `getPreciseDataEltName`, `getType` and `getPreciseDataEltTypeNameWithArgument` are data fields of an argument.
- `getPageAttributes`, `getClassAddon`, `getAttributeMethodAddon` and `instanceof AddonPageDefinition` are subclass choices, so they are fields of the page record. The base-class defaults appear in `NewPage`.
- `setSpecificAddon` and the `addon` field: the generator never reads them.
- The uniqueness of names in an ordered named collection (and its duplicate-name error) belongs to `NamedList`, which is not part of this model. Argument lists are plain sequences, and no property here depends on names being unique.
- `CPageNode`'s own message parsing (`super(reader, parentpath)`) and `CPageDataRef.parseCPageDataRef` are reduced to a `Result` parameter of `Create`. The message reader's grammar is not part of this model.
- `CPageData.lookupDataElementByName` is modelled as the first element with the name in an ordered sequence of page data.
- The JavaFX parameters of `getNode` (action manager, window, tab panes), `mothball` (a no-op), the unused `name` field and the callback given to `deepcopyWithCallback`: none of them affect the widget's data.
- `instanceof ObjectIdDataEltType` is modelled as equality with the object id type tag, since there is no subtype hierarchy of tags in the model.
- `ArgumentContent.writeImports` is opaque, so nothing is promised about the import lines it contributes. Only the generator's own object-class imports are constrained.
- `ObjectIdDataElt.getType()` is not part of this model. An object id element is taken to report the object id type tag, so a reference that expects any other type never resolves.
- The null payload read before resolution (a `NullPointerException` in the source) is the error `Unresolved`.
