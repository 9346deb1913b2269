/**
 * The client-side widget that stores an object id for a page. It is read
 * from a server message as a typed reference to page data, resolves that
 * reference against the page data when the page is realised, and then
 * hands out copies of the stored id to the widgets that ask for it.
 */
module ObjectIdStorage {
  import opened Wrappers

  /** The type tag of a data element; two tags match only when they are equal. */
  datatype EltType = ObjectIdType | OtherType(tag: string)

  /** A named data element of the page data: an object id element, or an element of any other class. */
  datatype DataElt =
    | ObjectIdElt(name: string, id: string, objectId: string)
    | OtherElt(name: string, declaredType: EltType)
  {
    /** The type tag the element reports. */
    function Type(): EltType
    {
      match this
      case ObjectIdElt(_, _, _) => ObjectIdType
      case OtherElt(_, t) => t
    }
  }

  type ObjectIdDataElt = e: DataElt | e.ObjectIdElt? witness ObjectIdElt("", "", "")

  /** A reference to page data as read from the message: the element's name and its expected type. */
  datatype PageDataRef = PageDataRef(name: string, eltType: EltType)

  /** The page data a page is realised with, as its data elements in order. */
  type PageData = seq<DataElt>

  datatype Error =
    | MalformedMessage(expectedTag: string, foundTag: string)
    | MissingData(name: string)
    | TypeMismatch(name: string, expected: EltType, found: EltType)
    | NotAnObjectId(name: string)                  // the element cannot be cast to an object id element
    | Unresolved                                   // the payload is read before any resolution
    | UnsupportedFieldLocator(locator: string)
    | UnsupportedExtraction(requested: EltType)
    | ForceUpdateUnsupported
    | NotImplemented

  /** The widget: its reference, and the object id element once the reference is resolved. */
  datatype Widget = Widget(reference: PageDataRef, payload: Option<ObjectIdDataElt>)

  /** The widget a state-changing operation leaves, and what the operation yielded or raised. */
  datatype Step<+T> = Step(widget: Widget, outcome: Result<T, Error>)

  /** A visual node of the page; this widget never produces one. */
  datatype VisualNode = VisualNode

  /** The tag that must close the widget's structure in the message. */
  const EndTag := "OBJIDS"

  /** The position of the first element of `data` named `name`, if any. */
  function FirstNamed(data: PageData, name: string): (r: Option<nat>)
    ensures r.None? <==> forall i :: 0 <= i < |data| ==> data[i].name != name
    ensures r.Some? ==> r.value < |data| && data[r.value].name == name
    ensures r.Some? ==> forall j :: 0 <= j < r.value ==> data[j].name != name
  {
    if |data| == 0 then None
    else if data[0].name == name then Some(0)
    else match FirstNamed(data[1..], name)
      case None => None
      case Some(k) => Some(k + 1)
  }

  /** The element of the page data looked up by name. */
  function Lookup(data: PageData, name: string): (r: Option<DataElt>)
    ensures r.None? <==> forall i :: 0 <= i < |data| ==> data[i].name != name
    ensures r.Some? ==> r.value.name == name && r.value in data
  {
    match FirstNamed(data, name)
    case None => None
    case Some(k) => Some(data[k])
  }

  /**
   * Builds the widget from its message: the page data reference is read
   * (its failure propagates), then the structure must close with the tag
   * `OBJIDS`. A new widget holds no payload.
   */
  function Create(parsed: Result<PageDataRef, Error>, endTag: string): (r: Result<Widget, Error>)
    ensures r.Success? <==> parsed.Success? && endTag == EndTag
    ensures r.Success? ==> r.value.reference == parsed.value && r.value.payload.None?
    ensures parsed.Success? && endTag != EndTag ==> r == Failure(MalformedMessage(EndTag, endTag))
    ensures parsed.Failure? ==> r == Failure(parsed.error)
  {
    var reference :- parsed;
    if endTag == EndTag then Success(Widget(reference, None)) else Failure(MalformedMessage(EndTag, endTag))
  }

  /**
   * Realises the widget against the page data: the element named by the
   * reference must exist, carry exactly the reference's type and be an
   * object id element; it then becomes the payload, replacing any previous
   * one, and the widget yields no visual node. On failure the widget is
   * left as it was.
   */
  function Realize(w: Widget, data: PageData): (s: Step<Option<VisualNode>>)
    ensures s.outcome.Success? <==>
      exists i :: && 0 <= i < |data| && data[i].name == w.reference.name
                  && (forall j :: 0 <= j < i ==> data[j].name != w.reference.name)
                  && data[i].Type() == w.reference.eltType && data[i].ObjectIdElt?
    ensures s.outcome.Success? ==> s.outcome.value.None?
    ensures s.outcome.Success? ==>
      s.widget.reference == w.reference && s.widget.payload == Lookup(data, w.reference.name)
    ensures s.outcome.Failure? ==> s.widget == w
    ensures (forall i :: 0 <= i < |data| ==> data[i].name != w.reference.name) ==>
      s.outcome == Failure(MissingData(w.reference.name))
    ensures forall i :: 0 <= i < |data| && data[i].name == w.reference.name
                        && (forall j :: 0 <= j < i ==> data[j].name != w.reference.name)
                        && data[i].Type() != w.reference.eltType ==>
      s.outcome == Failure(TypeMismatch(w.reference.name, w.reference.eltType, data[i].Type()))
  {
    match FirstNamed(data, w.reference.name)
    case None => Step(w, Failure(MissingData(w.reference.name)))
    case Some(k) =>
      var found := data[k];
      if found.Type() != w.reference.eltType then
        Step(w, Failure(TypeMismatch(w.reference.name, w.reference.eltType, found.Type())))
      else if !found.ObjectIdElt? then
        Step(w, Failure(NotAnObjectId(w.reference.name)))
      else
        Step(w.(payload := Some(found)), Success(None))
  }

  /**
   * Hands out the stored id: only the object id type can be requested, no
   * field locator may be given, and the result is a new object id element
   * under the caller's name carrying the payload's id and object id.
   */
  function Extract(w: Widget, requested: EltType, eltName: string, locator: Option<string>): (r: Result<DataElt, Error>)
    ensures r.Success? <==> requested == ObjectIdType && locator.None? && w.payload.Some?
    ensures r.Success? ==>
      r.value == ObjectIdElt(eltName, w.payload.value.id, w.payload.value.objectId)
    ensures requested != ObjectIdType ==> r == Failure(UnsupportedExtraction(requested))
    ensures requested == ObjectIdType && locator.Some? ==> r == Failure(UnsupportedFieldLocator(locator.value))
  {
    if requested.ObjectIdType? then
      if locator.Some? then Failure(UnsupportedFieldLocator(locator.value))
      else match w.payload
        case None => Failure(Unresolved)
        case Some(p) => Success(ObjectIdElt(eltName, p.id, p.objectId))
    else Failure(UnsupportedExtraction(requested))
  }

  /** Forcing a value into the widget is refused, and the widget is left as it was. */
  function ForceUpdate(w: Widget, e: DataElt): (s: Step<()>)
    ensures s.widget == w && s.outcome.Failure? && s.outcome.error == ForceUpdateUnsupported
  {
    Step(w, Failure(ForceUpdateUnsupported))
  }

  /** Copying the widget for a callback is not implemented: it fails and the widget is left as it was. */
  function DeepCopy(w: Widget): (s: Step<Widget>)
    ensures s.widget == w && s.outcome.Failure? && s.outcome.error == NotImplemented
  {
    Step(w, Failure(NotImplemented))
  }

  /**
   * Round trip: once the widget is realised, requesting the object id type
   * without a locator returns, under the requested name, exactly the id and
   * object id of the page data element the reference names.
   */
  lemma RealizeThenExtract(w: Widget, data: PageData, eltName: string)
    ensures Realize(w, data).outcome.Success? ==>
      var e := Lookup(data, w.reference.name);
      && e.Some? && e.value.ObjectIdElt?
      && Extract(Realize(w, data).widget, ObjectIdType, eltName, None)
         == Success(ObjectIdElt(eltName, e.value.id, e.value.objectId))
  {
  }

  /**
   * A successful realisation depends only on the reference and the page
   * data, not on an earlier payload, and realising again with the same page
   * data changes nothing.
   */
  lemma RealizeReplacesPayload(w: Widget, earlier: Option<ObjectIdDataElt>, data: PageData)
    ensures Realize(w.(payload := earlier), data).outcome == Realize(w, data).outcome
    ensures Realize(w, data).outcome.Success? ==>
      && Realize(w.(payload := earlier), data).widget == Realize(w, data).widget
      && Realize(Realize(w, data).widget, data) == Realize(w, data)
  {
  }

  /**
   * Before any realisation the widget has nothing to hand out: a freshly
   * built widget answers a well-formed request with the unresolved error.
   */
  lemma ExtractBeforeRealize(reference: PageDataRef, eltName: string)
    ensures Create(Success(reference), EndTag).Success?
    ensures Extract(Create(Success(reference), EndTag).value, ObjectIdType, eltName, None) == Failure(Unresolved)
  {
  }

  /**
   * Realising succeeds exactly when the page data element found by name is
   * an object id element of the reference's type, and on a failure the
   * error names the first reason in the order the checks are made.
   */
  lemma RealizeAgreesWithLookup(w: Widget, data: PageData)
    ensures var e := Lookup(data, w.reference.name);
      && (Realize(w, data).outcome.Success? <==>
            e.Some? && e.value.Type() == w.reference.eltType && e.value.ObjectIdElt?)
      && (e.Some? && e.value.Type() == w.reference.eltType && !e.value.ObjectIdElt? ==>
            Realize(w, data).outcome == Failure(NotAnObjectId(w.reference.name)))
  {
  }
}
