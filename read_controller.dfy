/**
 * Two rules of the read controller: the plugin event each read action
 * emits, and how `listCollections` uses its optional `type` argument to
 * choose which collection sources it consults and which facets it returns.
 */
module ReadController {
  import opened JsValues

  /** The read controller's actions. */
  datatype ReadAction = Search | Get | Count | ListCollections | Now

  /** The action's name, as requests and plugin events spell it. */
  function ActionName(a: ReadAction): string {
    match a
    case Search => "search"
    case Get => "get"
    case Count => "count"
    case ListCollections => "listCollections"
    case Now => "now"
  }

  /** The plugin event a read action emits: `data:` followed by the action name. */
  function EventName(a: ReadAction): (e: string)
    ensures |e| > 5 && e[..5] == "data:" && e[5..] == ActionName(a)
  {
    "data:" + ActionName(a)
  }

  /**
   * A listener registered for one read action's event hears no other
   * action's event: distinct actions emit distinct event names.
   */
  lemma EventNamesDistinct(a: ReadAction, b: ReadAction)
    ensures EventName(a) == EventName(b) <==> a == b
  {
  }

  /** The names the tests listen for, one per read action. */
  lemma TestedEventNames()
    ensures EventName(Search) == "data:search"
    ensures EventName(Get) == "data:get"
    ensures EventName(Count) == "data:count"
    ensures EventName(ListCollections) == "data:listCollections"
    ensures EventName(Now) == "data:now"
  {
  }

  /** The facets `listCollections` can be asked for. */
  datatype CollectionType = All | Stored | Realtime

  /** The facet's name, as the `type` argument and `data.type` spell it. */
  function TypeName(t: CollectionType): string {
    match t
    case All => "all"
    case Stored => "stored"
    case Realtime => "realtime"
  }

  /** The error a request with an unsupported argument is rejected with. */
  datatype BadRequestError = InvalidType(given: Value)

  /**
   * Reads the optional `type` argument, which may be any JavaScript value:
   * absent means `all`; the strings naming the three facets select them;
   * any other value, string or not, is a bad request.
   */
  function ParseType(arg: Option<Value>): (r: Result<CollectionType, BadRequestError>)
    ensures arg.None? ==> r == Ok(All)
    ensures arg.Some? ==> (r.Ok? <==> arg.value.Str? && arg.value.s in {"all", "stored", "realtime"})
    ensures arg.Some? && r.Ok? ==> arg.value == Str(TypeName(r.value))
    ensures r.Err? ==> arg.Some? && r.error == InvalidType(arg.value)
  {
    match arg
    case None => Ok(All)
    case Some(v) =>
      if v == Str("all") then Ok(All)
      else if v == Str("stored") then Ok(Stored)
      else if v == Str("realtime") then Ok(Realtime)
      else Err(InvalidType(v))
  }

  /** Every facet name is accepted back as that facet. */
  lemma ParseTypeName(t: CollectionType)
    ensures ParseType(Some(Str(TypeName(t)))) == Ok(t)
  {
  }

  /**
   * The collection names returned, one list per requested facet; a facet
   * that was not requested is absent.
   */
  datatype Collections = Collections(stored: Option<seq<string>>, realtime: Option<seq<string>>)

  /**
   * The response data of `listCollections`, together with which sources
   * were consulted to build it: the storage engine's stored list and the
   * room registry's realtime list.
   */
  datatype ListCollectionsResult = ListCollectionsResult(
    typeName: string,
    collections: Collections,
    storedConsulted: bool,
    realtimeConsulted: bool)

  /**
   * `listCollections` given its `type` argument and what the storage engine
   * and the room registry would answer if asked. `stored` is consulted for
   * `all` and `stored`, `realtime` for `all` and `realtime`; each consulted
   * source's list is returned as its own facet, as is, with no merging.
   */
  function ListCollectionsOf(typeArg: Option<Value>, stored: seq<string>, realtime: seq<string>)
    : (r: Result<ListCollectionsResult, BadRequestError>)
    ensures r.Ok? <==> typeArg.None? || (typeArg.value.Str? && typeArg.value.s in {"all", "stored", "realtime"})
    ensures r.Err? ==> typeArg.Some? && r.error == InvalidType(typeArg.value)
    ensures r.Ok? ==> r.value.typeName == if typeArg.None? then "all" else typeArg.value.s
    ensures r.Ok? ==> (r.value.storedConsulted <==> r.value.typeName != "realtime")
    ensures r.Ok? ==> (r.value.realtimeConsulted <==> r.value.typeName != "stored")
    ensures r.Ok? ==>
              r.value.collections.stored == (if r.value.storedConsulted then Some(stored) else None)
    ensures r.Ok? ==>
              r.value.collections.realtime == (if r.value.realtimeConsulted then Some(realtime) else None)
  {
    match ParseType(typeArg)
    case Err(e) => Err(e)
    case Ok(t) =>
      var useStored := t != Realtime;
      var useRealtime := t != Stored;
      Ok(ListCollectionsResult(
        TypeName(t),
        Collections(
          if useStored then Some(stored) else None,
          if useRealtime then Some(realtime) else None),
        useStored,
        useRealtime))
  }

  /**
   * A `stored` listing never reflects the room registry, and a `realtime`
   * listing never reflects the storage engine.
   */
  lemma FacetIndependence(stored1: seq<string>, stored2: seq<string>,
                          realtime1: seq<string>, realtime2: seq<string>)
    ensures ListCollectionsOf(Some(Str("stored")), stored1, realtime1)
            == ListCollectionsOf(Some(Str("stored")), stored1, realtime2)
    ensures ListCollectionsOf(Some(Str("realtime")), stored1, realtime1)
            == ListCollectionsOf(Some(Str("realtime")), stored2, realtime1)
  {
  }

  /**
   * A corollary of `ListCollectionsOf`'s contract at the default argument:
   * the listing holds both facets side by side, each exactly the list its
   * source returned, so a name known to both sources is reported in each.
   */
  lemma DefaultListsBoth(stored: seq<string>, realtime: seq<string>, name: string)
    requires name in stored && name in realtime
    ensures var r := ListCollectionsOf(None, stored, realtime);
            && r.Ok? && r.value.typeName == "all"
            && r.value.storedConsulted && r.value.realtimeConsulted
            && r.value.collections.stored == Some(stored)
            && r.value.collections.realtime == Some(realtime)
            && name in r.value.collections.stored.value
            && name in r.value.collections.realtime.value
  {
  }
}
