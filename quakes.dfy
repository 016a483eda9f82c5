/**
 * The earthquake loader of the Mapper app (`DataStore`): an endpoint
 * selection, the in-memory list of records and the "refreshing"/"loaded"
 * signals it broadcasts.  The HTTP fetch, the JSON field coercion and the
 * date formatter are inputs: a `Response`, already-coerced `Item`s and a
 * `DateFormatter` function.
 */
module Quakes {
  import opened Wrappers

  /** A point in time (`NSDate`), as seconds from a reference instant. */
  type Date = real

  /** One earthquake record, built once and never changed. */
  datatype Earthquake = Earthquake(id: int, long: real, lat: real, mag: real, date: Date, place: string)

  /**
   * One element of the response's JSON array, after the per-field coercion
   * (`intValue`, `doubleValue`, `floatValue`, `stringValue`) has been applied.
   */
  datatype Item = Item(id: int, longitude: real, latitude: real, mag: real, time: string, place: string)

  /** The decoded response body: a JSON array, or any other JSON value. */
  datatype JsonValue = Array(elements: seq<Item>) | Other

  /** The outcome of the validated GET request. */
  datatype Response = Success(value: Option<JsonValue>) | Failure

  /** The two fixed endpoints: about 100 and about 10000 records. */
  datatype Endpoint = Small | Large

  /** The notifications the loader posts. */
  datatype Event = Refreshing | Loaded

  /** The date format every `time` field is parsed with. */
  const DateFormat: string := "yyyy-MM-dd'T'HH:mm:ss.SSSZ"

  /** A date formatter: given a format and a text, the date it denotes, if any. */
  type DateFormatter = (string, string) -> Option<Date>

  /** `dateFromString`: the formatter set to `DateFormat`, applied to `s`. */
  function DateFromString(formatter: DateFormatter, s: string): Option<Date> {
    formatter(DateFormat, s)
  }

  /** `arrayValue`: the elements of an array, and no elements for any other value. */
  function ArrayValue(v: JsonValue): seq<Item> {
    match v
    case Array(elements) => elements
    case Other => []
  }

  /** The array elements a successful response carries; none when it has no value. */
  function Payload(value: Option<JsonValue>): seq<Item> {
    match value
    case Some(v) => ArrayValue(v)
    case None => []
  }

  /** The record built from one element; an unparseable date becomes `now`. */
  function ToEarthquake(item: Item, formatter: DateFormatter, now: Date): Earthquake {
    Earthquake(item.id, item.longitude, item.latitude, item.mag,
               DateFromString(formatter, item.time).GetOr(now), item.place)
  }

  /** `e` is the record of `item`: fields copied one for one, date parsed or `now`. */
  predicate BuiltFrom(e: Earthquake, item: Item, formatter: DateFormatter, now: Date) {
    && e.id == item.id
    && e.long == item.longitude
    && e.lat == item.latitude
    && e.mag == item.mag
    && e.place == item.place
    && (DateFromString(formatter, item.time).None? ==> e.date == now)
    && (DateFromString(formatter, item.time).Some? ==> e.date == DateFromString(formatter, item.time).value)
  }

  /** The records the parse-and-append loop produces for `items`, in order. */
  function Records(items: seq<Item>, formatter: DateFormatter, now: Date): (r: seq<Earthquake>)
    ensures |r| == |items|
    ensures forall k :: 0 <= k < |items| ==> BuiltFrom(r[k], items[k], formatter, now)
    decreases |items|
  {
    if items == [] then []
    else Records(items[..|items| - 1], formatter, now) + [ToEarthquake(items[|items| - 1], formatter, now)]
  }

  /** Building the records of two arrays one after the other builds the records of their concatenation. */
  lemma {:induction false} RecordsAppend(a: seq<Item>, b: seq<Item>, formatter: DateFormatter, now: Date)
    ensures Records(a + b, formatter, now) == Records(a, formatter, now) + Records(b, formatter, now)
    decreases |b|
  {
    if b != [] {
      var b' := b[..|b| - 1];
      assert (a + b)[..|a + b| - 1] == a + b';
      assert (a + b)[|a + b| - 1] == b[|b| - 1];
      RecordsAppend(a, b', formatter, now);
    } else {
      assert a + b == a;
    }
  }

  /** The endpoint `setUseLargeList` selects. */
  function EndpointFor(useLarge: bool): Endpoint {
    if useLarge then Large else Small
  }

  /** The loader's observable state: endpoint, list and the signals posted so far. */
  datatype LoaderState = LoaderState(currentURL: Endpoint, earthquakes: seq<Earthquake>, events: seq<Event>)

  /** What `loadData` does before the request: post "refreshing", clear the list. */
  function AfterRefresh(s: LoaderState): LoaderState {
    s.(earthquakes := [], events := s.events + [Refreshing])
  }

  /** What the response callback does: append each record, then post "loaded"; on failure, nothing. */
  function AfterResponse(s: LoaderState, response: Response, formatter: DateFormatter, now: Date): LoaderState {
    match response
    case Success(value) =>
      s.(earthquakes := s.earthquakes + Records(Payload(value), formatter, now), events := s.events + [Loaded])
    case Failure => s
  }

  /** The signals one load posts. */
  function LoadEvents(response: Response): seq<Event> {
    if response.Success? then [Refreshing, Loaded] else [Refreshing]
  }

  /** The list one load leaves behind. */
  function LoadedList(response: Response, formatter: DateFormatter, now: Date): seq<Earthquake> {
    match response
    case Success(value) => Records(Payload(value), formatter, now)
    case Failure => []
  }

  /**
   * One complete `loadData`, its request answered by `fetch` for the selected
   * endpoint before any other load starts: the selection is kept, the list is
   * the one that response yields, whatever the list was before, and the
   * signals of that response are added.
   */
  function AfterLoad(s: LoaderState, fetch: Endpoint -> Response, formatter: DateFormatter, now: Date): (t: LoaderState)
    ensures t.currentURL == s.currentURL
    ensures t.earthquakes == LoadedList(fetch(s.currentURL), formatter, now)
    ensures t.events == s.events + LoadEvents(fetch(s.currentURL))
  {
    AfterResponse(AfterRefresh(s), fetch(s.currentURL), formatter, now)
  }

  /**
   * `setUseLargeList`: select the endpoint, then load from it; the large
   * endpoint is selected exactly when `useLarge` holds, and the list comes
   * from that endpoint's response.
   */
  function AfterSelect(s: LoaderState, useLarge: bool, fetch: Endpoint -> Response, formatter: DateFormatter, now: Date): (t: LoaderState)
    ensures t.currentURL == Large <==> useLarge
    ensures t.earthquakes == LoadedList(fetch(t.currentURL), formatter, now)
    ensures t.events == s.events + LoadEvents(fetch(t.currentURL))
  {
    AfterLoad(s.(currentURL := EndpointFor(useLarge)), fetch, formatter, now)
  }

  /** After `setUseLargeList(b)`, `usingLargeSet()` is `b`, whatever was selected before. */
  lemma SelectThenQuery(s: LoaderState, useLarge: bool, fetch: Endpoint -> Response, formatter: DateFormatter, now: Date)
    ensures (AfterSelect(s, useLarge, fetch, formatter, now).currentURL == Large) == useLarge
  {
  }

  /** Loading never changes the endpoint selection. */
  lemma LoadKeepsEndpoint(s: LoaderState, response: Response, fetch: Endpoint -> Response, formatter: DateFormatter, now: Date)
    ensures AfterRefresh(s).currentURL == s.currentURL
    ensures AfterResponse(s, response, formatter, now).currentURL == s.currentURL
    ensures AfterLoad(s, fetch, formatter, now).currentURL == s.currentURL
  {
  }

  /** A failed load leaves an empty list, not the previous one, and posts only "refreshing". */
  lemma FailedLoadEmptiesList(s: LoaderState, fetch: Endpoint -> Response, formatter: DateFormatter, now: Date)
    requires fetch(s.currentURL) == Failure
    ensures AfterLoad(s, fetch, formatter, now).earthquakes == []
    ensures AfterLoad(s, fetch, formatter, now).events == s.events + [Refreshing]
  {
  }

  /**
   * A successful load posts "refreshing" then exactly one "loaded", and its
   * list holds one record per array element, the k-th built from the k-th.
   */
  lemma SuccessfulLoadBuildsList(s: LoaderState, items: seq<Item>, fetch: Endpoint -> Response, formatter: DateFormatter, now: Date)
    requires fetch(s.currentURL) == Success(Some(Array(items)))
    ensures AfterLoad(s, fetch, formatter, now).events == s.events + [Refreshing, Loaded]
    ensures |AfterLoad(s, fetch, formatter, now).earthquakes| == |items|
    ensures forall k :: 0 <= k < |items| ==>
      BuiltFrom(AfterLoad(s, fetch, formatter, now).earthquakes[k], items[k], formatter, now)
  {
  }

  /** A success without a value, or with a value that is not an array, still posts "loaded" and leaves the list empty. */
  lemma SuccessWithoutArray(s: LoaderState, value: Option<JsonValue>, fetch: Endpoint -> Response, formatter: DateFormatter, now: Date)
    requires fetch(s.currentURL) == Success(value)
    requires value.None? || value == Some(Other)
    ensures AfterLoad(s, fetch, formatter, now).earthquakes == []
    ensures AfterLoad(s, fetch, formatter, now).events == s.events + [Refreshing, Loaded]
  {
  }

  /** An element whose date does not parse is kept, with `now` as its date. */
  lemma BadDateKeepsRecord(s: LoaderState, items: seq<Item>, k: nat, fetch: Endpoint -> Response, formatter: DateFormatter, now: Date)
    requires fetch(s.currentURL) == Success(Some(Array(items)))
    requires k < |items| && DateFromString(formatter, items[k].time).None?
    ensures |AfterLoad(s, fetch, formatter, now).earthquakes| == |items|
    ensures AfterLoad(s, fetch, formatter, now).earthquakes[k].date == now
    ensures AfterLoad(s, fetch, formatter, now).earthquakes[k].id == items[k].id
  {
  }

  /**
   * The list a load leaves depends on the selected endpoint's response only:
   * the old list is wholly discarded.
   */
  lemma LoadReplacesList(s1: LoaderState, s2: LoaderState, fetch: Endpoint -> Response, formatter: DateFormatter, now: Date)
    requires s1.currentURL == s2.currentURL
    ensures AfterLoad(s1, fetch, formatter, now).earthquakes == AfterLoad(s2, fetch, formatter, now).earthquakes
  {
  }

  /**
   * Switching to the large endpoint and back runs two loads, each answered
   * by the network as it is at that time (`fetch1`, then `fetch2`): the first
   * leaves the large endpoint's list, the second the small endpoint's, and
   * the signals are those of both loads in order.
   */
  lemma SwitchAndBack(s: LoaderState, fetch1: Endpoint -> Response, fetch2: Endpoint -> Response,
                      formatter: DateFormatter, now1: Date, now2: Date)
    ensures AfterSelect(s, true, fetch1, formatter, now1).currentURL == Large
    ensures AfterSelect(s, true, fetch1, formatter, now1).earthquakes == LoadedList(fetch1(Large), formatter, now1)
    ensures AfterSelect(AfterSelect(s, true, fetch1, formatter, now1), false, fetch2, formatter, now2).currentURL == Small
    ensures AfterSelect(AfterSelect(s, true, fetch1, formatter, now1), false, fetch2, formatter, now2).earthquakes
            == LoadedList(fetch2(Small), formatter, now2)
    ensures AfterSelect(AfterSelect(s, true, fetch1, formatter, now1), false, fetch2, formatter, now2).events
            == s.events + LoadEvents(fetch1(Large)) + LoadEvents(fetch2(Small))
  {
  }

  /**
   * Two loads started before either response arrives: both callbacks append
   * to the same list, so it ends up holding both responses' records, the
   * first-delivered ones first, just as if one response had carried both
   * arrays back to back.
   */
  lemma OverlappingLoadsConcatenate(s: LoaderState, v1: Option<JsonValue>, v2: Option<JsonValue>,
                                    formatter: DateFormatter, now1: Date, now2: Date)
    ensures AfterResponse(AfterResponse(AfterRefresh(AfterRefresh(s)), Success(v1), formatter, now1), Success(v2), formatter, now2).earthquakes
            == Records(Payload(v1), formatter, now1) + Records(Payload(v2), formatter, now2)
    ensures now1 == now2 ==>
            AfterResponse(AfterResponse(AfterRefresh(AfterRefresh(s)), Success(v1), formatter, now1), Success(v2), formatter, now2).earthquakes
            == Records(Payload(v1) + Payload(v2), formatter, now1)
    ensures AfterResponse(AfterResponse(AfterRefresh(AfterRefresh(s)), Success(v1), formatter, now1), Success(v2), formatter, now2).events
            == s.events + [Refreshing, Refreshing, Loaded, Loaded]
  {
    RecordsAppend(Payload(v1), Payload(v2), formatter, now1);
  }

  /** The loader object: its fields change in place as loads run. */
  class DataStore {
    var earthquakes: seq<Earthquake>
    var currentURL: Endpoint
    /** The notifications posted so far, oldest first. */
    var events: seq<Event>

    /** The fields viewed as one `LoaderState` value. */
    function State(): LoaderState
      reads this
    {
      LoaderState(currentURL, earthquakes, events)
    }

    /** A new store: small endpoint, empty list, nothing posted. */
    constructor ()
      ensures State() == LoaderState(Small, [], [])
      ensures !UsingLargeSet()
    {
      earthquakes := [];
      currentURL := Small;
      events := [];
    }

    /** `usingLargeSet`: whether the large endpoint is selected. */
    function UsingLargeSet(): (b: bool)
      reads this
    {
      currentURL == Large
    }

    /** `setUseLargeList`: select an endpoint, then load from it. */
    method SetUseLargeList(useLarge: bool, fetch: Endpoint -> Response, formatter: DateFormatter, now: Date)
      modifies this
      ensures State() == AfterSelect(old(State()), useLarge, fetch, formatter, now)
      ensures UsingLargeSet() == useLarge
    {
      if useLarge {
        currentURL := Large;
      } else {
        currentURL := Small;
      }
      LoadData(fetch, formatter, now);
    }

    /**
     * `loadData`: post "refreshing", clear the list, request the selected
     * endpoint (`fetch` answers the request) and handle its response.
     */
    method LoadData(fetch: Endpoint -> Response, formatter: DateFormatter, now: Date)
      modifies this
      ensures State() == AfterLoad(old(State()), fetch, formatter, now)
    {
      events := events + [Refreshing];
      earthquakes := [];
      HandleResponse(fetch(currentURL), formatter, now);
    }

    /** The request's completion handler: append one record per array element, then post "loaded". */
    method HandleResponse(response: Response, formatter: DateFormatter, now: Date)
      modifies this
      ensures State() == AfterResponse(old(State()), response, formatter, now)
    {
      match response
      case Success(value) =>
        if value.Some? {
          var items := ArrayValue(value.value);
          for i := 0 to |items|
            invariant earthquakes == old(earthquakes) + Records(items[..i], formatter, now)
            invariant currentURL == old(currentURL) && events == old(events)
          {
            assert items[..i + 1][..i] == items[..i];
            earthquakes := earthquakes + [ToEarthquake(items[i], formatter, now)];
          }
          assert items[..|items|] == items;
        }
        events := events + [Loaded];
      case Failure =>
        // the error is only logged
    }
  }
}
