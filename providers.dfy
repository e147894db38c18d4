/**
 * The routing providers: how a calculator's provider name is checked, what the
 * two backends send back, and how a reply is classified as a metric or as a
 * per-pair failure. Metrics are an opaque type `M`; the unit conversions the
 * adapters apply (seconds to minutes, meters to miles) are not modelled.
 */
module Providers {
  import opened Wrappers

  /** The two backends a calculator can be built for. */
  datatype Provider = MapQuest | Google

  datatype ConfigError = UnsupportedProvider(name: string)

  /** Lower-casing of one character (ASCII letters only). */
  function LowerChar(c: char): char {
    if 'A' <= c <= 'Z' then (c as int + 32) as char else c
  }

  function UpperChar(c: char): char {
    if 'a' <= c <= 'z' then (c as int - 32) as char else c
  }

  /** `str.lower()` */
  function Lower(s: string): (r: string)
    ensures |r| == |s|
  {
    seq(|s|, i requires 0 <= i < |s| => LowerChar(s[i]))
  }

  /** `name` spells `word` letter by letter, each letter in either case. */
  predicate SpelledIgnoringCase(name: string, word: string) {
    |name| == |word| &&
    forall i :: 0 <= i < |name| ==> name[i] == word[i] || name[i] == UpperChar(word[i])
  }

  predicate LowerCaseWord(word: string) {
    forall i :: 0 <= i < |word| ==> 'a' <= word[i] <= 'z'
  }

  /** The provider check of the calculators' constructors. */
  function ParseProvider(name: string): Result<Provider, ConfigError> {
    var lowered := Lower(name);
    if lowered == "mapquest" then Success(MapQuest)
    else if lowered == "google" then Success(Google)
    else Failure(UnsupportedProvider(name))
  }

  lemma LowerCharMatches(c: char, w: char)
    requires 'a' <= w <= 'z'
    ensures LowerChar(c) == w <==> c == w || c == UpperChar(w)
  {
  }

  lemma {:induction false} LowerMatches(name: string, word: string)
    requires LowerCaseWord(word)
    ensures Lower(name) == word <==> SpelledIgnoringCase(name, word)
  {
    if |name| == |word| {
      forall i | 0 <= i < |name|
        ensures Lower(name)[i] == word[i] <==> name[i] == word[i] || name[i] == UpperChar(word[i])
      {
        LowerCharMatches(name[i], word[i]);
      }
      if SpelledIgnoringCase(name, word) {
        assert forall i :: 0 <= i < |name| ==> Lower(name)[i] == word[i];
      }
    }
  }

  /** A provider name is accepted exactly when it is "mapquest" or "google" in any mix of cases. */
  lemma ProviderAcceptedIff(name: string)
    ensures ParseProvider(name) == Success(MapQuest) <==> SpelledIgnoringCase(name, "mapquest")
    ensures ParseProvider(name) == Success(Google) <==> SpelledIgnoringCase(name, "google")
    ensures ParseProvider(name).Failure? <==>
              !SpelledIgnoringCase(name, "mapquest") && !SpelledIgnoringCase(name, "google")
  {
    LowerMatches(name, "mapquest");
    LowerMatches(name, "google");
  }

  /** What the HTTP client hands back: a transport-level failure (connection
    * error, non-2xx status, an exception inside the client library) or the
    * decoded JSON body. */
  datatype Reply<B> = TransportFailure | Delivered(body: B)

  /** The parts of a MapQuest directions response the adapters read. */
  datatype MapQuestInfo = MapQuestInfo(statuscode: Option<int>)
  datatype MapQuestRoute<M> = MapQuestRoute(time: Option<M>, distance: Option<M>)
  datatype MapQuestBody<M> = MapQuestBody(info: Option<MapQuestInfo>, route: Option<MapQuestRoute<M>>)

  /** The parts of a Google distance-matrix response the adapters read. */
  datatype GoogleElement<M> = GoogleElement(status: Option<string>, duration: Option<M>, distance: Option<M>)
  datatype GoogleRow<M> = GoogleRow(elements: seq<GoogleElement<M>>)
  datatype GoogleBody<M> = GoogleBody(rows: seq<GoogleRow<M>>)

  /** Why one provider call failed. */
  datatype ProviderError =
    | TransportError
    | MapQuestStatusError(statuscode: Option<int>)
    | GoogleStatusError(status: string)
    | MalformedResponse

  datatype RouteInfo<M> = RouteInfo(time: M, distance: M)

  /** `data.get("info", {}).get("statuscode")` */
  function MapQuestStatus<M>(body: MapQuestBody<M>): Option<int> {
    if body.info.Some? then body.info.value.statuscode else None
  }

  /** The status gate shared by the MapQuest adapters: a missing `info` makes the
    * error message lookup itself fail; a status other than 0 is an API error;
    * then the `route` section must be present. */
  function MapQuestChecked<M>(reply: Reply<MapQuestBody<M>>): (r: Result<MapQuestRoute<M>, ProviderError>)
    ensures r.Success? <==> reply.Delivered? && MapQuestStatus(reply.body) == Some(0) && reply.body.route.Some?
    ensures r.Success? ==> r.value == reply.body.route.value
    ensures reply.Delivered? && reply.body.info.Some? && MapQuestStatus(reply.body) != Some(0) ==>
              r == Failure(MapQuestStatusError(MapQuestStatus(reply.body)))
  {
    match reply
    case TransportFailure => Failure(TransportError)
    case Delivered(body) =>
      if MapQuestStatus(body) != Some(0) then
        if body.info.None? then Failure(MalformedResponse)
        else Failure(MapQuestStatusError(MapQuestStatus(body)))
      else if body.route.None? then Failure(MalformedResponse)
      else Success(body.route.value)
  }

  /** The MapQuest time-only adapter: `route.time` once the status is 0. */
  function MapQuestTime<M>(reply: Reply<MapQuestBody<M>>): (r: Result<M, ProviderError>)
    ensures r.Success? ==> reply.Delivered? && MapQuestStatus(reply.body) == Some(0)
    ensures r.Success? <==> MapQuestChecked(reply).Success? && MapQuestChecked(reply).value.time.Some?
    ensures r.Success? ==> r.value == reply.body.route.value.time.value
  {
    match MapQuestChecked(reply)
    case Failure(e) => Failure(e)
    case Success(route) =>
      if route.time.Some? then Success(route.time.value) else Failure(MalformedResponse)
  }

  /** The MapQuest time-and-distance adapter: `route.time` and `route.distance` once the status is 0. */
  function MapQuestRouteInfo<M>(reply: Reply<MapQuestBody<M>>): (r: Result<RouteInfo<M>, ProviderError>)
    ensures r.Success? ==> reply.Delivered? && MapQuestStatus(reply.body) == Some(0)
    ensures r.Success? <==> MapQuestChecked(reply).Success? &&
                            MapQuestChecked(reply).value.time.Some? && MapQuestChecked(reply).value.distance.Some?
    ensures r.Success? ==>
              r.value == RouteInfo(reply.body.route.value.time.value, reply.body.route.value.distance.value)
  {
    match MapQuestChecked(reply)
    case Failure(e) => Failure(e)
    case Success(route) =>
      if route.time.Some? && route.distance.Some? then Success(RouteInfo(route.time.value, route.distance.value))
      else Failure(MalformedResponse)
  }

  /** The Google status gate: the single element `rows[0].elements[0]` must exist
    * and carry `status == "OK"`. */
  function GoogleChecked<M>(reply: Reply<GoogleBody<M>>): (r: Result<GoogleElement<M>, ProviderError>)
    ensures r.Success? <==>
              reply.Delivered? && |reply.body.rows| > 0 && |reply.body.rows[0].elements| > 0 &&
              reply.body.rows[0].elements[0].status == Some("OK")
    ensures r.Success? ==> r.value == reply.body.rows[0].elements[0]
  {
    match reply
    case TransportFailure => Failure(TransportError)
    case Delivered(body) =>
      if |body.rows| == 0 || |body.rows[0].elements| == 0 then Failure(MalformedResponse)
      else
        var element := body.rows[0].elements[0];
        if element.status.None? then Failure(MalformedResponse)
        else if element.status.value != "OK" then Failure(GoogleStatusError(element.status.value))
        else Success(element)
  }

  /** The Google time-only adapter: the element's `duration` once its status is "OK". */
  function GoogleTime<M>(reply: Reply<GoogleBody<M>>): (r: Result<M, ProviderError>)
    ensures r.Success? ==> GoogleChecked(reply).Success?
    ensures r.Success? <==> GoogleChecked(reply).Success? && GoogleChecked(reply).value.duration.Some?
    ensures r.Success? ==> r.value == reply.body.rows[0].elements[0].duration.value
  {
    match GoogleChecked(reply)
    case Failure(e) => Failure(e)
    case Success(element) =>
      if element.duration.Some? then Success(element.duration.value) else Failure(MalformedResponse)
  }

  /** The Google time-and-distance adapter: `duration` and `distance` once the status is "OK". */
  function GoogleRouteInfo<M>(reply: Reply<GoogleBody<M>>): (r: Result<RouteInfo<M>, ProviderError>)
    ensures r.Success? ==> GoogleChecked(reply).Success?
    ensures r.Success? <==> GoogleChecked(reply).Success? &&
                            GoogleChecked(reply).value.duration.Some? && GoogleChecked(reply).value.distance.Some?
    ensures r.Success? ==>
              r.value == RouteInfo(reply.body.rows[0].elements[0].duration.value,
                                   reply.body.rows[0].elements[0].distance.value)
  {
    match GoogleChecked(reply)
    case Failure(e) => Failure(e)
    case Success(element) =>
      if element.duration.Some? && element.distance.Some? then
        Success(RouteInfo(element.duration.value, element.distance.value))
      else Failure(MalformedResponse)
  }

  /** A time-and-distance reading contains the time-only reading of the same
    * reply, and the two differ only when the reply lacks a distance. */
  lemma MapQuestRouteInfoExtendsTime<M>(reply: Reply<MapQuestBody<M>>)
    ensures MapQuestRouteInfo(reply).Success? ==>
              MapQuestTime(reply) == Success(MapQuestRouteInfo(reply).value.time)
    ensures MapQuestTime(reply).Success? && reply.body.route.value.distance.Some? ==>
              MapQuestRouteInfo(reply).Success?
    ensures MapQuestTime(reply).Failure? ==> MapQuestRouteInfo(reply) == Failure(MapQuestTime(reply).error)
  {
  }

  lemma GoogleRouteInfoExtendsTime<M>(reply: Reply<GoogleBody<M>>)
    ensures GoogleRouteInfo(reply).Success? ==>
              GoogleTime(reply) == Success(GoogleRouteInfo(reply).value.time)
    ensures GoogleTime(reply).Success? && reply.body.rows[0].elements[0].distance.Some? ==>
              GoogleRouteInfo(reply).Success?
    ensures GoogleTime(reply).Failure? ==> GoogleRouteInfo(reply) == Failure(GoogleTime(reply).error)
  {
  }

  /** The replies of both backends, as functions of (origin, destination). */
  datatype Network<M> = Network(
    mapquest: (string, string) -> Reply<MapQuestBody<M>>,
    google: (string, string) -> Reply<GoogleBody<M>>)
}
