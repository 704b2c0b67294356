/**
 * Entities shared by the matching subscriber, the path-prefix method and the
 * context-exit handler: modifiers and their methods, match entries, URLs and
 * responses, and the mutable request, request event and per-request stores.
 */
module Purl {
  import opened Wrappers

  /** Server entry holding the request URI. */
  const RequestUriKey: string := "REQUEST_URI"
  /** Request attribute under which the matching subscriber publishes its match map. */
  const MatchedModifiersKey: string := "purl.matched_modifiers"
  /** Name of the kernel's request event both subscribers listen to. */
  const KernelRequest: string := "kernel.request"

  /**
   * A modifier method plugin. `PathPrefix` is the one detailed here; the other
   * two stand for plugins whose behaviour is given from outside: `ReadOnly`
   * only detects the modifier, `Altering` also implements request altering.
   */
  datatype Method = PathPrefix | ReadOnly(pluginId: string) | Altering(pluginId: string)

  /** The `instanceof RequestAlteringInterface` test. */
  predicate IsRequestAltering(m: Method)
  {
    m.PathPrefix? || m.Altering?
  }

  /** One configured modifier of the registry. */
  datatype Modifier = Modifier(providerId: string, key: string, plugin: Method, value: string)

  /** One entry of the match map built by the matching subscriber. */
  datatype Match = Match(plugin: Method, modifier: string, providerKey: string, value: string)

  /** A request attribute value: the match map, or any other value. */
  datatype Attribute = MatchMap(matches: seq<Match>) | Scalar(text: string)

  /** The request's server bag. */
  type Server = map<string, string>

  /**
   * Behaviour of the plugins other than the path prefix: whether a modifier key
   * is present in a request, and how an altering plugin rewrites a request
   * (`None` when its alterRequest returns a falsy value).
   */
  datatype Plugins = Plugins(
    contains: (string, string, Server) -> bool,
    alter: (string, string, Server) -> Option<Server>)

  datatype UrlOptions = UrlOptions(host: Option<string>, absolute: bool, purlExit: bool)

  /** A URL built from a route name, its raw parameters and the URL options. */
  datatype Url = Url(route: string, params: map<string, string>, options: UrlOptions)

  datatype Response =
    | TrustedRedirect(target: Url, maxAge: Option<int>)
    | Plain(status: int, content: string)

  /** The REQUEST_URI server entry; an absent one reads as the empty string. */
  function UriOf(server: Server): string
  {
    if RequestUriKey in server then server[RequestUriKey] else ""
  }

  /** What a kernel sees of a request it handles. */
  datatype RequestState = RequestState(server: Server, attributes: map<string, Attribute>)

  /** The HTTP kernel's sub-request entry point; the first argument numbers the call. */
  type Kernel = (nat, RequestState) -> Option<Response>

  class Request {
    var server: Server
    var attributes: map<string, Attribute>

    constructor (server: Server, attributes: map<string, Attribute>)
      ensures this.server == server && this.attributes == attributes
    {
      this.server := server;
      this.attributes := attributes;
    }

    function Uri(): string
      reads this
    {
      UriOf(server)
    }

    function State(): RequestState
      reads this
    {
      RequestState(server, attributes)
    }

    /** A copy of the request whose bags can be changed independently. */
    method Duplicate() returns (dup: Request)
      ensures fresh(dup)
      ensures dup.server == server && dup.attributes == attributes
    {
      dup := new Request(server, attributes);
    }

    method SetAttribute(key: string, value: Attribute)
      modifies this
      ensures attributes == old(attributes)[key := value]
      ensures server == old(server)
    {
      attributes := attributes[key := value];
    }
  }

  /** The kernel's request event: a request and the response a listener may set. */
  class RequestEvent {
    const request: Request
    var response: Option<Response>
    var propagationStopped: bool

    constructor (request: Request)
      ensures this.request == request
      ensures response == None && !propagationStopped
    {
      this.request := request;
      response := None;
      propagationStopped := false;
    }

    /** Setting a response also stops the event's propagation. */
    method SetResponse(r: Response)
      modifies this
      ensures response == Some(r) && propagationStopped
    {
      response := Some(r);
      propagationStopped := true;
    }
  }

  /** The "modifier matched" event: the request it was matched on and the match. */
  datatype MatchedEvent = MatchedEvent(
    request: Request, providerKey: string, plugin: Method, modifier: string, value: string)

  /** Per-request, append-only record of the matched-modifier events. */
  class MatchedModifiers {
    var matched: seq<MatchedEvent>

    constructor ()
      ensures matched == []
    {
      matched := [];
    }

    method Add(e: MatchedEvent)
      modifies this
      ensures matched == old(matched) + [e]
    {
      matched := matched + [e];
    }

    function GetMatched(): seq<MatchedEvent>
      reads this
    {
      matched
    }
  }

  /** The append-only sinks written to by the context-exit handler. */
  class Messages {
    /** Warnings of the "redirect" logger channel. */
    var warnings: seq<string>
    /** Status messages shown to the user. */
    var statuses: seq<string>

    constructor ()
      ensures warnings == [] && statuses == []
    {
      warnings := [];
      statuses := [];
    }

    method Warning(message: string)
      modifies this
      ensures warnings == old(warnings) + [message] && statuses == old(statuses)
    {
      warnings := warnings + [message];
    }

    method AddStatus(message: string)
      modifies this
      ensures statuses == old(statuses) + [message] && warnings == old(warnings)
    {
      statuses := statuses + [message];
    }
  }

  /** An entry of a subscriber's subscribed-events table. */
  datatype Subscription = Subscription(event: string, handler: string, priority: int)
}
