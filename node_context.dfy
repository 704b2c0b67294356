/**
 * The context-exit handler on the kernel's request event: once a modifier has
 * matched on a node route, a published node whose type does not keep the
 * context is redirected to the base domain, and an unpublished one gets a
 * status message instead.
 */
module NodeContext {
  import opened Wrappers
  import opened Purl
  import Subscriber

  /** Runs after the router listener, and so after the matching subscriber. */
  const Priority: int := -21
  const AdminRouteOption: string := "_admin_route"
  const UnpublishedLead: string := " is currently unpublished."
  const UnpublishedNotice: string :=
    UnpublishedLead + " This node is set to remove the context, anonymous users will be redirected to the main base domain."
  const UnavailableStatus: int := 503
  const UnavailableBody: string := "Service unavailable"

  /** One subscription: purlCheckNodeContext on the request event, after the router listener. */
  function SubscribedEvents(): (r: seq<Subscription>)
    ensures |r| == 1 && r[0].event == KernelRequest && r[0].handler == "purlCheckNodeContext"
    ensures forall s :: s in r ==> s.priority < Subscriber.RouterListenerPriority
  {
    [Subscription(KernelRequest, "purlCheckNodeContext", Priority)]
  }

  /**
   * On the request event this handler runs after the router listener and so
   * after the matching subscriber, which runs before it.
   */
  lemma RunsAfterMatching()
    ensures forall s, t :: s in SubscribedEvents() && t in Subscriber.SubscribedEvents() && s.event == t.event ==>
              s.priority < Subscriber.RouterListenerPriority < t.priority
  {
  }

  /**
   * The route's `node` parameter: its label (title), publication state and the
   * `keep_context` third-party setting of its node type (None when unset).
   */
  datatype Node = Node(title: string, published: bool, keepContext: Option<bool>)

  /** The current route: name, raw parameters, options and the node parameter if any. */
  datatype RouteMatch = RouteMatch(
    routeName: string, rawParameters: map<string, string>, options: map<string, bool>, node: Option<Node>)

  /** The "exited context" event handed to its listeners. */
  datatype ExitedContextEvent = ExitedContextEvent(response: Response, route: RouteMatch, modifiers: Attribute)

  /** What the listeners of the exited-context event leave: a response, or a redirect loop raised. */
  datatype ListenerResult = Proceed(response: Response) | RedirectLoop(message: string)

  type ExitListeners = ExitedContextEvent -> ListenerResult

  datatype Outcome = PassThrough | Redirect(response: Response) | ServiceUnavailable(warning: string) | Warn(message: string)

  predicate IsAdminRoute(route: RouteMatch)
  {
    AdminRouteOption in route.options && route.options[AdminRouteOption]
  }

  /** `isset($settings['keep_context']) && $settings['keep_context']`. */
  predicate KeepsContext(node: Node)
  {
    node.keepContext == Some(true)
  }

  /** The request's match-map attribute, with an empty map as the default. */
  function ModifiersAttribute(attributes: map<string, Attribute>): Attribute
  {
    if MatchedModifiersKey in attributes then attributes[MatchedModifiersKey] else MatchMap([])
  }

  /** The redirect out of context: same route and raw parameters, pinned to the base domain, never cached. */
  function ExitRedirect(route: RouteMatch, baseDomain: Option<string>): (r: Response)
    ensures r.TrustedRedirect? && r.maxAge == Some(0)
    ensures r.target.route == route.routeName && r.target.params == route.rawParameters
    ensures r.target.options == UrlOptions(baseDomain, true, true)
  {
    TrustedRedirect(Url(route.routeName, route.rawParameters, UrlOptions(baseDomain, true, true)), Some(0))
  }

  /** The exited-context event the listeners are given. */
  function ExitEvent(route: RouteMatch, baseDomain: Option<string>, modifiers: Attribute): (e: ExitedContextEvent)
    ensures e.response == ExitRedirect(route, baseDomain) && e.route == route && e.modifiers == modifiers
  {
    ExitedContextEvent(ExitRedirect(route, baseDomain), route, modifiers)
  }

  /** The status message for an unpublished node: it starts with the node's title. */
  function UnpublishedMessage(title: string): (m: string)
    ensures title + UnpublishedLead <= m
    ensures |m| == |title| + |UnpublishedNotice|
  {
    var rest := UnpublishedNotice[|UnpublishedLead|..];
    assert title + UnpublishedNotice == (title + UnpublishedLead) + rest;
    title + UnpublishedNotice
  }

  /** The conditions under which the handler tries to leave the context. */
  predicate ExitsContext(route: RouteMatch, matched: bool)
  {
    !IsAdminRoute(route) && matched && route.node.Some? && route.node.value.published && !KeepsContext(route.node.value)
  }

  /**
   * The decision of purlCheckNodeContext, given whether any modifier matched,
   * the configured base domain, the request's match-map attribute and the
   * exited-context listeners.
   */
  function Decide(route: RouteMatch, matched: bool, baseDomain: Option<string>, modifiers: Attribute,
                  listeners: ExitListeners): (o: Outcome)
    ensures IsAdminRoute(route) || !matched || route.node.None? ==> o == PassThrough
    ensures o.Redirect? || o.ServiceUnavailable? <==> ExitsContext(route, matched)
    ensures ExitsContext(route, matched) && listeners(ExitEvent(route, baseDomain, modifiers)).Proceed? ==>
              o == Redirect(listeners(ExitEvent(route, baseDomain, modifiers)).response)
    ensures ExitsContext(route, matched) && listeners(ExitEvent(route, baseDomain, modifiers)).RedirectLoop? ==>
              o == ServiceUnavailable(listeners(ExitEvent(route, baseDomain, modifiers)).message)
    ensures o.Warn? <==> !IsAdminRoute(route) && matched && route.node.Some? && !route.node.value.published
                         && !KeepsContext(route.node.value)
    ensures o.Warn? ==> route.node.value.title + UnpublishedLead <= o.message
    ensures route.node.Some? && KeepsContext(route.node.value) ==> o == PassThrough
  {
    if IsAdminRoute(route) || !matched || route.node.None? then PassThrough
    else
      var node := route.node.value;
      if node.published then
        if KeepsContext(node) then PassThrough
        else
          match listeners(ExitEvent(route, baseDomain, modifiers))
          case Proceed(r) => Redirect(r)
          case RedirectLoop(message) => ServiceUnavailable(message)
      else if KeepsContext(node) then PassThrough
      else
        Warn(UnpublishedMessage(node.title))
  }

  class PurlNodeContextRoutes {
    const routeMatch: RouteMatch
    const matchedModifiers: MatchedModifiers

    constructor (routeMatch: RouteMatch, matchedModifiers: MatchedModifiers)
      ensures this.routeMatch == routeMatch && this.matchedModifiers == matchedModifiers
    {
      this.routeMatch := routeMatch;
      this.matchedModifiers := matchedModifiers;
    }

    /**
     * purlCheckNodeContext: sets the event's response to the listeners'
     * redirect, or to a 503 with the loop logged as a warning, or adds the
     * unpublished-node status message, as Decide says; otherwise nothing.
     */
    method PurlCheckNodeContext(event: RequestEvent, listeners: ExitListeners, baseDomain: Option<string>,
                                messages: Messages)
      modifies event, messages
      ensures var o := Decide(routeMatch, matchedModifiers.matched != [], baseDomain,
                              ModifiersAttribute(event.request.attributes), listeners);
        && event.response == (match o
                              case Redirect(r) => Some(r)
                              case ServiceUnavailable(_) => Some(Plain(UnavailableStatus, UnavailableBody))
                              case _ => old(event.response))
        && event.propagationStopped == (old(event.propagationStopped) || o.Redirect? || o.ServiceUnavailable?)
        && messages.warnings == old(messages.warnings) + (if o.ServiceUnavailable? then [o.warning] else [])
        && messages.statuses == old(messages.statuses) + (if o.Warn? then [o.message] else [])
    {
      var options := routeMatch.options;
      var isAdminRoute := AdminRouteOption in options && options[AdminRouteOption];
      if !isAdminRoute && matchedModifiers.GetMatched() != [] && routeMatch.node.Some? {
        var entity := routeMatch.node.value;
        var keepContext := entity.keepContext;
        if entity.published {
          if keepContext.None? || !keepContext.value {
            var url := Url(routeMatch.routeName, routeMatch.rawParameters, UrlOptions(baseDomain, true, true));
            var redirectResponse := TrustedRedirect(url, Some(0));
            var modifiers := ModifiersAttribute(event.request.attributes);
            var newEvent := ExitedContextEvent(redirectResponse, routeMatch, modifiers);
            match listeners(newEvent)
            case Proceed(response) =>
              event.SetResponse(response);
            case RedirectLoop(message) =>
              messages.Warning(message);
              event.SetResponse(Plain(UnavailableStatus, UnavailableBody));
          }
        } else {
          if keepContext.None? || !keepContext.value {
            messages.AddStatus(UnpublishedMessage(entity.title));
          }
        }
      }
    }
  }
}
