# Path-prefix URL context: request-side core

A Dafny model of the request side of a URL "context" module for a PHP web
framework. A context is carried in the URL by a modifier, here a path prefix
such as `/en`. On every request:

1. the matching subscriber tests every configured modifier against the
   request, keeps a match map keyed by provider, strips the prefix from a
   duplicate of the request for every request-altering match, records one
   "modifier matched" event per match, publishes the match map as the
   request attribute `purl.matched_modifiers` and re-dispatches the altered
   request through the kernel as a sub-request;
2. later on the same event, the context-exit handler decides for a node
   route whether to leave the context (a redirect to the base domain), to
   answer 503 because a redirect loop was raised, to warn that the node is
   unpublished, or to do nothing.

Modules:

- `Wrappers`: `Option`, standing for PHP's `null`/`false`.
- `Purl`: the shared entities. `Method` is a datatype with three variants:
  `PathPrefix`, `ReadOnly` (a plugin that only detects its modifier) and
  `Altering` (a plugin that also alters requests). The two opaque plugins
  take their behaviour from a `Plugins` value. There are datatypes for
  modifiers, match entries, URLs and responses. The request (its server bag
  and attribute map), the kernel's request event, the append-only
  `MatchedModifiers` store and the logger/messenger sinks are classes.
- `PathPrefixMethod`: the path-prefix method: `strpos`/`substr` as written
  in PHP 8, `contains`, `alterRequest` (in place, on the request object),
  `enterContext` and `exitContext`.
- `Subscriber`: the matching subscriber. The spec functions `BuildMatches`,
  `Thread`, `Events`, `Dispatches` and `LastResponse` each describe one of
  `onRequest`'s three loops. Each loop is a method proved against its
  function (`CollectMatches`, `AlterMatches`, `EmitMatches`).
  `RequestSubscriber.OnRequest` chains the three loops.
- `NodeContext`: the context-exit handler. `Decide` is its decision table as
  a pure function. `PurlNodeContextRoutes.PurlCheckNodeContext` applies the
  decision to the event and the message sinks.

Abstract inputs: the registry snapshot (`modifierIndex`), the opaque
plugins' `contains`/`alterRequest` (`Plugins`), and the HTTP kernel (a
function of the sub-dispatch's ordinal and the request state, returning
`Option<Response>`; the ordinal stands for whatever state the kernel changes
between calls). Also abstract: the exited-context listeners (a function from
the event to a response or a raised redirect loop), the `purl_base_domain`
setting (`Option<string>`), and the node's label, publication state and its
type's `keep_context` setting (plain values on `Node`).

Behaviour of the code worth noting:

- A later matching modifier of an already matched provider overwrites that
  provider's entry, which keeps its position (`$matches[$id] = …`).
- One matched event is emitted per match entry, whether or not its
  alteration succeeded.
- The sub-dispatch happens once per request-altering match. It is gated on
  the result of the LAST `alterRequest` of the second loop (`$newrequest`
  after the loop), the same for every match.
- `alterRequest` of the path prefix always returns the request, so it
  always reports an alteration.
- `exitContext` returns the prefix itself (see Findings).

## Model

| member | source | states |
|---|---|---|
| `Purl.UriOf` | src/Plugin/Purl/Method/PathPrefixMethod.php:39 | the request URI is the REQUEST_URI server entry, "" when it is absent |
| `Purl.IsRequestAltering` | src/Event/RequestSubscriber.php:88 | a method is request-altering (`instanceof RequestAlteringInterface`, also tested at line 111) exactly when it is the path prefix or an opaque altering plugin |
| `PathPrefixMethod.Substr` | src/Plugin/Purl/Method/PathPrefixMethod.php:40 | PHP 8 `substr($s, $start)`: the string from offset start, "" when start is past the end |
| `PathPrefixMethod.SubstrHead` | src/Plugin/Purl/Method/PathPrefixMethod.php:57 | PHP 8 `substr($s, 0, $length)`: the first length characters, the whole string when it is shorter |
| `PathPrefixMethod.Strpos` | src/Plugin/Purl/Method/PathPrefixMethod.php:24 | the result is the first offset at which the needle occurs, and None exactly when it occurs nowhere |
| `PathPrefixMethod.PathContains` | src/Plugin/Purl/Method/PathPrefixMethod.php:22-25 | true iff the path starts with "/" + modifier, as a raw character prefix |
| `PathPrefixMethod.Contains` | src/Plugin/Purl/Method/PathPrefixMethod.php:16-20 | true iff the request URI starts with "/" + modifier; as a function reading the request it changes nothing |
| `PathPrefixMethod.StripPrefix` | src/Plugin/Purl/Method/PathPrefixMethod.php:40 | the new path drops the first (length of identifier + 1) characters of the URI, whatever they are |
| `PathPrefixMethod.AlterRequest` | src/Plugin/Purl/Method/PathPrefixMethod.php:37-44 | sets REQUEST_URI to the old URI without its first (length of identifier + 1) characters, with no prefix check; the rest of the server bag and the attributes are unchanged; returns the same request, never false |
| `PathPrefixMethod.EnterContext` | src/Plugin/Purl/Method/PathPrefixMethod.php:46-49 | the entered path carries the modifier, and dropping its first (length of modifier + 1) characters gives the path back |
| `PathPrefixMethod.ExitContext` | src/Plugin/Purl/Method/PathPrefixMethod.php:51-58 | null iff the path does not start with "/" + modifier; otherwise exactly "/" + modifier |
| `PathPrefixMethod.ExitAfterEnter` | src/Plugin/Purl/Method/PathPrefixMethod.php:46-58 | exitContext of an entered path is always "/" + modifier, whatever the path |
| `PathPrefixMethod.StripInvertsEnter` | src/Plugin/Purl/Method/PathPrefixMethod.php:40-48 | contains holds on an entered path, and alterRequest's strip of it gives back the path |
| `PathPrefixMethod.SubstrTwice` | src/Plugin/Purl/Method/PathPrefixMethod.php:40 | two successive strips drop the sum of the two lengths (clamped at the end of the string) |
| `PathPrefixMethod.StripExamples` | src/Plugin/Purl/Method/PathPrefixMethod.php:40 | "/en/about" with "en" becomes "/about"; "/en" becomes "" |
| `PathPrefixMethod.RawPrefixMatch` | src/Plugin/Purl/Method/PathPrefixMethod.php:24 | "/english" contains "en", and is then stripped to "glish" |
| `PathPrefixMethod.ExitContextNotInverse` | src/Plugin/Purl/Method/PathPrefixMethod.php:57 | exitContext("en", "/en/about") is "/en", not "/about" |
| `PathPrefixMethod.ExitContextCorrected` | src/Plugin/Purl/Method/PathPrefixMethod.php:51-58 | null iff the prefix is absent; otherwise a value that enterContext maps back to the given path |
| `PathPrefixMethod.CorrectedExitAfterEnter` | src/Plugin/Purl/Method/PathPrefixMethod.php:46-58 | the corrected exitContext undoes enterContext for every path |
| `Subscriber.SubscribedEvents` | src/Event/RequestSubscriber.php:41-47 | one subscription: onRequest on the kernel's request event, at a priority above the router listener's 32 |
| `Subscriber.RequestSubscriber.GetModifiers` | src/Event/RequestSubscriber.php:52-55 | the modifiers are the registry snapshot's, in registry order |
| `Subscriber.MethodContains` | src/Event/RequestSubscriber.php:75 | `$method->contains($request, $modifierKey)`: the path prefix tests the URI with pathContains, an opaque plugin answers from the server bag |
| `Subscriber.Hit` | src/Event/RequestSubscriber.php:73-75 | a modifier hits when its own method contains its own key in the request |
| `Subscriber.BuildMatches` | src/Event/RequestSubscriber.php:69-84 | the match map after the first loop, never longer than the registry; its full characterisation is `BuildMatchesCorrect` |
| `Subscriber.Put` | src/Event/RequestSubscriber.php:76-82 | an existing provider key keeps its position and takes the new entry; a new key is appended at the end |
| `Subscriber.BuildMatchesCorrect` | src/Event/RequestSubscriber.php:69-84 | the match map has at most one entry per provider; a provider has an entry iff one of its modifiers' contains held on the original request; each entry is that provider's last matching modifier; entries stand in the order their providers first matched |
| `Subscriber.LastHitIsMatched` | src/Event/RequestSubscriber.php:75-82 | every provider's last matching modifier is in the match map with its method, key and value |
| `Subscriber.SameProviderLastWins` | src/Event/RequestSubscriber.php:76-82 | two matching modifiers "en" then "e" of one provider leave one entry, the second, and the working URI "/en/about" becomes "n/about" |
| `Subscriber.CollectMatches` | src/Event/RequestSubscriber.php:69-84 | the first loop computes BuildMatches of the registry on the unchanged request |
| `Subscriber.AlterRequest` | src/Event/RequestSubscriber.php:88-94 | a request-altering method rewrites the request in place and reports a truthy result exactly when its alteration applies |
| `Subscriber.AlterMatches` | src/Event/RequestSubscriber.php:86-96 | the second loop's working request has the server bag Thread computes, is a fresh duplicate exactly when some alteration was kept, and the request passed in is not changed |
| `Subscriber.MethodAlter` | src/Event/RequestSubscriber.php:91 | `alterRequest` on a duplicate: the path prefix always succeeds with the stripped REQUEST_URI, an opaque altering plugin returns a new bag or a falsy result, a read-only method never alters |
| `Subscriber.AlterStep` | src/Event/RequestSubscriber.php:88-95 | an altering entry's truthy result replaces the working bag and records true; a falsy one keeps the previous bag (the revert at 92-94) and records false; other entries change nothing |
| `Subscriber.Thread` | src/Event/RequestSubscriber.php:86-96 | the second loop's result: without a kept alteration the working server bag is the original one; a truthy last result means an alteration was kept; `$newrequest` stays unassigned iff no match is request-altering |
| `Subscriber.ThreadSkipsNonAltering` | src/Event/RequestSubscriber.php:88 | appending a match whose method is not request-altering leaves the working request and `$newrequest` as they were, whatever came before |
| `Subscriber.ThreadOnlyAltering` | src/Event/RequestSubscriber.php:86-96 | for every match map, the second loop ends in the same state as on its request-altering entries alone |
| `Subscriber.ThreadNonAltering` | src/Event/RequestSubscriber.php:86-96 | matches whose method is not request-altering leave the working request and `$newrequest` untouched |
| `Subscriber.ThreadPathPrefixes` | src/Event/RequestSubscriber.php:86-96 | with path-prefix methods, alterations accumulate: the working URI is the original without the sum of the prefix lengths, the last result is truthy and there is one sub-dispatch per altering match |
| `Subscriber.ThreadAllRefused` | src/Event/RequestSubscriber.php:89-94 | when every alterRequest returns falsy, the working request reverts to the original each time and nothing is sub-dispatched |
| `Subscriber.Events` | src/Event/RequestSubscriber.php:98-107 | exactly one matched event per match entry, in map order, each carrying the working request and the entry's provider, method, key and value |
| `Subscriber.Dispatches` | src/Event/RequestSubscriber.php:111-113 | the number of sub-dispatches: at most one per match, and none unless the last alterRequest result was truthy |
| `Subscriber.LastResponse` | src/Event/RequestSubscriber.php:112-116 | the response left by that many sub-dispatches of the published request state; what it means is stated by `LastResponseWins` |
| `Subscriber.LastResponseWins` | src/Event/RequestSubscriber.php:111-116 | the event's response is the last non-null sub-response; it stays unset iff every sub-dispatch returned null |
| `Subscriber.EmitMatches` | src/Event/RequestSubscriber.php:98-118 | the accumulator gains Events of the matches; the working request's attribute `purl.matched_modifiers` holds the full map iff there was a match; the response is the last non-null of Dispatches sub-responses and setting it stops propagation |
| `Subscriber.EmitOne` | src/Event/RequestSubscriber.php:99-117 | one iteration of the third loop: one matched event appended, the map published, the server bag unchanged, one more sub-dispatch exactly for a request-altering match after a truthy last result, and the response kept as the last non-null sub-response |
| `Subscriber.NoHitNoEffect` | src/Event/RequestSubscriber.php:67-118 | a registry none of whose modifiers hits the request gives an empty match map, no alteration, no event, no sub-dispatch and no response |
| `Subscriber.EnglishExample` | src/Event/RequestSubscriber.php:69-116 | "/en/about" with modifier "en" of provider "english" gives one match, working URI "/about" and one sub-dispatch |
| `Subscriber.RequestSubscriber.OnRequest` | src/Event/RequestSubscriber.php:62-119 | the whole pass: matches from the registry on the original request, cumulative alteration on duplicates, the original request's server bag and so its URI never rewritten (its attributes get the map when no alteration was kept), events appended in map order carrying the working request, the map attribute set, and the last non-null sub-response as the event's response |
| `Subscriber.RequestSubscriber.constructor` | src/Event/RequestSubscriber.php:32-39 | stores the modifier index and the matched-modifiers store |
| `NodeContext.Decide` | src/Event/PurlNodeContextRoutes.php:58-91 | no action on an admin route, without a match or without a node; no action when the node type keeps the context. A published node otherwise redirects: the listeners get a redirect to the same route and raw parameters with host = base domain, absolute and purl_exit set, max-age 0, and their response becomes the outcome; a redirect loop gives 503 with the loop's message as warning. An unpublished node gets one message starting with its label + " is currently unpublished." |
| `NodeContext.IsAdminRoute` | src/Event/PurlNodeContextRoutes.php:59-60 | a route is an admin route when its options carry `_admin_route` with a true value |
| `NodeContext.KeepsContext` | src/Event/PurlNodeContextRoutes.php:65 | the node type keeps the context only when `keep_context` is set and true (the same test at line 86) |
| `NodeContext.ExitsContext` | src/Event/PurlNodeContextRoutes.php:61-65 | the handler leaves the context on a non-admin route with a match and a node that is published and whose type does not keep the context |
| `NodeContext.ModifiersAttribute` | src/Event/PurlNodeContextRoutes.php:70 | the request's `purl.matched_modifiers` attribute, an empty map when it is unset |
| `NodeContext.ExitRedirect` | src/Event/PurlNodeContextRoutes.php:66-69 | the redirect out of context is a trusted redirect to the current route name and raw parameters, with host = the base domain and absolute and purl_exit set, cached for max-age 0 |
| `NodeContext.ExitEvent` | src/Event/PurlNodeContextRoutes.php:70-71 | the exited-context event carries the exit redirect, the route match and the request's match-map attribute |
| `NodeContext.UnpublishedMessage` | src/Event/PurlNodeContextRoutes.php:87 | the unpublished-node status message starts with the node's label followed by " is currently unpublished.", and has the label's length plus the fixed notice's length |
| `NodeContext.SubscribedEvents` | src/Event/PurlNodeContextRoutes.php:96-100 | one subscription: purlCheckNodeContext on the kernel's request event, at a priority below the router listener's 32 |
| `NodeContext.RunsAfterMatching` | src/Event/PurlNodeContextRoutes.php:96-100 | a record of the ordering of the registered constants: on the request event the handler's priority -21 is below the router listener's 32, which is below the matching subscriber's 50 |
| `NodeContext.PurlNodeContextRoutes.PurlCheckNodeContext` | src/Event/PurlNodeContextRoutes.php:58-91 | sets the event's response to the redirect or to 503 "Service unavailable", logs the loop warning, or adds the unpublished status, exactly as Decide says; otherwise changes nothing |
| `NodeContext.PurlNodeContextRoutes.constructor` | src/Event/PurlNodeContextRoutes.php:46-50 | stores the route match and the matched-modifiers store |

## Left out

- Request URI: `getRequestUri()` is taken to be the REQUEST_URI server entry, an absent entry reading as "". The framework's own URI normalisation is not modelled.
- `substr` follows PHP 8: a start past the end gives "". PHP 7's `false` for that case is not modelled.
- `Request::duplicate` is modelled as a copy of the server bag and the attribute map. Its other clones, and resets of cached values, are left out.
- The MODIFIER_MATCHED dispatch: the event is built and appended, but its listeners are outside this core, so their side effects are not modelled.
- The kernel is a pure function of the call ordinal and the request state. It cannot change the request, and a failing sub-dispatch (an exception) is not modelled.
- Nested runs inside a sub-dispatch are not modelled. In the source, `handle($request, SUB_REQUEST)` (src/Event/RequestSubscriber.php:112-113) dispatches the request event again, to the same subscriber objects. The nested `onRequest` then appends to the same matched-modifiers store whenever a modifier matches the stripped sub-request, and `purlCheckNodeContext` runs again. So the store gaining exactly `Events(ms, working)`, as `OnRequest` and `EmitMatches` state, holds only for a kernel whose sub-dispatches do not reach these subscribers.
- Opaque plugins see only the server bag: their `contains` cannot read the request's attributes, which the source's `contains(Request $request, …)` (src/Event/RequestSubscriber.php:75) could. An opaque altering plugin's `alterRequest` may rewrite any server entry, never the attributes. If such a plugin returns another request object, the source ignores it, and so does the model: only truthiness is kept.
- `getMethodForProvider` and `Provider::load` (src/Event/RequestSubscriber.php:57-60) are unused by `onRequest` and are a persistence lookup. The `provider` entity stored in a match entry is represented by its id only.
- The registry's `findAll` and the internals of the matched-modifiers store are not part of this model. They are a given sequence and an append-only sequence.
- Node-type storage: the handler loads the node type by bundle and reads its third-party settings. The model takes the resulting `keep_context` as part of the node, so a failing load (a fatal error in PHP) is not modelled. Truthiness of the setting and of `_admin_route` is abstracted to `bool`.
- `ExitedContextEvent` leaves out the request that src/Event/PurlNodeContextRoutes.php:71 also passes to the listeners; the listeners are given the route match and the match map instead.
- Strings: PHP's `strlen` and `substr` count bytes, the model counts `char`s. The two agree as long as each `char` stands for one byte of the URI.
- `Url::fromRoute`, `toString` and `TrustedRedirectResponse` become a record of route, raw parameters and options, and a redirect response with a cache max-age. The redirect's status and HTML body are not modelled.
- NodeContext.Decide: a redirect loop can only be raised by the exited-context listeners. In the source it could also come from building the redirect response (src/Event/PurlNodeContextRoutes.php:68); the outcome would be the same.
- The logger channel name ("redirect") and the messenger's `repeat` flag are not modelled. The sinks are append-only sequences of strings.
- The options arrays passed by reference to `enterContext` and `exitContext` are not written by either, so they are not parameters of the model.
- `Subscriber.Put` replaces every entry carrying the key. In a PHP array there is only one such entry, and `BuildMatchesCorrect` proves that keys stay unique.
- src/Menu/PurlMenuLinkTreeManipulators.php: `contexts` returns the tree unchanged before any of its code runs. It is the identity and is not modelled.

## Findings

| source | as written | input that shows it | evidently intended | confidence | as-written member | corrected member |
|---|---|---|---|---|---|---|
| src/Plugin/Purl/Method/PathPrefixMethod.php:57 | `substr($path, 0, strlen($modifier) + 1)` returns the prefix "/" + modifier | exitContext("en", "/en/about") returns "/en" | the path without its prefix, "/about", so that exitContext inverts enterContext, as `substr($uri, strlen($identifier) + 1)` does in alterRequest | medium, not executed | `PathPrefixMethod.ExitContextNotInverse` | `PathPrefixMethod.CorrectedExitAfterEnter` |
