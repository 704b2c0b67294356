/**
 * The matching subscriber on the kernel's request event: it builds the match
 * map from the registry, threads a working request through every
 * request-altering match, then emits one matched event per match and
 * re-dispatches the working request as a sub-request.
 */
module Subscriber {
  import opened Wrappers
  import opened Purl
  import PathPrefixMethod

  /** Runs before the router listener, which comes in at 32. */
  const Priority: int := 50
  const RouterListenerPriority: int := 32

  /** One subscription: onRequest on the request event, ahead of the router listener. */
  function SubscribedEvents(): (r: seq<Subscription>)
    ensures |r| == 1 && r[0].event == KernelRequest && r[0].handler == "onRequest"
    ensures forall s :: s in r ==> s.priority > RouterListenerPriority
  {
    [Subscription(KernelRequest, "onRequest", Priority)]
  }

  // ---------------------------------------------------------------------------
  // Matching

  /** A method's contains(request, key), as a function of the request's server bag. */
  predicate MethodContains(plugin: Method, key: string, server: Server, plugins: Plugins)
  {
    match plugin
    case PathPrefix => PathPrefixMethod.PathContains(key, UriOf(server))
    case ReadOnly(id) => plugins.contains(id, key, server)
    case Altering(id) => plugins.contains(id, key, server)
  }

  /** The modifier's method finds its key in the request. */
  predicate Hit(m: Modifier, server: Server, plugins: Plugins)
  {
    MethodContains(m.plugin, m.key, server, plugins)
  }

  function MatchOf(m: Modifier): Match
  {
    Match(m.plugin, m.key, m.providerId, m.value)
  }

  predicate HasKey(ms: seq<Match>, key: string)
  {
    exists i :: 0 <= i < |ms| && ms[i].providerKey == key
  }

  /**
   * PHP's `$matches[$key] = $entry` on the match map, an association list in
   * insertion order: an existing key keeps its position and takes the new
   * entry, a new key is appended. (Keys are unique in a PHP array, so
   * replacing every entry with the key replaces the one entry.)
   */
  function Put(ms: seq<Match>, entry: Match): (r: seq<Match>)
    ensures HasKey(ms, entry.providerKey) ==> |r| == |ms|
    ensures !HasKey(ms, entry.providerKey) ==> r == ms + [entry]
    ensures forall j :: 0 <= j < |ms| ==>
              r[j] == if ms[j].providerKey == entry.providerKey then entry else ms[j]
  {
    if HasKey(ms, entry.providerKey) then
      seq(|ms|, j requires 0 <= j < |ms| => if ms[j].providerKey == entry.providerKey then entry else ms[j])
    else ms + [entry]
  }

  /** The first loop of onRequest: the match map after the modifiers, in registry order. */
  function BuildMatches(mods: seq<Modifier>, server: Server, plugins: Plugins): (r: seq<Match>)
    ensures |r| <= |mods|
    decreases |mods|
  {
    if mods == [] then []
    else
      var prev := BuildMatches(mods[..|mods| - 1], server, plugins);
      var m := mods[|mods| - 1];
      if Hit(m, server, plugins) then Put(prev, MatchOf(m)) else prev
  }

  /** Modifier k matches, and no later modifier of the same provider does. */
  ghost predicate LastHit(mods: seq<Modifier>, k: int, server: Server, plugins: Plugins)
  {
    && 0 <= k < |mods|
    && Hit(mods[k], server, plugins)
    && forall k' :: k < k' < |mods| && mods[k'].providerId == mods[k].providerId ==> !Hit(mods[k'], server, plugins)
  }

  /** Entry e is the data of a provider's last matching modifier. */
  ghost predicate FromLastHit(mods: seq<Modifier>, e: Match, server: Server, plugins: Plugins)
  {
    exists k :: LastHit(mods, k, server, plugins) && e == MatchOf(mods[k])
  }

  /** Some modifier of provider p matches. */
  ghost predicate HasHit(mods: seq<Modifier>, p: string, server: Server, plugins: Plugins)
  {
    exists k :: 0 <= k < |mods| && mods[k].providerId == p && Hit(mods[k], server, plugins)
  }

  /** Provider p has a matching modifier before any matching modifier of provider q. */
  ghost predicate HitBefore(mods: seq<Modifier>, p: string, q: string, server: Server, plugins: Plugins)
  {
    exists k :: && 0 <= k < |mods| && mods[k].providerId == p && Hit(mods[k], server, plugins)
                && forall k' :: 0 <= k' <= k && Hit(mods[k'], server, plugins) ==> mods[k'].providerId != q
  }

  lemma ExtendLastHit(mods: seq<Modifier>, k: int, server: Server, plugins: Plugins)
    requires |mods| > 0 && 0 <= k < |mods| - 1
    requires LastHit(mods[..|mods| - 1], k, server, plugins)
    requires Hit(mods[|mods| - 1], server, plugins) ==> mods[|mods| - 1].providerId != mods[k].providerId
    ensures LastHit(mods, k, server, plugins)
  {
    var pre := mods[..|mods| - 1];
    forall k' | k < k' < |mods| && mods[k'].providerId == mods[k].providerId
      ensures !Hit(mods[k'], server, plugins)
    {
      if k' < |mods| - 1 {
        assert pre[k'] == mods[k'];
      }
    }
  }

  lemma ExtendHitBefore(mods: seq<Modifier>, p: string, q: string, server: Server, plugins: Plugins)
    requires |mods| > 0
    requires HitBefore(mods[..|mods| - 1], p, q, server, plugins)
    ensures HitBefore(mods, p, q, server, plugins)
  {
    var pre := mods[..|mods| - 1];
    var k :| && 0 <= k < |pre| && pre[k].providerId == p && Hit(pre[k], server, plugins)
             && forall k' :: 0 <= k' <= k && Hit(pre[k'], server, plugins) ==> pre[k'].providerId != q;
    assert mods[k] == pre[k];
    forall k' | 0 <= k' <= k && Hit(mods[k'], server, plugins)
      ensures mods[k'].providerId != q
    {
      assert pre[k'] == mods[k'];
    }
  }

  /** The four facts BuildMatchesCorrect states, for an arbitrary candidate map r. */
  ghost predicate MatchMapFacts(mods: seq<Modifier>, r: seq<Match>, server: Server, plugins: Plugins)
  {
    && (forall i, j :: 0 <= i < j < |r| ==> r[i].providerKey != r[j].providerKey)
    && (forall i :: 0 <= i < |r| ==> FromLastHit(mods, r[i], server, plugins))
    && (forall p :: HasKey(r, p) <==> HasHit(mods, p, server, plugins))
    && (forall i, j :: 0 <= i < j < |r| ==> HitBefore(mods, r[i].providerKey, r[j].providerKey, server, plugins))
  }

  /** Facts about the modifiers before m that remain true once m is appended. */
  lemma StepCommon(pre: seq<Modifier>, m: Modifier, r0: seq<Match>, server: Server, plugins: Plugins)
    requires MatchMapFacts(pre, r0, server, plugins)
    ensures forall i, j :: 0 <= i < j < |r0| ==>
              HitBefore(pre + [m], r0[i].providerKey, r0[j].providerKey, server, plugins)
    ensures forall i :: 0 <= i < |r0| && (Hit(m, server, plugins) ==> r0[i].providerKey != m.providerId) ==>
              FromLastHit(pre + [m], r0[i], server, plugins)
    ensures forall p :: HasHit(pre + [m], p, server, plugins) <==>
              HasHit(pre, p, server, plugins) || (Hit(m, server, plugins) && m.providerId == p)
  {
    var mods := pre + [m];
    assert mods[..|mods| - 1] == pre;
    forall i, j | 0 <= i < j < |r0|
      ensures HitBefore(mods, r0[i].providerKey, r0[j].providerKey, server, plugins)
    {
      ExtendHitBefore(mods, r0[i].providerKey, r0[j].providerKey, server, plugins);
    }
    forall i | 0 <= i < |r0| && (Hit(m, server, plugins) ==> r0[i].providerKey != m.providerId)
      ensures FromLastHit(mods, r0[i], server, plugins)
    {
      assert FromLastHit(pre, r0[i], server, plugins);
      var k :| LastHit(pre, k, server, plugins) && r0[i] == MatchOf(pre[k]);
      ExtendLastHit(mods, k, server, plugins);
      assert mods[k] == pre[k];
    }
    forall p | HasHit(pre, p, server, plugins)
      ensures HasHit(mods, p, server, plugins)
    {
      var k :| 0 <= k < |pre| && pre[k].providerId == p && Hit(pre[k], server, plugins);
      assert mods[k] == pre[k];
    }
    forall p | HasHit(mods, p, server, plugins) && !(Hit(m, server, plugins) && m.providerId == p)
      ensures HasHit(pre, p, server, plugins)
    {
      var k :| 0 <= k < |mods| && mods[k].providerId == p && Hit(mods[k], server, plugins);
      assert k < |pre|;
      assert pre[k] == mods[k];
    }
    assert Hit(m, server, plugins) ==> mods[|pre|] == m && HasHit(mods, m.providerId, server, plugins);
  }

  /** A modifier that does not match leaves the map as it was. */
  lemma StepMiss(pre: seq<Modifier>, m: Modifier, r0: seq<Match>, server: Server, plugins: Plugins)
    requires MatchMapFacts(pre, r0, server, plugins)
    requires !Hit(m, server, plugins)
    ensures MatchMapFacts(pre + [m], r0, server, plugins)
  {
    var mods := pre + [m];
    StepCommon(pre, m, r0, server, plugins);
  }

  /** A matching modifier of a provider already in the map overwrites its entry in place. */
  lemma StepOverwrite(pre: seq<Modifier>, m: Modifier, r0: seq<Match>, server: Server, plugins: Plugins)
    requires MatchMapFacts(pre, r0, server, plugins)
    requires Hit(m, server, plugins) && HasKey(r0, m.providerId)
    ensures MatchMapFacts(pre + [m], Put(r0, MatchOf(m)), server, plugins)
  {
    var mods := pre + [m];
    var r := Put(r0, MatchOf(m));
    StepCommon(pre, m, r0, server, plugins);
    assert mods[|pre|] == m;
    assert LastHit(mods, |pre|, server, plugins);
    assert forall j :: 0 <= j < |r| ==> r[j].providerKey == r0[j].providerKey;
    forall i | 0 <= i < |r|
      ensures FromLastHit(mods, r[i], server, plugins)
    {
      if r0[i].providerKey == m.providerId {
        assert r[i] == MatchOf(mods[|pre|]);
      } else {
        assert r[i] == r0[i];
      }
    }
    forall p | HasKey(r, p) ensures HasKey(r0, p) {
      var i :| 0 <= i < |r| && r[i].providerKey == p;
      assert r0[i].providerKey == p;
    }
    forall p | HasKey(r0, p) ensures HasKey(r, p) {
      var i :| 0 <= i < |r0| && r0[i].providerKey == p;
      assert r[i].providerKey == p;
    }
  }

  /** A matching modifier of a new provider is appended at the end. */
  lemma StepAppend(pre: seq<Modifier>, m: Modifier, r0: seq<Match>, server: Server, plugins: Plugins)
    requires MatchMapFacts(pre, r0, server, plugins)
    requires Hit(m, server, plugins) && !HasKey(r0, m.providerId)
    ensures MatchMapFacts(pre + [m], Put(r0, MatchOf(m)), server, plugins)
  {
    var mods := pre + [m];
    var r := Put(r0, MatchOf(m));
    StepCommon(pre, m, r0, server, plugins);
    assert r == r0 + [MatchOf(m)];
    assert mods[|pre|] == m;
    assert LastHit(mods, |pre|, server, plugins);
    assert !HasHit(pre, m.providerId, server, plugins);
    forall i | 0 <= i < |r0|
      ensures HitBefore(mods, r0[i].providerKey, m.providerId, server, plugins)
    {
      assert FromLastHit(pre, r0[i], server, plugins);
      var k :| LastHit(pre, k, server, plugins) && r0[i] == MatchOf(pre[k]);
      assert mods[k] == pre[k];
      forall k' | 0 <= k' <= k && Hit(mods[k'], server, plugins)
        ensures mods[k'].providerId != m.providerId
      {
        assert pre[k'] == mods[k'];
      }
    }
    forall i | 0 <= i < |r|
      ensures FromLastHit(mods, r[i], server, plugins)
    {
      if i == |r0| {
        assert r[i] == MatchOf(mods[|pre|]);
      } else {
        assert r[i] == r0[i];
        assert r0[i].providerKey != m.providerId;
      }
    }
    forall p | HasKey(r, p) ensures HasKey(r0, p) || p == m.providerId {
      var i :| 0 <= i < |r| && r[i].providerKey == p;
      if i < |r0| { assert r0[i].providerKey == p; }
    }
    forall p | HasKey(r0, p) ensures HasKey(r, p) {
      var i :| 0 <= i < |r0| && r0[i].providerKey == p;
      assert r[i].providerKey == p;
    }
    assert r[|r0|].providerKey == m.providerId;
  }

  /**
   * The match map holds one entry per provider with a matching modifier and
   * nothing else; each entry is the data of that provider's LAST matching
   * modifier; and entries stand in the order in which their providers first
   * matched.
   */
  lemma {:induction false} BuildMatchesCorrect(mods: seq<Modifier>, server: Server, plugins: Plugins)
    ensures forall i, j :: 0 <= i < j < |BuildMatches(mods, server, plugins)| ==>
              BuildMatches(mods, server, plugins)[i].providerKey != BuildMatches(mods, server, plugins)[j].providerKey
    ensures forall i :: 0 <= i < |BuildMatches(mods, server, plugins)| ==>
              FromLastHit(mods, BuildMatches(mods, server, plugins)[i], server, plugins)
    ensures forall p :: HasKey(BuildMatches(mods, server, plugins), p) <==> HasHit(mods, p, server, plugins)
    ensures forall i, j :: 0 <= i < j < |BuildMatches(mods, server, plugins)| ==>
              HitBefore(mods, BuildMatches(mods, server, plugins)[i].providerKey,
                        BuildMatches(mods, server, plugins)[j].providerKey, server, plugins)
    decreases |mods|
  {
    BuildMatchesFacts(mods, server, plugins);
  }

  lemma {:induction false} BuildMatchesFacts(mods: seq<Modifier>, server: Server, plugins: Plugins)
    ensures MatchMapFacts(mods, BuildMatches(mods, server, plugins), server, plugins)
    decreases |mods|
  {
    if mods == [] {
      return;
    }
    var pre := mods[..|mods| - 1];
    var m := mods[|mods| - 1];
    assert mods == pre + [m];
    BuildMatchesFacts(pre, server, plugins);
    var r0 := BuildMatches(pre, server, plugins);
    if !Hit(m, server, plugins) {
      StepMiss(pre, m, r0, server, plugins);
    } else if HasKey(r0, m.providerId) {
      StepOverwrite(pre, m, r0, server, plugins);
    } else {
      StepAppend(pre, m, r0, server, plugins);
    }
  }

  /** Every provider's last matching modifier is in the match map, as it was configured. */
  lemma LastHitIsMatched(mods: seq<Modifier>, k: int, server: Server, plugins: Plugins)
    requires LastHit(mods, k, server, plugins)
    ensures MatchOf(mods[k]) in BuildMatches(mods, server, plugins)
  {
    var r := BuildMatches(mods, server, plugins);
    BuildMatchesCorrect(mods, server, plugins);
    assert HasHit(mods, mods[k].providerId, server, plugins);
    var i :| 0 <= i < |r| && r[i].providerKey == mods[k].providerId;
    assert FromLastHit(mods, r[i], server, plugins);
    var k2 :| LastHit(mods, k2, server, plugins) && r[i] == MatchOf(mods[k2]);
    assert k == k2;
  }

  // ---------------------------------------------------------------------------
  // Altering

  /** What the method's alterRequest does to a request's server bag; None for a falsy return. */
  function MethodAlter(plugin: Method, key: string, server: Server, plugins: Plugins): Option<Server>
  {
    match plugin
    case PathPrefix => Some(server[RequestUriKey := PathPrefixMethod.StripPrefix(UriOf(server), key)])
    case Altering(id) => plugins.alter(id, key, server)
    case ReadOnly(_) => None
  }

  /**
   * The state after the second loop: the working request's server bag, the
   * truthiness of the last alterRequest result (`$newrequest`, None while
   * unassigned), and whether any alteration was kept.
   */
  datatype Threaded = Threaded(server: Server, newRequest: Option<bool>, altered: bool)

  /**
   * One iteration of the second loop: a request-altering match alters the
   * working request and records the result's truthiness; a falsy result keeps
   * the previous working request. Other matches change nothing.
   */
  function AlterStep(t: Threaded, m: Match, plugins: Plugins): Threaded
  {
    if !IsRequestAltering(m.plugin) then t
    else
      match MethodAlter(m.plugin, m.modifier, t.server, plugins)
      case Some(s) => Threaded(s, Some(true), true)
      case None => Threaded(t.server, Some(false), t.altered)
  }

  /** The second loop of onRequest over the match map. */
  function Thread(ms: seq<Match>, server: Server, plugins: Plugins): (r: Threaded)
    ensures !r.altered ==> r.server == server
    ensures r.newRequest == Some(true) ==> r.altered
    ensures r.newRequest.None? <==> CountAltering(ms) == 0
    decreases |ms|
  {
    if ms == [] then Threaded(server, None, false)
    else AlterStep(Thread(ms[..|ms| - 1], server, plugins), ms[|ms| - 1], plugins)
  }

  /** Appending a match to the map adds one iteration of the second loop. */
  lemma ThreadAppend(ms: seq<Match>, m: Match, server: Server, plugins: Plugins)
    ensures Thread(ms + [m], server, plugins) == AlterStep(Thread(ms, server, plugins), m, plugins)
  {
    assert (ms + [m])[..|ms|] == ms;
  }

  function CountAltering(ms: seq<Match>): (r: nat)
    ensures r <= |ms|
    decreases |ms|
  {
    if ms == [] then 0
    else CountAltering(ms[..|ms| - 1]) + if IsRequestAltering(ms[|ms| - 1].plugin) then 1 else 0
  }

  /** Characters the path-prefix matches strip: |key| + 1 each. */
  function Consumed(ms: seq<Match>): nat
    decreases |ms|
  {
    if ms == [] then 0
    else Consumed(ms[..|ms| - 1]) + if ms[|ms| - 1].plugin.PathPrefix? then |ms[|ms| - 1].modifier| + 1 else 0
  }

  /**
   * The number of sub-dispatches of the third loop: one per request-altering
   * match, all gated on the last alterRequest result of the second loop.
   */
  function Dispatches(ms: seq<Match>, newRequest: Option<bool>): (r: nat)
    ensures r <= |ms|
    ensures r > 0 ==> newRequest == Some(true)
  {
    if newRequest == Some(true) then CountAltering(ms) else 0
  }

  /** The request-altering entries of a match map, in map order. */
  function AlteringEntries(ms: seq<Match>): (r: seq<Match>)
    ensures |r| == CountAltering(ms)
    ensures forall i :: 0 <= i < |r| ==> IsRequestAltering(r[i].plugin)
    ensures forall x :: x in r ==> x in ms
    decreases |ms|
  {
    if ms == [] then []
    else AlteringEntries(ms[..|ms| - 1]) + if IsRequestAltering(ms[|ms| - 1].plugin) then [ms[|ms| - 1]] else []
  }

  /** A match whose method does not alter requests leaves the working request and the last result alone. */
  lemma ThreadSkipsNonAltering(ms: seq<Match>, m: Match, server: Server, plugins: Plugins)
    requires !IsRequestAltering(m.plugin)
    ensures Thread(ms + [m], server, plugins) == Thread(ms, server, plugins)
  {
    ThreadAppend(ms, m, server, plugins);
  }

  /** Only the request-altering matches decide the second loop, wherever the others stand. */
  lemma {:induction false} ThreadOnlyAltering(ms: seq<Match>, server: Server, plugins: Plugins)
    ensures Thread(ms, server, plugins) == Thread(AlteringEntries(ms), server, plugins)
    decreases |ms|
  {
    if ms != [] {
      var pre := ms[..|ms| - 1];
      var m := ms[|ms| - 1];
      ThreadOnlyAltering(pre, server, plugins);
      var a := AlteringEntries(pre);
      assert Thread(ms, server, plugins) == AlterStep(Thread(pre, server, plugins), m, plugins);
      if IsRequestAltering(m.plugin) {
        assert AlteringEntries(ms) == a + [m];
        ThreadAppend(a, m, server, plugins);
      } else {
        assert AlteringEntries(ms) == a + [];
        assert a + [] == a;
      }
    }
  }

  /** Matches whose method does not alter requests leave the working request alone. */
  lemma ThreadNonAltering(ms: seq<Match>, server: Server, plugins: Plugins)
    requires forall i :: 0 <= i < |ms| ==> !IsRequestAltering(ms[i].plugin)
    ensures Thread(ms, server, plugins) == Threaded(server, None, false)
    ensures CountAltering(ms) == 0
  {
    ThreadOnlyAltering(ms, server, plugins);
    if AlteringEntries(ms) != [] {
      assert false;
    }
  }

  /**
   * With path-prefix methods only, the alterations are cumulative: the working
   * URI is the original one with every prefix length stripped in turn, every
   * alterRequest result is truthy, and there is one sub-dispatch per
   * path-prefix match.
   */
  lemma {:induction false} ThreadPathPrefixes(ms: seq<Match>, server: Server, plugins: Plugins)
    requires forall i :: 0 <= i < |ms| ==> !ms[i].plugin.Altering?
    ensures var t := Thread(ms, server, plugins);
      && t.server == (if CountAltering(ms) == 0 then server
                      else server[RequestUriKey := PathPrefixMethod.Substr(UriOf(server), Consumed(ms))])
      && t.newRequest == (if CountAltering(ms) == 0 then None else Some(true))
      && t.altered == (CountAltering(ms) > 0)
      && Dispatches(ms, t.newRequest) == CountAltering(ms)
      && (CountAltering(ms) == 0 ==> Consumed(ms) == 0)
    decreases |ms|
  {
    if ms != [] {
      var pre := ms[..|ms| - 1];
      var m := ms[|ms| - 1];
      assert forall i :: 0 <= i < |pre| ==> pre[i] == ms[i];
      ThreadPathPrefixes(pre, server, plugins);
      var t := Thread(pre, server, plugins);
      if m.plugin.PathPrefix? {
        var stripped := PathPrefixMethod.StripPrefix(UriOf(t.server), m.modifier);
        assert Thread(ms, server, plugins) == Threaded(t.server[RequestUriKey := stripped], Some(true), true);
        if CountAltering(pre) > 0 {
          var uri := PathPrefixMethod.Substr(UriOf(server), Consumed(pre));
          assert UriOf(t.server) == uri;
          PathPrefixMethod.SubstrTwice(UriOf(server), Consumed(pre), |m.modifier| + 1);
          assert t.server[RequestUriKey := stripped] == server[RequestUriKey := PathPrefixMethod.Substr(UriOf(server), Consumed(ms))];
        }
      }
    }
  }

  /**
   * A falsy alterRequest reverts the working request: when no alteration
   * succeeds, the working request is the original one and, as soon as an
   * altering method was tried, nothing is sub-dispatched.
   */
  lemma {:induction false} ThreadAllRefused(ms: seq<Match>, server: Server, plugins: Plugins)
    requires forall i :: 0 <= i < |ms| ==> MethodAlter(ms[i].plugin, ms[i].modifier, server, plugins).None?
    ensures var t := Thread(ms, server, plugins);
      && t.server == server && !t.altered
      && t.newRequest == (if CountAltering(ms) == 0 then None else Some(false))
      && Dispatches(ms, t.newRequest) == 0
    decreases |ms|
  {
    if ms != [] {
      ThreadAllRefused(ms[..|ms| - 1], server, plugins);
    }
  }

  // ---------------------------------------------------------------------------
  // Emitting

  function EventOf(request: Request, m: Match): MatchedEvent
  {
    MatchedEvent(request, m.providerKey, m.plugin, m.modifier, m.value)
  }

  /** The matched events of the third loop, one per match entry, in map order. */
  function Events(ms: seq<Match>, request: Request): (r: seq<MatchedEvent>)
    ensures |r| == |ms|
    ensures forall i :: 0 <= i < |ms| ==> r[i] == EventOf(request, ms[i])
    decreases |ms|
  {
    if ms == [] then [] else Events(ms[..|ms| - 1], request) + [EventOf(request, ms[|ms| - 1])]
  }

  /**
   * The response left by n sub-dispatches of the same request state, each
   * one replacing the response when it is not null.
   */
  function LastResponse(kernel: Kernel, state: RequestState, n: nat): Option<Response>
    decreases n
  {
    if n == 0 then None
    else if kernel(n - 1, state).Some? then kernel(n - 1, state)
    else LastResponse(kernel, state, n - 1)
  }

  /**
   * The last non-null sub-response wins: the result is null exactly when every
   * sub-dispatch returned null, and otherwise it is the response of a
   * sub-dispatch after which every one returned null.
   */
  lemma {:induction false} LastResponseWins(kernel: Kernel, state: RequestState, n: nat)
    ensures LastResponse(kernel, state, n).None? <==> forall j :: 0 <= j < n ==> kernel(j, state).None?
    ensures LastResponse(kernel, state, n).Some? ==>
              exists j :: && 0 <= j < n && LastResponse(kernel, state, n) == kernel(j, state)
                          && forall j' :: j < j' < n ==> kernel(j', state).None?
    decreases n
  {
    if n > 0 && kernel(n - 1, state).None? {
      LastResponseWins(kernel, state, n - 1);
    }
  }

  /**
   * A registry none of whose modifiers hits the request gives an empty match
   * map: nothing is altered, nothing is emitted and nothing is sub-dispatched.
   */
  lemma {:induction false} NoHitNoEffect(mods: seq<Modifier>, server: Server, plugins: Plugins, kernel: Kernel,
                                         state: RequestState, request: Request)
    requires forall k :: 0 <= k < |mods| ==> !Hit(mods[k], server, plugins)
    ensures var ms := BuildMatches(mods, server, plugins);
      var t := Thread(ms, server, plugins);
      && ms == []
      && t == Threaded(server, None, false)
      && Events(ms, request) == []
      && LastResponse(kernel, state, Dispatches(ms, t.newRequest)) == None
    decreases |mods|
  {
    if mods != [] {
      var pre := mods[..|mods| - 1];
      assert forall k :: 0 <= k < |pre| ==> pre[k] == mods[k];
      NoHitNoEffect(pre, server, plugins, kernel, state, request);
    }
  }

  /**
   * The worked example: request "/en/about" and one path-prefix modifier "en"
   * of provider "english". One match, working URI "/about", one sub-dispatch.
   */
  lemma EnglishExample(value: string, server: Server, plugins: Plugins)
    requires server == map[RequestUriKey := "/en/about"]
    ensures var mods := [Modifier("english", "en", PathPrefix, value)];
      var ms := BuildMatches(mods, server, plugins);
      && ms == [Match(PathPrefix, "en", "english", value)]
      && UriOf(Thread(ms, server, plugins).server) == "/about"
      && Dispatches(ms, Thread(ms, server, plugins).newRequest) == 1
  {
    var mods := [Modifier("english", "en", PathPrefix, value)];
    assert mods[..0] == [];
    assert UriOf(server) == "/en/about";
    assert "/" + "en" <= "/en/about";
    assert Hit(mods[0], server, plugins);
    assert BuildMatches(mods[..0], server, plugins) == [];
    var ms := BuildMatches(mods, server, plugins);
    assert ms == [Match(PathPrefix, "en", "english", value)];
    assert ms[..0] == [];
    assert "/en/about"[3..] == "/about";
    assert Thread(ms, server, plugins).newRequest == Some(true);
    assert CountAltering(ms) == 1;
  }

  /**
   * Two matching modifiers of one provider: the later one's data replaces the
   * earlier entry, and only its prefix is stripped.
   */
  lemma SameProviderLastWins(server: Server, plugins: Plugins)
    requires server == map[RequestUriKey := "/en/about"]
    ensures var mods := [Modifier("english", "en", PathPrefix, "a"), Modifier("english", "e", PathPrefix, "b")];
      var ms := BuildMatches(mods, server, plugins);
      && ms == [Match(PathPrefix, "e", "english", "b")]
      && UriOf(Thread(ms, server, plugins).server) == "n/about"
  {
    var mods := [Modifier("english", "en", PathPrefix, "a"), Modifier("english", "e", PathPrefix, "b")];
    assert mods[..1] == [mods[0]];
    assert [mods[0]][..0] == [];
    assert UriOf(server) == "/en/about";
    assert "/" + "en" <= "/en/about";
    assert "/" + "e" <= "/en/about";
    assert Hit(mods[0], server, plugins) && Hit(mods[1], server, plugins);
    assert BuildMatches(mods[..1][..0], server, plugins) == [];
    var first := BuildMatches(mods[..1], server, plugins);
    assert first == [Match(PathPrefix, "en", "english", "a")];
    assert first[0].providerKey == "english";
    var ms := BuildMatches(mods, server, plugins);
    assert ms == [Match(PathPrefix, "e", "english", "b")];
    assert ms[..0] == [];
    assert "/en/about"[2..] == "n/about";
  }

  // ---------------------------------------------------------------------------
  // The subscriber

  class RequestSubscriber {
    /** The modifier index's findAll(): a snapshot of the configured modifiers. */
    const modifierIndex: seq<Modifier>
    const matchedModifiers: MatchedModifiers

    constructor (modifierIndex: seq<Modifier>, matchedModifiers: MatchedModifiers)
      ensures this.modifierIndex == modifierIndex && this.matchedModifiers == matchedModifiers
    {
      this.modifierIndex := modifierIndex;
      this.matchedModifiers := matchedModifiers;
    }

    /** findAll on the registry: every modifier of the snapshot, in registry order. */
    function GetModifiers(): (r: seq<Modifier>)
      ensures r == modifierIndex
    {
      modifierIndex
    }

    /**
     * onRequest. Returns the working request the matched events carry (the
     * event's own request when no alteration was kept, otherwise the last
     * kept duplicate); the event's request keeps its server bag, and so its URI.
     */
    method OnRequest(event: RequestEvent, plugins: Plugins, kernel: Kernel) returns (working: Request)
      modifies event, event.request, matchedModifiers
      ensures var ms := BuildMatches(modifierIndex, old(event.request.server), plugins);
        var t := Thread(ms, old(event.request.server), plugins);
        var attrs := if ms == [] then old(event.request.attributes)
                     else old(event.request.attributes)[MatchedModifiersKey := MatchMap(ms)];
        var r := LastResponse(kernel, RequestState(t.server, attrs), Dispatches(ms, t.newRequest));
        && (if t.altered then fresh(working) else working == event.request)
        && working.server == t.server
        && working.attributes == attrs
        && event.request.server == old(event.request.server)
        && (t.altered ==> event.request.attributes == old(event.request.attributes))
        && matchedModifiers.matched == old(matchedModifiers.matched) + Events(ms, working)
        && event.response == (if r.Some? then r else old(event.response))
        && event.propagationStopped == (old(event.propagationStopped) || r.Some?)
    {
      var request := event.request;
      var modifiers := GetModifiers();
      var matches := CollectMatches(request, modifiers, plugins);
      var newrequest;
      working, newrequest := AlterMatches(request, matches, plugins);
      EmitMatches(event, working, matches, newrequest, matchedModifiers, kernel);
    }
  }

  /** The first loop of onRequest: test every modifier against the unchanged request. */
  method CollectMatches(request: Request, modifiers: seq<Modifier>, plugins: Plugins) returns (matches: seq<Match>)
    ensures matches == BuildMatches(modifiers, request.server, plugins)
  {
    matches := [];
    for i := 0 to |modifiers|
      invariant matches == BuildMatches(modifiers[..i], request.server, plugins)
    {
      var modifier := modifiers[i];
      var hit := if modifier.plugin.PathPrefix? then PathPrefixMethod.Contains(request, modifier.key)
                 else plugins.contains(modifier.plugin.pluginId, modifier.key, request.server);
      if hit {
        matches := Put(matches, MatchOf(modifier));
      }
      assert modifiers[..i + 1][..i] == modifiers[..i];
    }
    assert modifiers[..|modifiers|] == modifiers;
  }

  /**
   * The second loop of onRequest: each request-altering match alters a
   * duplicate of the current working request, which is dropped again when
   * alterRequest returns a falsy value. The request passed in is not changed.
   */
  method AlterMatches(request: Request, matches: seq<Match>, plugins: Plugins)
    returns (working: Request, newrequest: Option<bool>)
    ensures var t := Thread(matches, request.server, plugins);
      && working.server == t.server && newrequest == t.newRequest
      && (if t.altered then fresh(working) else working == request)
      && working.attributes == request.attributes
  {
    working := request;
    newrequest := None;
    for i := 0 to |matches|
      invariant var t := Thread(matches[..i], request.server, plugins);
        && working.server == t.server && newrequest == t.newRequest
        && (if t.altered then fresh(working) else working == request)
        && working.attributes == request.attributes
    {
      var entry := matches[i];
      assert matches[..i + 1][..i] == matches[..i];
      if IsRequestAltering(entry.plugin) {
        var oldrequest := working;
        working := working.Duplicate();
        var truthy := AlterRequest(entry.plugin, working, entry.modifier, plugins);
        newrequest := Some(truthy);
        if !truthy {
          working := oldrequest;
        }
      }
    }
    assert matches[..|matches|] == matches;
  }

  /**
   * The third loop of onRequest: per match, dispatch and record a matched
   * event carrying the working request, publish the whole match map on that
   * request, and sub-dispatch it for a request-altering match when the last
   * alterRequest result was truthy; a non-null sub-response becomes the
   * event's response.
   */
  method EmitMatches(event: RequestEvent, request: Request, matches: seq<Match>, newrequest: Option<bool>,
                     matchedModifiers: MatchedModifiers, kernel: Kernel)
    modifies event, request, matchedModifiers
    ensures var attrs := if matches == [] then old(request.attributes)
                         else old(request.attributes)[MatchedModifiersKey := MatchMap(matches)];
      var r := LastResponse(kernel, RequestState(old(request.server), attrs), Dispatches(matches, newrequest));
      && request.server == old(request.server)
      && request.attributes == attrs
      && matchedModifiers.matched == old(matchedModifiers.matched) + Events(matches, request)
      && event.response == (if r.Some? then r else old(event.response))
      && event.propagationStopped == (old(event.propagationStopped) || r.Some?)
  {
    ghost var attrs := if matches == [] then request.attributes
                       else request.attributes[MatchedModifiersKey := MatchMap(matches)];
    ghost var state := RequestState(request.server, attrs);
    var calls: nat := 0;
    assert matches[..0] == [];
    for i := 0 to |matches|
      invariant request.server == old(request.server)
      invariant request.attributes == if i == 0 then old(request.attributes) else attrs
      invariant matchedModifiers.matched == old(matchedModifiers.matched) + Events(matches[..i], request)
      invariant calls == Dispatches(matches[..i], newrequest)
      invariant var r := LastResponse(kernel, state, calls);
        && event.response == (if r.Some? then r else old(event.response))
        && event.propagationStopped == (old(event.propagationStopped) || r.Some?)
    {
      EmitStep(matches, i, request, newrequest);
      calls := EmitOne(event, request, matches, i, newrequest, matchedModifiers, kernel, calls,
                       state, old(event.response), old(event.propagationStopped));
    }
    assert matches[..|matches|] == matches;
  }

  /**
   * One iteration of the third loop on entry i: dispatch and record its
   * matched event, publish the match map on the working request and, for a
   * request-altering entry after a truthy last alteration, sub-dispatch the
   * request; a non-null sub-response replaces the event's response.
   * `state` is the request's state once the map is published, `base` and
   * `stopped` the event's response and propagation flag before the loop.
   */
  method EmitOne(event: RequestEvent, request: Request, matches: seq<Match>, i: nat, newrequest: Option<bool>,
                 matchedModifiers: MatchedModifiers, kernel: Kernel, calls: nat,
                 ghost state: RequestState, ghost base: Option<Response>, ghost stopped: bool)
    returns (next: nat)
    requires i < |matches|
    requires state == RequestState(request.server, request.attributes[MatchedModifiersKey := MatchMap(matches)])
    requires event.response == (if LastResponse(kernel, state, calls).Some? then LastResponse(kernel, state, calls) else base)
    requires event.propagationStopped == (stopped || LastResponse(kernel, state, calls).Some?)
    modifies event, request, matchedModifiers
    ensures request.server == old(request.server)
    ensures request.attributes == old(request.attributes)[MatchedModifiersKey := MatchMap(matches)]
    ensures matchedModifiers.matched == old(matchedModifiers.matched) + [EventOf(request, matches[i])]
    ensures next == calls + if IsRequestAltering(matches[i].plugin) && newrequest == Some(true) then 1 else 0
    ensures event.response == (if LastResponse(kernel, state, next).Some? then LastResponse(kernel, state, next) else base)
    ensures event.propagationStopped == (stopped || LastResponse(kernel, state, next).Some?)
  {
    var entry := matches[i];
    var modifierEvent := MatchedEvent(request, entry.providerKey, entry.plugin, entry.modifier, entry.value);
    matchedModifiers.Add(modifierEvent);
    request.SetAttribute(MatchedModifiersKey, MatchMap(matches));
    next := calls;
    if IsRequestAltering(entry.plugin) && newrequest == Some(true) {
      var response := kernel(calls, request.State());
      next := calls + 1;
      if response.Some? {
        event.SetResponse(response.value);
      }
    }
  }

  /** One more match entry adds one matched event, and one sub-dispatch when it alters requests. */
  lemma EmitStep(ms: seq<Match>, i: nat, request: Request, newrequest: Option<bool>)
    requires i < |ms|
    ensures Events(ms[..i + 1], request) == Events(ms[..i], request) + [EventOf(request, ms[i])]
    ensures Dispatches(ms[..i + 1], newrequest)
            == Dispatches(ms[..i], newrequest) + if IsRequestAltering(ms[i].plugin) && newrequest == Some(true) then 1 else 0
  {
    assert ms[..i + 1][..i] == ms[..i];
  }

  /**
   * The method's alterRequest on the working request: rewrites it in place and
   * reports whether the result was truthy.
   */
  method AlterRequest(plugin: Method, request: Request, key: string, plugins: Plugins) returns (truthy: bool)
    requires IsRequestAltering(plugin)
    modifies request
    ensures var altered := MethodAlter(plugin, key, old(request.server), plugins);
      && truthy == altered.Some?
      && (truthy ==> request.server == altered.value)
      && request.attributes == old(request.attributes)
  {
    match plugin
    case PathPrefix =>
      var result := PathPrefixMethod.AlterRequest(request, key);
      truthy := true;
    case Altering(id) =>
      var altered := plugins.alter(id, key, request.server);
      if altered.Some? {
        request.server := altered.value;
      }
      truthy := altered.Some?;
  }
}
