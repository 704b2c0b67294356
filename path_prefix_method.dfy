/**
 * The path-prefix modifier method: a modifier `m` is carried by a URI that
 * starts with "/" + m. Detection, stripping on the way in, and prepending and
 * extracting on the way out.
 */
module PathPrefixMethod {
  import opened Wrappers
  import opened Purl

  /**
   * PHP's strpos: the first offset at which `needle` occurs in `haystack`, or
   * None (PHP's false) when it does not occur.
   */
  function Strpos(haystack: string, needle: string): (r: Option<nat>)
    ensures r.Some? ==> r.value <= |haystack| && needle <= haystack[r.value..]
    ensures r.Some? ==> forall j :: 0 <= j < r.value ==> !(needle <= haystack[j..])
    ensures r.None? ==> forall j :: 0 <= j <= |haystack| ==> !(needle <= haystack[j..])
    decreases |haystack|
  {
    if needle <= haystack then Some(0)
    else if haystack == [] then None
    else
      var tail := haystack[1..];
      assert haystack[0..] == haystack;
      assert forall j :: 1 <= j <= |haystack| ==> haystack[j..] == tail[j - 1..];
      match Strpos(tail, needle)
      case Some(i) => Some(i + 1)
      case None => None
  }

  /** PHP's substr($s, $start) for a non-negative start; past the end it is "". */
  function Substr(s: string, start: nat): string
  {
    if start <= |s| then s[start..] else ""
  }

  /** PHP's substr($s, 0, $length) for a non-negative length. */
  function SubstrHead(s: string, length: nat): string
  {
    if length <= |s| then s[..length] else s
  }

  /**
   * pathContains: `strpos($path, '/' . $modifier) === 0`. The test is a raw
   * character prefix, not a path-segment match.
   */
  function PathContains(modifier: string, path: string): (r: bool)
    ensures r <==> "/" + modifier <= path
  {
    assert path[0..] == path;
    Strpos(path, "/" + modifier) == Some(0)
  }

  /** contains: the request's URI carries the modifier. Reads the request and changes nothing. */
  function Contains(request: Request, modifier: string): (r: bool)
    reads request
    ensures r <==> "/" + modifier <= request.Uri()
  {
    PathContains(modifier, request.Uri())
  }

  /** The URI left once the first |identifier| + 1 characters are dropped. */
  function StripPrefix(uri: string, identifier: string): string
  {
    Substr(uri, |identifier| + 1)
  }

  /**
   * alterRequest: rewrites the REQUEST_URI server entry, without checking that
   * the prefix is there, and returns the same request object (never false).
   */
  method AlterRequest(request: Request, identifier: string) returns (r: Request)
    modifies request
    ensures r == request
    ensures request.server == old(request.server)[RequestUriKey := StripPrefix(old(request.Uri()), identifier)]
    ensures request.attributes == old(request.attributes)
  {
    var uri := UriOf(request.server);
    var newPath := Substr(uri, |identifier| + 1);
    request.server := request.server[RequestUriKey := newPath];
    r := request;
  }

  /**
   * enterContext: the outbound path carrying the modifier. The options array
   * is passed by reference but not written, so it is not part of the model.
   */
  function EnterContext(modifier: string, path: string): (r: string)
    ensures PathContains(modifier, r)
    ensures r[|modifier| + 1..] == path
  {
    "/" + modifier + path
  }

  /**
   * exitContext as written: null when the path does not carry the modifier,
   * otherwise the first |modifier| + 1 characters of the path, that is the
   * prefix "/" + modifier itself.
   */
  function ExitContext(modifier: string, path: string): (r: Option<string>)
    ensures r.None? <==> !("/" + modifier <= path)
    ensures r.Some? ==> r.value == "/" + modifier
  {
    if !PathContains(modifier, path) then None
    else Some(SubstrHead(path, |modifier| + 1))
  }

  /** Exiting a path that was entered always yields the bare prefix. */
  lemma ExitAfterEnter(modifier: string, path: string)
    ensures ExitContext(modifier, EnterContext(modifier, path)) == Some("/" + modifier)
  {
  }

  /**
   * Stripping inverts prepending: an entered path is recognised by contains,
   * and stripping it gives back the path.
   */
  lemma StripInvertsEnter(modifier: string, path: string)
    ensures PathContains(modifier, EnterContext(modifier, path))
    ensures StripPrefix(EnterContext(modifier, path), modifier) == path
  {
  }

  /** Two substrs in a row drop both lengths at once (PHP 8 substr clamps at the end). */
  lemma SubstrTwice(s: string, a: nat, b: nat)
    ensures Substr(Substr(s, a), b) == Substr(s, a + b)
  {
    if a + b <= |s| {
      assert s[a..][b..] == s[a + b..];
    }
  }

  /** alterRequest's strip on concrete URIs: "/en/about" becomes "/about" and "/en" becomes "". */
  lemma StripExamples()
    ensures StripPrefix("/en/about", "en") == "/about"
    ensures StripPrefix("/en", "en") == ""
  {
  }

  /**
   * The prefix test is on raw characters: "/english" carries "en", and the
   * strip then leaves "glish".
   */
  lemma RawPrefixMatch()
    ensures PathContains("en", "/english")
    ensures StripPrefix("/english", "en") == "glish"
  {
    assert "/en" <= "/english";
  }

  /**
   * exitContext as written is not the inverse of enterContext: it returns the
   * prefix, not the path that was entered.
   */
  lemma ExitContextNotInverse()
    ensures EnterContext("en", "/about") == "/en/about"
    ensures ExitContext("en", "/en/about") == Some("/en")
    ensures ExitContext("en", "/en/about") != Some("/about")
  {
    assert "/en" <= "/en/about";
    assert "/en/about"[..3] == "/en";
  }

  /** exitContext as evidently intended: the path with its prefix removed. */
  function ExitContextCorrected(modifier: string, path: string): (r: Option<string>)
    ensures r.None? <==> !("/" + modifier <= path)
    ensures r.Some? ==> EnterContext(modifier, r.value) == path
  {
    if !PathContains(modifier, path) then None
    else
      assert path == path[..|modifier| + 1] + path[|modifier| + 1..];
      Some(StripPrefix(path, modifier))
  }

  /** The corrected exitContext undoes enterContext for every path. */
  lemma CorrectedExitAfterEnter(modifier: string, path: string)
    ensures ExitContextCorrected(modifier, EnterContext(modifier, path)) == Some(path)
  {
    StripInvertsEnter(modifier, path);
  }
}
