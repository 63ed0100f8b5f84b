/** The endpoint handling of the authority client (`FogAPIClient`): the
    normalisation of a configured endpoint into a WebSocket URL, and the
    connect URI that carries the player's UUID as a query parameter. */
module FogApi {
  import opened Common

  const API_PATH: string := "/api/fog/ws"
  const DEFAULT_HOST: string := "localhost:8080"
  /** `ws://localhost:8080/api/fog/ws`. */
  const DEFAULT_ENDPOINT: string := "ws://" + DEFAULT_HOST + API_PATH

  // ---------------------------------------------------------------------
  // `String.trim()`

  /** `trim()` removes every leading and trailing char up to U+0020. */
  predicate Trimmable(c: char) {
    c <= ' '
  }

  predicate IsBlank(s: string) {
    forall k :: 0 <= k < |s| ==> Trimmable(s[k])
  }

  function TrimLeading(s: string): (r: string)
    ensures |r| <= |s| && r == s[|s| - |r|..]
    ensures r == [] || !Trimmable(r[0])
    ensures forall k :: 0 <= k < |s| - |r| ==> Trimmable(s[k])
  {
    if s != [] && Trimmable(s[0]) then TrimLeading(s[1..]) else s
  }

  function TrimTrailing(s: string): (r: string)
    ensures |r| <= |s| && r == s[..|r|]
    ensures r == [] || !Trimmable(r[|r| - 1])
    ensures forall k :: |r| <= k < |s| ==> Trimmable(s[k])
  {
    if s != [] && Trimmable(s[|s| - 1]) then TrimTrailing(s[..|s| - 1]) else s
  }

  /** The number of chars `trim()` removes in front. */
  function LeadingLength(s: string): nat
    ensures LeadingLength(s) <= |s|
  {
    |s| - |TrimLeading(s)|
  }

  /** `String.trim()`: the longest infix that starts and ends with a char
      above U+0020, with everything around it at or below U+0020. */
  function Trim(s: string): (r: string)
    ensures r == [] || (!Trimmable(r[0]) && !Trimmable(r[|r| - 1]))
    ensures LeadingLength(s) + |r| <= |s| && r == s[LeadingLength(s)..LeadingLength(s) + |r|]
    ensures forall k :: 0 <= k < LeadingLength(s) ==> Trimmable(s[k])
    ensures forall k :: LeadingLength(s) + |r| <= k < |s| ==> Trimmable(s[k])
  {
    var t := TrimLeading(s);
    var r := TrimTrailing(t);
    assert r == s[|s| - |t|..|s| - |t| + |r|];
    r
  }

  /** `trim().isEmpty()` holds exactly for the blank strings. */
  lemma TrimEmptyIffBlank(s: string)
    ensures Trim(s) == [] <==> IsBlank(s)
  {
    var t := TrimLeading(s);
    if t != [] {
      assert t[0] == s[|s| - |t|];
      assert TrimTrailing(t) != [];
    }
  }

  /** A string that neither starts nor ends with a trimmable char is its
      own trim. */
  lemma TrimOfTrimmed(s: string)
    requires s != [] && !Trimmable(s[0]) && !Trimmable(s[|s| - 1])
    ensures Trim(s) == s
  {
  }

  // ---------------------------------------------------------------------
  // Prefixes and suffixes

  lemma PrefixChar(s: string, prefix: string, k: int)
    requires StartsWith(s, prefix) && 0 <= k < |prefix|
    ensures s[k] == prefix[k]
  {
    assert s[..|prefix|][k] == s[k];
  }

  lemma NotPrefix(s: string, prefix: string, k: int)
    requires 0 <= k < |prefix| && k < |s| && s[k] != prefix[k]
    ensures !StartsWith(s, prefix)
  {
    if StartsWith(s, prefix) {
      PrefixChar(s, prefix, k);
    }
  }

  lemma SuffixLastChar(s: string, suffix: string)
    requires EndsWith(s, suffix) && suffix != []
    ensures s[|s| - 1] == suffix[|suffix| - 1]
  {
    assert s[|s| - |suffix|..][|suffix| - 1] == s[|s| - 1];
  }

  lemma NotSuffix(s: string, suffix: string)
    requires s != [] && suffix != [] && s[|s| - 1] != suffix[|suffix| - 1]
    ensures !EndsWith(s, suffix)
  {
    if EndsWith(s, suffix) {
      SuffixLastChar(s, suffix);
    }
  }

  lemma StartsWithAppend(s: string, t: string, prefix: string)
    requires StartsWith(s, prefix)
    ensures StartsWith(s + t, prefix)
  {
    assert (s + t)[..|prefix|] == s[..|prefix|];
  }

  lemma StartsWithConcat(s: string, t: string)
    ensures StartsWith(s + t, s)
  {
    assert (s + t)[..|s|] == s;
  }

  lemma EndsWithAppend(s: string, t: string)
    ensures EndsWith(s + t, t)
  {
    assert (s + t)[|s + t| - |t|..] == t;
  }

  // ---------------------------------------------------------------------
  // Normalisation

  /** The chars `.` does not match in a Java regular expression. */
  predicate IsLineTerminator(c: char) {
    c == '\n' || c == '\r' || c == '\U{85}' || c == '\U{2028}' || c == '\U{2029}'
  }

  predicate NoLineTerminator(s: string) {
    forall c | c in s :: !IsLineTerminator(c)
  }

  lemma NoLineTerminatorConcat(a: string, b: string)
    ensures NoLineTerminator(a + b) <==> NoLineTerminator(a) && NoLineTerminator(b)
  {
  }

  /** None of the fixed strings holds a line terminator. */
  lemma LiteralsHaveNoLineTerminator()
    ensures NoLineTerminator("ws://") && NoLineTerminator("wss://")
    ensures NoLineTerminator(API_PATH) && NoLineTerminator("api/fog/ws") && NoLineTerminator(DEFAULT_HOST)
  {
  }

  // The path check of `setApiEndpoint` is a whole-string regular expression
  // match: any run of chars (`.` matches every char except a line
  // terminator), then the API path, then an optional `/`, then the end.
  /** The path check: the whole string is a run of chars other than line
      terminators, then the API path, then an optional `/`. */
  predicate HasApiPath(s: string) {
    NoLineTerminator(s) && (EndsWith(s, API_PATH) || EndsWith(s, API_PATH + "/"))
  }

  /** The scheme step of `setApiEndpoint`. */
  function WithScheme(s: string): string {
    if StartsWith(s, "http://") then "ws://" + s[7..]
    else if StartsWith(s, "https://") then "wss://" + s[8..]
    else if !StartsWith(s, "ws://") && !StartsWith(s, "wss://") then "ws://" + s
    else s
  }

  /** What the path step appends when the check fails: the path without
      its `/` after a trailing `/`, the whole path otherwise. */
  function PathTail(s: string): string {
    if EndsWith(s, "/") then "api/fog/ws" else API_PATH
  }

  /** The path step of `setApiEndpoint`. */
  function WithPath(s: string): string {
    if HasApiPath(s) then s else s + PathTail(s)
  }

  /** What `setApiEndpoint` stores for a trimmed, non-blank endpoint. */
  function NormalizeEndpoint(s: string): string {
    WithPath(WithScheme(s))
  }

  /** Appending the tail always ends the string in the API path, never in
      `/`, and adds no line terminator. */
  lemma PathTailAppended(w: string)
    ensures EndsWith(w + PathTail(w), API_PATH)
    ensures !EndsWith(w + PathTail(w), "/")
    ensures NoLineTerminator(w + PathTail(w)) <==> NoLineTerminator(w)
  {
    var r := w + PathTail(w);
    LiteralsHaveNoLineTerminator();
    NoLineTerminatorConcat(w, PathTail(w));
    if EndsWith(w, "/") {
      assert r[|r| - |API_PATH|..] == w[|w| - 1..] + "api/fog/ws";
      assert r[|r| - 1] == 's';
    } else {
      EndsWithAppend(w, API_PATH);
      assert r[|r| - 1] == API_PATH[10] == 's';
    }
    NotSuffix(r, "/");
  }

  /** The four cases of the scheme step. */
  lemma WithSchemeCases(s: string)
    ensures StartsWith(s, "http://") ==> WithScheme(s) == "ws://" + s[7..]
    ensures StartsWith(s, "https://") ==> WithScheme(s) == "wss://" + s[8..]
    ensures StartsWith(s, "ws://") || StartsWith(s, "wss://") ==> WithScheme(s) == s
    ensures (!StartsWith(s, "http://") && !StartsWith(s, "https://") && !StartsWith(s, "ws://")
             && !StartsWith(s, "wss://")) ==> WithScheme(s) == "ws://" + s
  {
    if StartsWith(s, "https://") {
      NotPrefix(s, "http://", 4);
    } else if StartsWith(s, "ws://") || StartsWith(s, "wss://") {
      if StartsWith(s, "ws://") {
        PrefixChar(s, "ws://", 0);
      } else {
        PrefixChar(s, "wss://", 0);
      }
      NotPrefix(s, "http://", 0);
      NotPrefix(s, "https://", 0);
    }
  }

  /** The path step only appends. */
  lemma NormalizeExtendsScheme(s: string)
    ensures StartsWith(NormalizeEndpoint(s), WithScheme(s))
  {
    var w := WithScheme(s);
    if !HasApiPath(w) {
      StartsWithConcat(w, PathTail(w));
    } else {
      StartsWithConcat(w, "");
      assert w + "" == w;
    }
  }

  /** The scheme rule: `http://` becomes `ws://`, `https://` becomes
      `wss://`, a `ws://` or `wss://` URL keeps its scheme, and anything
      else gets `ws://` in front; the rest of the string follows. */
  lemma NormalizedScheme(s: string)
    ensures StartsWith(s, "http://") ==> StartsWith(NormalizeEndpoint(s), "ws://" + s[7..])
    ensures StartsWith(s, "https://") ==> StartsWith(NormalizeEndpoint(s), "wss://" + s[8..])
    ensures StartsWith(s, "ws://") || StartsWith(s, "wss://") ==> StartsWith(NormalizeEndpoint(s), s)
    ensures (!StartsWith(s, "http://") && !StartsWith(s, "https://") && !StartsWith(s, "ws://")
             && !StartsWith(s, "wss://")) ==> StartsWith(NormalizeEndpoint(s), "ws://" + s)
  {
    WithSchemeCases(s);
    NormalizeExtendsScheme(s);
  }

  /** The path rule: the path is appended unless the check passes, and a
      trailing `/` is not doubled. */
  lemma NormalizedPath(s: string)
    ensures var w := WithScheme(s);
      if HasApiPath(w) then NormalizeEndpoint(s) == w
      else if EndsWith(w, "/") then NormalizeEndpoint(s) == w + "api/fog/ws"
      else NormalizeEndpoint(s) == w + API_PATH
  {
  }

  lemma WithSchemeShape(s: string)
    ensures StartsWith(WithScheme(s), "ws://") || StartsWith(WithScheme(s), "wss://")
  {
    if StartsWith(s, "http://") {
      StartsWithConcat("ws://", s[7..]);
    } else if StartsWith(s, "https://") {
      StartsWithConcat("wss://", s[8..]);
    } else if !StartsWith(s, "ws://") && !StartsWith(s, "wss://") {
      StartsWithConcat("ws://", s);
    }
  }

  /** The stored endpoint is always a WebSocket URL that ends in the API
      path (with or without a final `/`). */
  lemma NormalizedShape(s: string)
    ensures var r := NormalizeEndpoint(s);
      && (StartsWith(r, "ws://") || StartsWith(r, "wss://"))
      && (EndsWith(r, API_PATH) || EndsWith(r, API_PATH + "/"))
  {
    var w := WithScheme(s);
    WithSchemeShape(s);
    if !HasApiPath(w) {
      PathTailAppended(w);
      if StartsWith(w, "ws://") {
        StartsWithAppend(w, PathTail(w), "ws://");
      } else {
        StartsWithAppend(w, PathTail(w), "wss://");
      }
    }
  }

  /** The scheme step adds no line terminator and removes none. */
  lemma WithSchemeLineTerminators(s: string)
    ensures NoLineTerminator(WithScheme(s)) <==> NoLineTerminator(s)
  {
    WithSchemeCases(s);
    LiteralsHaveNoLineTerminator();
    if StartsWith(s, "http://") {
      NoLineTerminatorConcat("ws://", s[7..]);
      assert s == s[..7] + s[7..];
      NoLineTerminatorConcat(s[..7], s[7..]);
    } else if StartsWith(s, "https://") {
      NoLineTerminatorConcat("wss://", s[8..]);
      assert s == s[..8] + s[8..];
      NoLineTerminatorConcat(s[..8], s[8..]);
    } else if !StartsWith(s, "ws://") && !StartsWith(s, "wss://") {
      NoLineTerminatorConcat("ws://", s);
    }
  }

  /** Without line terminators the stored endpoint passes the path check. */
  lemma NormalizedHasApiPath(s: string)
    requires NoLineTerminator(s)
    ensures HasApiPath(NormalizeEndpoint(s))
  {
    var w := WithScheme(s);
    WithSchemeLineTerminators(s);
    PathTailAppended(w);
    NormalizedShape(s);
  }

  /** A normalised endpoint that passes the path check is its own
      normalisation, trimmed or not. */
  lemma NormalFormIsFixed(r: string)
    requires StartsWith(r, "ws://") || StartsWith(r, "wss://")
    requires EndsWith(r, API_PATH) || EndsWith(r, API_PATH + "/")
    ensures !IsBlank(r) && Trim(r) == r && WithScheme(r) == r
    ensures HasApiPath(r) ==> NormalizeEndpoint(Trim(r)) == r
  {
    if StartsWith(r, "ws://") {
      PrefixChar(r, "ws://", 0);
    } else {
      PrefixChar(r, "wss://", 0);
    }
    if EndsWith(r, API_PATH) {
      SuffixLastChar(r, API_PATH);
    } else {
      SuffixLastChar(r, API_PATH + "/");
    }
    TrimOfTrimmed(r);
    WithSchemeCases(r);
  }

  /** Setting the endpoint to what it already is changes nothing, as long
      as no line terminator is left after trimming (`trim()` removes the
      leading and trailing ones). */
  lemma NormalizeIdempotent(e: string)
    requires !IsBlank(e) && NoLineTerminator(Trim(e))
    ensures var r := NormalizeEndpoint(Trim(e));
      !IsBlank(r) && NormalizeEndpoint(Trim(r)) == r
  {
    var t := Trim(e);
    NormalizedShape(t);
    NormalizedHasApiPath(t);
    NormalFormIsFixed(NormalizeEndpoint(t));
  }

  /** With a line terminator inside the trimmed endpoint (for instance
      `"a\nb"`), the path check never passes: setting the stored endpoint
      again appends the path once more, so normalisation is not idempotent. */
  lemma NormalizeNotIdempotent(e: string)
    requires !NoLineTerminator(Trim(e))
    ensures var r := NormalizeEndpoint(Trim(e));
      !IsBlank(r) && NormalizeEndpoint(Trim(r)) == r + API_PATH
  {
    var t := Trim(e);
    var w := WithScheme(t);
    WithSchemeLineTerminators(t);
    PathTailAppended(w);
    var r := w + PathTail(w);
    assert NormalizeEndpoint(t) == r;
    NormalizedShape(t);
    NormalFormIsFixed(r);
    PathTailAppended(r);
    assert !HasApiPath(r);
    assert PathTail(r) == API_PATH;
  }

  /** A trailing newline, as a configuration value may carry, is removed
      by `trim()` and so does not stop idempotence. */
  lemma TrailingNewlineIsTrimmed()
    ensures !NoLineTerminator("a\n") && Trim("a\n") == "a" && NoLineTerminator(Trim("a\n"))
  {
    var s := "a\n";
    assert '\n' in s;
    assert TrimLeading(s) == s;
    assert s[..1] == "a";
    assert TrimTrailing(s) == TrimTrailing("a") == "a";
    assert Trim(s) == "a";
    assert forall c | c in "a" :: c == 'a';
  }

  /** The default endpoint is already in normal form. */
  lemma DefaultEndpointIsNormal()
    ensures !IsBlank(DEFAULT_ENDPOINT)
    ensures NormalizeEndpoint(Trim(DEFAULT_ENDPOINT)) == DEFAULT_ENDPOINT
  {
    var front := "ws://" + DEFAULT_HOST;
    StartsWithAppend(front, API_PATH, "ws://") by {
      StartsWithConcat("ws://", DEFAULT_HOST);
    }
    EndsWithAppend(front, API_PATH);
    LiteralsHaveNoLineTerminator();
    NoLineTerminatorConcat("ws://", DEFAULT_HOST);
    NoLineTerminatorConcat(front, API_PATH);
    NormalFormIsFixed(DEFAULT_ENDPOINT);
  }

  // ---------------------------------------------------------------------
  // The connect URI

  /** The URI `connectWebSocket` opens: the endpoint, `&` if the endpoint
      already has a query and `?` otherwise, then `uuid=` and the UUID text. */
  function ConnectUri(endpoint: string, uuidText: string): (r: string)
    ensures StartsWith(r, endpoint)
    ensures |r| == |endpoint| + 6 + |uuidText|
    ensures r[|endpoint|] == if Contains(endpoint, '?') then '&' else '?'
    ensures r[|endpoint| + 1..] == "uuid=" + uuidText
  {
    endpoint + (if Contains(endpoint, '?') then "&" else "?") + "uuid=" + uuidText
  }

  /** The URI always has a query; when the endpoint had none, the query
      starts right after the endpoint and is exactly `uuid=<uuid>`. */
  lemma ConnectUriQuery(endpoint: string, uuidText: string)
    ensures Contains(ConnectUri(endpoint, uuidText), '?')
    ensures !Contains(endpoint, '?') ==>
      forall k :: 0 <= k < |endpoint| ==> ConnectUri(endpoint, uuidText)[k] != '?'
  {
    var r := ConnectUri(endpoint, uuidText);
    if Contains(endpoint, '?') {
      var k :| 0 <= k < |endpoint| && endpoint[k] == '?';
      assert r[..|endpoint|][k] == '?';
      assert r[k] == '?';
    } else {
      assert r[|endpoint|] == '?';
      forall k | 0 <= k < |endpoint| ensures r[k] != '?' {
        assert r[k] == r[..|endpoint|][k] == endpoint[k];
      }
    }
  }

  // ---------------------------------------------------------------------
  // The client object

  class FogApiClient {
    var websocketEndpoint: string

    constructor ()
      ensures websocketEndpoint == DEFAULT_ENDPOINT
    {
      websocketEndpoint := DEFAULT_ENDPOINT;
    }

    /** `setApiEndpoint`; `None` is null. A null or blank endpoint keeps the
      old one; otherwise the trimmed endpoint gets its scheme and its path. */
    method SetApiEndpoint(endpoint: Option<string>)
      modifies this
      ensures endpoint.None? || IsBlank(endpoint.value) ==> websocketEndpoint == old(websocketEndpoint)
      ensures endpoint.Some? && !IsBlank(endpoint.value) ==>
        websocketEndpoint == NormalizeEndpoint(Trim(endpoint.value))
    {
      if endpoint.None? {
        return;
      }
      TrimEmptyIffBlank(endpoint.value);
      if Trim(endpoint.value) == [] {
        return;
      }
      var processedEndpoint := Trim(endpoint.value);
      if StartsWith(processedEndpoint, "http://") {
        processedEndpoint := "ws://" + processedEndpoint[7..];
      } else if StartsWith(processedEndpoint, "https://") {
        processedEndpoint := "wss://" + processedEndpoint[8..];
      } else if !StartsWith(processedEndpoint, "ws://") && !StartsWith(processedEndpoint, "wss://") {
        processedEndpoint := "ws://" + processedEndpoint;
      }
      if !HasApiPath(processedEndpoint) {
        if EndsWith(processedEndpoint, "/") {
          processedEndpoint := processedEndpoint + "api/fog/ws";
        } else {
          processedEndpoint := processedEndpoint + API_PATH;
        }
      }
      websocketEndpoint := processedEndpoint;
    }

    /** The URI of a connection attempt for the given player UUID text. */
    function ConnectionUri(uuidText: string): (r: string)
      reads this
      ensures StartsWith(r, websocketEndpoint) && Contains(r, '?')
    {
      ConnectUriQuery(websocketEndpoint, uuidText);
      ConnectUri(websocketEndpoint, uuidText)
    }
  }
}
