/** Which requests the handler serves: those whose URL, up to the first `?`,
    is exactly the configured path (handler.js:26). */
module Routing {

  /** `url.split('?').shift()`: the URL before its first `?`. */
  function PathOf(url: string): (p: string)
    ensures p <= url
    ensures '?' !in p
    ensures |p| < |url| ==> url[|p|] == '?'
  {
    if url == [] || url[0] == '?' then [] else [url[0]] + PathOf(url[1..])
  }

  /** The request is for this handler. */
  predicate Matches(url: string, path: string)
  {
    PathOf(url) == path
  }

  /** The three properties of PathOf determine it. */
  lemma PathOfUnique(url: string, p: string)
    requires p <= url && '?' !in p
    requires |p| < |url| ==> url[|p|] == '?'
    ensures PathOf(url) == p
  {
  }

  /** A URL matches exactly when the path is a prefix of it followed by the
      end of the URL or by a `?`, and the path has no `?` of its own. */
  lemma MatchesIff(url: string, path: string)
    ensures Matches(url, path) <==>
      path <= url && '?' !in path && (|path| == |url| || url[|path|] == '?')
  {
    if path <= url && '?' !in path && (|path| == |url| || url[|path|] == '?') {
      PathOfUnique(url, path);
    }
  }

  /** The query string is ignored: `path?query` matches `path`, as `path` does. */
  lemma QueryIgnored(path: string, query: string)
    requires '?' !in path
    ensures Matches(path, path)
    ensures Matches(path + ['?'] + query, path)
  {
    PathOfUnique(path, path);
    var url := path + ['?'] + query;
    assert path <= url && url[|path|] == '?';
    PathOfUnique(url, path);
  }

  /** A configured path with a `?` in it is never matched. */
  lemma PathWithQueryMarkNeverMatches(url: string, path: string)
    requires '?' in path
    ensures !Matches(url, path)
  {
  }

  /** A URL that extends the path by one more character is served only when
      that character starts the query string. */
  lemma OneCharacterMore(path: string, c: char)
    requires '?' !in path
    ensures Matches(path + [c], path) <==> c == '?'
  {
    MatchesIff(path + [c], path);
    assert (path + [c])[|path|] == c;
  }

  /** The URLs of test.js:70-82 and 110-115 against the path `/some/url`. */
  lemma RoutingExamples()
    ensures !Matches("/", "/some/url")
    ensures !Matches("/some", "/some/url")
    ensures !Matches("/some/url" + "/", "/some/url")
    ensures Matches("/some/url", "/some/url")
    ensures Matches("/some/url" + "?" + "test=param", "/some/url")
  {
    MatchesIff("/", "/some/url");
    MatchesIff("/some", "/some/url");
    OneCharacterMore("/some/url", '/');
    QueryIgnored("/some/url", "test=param");
  }
}
