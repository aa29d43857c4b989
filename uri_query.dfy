/**
 * `Uri.containsQueryParameters`: does a URI carry the query parameter that a
 * search string of the form "key", "key=" or "key=value" describes?
 */
module UriQuery {
  import opened Optional

  /** One `name=value` pair of a query string; "?name" has the value "". */
  datatype QueryParam = QueryParam(name: string, value: string)

  /**
   * The parts of an Android `Uri` the check reads: whether it is opaque
   * ("mailto:x" has no query) and its decoded query parameters in order.
   */
  datatype Uri = Uri(isOpaque: bool, query: seq<QueryParam>)

  /** `queryParameterNames`. */
  function QueryParameterNames(uri: Uri): set<string> {
    set p | p in uri.query :: p.name
  }

  /** `getQueryParameter(name)`: the first value given for `name`, or null. */
  function GetQueryParameter(query: seq<QueryParam>, name: string): (r: Option<string>)
    ensures r.None? <==> forall p :: p in query ==> p.name != name
    ensures r.Some? ==> QueryParam(name, r.value) in query
    ensures r.Some? ==> exists i :: 0 <= i < |query| && query[i] == QueryParam(name, r.value) &&
                                    forall j :: 0 <= j < i ==> query[j].name != name
  {
    if query == [] then None
    else if query[0].name == name then Some(query[0].value)
    else GetQueryParameter(query[1..], name)
  }

  /**
   * Kotlin `Char.isWhitespace`: Java's `Character.isWhitespace` (the ASCII
   * layout controls and the separators other than the no-break spaces) or
   * `Character.isSpaceChar` (every space, line or paragraph separator,
   * no-break spaces included). NEXT LINE, U+0085, is a control and neither.
   */
  predicate IsWhitespace(c: char) {
    c in {'\U{0009}', '\U{000A}', '\U{000B}', '\U{000C}', '\U{000D}', '\U{001C}', '\U{001D}',
          '\U{001E}', '\U{001F}', '\U{0020}', '\U{00A0}', '\U{1680}', '\U{2000}',
          '\U{2001}', '\U{2002}', '\U{2003}', '\U{2004}', '\U{2005}', '\U{2006}', '\U{2007}',
          '\U{2008}', '\U{2009}', '\U{200A}', '\U{2028}', '\U{2029}', '\U{202F}', '\U{205F}',
          '\U{3000}'}
  }

  /** `isBlank`: empty or whitespace only. */
  predicate IsBlank(s: string) {
    forall i :: 0 <= i < |s| ==> IsWhitespace(s[i])
  }

  /** `isNullOrBlank`. */
  predicate IsNullOrBlank(s: Option<string>) {
    s.None? || IsBlank(s.value)
  }

  /** Kotlin `split(d)` without a limit: every part, empty ones included. */
  function Split(s: string, d: char): (r: seq<string>)
    ensures |r| >= 1
  {
    if s == [] then [""]
    else
      var rest := Split(s[1..], d);
      if s[0] == d then [""] + rest
      else [[s[0]] + rest[0]] + rest[1..]
  }

  /** Joins parts with the delimiter in between: the inverse of `Split`. */
  function Join(parts: seq<string>, d: char): string
    requires |parts| >= 1
  {
    if |parts| == 1 then parts[0] else parts[0] + [d] + Join(parts[1..], d)
  }

  function Count(s: string, d: char): nat {
    if s == [] then 0 else (if s[0] == d then 1 else 0) + Count(s[1..], d)
  }

  /**
   * `Split` loses nothing: joining the parts gives the input back, there is
   * one part more than there are delimiters, and no part holds a delimiter.
   */
  lemma {:induction false} SplitJoin(s: string, d: char)
    ensures Join(Split(s, d), d) == s
    ensures |Split(s, d)| == Count(s, d) + 1
    ensures forall part :: part in Split(s, d) ==> d !in part
  {
    if s != [] {
      SplitJoin(s[1..], d);
      var rest := Split(s[1..], d);
      if s[0] == d {
        assert Split(s, d)[1..] == rest;
        assert s == [d] + s[1..];
      } else {
        var r := Split(s, d);
        if |rest| == 1 {
          assert r == [[s[0]] + rest[0]];
        } else {
          assert r[1..] == rest[1..];
          assert Join(rest, d) == rest[0] + [d] + Join(rest[1..], d);
        }
        forall part | part in r ensures d !in part {
          if part != r[0] {
            assert part in rest;
          }
        }
      }
    }
  }

  /** A string without the delimiter splits into itself. */
  lemma {:induction false} SplitNoDelimiter(s: string, d: char)
    requires d !in s
    ensures Split(s, d) == [s]
  {
    if s != [] {
      SplitNoDelimiter(s[1..], d);
      assert s == [s[0]] + s[1..];
    }
  }

  /** A delimiter after a delimiter-free prefix ends the first part. */
  lemma {:induction false} SplitAfterPrefix(a: string, b: string, d: char)
    requires d !in a
    ensures Split(a + [d] + b, d) == [a] + Split(b, d)
  {
    if a == [] {
      assert a + [d] + b == [d] + b;
      assert ([d] + b)[1..] == b;
    } else {
      SplitAfterPrefix(a[1..], b, d);
      assert (a + [d] + b)[1..] == a[1..] + [d] + b;
      assert a == [a[0]] + a[1..];
    }
  }

  /** `Uri.containsQueryParameters(searchParameters)`. */
  function ContainsQueryParameters(uri: Uri, searchParameters: string): bool {
    if IsBlank(searchParameters) || uri.isOpaque then false
    else
      var params := Split(searchParameters, '=');
      if |params| == 1 then
        params[0] in QueryParameterNames(uri) &&
        IsNullOrBlank(GetQueryParameter(uri.query, params[0]))
      else if |params| == 2 then
        params[0] in QueryParameterNames(uri) &&
        GetQueryParameter(uri.query, params[0]) == Some(params[1])
      else false
  }

  /** A blank search string and an opaque URI never match. */
  lemma BlankOrOpaqueNeverMatches(uri: Uri, searchParameters: string)
    requires IsBlank(searchParameters) || uri.isOpaque
    ensures !ContainsQueryParameters(uri, searchParameters)
  {
  }

  /**
   * "key" (no '='): matches iff the hierarchical URI names `key` with an
   * empty or blank value.
   */
  lemma KeyOnlyMatch(uri: Uri, key: string)
    requires !IsBlank(key) && '=' !in key
    ensures ContainsQueryParameters(uri, key) <==>
      !uri.isOpaque && key in QueryParameterNames(uri) &&
      IsBlank(GetQueryParameter(uri.query, key).value)
  {
    SplitNoDelimiter(key, '=');
  }

  /**
   * "key=value" (one '='): matches iff the hierarchical URI names `key` and
   * its first value is exactly `value`; "key=" therefore matches only an
   * empty value.
   */
  lemma KeyValueMatch(uri: Uri, key: string, value: string)
    requires '=' !in key && '=' !in value
    ensures ContainsQueryParameters(uri, key + "=" + value) <==>
      !uri.isOpaque && key in QueryParameterNames(uri) &&
      GetQueryParameter(uri.query, key) == Some(value)
  {
    var s := key + "=" + value;
    assert !IsBlank(s) by {
      assert s[|key|] == '=';
    }
    SplitAfterPrefix(key, value, '=');
    SplitNoDelimiter(value, '=');
  }

  /**
   * NEXT LINE (U+0085) is not blank: a key-only search does not match it as
   * a value, and it is a key a search can name.
   */
  lemma NextLineIsNotBlank()
    ensures !IsBlank("\U{0085}")
    ensures !ContainsQueryParameters(Uri(false, [QueryParam("k", "\U{0085}")]), "k")
    ensures ContainsQueryParameters(Uri(false, [QueryParam("\U{0085}", "")]), "\U{0085}")
  {
    SplitNoDelimiter("k", '=');
    SplitNoDelimiter("\U{0085}", '=');
  }

  /** A search string with two or more '=' never matches. */
  lemma TwoDelimitersNeverMatch(uri: Uri, searchParameters: string)
    requires Count(searchParameters, '=') >= 2
    ensures !ContainsQueryParameters(uri, searchParameters)
  {
    SplitJoin(searchParameters, '=');
  }
}
