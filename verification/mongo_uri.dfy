/** The start-up split of the MongoDB connection URI into a server URL and a
    database name (app.py:27-29): `uri.rsplit('/', 1)`, the last piece is the
    database name, and the pieces before it are joined with ''. */
module MongoUri {
  import opened Outcomes

  /** The URI used when the environment does not set one (app.py:20). */
  const DefaultUri: string := "mongodb://localhost:27017/stocksCrawler"

  /** Position of the last occurrence of `c` in `s`, if any. */
  function LastIndexOf(s: string, c: char): (r: Option<nat>)
    ensures r.Some? ==> r.value < |s| && s[r.value] == c
    ensures r.Some? ==> forall j :: r.value < j < |s| ==> s[j] != c
    ensures r.None? <==> c !in s
  {
    if |s| == 0 then None
    else if s[|s| - 1] == c then Some(|s| - 1)
    else LastIndexOf(s[..|s| - 1], c)
  }

  /** Python's `s.rsplit(sep, 1)`: split at the last separator, if there is one. */
  function RSplitOnce(s: string, sep: char): (parts: seq<string>)
    ensures 1 <= |parts| <= 2
    ensures |parts| == 2 <==> sep in s
    ensures sep !in parts[|parts| - 1]
    ensures |parts| == 2 ==> parts[0] + [sep] + parts[1] == s
    ensures |parts| == 1 ==> parts[0] == s
  {
    match LastIndexOf(s, sep)
    case None => [s]
    case Some(i) =>
      assert s == s[..i] + [sep] + s[i + 1..];
      [s[..i], s[i + 1..]]
  }

  /** Python's `''.join(parts)`. */
  function Join(parts: seq<string>): string
  {
    if parts == [] then "" else parts[0] + Join(parts[1..])
  }

  datatype Target = Target(mongoUrl: string, dbName: string)

  /** `db_name = uri_data[-1]` and `mongo_url = ''.join(uri_data[:-1])`. */
  function SplitUri(uri: string): (t: Target)
    ensures '/' !in t.dbName
    ensures '/' in uri ==> t.mongoUrl + "/" + t.dbName == uri
    ensures '/' !in uri ==> t.dbName == uri && t.mongoUrl == ""
  {
    var parts := RSplitOnce(uri, '/');
    assert Join([]) == "";
    assert |parts| == 2 ==> Join(parts[..1]) == parts[0] + Join([]);
    Target(Join(parts[..|parts| - 1]), parts[|parts| - 1])
  }

  /** The split is determined by its result: whenever the URI is some prefix,
      a '/', and a name free of '/', the prefix is the server URL and the name
      the database. */
  lemma {:induction false} SplitUriAt(uri: string, url: string, name: string)
    requires uri == url + "/" + name && '/' !in name
    ensures SplitUri(uri) == Target(url, name)
  {
    var k := |url|;
    assert uri[k] == '/';
    var r := LastIndexOf(uri, '/');
    assert r.Some?;
    assert r.value == k;
    assert uri[..k] == url;
    assert uri[k + 1..] == name;
  }

  /** With the default URI the database is `stocksCrawler` on the local server. */
  lemma DefaultTarget()
    ensures SplitUri(DefaultUri) == Target("mongodb://localhost:27017", "stocksCrawler")
  {
    SplitUriAt(DefaultUri, "mongodb://localhost:27017", "stocksCrawler");
  }
}
