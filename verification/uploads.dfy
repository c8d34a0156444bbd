/**
 * The client's uploads base: the API base URL with one trailing `/api` or
 * `/api/` removed, as `replace(/\/api\/?$/, "")` does.
 */
module UploadsBase {
  import opened Wrappers
  import opened Strings

  const DefaultApiBase: string := "http://localhost:4000/api"

  /** The configured API base, or the default when the variable is unset or empty. */
  function ApiBase(configured: Option<string>): (base: string)
    ensures Truthy(configured) ==> base == configured.value
    ensures !Truthy(configured) ==> base == DefaultApiBase
  {
    if Truthy(configured) then configured.value else DefaultApiBase
  }

  /** The uploads base derived from the API base `s`. */
  function StripApiSuffix(s: string): (r: string)
    ensures |r| <= |s| && s[..|r|] == r
    ensures s[|r|..] in ["", "/api", "/api/"]
    ensures s[|r|..] == "" <==> !EndsWith(s, "/api") && !EndsWith(s, "/api/")
  {
    if EndsWith(s, "/api/") then s[..|s| - 5]
    else if EndsWith(s, "/api") then s[..|s| - 4]
    else
      assert s[|s|..] == "";
      s
  }

  /** The default configuration serves uploads from the server root. */
  lemma DefaultUploadsBase()
    ensures StripApiSuffix(ApiBase(None)) == "http://localhost:4000"
  {
    assert EndsWith(DefaultApiBase, "/api");
  }

  /** A trailing `/api/` goes exactly as a trailing `/api` does. */
  lemma TrailingSlashStripped(x: string)
    ensures StripApiSuffix(x + "/api/") == x
    ensures StripApiSuffix(x + "/api") == x
  {
    assert (x + "/api/")[|x + "/api/"| - 5..] == "/api/";
    assert (x + "/api/")[..|x|] == x;
    assert (x + "/api")[|x| + 3] == 'i';
    assert !EndsWith(x + "/api", "/api/");
    assert (x + "/api")[|x + "/api"| - 4..] == "/api";
    assert (x + "/api")[..|x|] == x;
  }

  /** Only the last occurrence goes: `x/api/api` becomes `x/api`. */
  lemma OnlyOneOccurrence(x: string)
    ensures StripApiSuffix(x + "/api/api") == x + "/api"
  {
    assert x + "/api/api" == (x + "/api") + "/api";
    TrailingSlashStripped(x + "/api");
  }

  /** `/api` anywhere but at the end leaves the base unchanged. */
  lemma ElsewhereUnchanged(x: string, y: string)
    requires |y| > 0 && y[|y| - 1] != '/' && y[|y| - 1] != 'i'
    ensures StripApiSuffix(x + "/api" + y) == x + "/api" + y
  {
    var s := x + "/api" + y;
    assert s[|s| - 1] == y[|y| - 1];
  }
}
