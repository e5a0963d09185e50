/**
 * The pure decisions of the SharePoint connector: reading the bearer token from the
 * `Authorization` header, building the sign-in authority URL, shaping a Graph
 * `driveItem`, padding and splitting a JWT, recognising a "no SharePoint licence"
 * error text, scanning the user's service plans, and choosing a download's file name.
 */
module SharePoint {
  import opened Wrappers
  import opened Text
  import opened Json

  // ---------------------------------------------------------------- the Authorization header

  const BadAuthorization: HttpError := HttpError(401, "Missing or invalid Authorization header")

  /** The header starts, ignoring ASCII case, with `bearer ` and a space. */
  predicate HasBearerPrefix(h: string) {
    "bearer " <= Lower(h)
  }

  /** Behind a `bearer ` prefix the first space of the header is the seventh character. */
  lemma BearerFirstSpace(h: string)
    requires HasBearerPrefix(h)
    ensures Contains(h, " ") && IndexOf(h, " ") == Some(6)
  {
    assert forall i :: 0 <= i < 7 ==> LowerChar(h[i]) == "bearer "[i];
    assert h[6] == ' ';
    assert OccursAt(h, " ", 6);
    forall j | 0 <= j < 6 ensures !OccursAt(h, " ", j) {
      assert LowerChar(h[j]) == "bearer "[j] != ' ';
      assert h[j] != ' ';
      assert h[j..j + 1] == [h[j]];
    }
  }

  /**
   * `_bearer_from_header`: 401 when the header is missing, empty or not a bearer header;
   * otherwise the token after `bearer `, without surrounding whitespace.
   */
  function BearerFromHeader(authorization: Option<string>): (r: Result<string, HttpError>)
    ensures r.Err? <==> authorization.None? || !HasBearerPrefix(authorization.value)
    ensures r.Err? ==> r.error == BadAuthorization
    ensures r.Ok? ==> r.value == StripSpace(authorization.value[7..])
  {
    if authorization.None? || authorization.value == "" || !HasBearerPrefix(authorization.value) then
      Err(BadAuthorization)
    else
      var h := authorization.value;
      BearerFirstSpace(h);
      Ok(StripSpace(AfterFirst(h, " ")))
  }

  /** The token a client sends as `Bearer <token>` is read back as it was sent. */
  lemma BearerRoundTrip(token: string)
    requires token == StripSpace(token)
    ensures BearerFromHeader(Some("Bearer " + token)) == Ok(token)
  {
    var h := "Bearer " + token;
    assert Lower(h)[..7] == "bearer ";
    assert h[7..] == token;
  }

  // ---------------------------------------------------------------- the authority URL

  /** The first index of `s` holding one of `chars`, or `|s|` when there is none. */
  function FirstIn(s: string, chars: set<char>): (n: nat)
    ensures n <= |s|
    ensures forall i :: 0 <= i < n ==> s[i] !in chars
    ensures n < |s| ==> s[n] in chars
    decreases |s|
  {
    if |s| == 0 || s[0] in chars then 0 else 1 + FirstIn(s[1..], chars)
  }

  /** The last index of `s` holding `c`, if any. */
  function LastIndexOf(s: string, c: char): (r: Option<nat>)
    ensures r.Some? ==> r.value < |s| && s[r.value] == c && forall j :: r.value < j < |s| ==> s[j] != c
    ensures r.None? ==> forall j :: 0 <= j < |s| ==> s[j] != c
  {
    if |s| == 0 then None
    else if s[|s| - 1] == c then Some(|s| - 1)
    else LastIndexOf(s[..|s| - 1], c)
  }

  predicate AsciiLetter(c: char) {
    ('a' <= c <= 'z') || ('A' <= c <= 'Z')
  }

  /** `urllib.parse.scheme_chars`: letters, digits, `+`, `-` and `.`. */
  predicate SchemeChar(c: char) {
    AsciiLetter(c) || ('0' <= c <= '9') || c == '+' || c == '-' || c == '.'
  }

  /** The three parts of `urlparse`'s result that the authority needs. */
  datatype UrlParts = UrlParts(scheme: string, netloc: string, path: string)

  /**
   * The index of the colon that ends a scheme: the first colon, provided the text before
   * it is non-empty, starts with a letter and has only scheme characters.
   */
  function SchemeEnd(url: string): (r: Option<nat>)
    ensures r.Some? ==> 0 < r.value < |url| && url[r.value] == ':' && AsciiLetter(url[0]) &&
                        forall i :: 0 <= i < r.value ==> SchemeChar(url[i])
    ensures r.Some? ==> ':' !in url[..r.value]
    ensures forall i :: (0 < i < |url| && url[i] == ':' && AsciiLetter(url[0]) &&
                         forall k :: 0 <= k < i ==> SchemeChar(url[k])) ==> r == Some(i)
  {
    ColonAfterSchemeChars(url);
    match IndexOf(url, ":")
    case None => None
    case Some(i) =>
      assert url[i..i + 1] == ":";
      if i > 0 && AsciiLetter(url[0]) && forall k :: 0 <= k < i ==> SchemeChar(url[k]) then Some(i)
      else None
  }

  /** A colon preceded only by scheme characters is the first colon of the text. */
  lemma ColonAfterSchemeChars(url: string)
    ensures forall i :: 0 < i < |url| && url[i] == ':' && (forall k :: 0 <= k < i ==> SchemeChar(url[k])) ==>
                          IndexOf(url, ":") == Some(i)
  {
    forall i | 0 < i < |url| && url[i] == ':' && (forall k :: 0 <= k < i ==> SchemeChar(url[k])) {
      FirstColon(url, i);
    }
  }

  lemma FirstColon(url: string, i: nat)
    requires i < |url| && url[i] == ':' && forall k :: 0 <= k < i ==> SchemeChar(url[k])
    ensures IndexOf(url, ":") == Some(i)
  {
    assert url[i..i + 1] == [url[i]];
    assert OccursAt(url, ":", i);
    var r := IndexOf(url, ":");
    var j := r.value;
    assert j <= i;
    assert url[j..j + 1] == [url[j]];
    assert !SchemeChar(url[j]);
  }

  /** The scheme, lower-cased, or "" when the URL has none. */
  function SchemeOf(url: string): string {
    if SchemeEnd(url).Some? then Lower(url[..SchemeEnd(url).value]) else ""
  }

  /** What follows the scheme and its colon. */
  function AfterScheme(url: string): string {
    if SchemeEnd(url).Some? then url[SchemeEnd(url).value + 1..] else url
  }

  /** After a leading `//`, the network location runs to the next `/`, `?` or `#`. */
  function NetlocOf(rest: string): (n: string)
    ensures '/' !in n && '?' !in n && '#' !in n
    ensures n != "" ==> |rest| > 2 && rest[..2] == "//" && rest[2] == n[0]
    ensures !(|rest| >= 2 && rest[..2] == "//") ==> n == ""
    ensures |rest| >= 2 && rest[..2] == "//" ==>
              n <= rest[2..] && (|n| == |rest| - 2 || rest[2 + |n|] in {'/', '?', '#'})
  {
    if |rest| >= 2 && rest[..2] == "//" then
      var after := rest[2..];
      var n := after[..FirstIn(after, {'/', '?', '#'})];
      assert forall i :: 0 <= i < |n| ==> n[i] == after[i];
      n
    else ""
  }

  /** What follows the network location, if there is one. */
  function AfterNetloc(rest: string): (a: string)
    ensures !(|rest| >= 2 && rest[..2] == "//") ==> a == rest
    ensures |rest| >= 2 && rest[..2] == "//" ==> rest == "//" + NetlocOf(rest) + a
  {
    if |rest| >= 2 && rest[..2] == "//" then
      assert rest == rest[..2] + rest[2..];
      var after := rest[2..];
      var k := FirstIn(after, {'/', '?', '#'});
      assert after == after[..k] + after[k..];
      after[k..]
    else rest
  }

  /** The text before the first `c`. */
  function CutAt(s: string, c: char): (r: string)
    ensures r <= s && c !in r
    ensures |r| < |s| ==> s[|r|] == c
  {
    var r := s[..FirstIn(s, {c})];
    assert forall i :: 0 <= i < |r| ==> r[i] == s[i];
    r
  }

  /** `_splitparams`: a `;` after the last `/` starts the parameters. */
  function WithoutParams(s: string): (r: string)
    ensures r <= s
    ensures |r| < |s| ==> s[|r|] == ';' && '/' !in s[|r|..]
  {
    var from := if LastIndexOf(s, '/').Some? then LastIndexOf(s, '/').value else 0;
    s[..from + FirstIn(s[from..], {';'})]
  }

  /** The path: the rest without fragment, query and parameters. */
  function PathOf(rest: string): (p: string)
    ensures '#' !in p && '?' !in p
    ensures p <= AfterNetloc(rest)
    ensures |p| < |AfterNetloc(rest)| ==> AfterNetloc(rest)[|p|] in {'#', '?', ';'}
  {
    var a := AfterNetloc(rest);
    CutChain(a);
    WithoutParams(CutAt(CutAt(a, '#'), '?'))
  }

  /** Cutting at `#`, then at `?`, then at the parameters leaves a prefix that ends at one of them. */
  lemma CutChain(a: string)
    ensures var p := WithoutParams(CutAt(CutAt(a, '#'), '?'));
            '#' !in p && '?' !in p && p <= a && (|p| < |a| ==> a[|p|] in {'#', '?', ';'})
  {
    var noFragment := CutAt(a, '#');
    var noQuery := CutAt(noFragment, '?');
    var p := WithoutParams(noQuery);
    assert forall i :: 0 <= i < |p| ==> p[i] == noQuery[i] && noQuery[i] == noFragment[i];
    assert forall i :: 0 <= i < |noFragment| ==> noFragment[i] == a[i];
    if |p| < |noQuery| {
      assert a[|p|] == noQuery[|p|] == ';';
    } else if |p| < |noFragment| {
      assert a[|p|] == noFragment[|p|] == '?';
    }
  }

  /**
   * `urlparse(url)` reduced to scheme, network location and path: the scheme is taken off
   * and lower-cased, a `//` introduces a network location running to the next `/`, `?`
   * or `#`, the fragment and query are cut off, and so are `;` parameters of the last
   * path segment.
   */
  function ParseUrl(url: string): (u: UrlParts)
    ensures '/' !in u.netloc && '?' !in u.netloc && '#' !in u.netloc
    ensures '#' !in u.path && '?' !in u.path
  {
    UrlParts(SchemeOf(url), NetlocOf(AfterScheme(url)), PathOf(AfterScheme(url)))
  }

  /**
   * A URL written as a scheme, `://`, a host and a path that starts with `/` parses into
   * the lower-cased scheme, that host and that path.
   */
  lemma ParseUrlParts(scheme: string, host: string, path: string)
    requires scheme != "" && AsciiLetter(scheme[0]) && forall i :: 0 <= i < |scheme| ==> SchemeChar(scheme[i])
    requires '/' !in host && '?' !in host && '#' !in host
    requires path == "" || path[0] == '/'
    requires '?' !in path && '#' !in path && ';' !in path
    ensures ParseUrl(scheme + "://" + host + path) == UrlParts(Lower(scheme), host, path)
  {
    var rest := "//" + host + path;
    assert scheme + "://" + host + path == scheme + ":" + rest;
    SchemeTakenOff(scheme, rest);
    NetlocIsHost(host, path);
    PathAfterHost(host, path);
  }

  /** A scheme followed by a colon is taken off, lower-cased, and leaves what follows the colon. */
  lemma SchemeTakenOff(scheme: string, rest: string)
    requires scheme != "" && AsciiLetter(scheme[0]) && forall i :: 0 <= i < |scheme| ==> SchemeChar(scheme[i])
    ensures SchemeOf(scheme + ":" + rest) == Lower(scheme) && AfterScheme(scheme + ":" + rest) == rest
  {
    var url := scheme + ":" + rest;
    assert url[|scheme|] == ':';
    assert forall k :: 0 <= k < |scheme| ==> url[k] == scheme[k];
    assert SchemeEnd(url) == Some(|scheme|);
    assert url[..|scheme|] == scheme;
    assert url[|scheme| + 1..] == rest;
  }

  /** Behind `//` and a host, a path without query, fragment and parameters is the whole path. */
  lemma PathAfterHost(host: string, path: string)
    requires '/' !in host && '?' !in host && '#' !in host
    requires path == "" || path[0] == '/'
    requires '?' !in path && '#' !in path && ';' !in path
    ensures PathOf("//" + host + path) == path
  {
    var rest := "//" + host + path;
    NetlocIsHost(host, path);
    var a := AfterNetloc(rest);
    assert rest == "//" + host + a;
    assert a == path;
    var p := PathOf(rest);
    assert p <= path;
  }

  /** Behind `//`, a host without `/`, `?` and `#` followed by a path starting with `/` is the netloc. */
  lemma NetlocIsHost(host: string, path: string)
    requires '/' !in host && '?' !in host && '#' !in host
    requires path == "" || path[0] == '/'
    ensures NetlocOf("//" + host + path) == host
  {
    var rest := "//" + host + path;
    var n := NetlocOf(rest);
    assert rest[..2] == "//" && rest[2..] == host + path;
    assert forall i :: 0 <= i < |host| ==> rest[2 + i] == host[i];
    assert |path| > 0 ==> rest[2 + |host|] == '/';
    assert forall i :: 0 <= i < |n| ==> n[i] == rest[2 + i];
  }

  /** `s.rstrip(chars)`. */
  function RStrip(s: string, chars: set<char>): (r: string)
    ensures r <= s && (forall i :: |r| <= i < |s| ==> s[i] in chars)
    ensures r != "" ==> r[|r| - 1] !in chars
  {
    s[..|s| - TrailingRun(s, chars)]
  }

  /** The public sign-in host. */
  const LoginHost: string := "login.microsoftonline.com"

  const MissingTenant: string :=
    "Missing tenant. Set AZURE_AD_TENANT_ID or provide a full AZURE_AD_AUTHORITY like "
    + "https://login.microsoftonline.com/<tenant-id-or-domain>"

  /** `(os.getenv(name) or "").strip()`. */
  function EnvSetting(value: Option<string>): (s: string)
    ensures value.None? ==> s == ""
    ensures value.Some? ==> s == Strip(value.value, Whitespace)
    ensures s != "" ==> s[0] !in Whitespace && s[|s| - 1] !in Whitespace
  {
    if value.None? then "" else StripSpace(value.value)
  }

  /** The configured authority already names a tenant: an `https` URL with a host and a path. */
  predicate NamesTenant(raw: string) {
    HttpsHost(raw) && Strip(ParseUrl(raw).path, {'/'}) != ""
  }

  /** The URL has an `https` scheme and a host. */
  predicate HttpsHost(raw: string) {
    raw != "" && ParseUrl(raw).scheme == "https" && ParseUrl(raw).netloc != ""
  }

  /** `s` ends with `/` and the tenant. */
  predicate EndsWithTenant(s: string, tenant: string) {
    |s| > |tenant| && s[|s| - |tenant| - 1..] == "/" + tenant
  }

  /** `https://{host}/{tenant}`. */
  function TenantAuthority(host: string, tenant: string): string {
    "https://" + host + "/" + tenant
  }

  /**
   * `_build_authority` from the two stripped settings: an `https` authority with a host
   * and a path is used as it is (without trailing `/`); a host-only one gets the tenant
   * appended; otherwise the tenant goes under the public login host; with no tenant
   * there is no authority.
   */
  function BuildAuthority(raw: string, tenant: string): (r: Result<string, string>)
    ensures r.Err? <==> tenant == "" && !NamesTenant(raw)
    ensures r.Err? ==> r.error == MissingTenant
    ensures NamesTenant(raw) ==> r == Ok(RStrip(raw, {'/'}))
    ensures !NamesTenant(raw) && HttpsHost(raw) && tenant != "" ==>
              r == Ok(TenantAuthority(ParseUrl(raw).netloc, tenant))
    ensures !HttpsHost(raw) && tenant != "" ==> r == Ok(TenantAuthority(LoginHost, tenant))
    ensures !NamesTenant(raw) && tenant != "" ==> r.Ok? && EndsWithTenant(r.value, tenant)
    ensures r.Ok? ==> "https:" <= Lower(r.value)
  {
    if NamesTenant(raw) then
      HttpsHostStart(raw);
      HttpsAuthorityKept(raw);
      Ok(RStrip(raw, {'/'}))
    else if HttpsHost(raw) && tenant != "" then
      TenantUnder(ParseUrl(raw).netloc, tenant);
      Ok(TenantAuthority(ParseUrl(raw).netloc, tenant))
    else if tenant != "" then
      TenantUnder(LoginHost, tenant);
      Ok(TenantAuthority(LoginHost, tenant))
    else
      Err(MissingTenant)
  }

  /** A tenant appended to a host ends the authority, which starts with `https:`. */
  lemma TenantUnder(host: string, tenant: string)
    ensures EndsWithTenant(TenantAuthority(host, tenant), tenant)
    ensures "https:" <= Lower(TenantAuthority(host, tenant))
  {
    var s := TenantAuthority(host, tenant);
    assert s[|s| - |tenant| - 1..] == "/" + tenant;
    assert s[..6] == "https:";
    LowerPrefix(s, 6);
  }

  /** Lower-casing a prefix is a prefix of the lower-cased string. */
  lemma LowerPrefix(s: string, n: nat)
    requires n <= |s|
    ensures Lower(s)[..n] == Lower(s[..n])
  {
  }

  /** A scheme that reads `https` is the first five characters, followed by the colon. */
  lemma HttpsScheme(url: string)
    requires SchemeOf(url) == "https"
    ensures |url| > 5 && url[5] == ':' && Lower(url[..5]) == "https" && AfterScheme(url) == url[6..]
  {
    var e := SchemeEnd(url);
    assert e.Some?;
    assert |Lower(url[..e.value])| == e.value;
  }

  /**
   * A URL that starts with `https:` in some case, and whose ninth character (the first of
   * its host) is not `/`, keeps that start through the trailing-slash trim.
   */
  lemma HttpsAuthorityKept(raw: string)
    requires |raw| > 8 && raw[8] != '/' && Lower(raw[..6]) == "https:"
    ensures "https:" <= Lower(RStrip(raw, {'/'}))
  {
    var r := RStrip(raw, {'/'});
    assert |r| >= 9;
    assert r[..6] == raw[..6];
    LowerPrefix(r, 6);
  }

  /** An `https` URL with a host starts `https:` in some case, and its ninth character is no `/`. */
  lemma HttpsHostStart(raw: string)
    requires ParseUrl(raw).scheme == "https" && ParseUrl(raw).netloc != ""
    ensures |raw| > 8 && raw[8] != '/' && Lower(raw[..6]) == "https:"
  {
    HttpsScheme(raw);
    var rest := raw[6..];
    var n := NetlocOf(rest);
    assert rest[2] == n[0] != '/';
    LowerHttpsColon(raw);
  }

  lemma LowerHttpsColon(raw: string)
    requires |raw| > 5 && raw[5] == ':' && Lower(raw[..5]) == "https"
    ensures Lower(raw[..6]) == "https:"
  {
    var low := Lower(raw[..6]);
    assert forall k :: 0 <= k < 5 ==> low[k] == Lower(raw[..5])[k];
    assert low[5] == ':';
  }

  // ---------------------------------------------------------------- driveItem shaping

  /** `(v or {})`: the dictionary of a true value, or an empty one; another true value is an error. */
  function DictOr(v: Value): (r: Option<Object>)
    ensures !Truthy(v) ==> r == Some(map[])
    ensures Truthy(v) ==> (r.Some? <==> v.Obj?) && (v.Obj? ==> r == Some(v.fields))
  {
    if !Truthy(v) then Some(map[]) else if v.Obj? then Some(v.fields) else None
  }

  /** The error `.get` raises on a value that is not a dictionary. */
  const NotADict: string := "AttributeError: object has no attribute 'get'"

  /** The lean item the UI is sent; `ItemJson` gives it as the dictionary. */
  datatype ShapedItem = ShapedItem(
    id: Value, name: Value, size: Value, lastModifiedDateTime: Value, webUrl: Value,
    isFile: bool, isFolder: bool, mimeType: Value, driveId: Value)

  /** The explicit drive id counts when it is a non-empty string. */
  predicate GivenDrive(driveId: Option<string>) {
    driveId.Some? && driveId.value != ""
  }

  /**
   * `_shape_item`: the fields the UI uses. `mimeType` comes from the `file` facet and
   * `driveId` from the explicit argument when it is non-empty, else from
   * `parentReference`; a facet that is true but not a dictionary raises.
   */
  function ShapeItem(it: Object, driveId: Option<string>): (r: Result<ShapedItem, string>)
    ensures r.Err? <==> DictOr(Get(it, "file")).None? ||
                        (!GivenDrive(driveId) && DictOr(Get(it, "parentReference")).None?)
    ensures r.Ok? ==> !(r.value.isFile && r.value.isFolder)
    ensures r.Ok? ==> (r.value.isFile <==> Truthy(Get(it, "file")))
    ensures r.Ok? ==> (r.value.isFolder <==> Truthy(Get(it, "folder")) && !Truthy(Get(it, "file")))
    ensures r.Ok? && GivenDrive(driveId) ==> r.value.driveId == Str(driveId.value)
    ensures r.Ok? && !GivenDrive(driveId) ==>
              r.value.driveId == Get(DictOr(Get(it, "parentReference")).value, "driveId")
    ensures r.Ok? ==> r.value.mimeType == Get(DictOr(Get(it, "file")).value, "mimeType")
  {
    var isFile := Truthy(Get(it, "file"));
    var isFolder := Truthy(Get(it, "folder"));
    var fileFacet := DictOr(Get(it, "file"));
    if fileFacet.None? then Err(NotADict)
    else
      var drive :=
        if GivenDrive(driveId) then Some(Str(driveId.value))
        else match DictOr(Get(it, "parentReference"))
             case None => None
             case Some(parent) => Some(Get(parent, "driveId"));
      if drive.None? then Err(NotADict)
      else
        Ok(ShapedItem(Get(it, "id"), Get(it, "name"), Get(it, "size"), Get(it, "lastModifiedDateTime"),
                      Get(it, "webUrl"), isFile, isFolder && !isFile, Get(fileFacet.value, "mimeType"),
                      drive.value))
  }

  /** The shaped item as the dictionary the endpoints return. */
  function ItemJson(s: ShapedItem): (o: Object)
    ensures o.Keys == {"id", "name", "size", "lastModifiedDateTime", "webUrl",
                       "isFile", "isFolder", "mimeType", "driveId"}
    ensures o["id"] == s.id && o["name"] == s.name && o["size"] == s.size
    ensures o["lastModifiedDateTime"] == s.lastModifiedDateTime && o["webUrl"] == s.webUrl
    ensures o["isFile"] == Bool(s.isFile) && o["isFolder"] == Bool(s.isFolder)
    ensures o["mimeType"] == s.mimeType && o["driveId"] == s.driveId
  {
    map["id" := s.id, "name" := s.name, "size" := s.size,
        "lastModifiedDateTime" := s.lastModifiedDateTime, "webUrl" := s.webUrl,
        "isFile" := Bool(s.isFile), "isFolder" := Bool(s.isFolder),
        "mimeType" := s.mimeType, "driveId" := s.driveId]
  }

  /**
   * The dictionary `_shape_item` returns: the item's own fields under their names, the
   * two flags from the facets, the `file` facet's `mimeType`, and the explicit drive id
   * or else the parent reference's.
   */
  lemma ShapedItemDict(it: Object, driveId: Option<string>)
    requires ShapeItem(it, driveId).Ok?
    ensures var o := ItemJson(ShapeItem(it, driveId).value);
            o["id"] == Get(it, "id") && o["name"] == Get(it, "name") && o["size"] == Get(it, "size") &&
            o["lastModifiedDateTime"] == Get(it, "lastModifiedDateTime") && o["webUrl"] == Get(it, "webUrl") &&
            o["isFile"] == Bool(Truthy(Get(it, "file"))) &&
            o["isFolder"] == Bool(Truthy(Get(it, "folder")) && !Truthy(Get(it, "file"))) &&
            o["mimeType"] == Get(DictOr(Get(it, "file")).value, "mimeType") &&
            o["driveId"] == (if GivenDrive(driveId) then Str(driveId.value)
                             else Get(DictOr(Get(it, "parentReference")).value, "driveId"))
  {
  }

  /** An item whose `file` and `parentReference` are dictionaries or absent is always shaped. */
  lemma ShapeItemTotal(it: Object, driveId: Option<string>)
    requires !Truthy(Get(it, "file")) || Get(it, "file").Obj?
    requires !Truthy(Get(it, "parentReference")) || Get(it, "parentReference").Obj?
    ensures ShapeItem(it, driveId).Ok?
  {
  }

  // ---------------------------------------------------------------- JWT helpers

  /** `"=" * n`. */
  function Equals(n: nat): (r: string)
    ensures |r| == n && forall i :: 0 <= i < n ==> r[i] == '='
  {
    if n == 0 then "" else Equals(n - 1) + "="
  }

  predicate MultipleOfFour(n: int) {
    n % 4 == 0
  }

  /**
   * The padding `_b64url_decode` adds before decoding: `-len(s) % 4` equal signs, the
   * fewest that make the length a multiple of four.
   */
  function B64UrlPad(s: string): (r: string)
    ensures |s| <= |r| <= |s| + 3 && r[..|s|] == s && MultipleOfFour(|r|)
    ensures forall i :: |s| <= i < |r| ==> r[i] == '='
    ensures forall n :: |s| <= n < |r| ==> !MultipleOfFour(n)
  {
    s + Equals((-|s|) % 4)
  }

  /** The padding of an already padded string is nothing. */
  lemma PadIdempotent(s: string)
    ensures B64UrlPad(B64UrlPad(s)) == B64UrlPad(s)
  {
    var r := B64UrlPad(s);
    assert (-|r|) % 4 == 0;
    assert Equals(0) == "";
    assert r + "" == r;
  }

  /** What `_decode_jwt_noverify` returns: the two decoded parts, or an error with an empty payload. */
  datatype Decoded = Claims(header: Value, payload: Value) | DecodeError

  /** `.get("payload", {})` of the result. */
  function Payload(d: Decoded): Value {
    if d.Claims? then d.payload else Obj(map[])
  }

  /**
   * `_decode_jwt_noverify`. `decodePart` is `json.loads(_b64url_decode(part))`, absent when
   * that raises. A token that does not split into exactly three parts at its dots is an
   * error; the signature part is not looked at.
   */
  function DecodeJwt(token: string, decodePart: string -> Option<Value>): (d: Decoded)
    ensures Count(token, '.') != 2 ==> d == DecodeError
    ensures Count(token, '.') == 2 ==>
              var parts := Split(token, '.');
              d == if decodePart(parts[0]).Some? && decodePart(parts[1]).Some?
                   then Claims(decodePart(parts[0]).value, decodePart(parts[1]).value)
                   else DecodeError
  {
    var parts := Split(token, '.');
    if |parts| != 3 then DecodeError
    else
      match (decodePart(parts[0]), decodePart(parts[1]))
      case (Some(h), Some(p)) => Claims(h, p)
      case _ => DecodeError
  }

  /** A malformed token's payload is the empty dictionary. */
  lemma MalformedPayloadEmpty(token: string, decodePart: string -> Option<Value>)
    requires Count(token, '.') != 2
    ensures Payload(DecodeJwt(token, decodePart)) == Obj(map[])
  {
  }

  /** The claims depend on the header and payload parts only, never on the signature part. */
  lemma SignatureIgnored(h: string, p: string, s1: string, s2: string, decodePart: string -> Option<Value>)
    requires '.' !in h && '.' !in p && '.' !in s1 && '.' !in s2
    ensures DecodeJwt(h + "." + p + "." + s1, decodePart) == DecodeJwt(h + "." + p + "." + s2, decodePart)
  {
    JwtParts(h, p, s1);
    JwtParts(h, p, s2);
  }

  /** A token written as three dot-free parts splits back into them. */
  lemma JwtParts(h: string, p: string, s: string)
    requires '.' !in h && '.' !in p && '.' !in s
    ensures Count(h + "." + p + "." + s, '.') == 2 && Split(h + "." + p + "." + s, '.') == [h, p, s]
  {
    var parts := [h, p, s];
    assert Join(parts, '.') == h + "." + p + "." + s by {
      assert Join(parts[1..], '.') == p + "." + s by {
        assert parts[1..][1..] == [s];
      }
    }
    SplitJoin(parts, '.');
  }

  // ---------------------------------------------------------------- licences

  const UnlicensedPhrase: string := "tenant does not have a spo license"

  /**
   * `_is_spo_unlicensed_text`: false for a missing or empty text; otherwise the lower-cased
   * text holds the whole error phrase, or `license` together with `spo` or `sharepoint`.
   */
  predicate IsSpoUnlicensedText(txt: Option<string>) {
    txt.Some? && txt.value != "" &&
    var t := Lower(txt.value);
    Contains(t, UnlicensedPhrase) ||
    (Contains(t, "spo") && Contains(t, "license")) ||
    (Contains(t, "sharepoint") && Contains(t, "license"))
  }

  /** The whole phrase is subsumed: the test is `license` together with `spo` or `sharepoint`. */
  lemma UnlicensedSimplified(txt: Option<string>)
    ensures IsSpoUnlicensedText(txt) <==>
            txt.Some? && txt.value != "" &&
            Contains(Lower(txt.value), "license") &&
            (Contains(Lower(txt.value), "spo") || Contains(Lower(txt.value), "sharepoint"))
  {
    assert UnlicensedPhrase[23..26] == "spo" && UnlicensedPhrase[27..34] == "license";
    OccursContains(UnlicensedPhrase, "spo", 23);
    OccursContains(UnlicensedPhrase, "license", 27);
    if txt.Some? && Contains(Lower(txt.value), UnlicensedPhrase) {
      ContainsTransitive(Lower(txt.value), UnlicensedPhrase, "spo");
      ContainsTransitive(Lower(txt.value), UnlicensedPhrase, "license");
    }
  }

  /** One entry of a licence's `servicePlans`; a missing or null field is `None`. */
  datatype ServicePlan = ServicePlan(servicePlanName: Option<string>, provisioningStatus: Option<string>)

  /** One entry of `/me/licenseDetails`' `value`. */
  datatype LicenseDetail = LicenseDetail(servicePlans: seq<ServicePlan>)

  /** `(v or "")`. */
  function OrEmpty(v: Option<string>): string {
    if v.None? then "" else v.value
  }

  /** A plan that grants SharePoint: a SharePoint or OneDrive plan whose provisioning succeeded. */
  predicate GrantsSharePoint(sp: ServicePlan) {
    var name := Upper(OrEmpty(sp.servicePlanName));
    (Contains(name, "SHAREPOINT") || Contains(name, "ONEDRIVE")) &&
    Upper(OrEmpty(sp.provisioningStatus)) == "SUCCESS"
  }

  /** Some plan of some licence grants SharePoint. */
  predicate AnyGrant(details: seq<LicenseDetail>) {
    exists i, j :: 0 <= i < |details| && 0 <= j < |details[i].servicePlans| &&
                   GrantsSharePoint(details[i].servicePlans[j])
  }

  /** The nested loops over licences and their plans, leaving both at the first grant. */
  method ScanLicenses(details: seq<LicenseDetail>) returns (licensed: bool)
    ensures licensed <==> AnyGrant(details)
  {
    licensed := false;
    var i := 0;
    while i < |details|
      invariant 0 <= i <= |details|
      invariant !licensed ==> forall a, b :: 0 <= a < i && 0 <= b < |details[a].servicePlans| ==>
                                             !GrantsSharePoint(details[a].servicePlans[b])
      invariant licensed ==> AnyGrant(details)
      decreases |details| - i, !licensed
    {
      var plans := details[i].servicePlans;
      var j := 0;
      while j < |plans|
        invariant 0 <= j <= |plans|
        invariant !licensed ==> forall b :: 0 <= b < j ==> !GrantsSharePoint(plans[b])
        invariant licensed ==> AnyGrant(details)
        decreases |plans| - j, !licensed
      {
        if GrantsSharePoint(plans[j]) {
          licensed := true;
          break;
        }
        j := j + 1;
      }
      if licensed {
        break;
      }
      i := i + 1;
    }
  }

  /** What the probe reports. */
  datatype Capabilities = Capabilities(spoLicensed: bool, oneDriveAvailable: bool)

  /** A Graph response as the probe sees it: its status code, text and decoded licences. */
  datatype Response = Response(status: int, text: string, licenses: seq<LicenseDetail>)

  /**
   * `_probe_capabilities` given the responses of `/sites/root`, `/me/licenseDetails` and
   * `/me/drive`. The licence list is consulted only when the root site failed with an
   * error that does not itself say SharePoint is unlicensed; when that list cannot be
   * read either, SharePoint is assumed licensed unless its error says otherwise.
   */
  method ProbeCapabilities(site: Response, lic: Response, meDrive: Response) returns (caps: Capabilities)
    ensures caps.spoLicensed <==>
              site.status < 400 ||
              (!IsSpoUnlicensedText(Some(site.text)) &&
               (if lic.status < 400 then AnyGrant(lic.licenses) else !IsSpoUnlicensedText(Some(lic.text))))
    ensures caps.oneDriveAvailable <==> meDrive.status < 400
  {
    var spoLicensed := false;
    if site.status < 400 {
      spoLicensed := true;
    } else if IsSpoUnlicensedText(Some(site.text)) {
      spoLicensed := false;
    } else if lic.status < 400 {
      spoLicensed := ScanLicenses(lic.licenses);
    } else if !IsSpoUnlicensedText(Some(lic.text)) {
      spoLicensed := true;
    }
    caps := Capabilities(spoLicensed, meDrive.status < 400);
  }

  // ---------------------------------------------------------------- download file name

  const FilenameTrim: set<char> := {'"', ';', ' '}

  /**
   * The file name `download_item` gives the download: what follows the first `filename=`
   * in `Content-Disposition`, without surrounding quotes, semicolons and spaces; else
   * `document.pdf` for a PDF content type; else `file`. Missing headers default to ""
   * and `application/octet-stream`.
   */
  function DownloadFilename(disposition: Option<string>, contentType: Option<string>): (name: string)
    ensures !Contains(OrEmpty(disposition), "filename=") ==>
              (name == "document.pdf" <==> Contains(ContentTypeOr(contentType), "application/pdf")) &&
              (!Contains(ContentTypeOr(contentType), "application/pdf") ==> name == "file")
  {
    var disp := OrEmpty(disposition);
    if Contains(disp, "filename=") then Strip(AfterFirst(disp, "filename="), FilenameTrim)
    else if Contains(ContentTypeOr(contentType), "application/pdf") then "document.pdf"
    else "file"
  }

  /** A name taken from the header never starts or ends with a quote, a semicolon or a space. */
  lemma HeaderFilenameTrimmed(disposition: Option<string>, contentType: Option<string>)
    requires Contains(OrEmpty(disposition), "filename=")
    ensures var name := DownloadFilename(disposition, contentType);
            name != "" ==> name[0] !in FilenameTrim && name[|name| - 1] !in FilenameTrim
  {
    var disp := OrEmpty(disposition);
    var name := Strip(AfterFirst(disp, "filename="), FilenameTrim);
    assert DownloadFilename(disposition, contentType) == name;
  }

  /** The `Content-Type` header, `application/octet-stream` when missing. */
  function ContentTypeOr(contentType: Option<string>): string {
    if contentType.None? then "application/octet-stream" else contentType.value
  }

  /** The `Content-Disposition` the server itself sends for a download. */
  function AttachmentHeader(filename: string): string {
    "attachment; " + ("filename=" + Quoted(filename))
  }

  /** `"name"`. */
  function Quoted(filename: string): string {
    "\"" + filename + "\""
  }

  /** A name that neither starts nor ends with a quote, semicolon or space survives the header. */
  lemma FilenameRoundTrip(filename: string, contentType: Option<string>)
    requires filename != "" && filename[0] !in FilenameTrim && filename[|filename| - 1] !in FilenameTrim
    ensures DownloadFilename(Some(AttachmentHeader(filename)), contentType) == filename
  {
    FilenameAfterPrefix(filename);
    StripQuoted(filename);
  }

  /** The first `filename=` of the header is the one the server wrote, followed by the quoted name. */
  lemma FilenameAfterPrefix(filename: string)
    ensures Contains(AttachmentHeader(filename), "filename=")
    ensures AfterFirst(AttachmentHeader(filename), "filename=") == Quoted(filename)
  {
    var rest := "filename=" + Quoted(filename);
    IndexAfterFree("attachment; ", rest, "filename=");
    assert rest[9..] == Quoted(filename);
  }

  /** Stripping the quotes the server wrote around a name gives the name back. */
  lemma StripQuoted(filename: string)
    requires filename != "" && filename[0] !in FilenameTrim && filename[|filename| - 1] !in FilenameTrim
    ensures Strip(Quoted(filename), FilenameTrim) == filename
  {
    var quoted := Quoted(filename);
    assert quoted[1] == filename[0];
    assert LeadingRun(quoted, FilenameTrim) == 1;
    var rest := quoted[1..];
    assert rest == filename + "\"";
    assert rest[|rest| - 2] == filename[|filename| - 1];
    assert TrailingRun(rest, FilenameTrim) == 1;
    assert rest[..|rest| - 1] == filename;
  }
}
