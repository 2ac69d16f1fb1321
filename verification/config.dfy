/** The GitHub coordinates record of `src/config/github.ts`: the record itself,
    its defaults, the object-spread merge of a partial update, the token getter
    and the Contents API URL built from the coordinates. */
module GitHubConfig {
  import opened Wrappers

  /** `GitHubConfig`: repository owner, repository name, file path and an
      optional access token (`None` is `undefined`). */
  datatype Config = Config(owner: string, repo: string, path: string, token: Option<string>)

  /** `Partial<GitHubConfig>`: `None` means the key is absent. For the token,
      `Some(None)` is a key that is present with the value `undefined`, which
      the record type allows because `token` is optional. */
  datatype Patch = Patch(owner: Option<string>, repo: Option<string>, path: Option<string>,
                         token: Option<Option<string>>)

  /** `defaultConfig`. Its token is the empty string, so it cannot write. */
  const Default: Config := Config("MaxCosmos2001", "nav_data", "nav.json", Some(""))

  /** The partial object with no keys at all. */
  const NoChange: Patch := Patch(None, None, None, None)

  /** The patch whose every key is present, taken from a whole record. */
  function Whole(c: Config): Patch {
    Patch(Some(c.owner), Some(c.repo), Some(c.path), Some(c.token))
  }

  /** `{ ...c, ...p }`: every key present in `p` takes its value from `p`,
      every absent key keeps its value from `c`. */
  function Merge(c: Config, p: Patch): (r: Config)
    ensures p.owner.Some? ==> r.owner == p.owner.value
    ensures p.owner.None? ==> r.owner == c.owner
    ensures p.repo.Some? ==> r.repo == p.repo.value
    ensures p.repo.None? ==> r.repo == c.repo
    ensures p.path.Some? ==> r.path == p.path.value
    ensures p.path.None? ==> r.path == c.path
    ensures p.token.Some? ==> r.token == p.token.value
    ensures p.token.None? ==> r.token == c.token
  {
    Config(p.owner.GetOr(c.owner), p.repo.GetOr(c.repo), p.path.GetOr(c.path), p.token.GetOr(c.token))
  }

  /** `{ ...p, ...q }`: the patch that has the keys of both, `q` winning. */
  function Then(p: Patch, q: Patch): Patch {
    Patch(if q.owner.Some? then q.owner else p.owner,
          if q.repo.Some? then q.repo else p.repo,
          if q.path.Some? then q.path else p.path,
          if q.token.Some? then q.token else p.token)
  }

  /** An empty patch changes nothing; a whole patch replaces everything. */
  lemma MergeIdentity(c: Config, d: Config)
    ensures Merge(c, NoChange) == c
    ensures Merge(c, Whole(d)) == d
  {
  }

  /** Two successive spreads are one spread of the combined patch, so applying
      the same patch twice is the same as applying it once. */
  lemma MergeCompose(c: Config, p: Patch, q: Patch)
    ensures Merge(Merge(c, p), q) == Merge(c, Then(p, q))
    ensures Merge(Merge(c, p), p) == Merge(c, p)
  {
  }

  /** `getGitHubToken`: `token || ''`. Never undefined; empty exactly when the
      token is missing or empty, and otherwise the configured token. */
  function GetToken(c: Config): (r: string)
    ensures r == "" <==> c.token == None || c.token == Some("")
    ensures r != "" ==> c.token == Some(r)
    ensures c.token.Some? ==> r == c.token.value
  {
    match c.token
    case Some(t) => t
    case None => ""
  }

  /** The record with an undefined token replaced by `''`: what a JSON round
      trip merged over the defaults gives back. It changes no observable
      value: coordinates and `GetToken` are the same. */
  function Normalize(c: Config): (r: Config)
    ensures r.token.Some?
    ensures GetToken(r) == GetToken(c)
    ensures r.owner == c.owner && r.repo == c.repo && r.path == c.path
    ensures c.token.Some? ==> r == c
  {
    c.(token := Some(GetToken(c)))
  }

  /** The fixed prefix of every Contents API URL. */
  const ApiBase: string := "https://api.github.com/repos/"

  /** The segment between the repository name and the file path. */
  const ContentsSegment: string := "/contents/"

  /** `getGitHubApiUrl`: the Contents API URL of the configured file. */
  function ApiUrl(c: Config): (r: string)
    ensures |r| == |ApiBase| + |c.owner| + 1 + |c.repo| + |ContentsSegment| + |c.path|
    ensures r[..|ApiBase|] == ApiBase
    ensures r[|ApiBase|..|ApiBase| + |c.owner|] == c.owner
    ensures r[|ApiBase| + |c.owner|..|r| - |c.path|] == "/" + c.repo + ContentsSegment
    ensures r[|r| - |c.path|..] == c.path
  {
    ApiBase + c.owner + "/" + c.repo + ContentsSegment + c.path
  }

  /** The three coordinates that a Contents API URL names. */
  datatype Coordinates = Coordinates(owner: string, repo: string, path: string)

  /** The coordinates of a record. */
  function CoordinatesOf(c: Config): Coordinates {
    Coordinates(c.owner, c.repo, c.path)
  }

  /** `s` contains no '/'. */
  predicate NoSlash(s: string) {
    forall k :: 0 <= k < |s| ==> s[k] != '/'
  }

  /** Owner and repository name contain no '/', as on GitHub. */
  predicate SlashFree(c: Config) {
    NoSlash(c.owner) && NoSlash(c.repo)
  }

  /** The index of the first '/' in `s`, or `|s|` when there is none. */
  function FirstSlash(s: string): (i: nat)
    ensures i <= |s|
    ensures NoSlash(s[..i])
    ensures i < |s| ==> s[i] == '/'
  {
    if |s| == 0 || s[0] == '/' then 0
    else
      var i := 1 + FirstSlash(s[1..]);
      assert s[..i] == [s[0]] + s[1..][..i - 1];
      i
  }

  /** `s` without the leading `prefix`, if it starts with it. */
  function StripPrefix(prefix: string, s: string): (r: Option<string>)
    ensures r.Some? <==> prefix <= s
    ensures r.Some? ==> s == prefix + r.value
  {
    if prefix <= s then Some(s[|prefix|..]) else None
  }

  /** The part of `s` before its first '/' and the part after it. */
  function SplitAtSlash(s: string): (r: Option<(string, string)>)
    ensures r.Some? ==> s == r.value.0 + "/" + r.value.1 && NoSlash(r.value.0)
  {
    var i := FirstSlash(s);
    if i == |s| then None
    else
      assert s == s[..i] + "/" + s[i + 1..];
      Some((s[..i], s[i + 1..]))
  }

  lemma StripPrefixOf(prefix: string, s: string)
    ensures StripPrefix(prefix, prefix + s) == Some(s)
  {
  }

  lemma {:induction false} SplitAtSlashOf(a: string, b: string)
    requires NoSlash(a)
    ensures SplitAtSlash(a + "/" + b) == Some((a, b))
  {
    var s := a + "/" + b;
    var i := FirstSlash(s);
    assert s[..|a|] == a;
    assert s[|a|] == '/';
    assert i == |a|;
    assert s[i + 1..] == b;
  }

  /** Reads the coordinates back out of a Contents API URL: the inverse of
      `ApiUrl` for owners and repository names without '/'. */
  function ParseApiUrl(u: string): Option<Coordinates> {
    match StripPrefix(ApiBase, u)
    case None => None
    case Some(rest) =>
      match SplitAtSlash(rest)
      case None => None
      case Some((owner, afterOwner)) =>
        match SplitAtSlash(afterOwner)
        case None => None
        case Some((repo, afterRepo)) =>
          match StripPrefix("contents/", afterRepo)
          case None => None
          case Some(path) => Some(Coordinates(owner, repo, path))
  }

  /** The URL as nested concatenations, one per parsing step. */
  lemma ApiUrlNested(c: Config)
    ensures ApiUrl(c) == ApiBase + (c.owner + "/" + (c.repo + "/" + ("contents/" + c.path)))
  {
  }

  /** `ParseApiUrl` recovers the coordinates of every record whose owner and
      repository name contain no '/'. */
  lemma {:induction false} ApiUrlRoundTrip(c: Config)
    requires SlashFree(c)
    ensures ParseApiUrl(ApiUrl(c)) == Some(CoordinatesOf(c))
  {
    var afterRepo := "contents/" + c.path;
    var afterOwner := c.repo + "/" + afterRepo;
    var rest := c.owner + "/" + afterOwner;
    ApiUrlNested(c);
    StripPrefixOf(ApiBase, rest);
    SplitAtSlashOf(c.owner, afterOwner);
    SplitAtSlashOf(c.repo, afterRepo);
    StripPrefixOf("contents/", c.path);
  }

  /** Every URL that `ParseApiUrl` accepts is the URL of the coordinates it
      returns, and those have no '/' in owner or repository: the parser
      invents nothing. */
  lemma {:induction false} ParseApiUrlSound(u: string, c: Config)
    requires ParseApiUrl(u) == Some(CoordinatesOf(c))
    ensures ApiUrl(c) == u
    ensures SlashFree(c)
  {
    ApiUrlNested(c);
  }

  /** Distinct coordinates without '/' in owner or repository give distinct
      URLs, so the URL identifies the file that is read and written. */
  lemma ApiUrlInjective(c: Config, d: Config)
    requires SlashFree(c) && SlashFree(d)
    requires ApiUrl(c) == ApiUrl(d)
    ensures CoordinatesOf(c) == CoordinatesOf(d)
  {
    ApiUrlRoundTrip(c);
    ApiUrlRoundTrip(d);
  }
}
