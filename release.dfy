/**
 * `get_latest_release_asset` of both scripts: pick, from the latest release of a
 * repository, the first asset (in the feed's order) whose name ends with a suffix.
 * The HTTP response is an input; `build_pack.py` only checks the status, and
 * `atmo_pack_builder.py` first gives up on a rate-limited response.
 */
module Release {
  import opened Outcomes
  import opened Text

  /** A repository on the release feed, as the owner/name pair in the API URL. */
  datatype Repo = Repo(owner: string, name: string)

  /** One entry of `data["assets"]`: its `name` and its `browser_download_url`. */
  datatype Asset = Asset(name: string, downloadUrl: string)

  /** The feed's answer: status code, body text, and the asset list of the parsed body. */
  datatype Response = Response(status: int, text: string, assets: seq<Asset>)

  const RATE_LIMIT_STATUS := 403
  const RATE_LIMIT_MARKER := "rate limit"

  /** The statuses `raise_for_status` raises on: client and server errors. */
  predicate IsHttpError(status: int)
  {
    400 <= status < 600
  }

  /** The guard of atmo_pack_builder.py: a 403 whose body mentions "rate limit". */
  predicate IsRateLimited(resp: Response)
  {
    resp.status == RATE_LIMIT_STATUS && Contains(resp.text, RATE_LIMIT_MARKER)
  }

  predicate Matches(a: Asset, suffix: string)
  {
    EndsWith(a.name, suffix)
  }

  /** i is the position of the first asset whose name ends with suffix. */
  predicate IsFirstMatch(assets: seq<Asset>, suffix: string, i: int)
  {
    0 <= i < |assets| && Matches(assets[i], suffix) &&
    forall j :: 0 <= j < i ==> !Matches(assets[j], suffix)
  }

  /** The position the search stops at, if any asset matches. */
  function FirstMatch(assets: seq<Asset>, suffix: string): (r: Option<nat>)
    ensures r.None? <==> forall j :: 0 <= j < |assets| ==> !Matches(assets[j], suffix)
    ensures forall i :: r == Some(i) <==> IsFirstMatch(assets, suffix, i)
  {
    if |assets| == 0 then None
    else if Matches(assets[0], suffix) then Some(0)
    else
      match FirstMatch(assets[1..], suffix)
      case None => None
      case Some(i) =>
        assert IsFirstMatch(assets, suffix, i + 1) by {
          forall j | 0 <= j < i + 1 ensures !Matches(assets[j], suffix) {
            if j > 0 { assert assets[j] == assets[1..][j - 1]; }
          }
        }
        Some(i + 1)
  }

  /** What `get_latest_release_asset` of build_pack.py returns or raises for a response. */
  function Select(resp: Response, suffix: string): (r: Result<Asset>)
    ensures IsHttpError(resp.status) ==> r == Err(HttpError(resp.status))
    ensures r.Ok? ==> !IsHttpError(resp.status) && Matches(r.value, suffix) &&
                      exists i :: IsFirstMatch(resp.assets, suffix, i) && r.value == resp.assets[i]
    ensures !IsHttpError(resp.status) && r.Err? ==>
              r.error == NoAssetWithSuffix(suffix) &&
              forall j :: 0 <= j < |resp.assets| ==> !Matches(resp.assets[j], suffix)
  {
    if IsHttpError(resp.status) then Err(HttpError(resp.status))
    else
      match FirstMatch(resp.assets, suffix)
      case None => Err(NoAssetWithSuffix(suffix))
      case Some(i) => Ok(resp.assets[i])
  }

  /** What `get_latest_release_asset` of atmo_pack_builder.py returns, raises or exits with. */
  function SelectGuarded(resp: Response, suffix: string): (r: Result<Asset>)
    ensures r == Err(RateLimited) <==> IsRateLimited(resp)
    ensures !IsRateLimited(resp) ==> r == Select(resp, suffix)
  {
    if IsRateLimited(resp) then Err(RateLimited) else Select(resp, suffix)
  }

  /** The URL `get_latest_release_asset` queries for repo. */
  function ApiUrl(repo: Repo): string
  {
    "https://api.github.com/repos/" + repo.owner + "/" + repo.name + "/releases/latest"
  }

  /**
   * `get_latest_release_asset` from the request on. The answer is None when `requests.get`
   * cannot reach the API, which raises before any status or body is looked at.
   */
  function LatestAsset(answer: Option<Response>, repo: Repo, suffix: string, guarded: bool): (r: Result<Asset>)
    ensures r == Err(ConnectionFailed(ApiUrl(repo))) <==> answer.None?
    ensures answer.Some? && guarded ==> r == SelectGuarded(answer.value, suffix)
    ensures answer.Some? && !guarded ==> r == Select(answer.value, suffix)
  {
    match answer
    case None => Err(ConnectionFailed(ApiUrl(repo)))
    case Some(resp) => if guarded then SelectGuarded(resp, suffix) else Select(resp, suffix)
  }

  /** The search loop with its early return (build_pack.py). */
  method GetLatestReleaseAsset(resp: Response, suffix: string) returns (r: Result<Asset>)
    ensures r == Select(resp, suffix)
  {
    if IsHttpError(resp.status) {
      return Err(HttpError(resp.status));
    }
    var i := 0;
    while i < |resp.assets|
      invariant 0 <= i <= |resp.assets|
      invariant forall j :: 0 <= j < i ==> !Matches(resp.assets[j], suffix)
    {
      if EndsWith(resp.assets[i].name, suffix) {
        assert IsFirstMatch(resp.assets, suffix, i);
        return Ok(resp.assets[i]);
      }
      i := i + 1;
    }
    return Err(NoAssetWithSuffix(suffix));
  }

  /** The rate-limit guard, then the same search (atmo_pack_builder.py). */
  method GetLatestReleaseAssetGuarded(resp: Response, suffix: string) returns (r: Result<Asset>)
    ensures r == SelectGuarded(resp, suffix)
  {
    if resp.status == RATE_LIMIT_STATUS && Contains(resp.text, RATE_LIMIT_MARKER) {
      return Err(RateLimited);
    }
    r := GetLatestReleaseAsset(resp, suffix);
  }

  /** Assets after the first match never influence the choice. */
  lemma {:induction false} LaterAssetsIgnored(assets: seq<Asset>, more: seq<Asset>, suffix: string)
    requires FirstMatch(assets, suffix).Some?
    ensures FirstMatch(assets + more, suffix) == FirstMatch(assets, suffix)
  {
    if Matches(assets[0], suffix) {
      assert (assets + more)[0] == assets[0];
    } else {
      assert (assets + more)[1..] == assets[1..] + more;
      LaterAssetsIgnored(assets[1..], more, suffix);
    }
  }

  /** Assets that do not match are skipped: a non-matching prefix only shifts the position found. */
  lemma {:induction false} NonMatchingPrefixSkipped(skipped: seq<Asset>, rest: seq<Asset>, suffix: string)
    requires forall j :: 0 <= j < |skipped| ==> !Matches(skipped[j], suffix)
    ensures FirstMatch(skipped + rest, suffix) ==
            match FirstMatch(rest, suffix)
            case None => None
            case Some(i) => Some(|skipped| + i)
  {
    if |skipped| > 0 {
      assert (skipped + rest)[0] == skipped[0];
      assert (skipped + rest)[1..] == skipped[1..] + rest;
      NonMatchingPrefixSkipped(skipped[1..], rest, suffix);
    } else {
      assert skipped + rest == rest;
    }
  }

  /** Rate limiting wins over everything else in the response: status, body and assets. */
  lemma RateLimitPrecedesScan(resp: Response, suffix: string, assets: seq<Asset>)
    requires IsRateLimited(resp)
    ensures SelectGuarded(resp.(assets := assets), suffix) == Err(RateLimited)
    ensures SelectGuarded(resp, suffix) != Select(resp, suffix)
  {
  }
}
