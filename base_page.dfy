/**
 * `BasePage` of tests/pages/base_page.py: keeps the browser context's base
 * URL without trailing slashes and resolves relative navigation paths
 * against it. The Playwright page itself is not modelled; navigation is
 * represented by the URL it is sent to.
 */
module BasePages {
  import opened Common
  import opened Text

  /** What `page.locator(selector).is_visible()` did. */
  datatype Probe = Answered(visible: bool) | Raised

  class BasePage {
    const baseUrl: string

    /** `getattr(page.context, "base_url", "").rstrip("/")`. */
    constructor (contextBaseUrl: Option<string>)
      ensures baseUrl == RStrip(contextBaseUrl.GetOr(""), '/')
    {
      baseUrl := RStrip(contextBaseUrl.GetOr(""), '/');
    }

    /** The URL `goto(path)` navigates to. */
    function GotoTarget(path: string): (url: string)
      ensures StartsWith(path, "http") ==> url == path
      ensures !StartsWith(path, "http") ==> url == baseUrl + path
    {
      if StartsWith(path, "http") then path else baseUrl + path
    }

    /** `visible`: the probe's answer, and False instead of any exception. */
    function Visible(probe: Probe): (r: bool)
      ensures r <==> probe == Answered(true)
    {
      match probe
      case Answered(v) => v
      case Raised => false
    }
  }

  /**
   * The stored base URL never ends in "/", and only slashes were cut, so a
   * relative path starting with a single "/" is joined without a doubled
   * separator.
   */
  lemma {:induction false} JoinHasSingleSlash(contextBaseUrl: string, path: string)
    requires |path| >= 2 && path[0] == '/' && path[1] != '/'
    requires !StartsWith(path, "http")
    ensures var base := RStrip(contextBaseUrl, '/');
      var url := base + path;
      && StartsWith(contextBaseUrl, base)
      && (forall k :: |base| <= k < |contextBaseUrl| ==> contextBaseUrl[k] == '/')
      && (|base| == 0 || url[|base| - 1] != '/')
      && url[|base|..] == path
  {
    var base := RStrip(contextBaseUrl, '/');
    assert (base + path)[|base|..] == path;
  }
}
