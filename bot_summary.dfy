/**
 * The end of bot.py's `run_test`: where the page is stored and linked, the
 * fallback counters for a run without results, the percentage, the
 * fifteen-cell progress bar, and the summary embed posted to the channel.
 */
module BotSummary {
  import opened Common
  import opened Text
  import opened BotResults

  /** The link shown when nothing was uploaded. */
  const FallbackUrl := "https://console.cloud.google.com/run"
  const BucketName := "qa-allure-automation-chattigo-reports"
  const StorageHost := "https://storage.googleapis.com/"

  /**
   * The object name of an upload: report/index.html inside the folder of the
   * environment, the profile and the upload time `timestamp` (formatted as
   * "%Y-%m-%d %H-%M-%S").
   */
  function StorageKey(environment: string, profile: string, timestamp: string): (key: string)
    ensures StartsWith(key, environment + "/" + profile + "/" + timestamp + "/")
    ensures |key| >= 18 && key[|key| - 18..] == "/report/index.html"
  {
    environment + "/" + profile + "/" + timestamp + "/report/index.html"
  }

  /**
   * The upload time reads back from the key, so uploads of one environment
   * and profile at different times never overwrite each other.
   */
  lemma StorageKeyNamesTimestamp(environment: string, profile: string, timestamp: string)
    ensures var key := StorageKey(environment, profile, timestamp);
      key[|environment| + |profile| + 2..|key| - 18] == timestamp
  {
    var key := StorageKey(environment, profile, timestamp);
    var folder := environment + "/" + profile + "/";
    assert key == folder + timestamp + "/report/index.html";
  }

  lemma HostHasNoSpace()
    ensures ' ' !in StorageHost
  {
    forall i | 0 <= i < |StorageHost| ensures StorageHost[i] != ' ' {}
  }

  lemma BucketHasNoSpace()
    ensures ' ' !in BucketName
  {
    forall i | 0 <= i < |BucketName| ensures BucketName[i] != ' ' {}
  }

  /** The public link of an uploaded page: every space of the key percent-encoded. */
  function PublicUrl(key: string): (url: string)
    ensures ' ' !in url
    ensures StartsWith(url, StorageHost + BucketName + "/")
  {
    var prefix := StorageHost + BucketName + "/";
    HostHasNoSpace();
    BucketHasNoSpace();
    var url := prefix + Replace(key, " ", "%20");
    assert url[..|prefix|] == prefix;
    url
  }

  /** The key can be read back from the link by decoding "%20". */
  lemma PublicUrlNamesKey(environment: string, profile: string, timestamp: string)
    requires '%' !in environment + profile + timestamp
    ensures var key := StorageKey(environment, profile, timestamp);
      var prefix := StorageHost + BucketName + "/";
      Replace(PublicUrl(key)[|prefix|..], "%20", " ") == key
  {
    var key := StorageKey(environment, profile, timestamp);
    assert '%' !in key by {
      assert forall c :: c in key ==> c in environment + profile + timestamp || c in "/report/index.html";
    }
    SpaceEscapeRoundTrip(key);
    var prefix := StorageHost + BucketName + "/";
    assert PublicUrl(key)[|prefix|..] == Replace(key, " ", "%20");
  }

  /**
   * A run whose summary reported no tests counts as one test, passed when
   * pytest exited with 0 and failed otherwise; any other counters stay.
   */
  function Fallback(c: Counters, returncode: int): (r: Counters)
    ensures r.total != 0
    ensures c.total != 0 ==> r == c
    ensures c.total == 0 && returncode == 0 ==> r.total == 1 && r.passed == 1 && r.failed == c.failed
    ensures c.total == 0 && returncode != 0 ==> r.total == 1 && r.failed == 1 && r.passed == c.passed
  {
    if c.total != 0 then c
    else if returncode == 0 then c.(passed := 1, total := 1)
    else c.(failed := 1, total := 1)
  }

  /** Python's `int(x)` on a real: truncation toward zero. */
  function Trunc(x: real): int {
    if x >= 0.0 then x.Floor else -((-x).Floor)
  }

  /** Integer division truncating toward zero, as `int(n / t)` computes it exactly. */
  function TruncDiv(n: int, t: int): int
    requires t > 0
  {
    if n >= 0 then n / t else -((-n) / t)
  }

  /** The exact quotient of two integers floors to their integer quotient. */
  lemma FloorOfQuotient(n: nat, t: int)
    requires t > 0
    ensures ((n as real) / (t as real)).Floor == n / t
  {
    var f, r := n / t, n % t;
    assert n == f * t + r && 0 <= r < t;
    var q := (n as real) / (t as real);
    assert q * (t as real) == n as real;
    assert (f as real) * (t as real) <= q * (t as real);
    assert q * (t as real) < ((f + 1) as real) * (t as real);
    ProductOrder(f as real, q, t as real);
    ProductOrder(q, (f + 1) as real, t as real);
  }

  lemma ProductOrder(x: real, y: real, t: real)
    requires t > 0.0
    ensures x * t <= y * t ==> x <= y
    ensures x * t < y * t ==> x < y
  {
  }

  /** `int((passed / total) * 100)` when total > 0, else 0. */
  function Percentage(c: Counters): (pct: int)
    ensures c.total <= 0 ==> pct == 0
    ensures c.total > 0 ==> pct == TruncDiv(100 * c.passed, c.total)
  {
    if c.total > 0 then
      var q := (c.passed as real / c.total as real) * 100.0;
      assert q == ((100 * c.passed) as real) / (c.total as real);
      if c.passed >= 0 then
        FloorOfQuotient(100 * c.passed, c.total);
        Trunc(q)
      else
        assert -q == ((-(100 * c.passed)) as real) / (c.total as real);
        FloorOfQuotient(-(100 * c.passed), c.total);
        Trunc(q)
    else 0
  }

  /**
   * For a consistent summary the percentage is the floor of the exact ratio,
   * between 0 and 100, 0 when nothing passed and 100 exactly when every
   * test passed.
   */
  lemma PercentageBounds(c: Counters)
    requires 0 <= c.passed <= c.total && 0 < c.total
    ensures Percentage(c) * c.total <= 100 * c.passed < (Percentage(c) + 1) * c.total
    ensures 0 <= Percentage(c) <= 100
    ensures Percentage(c) == 100 <==> c.passed == c.total
    ensures c.passed == 0 ==> Percentage(c) == 0
  {
    var n, t := 100 * c.passed, c.total;
    var pct := Percentage(c);
    assert pct == n / t;
    DivisionBounds(n, t);
    assert pct <= 100 by {
      if pct > 100 {
        ScaleOrder(101, pct, t);
        ScaleOrder(c.passed, c.total, 100);
      }
    }
    assert pct == 100 ==> c.passed == c.total by {
      if pct == 100 && c.passed < c.total {
        ScaleOrder(c.passed + 1, c.total, 100);
      }
    }
    assert c.passed == c.total ==> pct == 100 by {
      if c.passed == c.total {
        MultipleDivides(100, t);
      }
    }
  }

  lemma MultipleDivides(k: nat, t: int)
    requires t > 0
    ensures (k * t) / t == k
  {
    DivisionBounds(k * t, t);
    var d := (k * t) / t;
    if d < k {
      ScaleOrder(d + 1, k, t);
    } else if d > k {
      ScaleOrder(k + 1, d, t);
    }
  }

  lemma DivisionBounds(n: nat, t: int)
    requires t > 0
    ensures 0 <= n / t
    ensures (n / t) * t <= n < (n / t + 1) * t
  {
    assert n == (n / t) * t + n % t;
  }

  lemma ScaleOrder(a: int, b: int, t: int)
    requires a <= b && t >= 0
    ensures a * t <= b * t
  {
  }

  const BarLength := 15

  /** `int(15 * percentage // 100)`: Python's floor division, the same as Dafny's for a positive divisor. */
  function Filled(pct: int): int {
    BarLength * pct / 100
  }

  datatype Cell = Green | White

  /** Filled cells in green, the rest of the fifteen in white (a negative repeat is empty). */
  function Bar(pct: int): (bar: seq<Cell>)
    ensures 0 <= pct <= 100 ==> |bar| == BarLength
    ensures forall k :: 0 <= k < |bar| ==> (bar[k] == Green <==> k < Filled(pct))
  {
    var filled := Filled(pct);
    var green := if filled > 0 then filled else 0;
    var white := if BarLength - filled > 0 then BarLength - filled else 0;
    seq(green, _ => Green) + seq(white, _ => White)
  }

  /** A full bar at 100 %, an empty one below 7 %, and 12 green cells at 80 %. */
  lemma BarLandmarks()
    ensures Bar(100) == seq(BarLength, _ => Green)
    ensures forall pct :: 0 <= pct < 7 ==> Bar(pct) == seq(BarLength, _ => White)
    ensures |Bar(80)| == 15 && Bar(80)[11] == Green && Bar(80)[12] == White
  {
    assert Bar(100) == seq(BarLength, _ => Green);
    forall pct | 0 <= pct < 7
      ensures Bar(pct) == seq(BarLength, _ => White)
    {
      assert Filled(pct) == 0;
    }
  }

  /** Green for pytest's exit code 0, red otherwise, whatever the counts. */
  function Color(returncode: int): (color: int)
    ensures color == 0x00ff00 <==> returncode == 0
    ensures color != 0x00ff00 ==> color == 0xff0000
  {
    if returncode == 0 then 0x00ff00 else 0xff0000
  }

  /**
   * The embed title: profile and environment in brackets, then the
   * percentage, which reads back as a decimal number between the head and
   * the closing " % -".
   */
  function Title(profile: string, environment: string, pct: int): (t: string)
    ensures var head := "[" + profile + "][" + environment + "]: ";
      && |head| <= |t| - 4 && t[..|head|] == head && t[|t| - 4..] == " % -"
      && ParseInt(t[|head|..|t| - 4]) == Some(pct)
  {
    var head := "[" + profile + "][" + environment + "]: ";
    var t := head + ShowInt(pct) + " % -";
    assert t[|head|..|t| - 4] == ShowInt(pct);
    ParseShow(pct);
    t
  }

  /** The summary embed: title, link, counters and bar in the description, and colour. */
  datatype Embed = Embed(title: string, url: string, counters: Counters, bar: seq<Cell>, color: int)

  function SummaryEmbed(profile: string, environment: string, c: Counters, returncode: int, url: string)
    : (e: Embed)
    ensures e.counters == Fallback(c, returncode) && e.counters.total != 0
    ensures e.bar == Bar(Percentage(e.counters)) && e.url == url
    ensures e.title == Title(profile, environment, Percentage(e.counters))
    ensures e.color == Color(returncode)
  {
    var shown := Fallback(c, returncode);
    var pct := Percentage(shown);
    Embed(Title(profile, environment, pct), url, shown, Bar(pct), Color(returncode))
  }

  /**
   * A run without results is reported as all passed (100 %, full bar,
   * green) exactly when pytest exited with 0, and as 0 % and red otherwise.
   */
  lemma EmptyRunFollowsExitCode(profile: string, environment: string, passed: int, failed: int, returncode: int, url: string)
    requires passed == 0
    ensures var e := SummaryEmbed(profile, environment, Counters(passed, failed, 0), returncode, url);
      && (returncode == 0 ==> Percentage(e.counters) == 100 && e.bar == seq(BarLength, _ => Green))
      && (returncode != 0 ==> Percentage(e.counters) == 0 && e.color == 0xff0000)
  {
    var e := SummaryEmbed(profile, environment, Counters(passed, failed, 0), returncode, url);
    BarLandmarks();
    if returncode == 0 {
      PercentageBounds(e.counters);
    } else {
      assert e.counters == Counters(0, 1, 1);
    }
  }
}
