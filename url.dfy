/**
 * The URL of a request (src/XiocaAPI/__init__.py:83 and :119): the base URL
 * without its trailing slashes, one slash, and the endpoint without its
 * leading slashes.
 */
module Url {

  /** The production base URL the clients use when none is given. */
  const DefaultBaseUrl: string := "https://xioca.live/api/"

  /** The endpoint both resource handlers post to. */
  const ChatEndpoint: string := "ai"

  predicate AllSlashes(s: string)
  {
    forall i :: 0 <= i < |s| ==> s[i] == '/'
  }

  /** `s.rstrip('/')`: what is left is a prefix of `s` followed only by slashes, and does not end in one. */
  function TrimTrailingSlashes(s: string): (r: string)
    ensures r <= s
    ensures AllSlashes(s[|r|..])
    ensures r == [] || r[|r| - 1] != '/'
    decreases |s|
  {
    if |s| > 0 && s[|s| - 1] == '/' then
      var r := TrimTrailingSlashes(s[..|s| - 1]);
      assert s[|r|..] == s[..|s| - 1][|r|..] + ['/'];
      r
    else s
  }

  /** `s.lstrip('/')`: what is left is a suffix of `s` preceded only by slashes, and does not start with one. */
  function TrimLeadingSlashes(s: string): (r: string)
    ensures |r| <= |s| && r == s[|s| - |r|..]
    ensures AllSlashes(s[..|s| - |r|])
    ensures r == [] || r[0] != '/'
    decreases |s|
  {
    if |s| > 0 && s[0] == '/' then
      var r := TrimLeadingSlashes(s[1..]);
      assert s[..|s| - |r|] == ['/'] + s[1..][..|s| - 1 - |r|];
      r
    else s
  }

  /**
   * `base.rstrip('/') + '/' + endpoint.lstrip('/')`: the URL begins with a
   * prefix of the base and ends with a suffix of the endpoint, and the slash
   * put between them has no slash on either side.
   */
  function Join(base: string, endpoint: string): (url: string)
    ensures var i := |TrimTrailingSlashes(base)|;
            i < |url| && url[..i] <= base && url[i] == '/' &&
            (i == 0 || url[i - 1] != '/') &&
            (i + 1 == |url| || url[i + 1] != '/')
    ensures var j := |TrimLeadingSlashes(endpoint)|;
            j < |url| && url[|url| - j..] == endpoint[|endpoint| - j..]
  {
    TrimTrailingSlashes(base) + "/" + TrimLeadingSlashes(endpoint)
  }

  /** Trimming trailing slashes gives back any slash-free-ended prefix followed only by slashes. */
  lemma {:induction false} TrimTrailingExact(p: string, t: string)
    requires AllSlashes(t)
    requires p == [] || p[|p| - 1] != '/'
    ensures TrimTrailingSlashes(p + t) == p
    decreases |t|
  {
    if t != [] {
      assert (p + t)[..|p + t| - 1] == p + t[..|t| - 1];
      TrimTrailingExact(p, t[..|t| - 1]);
    } else {
      assert p + t == p;
    }
  }

  /** Trimming leading slashes gives back any suffix not starting with a slash, preceded only by slashes. */
  lemma {:induction false} TrimLeadingExact(t: string, q: string)
    requires AllSlashes(t)
    requires q == [] || q[0] != '/'
    ensures TrimLeadingSlashes(t + q) == q
    decreases |t|
  {
    if t != [] {
      assert (t + q)[0] == '/';
      assert (t + q)[1..] == t[1..] + q;
      TrimLeadingExact(t[1..], q);
    } else {
      assert t + q == q;
    }
  }

  /**
   * The joined URL is determined by the split of each part into its core and
   * its slashes: whatever slashes stood at the joint, exactly one remains.
   */
  lemma JoinExact(p: string, t1: string, t2: string, q: string)
    requires AllSlashes(t1) && AllSlashes(t2)
    requires p == [] || p[|p| - 1] != '/'
    requires q == [] || q[0] != '/'
    ensures Join(p + t1, t2 + q) == p + "/" + q
  {
    TrimTrailingExact(p, t1);
    TrimLeadingExact(t2, q);
  }

  /** Extra trailing slashes on the base are trimmed with the others. */
  lemma TrimTrailingAbsorbs(base: string, extra: string)
    requires AllSlashes(extra)
    ensures TrimTrailingSlashes(base + extra) == TrimTrailingSlashes(base)
  {
    var p := TrimTrailingSlashes(base);
    var t := base[|p|..];
    SlashesAppend(t, extra);
    assert base + extra == p + (t + extra) by { assert base == p + t; }
    TrimTrailingExact(p, t + extra);
  }

  /** Extra leading slashes on the endpoint are trimmed with the others. */
  lemma {:induction false} TrimLeadingAbsorbs(extra: string, endpoint: string)
    requires AllSlashes(extra)
    ensures TrimLeadingSlashes(extra + endpoint) == TrimLeadingSlashes(endpoint)
    decreases |extra|
  {
    if extra == [] {
      assert extra + endpoint == endpoint;
    } else {
      assert (extra + endpoint)[1..] == extra[1..] + endpoint;
      TrimLeadingAbsorbs(extra[1..], endpoint);
    }
  }

  /** Adding or removing slashes at the end of the base or the start of the endpoint does not change the URL. */
  lemma JoinIgnoresExtraSlashes(base: string, extra1: string, extra2: string, endpoint: string)
    requires AllSlashes(extra1) && AllSlashes(extra2)
    ensures Join(base + extra1, extra2 + endpoint) == Join(base, endpoint)
  {
    TrimTrailingAbsorbs(base, extra1);
    TrimLeadingAbsorbs(extra2, endpoint);
  }

  lemma SlashesAppend(a: string, b: string)
    requires AllSlashes(a) && AllSlashes(b)
    ensures AllSlashes(a + b)
  {
  }

  /** With the default base URL the handlers post to `https://xioca.live/api/ai`. */
  lemma DefaultEndpointUrl()
    ensures Join(DefaultBaseUrl, ChatEndpoint) == "https://xioca.live/api/ai"
  {
    assert DefaultBaseUrl == "https://xioca.live/api" + "/";
    assert ChatEndpoint == "" + "ai";
    JoinExact("https://xioca.live/api", "/", "", "ai");
  }
}
