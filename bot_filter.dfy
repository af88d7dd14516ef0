/** The bot classifier: a user agent is blocked when it contains one of a
    fixed list of crawler signatures. Matching is by literal, case-sensitive
    substring; any user agent without a signature passes as human traffic. */
module BotFilter {
  import opened Strings

  /** Crawler signatures, in the order they are tried. */
  const Signatures: seq<string> := [
    "AhrefsBot", "AhrefsSiteAudit", "Baiduspider", "bingbot", "BingPreview",
    "Chrome-Lighthouse", "facebookexternalhit", "PetalBot", "Pinterestbot",
    "Screaming Frog", "Yahoo! Slurp", "YandexBot",
    // crawlers run by Google
    "AdsBot-Google", "APIs-Google", "DuplexWeb-Google", "FeedFetcher-Google",
    "Google Favicon", "Google-Read-Aloud", "Googlebot", "googleweblight",
    "Mediapartners-Google", "Storebot-Google"
  ]

  /** Some signature occurs somewhere in `ua`. */
  ghost predicate Blocked(ua: string)
  {
    exists j, k :: 0 <= j < |Signatures| && OccursAt(ua, Signatures[j], k)
  }

  /** `_.isBlockedUA(ua)`: tries the signatures in order and stops at the
      first one found in `ua`. */
  method IsBlockedUA(ua: string) returns (blocked: bool)
    ensures blocked <==> Blocked(ua)
  {
    var i := 0;
    while i < |Signatures|
      invariant 0 <= i <= |Signatures|
      invariant forall j, k :: 0 <= j < i ==> !OccursAt(ua, Signatures[j], k)
    {
      if IndexOf(ua, Signatures[i], 0) != -1 {
        return true;
      }
      i := i + 1;
    }
    return false;
  }

  /** A signature anywhere in a user agent (at its start, in the middle or
      at its end) makes it blocked. */
  lemma BlockedWhenEmbedded(before: string, signature: string, after: string)
    requires signature in Signatures
    ensures Blocked(before + signature + after)
  {
    var ua := before + signature + after;
    var j :| 0 <= j < |Signatures| && Signatures[j] == signature;
    assert ua[|before|..|before| + |signature|] == signature;
    assert OccursAt(ua, Signatures[j], |before|);
  }
}
