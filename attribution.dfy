/** The attribution parser: reads marketing-attribution parameters (UTM
    campaign tags and ad-platform click IDs) out of the query component of a
    page URL. The URL is an explicit argument instead of the ambient
    `document.URL`. */
module Attribution {
  import opened Strings

  /** One `key=value` pair of a query string. */
  datatype Pair = Pair(key: string, value: string)

  /** What the parser reports for one requested key: the value found in the
      URL, the default the caller supplied, or nothing (JavaScript's
      `undefined`, kept apart from a supplied `null` default). */
  datatype Param<D> = Present(value: string) | Defaulted(fallback: D) | Absent

  const UtmKeys: seq<string> := ["utm_source", "utm_medium", "utm_campaign", "utm_content", "utm_term"]

  const ClickKeys: seq<string> :=
    ["dclid", "fbclid", "gclid", "ko_click_id", "li_fat_id", "msclkid", "ttclid", "twclid", "wbraid"]

  /** The query component of a URL (section 3.4 of RFC 3986): what follows
      the first `?`, up to the first `#`; empty when there is no `?`. */
  function QueryComponent(url: string): (query: string)
    ensures '#' !in query
  {
    var beforeFragment := match Find(url, '#') case None => url case Some(i) => url[..i];
    match Find(beforeFragment, '?')
    case None => ""
    case Some(i) => beforeFragment[i + 1..]
  }

  /** A segment splits at its first `=`; a segment without `=` is no pair. */
  function ParseSegment(segment: string): Option<Pair>
  {
    match Find(segment, '=')
    case None => None
    case Some(i) => Some(Pair(segment[..i], segment[i + 1..]))
  }

  /** The pairs of the `&`-separated segments, in order. */
  function ParsePairs(segments: seq<string>): seq<Pair>
  {
    if |segments| == 0 then []
    else
      match ParseSegment(segments[0])
      case None => ParsePairs(segments[1..])
      case Some(p) => [p] + ParsePairs(segments[1..])
  }

  function ParseQuery(query: string): seq<Pair>
  {
    ParsePairs(Split(query, '&'))
  }

  /** The value of the first pair with `key`, if there is one. */
  function FirstValue(pairs: seq<Pair>, key: string): Option<string>
  {
    if |pairs| == 0 then None
    else if pairs[0].key == key then Some(pairs[0].value)
    else FirstValue(pairs[1..], key)
  }

  /** No value is found exactly when no pair has `key`. */
  lemma {:induction false} FirstValueNone(pairs: seq<Pair>, key: string)
    ensures FirstValue(pairs, key).None? <==> forall i :: 0 <= i < |pairs| ==> pairs[i].key != key
  {
    if |pairs| > 0 {
      FirstValueNone(pairs[1..], key);
      assert forall i :: 0 < i < |pairs| ==> pairs[i] == pairs[1..][i - 1];
    }
  }

  /** A value that is found belongs to a pair with `key` that no earlier pair
      with `key` precedes. */
  lemma {:induction false} FirstValueSome(pairs: seq<Pair>, key: string)
    requires FirstValue(pairs, key).Some?
    ensures exists i ::
              && 0 <= i < |pairs|
              && pairs[i] == Pair(key, FirstValue(pairs, key).value)
              && forall j :: 0 <= j < i ==> pairs[j].key != key
  {
    if pairs[0].key != key {
      FirstValueSome(pairs[1..], key);
      var i :| 0 <= i < |pairs| - 1 && pairs[1..][i] == Pair(key, FirstValue(pairs, key).value) &&
        (forall j :: 0 <= j < i ==> pairs[1..][j].key != key);
      assert pairs[i + 1] == pairs[1..][i];
      assert forall j :: 0 < j < i + 1 ==> pairs[j] == pairs[1..][j - 1];
    } else {
      assert pairs[0] == Pair(key, FirstValue(pairs, key).value);
    }
  }

  /** The converse: the first pair with a key determines the value found for
      that key. */
  lemma {:induction false} FirstValueAt(pairs: seq<Pair>, i: nat)
    requires i < |pairs|
    requires forall j :: 0 <= j < i ==> pairs[j].key != pairs[i].key
    ensures FirstValue(pairs, pairs[i].key) == Some(pairs[i].value)
  {
    if i > 0 {
      assert forall j :: 0 <= j < i - 1 ==> pairs[1..][j] == pairs[j + 1];
      FirstValueAt(pairs[1..], i - 1);
    }
  }

  /** The value the URL gives `key`, or the empty string when it gives none. */
  function QueryParam(url: string, key: string): string
  {
    match FirstValue(ParseQuery(QueryComponent(url)), key)
    case Some(v) => v
    case None => ""
  }

  /** The result for one key: a non-empty value found in the URL is reported
      as is; otherwise the caller's default when one was supplied, and
      nothing when none was. */
  function Resolve<D>(url: string, key: string, default: Option<D>): (param: Param<D>)
    ensures param.Present? <==> QueryParam(url, key) != ""
    ensures param.Present? ==> param.value == QueryParam(url, key)
    ensures param.Defaulted? <==> QueryParam(url, key) == "" && default.Some?
    ensures param.Defaulted? ==> default == Some(param.fallback)
  {
    var v := QueryParam(url, key);
    if |v| > 0 then Present(v)
    else match default
      case Some(d) => Defaulted(d)
      case None => Absent
  }

  /** `_.info.campaignParams(default)`: one entry per UTM key. An entry holds
      the key's value exactly when the URL gives it a non-empty value; the
      other keys hold the default if the caller passed one, and are absent if
      not. */
  function CampaignParams<D>(url: string, default: Option<D>): (params: map<string, Param<D>>)
    ensures params.Keys == set k | k in UtmKeys
    ensures forall k :: k in params ==>
      && (params[k].Present? <==> QueryParam(url, k) != "")
      && (params[k].Present? ==> params[k].value == QueryParam(url, k))
      && (params[k].Defaulted? <==> QueryParam(url, k) == "" && default.Some?)
      && (params[k].Defaulted? ==> default == Some(params[k].fallback))
  {
    map k | k in UtmKeys :: Resolve(url, k, default)
  }

  /** `_.info.clickParams()`: one entry per click-ID key, holding the key's
      value when the URL gives it a non-empty one and absent otherwise; no
      default is ever substituted. */
  function ClickParams<D>(url: string): (params: map<string, Param<D>>)
    ensures params.Keys == set k | k in ClickKeys
    ensures forall k :: k in params ==>
      && (params[k].Present? <==> QueryParam(url, k) != "")
      && (params[k].Present? ==> params[k].value == QueryParam(url, k))
      && (params[k].Absent? <==> QueryParam(url, k) == "")
  {
    map k | k in ClickKeys :: Resolve(url, k, None)
  }

  /** No key is both a UTM key and a click-ID key. */
  lemma KeySetsDisjoint()
    ensures (set k | k in UtmKeys) !! (set k | k in ClickKeys)
  {
  }

  /** `_.info.marketingParams()`: the campaign parameters without a default,
      merged with the click parameters. Because the key sets are disjoint,
      each entry is exactly the one its own parser produces. */
  function MarketingParams<D>(url: string): (params: map<string, Param<D>>)
    ensures params.Keys == (set k | k in UtmKeys) + (set k | k in ClickKeys)
    ensures forall k :: k in UtmKeys ==> params[k] == CampaignParams(url, None)[k]
    ensures forall k :: k in ClickKeys ==> params[k] == ClickParams(url)[k]
    ensures forall k :: k in params ==> !params[k].Defaulted?
  {
    KeySetsDisjoint();
    CampaignParams(url, None) + ClickParams(url)
  }

  // ---- Building URLs, the inverse of parsing ----

  function EncodePair(p: Pair): string
  {
    p.key + "=" + p.value
  }

  function EncodePairs(pairs: seq<Pair>): (segments: seq<string>)
    ensures |segments| == |pairs|
  {
    if |pairs| == 0 then [] else [EncodePair(pairs[0])] + EncodePairs(pairs[1..])
  }

  /** The query string `k1=v1&k2=v2&...` that carries `pairs`. */
  function EncodeQuery(pairs: seq<Pair>): string
  {
    Join(EncodePairs(pairs), '&')
  }

  /** Pairs a query string can carry unambiguously: keys free of `=`, and
      neither keys nor values containing `&` or `#`. */
  predicate EncodablePair(p: Pair)
  {
    '=' !in p.key && '&' !in p.key && '#' !in p.key && '&' !in p.value && '#' !in p.value
  }

  predicate Encodable(pairs: seq<Pair>)
  {
    forall i :: 0 <= i < |pairs| ==> EncodablePair(pairs[i])
  }

  lemma {:induction false} ParseEncodedPairs(pairs: seq<Pair>)
    requires Encodable(pairs)
    ensures ParsePairs(EncodePairs(pairs)) == pairs
    ensures NoneContains(EncodePairs(pairs), '&') && NoneContains(EncodePairs(pairs), '#')
  {
    if |pairs| > 0 {
      var p := pairs[0];
      FindAfterPrefix(p.key, '=', p.value);
      assert EncodePair(p) == p.key + ['='] + p.value;
      assert ParseSegment(EncodePair(p)) == Some(p) by {
        var s := p.key + ['='] + p.value;
        assert s[..|p.key|] == p.key && s[|p.key| + 1..] == p.value;
      }
      assert Encodable(pairs[1..]) by {
        forall i | 0 <= i < |pairs| - 1 ensures pairs[1..][i] == pairs[i + 1] { }
      }
      ParseEncodedPairs(pairs[1..]);
      var segments := EncodePairs(pairs);
      assert segments[1..] == EncodePairs(pairs[1..]);
      assert pairs == [p] + pairs[1..];
    }
  }

  /** Parsing the query string built from `pairs` gives back `pairs`. */
  lemma ParseEncodedQuery(pairs: seq<Pair>)
    requires Encodable(pairs)
    ensures ParseQuery(EncodeQuery(pairs)) == pairs
    ensures '#' !in EncodeQuery(pairs)
  {
    ParseEncodedPairs(pairs);
    if |pairs| == 0 {
      assert Split("", '&') == [""];
      assert ParseSegment("") == None;
    } else {
      SplitJoin(EncodePairs(pairs), '&');
    }
    JoinAvoids(EncodePairs(pairs), '&', '#');
  }

  /** The query component of `base?query#fragment` (the fragment part may be
      empty) is `query`, provided `base` has no `?` or `#`. */
  lemma QueryComponentOf(base: string, query: string, fragment: string)
    requires '?' !in base && '#' !in base && '#' !in query
    requires fragment == [] || fragment[0] == '#'
    ensures QueryComponent(base + "?" + query + fragment) == query
  {
    var url := base + "?" + query + fragment;
    var beforeFragment := base + "?" + query;
    assert url == beforeFragment + fragment;
    if fragment == [] {
      assert '#' !in url;
      assert url == beforeFragment;
    } else {
      assert url == beforeFragment + ['#'] + fragment[1..];
      FindAfterPrefix(beforeFragment, '#', fragment[1..]);
      assert url[..|beforeFragment|] == beforeFragment;
    }
    FindAfterPrefix(base, '?', query);
    assert beforeFragment[|base| + 1..] == query;
  }

  /** In a URL built from `pairs`, a key's parameter is the value of its
      first pair, or the empty string when no pair has that key. */
  lemma QueryParamOf(base: string, pairs: seq<Pair>, fragment: string, key: string)
    requires '?' !in base && '#' !in base
    requires Encodable(pairs)
    requires fragment == [] || fragment[0] == '#'
    ensures QueryParam(base + "?" + EncodeQuery(pairs) + fragment, key) ==
      match FirstValue(pairs, key) case Some(v) => v case None => ""
  {
    ParseEncodedQuery(pairs);
    QueryComponentOf(base, EncodeQuery(pairs), fragment);
  }
}
