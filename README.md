# mixpanel utils: domain extraction, attribution parameters, bot filter

A Dafny model of three helpers of the Mixpanel JavaScript library's
utility module, as its unit tests (`tests/unit/utils.js`) pin them down.
The implementation module `src/utils` is not part of this model, so each
operation is modelled from the behaviour the tests and the library's
design describe.

- `extract_domain(hostname)` (module `Domain`) reduces a hostname to its
  registrable domain: the last two dot-separated labels, or the last three
  when the last two form one of the known country-code second-level
  suffixes `ac.uk`, `co.uk`, `gov.uk`, `org.uk`, `ca.gov` and `isa.us`.
  A malformed hostname without two non-empty labels (`..com`, `.com.`)
  comes back unchanged instead.
- `_.info.campaignParams(default)`, `_.info.clickParams()` and
  `_.info.marketingParams()` (module `Attribution`) read the UTM tags
  (`utm_source`, `utm_medium`, `utm_campaign`, `utm_content`, `utm_term`)
  and the ad-platform click IDs (`dclid`, `fbclid`, `gclid`,
  `ko_click_id`, `li_fat_id`, `msclkid`, `ttclid`, `twclid`, `wbraid`) out
  of the query component of the page URL. The URL is an explicit argument
  instead of the ambient `document.URL`. Each requested key gets a
  `Param`: `Present(value)`, `Defaulted(fallback)` for a default the
  caller supplied (JavaScript `null` in the tests), or `Absent`
  (JavaScript `undefined`).
- `_.isBlockedUA(ua)` (module `BotFilter`) is a method. It tries each
  crawler signature in turn and returns true as soon as one occurs in the
  user agent. It is proved equal to the predicate "some signature occurs
  somewhere in the user agent".

Module `Strings` holds the string primitives these are built on: one-character
`split` and `join`, and `indexOf` for a character and for a substring.

The modules `DomainTests`, `AttributionTests` and `BotFilterTests` restate
every expectation of the unit tests as lemmas, except those of
`_.info.mpPageViewProperties`, which is left out. The attribution tests set
the page URL to `https://www.example.com/` followed by a query string. The
lemmas generalise this: the page is any string without `?` or `#`, and
each parameter value is any non-empty string without `&` or `#`. So each
lemma covers every URL of the test's shape, the test's own URL among them.

Query parsing follows section 3.4 of RFC 3986. The query is what follows the
first `?`, up to the first `#`. It is split on `&`, and each segment is split
at its first `=`; a segment without `=` carries no pair. The first pair
with a key decides that key's value, and an empty value reads as a missing
one.

## Model

| member | source | states |
|---|---|---|
| Strings.SplitSpec | tests/unit/utils.js:5-42 | splitting a hostname into dot-separated labels loses nothing: no label contains a dot, and joining the labels with dots gives the hostname back |
| Strings.SplitJoin | tests/unit/utils.js:5-42 | splitting the dot-join of dot-free labels gives exactly those labels back |
| Strings.Find | tests/unit/utils.js:59-109 | the position of the first occurrence of a character (the `?` that starts the query, the `#` that starts the fragment, the `=` inside a pair), or none exactly when it does not occur |
| Strings.IndexOf | tests/unit/utils.js:206-239 | the first position at or after a start where a signature occurs in a user agent, or -1 exactly when it occurs at no such position |
| Domain.ExtractDomain | tests/unit/utils.js:5-42 | the result is a suffix of the hostname's dot-separated labels joined by dots; a hostname of at most two labels, or with fewer than two non-empty labels, comes back unchanged; any other keeps two or three labels |
| Domain.ExtractTwoLabels | tests/unit/utils.js:6-11 | a two-label hostname comes back unchanged, whatever the lengths of its labels (2-character names and long TLDs included) |
| Domain.ExtractOneLabel | tests/unit/utils.js:5-42 | a hostname without a dot comes back unchanged |
| Domain.ExtractUnderSubdomains | tests/unit/utils.js:13-20 | below any number of subdomain labels, a non-empty name under a non-empty TLD that is not a ccSLD reduces to exactly its last two labels |
| Domain.ExtractCcSLDBare | tests/unit/utils.js:22-26 | a name directly under a known ccSLD (ac.uk, ca.gov, isa.us, ...) comes back unchanged |
| Domain.ExtractUnderCcSLD | tests/unit/utils.js:22-26 | below any number of subdomain labels, a name under a known ccSLD reduces to exactly its last three labels |
| Domain.ExtractWithoutTwoLabels | tests/unit/utils.js:5-42 | a hostname in which at most one label is non-empty (leading, trailing or doubled dots around a single name) cannot be reduced and comes back unchanged |
| Domain.ExtractLeadingDots | tests/unit/utils.js:5-42 | `..com` comes back unchanged, not reduced to `.com` |
| Domain.ExtractSurroundingDots | tests/unit/utils.js:5-42 | `.com.` comes back unchanged, not reduced to `com.` |
| DomainTests.MatchesSimpleDomainNames | tests/unit/utils.js:6-11 | every expectation of this test case: `extract_domain` of each hostname equals the domain the test expects |
| DomainTests.ExtractsFromSubdomains | tests/unit/utils.js:13-16 | every expectation of this test case: `extract_domain` of each hostname equals the domain the test expects |
| DomainTests.SupportsManyLabels | tests/unit/utils.js:18-20 | every expectation of this test case: `extract_domain` of each hostname equals the domain the test expects |
| DomainTests.SupportsCommonCcSLDs | tests/unit/utils.js:22-29 | every expectation of this test case: `extract_domain` of each hostname equals the domain the test expects |
| DomainTests.SupportsTwoCharacterNames | tests/unit/utils.js:31-36 | every expectation of this test case: `extract_domain` of each hostname equals the domain the test expects |
| DomainTests.SupportsLongTlds | tests/unit/utils.js:38-41 | every expectation of this test case: `extract_domain` of each hostname equals the domain the test expects |
| DomainTests.MixpanelCom | tests/unit/utils.js:7 | `mixpanel.com` reduces to `mixpanel.com` |
| DomainTests.AbcOrg | tests/unit/utils.js:8 | `abc.org` reduces to `abc.org` |
| DomainTests.LongNameNet | tests/unit/utils.js:9 | `superlongdomainnamepartfifteen.net` reduces to `superlongdomainnamepartfifteen.net` |
| DomainTests.StartupLy | tests/unit/utils.js:10 | `startup.ly` reduces to `startup.ly` |
| DomainTests.SubdomainOfMixpanelCom | tests/unit/utils.js:14 | `mysubdomain.mixpanel.com` reduces to `mixpanel.com` |
| DomainTests.SubdomainOfStartupLy | tests/unit/utils.js:15 | `superfly.startup.ly` reduces to `startup.ly` |
| DomainTests.ManyLabelsOfMixpanelCom | tests/unit/utils.js:19 | `my.sub.domain.mixpanel.com` reduces to `mixpanel.com` |
| DomainTests.OxfordAcUk | tests/unit/utils.js:23 | `www.oxford.ac.uk` reduces to `oxford.ac.uk` |
| DomainTests.DmvCaGov | tests/unit/utils.js:24 | `www.dmv.ca.gov` reduces to `dmv.ca.gov` |
| DomainTests.ImccIsaUs | tests/unit/utils.js:25 | `www.imcc.isa.us` reduces to `imcc.isa.us` |
| DomainTests.MyCom | tests/unit/utils.js:32 | `my.com` reduces to `my.com` |
| DomainTests.SubdomainOfMyCom | tests/unit/utils.js:33 | `subdomain.my.com` reduces to `my.com` |
| DomainTests.XOrg | tests/unit/utils.js:34 | `x.org` reduces to `x.org` |
| DomainTests.SubdomainOfXOrg | tests/unit/utils.js:35 | `subdomain.x.org` reduces to `x.org` |
| DomainTests.SupercoolCompany | tests/unit/utils.js:39 | `supercool.company` reduces to `supercool.company` |
| DomainTests.SubdomainOfSupercoolCompany | tests/unit/utils.js:40 | `sub.supercool.company` reduces to `supercool.company` |
| Attribution.QueryComponent | tests/unit/utils.js:59-109 | the part of the URL the parameters are read from has no fragment in it |
| Attribution.FirstValueNone | tests/unit/utils.js:59-156 | no value is found for a key exactly when no pair of the query has that key |
| Attribution.FirstValueSome | tests/unit/utils.js:59-156 | a value found for a key is the value of a pair with that key that no earlier pair with the key precedes |
| Attribution.FirstValueAt | tests/unit/utils.js:90-98 | the first pair with a key determines the value read for it, wherever in the query it stands |
| Attribution.Resolve | tests/unit/utils.js:70-78 | one key's result: its value exactly when the URL gives it a non-empty value (an empty value reads like a missing one); otherwise the caller's default when one was given, and absent when not |
| Attribution.CampaignParams | tests/unit/utils.js:59-109 | one entry per UTM key and no other; each holds the key's value exactly when the URL gives a non-empty one, else the default exactly when one was passed, else nothing |
| Attribution.ClickParams | tests/unit/utils.js:111-157 | one entry per click-ID key and no other; each holds the key's non-empty value from the URL, and is absent exactly when there is none; never a default |
| Attribution.KeySetsDisjoint | tests/unit/utils.js:159-182 | no key is both a UTM key and a click ID, so merging the two results loses no entry |
| Attribution.MarketingParams | tests/unit/utils.js:159-182 | the keys are the UTM keys and the click IDs; UTM entries equal the campaign parameters without a default, click entries equal the click parameters; no entry is ever a default |
| Attribution.ParseEncodedQuery | tests/unit/utils.js:59-109 | parsing the query string `k1=v1&k2=v2...` built from pairs whose keys are free of `=`, `&`, `#` and whose values are free of `&`, `#` gives back exactly those pairs |
| Attribution.QueryComponentOf | tests/unit/utils.js:59-109 | the query of `page?query#fragment` is `query` for a page without `?` or `#` |
| Attribution.QueryParamOf | tests/unit/utils.js:59-109 | in a URL built from pairs, a key reads as the value of its first pair, or as the empty string when no pair has it |
| AttributionTests.PageValue | tests/unit/utils.js:59-182 | in `page?k1=v1&...` with distinct known keys, each key reads as its own value |
| AttributionTests.PageNoValue | tests/unit/utils.js:59-182 | in `page?k1=v1&...`, a key not among the keys reads as the empty string |
| AttributionTests.MatchesUtmSource | tests/unit/utils.js:60-63 | with `?utm_source=S`, `utm_source` is S, for every page and every value of the test's shape |
| AttributionTests.NoUtmSourceWhenMissing | tests/unit/utils.js:65-68 | with `?utm_medium=M`, `utm_source` is undefined, for every page and every value of the test's shape |
| AttributionTests.MatchesUtmMedium | tests/unit/utils.js:70-73 | with `?utm_medium=M`, the result contains `utm_medium` with value M, for every page and every value of the test's shape |
| AttributionTests.NoUtmMediumWhenEmpty | tests/unit/utils.js:75-78 | with `?utm_medium=&utm_source=S`, `utm_medium` is undefined, for every page and every value of the test's shape |
| AttributionTests.MatchesPartialUtmParams | tests/unit/utils.js:80-88 | with medium, source and campaign given, those three read as their values and `utm_content`, `utm_term` are undefined, for every page and every value of the test's shape |
| AttributionTests.MatchesAllFiveUtmParams | tests/unit/utils.js:90-98 | with all five UTM keys given in a shuffled order, each reads as its own value, for every page and every value of the test's shape |
| AttributionTests.DefaultForAbsentUtmParams | tests/unit/utils.js:100-108 | with a `null` default, the three given keys read as their values and `utm_medium`, `utm_content` read as `null`, for every page and every value of the test's shape |
| AttributionTests.MatchesSingleGclid | tests/unit/utils.js:112-126 | with `?gclid=G`, `gclid` is G and the eight other click IDs are undefined, for every page and every value of the test's shape |
| AttributionTests.MatchesAllClickIds | tests/unit/utils.js:128-141 | with all nine click IDs given, each reads as its own value, for every page and every value of the test's shape |
| AttributionTests.NoClickIdsWhenMissing | tests/unit/utils.js:143-156 | with only `utm_source` given, all nine click IDs are undefined, for every page and every value of the test's shape |
| AttributionTests.MatchesUtmAndClickIds | tests/unit/utils.js:160-181 | with `?utm_source=S&gclid=G`, `utm_source` is S, `gclid` is G, and the four other UTM keys and eight other click IDs are undefined, for every page and every value of the test's shape |
| BotFilter.IsBlockedUA | tests/unit/utils.js:206-239 | the answer is true exactly when some crawler signature occurs somewhere in the user agent |
| BotFilter.BlockedWhenEmbedded | tests/unit/utils.js:206-239 | a user agent with a signature at any position (start, middle or end) is blocked |
| BotFilterTests.BlocksYahooSlurp | tests/unit/utils.js:208 | the user agent of this line is blocked: it carries "Yahoo! Slurp" |
| BotFilterTests.BlocksAhrefsBot | tests/unit/utils.js:209 | the user agent of this line is blocked: it carries "AhrefsBot" |
| BotFilterTests.BlocksAhrefsSiteAuditDesktop | tests/unit/utils.js:210 | the user agent of this line is blocked: it carries "AhrefsSiteAudit" |
| BotFilterTests.BlocksAhrefsSiteAuditMobile | tests/unit/utils.js:211 | the user agent of this line is blocked: it carries "AhrefsSiteAudit" |
| BotFilterTests.BlocksBingbot | tests/unit/utils.js:212 | the user agent of this line is blocked: it carries "bingbot" |
| BotFilterTests.BlocksAdidxbot | tests/unit/utils.js:213 | the user agent of this line is blocked: it carries "bingbot" |
| BotFilterTests.BlocksBingPreview | tests/unit/utils.js:214 | the user agent of this line is blocked: it carries "BingPreview" |
| BotFilterTests.BlocksGooglebot | tests/unit/utils.js:215 | the user agent of this line is blocked: it carries "Googlebot" |
| BotFilterTests.BlocksBaiduspider | tests/unit/utils.js:216 | the user agent of this line is blocked: it carries "Baiduspider" |
| BotFilterTests.BlocksYandexBot | tests/unit/utils.js:217 | the user agent of this line is blocked: it carries "YandexBot" |
| BotFilterTests.BlocksFacebookExternalHitWithUrl | tests/unit/utils.js:218 | the user agent of this line is blocked: it carries "facebookexternalhit" |
| BotFilterTests.BlocksFacebookExternalHit | tests/unit/utils.js:219 | the user agent of this line is blocked: it carries "facebookexternalhit" |
| BotFilterTests.BlocksPetalBotDesktop | tests/unit/utils.js:220 | the user agent of this line is blocked: it carries "PetalBot" |
| BotFilterTests.BlocksPetalBotMobile | tests/unit/utils.js:221 | the user agent of this line is blocked: it carries "PetalBot" |
| BotFilterTests.BlocksPinterestbot | tests/unit/utils.js:222 | the user agent of this line is blocked: it carries "Pinterestbot" |
| BotFilterTests.BlocksApisGoogle | tests/unit/utils.js:223 | the user agent of this line is blocked: it carries "APIs-Google" |
| BotFilterTests.BlocksMediapartnersGoogle | tests/unit/utils.js:224 | the user agent of this line is blocked: it carries "Mediapartners-Google" |
| BotFilterTests.BlocksAdsBotGoogleMobile | tests/unit/utils.js:225 | the user agent of this line is blocked: it carries "AdsBot-Google" |
| BotFilterTests.BlocksFeedFetcherGoogle | tests/unit/utils.js:226 | the user agent of this line is blocked: it carries "FeedFetcher-Google" |
| BotFilterTests.BlocksGoogleReadAloud | tests/unit/utils.js:227 | the user agent of this line is blocked: it carries "Google-Read-Aloud" |
| BotFilterTests.BlocksDuplexWebGoogle | tests/unit/utils.js:228 | the user agent of this line is blocked: it carries "DuplexWeb-Google" |
| BotFilterTests.BlocksGoogleFavicon | tests/unit/utils.js:229 | the user agent of this line is blocked: it carries "Google Favicon" |
| BotFilterTests.BlocksGoogleWebLight | tests/unit/utils.js:230 | the user agent of this line is blocked: it carries "googleweblight" |
| BotFilterTests.BlocksStorebotGoogle | tests/unit/utils.js:231 | the user agent of this line is blocked: it carries "Storebot-Google" |
| BotFilterTests.BlocksScreamingFrog | tests/unit/utils.js:232 | the user agent of this line is blocked: it carries "Screaming Frog" |
| BotFilterTests.BlocksChromeLighthouse | tests/unit/utils.js:233 | the user agent of this line is blocked: it carries "Chrome-Lighthouse" |

## Left out

- `_.info.mpPageViewProperties` (tests/unit/utils.js:184-203): it reads `window.location` and `document` (the title, and the location's hostname, pathname, protocol and search); browser state is I/O and is not modelled.
- The ambient browser state and its reset before each test (tests/unit/utils.js:44-57): the page URL is a parameter of the attribution functions instead.
- Percent-decoding of keys and values and `+` as a space are not modelled: the tested URLs use neither, and values are compared exactly as written.
- `Domain.ExtractDomain`: it recognises only the six listed ccSLD suffixes, not the full public-suffix list. A hostname such as `www.avignon.aeroport.fr` reduces to two labels, as the comment at tests/unit/utils.js:27-28 expects.
- `Domain.ExtractDomain`: a hostname with some empty labels but at least two non-empty ones (such as `a..com`) is reduced like any other, so empty labels count as labels there (`a..com` gives `.com`); only a hostname without two non-empty labels falls back to the unchanged input.
- `Attribution.Resolve`: when a default was passed, a key with an empty value gets the default, just like a missing key. The tests check an empty value only without a default (tests/unit/utils.js:75-78), so this case is a modelling decision.
- `BotFilter.IsBlockedUA`: the signature list holds the 22 signatures the tested user agents carry. The library's own list may hold more; matching is case-sensitive substring search.
- `AttributionTests`: the test URLs' literal page `https://www.example.com/` and literal values (`google`, `email`, `analysis,product`, ...) are generalised to any page without `?` or `#` and any non-empty value without `&` or `#`. Every literal of the tests is of that shape.
- `BotFilterTests`: each user agent is written as the text before its signature, the signature, and the text after it, with long literals split into shorter pieces joined by `+`; the concatenation is the tested user agent.
