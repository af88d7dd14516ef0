/** `_.isBlockedUA`: every user agent of "should block bot user agent" is
    blocked. Each lemma names the signature the user agent carries and
    splits the user agent around it. */
module BotFilterTests {
  import opened BotFilter

  /** The user agent at tests/unit/utils.js:208 carries "Yahoo! Slurp". */
  lemma BlocksYahooSlurp()
    ensures Blocked("Mozilla/5.0 (compatible; " + "Yahoo! Slurp" + ("; " + "http://help.yahoo.com/help/us/ysearch/slurp)"))
  {
    assert Signatures[10] == "Yahoo! Slurp";
    BlockedWhenEmbedded("Mozilla/5.0 (compatible; ", "Yahoo! Slurp", "; " + "http://help.yahoo.com/help/us/ysearch/slurp)");
  }

  /** The user agent at tests/unit/utils.js:209 carries "AhrefsBot". */
  lemma BlocksAhrefsBot()
    ensures Blocked("Mozilla/5.0 (compatible; " + "AhrefsBot" + "/7.0; +http://ahrefs.com/robot/)")
  {
    assert Signatures[0] == "AhrefsBot";
    BlockedWhenEmbedded("Mozilla/5.0 (compatible; ", "AhrefsBot", "/7.0; +http://ahrefs.com/robot/)");
  }

  /** The user agent at tests/unit/utils.js:210 carries "AhrefsSiteAudit". */
  lemma BlocksAhrefsSiteAuditDesktop()
    ensures Blocked("Mozilla/5.0 (compatible; " + "AhrefsSiteAudit" + ("/6.1; " + "+http://ahrefs.com/robot/site-audit)"))
  {
    assert Signatures[1] == "AhrefsSiteAudit";
    BlockedWhenEmbedded("Mozilla/5.0 (compatible; ", "AhrefsSiteAudit", "/6.1; " + "+http://ahrefs.com/robot/site-audit)");
  }

  /** The user agent at tests/unit/utils.js:211 carries "AhrefsSiteAudit". */
  lemma BlocksAhrefsSiteAuditMobile()
    ensures Blocked("Mozilla/5.0 (Linux; Android 13) " + "AppleWebKit/537.36 (KHTML, like Gecko) " + "Chrome/108.0.5359.128 Mobile " + "Safari/537.36 (compatible; " + "AhrefsSiteAudit" + ("/6.1; " + "+http://ahrefs.com/robot/site-audit)"))
  {
    assert Signatures[1] == "AhrefsSiteAudit";
    BlockedWhenEmbedded("Mozilla/5.0 (Linux; Android 13) " + "AppleWebKit/537.36 (KHTML, like Gecko) " + "Chrome/108.0.5359.128 Mobile " + "Safari/537.36 (compatible; ", "AhrefsSiteAudit", "/6.1; " + "+http://ahrefs.com/robot/site-audit)");
  }

  /** The user agent at tests/unit/utils.js:212 carries "bingbot". */
  lemma BlocksBingbot()
    ensures Blocked("Mozilla/5.0 (compatible; " + "bingbot" + "/2.0; +http://www.bing.com/bingbot.htm)")
  {
    assert Signatures[3] == "bingbot";
    BlockedWhenEmbedded("Mozilla/5.0 (compatible; ", "bingbot", "/2.0; +http://www.bing.com/bingbot.htm)");
  }

  /** The user agent at tests/unit/utils.js:213 carries "bingbot". */
  lemma BlocksAdidxbot()
    ensures Blocked("Mozilla/5.0 (Windows Phone 8.1; ARM; " + "Trident/7.0; Touch; rv:11.0; " + "IEMobile/11.0; NOKIA; Lumia 530) like " + "Gecko (compatible; adidxbot/2.0; " + "+http://www.bing.com/" + "bingbot" + ".htm)")
  {
    assert Signatures[3] == "bingbot";
    BlockedWhenEmbedded("Mozilla/5.0 (Windows Phone 8.1; ARM; " + "Trident/7.0; Touch; rv:11.0; " + "IEMobile/11.0; NOKIA; Lumia 530) like " + "Gecko (compatible; adidxbot/2.0; " + "+http://www.bing.com/", "bingbot", ".htm)");
  }

  /** The user agent at tests/unit/utils.js:214 carries "BingPreview". */
  lemma BlocksBingPreview()
    ensures Blocked("Mozilla/5.0 (Windows NT 6.1; WOW64) " + "AppleWebKit/534+ (KHTML, like Gecko) " + "BingPreview" + "/1.0b")
  {
    assert Signatures[4] == "BingPreview";
    BlockedWhenEmbedded("Mozilla/5.0 (Windows NT 6.1; WOW64) " + "AppleWebKit/534+ (KHTML, like Gecko) ", "BingPreview", "/1.0b");
  }

  /** The user agent at tests/unit/utils.js:215 carries "Googlebot". */
  lemma BlocksGooglebot()
    ensures Blocked("Mozilla/5.0 (compatible; " + "Googlebot" + "/2.1; +http://www.google.com/bot.html)")
  {
    assert Signatures[18] == "Googlebot";
    BlockedWhenEmbedded("Mozilla/5.0 (compatible; ", "Googlebot", "/2.1; +http://www.google.com/bot.html)");
  }

  /** The user agent at tests/unit/utils.js:216 carries "Baiduspider". */
  lemma BlocksBaiduspider()
    ensures Blocked("Mozilla/5.0 (compatible; " + "Baiduspider" + ("/2.0; " + "+http://www.baidu.com/search/spider.html)"))
  {
    assert Signatures[2] == "Baiduspider";
    BlockedWhenEmbedded("Mozilla/5.0 (compatible; ", "Baiduspider", "/2.0; " + "+http://www.baidu.com/search/spider.html)");
  }

  /** The user agent at tests/unit/utils.js:217 carries "YandexBot". */
  lemma BlocksYandexBot()
    ensures Blocked("Mozilla/5.0 (compatible; " + "YandexBot" + "/3.0; +http://yandex.com/bots)")
  {
    assert Signatures[11] == "YandexBot";
    BlockedWhenEmbedded("Mozilla/5.0 (compatible; ", "YandexBot", "/3.0; +http://yandex.com/bots)");
  }

  /** The user agent at tests/unit/utils.js:218 carries "facebookexternalhit". */
  lemma BlocksFacebookExternalHitWithUrl()
    ensures Blocked("" + "facebookexternalhit" + ("/1.1 " + "(+http://www.facebook.com/externalhit_uatext.php)"))
  {
    assert Signatures[6] == "facebookexternalhit";
    BlockedWhenEmbedded("", "facebookexternalhit", "/1.1 " + "(+http://www.facebook.com/externalhit_uatext.php)");
  }

  /** The user agent at tests/unit/utils.js:219 carries "facebookexternalhit". */
  lemma BlocksFacebookExternalHit()
    ensures Blocked("" + "facebookexternalhit" + "/1.1")
  {
    assert Signatures[6] == "facebookexternalhit";
    BlockedWhenEmbedded("", "facebookexternalhit", "/1.1");
  }

  /** The user agent at tests/unit/utils.js:220 carries "PetalBot". */
  lemma BlocksPetalBotDesktop()
    ensures Blocked("Mozilla/5.0 (compatible;" + "PetalBot" + ";+http://aspiegel.com/petalbot)")
  {
    assert Signatures[7] == "PetalBot";
    BlockedWhenEmbedded("Mozilla/5.0 (compatible;", "PetalBot", ";+http://aspiegel.com/petalbot)");
  }

  /** The user agent at tests/unit/utils.js:221 carries "PetalBot". */
  lemma BlocksPetalBotMobile()
    ensures Blocked("Mozilla/5.0(Linux;Android7.0;) " + "AppleWebKit/537.36(KHTML,likeGecko) " + "MobileSafari/537.36(compatible;" + "PetalBot" + ";+http://aspiegel.com/petalbot)")
  {
    assert Signatures[7] == "PetalBot";
    BlockedWhenEmbedded("Mozilla/5.0(Linux;Android7.0;) " + "AppleWebKit/537.36(KHTML,likeGecko) " + "MobileSafari/537.36(compatible;", "PetalBot", ";+http://aspiegel.com/petalbot)");
  }

  /** The user agent at tests/unit/utils.js:222 carries "Pinterestbot". */
  lemma BlocksPinterestbot()
    ensures Blocked("Mozilla/5.0 (compatible; " + "Pinterestbot" + ("/1.0; " + "+http://www.pinterest.com/bot.html)"))
  {
    assert Signatures[8] == "Pinterestbot";
    BlockedWhenEmbedded("Mozilla/5.0 (compatible; ", "Pinterestbot", "/1.0; " + "+http://www.pinterest.com/bot.html)");
  }

  /** The user agent at tests/unit/utils.js:223 carries "APIs-Google". */
  lemma BlocksApisGoogle()
    ensures Blocked("" + "APIs-Google" + (" " + "(+https://developers.google.com/webmasters/APIs-Google.html)"))
  {
    assert Signatures[13] == "APIs-Google";
    BlockedWhenEmbedded("", "APIs-Google", " " + "(+https://developers.google.com/webmasters/APIs-Google.html)");
  }

  /** The user agent at tests/unit/utils.js:224 carries "Mediapartners-Google". */
  lemma BlocksMediapartnersGoogle()
    ensures Blocked("" + "Mediapartners-Google" + "")
  {
    assert Signatures[20] == "Mediapartners-Google";
    BlockedWhenEmbedded("", "Mediapartners-Google", "");
  }

  /** The user agent at tests/unit/utils.js:225 carries "AdsBot-Google". */
  lemma BlocksAdsBotGoogleMobile()
    ensures Blocked("Mozilla/5.0 (Linux; Android 5.0; " + "SM-G920A) AppleWebKit (KHTML, like " + "Gecko) Chrome Mobile Safari " + "(compatible; " + "AdsBot-Google" + ("-Mobile; " + "+http://www.google.com/mobile/adsbot.html)"))
  {
    assert Signatures[12] == "AdsBot-Google";
    BlockedWhenEmbedded("Mozilla/5.0 (Linux; Android 5.0; " + "SM-G920A) AppleWebKit (KHTML, like " + "Gecko) Chrome Mobile Safari " + "(compatible; ", "AdsBot-Google", "-Mobile; " + "+http://www.google.com/mobile/adsbot.html)");
  }

  /** The user agent at tests/unit/utils.js:226 carries "FeedFetcher-Google". */
  lemma BlocksFeedFetcherGoogle()
    ensures Blocked("" + "FeedFetcher-Google" + ("; " + "(+http://www.google.com/feedfetcher.html)"))
  {
    assert Signatures[15] == "FeedFetcher-Google";
    BlockedWhenEmbedded("", "FeedFetcher-Google", "; " + "(+http://www.google.com/feedfetcher.html)");
  }

  /** The user agent at tests/unit/utils.js:227 carries "Google-Read-Aloud". */
  lemma BlocksGoogleReadAloud()
    ensures Blocked("Mozilla/5.0 (X11; Linux x86_64) " + "AppleWebKit/537.36 (KHTML, like Gecko) " + "Chrome/41.0.2272.118 Safari/537.36 " + "(compatible; " + "Google-Read-Aloud" + ("; " + "+/search/docs/advanced/crawling/overview-google-crawlers)"))
  {
    assert Signatures[17] == "Google-Read-Aloud";
    BlockedWhenEmbedded("Mozilla/5.0 (X11; Linux x86_64) " + "AppleWebKit/537.36 (KHTML, like Gecko) " + "Chrome/41.0.2272.118 Safari/537.36 " + "(compatible; ", "Google-Read-Aloud", "; " + "+/search/docs/advanced/crawling/overview-google-crawlers)");
  }

  /** The user agent at tests/unit/utils.js:228 carries "DuplexWeb-Google". */
  lemma BlocksDuplexWebGoogle()
    ensures Blocked("Mozilla/5.0 (Linux; Android 8.0; Pixel " + "2 Build/OPD3.170816.012; " + "DuplexWeb-Google" + ("/1.0) AppleWebKit/537.36 (KHTML, like " + "Gecko) Chrome/74.0.3729.131 Mobile " + "Safari/537.36"))
  {
    assert Signatures[14] == "DuplexWeb-Google";
    BlockedWhenEmbedded("Mozilla/5.0 (Linux; Android 8.0; Pixel " + "2 Build/OPD3.170816.012; ", "DuplexWeb-Google", "/1.0) AppleWebKit/537.36 (KHTML, like " + "Gecko) Chrome/74.0.3729.131 Mobile " + "Safari/537.36");
  }

  /** The user agent at tests/unit/utils.js:229 carries "Google Favicon". */
  lemma BlocksGoogleFavicon()
    ensures Blocked("Mozilla/5.0 (X11; Linux x86_64) " + "AppleWebKit/537.36 (KHTML, like Gecko) " + "Chrome/49.0.2623.75 Safari/537.36 " + "Google Favicon" + "")
  {
    assert Signatures[16] == "Google Favicon";
    BlockedWhenEmbedded("Mozilla/5.0 (X11; Linux x86_64) " + "AppleWebKit/537.36 (KHTML, like Gecko) " + "Chrome/49.0.2623.75 Safari/537.36 ", "Google Favicon", "");
  }

  /** The user agent at tests/unit/utils.js:230 carries "googleweblight". */
  lemma BlocksGoogleWebLight()
    ensures Blocked("Mozilla/5.0 (Linux; Android 4.2.1; " + "en-us; Nexus 5 Build/JOP40D) " + "AppleWebKit/535.19 (KHTML, like Gecko; " + "googleweblight" + (") Chrome/38.0.1025.166 Mobile " + "Safari/535.19"))
  {
    assert Signatures[19] == "googleweblight";
    BlockedWhenEmbedded("Mozilla/5.0 (Linux; Android 4.2.1; " + "en-us; Nexus 5 Build/JOP40D) " + "AppleWebKit/535.19 (KHTML, like Gecko; ", "googleweblight", ") Chrome/38.0.1025.166 Mobile " + "Safari/535.19");
  }

  /** The user agent at tests/unit/utils.js:231 carries "Storebot-Google". */
  lemma BlocksStorebotGoogle()
    ensures Blocked("Mozilla/5.0 (Linux; Android 8.0; Pixel " + "2 Build/OPD3.170816.012; " + "Storebot-Google" + ("/1.0) AppleWebKit/537.36 (KHTML, like " + "Gecko) Chrome/81.0.4044.138 Mobile " + "Safari/537.36"))
  {
    assert Signatures[21] == "Storebot-Google";
    BlockedWhenEmbedded("Mozilla/5.0 (Linux; Android 8.0; Pixel " + "2 Build/OPD3.170816.012; ", "Storebot-Google", "/1.0) AppleWebKit/537.36 (KHTML, like " + "Gecko) Chrome/81.0.4044.138 Mobile " + "Safari/537.36");
  }

  /** The user agent at tests/unit/utils.js:232 carries "Screaming Frog". */
  lemma BlocksScreamingFrog()
    ensures Blocked("" + "Screaming Frog" + " SEO Spider/12.3")
  {
    assert Signatures[9] == "Screaming Frog";
    BlockedWhenEmbedded("", "Screaming Frog", " SEO Spider/12.3");
  }

  /** The user agent at tests/unit/utils.js:233 carries "Chrome-Lighthouse". */
  lemma BlocksChromeLighthouse()
    ensures Blocked("Mozilla/5.0 (Linux; Android 7.0; Moto G " + "(4)) AppleWebKit/537.36 (KHTML, like " + "Gecko) Chrome/98.0.4695.0 Mobile " + "Safari/537.36 " + "Chrome-Lighthouse" + "")
  {
    assert Signatures[5] == "Chrome-Lighthouse";
    BlockedWhenEmbedded("Mozilla/5.0 (Linux; Android 7.0; Moto G " + "(4)) AppleWebKit/537.36 (KHTML, like " + "Gecko) Chrome/98.0.4695.0 Mobile " + "Safari/537.36 ", "Chrome-Lighthouse", "");
  }
}
