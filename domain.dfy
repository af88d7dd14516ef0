/** The domain extractor: reduces a hostname to its registrable domain, the
    last two dot-separated labels, or the last three when the last two are a
    known country-code second-level suffix. It is a heuristic, not a
    public-suffix lookup: multi-label suffixes missing from `CcSLDs` are not
    recognised. */
module Domain {
  import opened Strings

  /** Two-label suffixes under which registrations happen one label deeper. */
  const CcSLDs: seq<string> := ["ac.uk", "co.uk", "gov.uk", "org.uk", "ca.gov", "isa.us"]

  /** How many of `labels` are non-empty. */
  function NonEmptyLabels(labels: seq<string>): nat
  {
    if |labels| == 0 then 0
    else (if labels[0] == "" then 0 else 1) + NonEmptyLabels(labels[1..])
  }

  /** `extract_domain(hostname)`. A hostname of at most two labels, or one
      that does not have two non-empty labels (such as `..com` or `.com.`),
      is returned unchanged; otherwise the last two labels are kept, or the
      last three when the last two form an entry of `CcSLDs`. The result is
      always a suffix of the hostname's labels, joined back with dots. */
  function ExtractDomain(hostname: string): (domain: string)
    ensures var labels, kept := Split(hostname, '.'), Split(domain, '.');
      && |kept| <= |labels|
      && kept == labels[|labels| - |kept|..]
      && domain == Join(kept, '.')
      && (if |labels| <= 2 || NonEmptyLabels(labels) < 2 then domain == hostname else |kept| == 2 || |kept| == 3)
  {
    var labels := Split(hostname, '.');
    SplitSpec(hostname, '.');
    if |labels| <= 2 || NonEmptyLabels(labels) < 2 then hostname
    else
      var kept := RegistrableLabels(labels);
      SplitJoin(kept, '.');
      Join(kept, '.')
  }

  /** The labels kept from three or more: the last three when the last two
      form an entry of `CcSLDs`, the last two otherwise. */
  function RegistrableLabels(labels: seq<string>): (kept: seq<string>)
    requires |labels| >= 3
    ensures (|kept| == 2 || |kept| == 3) && kept == labels[|labels| - |kept|..]
  {
    var n := |labels|;
    if Join(labels[n - 2..], '.') in CcSLDs then labels[n - 3..] else labels[n - 2..]
  }

  /** A single label is returned unchanged. */
  lemma ExtractOneLabel(name: string)
    requires '.' !in name
    ensures ExtractDomain(name) == name
  {
    SplitWithoutSep(name, '.');
  }

  /** Two labels are returned unchanged, whatever their lengths and whether
      or not they form a ccSLD. */
  lemma ExtractTwoLabels(name: string, tld: string)
    requires '.' !in name && '.' !in tld
    ensures ExtractDomain(name + "." + tld) == name + "." + tld
  {
    SplitAround(name, tld, '.');
    SplitWithoutSep(name, '.');
    SplitWithoutSep(tld, '.');
  }

  /** Below any prefix of subdomain labels (one or many), a non-empty name
      under a non-empty suffix that is not a ccSLD reduces to exactly the
      last two labels. */
  lemma ExtractUnderSubdomains(subdomains: string, name: string, tld: string)
    requires '.' !in name && '.' !in tld && name != "" && tld != ""
    requires name + "." + tld !in CcSLDs
    ensures ExtractDomain(subdomains + "." + name + "." + tld) == name + "." + tld
  {
    var hostname := subdomains + "." + name + "." + tld;
    assert hostname == subdomains + ['.'] + (name + "." + tld);
    SplitAround(subdomains, name + "." + tld, '.');
    SplitAround(name, tld, '.');
    SplitWithoutSep(name, '.');
    SplitWithoutSep(tld, '.');
    var labels := Split(subdomains, '.') + [name, tld];
    assert labels[|labels| - 2..] == [name, tld];
    assert Join([name, tld], '.') == name + "." + tld by {
      assert [name, tld][1..] == [tld];
    }
    NonEmptyPair(name, tld);
    NonEmptyLabelsAppend(Split(subdomains, '.'), [name, tld]);
    ExtractFromLabels(hostname, labels);
  }

  /** A hostname that is exactly a name under a ccSLD is returned unchanged. */
  lemma ExtractCcSLDBare(name: string, sld: string, tld: string)
    requires '.' !in name && '.' !in sld && '.' !in tld
    requires sld + "." + tld in CcSLDs
    ensures ExtractDomain(name + "." + sld + "." + tld) == name + "." + sld + "." + tld
  {
    SplitThreeLabels(name, sld, tld);
    CcSLDLabelsNonEmpty(sld, tld);
    NonEmptyPair(sld, tld);
    NonEmptyLabelsAppend([name], [sld, tld]);
    ExtractFromLabels(name + "." + sld + "." + tld, [name] + [sld, tld]);
    SuffixLabels([], name, sld, tld);
  }

  /** Below any prefix of subdomain labels, a name under a ccSLD reduces to
      exactly the last three labels. */
  lemma ExtractUnderCcSLD(subdomains: string, name: string, sld: string, tld: string)
    requires '.' !in name && '.' !in sld && '.' !in tld
    requires sld + "." + tld in CcSLDs
    ensures ExtractDomain(subdomains + "." + name + "." + sld + "." + tld) == name + "." + sld + "." + tld
  {
    var domain := name + "." + sld + "." + tld;
    var hostname := subdomains + "." + domain;
    assert subdomains + "." + name + "." + sld + "." + tld == hostname;
    SplitThreeLabels(name, sld, tld);
    SplitAround(subdomains, domain, '.');
    CcSLDLabelsNonEmpty(sld, tld);
    NonEmptyPair(sld, tld);
    NonEmptyLabelsAppend(Split(subdomains, '.') + [name], [sld, tld]);
    assert Split(subdomains, '.') + [name] + [sld, tld] == Split(subdomains, '.') + [name, sld, tld];
    ExtractFromLabels(hostname, Split(subdomains, '.') + [name, sld, tld]);
    SuffixLabels(Split(subdomains, '.'), name, sld, tld);
  }

  /** How `ExtractDomain` picks its result once the labels are known. */
  lemma ExtractFromLabels(hostname: string, labels: seq<string>)
    requires Split(hostname, '.') == labels && |labels| >= 3 && NonEmptyLabels(labels) >= 2
    ensures var n := |labels|;
      ExtractDomain(hostname) ==
        if Join(labels[n - 2..], '.') in CcSLDs then Join(labels[n - 3..], '.') else Join(labels[n - 2..], '.')
  {
  }

  /** A hostname in which at most one label is non-empty (`..com`, `com.`,
      `.com.`, or only dots) cannot be reduced and is returned unchanged. */
  lemma ExtractWithoutTwoLabels(labels: seq<string>, i: nat)
    requires i < |labels| && NoneContains(labels, '.')
    requires forall j :: 0 <= j < |labels| && j != i ==> labels[j] == ""
    ensures ExtractDomain(Join(labels, '.')) == Join(labels, '.')
  {
    SplitJoin(labels, '.');
    NonEmptyAtMostOne(labels, i);
  }

  /** Leading empty labels leave a single label, returned unchanged. */
  lemma ExtractLeadingDots()
    ensures ExtractDomain("..com") == "..com"
  {
    var labels := ["", "", "com"];
    assert Join(labels, '.') == "..com" by {
      assert labels[1..] == ["", "com"];
      assert labels[1..][1..] == ["com"];
    }
    ExtractWithoutTwoLabels(labels, 2);
  }

  /** Empty labels on both sides leave a single label, returned unchanged. */
  lemma ExtractSurroundingDots()
    ensures ExtractDomain(".com.") == ".com."
  {
    var labels := ["", "com", ""];
    assert Join(labels, '.') == ".com." by {
      assert labels[1..] == ["com", ""];
      assert labels[1..][1..] == [""];
    }
    ExtractWithoutTwoLabels(labels, 1);
  }

  lemma {:induction false} NonEmptyLabelsAppend(a: seq<string>, b: seq<string>)
    ensures NonEmptyLabels(a + b) == NonEmptyLabels(a) + NonEmptyLabels(b)
  {
    if |a| > 0 {
      assert (a + b)[0] == a[0] && (a + b)[1..] == a[1..] + b;
      NonEmptyLabelsAppend(a[1..], b);
    } else {
      assert a + b == b;
    }
  }

  lemma NonEmptyPair(a: string, b: string)
    requires a != "" && b != ""
    ensures NonEmptyLabels([a, b]) == 2
  {
    assert [a, b][1..] == [b];
    assert [b][1..] == [];
    assert NonEmptyLabels([b]) == 1 + NonEmptyLabels([]);
  }

  lemma {:induction false} NonEmptyNone(labels: seq<string>)
    requires forall j :: 0 <= j < |labels| ==> labels[j] == ""
    ensures NonEmptyLabels(labels) == 0
  {
    if |labels| > 0 {
      NonEmptyNone(labels[1..]);
    }
  }

  lemma {:induction false} NonEmptyAtMostOne(labels: seq<string>, i: nat)
    requires i < |labels|
    requires forall j :: 0 <= j < |labels| && j != i ==> labels[j] == ""
    ensures NonEmptyLabels(labels) <= 1
  {
    if i == 0 {
      NonEmptyNone(labels[1..]);
    } else {
      NonEmptyAtMostOne(labels[1..], i - 1);
    }
  }

  /** Both labels of every ccSLD are non-empty. */
  lemma CcSLDLabelsNonEmpty(sld: string, tld: string)
    requires '.' !in sld && '.' !in tld
    requires sld + "." + tld in CcSLDs
    ensures sld != "" && tld != ""
  {
    var entry := sld + "." + tld;
    assert forall e :: e in CcSLDs ==> |e| > 0 && e[0] != '.' && e[|e| - 1] != '.';
    assert entry[|sld|] == '.' && entry[|sld| + 1..] == tld;
  }

  lemma SplitThreeLabels(name: string, sld: string, tld: string)
    requires '.' !in name && '.' !in sld && '.' !in tld
    ensures Split(name + "." + sld + "." + tld, '.') == [name, sld, tld]
  {
    assert name + "." + sld + "." + tld == name + ['.'] + (sld + "." + tld);
    SplitAround(name, sld + "." + tld, '.');
    SplitAround(sld, tld, '.');
    SplitWithoutSep(name, '.');
    SplitWithoutSep(sld, '.');
    SplitWithoutSep(tld, '.');
  }

  lemma SuffixLabels(upper: seq<string>, name: string, sld: string, tld: string)
    ensures var labels := upper + [name, sld, tld];
      && Join(labels[|labels| - 2..], '.') == sld + "." + tld
      && Join(labels[|labels| - 3..], '.') == name + "." + sld + "." + tld
  {
    var labels := upper + [name, sld, tld];
    assert labels[|labels| - 2..] == [sld, tld];
    assert labels[|labels| - 3..] == [name, sld, tld];
    assert [name, sld, tld][1..] == [sld, tld];
    assert [sld, tld][1..] == [tld];
  }
}
