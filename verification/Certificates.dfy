/** Which domains the names of a certificate cover. */
module Certificates {
  import opened Matching

  function LowerChar(c: char): char
  {
    if 'A' <= c <= 'Z' then (c as int + 32) as char else c
  }

  function Lower(s: string): string
  {
    seq(|s|, i requires 0 <= i < |s| => LowerChar(s[i]))
  }

  /** Position of the first dot, or -1. */
  function FirstDot(s: string): (i: int)
    ensures -1 <= i < |s|
    ensures i >= 0 ==> s[i] == '.' && '.' !in s[..i]
    ensures i < 0 ==> '.' !in s
  {
    if s == [] then -1
    else if s[0] == '.' then 0
    else
      var rest := FirstDot(s[1..]);
      assert rest >= 0 ==> s[..rest + 1] == [s[0]] + s[1..][..rest];
      if rest < 0 then -1 else rest + 1
  }

  /** One name of a certificate covers a domain, on the strings. */
  predicate NameCovers(name: string, domain: string)
  {
    var n, d := Lower(name), Lower(domain);
    || n == d
    || ("*." <= n && FirstDot(d) > 0 && d[FirstDot(d) + 1..] == n[2..])
  }

  predicate Covered(domain: string, names: seq<string>)
  {
    exists n | n in names :: NameCovers(n, domain)
  }

  /** The domains the certificate check rejects. */
  function Uncovered(domains: seq<string>, names: seq<string>): seq<string>
  {
    Filter(domains, d => !Covered(d, names))
  }

  method DomainCovered(domain: string, names: seq<string>) returns (r: bool)
    ensures r <==> Covered(domain, names)
  {
    var d := Lower(domain);
    for i := 0 to |names|
      invariant forall n | n in names[..i] :: !NameCovers(n, domain)
    {
      var n := Lower(names[i]);
      if n == d {
        assert NameCovers(names[i], domain);
        return true;
      }
      if "*." <= n {
        var dot := FirstDot(d);
        if dot > 0 && d[dot + 1..] == n[2..] { return true; }
      }
    }
    assert names[..|names|] == names;
    return false;
  }

  method UncoveredDomains(domains: seq<string>, names: seq<string>) returns (rejected: seq<string>)
    ensures rejected == Uncovered(domains, names)
  {
    rejected := [];
    for i := 0 to |domains|
      invariant rejected == Uncovered(domains[..i], names)
    {
      var covered := DomainCovered(domains[i], names);
      if !covered { rejected := rejected + [domains[i]]; }
      assert domains[..i + 1][..i] == domains[..i];
    }
    assert domains[..|domains|] == domains;
  }

  // The label-level rule.

  function Labels(s: string): (ls: seq<string>)
    ensures ls != []
    decreases |s|
  {
    var dot := FirstDot(s);
    if dot < 0 then [s] else [s[..dot]] + Labels(s[dot + 1..])
  }

  function Join(ls: seq<string>): string
    requires ls != []
  {
    if |ls| == 1 then ls[0] else ls[0] + "." + Join(ls[1..])
  }

  lemma {:induction false} JoinLabels(s: string)
    ensures Join(Labels(s)) == s
    decreases |s|
  {
    var dot := FirstDot(s);
    if dot >= 0 {
      var rest := s[dot + 1..];
      JoinLabels(rest);
      JoinCons(s[..dot], Labels(rest));
      assert s[..dot] + "." + rest == s;
    }
  }

  lemma JoinCons(first: string, rest: seq<string>)
    requires rest != []
    ensures Join([first] + rest) == first + "." + Join(rest)
  {
    assert ([first] + rest)[1..] == rest;
  }

  /** Section 6.4.3 of RFC 6125 as the operator reads it: the same labels, or a leftmost label `*`
      standing for exactly one non-empty label. */
  ghost predicate LabelRule(name: seq<string>, domain: seq<string>)
  {
    || name == domain
    || (|name| > 1 && |domain| > 1 && name[0] == "*" && domain[0] != "" && name[1..] == domain[1..])
  }

  lemma WildcardPrefix(n: string)
    ensures "*." <= n <==> FirstDot(n) == 1 && n[0] == '*'
  {
    if "*." <= n {
      assert n == ['*', '.'] + n[2..];
      assert n[1..][0] == '.' && FirstDot(n[1..]) == 0;
    }
  }

  /** The string comparison implements the label rule, ignoring ASCII case. */
  lemma CoverageIsLabelRule(name: string, domain: string)
    ensures NameCovers(name, domain) <==> LabelRule(Labels(Lower(name)), Labels(Lower(domain)))
  {
    var n, d := Lower(name), Lower(domain);
    JoinLabels(n);
    JoinLabels(d);
    WildcardPrefix(n);
    var dn, dd := FirstDot(n), FirstDot(d);
    if dn >= 0 && dd >= 0 {
      JoinLabels(n[dn + 1..]);
      JoinLabels(d[dd + 1..]);
      assert Labels(n)[0] == n[..dn] && Labels(n)[1..] == Labels(n[dn + 1..]);
      assert Labels(d)[0] == d[..dd] && Labels(d)[1..] == Labels(d[dd + 1..]);
    }
  }

  /** The same letter, or one in upper and one in lower case. */
  predicate SameLetter(c: char, d: char)
  {
    c == d || ('A' <= c <= 'Z' && d as int == c as int + 32) || ('A' <= d <= 'Z' && c as int == d as int + 32)
  }

  predicate SameLetters(s: string, t: string)
  {
    |s| == |t| && forall i | 0 <= i < |s| :: SameLetter(s[i], t[i])
  }

  lemma SameWhenLowered(s: string, t: string)
    ensures Lower(s) == Lower(t) <==> SameLetters(s, t)
  {
    if Lower(s) == Lower(t) {
      forall i | 0 <= i < |s| ensures SameLetter(s[i], t[i]) { assert Lower(s)[i] == Lower(t)[i]; }
    }
  }

  lemma {:induction false} FirstDotLowered(s: string)
    ensures FirstDot(Lower(s)) == FirstDot(s)
  {
    if s != [] {
      FirstDotLowered(s[1..]);
      assert Lower(s)[1..] == Lower(s[1..]) && (Lower(s)[0] == '.' <==> s[0] == '.');
    }
  }

  lemma {:induction false} LabelsLowered(s: string)
    ensures |Labels(Lower(s))| == |Labels(s)|
    ensures forall i | 0 <= i < |Labels(s)| :: Labels(Lower(s))[i] == Lower(Labels(s)[i])
    decreases |s|
  {
    hide Lower, FirstDot;
    var dot := FirstDot(s);
    FirstDotLowered(s);
    if dot < 0 {
      assert Labels(s) == [s] && Labels(Lower(s)) == [Lower(s)];
    } else {
      var rest := s[dot + 1..];
      LabelsLowered(rest);
      LoweredParts(s, dot);
      assert Labels(s) == [s[..dot]] + Labels(rest);
      assert Labels(Lower(s)) == [Lower(s[..dot])] + Labels(Lower(rest));
    }
  }

  lemma LoweredParts(s: string, dot: nat)
    requires dot < |s|
    ensures |Lower(s)| == |s| && Lower(s)[..dot] == Lower(s[..dot]) && Lower(s)[dot + 1..] == Lower(s[dot + 1..])
  {
  }

  /** The rule on the labels as they are written: upper and lower case letters are the same. */
  ghost predicate LabelRuleAnyCase(name: seq<string>, domain: seq<string>)
  {
    && |name| == |domain|
    && (forall i | 0 < i < |name| :: SameLetters(name[i], domain[i]))
    && |name| > 0
    && (SameLetters(name[0], domain[0]) || (|name| > 1 && name[0] == "*" && domain[0] != ""))
  }

  lemma CoverageIgnoresCase(name: string, domain: string)
    ensures NameCovers(name, domain) <==> LabelRuleAnyCase(Labels(name), Labels(domain))
  {
    CoverageIsLabelRule(name, domain);
    LabelsLowered(name);
    LabelsLowered(domain);
    RuleLowered(Labels(name), Labels(domain), Labels(Lower(name)), Labels(Lower(domain)));
  }

  lemma RuleLowered(name: seq<string>, domain: seq<string>, n: seq<string>, d: seq<string>)
    requires |n| == |name| > 0 && |d| == |domain| > 0
    requires forall i | 0 <= i < |n| :: n[i] == Lower(name[i])
    requires forall i | 0 <= i < |d| :: d[i] == Lower(domain[i])
    ensures LabelRule(n, d) <==> LabelRuleAnyCase(name, domain)
  {
    hide Lower;
    if |n| == |d| {
      forall i | 0 <= i < |n| ensures n[i] == d[i] <==> SameLetters(name[i], domain[i]) {
        SameWhenLowered(name[i], domain[i]);
      }
      Star(name[0]);
      NotEmpty(domain[0]);
      assert n == d <==> forall i | 0 <= i < |n| :: n[i] == d[i];
      assert n[1..] == d[1..] <==> forall i | 0 < i < |n| :: n[i] == d[i] by {
        if n[1..] == d[1..] {
          forall i | 0 < i < |n| ensures n[i] == d[i] { assert n[1..][i - 1] == d[1..][i - 1]; }
        }
      }
    }
  }

  lemma Star(s: string)
    ensures Lower(s) == "*" <==> s == "*"
  {
    if |s| == 1 {
      assert Lower(s)[0] == '*' <==> s[0] == '*';
    }
  }

  lemma NotEmpty(s: string)
    ensures Lower(s) != "" <==> s != ""
  {
    assert |Lower(s)| == |s|;
  }

  /** The check rejects exactly the domains no name covers, as often as they occur and in order. */
  lemma RejectsExactlyUncovered(domains: seq<string>, names: seq<string>)
    ensures Subsequence(Uncovered(domains, names), domains)
    ensures forall d :: multiset(Uncovered(domains, names))[d] == if Covered(d, names) then 0 else multiset(domains)[d]
  {
    FilterKeeps(domains, d => !Covered(d, names));
  }
}
