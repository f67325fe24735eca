/**
 Rule lines as text: what a Clash rule says of a flow, read off its comma-separated
 fields, and that the compiled rule says the same.
 */
module RuleTexts {
  import opened Text
  import opened Wrappers
  import opened RuleCompiler
  import opened ClashAgreement

  // ----------------------------------------------------------------- fields

  function Join(f: seq<string>): string
    requires f != []
  {
    if |f| == 1 then f[0] else f[0] + "," + Join(f[1..])
  }

  predicate NoCommas(f: seq<string>) { forall i :: 0 <= i < |f| ==> ',' !in f[i] }

  /** The fields joined by commas are the line, and no field holds a comma. */
  lemma {:induction false} FieldsLaw(s: string)
    ensures Join(Fields(s)) == s && NoCommas(Fields(s))
  {
    if s != [] {
      FieldsLaw(s[1..]);
      var rest := Fields(s[1..]);
      if s[0] == ',' {
        assert ([[]] + rest)[1..] == rest;
      } else {
        var all := [[s[0]] + rest[0]] + rest[1..];
        assert all[1..] == rest[1..];
        assert |rest| > 1 ==> Join(all) == [s[0]] + Join(rest);
      }
    }
  }

  /** And they are the only such fields. */
  lemma {:induction false} FieldsOf(f: seq<string>)
    requires f != [] && NoCommas(f)
    ensures Fields(Join(f)) == f
    decreases |f|, |f[0]|
  {
    var s := Join(f);
    if f[0] == [] {
      if |f| == 1 {
        assert s == [] && f == [[]];
      } else {
        FieldsOf(f[1..]);
        assert s[1..] == Join(f[1..]) && f == [[]] + f[1..];
      }
    } else {
      var g := [f[0][1..]] + f[1..];
      assert g[1..] == f[1..];
      FieldsOf(g);
      assert s[1..] == Join(g);
      assert s[0] == f[0][0] && s[0] != ',';
      assert [s[0]] + g[0] == f[0];
      assert f == [[s[0]] + g[0]] + g[1..];
    }
  }

  // ------------------------------------------------------------------ numbers

  /** n in decimal digits. */
  function Decimal(n: nat): (s: string)
    ensures s != []
  {
    if n < 10 then [(n + 48) as char] else Decimal(n / 10) + [(n % 10 + 48) as char]
  }

  lemma {:induction false} DigitsLaw(n: nat)
    ensures Digits(Decimal(n)) == Some(n) && Decimal(n)[0] != '+'
  {
    var s := Decimal(n);
    if n < 10 {
      assert s[..0] == [];
      assert Digits(s[..|s| - 1]) == Some(0);
    } else {
      DigitsLaw(n / 10);
      assert s[..|s| - 1] == Decimal(n / 10);
    }
  }

  predicate AllDigits(s: string) { forall i :: 0 <= i < |s| ==> '0' <= s[i] <= '9' }

  lemma {:induction false} OnlyDigits(s: string)
    ensures Digits(s).Some? <==> AllDigits(s)
  {
    if s != [] {
      OnlyDigits(s[..|s| - 1]);
    }
  }

  lemma {:induction false} ZerosDoNotCount(s: string)
    ensures Digits("0" + s) == Digits(s)
    decreases |s|
  {
    var t := "0" + s;
    if s == [] {
      assert t[..0] == [] && Digits(t[..|t| - 1]) == Some(0);
    } else {
      ZerosDoNotCount(s[..|s| - 1]);
      assert t[..|t| - 1] == "0" + s[..|s| - 1];
    }
  }

  /** A port is a decimal number up to 65535, with leading zeros or one plus sign if need be, and nothing else is. */
  lemma PortLaw(n: nat, s: string)
    ensures Port(Decimal(n)) == (if n <= 65535 then Some(n) else None) && Port("+" + Decimal(n)) == Port(Decimal(n))
    ensures AllDigits(s) && s != [] ==> Port("0" + s) == Port(s)
    ensures Port(s).Some? ==> Port(s).value <= 65535 && s != []
    ensures Port(s).Some? ==> AllDigits(s) || (s[0] == '+' && AllDigits(s[1..]) && s[1..] != [])
  {
    DigitsLaw(n);
    assert ("+" + Decimal(n))[1..] == Decimal(n);
    ZerosDoNotCount(s);
    OnlyDigits(s);
    if s != [] {
      OnlyDigits(s[1..]);
    }
  }

  // ------------------------------------------------------------------- targets

  /** The outbound a target names: the built-in ones by any spelling, the others as written. */
  lemma TagLaw(name: string)
    ensures EqFold(Trim(name), "DIRECT") ==> Tag(name) == "direct"
    ensures EqFold(Trim(name), "REJECT") || EqFold(Trim(name), "REJECT-DROP") ==> Tag(name) == "block"
    ensures !EqFold(Trim(name), "DIRECT") && !EqFold(Trim(name), "REJECT") && !EqFold(Trim(name), "REJECT-DROP") ==>
            Tag(name) == name
  {
    UpperIs("DIRECT", Trim(name));
    UpperIs("REJECT", Trim(name));
    UpperIs("REJECT-DROP", Trim(name));
    hide Trim, Upper;
    assert |"DIRECT"| == |"REJECT"| == 6 && "DIRECT"[0] != "REJECT"[0];
  }

  // -------------------------------------------------------- what a rule takes

  predicate EndsWith(s: string, t: string) { |t| <= |s| && s[|s| - |t|..] == t }

  ghost predicate IsPart(s: string, t: string) { exists front, back :: s == front + t + back }

  predicate Local(arg: string) { EqFold(arg, "LAN") || EqFold(arg, "PRIVATE") }

  /** Clash's reading of a rule kind and its argument: the flows it takes. */
  ghost predicate Takes(net: Networks, f: Flow, kind: string, arg: string) {
    if EqFold(kind, "DOMAIN") then f.domain == Some(arg)
    else if EqFold(kind, "DOMAIN-SUFFIX") then f.domain.Some? && (f.domain.value == arg || EndsWith(f.domain.value, "." + arg))
    else if EqFold(kind, "DOMAIN-KEYWORD") then f.domain.Some? && IsPart(f.domain.value, arg)
    else if EqFold(kind, "IP-CIDR") || EqFold(kind, "IP-CIDR6") then f.address.Some? && net.inside(arg, f.address.value)
    else if EqFold(kind, "DST-PORT") && Port(arg).Some? then f.port == Port(arg).value
    else if EqFold(kind, "GEOIP") && Local(arg) then f.address.Some? && net.private(f.address.value)
    else (Upper(kind), arg) in f.foreign
  }

  /** The kinds that sing-box is given. */
  predicate Translatable(kind: string, arg: string) {
    || EqFold(kind, "DOMAIN") || EqFold(kind, "DOMAIN-SUFFIX") || EqFold(kind, "DOMAIN-KEYWORD")
    || EqFold(kind, "IP-CIDR") || EqFold(kind, "IP-CIDR6")
    || (EqFold(kind, "DST-PORT") && Port(arg).Some?) || (EqFold(kind, "GEOIP") && Local(arg))
  }

  lemma KindsByCase(kind: string)
    ensures Upper(kind) == "DOMAIN" <==> EqFold(kind, "DOMAIN")
    ensures Upper(kind) == "DOMAIN-SUFFIX" <==> EqFold(kind, "DOMAIN-SUFFIX")
    ensures Upper(kind) == "DOMAIN-KEYWORD" <==> EqFold(kind, "DOMAIN-KEYWORD")
    ensures Upper(kind) == "IP-CIDR" <==> EqFold(kind, "IP-CIDR")
    ensures Upper(kind) == "IP-CIDR6" <==> EqFold(kind, "IP-CIDR6")
    ensures Upper(kind) == "DST-PORT" <==> EqFold(kind, "DST-PORT")
    ensures Upper(kind) == "GEOIP" <==> EqFold(kind, "GEOIP")
    ensures Upper(kind) == "MATCH" <==> EqFold(kind, "MATCH")
    ensures Upper(kind) == "LAN" <==> EqFold(kind, "LAN")
    ensures Upper(kind) == "PRIVATE" <==> EqFold(kind, "PRIVATE")
  {
    hide Upper, EqFold;
    UpperIs("DOMAIN", kind);
    UpperIs("DOMAIN-SUFFIX", kind);
    UpperIs("DOMAIN-KEYWORD", kind);
    UpperIs("IP-CIDR", kind);
    UpperIs("IP-CIDR6", kind);
    UpperIs("DST-PORT", kind);
    UpperIs("GEOIP", kind);
    UpperIs("MATCH", kind);
    UpperIs("LAN", kind);
    UpperIs("PRIVATE", kind);
  }

  lemma PartIsContained(s: string, t: string)
    ensures IsPart(s, t) <==> Contains(s, t)
  {
    if front, back :| s == front + t + back {
      assert s[|front|..|front| + |t|] == t;
    }
    if p, q :| 0 <= p <= q <= |s| && s[p..q] == t {
      assert s == s[..p] + t + s[q..];
    }
  }

  lemma MatcherOf(kind: string, arg: string)
    ensures Matching(kind, arg)
            == if EqFold(kind, "DOMAIN") then Some(Domain(arg)) else if EqFold(kind, "DOMAIN-SUFFIX") then Some(DomainSuffix(arg))
               else if EqFold(kind, "DOMAIN-KEYWORD") then Some(DomainKeyword(arg))
               else if EqFold(kind, "IP-CIDR") || EqFold(kind, "IP-CIDR6") then Some(IpCidr(arg))
               else if EqFold(kind, "DST-PORT") && Port(arg).Some? then Some(DstPort(Port(arg).value))
               else if EqFold(kind, "GEOIP") && Local(arg) then Some(PrivateIp) else None
  {
    hide Upper, EqFold, Port;
    KindsByCase(kind);
    KindsByCase(arg);
  }

  /** A kind is translated exactly when it is one of those; either way the matcher takes exactly the flows that the text takes. */
  lemma MatchingLaw(net: Networks, f: Flow, kind: string, arg: string)
    ensures Matching(kind, arg).Some? <==> Translatable(kind, arg)
    ensures FlowHits(net, f, Matching(kind, arg).GetOr(Foreign(Upper(kind), arg))) <==> Takes(net, f, kind, arg)
  {
    hide Upper, EqFold, Port, IsPart, Contains, Matching, Local;
    MatcherOf(kind, arg);
    if f.domain.Some? {
      PartIsContained(f.domain.value, arg);
    }
    assert "." + arg == ['.'] + arg;
  }

  // -------------------------------------------------------------- whole lines

  /** The i-th field of a line, trimmed. */
  function Part(source: string, i: nat): string
    requires i < |Fields(source)|
  {
    Trim(Fields(source)[i])
  }

  predicate IsMatch(source: string) { |Fields(source)| >= 2 && EqFold(Part(source, 0), "MATCH") }

  predicate IsRule(source: string) { |Fields(source)| >= 3 && !EqFold(Part(source, 0), "MATCH") }

  predicate IsTranslated(source: string, available: set<string>) {
    IsRule(source) && Tag(Part(source, 2)) in available && Translatable(Part(source, 0), Part(source, 1))
  }

  ghost predicate LineTakes(net: Networks, f: Flow, source: string) {
    IsRule(source) && Takes(net, f, Part(source, 0), Part(source, 1))
  }

  /** How a line is read: MATCH from two fields, any other rule from three, and only as much as is there. */
  lemma ReadLaw(source: string, available: set<string>, net: Networks, f: Flow)
    ensures var line := Read(source, available);
            && (line.Match? <==> IsMatch(source)) && (line.Match? ==> line.target == Tag(Part(source, 1)))
            && (line.Routed? <==> IsTranslated(source, available))
            && (Carried(line).Some? <==> IsRule(source))
            && (IsRule(source) ==>
                  && Carried(line).value.target == Tag(Part(source, 2))
                  && (FlowHits(net, f, Carried(line).value.matcher) <==> LineTakes(net, f, source)))
  {
    var fields := Trimmed(Fields(source));
    assert forall i :: 0 <= i < |fields| ==> fields[i] == Trim(Fields(source)[i]);
    if |fields| >= 2 {
      KindsByCase(fields[0]);
      MatchingLaw(net, f, fields[0], fields[1]);
    }
    hide Upper, EqFold, Fields, Trimmed, Trim, Matching, Takes, FlowHits, Translatable, Tag;
  }

  /**
   What the compiled list makes of a flow, from the text of the rules: the target of
   the first line that is translated and takes it, line k; else that of the last
   MATCH with an available target, line m; else the default. An index past the
   end stands for no such line.
   */
  lemma SourcesDecide(sources: seq<string>, available: set<string>, start: string, net: Networks, f: Flow) returns (k: nat,
      m: nat)
    ensures k <= |sources| && m <= |sources|
    ensures forall i :: 0 <= i < k ==> !(IsTranslated(sources[i], available) && LineTakes(net, f, sources[i]))
    ensures k < |sources| ==> IsTranslated(sources[k], available) && LineTakes(net, f, sources[k])
    ensures m < |sources| ==> IsMatch(sources[m]) && Tag(Part(sources[m], 1)) in available
    ensures forall i :: (if m < |sources| then m < i else 0 <= i) && i < |sources| ==>
              !(IsMatch(sources[i]) && Tag(Part(sources[i], 1)) in available)
    ensures var c := Compile(ReadAll(sources, available), available, start);
            Decide(c.rules, c.otherwise, HitsOf(net, f))
            == if k < |sources| then Tag(Part(sources[k], 2)) else if m < |sources| then Tag(Part(sources[m], 1)) else start
  {
    var lines, hits := ReadAll(sources, available), HitsOf(net, f);
    CompilationMeaning(lines, available, start, hits);
    k := FirstAt(lines, Translates(hits));
    m := LastMatchAt(lines, available);
    forall i | 0 <= i < |sources|
      ensures Translates(hits)(lines[i]) <==> IsTranslated(sources[i], available) && LineTakes(net, f, sources[i])
      ensures lines[i].Match? <==> IsMatch(sources[i])
      ensures lines[i].Match? ==> lines[i].target == Tag(Part(sources[i], 1))
    {
      ReadLaw(sources[i], available, net, f);
    }
    if k < |sources| {
      ReadLaw(sources[k], available, net, f);
    }
    hide Read, IsTranslated, LineTakes, Tag, IsMatch, FlowHits, Decide, Compile;
  }

  lemma {:induction false} LastMatchAt(lines: seq<Line>, available: set<string>) returns (m: nat)
    ensures m <= |lines|
    ensures m < |lines| ==> lines[m].Match? && lines[m].target in available
    ensures m < |lines| ==> LastMatch(lines, available) == Some(lines[m].target)
    ensures m == |lines| ==> LastMatch(lines, available) == None
    ensures forall i :: (if m < |lines| then m < i else 0 <= i) && i < |lines| ==>
            !(lines[i].Match? && lines[i].target in available)
  {
    m := 0;
    if lines != [] {
      var k := |lines| - 1;
      if lines[k].Match? && lines[k].target in available {
        m := k;
      } else {
        m := LastMatchAt(lines[..k], available);
        if m == k {
          m := |lines|;
        }
        forall i | (if m < |lines| then m < i else 0 <= i)
            && i < |lines| ensures !(lines[i].Match? && lines[i].target in available) {
          assert i < k ==> lines[..k][i] == lines[i];
        }
      }
    }
  }

  // ------------------------------------------------------ the default outbound

  /** a comes before b in a dictionary. */
  ghost predicate Before(a: string, b: string) {
    exists k: nat :: k <= |a| && k < |b| && a[..k] == b[..k] && (k == |a| || a[k] < b[k])
  }

  lemma {:induction false} LessLaw(a: string, b: string)
    ensures Less(a, b) <==> Before(a, b)
  {
    if a == [] || b == [] {
      assert b != [] ==> a[..0] == b[..0];
    } else {
      LessLaw(a[1..], b[1..]);
      if a[0] == b[0] && Before(a[1..], b[1..]) {
        var k: nat :| k <= |a[1..]| && k < |b[1..]| && a[1..][..k] == b[1..][..k] && (k == |a[1..]| || a[1..][k] < b[1..][k]);
        assert a[..k + 1] == [a[0]] + a[1..][..k] && b[..k + 1] == [b[0]] + b[1..][..k];
        assert Before(a, b);
      }
      if a[0] < b[0] {
        assert a[..0] == b[..0];
      }
      if k: nat :| k <= |a| && k < |b| && a[..k] == b[..k] && (k == |a| || a[k] < b[k]) {
        if k > 0 {
          assert a[0] == a[..k][0] == b[..k][0] == b[0];
          assert a[1..][..k - 1] == a[..k][1..] && b[1..][..k - 1] == b[..k][1..];
          assert Before(a[1..], b[1..]);
        }
      }
    }
  }

  lemma {:induction false} LessOrder(a: string, b: string, c: string)
    ensures Less(a, b) && !Less(c, b) ==> Less(a, c)
    ensures !(Less(a, b) && Less(b, a))
  {
    if a != [] && b != [] {
      if c != [] {
        LessOrder(a[1..], b[1..], c[1..]);
      } else {
        LessOrder(a[1..], b[1..], []);
      }
    }
  }

  /** The least name of a group, if there is a group. */
  lemma {:induction false} FirstNameLaw(groups: seq<Group>)
    ensures FirstName(groups).None? <==> groups == []
    ensures groups != [] ==>
              exists i :: 0 <= i < |groups| && groups[i].name == FirstName(groups).value
                          && forall j :: 0 <= j < |groups| ==> !Before(groups[j].name, groups[i].name)
  {
    if groups != [] {
      FirstNameLaw(groups[1..]);
      var (first, rest) := (groups[0].name, FirstName(groups[1..]));
      var x := FirstName(groups).value;
      forall j | 0 <= j < |groups| ensures !Before(groups[j].name, x) {
        LessLaw(groups[j].name, x);
        LessLaw(groups[j].name, rest.GetOr([]));
        LessOrder(groups[j].name, x, rest.GetOr([]));
        LessOrder(rest.GetOr([]), first, []);
        LessOrder(first, first, []);
        assert j > 0 ==> groups[j] == groups[1..][j - 1];
      }
      hide Less, Before, FirstName;
      if x == first {
        assert groups[0].name == x;
      } else {
        var i :| 0 <= i < |groups[1..]| && groups[1..][i].name == rest.value;
        assert groups[i + 1].name == x;
      }
    }
  }

  /** The first shadowsocks proxy, if there is one. */
  lemma {:induction false} FirstShadowsocksLaw(proxies: seq<string>, shadowsocks: set<string>) returns (k: nat)
    ensures k <= |proxies| && forall i :: 0 <= i < k ==> proxies[i] !in shadowsocks
    ensures FirstShadowsocks(proxies, shadowsocks) == if k < |proxies| then Some(proxies[k]) else None
    ensures k < |proxies| ==> proxies[k] in shadowsocks
  {
    k := 0;
    if proxies != [] && proxies[0] !in shadowsocks {
      var j := FirstShadowsocksLaw(proxies[1..], shadowsocks);
      k := j + 1;
    }
  }

  /**
   Where traffic starts from: the first group, else the first shadowsocks proxy, else direct;
   in Global mode the stored choice if it is available.
   */
  lemma StartLaw(p: Profile, mode: Mode)
    ensures var fallback := if p.groups != [] then FirstName(p.groups).value
                            else if FirstShadowsocks(p.proxies, p.shadowsocks).Some?
                                then FirstShadowsocks(p.proxies, p.shadowsocks).value
                            else "direct";
            var chosen := if "GLOBAL" in p.selections then Some(Tag(p.selections["GLOBAL"])) else None;
            StartTag(p, mode)
            == match mode
               case DirectMode => "direct"
               case RuleMode => fallback
               case GlobalMode => if chosen.Some? && chosen.value in Available(p) then chosen.value else fallback
  {
    FirstNameLaw(p.groups);
  }
}
