/**
 The Clash-to-sing-box compiler of lib.rs (render_sing_box_runtime_json): groups
 to selectors and rules to route rules, and what the compiled list decides.

 Proxies are the tags of those the renderer could translate. YAML and JSON are
 not part of this model.
 */
module RuleCompiler {
  import opened Text
  import opened Wrappers

  // ---------------------------------------------------------------- names

  function Tag(name: string): string {
    var upper := Upper(Trim(name));
    if upper == "DIRECT" then "direct" else if upper == "REJECT" || upper == "REJECT-DROP" then "block" else name
  }

  function Fields(s: string): (f: seq<string>)
    ensures |f| > 0
  {
    if s == [] then [[]]
    else if s[0] == ',' then [[]] + Fields(s[1..])
    else
      var rest := Fields(s[1..]);
      [[s[0]] + rest[0]] + rest[1..]
  }

  function Trimmed(f: seq<string>): (t: seq<string>)
    ensures |t| == |f|
  {
    seq(|f|, i requires 0 <= i < |f| => Trim(f[i]))
  }

  function Digits(s: string): Option<nat> {
    if s == [] then Some(0)
    else if !('0' <= s[|s| - 1] <= '9') then None
    else
      var high := Digits(s[..|s| - 1]);
      if high.None? then None else Some(10 * high.value + (s[|s| - 1] - '0') as int)
  }

  /** str::parse::<u16>: an optional plus sign, then digits, at most 65535. */
  function Port(s: string): Option<nat> {
    var digits := if s != [] && s[0] == '+' then s[1..] else s;
    var n := Digits(digits);
    if digits == [] || n.None? || n.value > 65535 then None else n
  }

  // ------------------------------------------------------- groups to selectors

  datatype Group = Group(name: string, members: seq<string>)

  datatype Selector = Selector(tag: string, outbounds: seq<string>, chosen: string)

  datatype Profile = Profile(proxies: seq<string>, shadowsocks: set<string>, groups: seq<Group>, selections: map<string, string>)

  function Names(groups: seq<Group>): set<string> { set g | g in groups :: g.name }

  function Elements(s: seq<string>): set<string> { set x | x in s }

  /** Every tag the rules may name. */
  function Available(p: Profile): set<string> {
    Elements(p.proxies) + Names(p.groups) + {"direct", "block"}
  }

  /** The members of a group that become outbounds of its selector. */
  function Usable(members: seq<string>, name: string, available: set<string>): (u: seq<string>)
    ensures forall x :: x in u ==> x in available && x != name
  {
    if members == [] then []
    else
      var tag, rest := Tag(members[0]), Usable(members[1..], name, available);
      if tag != name && tag in available then [tag] + rest else rest
  }

  /** The selector of one group, if it has a usable member. */
  function SelectorOf(p: Profile, g: Group): (r: seq<Selector>)
    ensures forall s :: s in r ==> s.tag == g.name && s.outbounds != [] && s.chosen in s.outbounds
  {
    var usable := Usable(g.members, g.name, Available(p));
    if usable == [] then []
    else
      var wanted := if g.name in p.selections then Tag(p.selections[g.name]) else usable[0];
      [Selector(g.name, usable, if wanted in usable then wanted else usable[0])]
  }

  function Selectors(p: Profile, groups: seq<Group>): seq<Selector> {
    if groups == [] then [] else SelectorOf(p, groups[0]) + Selectors(p, groups[1..])
  }

  /** The outbounds that the configuration really contains. */
  function Emitted(p: Profile): set<string> {
    Elements(p.proxies) + (set s | s in Selectors(p, p.groups) :: s.tag) + {"direct", "block"}
  }

  lemma {:induction false} SelectorExistsIff(p: Profile, groups: seq<Group>, tag: string)
    ensures (exists s :: s in Selectors(p, groups) && s.tag == tag)
            <==> exists g :: g in groups && g.name == tag && Usable(g.members, g.name, Available(p)) != []
  {
    if groups != [] {
      SelectorExistsIff(p, groups[1..], tag);
      SelectorOfIff(p, groups[0]);
      hide SelectorOf, Usable, Available;
      assert groups == [groups[0]] + groups[1..];
      var one, rest := SelectorOf(p, groups[0]), Selectors(p, groups[1..]);
      assert forall s :: s in one + rest <==> s in one || s in rest;
      if one != [] {
        assert one[0] in one;
      }
    }
  }

  lemma SelectorOfIff(p: Profile, g: Group)
    ensures SelectorOf(p, g) == [] <==> Usable(g.members, g.name, Available(p)) == []
  {
  }

  /**
   An available tag is dangling, that is, names no outbound of the emitted
   configuration, exactly when it is only the name of groups without a usable
   member.
   */
  lemma DanglingIff(p: Profile, tag: string)
    requires tag in Available(p)
    ensures tag !in Emitted(p) <==>
            tag !in p.proxies && tag != "direct" && tag != "block"
            && forall g :: g in p.groups && g.name == tag ==> Usable(g.members, g.name, Available(p)) == []
  {
    hide Usable;
    SelectorExistsIff(p, p.groups, tag);
  }

  // ------------------------------------------------------------------ rules

  /** `Foreign` is a rule kind that only Clash knows, with its argument. */
  datatype Matcher =
    | Domain(text: string) | DomainSuffix(text: string) | DomainKeyword(text: string)
    | IpCidr(text: string) | DstPort(port: nat) | PrivateIp
    | Foreign(kind: string, text: string)

  datatype Rule = Rule(matcher: Matcher, target: string)

  /**
   What one string rule turns into. A skipped line keeps the rule that Clash reads
   in it, if it has enough fields to be one.
   */
  datatype Line = Skipped(rule: Option<Rule>) | Match(target: string) | Routed(routed: Rule)

  function Matching(kind: string, text: string): Option<Matcher> {
    match Upper(kind)
    case "DOMAIN" => Some(Domain(text))
    case "DOMAIN-SUFFIX" => Some(DomainSuffix(text))
    case "DOMAIN-KEYWORD" => Some(DomainKeyword(text))
    case "IP-CIDR" => Some(IpCidr(text))
    case "IP-CIDR6" => Some(IpCidr(text))
    case "DST-PORT" => if Port(text).Some? then Some(DstPort(Port(text).value)) else None
    case "GEOIP" => if Upper(text) == "LAN" || Upper(text) == "PRIVATE" then Some(PrivateIp) else None
    case _ => None
  }

  function Read(source: string, available: set<string>): Line {
    var f := Trimmed(Fields(source));
    if |f| < 2 then Skipped(None)
    else if Upper(f[0]) == "MATCH" then Match(Tag(f[1]))
    else if |f| < 3 then Skipped(None)
    else
      var m, target := Matching(f[0], f[1]), Tag(f[2]);
      if target !in available || m.None? then Skipped(Some(Rule(m.GetOr(Foreign(Upper(f[0]), f[1])), target)))
      else Routed(Rule(m.value, target))
  }

  function ReadAll(sources: seq<string>, available: set<string>): (r: seq<Line>)
    ensures |r| == |sources|
  {
    seq(|sources|, i requires 0 <= i < |sources| => Read(sources[i], available))
  }

  datatype Compiled = Compiled(rules: seq<Rule>, translated: nat, skipped: nat, otherwise: string)

  function Compile(lines: seq<Line>, available: set<string>, start: string): Compiled {
    if lines == [] then Compiled([], 0, 0, start)
    else
      var c, last := Compile(lines[..|lines| - 1], available, start), lines[|lines| - 1];
      match last
      case Skipped(_) => c.(skipped := c.skipped + 1)
      case Match(t) => if t in available then c.(otherwise := t) else c
      case Routed(r) => c.(rules := c.rules + [r], translated := c.translated + 1)
  }

  // ------------------------------------------------------------ what it decides

  /** First match, then the final outbound: how the compiled route decides. */
  function Decide(rules: seq<Rule>, otherwise: string, hits: Matcher -> bool): string {
    if rules == [] then otherwise
    else if hits(rules[0].matcher) then rules[0].target
    else Decide(rules[1..], otherwise, hits)
  }

  /** Position of the first line that `takes`, or the length. */
  function FirstAt(lines: seq<Line>, takes: Line -> bool): (k: nat)
    ensures k <= |lines|
    ensures forall i :: 0 <= i < k ==> !takes(lines[i])
    ensures k < |lines| ==> takes(lines[k])
  {
    if lines == [] || takes(lines[0]) then 0 else 1 + FirstAt(lines[1..], takes)
  }

  /** The rule that Clash reads in a line. */
  function Carried(line: Line): Option<Rule> {
    match line
    case Skipped(r) => r
    case Match(_) => None
    case Routed(r) => Some(r)
  }

  /** The target of a line, or of the end of the list. */
  function TargetAt(lines: seq<Line>, i: nat, otherwise: string): string {
    if i >= |lines| then otherwise
    else if lines[i].Match? then lines[i].target
    else if Carried(lines[i]).Some? then Carried(lines[i]).value.target else otherwise
  }

  /** The translated lines that hit. */
  function Translates(hits: Matcher -> bool): Line -> bool {
    (line: Line) => line.Routed? && hits(line.routed.matcher)
  }

  /** The target of the last MATCH whose target is available. */
  function LastMatch(lines: seq<Line>, available: set<string>): Option<string> {
    if lines == [] then None
    else
      var last := lines[|lines| - 1];
      if last.Match? && last.target in available then Some(last.target) else LastMatch(lines[..|lines| - 1], available)
  }

  function Final(lines: seq<Line>, available: set<string>, start: string): string {
    LastMatch(lines, available).GetOr(start)
  }

  lemma FirstAtIs(lines: seq<Line>, takes: Line -> bool, k: nat)
    requires k <= |lines| && (k < |lines| ==> takes(lines[k]))
    requires forall l :: 0 <= l < k ==> !takes(lines[l])
    ensures FirstAt(lines, takes) == k
  {
    var f := FirstAt(lines, takes);
    assert !(f < k) && !(k < f);
  }

  lemma {:induction false} DecideSnoc(rules: seq<Rule>, r: Rule, otherwise: string, hits: Matcher -> bool)
    ensures Decide(rules + [r], otherwise, hits) == Decide(rules, if hits(r.matcher) then r.target else otherwise, hits)
  {
    if rules != [] {
      assert (rules + [r])[1..] == rules[1..] + [r];
      DecideSnoc(rules[1..], r, otherwise, hits);
    }
  }

  lemma FirstAtSnoc(lines: seq<Line>, takes: Line -> bool)
    requires lines != []
    ensures var init, last := lines[..|lines| - 1], lines[|lines| - 1];
            var k := FirstAt(init, takes);
            FirstAt(lines, takes) == if k < |init| || takes(last) then k else |lines|
  {
    var init, last := lines[..|lines| - 1], lines[|lines| - 1];
    var k := FirstAt(init, takes);
    assert forall l :: 0 <= l < |init| ==> lines[l] == init[l];
    FirstAtIs(lines, takes, if k < |init| || takes(last) then k else |lines|);
  }

  lemma TargetSnoc(lines: seq<Line>, hits: Matcher -> bool, otherwise: string)
    requires lines != []
    ensures var init, last := lines[..|lines| - 1], lines[|lines| - 1];
            TargetAt(lines, FirstAt(lines, Translates(hits)), otherwise)
            == TargetAt(init, FirstAt(init, Translates(hits)),
                        if last.Routed? && hits(last.routed.matcher) then last.routed.target else otherwise)
  {
    hide FirstAt;
    FirstAtSnoc(lines, Translates(hits));
  }

  lemma {:induction false} CompiledDecides(lines: seq<Line>, available: set<string>, start: string, otherwise: string, hits: Matcher -> bool)
    ensures var c := Compile(lines, available, start);
            && c.otherwise == Final(lines, available, start)
            && Decide(c.rules, otherwise, hits) == TargetAt(lines, FirstAt(lines, Translates(hits)), otherwise)
  {
    if lines != [] {
      hide FirstAt, TargetAt;
      var init, last := lines[..|lines| - 1], lines[|lines| - 1];
      var next := if last.Routed? && hits(last.routed.matcher) then last.routed.target else otherwise;
      if last.Routed? {
        DecideSnoc(Compile(init, available, start).rules, last.routed, otherwise, hits);
      }
      CompiledDecides(init, available, start, next, hits);
      TargetSnoc(lines, hits, otherwise);
    }
  }

  /**
   The compiled list means: the first translated rule that matches, else the
   last MATCH with an available target, else the default. This is independent
   of how many rules were skipped and where the MATCH rules stand.
   */
  lemma CompilationMeaning(lines: seq<Line>, available: set<string>, start: string, hits: Matcher -> bool)
    ensures var c := Compile(lines, available, start);
            Decide(c.rules, c.otherwise, hits)
            == TargetAt(lines, FirstAt(lines, Translates(hits)), Final(lines, available, start))
  {
    CompiledDecides(lines, available, start, Compile(lines, available, start).otherwise, hits);
  }

  function MatchCount(lines: seq<Line>): nat {
    if lines == [] then 0 else MatchCount(lines[..|lines| - 1]) + if lines[|lines| - 1].Match? then 1 else 0
  }

  /** Nothing is dropped silently: every string rule is translated, skipped or a MATCH. */
  lemma {:induction false} EveryRuleIsCounted(lines: seq<Line>, available: set<string>, start: string)
    ensures var c := Compile(lines, available, start);
            c.translated == |c.rules| && c.translated + c.skipped + MatchCount(lines) == |lines|
  {
    if lines != [] {
      EveryRuleIsCounted(lines[..|lines| - 1], available, start);
    }
  }

  // --------------------------------------------------- the default outbound

  predicate Less(a: string, b: string) {
    if a == [] || b == [] then a == [] && b != []
    else a[0] < b[0] || (a[0] == b[0] && Less(a[1..], b[1..]))
  }

  /** The first name in the sorted set of group names. */
  function FirstName(groups: seq<Group>): (r: Option<string>)
    ensures r.Some? ==> r.value in Names(groups)
    ensures r.None? ==> groups == []
  {
    if groups == [] then None
    else
      var rest := FirstName(groups[1..]);
      if rest.Some? && Less(rest.value, groups[0].name) then rest else Some(groups[0].name)
  }

  function FirstShadowsocks(proxies: seq<string>, shadowsocks: set<string>): (r: Option<string>)
    ensures r.Some? ==> r.value in proxies
  {
    if proxies == [] then None
    else if proxies[0] in shadowsocks then Some(proxies[0]) else FirstShadowsocks(proxies[1..], shadowsocks)
  }

  datatype Mode = DirectMode | GlobalMode | RuleMode

  function FallbackTag(p: Profile): string {
    FirstName(p.groups).GetOr(FirstShadowsocks(p.proxies, p.shadowsocks).GetOr("direct"))
  }

  function GlobalChoice(p: Profile, otherwise: string): string {
    if "GLOBAL" in p.selections && Tag(p.selections["GLOBAL"]) in Available(p) then Tag(p.selections["GLOBAL"]) else otherwise
  }

  function StartTag(p: Profile, mode: Mode): string {
    match mode
    case DirectMode => "direct"
    case GlobalMode => GlobalChoice(p, FallbackTag(p))
    case RuleMode => FallbackTag(p)
  }

  /** Everything the configuration names is an available tag, so the last availability check never fires. */
  lemma {:induction false} NamedTagsAreAvailable(p: Profile, mode: Mode, sources: seq<string>)
    ensures var c := Compile(ReadAll(sources, Available(p)), Available(p), StartTag(p, mode));
            && c.otherwise in Available(p)
            && (forall r :: r in c.rules ==> r.target in Available(p))
            && GlobalChoice(p, StartTag(p, mode)) in Available(p)
    decreases |sources|
  {
    hide Tag, Read, FirstName, FirstShadowsocks;
    if sources != [] {
      var init := sources[..|sources| - 1];
      var lines := ReadAll(sources, Available(p));
      assert lines[..|lines| - 1] == ReadAll(init, Available(p));
      NamedTagsAreAvailable(p, mode, init);
      ReadTargets(sources[|sources| - 1], Available(p));
      var c := Compile(ReadAll(init, Available(p)), Available(p), StartTag(p, mode));
    }
  }

  lemma ReadTargets(source: string, available: set<string>)
    ensures Read(source, available).Routed? ==> Read(source, available).routed.target in available
  {
    hide Matching, Tag, Trimmed;
  }

  // ---------------------------------------------------------------- the loop

  /** The rule loop of render_sing_box_runtime_json, in Rule mode. */
  method RenderRules(sources: seq<string>, available: set<string>, start: string) returns (c: Compiled)
    ensures c == Compile(ReadAll(sources, available), available, start)
  {
    var rules: seq<Rule> := [];
    var translated, skipped, otherwise := 0, 0, start;
    ghost var lines := ReadAll(sources, available);
    assert lines[..0] == [];
    for i := 0 to |sources|
      invariant Compiled(rules, translated, skipped, otherwise) == Compile(lines[..i], available, start)
    {
      hide Matching, Tag, Fields, Trimmed, Upper;
      assert lines[..i + 1][..i] == lines[..i] && lines[i] == Read(sources[i], available);
      var f := Trimmed(Fields(sources[i]));
      if |f| < 2 {
        skipped := skipped + 1;
      } else if Upper(f[0]) == "MATCH" {
        var target := Tag(f[1]);
        if target in available {
          otherwise := target;
        }
      } else if |f| < 3 {
        skipped := skipped + 1;
      } else {
        var target := Tag(f[2]);
        if target !in available {
          skipped := skipped + 1;
        } else {
          var rule := Matching(f[0], f[1]);
          if rule.Some? {
            rules := rules + [Rule(rule.value, target)];
            translated := translated + 1;
          } else {
            skipped := skipped + 1;
          }
        }
      }
    }
    assert lines[..|sources|] == lines;
    c := Compiled(rules, translated, skipped, otherwise);
  }

  /** The group loop. */
  method RenderSelectors(p: Profile) returns (selectors: seq<Selector>)
    ensures selectors == Selectors(p, p.groups)
  {
    hide SelectorOf;
    selectors := [];
    for i := 0 to |p.groups|
      invariant selectors + Selectors(p, p.groups[i..]) == Selectors(p, p.groups)
    {
      var one := RenderSelector(p, p.groups[i]);
      SelectorsStep(p, p.groups, i);
      assert selectors + (one + Selectors(p, p.groups[i + 1..])) == (selectors + one) + Selectors(p, p.groups[i + 1..]);
      selectors := selectors + one;
    }
  }

  lemma SelectorsStep(p: Profile, groups: seq<Group>, i: nat)
    requires i < |groups|
    ensures Selectors(p, groups[i..]) == SelectorOf(p, groups[i]) + Selectors(p, groups[i + 1..])
  {
    hide SelectorOf;
    assert groups[i..][1..] == groups[i + 1..];
  }

  method RenderSelector(p: Profile, g: Group) returns (r: seq<Selector>)
    ensures r == SelectorOf(p, g)
  {
    hide Tag, Usable, Available;
    r := [];
    var usable := Usable(g.members, g.name, Available(p));
    if usable != [] {
      var wanted := if g.name in p.selections then Tag(p.selections[g.name]) else usable[0];
      r := [Selector(g.name, usable, if wanted in usable then wanted else usable[0])];
    }
  }

  /** The whole route part: selectors, the Global target, the rules and the final outbound. */
  method Render(p: Profile, mode: Mode, sources: seq<string>) returns (selectors: seq<Selector>, global: string, c: Compiled)
    ensures selectors == Selectors(p, p.groups)
    ensures global == GlobalChoice(p, StartTag(p, mode))
    ensures c == Compile(if mode.RuleMode? then ReadAll(sources, Available(p)) else [], Available(p), StartTag(p, mode))
  {
    hide Tag, Available, Selectors, Compile, ReadAll, StartTag, GlobalChoice;
    selectors := RenderSelectors(p);
    var start := StartTag(p, mode);
    global := GlobalChoice(p, start);
    var used := if mode.RuleMode? then sources else [];
    c := RenderRules(used, Available(p), start);
    NamedTagsAreAvailable(p, mode, used);
    NothingRead(Available(p));
    // The last availability check of the source: it never fires.
    if c.otherwise !in Available(p) {
      assert false;
    }
  }

  lemma NothingRead(available: set<string>)
    ensures ReadAll([], available) == []
  {
  }
}
