/**
 When a compiled route sends traffic where Clash itself would send it.

 A matcher is taken to mean the same in both engines. `hits` says which matchers
 a non-DNS flow satisfies: first any hits that are lawful, then those of flows.
 */
module ClashAgreement {
  import opened Wrappers
  import opened RuleCompiler

  // --------------------------------------------------- compared with Clash

  /**
   Clash: the first rule that matches, where MATCH always does; DIRECT when none
   does. Skipping is the compiler's affair: Clash follows a skipped rule too.
   */
  function Clash(lines: seq<Line>, hits: Matcher -> bool): string {
    if lines == [] then "direct"
    else
      match lines[0]
      case Match(t) => t
      case Routed(r) => if hits(r.matcher) then r.target else Clash(lines[1..], hits)
      case Skipped(r) => if r.Some? && hits(r.value.matcher) then r.value.target else Clash(lines[1..], hits)
  }

  /** The lines that Clash stops at. */
  function Stops(hits: Matcher -> bool): Line -> bool {
    (line: Line) => line.Match? || (Carried(line).Some? && hits(Carried(line).value.matcher))
  }

  lemma {:induction false} ClashMeaning(lines: seq<Line>, hits: Matcher -> bool)
    ensures Clash(lines, hits) == TargetAt(lines, FirstAt(lines, Stops(hits)), "direct")
  {
    if lines != [] {
      var stop, k := Stops(hits)(lines[0]), FirstAt(lines[1..], Stops(hits));
      assert Carried(lines[0]).Some? && hits(Carried(lines[0]).value.matcher) ==> stop;
      assert FirstAt(lines, Stops(hits)) == if stop then 0 else k + 1;
      if !stop {
        ClashMeaning(lines[1..], hits);
      }
    }
  }

  /** The compiled list sends this flow where Clash sends it. */
  predicate Agrees(lines: seq<Line>, available: set<string>, start: string, hits: Matcher -> bool) {
    Decide(Compile(lines, available, start).rules, Compile(lines, available, start).otherwise, hits) == Clash(lines, hits)
  }

  lemma AgreesAt(lines: seq<Line>, available: set<string>, start: string, hits: Matcher -> bool)
    ensures Agrees(lines, available, start, hits) <==>
            TargetAt(lines, FirstAt(lines, Stops(hits)), "direct")
            == TargetAt(lines, FirstAt(lines, Translates(hits)), Final(lines, available, start))
  {
    CompilationMeaning(lines, available, start, hits);
    ClashMeaning(lines, hits);
  }

  // ------------------------------------------------------------------- flows

  predicate Contains(s: string, t: string) {
    exists p, q :: 0 <= p <= q <= |s| && s[p..q] == t
  }

  /** s is the domain t or one below it. */
  predicate Under(s: string, t: string) {
    s == t || (|t| < |s| && s[|s| - |t| - 1..] == ['.'] + t)
  }

  predicate OnName(m: Matcher) { m.Domain? || m.DomainSuffix? || m.DomainKeyword? }

  predicate NameHits(name: string, m: Matcher) {
    match m
    case Domain(t) => name == t
    case DomainSuffix(t) => Under(name, t)
    case DomainKeyword(t) => Contains(name, t)
    case _ => false
  }

  /** Which addresses a CIDR text and "private" stand for. */
  datatype Networks = Networks(inside: (string, seq<bool>) -> bool, private: seq<bool> -> bool)

  /** A non-DNS flow; `foreign` holds what only Clash can tell about it, such as its process. */
  datatype Flow = Flow(domain: Option<string>, address: Option<seq<bool>>, port: nat, foreign: iset<(string, string)>)

  ghost predicate FlowHits(net: Networks, f: Flow, m: Matcher) {
    match m
    case IpCidr(t) => f.address.Some? && net.inside(t, f.address.value)
    case DstPort(p) => f.port == p
    case PrivateIp => f.address.Some? && net.private(f.address.value)
    case Foreign(k, t) => (k, t) in f.foreign
    case _ => f.domain.Some? && NameHits(f.domain.value, m)
  }

  ghost function HitsOf(net: Networks, f: Flow): Matcher -> bool {
    (m: Matcher) => FlowHits(net, f, m)
  }

  // --------------------------------------------- what matchers say of each other

  /** Every flow that hits m hits n. */
  predicate Implies(m: Matcher, n: Matcher) {
    m == n ||
    match m
    case Domain(t) => NameHits(t, n)
    case DomainSuffix(t) => !n.Domain? && NameHits(t, n)
    case DomainKeyword(t) => n.DomainKeyword? && NameHits(t, n)
    case _ => false
  }

  /** No flow hits both. */
  predicate Excludes(m: Matcher, n: Matcher) {
    || (m.Domain? && OnName(n) && !NameHits(m.text, n))
    || (n.Domain? && OnName(m) && !NameHits(n.text, m))
    || (m.DomainSuffix? && n.DomainSuffix? && !Under(m.text, n.text) && !Under(n.text, m.text))
    || (m.DstPort? && n.DstPort? && m != n)
  }

  /** The matchers hit respect what any two of them say of each other. */
  ghost predicate Lawful(hits: Matcher -> bool) {
    && (forall m, n :: hits(m) && Implies(m, n) ==> hits(n))
    && (forall m, n :: hits(m) && hits(n) ==> !Excludes(m, n))
  }

  lemma ContainsTrans(r: string, s: string, t: string)
    requires Contains(r, s) && Contains(s, t)
    ensures Contains(r, t)
  {
    var p, q :| 0 <= p <= q <= |r| && r[p..q] == s;
    var u, v :| 0 <= u <= v <= |s| && s[u..v] == t;
    forall k | 0 <= k < v - u ensures r[p + u..p + v][k] == t[k] {
      assert s[u..v][k] == s[u + k] == r[p..q][u + k];
    }
    assert r[p + u..p + v] == t;
  }

  lemma UnderContains(s: string, t: string)
    requires Under(s, t)
    ensures Contains(s, t)
  {
    assert s[|s| - |t|..|s|] == t;
  }

  lemma UnderTrans(r: string, s: string, t: string)
    requires Under(r, s) && Under(s, t)
    ensures Under(r, t)
  {
    if r != s && s != t {
      var k := |r| - |t| - 1;
      assert r[k..] == r[|r| - |s| - 1..][|s| - |t|..] == s[|s| - |t| - 1..];
    }
  }

  /** Two domains above the same name are above each other. */
  lemma UnderChain(r: string, s: string, t: string)
    requires Under(r, s) && Under(r, t) && |t| <= |s|
    ensures Under(s, t)
  {
    if r != s {
      assert s == r[|r| - |s|..];
    }
    if |t| < |s| {
      assert s[|s| - |t| - 1..] == r[|r| - |t| - 1..];
    } else {
      assert s == r[|r| - |s|..] == t;
    }
  }

  /** A name hits whatever its own matchers imply. */
  lemma NameHitsUp(name: string, m: Matcher, n: Matcher)
    requires NameHits(name, m) && Implies(m, n)
    ensures NameHits(name, n)
  {
    hide Contains, Under;
    if m.DomainSuffix? && n.DomainSuffix? && m != n {
      UnderTrans(name, m.text, n.text);
    } else if m.DomainSuffix? && n.DomainKeyword? {
      UnderContains(name, m.text);
      ContainsTrans(name, m.text, n.text);
    } else if m.DomainKeyword? && m != n {
      ContainsTrans(name, m.text, n.text);
    }
  }

  lemma NameHitsCompatible(name: string, m: Matcher, n: Matcher)
    requires NameHits(name, m) && NameHits(name, n)
    ensures !Excludes(m, n)
  {
    hide Contains, Under;
    if m.DomainSuffix? && n.DomainSuffix? {
      if |n.text| <= |m.text| { UnderChain(name, m.text, n.text); } else { UnderChain(name, n.text, m.text); }
    }
  }

  /** What a flow hits is lawful. */
  lemma FlowsAreLawful(net: Networks, f: Flow)
    ensures Lawful(HitsOf(net, f))
  {
    hide Under, Contains;
    var hits := HitsOf(net, f);
    forall m, n | hits(m) && Implies(m, n) ensures hits(n) {
      if m != n {
        NameHitsUp(f.domain.value, m, n);
      }
    }
    forall m, n | hits(m) && hits(n) ensures !Excludes(m, n) {
      if OnName(m) && OnName(n) {
        NameHitsCompatible(f.domain.value, m, n);
      }
    }
  }

  lemma OwnName(m: Matcher)
    requires OnName(m)
    ensures NameHits(m.text, m)
  {
    if m.DomainKeyword? {
      assert m.text[0..|m.text|] == m.text;
    }
  }

  lemma ImpliesTrans(m: Matcher, n: Matcher, k: Matcher)
    requires Implies(m, n) && Implies(n, k)
    ensures Implies(m, k)
  {
    hide Under, Contains;
    if m != n && n != k {
      NameHitsUp(m.text, n, k);
    }
  }

  lemma CompatibleUp(p: Matcher, m: Matcher, q: Matcher, n: Matcher)
    requires Implies(p, m) && Implies(q, n) && !Excludes(p, q)
    ensures !Excludes(m, n)
  {
    hide Under, Contains;
    if OnName(p) && OnName(q) {
      OwnName(p);
      OwnName(q);
      if NameHits(p.text, q) {
        NameHitsUp(p.text, p, m);
        NameHitsUp(p.text, q, n);
        NameHitsCompatible(p.text, m, n);
      } else if NameHits(q.text, p) {
        NameHitsUp(q.text, p, m);
        NameHitsUp(q.text, q, n);
        NameHitsCompatible(q.text, m, n);
      }
    }
  }

  /** The least lawful hits that contain the given matchers. */
  ghost function Hull(given: set<Matcher>): Matcher -> bool {
    (m: Matcher) => exists p :: p in given && Implies(p, m)
  }

  lemma HullIsLawful(given: set<Matcher>)
    requires forall p, q :: p in given && q in given ==> !Excludes(p, q)
    ensures Lawful(Hull(given))
  {
    hide Implies, Excludes;
    var hits := Hull(given);
    forall m, n | hits(m) && Implies(m, n) ensures hits(n) {
      var p :| p in given && Implies(p, m);
      ImpliesTrans(p, m, n);
    }
    forall m, n | hits(m) && hits(n) ensures !Excludes(m, n) {
      var p :| p in given && Implies(p, m);
      var q :| q in given && Implies(q, n);
      CompatibleUp(p, m, q, n);
    }
  }

  // ------------------------------------------------------ when the two agree

  /** The matchers of line i, where Clash would stop, and of line j, which the compiled list would take. */
  function Given(lines: seq<Line>, i: nat, j: nat): set<Matcher> {
    (if i < |lines| && Carried(lines[i]).Some? then {Carried(lines[i]).value.matcher} else {})
    + (if j < |lines| && lines[j].Routed? then {lines[j].routed.matcher} else {})
  }

  /** Line l is hit by whatever hits the given matchers. */
  predicate Forced(given: set<Matcher>, line: Line) {
    Carried(line).Some? && exists p :: p in given && Implies(p, Carried(line).value.matcher)
  }

  /**
   Some hits make Clash stop at line i and the compiled list take line j (either
   may be the end of the list): there is no MATCH before i, the two matchers do not
   exclude each other, and they force no earlier line.
   */
  predicate Together(lines: seq<Line>, i: nat, j: nat) {
    && (i < |lines| ==> lines[i].Match? || Carried(lines[i]).Some?)
    && (j < |lines| ==> lines[j].Routed?)
    && (forall p, q :: p in Given(lines, i, j) && q in Given(lines, i, j) ==> !Excludes(p, q))
    && (forall l :: 0 <= l < i && l < |lines| ==> !lines[l].Match? && !Forced(Given(lines, i, j), lines[l]))
    && (forall l :: 0 <= l < j && l < |lines| && lines[l].Routed? ==> !Forced(Given(lines, i, j), lines[l]))
  }

  /** Position i decides otherwise in Clash than position j in the compiled list. */
  predicate Diverts(lines: seq<Line>, available: set<string>, start: string, i: nat, j: nat) {
    && i <= |lines| && j <= |lines| && Together(lines, i, j)
    && TargetAt(lines, i, "direct") != TargetAt(lines, j, Final(lines, available, start))
  }

  /** Where two lawful hits stop, the lines are together. */
  lemma StopsTogether(lines: seq<Line>, hits: Matcher -> bool)
    requires Lawful(hits)
    ensures Together(lines, FirstAt(lines, Stops(hits)), FirstAt(lines, Translates(hits)))
  {
    hide Implies, Excludes;
    var i, j := FirstAt(lines, Stops(hits)), FirstAt(lines, Translates(hits));
    var given := Given(lines, i, j);
    forall p | p in given ensures hits(p) {
      if i < |lines| { assert Stops(hits)(lines[i]); }
      if j < |lines| { assert Translates(hits)(lines[j]); }
    }
    forall l | 0 <= l < |lines| && Forced(given, lines[l]) ensures l >= i && (lines[l].Routed? ==> l >= j) {
      var p :| p in given && Implies(p, Carried(lines[l]).value.matcher);
      assert Stops(hits)(lines[l]) && (lines[l].Routed? ==> Translates(hits)(lines[l]));
    }
    forall l | 0 <= l < i && l < |lines| ensures !lines[l].Match? {
      assert !Stops(hits)(lines[l]);
    }
  }

  /** Where lines are together, the least hits of their matchers stop there. */
  lemma HullStops(lines: seq<Line>, i: nat, j: nat)
    requires i <= |lines| && j <= |lines| && Together(lines, i, j)
    ensures var hits := Hull(Given(lines, i, j));
            Lawful(hits) && FirstAt(lines, Stops(hits)) == i && FirstAt(lines, Translates(hits)) == j
  {
    hide Excludes;
    var given := Given(lines, i, j);
    var hits := Hull(given);
    HullIsLawful(given);
    assert forall p :: p in given ==> Implies(p, p);
    forall l | 0 <= l < |lines| && !Forced(given, lines[l])
      ensures !Translates(hits)(lines[l]) && (Stops(hits)(lines[l]) ==> lines[l].Match?)
    {
    }
    FirstAtIs(lines, Stops(hits), i);
    FirstAtIs(lines, Translates(hits), j);
  }

  /**
   The compiled list agrees with Clash on all lawful hits exactly when no line, or
   end of the list, at which Clash can stop goes with a line, or the final outbound,
   of another target. A skipped rule before the first MATCH and a translated one
   after it are the two ways to be such a line, unless an earlier rule shadows them.
   */
  lemma AgreesWithClashIff(lines: seq<Line>, available: set<string>, start: string)
    ensures (forall hits: Matcher -> bool :: Lawful(hits) ==> Agrees(lines, available, start, hits))
            <==> forall i: nat, j: nat :: !Diverts(lines, available, start, i, j)
  {
    hide Together, Lawful, Agrees, Hull, TargetAt, Final;
    if forall hits: Matcher -> bool :: Lawful(hits) ==> Agrees(lines, available, start, hits) {
      forall i: nat, j: nat ensures !Diverts(lines, available, start, i, j) {
        if Diverts(lines, available, start, i, j) {
          HullStops(lines, i, j);
          AgreesAt(lines, available, start, Hull(Given(lines, i, j)));
        }
      }
    }
    if forall i: nat, j: nat :: !Diverts(lines, available, start, i, j) {
      forall hits: Matcher -> bool | Lawful(hits) ensures Agrees(lines, available, start, hits) {
        NoDiversion(lines, available, start, hits);
      }
    }
  }

  lemma NoDiversion(lines: seq<Line>, available: set<string>, start: string, hits: Matcher -> bool)
    requires Lawful(hits)
    requires forall i: nat, j: nat :: !Diverts(lines, available, start, i, j)
    ensures Agrees(lines, available, start, hits)
  {
    hide Together, Lawful, Agrees, TargetAt, Final;
    StopsTogether(lines, hits);
    AgreesAt(lines, available, start, hits);
    assert !Diverts(lines, available, start, FirstAt(lines, Stops(hits)), FirstAt(lines, Translates(hits)));
  }

  /**
   So then every flow goes where Clash sends it. Several rules together may shadow
   one that none of them shadows alone, so this is one way; AgreesOnFlowsIff is exact.
   */
  lemma FlowsAgree(lines: seq<Line>, available: set<string>, start: string, net: Networks, f: Flow)
    requires forall i: nat, j: nat :: !Diverts(lines, available, start, i, j)
    ensures Agrees(lines, available, start, HitsOf(net, f))
  {
    hide Diverts, Agrees, Lawful, HitsOf;
    FlowsAreLawful(net, f);
    NoDiversion(lines, available, start, HitsOf(net, f));
  }

  /** In particular when no rule was skipped and the only MATCH is last and available. */
  lemma UsualProfilesAgree(lines: seq<Line>, available: set<string>, start: string, hits: Matcher -> bool)
    requires lines != [] && lines[|lines| - 1].Match? && lines[|lines| - 1].target in available
    requires forall i :: 0 <= i < |lines| - 1 ==> lines[i].Routed? || lines[i] == Skipped(None)
    ensures Agrees(lines, available, start, hits)
  {
    AgreesAt(lines, available, start, hits);
    var last, i, j := |lines| - 1, FirstAt(lines, Stops(hits)), FirstAt(lines, Translates(hits));
    assert Stops(hits)(lines[last]);
    if i < last {
      assert Translates(hits)(lines[i]);
      assert i == j;
    } else {
      assert forall l :: 0 <= l < last ==> !Stops(hits)(lines[l]);
      assert !Translates(hits)(lines[last]);
      assert j >= last;
    }
  }

  /** A rule after MATCH is dead in Clash but alive in the compiled list. */
  lemma RulesAfterMatchComeAlive(available: set<string>, start: string)
    requires "node" in available && "other" in available
    ensures Diverts([Match("node"), Routed(Rule(PrivateIp, "other"))], available, start, 0, 1)
  {
  }

  /** A process rule, which cannot be translated, sends its flows elsewhere. */
  lemma SkippedRulesDivert(available: set<string>, start: string)
    requires "node" in available
    ensures Diverts([Skipped(Some(Rule(Foreign("PROCESS-NAME", "x"), "block"))), Match("node")], available, start, 0, 2)
  {
    var lines := [Skipped(Some(Rule(Foreign("PROCESS-NAME", "x"), "block"))), Match("node")];
    assert LastMatch(lines, available) == Some("node");
  }

  /** A rule after MATCH does no harm when an earlier one takes all its flows. */
  lemma ShadowedRulesAreHarmless(available: set<string>, start: string, i: nat, j: nat)
    requires "b" in available
    ensures !Diverts([Routed(Rule(DomainSuffix("com"), "a")), Match("b"), Routed(Rule(Domain("x.com"), "c"))],
                     available, start, i, j)
  {
    var lines := [Routed(Rule(DomainSuffix("com"), "a")), Match("b"), Routed(Rule(Domain("x.com"), "c"))];
    assert LastMatch(lines[..2], available) == Some("b");
    assert "x.com"[1..] == ['.'] + "com";
    assert Implies(Domain("x.com"), DomainSuffix("com"));
    if j == 2 {
      assert Forced(Given(lines, i, j), lines[0]);
    } else if i == 0 && j == 3 {
      assert Forced(Given(lines, i, j), lines[0]);
    }
  }

  // ----------------------------------------------- exact, on domains of bounded length

  function TextOf(m: Matcher): string {
    match m
    case DstPort(_) => ""
    case PrivateIp => ""
    case Foreign(_, t) => t
    case _ => m.text
  }

  /** The longest rule text. */
  function Longest(lines: seq<Line>): nat {
    if lines == [] then 0
    else
      var rest, own := Longest(lines[1..]), if Carried(lines[0]).Some? then |TextOf(Carried(lines[0]).value.matcher)| else 0;
      if own > rest then own else rest
  }

  lemma {:induction false} LongestBounds(lines: seq<Line>, l: nat)
    requires l < |lines| && Carried(lines[l]).Some?
    ensures |TextOf(Carried(lines[l]).value.matcher)| <= Longest(lines)
  {
    if l > 0 {
      LongestBounds(lines[1..], l - 1);
    }
  }

  /** A stretch of the name that makes m hit it. */
  predicate Marks(name: string, m: Matcher, a: nat, b: nat) {
    && a <= b <= |name|
    && match m
       case Domain(t) => a == 0 && b == |name| && name == t
       case DomainSuffix(t) => b == |name| && ((a == 0 && name == t) || name[a..b] == ['.'] + t)
       case DomainKeyword(t) => name[a..b] == t
       case _ => true
  }

  lemma MarksHit(name: string, m: Matcher, a: nat, b: nat)
    requires Marks(name, m, a, b) && OnName(m)
    ensures NameHits(name, m)
  {
  }

  lemma HitHasMarks(name: string, m: Matcher) returns (a: nat, b: nat)
    requires NameHits(name, m) || !OnName(m)
    ensures Marks(name, m, a, b) && b - a <= |TextOf(m)| + 1
  {
    a, b := 0, 0;
    if m.Domain? || (m.DomainSuffix? && name == m.text) {
      b := |name|;
    } else if m.DomainSuffix? {
      a, b := |name| - |m.text| - 1, |name|;
    } else if m.DomainKeyword? {
      a, b :| 0 <= a <= b <= |name| && name[a..b] == m.text;
    }
  }

  /** Replacing an unmarked stretch by one fresh character keeps the marks. */
  lemma GapKeeps(l: string, u: string, r: string, x: char, m: Matcher, a: nat, b: nat)
    requires Marks(l + u + r, m, a, b) && u != []
    requires b <= |l| || |l| + |u| <= a
    ensures var c := if b <= |l| then 0 else |u| - 1;
            Marks(l + [x] + r, m, a - c, b - c)
  {
    var long, short := l + u + r, l + [x] + r;
    if b <= |l| {
      assert long[a..b] == l[a..b] == short[a..b];
    } else {
      var c := |u| - 1;
      forall k | 0 <= k < b - a ensures long[a..b][k] == short[a - c..b - c][k] {
      }
      assert long[a..b] == short[a - c..b - c];
    }
  }

  /** A stretch without that character was there before, at the end if it is at the end. */
  lemma GapWindow(l: string, u: string, r: string, x: char, p: nat, q: nat) returns (a: nat, b: nat)
    requires p <= q <= |l| + 1 + |r| && x !in (l + [x] + r)[p..q]
    ensures a <= b <= |l + u + r| && (l + u + r)[a..b] == (l + [x] + r)[p..q]
    ensures p < q == |l| + 1 + |r| ==> b == |l + u + r|
  {
    var long, short := l + u + r, l + [x] + r;
    assert forall k :: p <= k < q ==> short[k] == short[p..q][k - p];
    assert short[|l|] == x;
    if q <= |l| {
      a, b := p, q;
      assert long[p..q] == l[p..q] == short[p..q];
    } else {
      a, b := p + |u| - 1, q + |u| - 1;
      if p < q {
        assert short[p..q] == r[p - |l| - 1..q - |l| - 1] == long[a..b];
      } else {
        a, b := 0, 0;
      }
    }
  }

  /** It makes no matcher hit whose text lacks that character. */
  lemma GapAddsNothing(l: string, u: string, r: string, x: char, m: Matcher)
    requires x !in TextOf(m) && NameHits(l + [x] + r, m) && x != '.'
    ensures NameHits(l + u + r, m)
  {
    var long, short := l + u + r, l + [x] + r;
    assert short[|l|] == x && x in short;
    match m
    case Domain(t) =>
    case DomainSuffix(t) =>
      var a, b := GapWindow(l, u, r, x, |short| - |t| - 1, |short|);
      assert short[|short| - |t| - 1..|short|] == ['.'] + t;
    case DomainKeyword(t) =>
      var p, q :| 0 <= p <= q <= |short| && short[p..q] == t;
      var a, b := GapWindow(l, u, r, x, p, q);
    case _ =>
  }

  /** The name with one stretch replaced. */
  function Cut(name: string, from: nat, to: nat, x: char): string
    requires from <= to <= |name|
  {
    if from < to then name[..from] + [x] + name[to..] else name
  }

  /** Names hit no more of the matchers without x. */
  ghost predicate NoMore(short: string, name: string, x: char) {
    forall m :: x !in TextOf(m) && NameHits(short, m) ==> NameHits(name, m)
  }

  lemma CutKeeps(name: string, from: nat, to: nat, x: char, m: Matcher, a: nat, b: nat)
    requires from <= to <= |name| && Marks(name, m, a, b)
    requires from < to ==> b <= from || to <= a
    ensures var k := if from < to <= a then to - from - 1 else 0; Marks(Cut(name, from, to, x), m, a - k, b - k)
  {
    hide Marks;
    if from < to {
      assert name == name[..from] + name[from..to] + name[to..];
      GapKeeps(name[..from], name[from..to], name[to..], x, m, a, b);
    }
  }

  lemma CutAddsNothing(name: string, from: nat, to: nat, x: char)
    requires from <= to <= |name| && x != '.'
    ensures NoMore(Cut(name, from, to, x), name, x)
  {
    hide NameHits;
    if from < to {
      assert name == name[..from] + name[from..to] + name[to..];
      forall m | x !in TextOf(m) && NameHits(Cut(name, from, to, x), m) ensures NameHits(name, m) {
        GapAddsNothing(name[..from], name[from..to], name[to..], x, m);
      }
    }
  }

  /** Short, but it still hits m and n, and nothing without x that the name did not hit. */
  ghost predicate Shrinks(short: string, name: string, m: Matcher, n: Matcher, x: char) {
    && |short| <= |TextOf(m)| + |TextOf(n)| + 5
    && (OnName(m) ==> NameHits(short, m)) && (OnName(n) ==> NameHits(short, n))
    && NoMore(short, name, x)
  }

  lemma Shrink(name: string, m: Matcher, n: Matcher, x: char) returns (short: string)
    requires (OnName(m) ==> NameHits(name, m)) && (OnName(n) ==> NameHits(name, n)) && x != '.'
    ensures Shrinks(short, name, m, n, x)
  {
    hide NameHits, Marks, NoMore;
    var a, b := HitHasMarks(name, m);
    var c, e := HitHasMarks(name, n);
    MarksInside(name, m, a, b);
    MarksInside(name, n, c, e);
    if a <= c {
      short := ShrinkAt(name, m, a, b, n, c, e, x);
    } else {
      short := ShrinkAt(name, n, c, e, m, a, b, x);
    }
  }

  lemma MarksInside(name: string, m: Matcher, a: nat, b: nat)
    requires Marks(name, m, a, b)
    ensures a <= b <= |name|
  {
  }

  lemma ShrinkAt(name: string, m: Matcher, a: nat, b: nat, n: Matcher, c: nat, e: nat, x: char) returns (short: string)
    requires a <= b <= |name| && c <= e <= |name| && a <= c && x != '.'
    requires Marks(name, m, a, b) && Marks(name, n, c, e)
    ensures |short| <= (b - a) + (e - c) + 3 && NoMore(short, name, x)
    ensures (OnName(m) ==> NameHits(short, m)) && (OnName(n) ==> NameHits(short, n))
  {
    hide NameHits, Marks, Cut, NoMore, OnName;
    var end := if b < e then e else b;
    var one := CutBoth(name, end, |name|, x, m, a, b, n, c, e);
    var two := one;
    if b < c {
      two := CutBoth(one, b, c, x, m, a, b, n, c, e);
      short := CutFront(two, m, a, b, n, b + 1, e - (c - b - 1), x);
      NoMoreTrans(two, one, name, x);
    } else {
      short := CutFront(two, m, a, b, n, c, e, x);
    }
    NoMoreTrans(short, two, name, x);
  }

  lemma CutFront(name: string, m: Matcher, a: nat, b: nat, n: Matcher, c: nat, e: nat, x: char) returns (short: string)
    requires a <= c && a <= b && c <= e && a <= |name| && x != '.' && Marks(name, m, a, b) && Marks(name, n, c, e)
    ensures |short| <= |name| - a + 1 && NoMore(short, name, x)
    ensures (OnName(m) ==> NameHits(short, m)) && (OnName(n) ==> NameHits(short, n))
  {
    hide NameHits, Marks, Cut, NoMore, OnName;
    short := CutBoth(name, 0, a, x, m, a, b, n, c, e);
    var f := if 0 < a then a - 1 else 0;
    if OnName(m) { MarksHit(short, m, a - f, b - f); }
    if OnName(n) { MarksHit(short, n, c - f, e - f); }
  }

  lemma CutBoth(name: string, from: nat, to: nat, x: char, m: Matcher, a: nat, b: nat, n: Matcher, c: nat, e: nat)
    returns (short: string)
    requires from <= to <= |name| && x != '.' && Marks(name, m, a, b) && Marks(name, n, c, e)
    requires from < to ==> (b <= from || to <= a) && (e <= from || to <= c)
    ensures |short| == if from < to then |name| - (to - from - 1) else |name|
    ensures var k := if from < to <= a then to - from - 1 else 0; Marks(short, m, a - k, b - k)
    ensures var k := if from < to <= c then to - from - 1 else 0; Marks(short, n, c - k, e - k)
    ensures NoMore(short, name, x)
  {
    hide Marks, NoMore;
    short := Cut(name, from, to, x);
    CutKeeps(name, from, to, x, m, a, b);
    CutKeeps(name, from, to, x, n, c, e);
    CutAddsNothing(name, from, to, x);
  }

  lemma NoMoreTrans(r: string, s: string, t: string, x: char)
    requires NoMore(r, s, x) && NoMore(s, t, x)
    ensures NoMore(r, t, x)
  {
    hide NameHits, TextOf;
  }

  /** No rule text has the character x. */
  predicate Fresh(lines: seq<Line>, x: char) {
    x != '.' && forall l :: 0 <= l < |lines| && Carried(lines[l]).Some? ==> x !in TextOf(Carried(lines[l]).value.matcher)
  }

  /** Fewer hits that keep those of the lines stopped at stop there too. */
  lemma SamePlace(lines: seq<Line>, fewer: Matcher -> bool, hits: Matcher -> bool)
    requires forall m :: m in Given(lines, FirstAt(lines, Stops(hits)), FirstAt(lines, Translates(hits))) ==> fewer(m)
    requires forall l :: 0 <= l < |lines| && Carried(lines[l]).Some? && fewer(Carried(lines[l]).value.matcher)
               ==> hits(Carried(lines[l]).value.matcher)
    ensures FirstAt(lines, Stops(fewer)) == FirstAt(lines, Stops(hits))
    ensures FirstAt(lines, Translates(fewer)) == FirstAt(lines, Translates(hits))
  {
    var i, j := FirstAt(lines, Stops(hits)), FirstAt(lines, Translates(hits));
    forall l | 0 <= l < |lines|
      ensures (Stops(fewer)(lines[l]) ==> Stops(hits)(lines[l])) && (Translates(fewer)(lines[l]) ==> Translates(hits)(lines[l]))
    {
    }
    FirstAtIs(lines, Stops(fewer), i);
    FirstAtIs(lines, Translates(fewer), j);
  }

  /** The same flow under a name that is no longer than two rule texts. */
  lemma ShortFlow(lines: seq<Line>, available: set<string>, start: string, net: Networks, f: Flow, x: char) returns (g: Flow)
    requires Fresh(lines, x)
    ensures g.domain.Some? ==> |g.domain.value| <= 2 * Longest(lines) + 5
    ensures Agrees(lines, available, start, HitsOf(net, g)) == Agrees(lines, available, start, HitsOf(net, f))
  {
    hide Agrees, TargetAt, Final, NameHits;
    g := f;
    if f.domain.Some? {
      var hits := HitsOf(net, f);
      var i, j := FirstAt(lines, Stops(hits)), FirstAt(lines, Translates(hits));
      var m := if i < |lines| && Carried(lines[i]).Some? then Carried(lines[i]).value.matcher else PrivateIp;
      var n := if j < |lines| then lines[j].routed.matcher else PrivateIp;
      if i < |lines| { assert Stops(hits)(lines[i]); }
      if j < |lines| { assert Translates(hits)(lines[j]); }
      if i < |lines| && Carried(lines[i]).Some? { LongestBounds(lines, i); }
      if j < |lines| { LongestBounds(lines, j); }
      var short := Shrink(f.domain.value, m, n, x);
      g := f.(domain := Some(short));
      SamePlace(lines, HitsOf(net, g), hits);
      AgreesAt(lines, available, start, hits);
      AgreesAt(lines, available, start, HitsOf(net, g));
    }
  }

  /**
   For the real flows, whatever the networks: if one is diverted, one is whose
   domain is no longer than twice the longest rule text and five characters, so
   agreement can be decided on those alone.
   */
  lemma AgreesOnFlowsIff(lines: seq<Line>, available: set<string>, start: string, net: Networks, x: char)
    requires Fresh(lines, x)
    ensures (forall f: Flow :: Agrees(lines, available, start, HitsOf(net, f))) <==>
            forall f: Flow :: (f.domain.Some? ==> |f.domain.value| <= 2 * Longest(lines) + 5)
                              ==> Agrees(lines, available, start, HitsOf(net, f))
  {
    hide Agrees, HitsOf, Longest;
    forall f: Flow ensures
      (forall g: Flow :: (g.domain.Some? ==> |g.domain.value| <= 2 * Longest(lines) + 5)
                         ==> Agrees(lines, available, start, HitsOf(net, g)))
      ==> Agrees(lines, available, start, HitsOf(net, f))
    {
      var g := ShortFlow(lines, available, start, net, f, x);
    }
  }
}
