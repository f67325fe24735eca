/**
 Two reconciliations of controller.rs: the runtime rule list against the
 editable rules, and the three-way merge of an externally changed configuration.
 */
module Controller {
  import opened Text
  import opened Wrappers

  // ------------------------------------------------------ rule summaries

  const U32: nat := 0x1_0000_0000

  datatype RuleId = Own(name: string) | RuntimeRule(index: nat)

  datatype Rule = Rule(id: RuleId, profile: string, line: string, enabled: bool, order: nat, source: string)

  /** An enabled editable rule whose line is `key` up to trimming. */
  predicate Fits(r: Rule, key: string) { r.enabled && Trim(r.line) == key }

  /** The first fitting rule from `from` on that is not taken. */
  function FirstFree(editable: seq<Rule>, taken: set<nat>, key: string, from: nat): (r: Option<nat>)
    ensures r.Some? ==> from <= r.value < |editable| && r.value !in taken && Fits(editable[r.value], key)
    ensures r.None? ==> forall j :: from <= j < |editable| && Fits(editable[j], key) ==> j in taken
    decreases |editable| - from
  {
    if from >= |editable| then None
    else if from !in taken && Fits(editable[from], key) then Some(from)
    else FirstFree(editable, taken, key, from + 1)
  }

  /** Which editable rule each of the first n loaded lines consumes. */
  function Assign(loaded: seq<string>, editable: seq<Rule>, n: nat): (a: seq<Option<nat>>)
    requires n <= |loaded|
    ensures |a| == n
  {
    if n == 0 then []
    else
      var before := Assign(loaded, editable, n - 1);
      before + [FirstFree(editable, Taken(before), Trim(loaded[n - 1]), 0)]
  }

  function Taken(a: seq<Option<nat>>): set<nat> {
    set i | 0 <= i < |a| && a[i].Some? :: a[i].value
  }

  /** The editable rules nobody consumed, from `from` on. */
  function Leftover(editable: seq<Rule>, taken: set<nat>, from: nat): seq<nat>
    decreases |editable| - from
  {
    if from >= |editable| then []
    else if from in taken then Leftover(editable, taken, from + 1)
    else [from] + Leftover(editable, taken, from + 1)
  }

  /** Where each summary comes from: an editable rule, or none. */
  function Origins(loaded: seq<string>, editable: seq<Rule>): seq<Option<nat>> {
    var a := Assign(loaded, editable, |loaded|);
    a + Somes(Leftover(editable, Taken(a), 0))
  }

  function Somes(s: seq<nat>): (r: seq<Option<nat>>)
    ensures |r| == |s|
  {
    seq(|s|, i requires 0 <= i < |s| => Some(s[i]))
  }

  /** The k-th summary, given its origin. */
  function Summary(profile: string, loaded: seq<string>, editable: seq<Rule>, origin: Option<nat>, k: nat): Rule
    requires origin.Some? ==> origin.value < |editable|
    requires origin.None? ==> k < |loaded|
  {
    match origin
    case Some(j) => editable[j].(order := k % U32)
    case None => Rule(RuntimeRule(k), profile, loaded[k], true, k % U32, "profile-yaml")
  }

  lemma {:induction false} AssignIsMatching(loaded: seq<string>, editable: seq<Rule>, n: nat)
    requires n <= |loaded|
    ensures var a := Assign(loaded, editable, n);
            && (forall i :: 0 <= i < n && a[i].Some? ==>
                  a[i].value < |editable| && Fits(editable[a[i].value], Trim(loaded[i])))
            && (forall i, j :: 0 <= i < j < n && a[i].Some? && a[j].Some? ==> a[i].value != a[j].value)
  {
    if n > 0 {
      AssignIsMatching(loaded, editable, n - 1);
      var before, a := Assign(loaded, editable, n - 1), Assign(loaded, editable, n);
      forall i | 0 <= i < n - 1 && a[i].Some? && a[n - 1].Some? ensures a[i].value != a[n - 1].value {
        assert before[i] == a[i] && a[i].value in Taken(before);
      }
    }
  }

  /** Distinct list items, below n. */
  ghost predicate Distinct(s: seq<nat>) {
    forall i, j :: 0 <= i < j < |s| ==> s[i] != s[j]
  }

  lemma {:induction false} LeftoverIsComplement(editable: seq<Rule>, taken: set<nat>, from: nat)
    ensures var rest := Leftover(editable, taken, from);
            && Distinct(rest)
            && forall j: nat :: j in rest <==> from <= j < |editable| && j !in taken
    decreases |editable| - from
  {
    if from < |editable| {
      LeftoverIsComplement(editable, taken, from + 1);
    }
  }

  /** How often editable rule j is the origin of a summary. */
  ghost function Uses(origins: seq<Option<nat>>, j: nat): set<nat> {
    set k | 0 <= k < |origins| && origins[k] == Some(j)
  }

  /** Every editable rule appears exactly once among the summaries. */
  lemma EveryEditableOnce(loaded: seq<string>, editable: seq<Rule>, j: nat)
    requires j < |editable|
    ensures exists k: nat :: Uses(Origins(loaded, editable), j) == {k}
  {
    hide Fits, Assign, Leftover, Trim;
    var a := Assign(loaded, editable, |loaded|);
    AssignIsMatching(loaded, editable, |loaded|);
    var rest := Leftover(editable, Taken(a), 0);
    LeftoverIsComplement(editable, Taken(a), 0);
    var o := Origins(loaded, editable);
    var k: nat;
    if j in Taken(a) {
      k :| 0 <= k < |a| && a[k].Some? && a[k].value == j;
    } else {
      assert j in rest;
      var m :| 0 <= m < |rest| && rest[m] == j;
      k := |a| + m;
    }
    forall l | 0 <= l < |o| ensures o[l] == Some(j) <==> l == k {
      if l < |a| {
        assert o[l] == a[l];
      } else {
        assert o[l] == Some(rest[l - |a|]);
      }
    }
    assert Uses(o, j) == {k};
  }

  // ---------------------------------------------- the matching is maximum

  function Lines(loaded: seq<string>, key: string, n: nat): nat
    requires n <= |loaded|
  {
    if n == 0 then 0 else Lines(loaded, key, n - 1) + if Trim(loaded[n - 1]) == key then 1 else 0
  }

  /** The enabled editable rules for a key, and those of them that n lines consumed. */
  function Fitting(editable: seq<Rule>, key: string): set<nat> {
    set j | 0 <= j < |editable| && Fits(editable[j], key)
  }

  function Consumed(loaded: seq<string>, editable: seq<Rule>, key: string, n: nat): set<nat>
    requires n <= |loaded|
  {
    Taken(Assign(loaded, editable, n)) * Fitting(editable, key)
  }

  function Min(a: nat, b: nat): nat { if a < b then a else b }

  lemma TakenGrows(a: seq<Option<nat>>, x: Option<nat>)
    ensures Taken(a + [x]) == Taken(a) + if x.Some? then {x.value} else {}
  {
    var b := a + [x];
    forall j | j in Taken(a) ensures j in Taken(b) {
      var i :| 0 <= i < |a| && a[i].Some? && a[i].value == j;
      assert b[i] == a[i];
    }
    if x.Some? {
      assert b[|a|] == x;
    }
    forall j | j in Taken(b) ensures j in Taken(a) + if x.Some? then {x.value} else {} {
      var i :| 0 <= i < |b| && b[i].Some? && b[i].value == j;
      if i < |a| {
        assert a[i] == b[i];
      }
    }
  }

  lemma LinesStep(loaded: seq<string>, key: string, n: nat)
    requires n <= |loaded|
    ensures Lines(loaded, key, n)
            == if n == 0 then 0 else Lines(loaded, key, n - 1) + if Trim(loaded[n - 1]) == key then 1 else 0
  {
    hide Trim;
  }

  /**
   Per trimmed line, the greedy pass matches as many loaded lines as can be
   matched at all: the smaller of how often it is loaded and how many enabled
   editable rules carry it.
   */
  lemma {:induction false} GreedyIsMaximum(loaded: seq<string>, editable: seq<Rule>, key: string, n: nat)
    requires n <= |loaded|
    ensures |Consumed(loaded, editable, key, n)| == Min(Lines(loaded, key, n), |Fitting(editable, key)|)
  {
    hide Trim, Fitting, Taken, Assign, Fits, FirstFree, Lines;
    LinesStep(loaded, key, n);
    var fitting := Fitting(editable, key);
    if n == 0 {
      AssignNone(loaded, editable);
      assert {} * fitting == {};
    } else {
      GreedyIsMaximum(loaded, editable, key, n - 1);
      var taken := Taken(Assign(loaded, editable, n - 1));
      var x := FirstFree(editable, taken, Trim(loaded[n - 1]), 0);
      AssignStep(loaded, editable, n - 1, x);
      TakenGrows(Assign(loaded, editable, n - 1), x);
      FirstFreeFacts(editable, taken, Trim(loaded[n - 1]), key);
      AddOne(taken, x, fitting);
      if Trim(loaded[n - 1]) == key {
        if x.Some? {
          Smaller(taken * fitting, fitting, x.value);
        } else {
          assert taken * fitting == fitting;
        }
      }
    }
  }

  /** What the search found, seen from the rules that carry `key`. */
  lemma FirstFreeFacts(editable: seq<Rule>, taken: set<nat>, line: string, key: string)
    ensures var x := FirstFree(editable, taken, line, 0);
            && (x.Some? ==> x.value !in taken && (x.value in Fitting(editable, key) <==> line == key))
            && (x.None? && line == key ==> Fitting(editable, key) <= taken)
  {
    hide Trim, FirstFree;
  }

  lemma AddOne(t: set<nat>, x: Option<nat>, f: set<nat>)
    ensures var grown := (t + if x.Some? then {x.value} else {}) * f;
            |grown| == |t * f| + if x.Some? && x.value in f && x.value !in t then 1 else 0
  {
    var grown := (t + if x.Some? then {x.value} else {}) * f;
    if x.Some? && x.value in f && x.value !in t {
      assert grown == t * f + {x.value};
    } else {
      assert grown == t * f;
    }
  }

  lemma Smaller(c: set<nat>, f: set<nat>, x: nat)
    requires c <= f && x in f && x !in c
    ensures |c| < |f|
  {
    Subset(c, f - {x});
  }

  lemma {:induction false} Subset(c: set<nat>, f: set<nat>)
    requires c <= f
    ensures |c| <= |f|
    decreases |c|
  {
    if c != {} {
      var x :| x in c;
      Subset(c - {x}, f - {x});
    }
  }

  /** Any other assignment of distinct fitting rules to lines matches no more of them. */
  ghost predicate IsMatching(loaded: seq<string>, editable: seq<Rule>, m: seq<Option<nat>>) {
    && |m| == |loaded|
    && (forall i :: 0 <= i < |m| && m[i].Some? ==> m[i].value < |editable| && Fits(editable[m[i].value], Trim(loaded[i])))
    && (forall i, j :: 0 <= i < j < |m| && m[i].Some? && m[j].Some? ==> m[i].value != m[j].value)
  }

  lemma {:induction false} MatchingSize(loaded: seq<string>, editable: seq<Rule>, m: seq<Option<nat>>, key: string, n: nat)
    requires IsMatching(loaded, editable, m) && n <= |m|
    ensures |Taken(m[..n]) * Fitting(editable, key)| <= Lines(loaded, key, n)
  {
    hide Trim, Fitting, Taken, Lines;
    LinesStep(loaded, key, n);
    var fitting := Fitting(editable, key);
    if n == 0 {
      NoneTaken(m[..0]);
      assert {} * fitting == {};
    } else {
      MatchingSize(loaded, editable, m, key, n - 1);
      assert m[..n] == m[..n - 1] + [m[n - 1]];
      TakenGrows(m[..n - 1], m[n - 1]);
      AddOne(Taken(m[..n - 1]), m[n - 1], fitting);
      MatchedLineFits(loaded, editable, m, key, n - 1);
    }
  }

  lemma NoneTaken(a: seq<Option<nat>>)
    requires a == []
    ensures Taken(a) == {}
  {
  }

  lemma MatchedLineFits(loaded: seq<string>, editable: seq<Rule>, m: seq<Option<nat>>, key: string, i: nat)
    requires IsMatching(loaded, editable, m) && i < |m|
    ensures m[i].Some? && m[i].value in Fitting(editable, key) ==> Trim(loaded[i]) == key
  {
    hide Trim;
  }

  lemma NoMatchingDoesBetter(loaded: seq<string>, editable: seq<Rule>, m: seq<Option<nat>>, key: string)
    requires IsMatching(loaded, editable, m)
    ensures |Taken(m) * Fitting(editable, key)| <= |Consumed(loaded, editable, key, |loaded|)|
  {
    MatchingSize(loaded, editable, m, key, |m|);
    assert m[..|m|] == m;
    Subset(Taken(m) * Fitting(editable, key), Fitting(editable, key));
    GreedyIsMaximum(loaded, editable, key, |loaded|);
  }

  // ------------------------------------------------------------ the loops

  /** `consumed` marks exactly the taken rules. */
  ghost predicate Marks(consumed: array<bool>, editable: seq<Rule>, taken: set<nat>)
    reads consumed
  {
    consumed.Length == |editable| && forall j :: 0 <= j < |editable| ==> (consumed[j] <==> j in taken)
  }

  method FindFree(editable: seq<Rule>, consumed: array<bool>, key: string, ghost taken: set<nat>) returns (r: Option<nat>)
    requires Marks(consumed, editable, taken)
    ensures r == FirstFree(editable, taken, key, 0)
  {
    hide Fits;
    for i := 0 to |editable|
      invariant FirstFree(editable, taken, key, 0) == FirstFree(editable, taken, key, i)
    {
      if !consumed[i] && Fits(editable[i], key) {
        return Some(i);
      }
    }
    return None;
  }

  /** What one position of the list must be. */
  ghost predicate SummaryAt(profile: string, loaded: seq<string>, editable: seq<Rule>, x: Option<nat>, k: nat, r: Rule) {
    (x.Some? ==> x.value < |editable|) && (x.None? ==> k < |loaded|)
    && r == Summary(profile, loaded, editable, x, k)
  }

  /** The loop over the loaded lines. */
  method MatchLoaded(profile: string, loaded: seq<string>, editable: seq<Rule>, consumed: array<bool>)
    returns (summaries: seq<Rule>)
    requires Marks(consumed, editable, {})
    modifies consumed
    ensures var a := Assign(loaded, editable, |loaded|);
            && |summaries| == |loaded| && Marks(consumed, editable, Taken(a))
            && forall k :: 0 <= k < |loaded| ==> SummaryAt(profile, loaded, editable, a[k], k, summaries[k])
  {
    hide Trim, Fits, Taken, Assign, FirstFree, SummaryAt;
    summaries := [];
    ghost var a: seq<Option<nat>> := [];
    AssignNone(loaded, editable);
    for index := 0 to |loaded|
      invariant |summaries| == |a| == index && a == Assign(loaded, editable, index)
      invariant Marks(consumed, editable, Taken(a))
      invariant forall k :: 0 <= k < index ==> SummaryAt(profile, loaded, editable, a[k], k, summaries[k])
    {
      var x := FindFree(editable, consumed, Trim(loaded[index]), Taken(a));
      TakenGrows(a, x);
      AssignStep(loaded, editable, index, x);
      IsSummary(profile, loaded, editable, x, index);
      if x.Some? {
        consumed[x.value] := true;
        summaries := summaries + [editable[x.value].(order := index % U32)];
      } else {
        summaries := summaries + [Rule(RuntimeRule(index), profile, loaded[index], true, index % U32, "profile-yaml")];
      }
      a := a + [x];
    }
  }

  lemma AssignNone(loaded: seq<string>, editable: seq<Rule>)
    ensures Assign(loaded, editable, 0) == [] && Taken([]) == {}
  {
  }

  lemma AssignStep(loaded: seq<string>, editable: seq<Rule>, n: nat, x: Option<nat>)
    requires n < |loaded| && x == FirstFree(editable, Taken(Assign(loaded, editable, n)), Trim(loaded[n]), 0)
    ensures Assign(loaded, editable, n + 1) == Assign(loaded, editable, n) + [x]
  {
    hide FirstFree, Taken, Trim;
  }

  lemma IsSummary(profile: string, loaded: seq<string>, editable: seq<Rule>, x: Option<nat>, k: nat)
    requires k < |loaded| && (x.Some? ==> x.value < |editable|)
    ensures SummaryAt(profile, loaded, editable, x, k,
                      if x.Some? then editable[x.value].(order := k % U32)
                      else Rule(RuntimeRule(k), profile, loaded[k], true, k % U32, "profile-yaml"))
  {
  }

  /** The k-th of the rules appended after `first`. */
  ghost predicate AppendedAt(editable: seq<Rule>, rest: seq<nat>, start: nat, k: nat, r: Rule)
    requires k < |rest|
  {
    rest[k] < |editable| && r == editable[rest[k]].(order := (start + k) % U32)
  }

  /** The loop that appends the editable rules nobody consumed. */
  method AppendLeftover(start: nat, editable: seq<Rule>, consumed: array<bool>, ghost taken: set<nat>)
    returns (extra: seq<Rule>)
    requires Marks(consumed, editable, taken)
    ensures var rest := Leftover(editable, taken, 0);
            |extra| == |rest| && forall k :: 0 <= k < |rest| ==> AppendedAt(editable, rest, start, k, extra[k])
  {
    ghost var rest := Leftover(editable, taken, 0);
    extra := [];
    assert rest[0..] == rest;
    for j := 0 to |editable|
      invariant |extra| <= |rest| && rest[|extra|..] == Leftover(editable, taken, j)
      invariant forall k :: 0 <= k < |extra| ==> AppendedAt(editable, rest, start, k, extra[k])
    {
      if !consumed[j] {
        assert rest[|extra|..][0] == j && rest[|extra|..][1..] == rest[|extra| + 1..];
        extra := extra + [editable[j].(order := (start + |extra|) % U32)];
      }
    }
    assert rest[|extra|..] == [];
  }

  /** runtime_rule_summaries. */
  method RuntimeRuleSummaries(profile: string, loaded: seq<string>, editable: seq<Rule>) returns (summaries: seq<Rule>)
    ensures var o := Origins(loaded, editable);
            |summaries| == |o| && forall k :: 0 <= k < |o| ==> SummaryAt(profile, loaded, editable, o[k], k, summaries[k])
    ensures |summaries| >= |loaded|
    ensures forall k :: 0 <= k < |loaded| ==> summaries[k].enabled && Trim(summaries[k].line) == Trim(loaded[k])
    ensures forall k :: 0 <= k < |summaries| ==> summaries[k].order == k % U32
  {
    hide Trim, Leftover, Assign, Taken;
    var consumed := new bool[|editable|](i => false);
    var first := MatchLoaded(profile, loaded, editable, consumed);
    ghost var a := Assign(loaded, editable, |loaded|);
    AssignIsMatching(loaded, editable, |loaded|);
    var extra := AppendLeftover(|first|, editable, consumed, Taken(a));
    summaries := first + extra;
    ghost var rest := Leftover(editable, Taken(a), 0);
    forall k | 0 <= k < |summaries| ensures SummaryAt(profile, loaded, editable, Origins(loaded, editable)[k], k, summaries[k]) {
      if k < |loaded| {
        assert summaries[k] == first[k];
      } else {
        assert Origins(loaded, editable)[k] == Some(rest[k - |first|]);
        assert AppendedAt(editable, rest, |first|, k - |first|, extra[k - |first|]);
      }
    }
    forall k | 0 <= k < |loaded| ensures summaries[k].enabled && Trim(summaries[k].line) == Trim(loaded[k]) {
      assert Origins(loaded, editable)[k] == a[k];
      assert SummaryAt(profile, loaded, editable, a[k], k, summaries[k]);
    }
    forall k | 0 <= k < |summaries| ensures summaries[k].order == k % U32 {
      assert SummaryAt(profile, loaded, editable, Origins(loaded, editable)[k], k, summaries[k]);
    }
  }

  /** The line lookup_rule reports for rule index i: the first enabled summary carrying that order. */
  function LookupLine(summaries: seq<Rule>, i: nat): Option<string> {
    if summaries == [] then None
    else if summaries[0].enabled && summaries[0].order == i then Some(summaries[0].line)
    else LookupLine(summaries[1..], i)
  }

  lemma {:induction false} LookupSkips(summaries: seq<Rule>, i: nat, k: nat)
    requires k < |summaries| && summaries[k].enabled && summaries[k].order == i
    requires forall j :: 0 <= j < k ==> summaries[j].order != i
    ensures LookupLine(summaries, i) == Some(summaries[k].line)
    decreases k
  {
    if k > 0 {
      LookupSkips(summaries[1..], i, k - 1);
    }
  }

  /** While the list fits 32 bits, searching by order finds the one summary of that loaded rule. */
  lemma LookupFindsTheRule(summaries: seq<Rule>, loaded: seq<string>, i: nat)
    requires |loaded| <= |summaries| <= U32 && i < |loaded|
    requires forall k :: 0 <= k < |loaded| ==> summaries[k].enabled && Trim(summaries[k].line) == Trim(loaded[k])
    requires forall k :: 0 <= k < |summaries| ==> summaries[k].order == k % U32
    ensures LookupLine(summaries, i) == Some(summaries[i].line) && Trim(summaries[i].line) == Trim(loaded[i])
    ensures forall k :: 0 <= k < |summaries| && summaries[k].order == i ==> k == i
  {
    hide Trim, LookupLine;
    forall k | 0 <= k < |summaries| ensures summaries[k].order == k {
      SmallOrder(k);
    }
    LookupSkips(summaries, i, i);
  }

  lemma SmallOrder(k: nat)
    requires k < U32
    ensures k % U32 == k
  {
  }

  // ------------------------------------------------------- three-way merge

  datatype Value = Null | Content(text: string)

  datatype Key = Name(name: string) | NotAString(debug: string)

  type Mapping = map<Key, Value>

  function Get(m: Mapping, k: Key): Option<Value> { if k in m then Some(m[k]) else None }

  predicate RuntimeOnly(name: string) {
    name in {
      "port", "socks-port", "mixed-port", "allow-lan", "bind-address", "mode", "log-level",
      "external-controller", "external-ui", "external-ui-name", "external-ui-url", "secret",
      "tproxy-port", "tproxy-sni", "routing-mark", "listeners", "authentication",
      "skip-auth-prefixes", "max-connections"}
  }

  predicate Mergeable(k: Key) { k.Name? && !RuntimeOnly(k.name) }

  /** A null value and an absent key are the same to the merge. */
  function NonNull(v: Option<Value>): Option<Value> { if v == Some(Null) then None else v }

  /** What the merge leaves under key k, independently of every other key. */
  function MergedValue(p: Mapping, b: Mapping, c: Mapping, k: Key): Option<Value> {
    if !Mergeable(k) || Get(b, k) == Get(c, k) then Get(p, k) else NonNull(Get(c, k))
  }

  ghost predicate IsMerge(r: Mapping, p: Mapping, b: Mapping, c: Mapping) {
    forall k :: Get(r, k) == MergedValue(p, b, c, k)
  }

  /** merge_external_raw_config; the keys may be visited in any order. */
  method MergeExternal(p: Mapping, b: Mapping, c: Mapping) returns (profile: Mapping)
    ensures IsMerge(profile, p, b, c)
  {
    hide RuntimeOnly;
    profile := p;
    var keys := b.Keys + c.Keys;
    while keys != {}
      invariant keys <= b.Keys + c.Keys
      invariant forall k :: Get(profile, k) == if k in keys then Get(p, k) else MergedValue(p, b, c, k)
      decreases |keys|
    {
      var key :| key in keys;
      keys := keys - {key};
      if Mergeable(key) && Get(b, key) != Get(c, key) {
        if key in c && c[key] != Null {
          profile := profile[key := c[key]];
        } else {
          profile := profile - {key};
        }
      }
    }
  }

  /** The keys that belong to the runtime: an imported configuration never changes them. */
  lemma ProtectedKeys(k: Key)
    ensures Mergeable(k) <==>
              k.Name? && k.name !in ["port", "socks-port", "mixed-port"]
                  && k.name !in ["allow-lan", "bind-address", "mode", "log-level"]
              && k.name !in ["external-controller", "external-ui", "external-ui-name", "external-ui-url", "secret"]
              && k.name !in ["tproxy-port", "tproxy-sni", "routing-mark", "listeners"]
              && k.name !in ["authentication", "skip-auth-prefixes", "max-connections"]
  {
  }

  /**
   Key by key: what is protected or unchanged from b to c stays; what changed is as in c, and
   gone if there it is null or absent.
   */
  lemma MergeByKey(r: Mapping, p: Mapping, b: Mapping, c: Mapping, k: Key)
    requires IsMerge(r, p, b, c)
    ensures !Mergeable(k) || (k !in b && k !in c) || (k in b && k in c && b[k] == c[k]) ==>
              (k in r <==> k in p) && (k in p ==> r[k] == p[k])
    ensures Mergeable(k) && k in c && (k in b ==> b[k] != c[k]) ==>
              if c[k] == Null then k !in r else k in r && r[k] == c[k]
    ensures Mergeable(k) && k in b && k !in c ==> k !in r
  {
    hide Mergeable;
    assert Get(r, k) == MergedValue(p, b, c, k);
  }

  lemma MergeIsUnique(r: Mapping, q: Mapping, p: Mapping, b: Mapping, c: Mapping)
    requires IsMerge(r, p, b, c) && IsMerge(q, p, b, c)
    ensures r == q
  {
    forall k ensures Get(r, k) == Get(q, k) {
    }
    assert forall k :: k in r <==> Get(r, k).Some?;
    assert forall k :: k in q <==> Get(q, k).Some?;
  }

  /** Merging the same change again changes nothing. */
  lemma MergeIsIdempotent(r: Mapping, q: Mapping, p: Mapping, b: Mapping, c: Mapping)
    requires IsMerge(r, p, b, c) && IsMerge(q, r, b, c)
    ensures q == r
  {
    assert IsMerge(q, p, b, c);
    MergeIsUnique(r, q, p, b, c);
  }

  /** The profile agrees with a configuration on every key the merge may touch. */
  ghost predicate Reflects(p: Mapping, c: Mapping) {
    forall k :: Mergeable(k) ==> NonNull(Get(p, k)) == NonNull(Get(c, k))
  }

  /** A profile that reflects the baseline reflects the current configuration after the merge, and keeps every other key. */
  lemma MergeCarriesChanges(r: Mapping, p: Mapping, b: Mapping, c: Mapping)
    requires IsMerge(r, p, b, c) && Reflects(p, b)
    ensures Reflects(r, c)
    ensures forall k :: !Mergeable(k) ==> Get(r, k) == Get(p, k)
  {
    forall k | Mergeable(k) ensures NonNull(Get(r, k)) == NonNull(Get(c, k)) {
      assert NonNull(Get(p, k)) == NonNull(Get(b, k));
    }
  }

  /** A key changed from b to c and back again. */
  predicate Reverted(b: Mapping, c: Mapping, d: Mapping, k: Key) {
    Mergeable(k) && Get(b, k) != Get(c, k) && Get(d, k) == Get(b, k)
  }

  /**
   Merging b to c and then c to d is merging b to d exactly when the profile
   agrees with the baseline, up to null and absent, on every key that was
   changed and then reverted.
   */
  lemma MergesComposeIff(r: Mapping, q: Mapping, s: Mapping, p: Mapping, b: Mapping, c: Mapping, d: Mapping)
    requires IsMerge(r, p, b, c) && IsMerge(q, r, c, d) && IsMerge(s, p, b, d)
    ensures q == s <==> forall k :: Reverted(b, c, d, k) ==> Get(p, k) == NonNull(Get(b, k))
  {
    if forall k :: Reverted(b, c, d, k) ==> Get(p, k) == NonNull(Get(b, k)) {
      forall k ensures Get(q, k) == MergedValue(p, b, d, k) {
        assert Get(r, k) == MergedValue(p, b, c, k);
        assert Reverted(b, c, d, k) ==> Get(p, k) == NonNull(Get(b, k));
      }
      MergeIsUnique(q, s, p, b, d);
    }
    if q == s {
      forall k | Reverted(b, c, d, k) ensures Get(p, k) == NonNull(Get(b, k)) {
        assert Get(q, k) == MergedValue(r, c, d, k) && Get(s, k) == MergedValue(p, b, d, k);
      }
    }
  }
}
