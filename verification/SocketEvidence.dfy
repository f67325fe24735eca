/**
 The evidence join and its accounting in analyze-socket-evidence.py.

 Regular expressions and JSON are not part of this model: a log scope is the
 list of fields they find in it, in order, and a probe field already carries
 the id if it validated. Times and byte counts play no part in the join.
 */
module SocketEvidence {
  import opened Wrappers

  datatype Target = ProbeTarget | OtherTarget | UnknownTarget

  // ------------------------------------------------------------ the events

  /** What the patterns find in a scope, in text order. */
  datatype Item = Connection(id: string) | ProbeField(probe: Option<string>) | Destination(name: string) | Bar

  datatype Fields = Fields(probe: Option<string>, flow: Option<string>, target: Target)

  function LastConnection(scope: seq<Item>): (k: nat)
    ensures k <= |scope|
    ensures k > 0 ==> scope[k - 1].Connection?
    ensures forall i :: k <= i < |scope| ==> !scope[i].Connection?
  {
    if scope == [] then 0
    else if scope[|scope| - 1].Connection? then |scope| else LastConnection(scope[..|scope| - 1])
  }

  /** The end of the span that starts at `from`. */
  function SpanEnd(scope: seq<Item>, from: nat): (k: nat)
    requires from <= |scope|
    ensures from <= k <= |scope|
    ensures forall i :: from <= i < k ==> !scope[i].Bar?
    decreases |scope| - from
  {
    if from == |scope| || scope[from].Bar? then from else SpanEnd(scope, from + 1)
  }

  /** The last validated probe field of a stretch. */
  function LastProbe(items: seq<Item>): (p: Option<string>)
    ensures p.Some? ==> ProbeField(p) in items
  {
    if items == [] then None
    else
      var last := items[|items| - 1];
      if last.ProbeField? && last.probe.Some? then last.probe else LastProbe(items[..|items| - 1])
  }

  function FirstDestination(items: seq<Item>): Option<string> {
    if items == [] then None
    else if items[0].Destination? then Some(items[0].name) else FirstDestination(items[1..])
  }

  /** scope_metadata: the innermost connection, its own fields, and the probe ids after the preceding connection. */
  function ScopeMetadata(scope: seq<Item>, target: string): Fields {
    var k := LastConnection(scope);
    if k == 0 then Fields(None, None, UnknownTarget)
    else
      var end := SpanEnd(scope, k);
      var start := LastConnection(scope[..k - 1]);
      var destination := FirstDestination(scope[k..end]);
      Fields(LastProbe(scope[start..end]), Some(scope[k - 1].id),
             if destination.None? then UnknownTarget else if destination.value == target then ProbeTarget else OtherTarget)
  }

  /** A connection never borrows an id from a parent connection or from a later child span. */
  lemma ProbeIsTheConnectionsOwn(scope: seq<Item>, target: string)
    ensures var f := ScopeMetadata(scope, target);
            && (f.probe.Some? ==> f.flow.Some?)
            && (f.probe.Some? ==> exists i :: 0 <= i < |scope| && scope[i] == ProbeField(f.probe) && OwnField(scope, i))
  {
    var k := LastConnection(scope);
    if k > 0 && ScopeMetadata(scope, target).probe.Some? {
      var end, start := SpanEnd(scope, k), LastConnection(scope[..k - 1]);
      var p := LastProbe(scope[start..end]);
      var m :| 0 <= m < |scope[start..end]| && scope[start..end][m] == ProbeField(p);
      var i := start + m;
      assert scope[i] == ProbeField(p);
      forall j | i < j < k - 1 ensures !scope[j].Connection? {
        assert scope[..k - 1][j] == scope[j];
      }
      assert OwnField(scope, i);
    }
  }

  /** Between field i and the innermost connection lies no other connection, and after that connection no span boundary. */
  predicate OwnField(scope: seq<Item>, i: nat) {
    var k := LastConnection(scope);
    && k > 0
    && (forall j :: i < j < k - 1 && j < |scope| ==> !scope[j].Connection?)
    && (forall j :: k <= j < i && j < |scope| ==> !scope[j].Bar?)
  }

  /** Item k is the innermost connection. */
  predicate Innermost(scope: seq<Item>, k: nat) {
    k < |scope| && scope[k].Connection? && forall j :: k < j < |scope| ==> !scope[j].Connection?
  }

  /** Item i belongs to the span that the connection at k opens. */
  predicate InSpan(scope: seq<Item>, k: nat, i: nat) {
    k < i < |scope| && forall j :: k < j <= i ==> !scope[j].Bar?
  }

  /** The first destination named in that span. */
  predicate FirstNamed(scope: seq<Item>, k: nat, i: nat) {
    InSpan(scope, k, i) && scope[i].Destination? && forall j :: k < j < i ==> !scope[j].Destination?
  }

  /** The last valid probe field among a connection's own. */
  predicate LastOwnProbe(scope: seq<Item>, i: nat) {
    && i < |scope| && OwnField(scope, i) && ValidProbe(scope[i])
    && forall j :: i < j < |scope| && OwnField(scope, j) ==> !ValidProbe(scope[j])
  }

  lemma {:induction false} FirstDestinationLaw(items: seq<Item>, i: nat)
    requires i < |items| && items[i].Destination? && forall j :: 0 <= j < i ==> !items[j].Destination?
    ensures FirstDestination(items) == Some(items[i].name)
  {
    if i > 0 {
      FirstDestinationLaw(items[1..], i - 1);
    }
  }

  lemma {:induction false} LastProbeLaw(items: seq<Item>, i: nat)
    requires i < |items| && items[i].ProbeField? && items[i].probe.Some?
    requires forall j :: i < j < |items| ==> !(items[j].ProbeField? && items[j].probe.Some?)
    ensures LastProbe(items) == items[i].probe
  {
    if i < |items| - 1 {
      LastProbeLaw(items[..|items| - 1], i);
    }
  }

  lemma LastConnectionLaw(scope: seq<Item>, k: nat)
    ensures Innermost(scope, k) <==> LastConnection(scope) == k + 1
  {
    var l := LastConnection(scope);
    if Innermost(scope, k) {
      assert !(l > k + 1) && !(l < k + 1);
    }
  }

  /** The span of the connection at k is the stretch up to SpanEnd. */
  lemma {:induction false} SpanLaw(scope: seq<Item>, from: nat, i: nat)
    requires from <= i < |scope|
    ensures i < SpanEnd(scope, from) <==> forall j :: from <= j <= i ==> !scope[j].Bar?
    decreases i - from
  {
    if from < i && !scope[from].Bar? {
      SpanLaw(scope, from + 1, i);
    }
  }

  /**
   The innermost connection is the flow, and the first destination its own span names
   decides its class: the probe's exactly when that is the target.
   */
  lemma ClassIsTheFirstNamed(scope: seq<Item>, target: string, k: nat, i: nat)
    requires Innermost(scope, k) && FirstNamed(scope, k, i)
    ensures var f := ScopeMetadata(scope, target);
            f.flow == Some(scope[k].id) && f.target == if scope[i].name == target then ProbeTarget else OtherTarget
  {
    LastConnectionLaw(scope, k);
    var end := SpanEnd(scope, k + 1);
    SpanLaw(scope, k + 1, i);
    var items := scope[k + 1..end];
    assert items[i - k - 1] == scope[i];
    forall j | 0 <= j < i - k - 1 ensures !items[j].Destination? {
      assert items[j] == scope[k + 1 + j];
    }
    FirstDestinationLaw(items, i - k - 1);
  }

  /** A connection whose span names none is of unknown class, and without a connection there is nothing to tell. */
  lemma UnnamedIsUnknown(scope: seq<Item>, target: string, k: nat)
    ensures Innermost(scope, k) && (forall i: nat :: !FirstNamed(scope, k, i)) ==>
              ScopeMetadata(scope, target).flow == Some(scope[k].id) && ScopeMetadata(scope, target).target == UnknownTarget
    ensures (forall j :: 0 <= j < |scope| ==> !scope[j].Connection?) ==>
            ScopeMetadata(scope, target) == Fields(None, None, UnknownTarget)
  {
    LastConnectionLaw(scope, k);
    if Innermost(scope, k) {
      var items := scope[k + 1..SpanEnd(scope, k + 1)];
      if FirstDestination(items).Some? {
        var i := FirstIndex(items);
        SpanLaw(scope, k + 1, k + 1 + i);
        forall j | k < j < k + 1 + i ensures !scope[j].Destination? {
          assert items[j - k - 1] == scope[j];
        }
        assert FirstNamed(scope, k, k + 1 + i);
      }
    }
  }

  lemma {:induction false} FirstIndex(items: seq<Item>) returns (i: nat)
    requires FirstDestination(items).Some?
    ensures i < |items| && items[i] == Destination(FirstDestination(items).value)
    ensures forall j :: 0 <= j < i ==> !items[j].Destination?
  {
    i := 0;
    if !items[0].Destination? {
      i := FirstIndex(items[1..]);
      i := i + 1;
    }
  }

  /** A connection's own probe fields are those of one stretch of the scope. */
  lemma OwnStretch(scope: seq<Item>, j: nat)
    requires j < |scope| && scope[j].ProbeField? && LastConnection(scope) > 0
    ensures var k := LastConnection(scope);
            OwnField(scope, j) <==> LastConnection(scope[..k - 1]) <= j < SpanEnd(scope, k)
  {
    hide LastConnection, SpanEnd;
    var k := LastConnection(scope);
    var start, end := LastConnection(scope[..k - 1]), SpanEnd(scope, k);
    assert forall m :: 0 <= m < k - 1 ==> scope[..k - 1][m] == scope[m];
    assert start > 0 ==> scope[start - 1].Connection?;
    assert forall m :: start <= m < k - 1 ==> !scope[m].Connection?;
    if j >= k {
      SpanLaw(scope, k, j);
    }
  }

  predicate ValidProbe(item: Item) { item.ProbeField? && item.probe.Some? }

  lemma StretchProbe(scope: seq<Item>, start: nat, end: nat, i: nat)
    requires start <= end <= |scope|
    ensures start <= i < end && ValidProbe(scope[i]) && (forall j :: i < j < end ==> !ValidProbe(scope[j])) ==>
              LastProbe(scope[start..end]) == scope[i].probe
    ensures (forall j :: start <= j < end ==> !ValidProbe(scope[j])) ==> LastProbe(scope[start..end]) == None
  {
    var items := scope[start..end];
    assert forall j :: 0 <= j < |items| ==> items[j] == scope[start + j];
    if start <= i < end && ValidProbe(scope[i]) && forall j :: i < j < end ==> !ValidProbe(scope[j]) {
      LastProbeLaw(items, i - start);
    }
    if LastProbe(items).Some? {
      var m := LastIndex(items);
      assert ValidProbe(scope[start + m]);
    }
  }

  /** Its id is the last valid one among them; without one it has none. */
  lemma IdIsTheLastOwn(scope: seq<Item>, target: string, i: nat)
    ensures LastOwnProbe(scope, i) ==> ScopeMetadata(scope, target).probe == scope[i].probe
    ensures (forall j :: 0 <= j < |scope| && OwnField(scope, j) ==> !ValidProbe(scope[j])) ==>
            ScopeMetadata(scope, target).probe == None
  {
    var k := LastConnection(scope);
    if k > 0 {
      var start, end := LastConnection(scope[..k - 1]), SpanEnd(scope, k);
      forall j | 0 <= j < |scope| && ValidProbe(scope[j]) ensures OwnField(scope, j) <==> start <= j < end {
        OwnStretch(scope, j);
      }
      hide OwnField, LastConnection, SpanEnd, LastProbe;
      StretchProbe(scope, start, end, i);
    } else {
      assert LastOwnProbe(scope, i) ==> OwnField(scope, i);
    }
  }

  lemma {:induction false} LastIndex(items: seq<Item>) returns (i: nat)
    requires LastProbe(items).Some?
    ensures i < |items| && items[i] == ProbeField(LastProbe(items))
    ensures forall j :: i < j < |items| ==> !(items[j].ProbeField? && items[j].probe.Some?)
  {
    i := |items| - 1;
    if !(items[i].ProbeField? && items[i].probe.Some?) {
      i := LastIndex(items[..i]);
    }
  }

  /** The per-flow header note of sing-box: a second, different id silences the flow for good. */
  datatype Note = Note(probe: Option<string>, conflict: bool)

  function NoteProbe(n: Note, p: string): Note {
    if n.conflict then n
    else if n.probe.Some? && n.probe.value != p then Note(None, true)
    else Note(Some(p), false)
  }

  function NoteAll(ps: seq<string>): Note {
    if ps == [] then Note(None, false) else NoteProbe(NoteAll(ps[..|ps| - 1]), ps[|ps| - 1])
  }

  /** A flow keeps an id exactly when every header it saw carried that id. */
  lemma {:induction false} NoteIsUnanimous(ps: seq<string>, p: string)
    ensures NoteAll(ps).probe == Some(p) <==> ps != [] && forall i :: 0 <= i < |ps| ==> ps[i] == p
    ensures NoteAll(ps).conflict ==> exists i, j :: 0 <= i < j < |ps| && ps[i] != ps[j]
    ensures ps != [] && !NoteAll(ps).conflict ==> NoteAll(ps).probe == Some(ps[0])
    ensures NoteAll(ps).conflict ==> NoteAll(ps).probe == None
  {
    if ps != [] {
      var init, last := ps[..|ps| - 1], ps[|ps| - 1];
      NoteIsUnanimous(init, p);
      if init != [] {
        NoteIsUnanimous(init, init[0]);
        if NoteAll(init).conflict {
          var i, j :| 0 <= i < j < |init| && init[i] != init[j];
          assert ps[i] != ps[j];
        } else if init[0] != last {
          assert ps[0] != ps[|ps| - 1];
        }
      }
    }
  }

  datatype Socket = Socket(id: string, probe: Option<string>, flow: Option<string>, target: Target, joined: bool)

  /** One event row updates a socket with the fields that are present. */
  function Absorb(s: Socket, f: Fields): Socket {
    s.(probe := if f.probe.Some? then f.probe else s.probe,
       flow := if f.flow.Some? then f.flow else s.flow,
       target := if f.target.UnknownTarget? then s.target else f.target)
  }

  /** A socket after all its rows. */
  function AbsorbAll(s: Socket, rows: seq<Fields>): Socket {
    if rows == [] then s else Absorb(AbsorbAll(s, rows[..|rows| - 1]), rows[|rows| - 1])
  }

  /** Row i is the last that carries the field. */
  predicate LastWith(rows: seq<Fields>, carries: Fields -> bool, i: nat) {
    i < |rows| && carries(rows[i]) && forall j :: i < j < |rows| ==> !carries(rows[j])
  }

  /**
   Each fact of a socket is that of the last row that carries it, an unknown target counting
   as none; without such a row it stays.
   */
  lemma {:induction false} LastRowWins(s: Socket, rows: seq<Fields>, i: nat)
    ensures var t := AbsorbAll(s, rows);
            && t.id == s.id && t.joined == s.joined
            && (LastWith(rows, (f: Fields) => f.probe.Some?, i) ==> t.probe == rows[i].probe)
            && (LastWith(rows, (f: Fields) => f.flow.Some?, i) ==> t.flow == rows[i].flow)
            && (LastWith(rows, (f: Fields) => f.target != UnknownTarget, i) ==> t.target == rows[i].target)
            && ((forall j :: 0 <= j < |rows| ==> rows[j].probe == None) ==> t.probe == s.probe)
            && ((forall j :: 0 <= j < |rows| ==> rows[j].flow == None) ==> t.flow == s.flow)
            && ((forall j :: 0 <= j < |rows| ==> rows[j].target == UnknownTarget) ==> t.target == s.target)
  {
    if rows != [] {
      LastRowWins(s, rows[..|rows| - 1], i);
    }
  }

  predicate ProbeHasFlow(s: Socket) { s.probe.Some? ==> s.flow.Some? }

  lemma AbsorbKeepsFlow(s: Socket, scope: seq<Item>, target: string)
    requires ProbeHasFlow(s)
    ensures ProbeHasFlow(Absorb(s, ScopeMetadata(scope, target)))
  {
    ProbeIsTheConnectionsOwn(scope, target);
  }

  // -------------------------------------------------------------- the join

  /** The ids attested for a flow. */
  function FlowIds(sockets: seq<Socket>, flow: string): set<string> {
    set s | s in sockets && s.flow == Some(flow) && s.target.ProbeTarget? && s.probe.Some? :: s.probe.value
  }

  /** An id is attested for a flow by a socket of that flow to the probe target that carries it. */
  lemma AttestedIff(sockets: seq<Socket>, flow: string, p: string)
    ensures p in FlowIds(sockets, flow) <==>
              exists i :: 0 <= i < |sockets| && sockets[i].target == ProbeTarget && sockets[i].probe == Some(p)
                  && sockets[i].flow == Some(flow)
  {
  }

  /** The flow's one id, if it has exactly one. */
  function FlowProbe(ids: set<string>): (p: Option<string>)
    ensures p.Some? <==> |ids| == 1
    ensures p.Some? ==> ids == {p.value}
  {
    if |ids| == 1 then
      OnlyElement(ids);
      var p :| p in ids;
      Some(p)
    else None
  }

  lemma OnlyElement(ids: set<string>)
    requires |ids| == 1
    ensures exists p :: p in ids
    ensures forall p, q :: p in ids && q in ids ==> p == q
  {
    var p :| p in ids;
    assert |ids - {p}| == 0;
    assert ids == {p};
  }

  function JoinOne(s: Socket, ids: string -> set<string>): Socket {
    if !s.target.ProbeTarget? then s.(probe := None)
    else if s.flow.None? || ids(s.flow.value) == {} then s
    else if |ids(s.flow.value)| > 1 then s.(probe := None)
    else s.(probe := FlowProbe(ids(s.flow.value)), joined := true)
  }

  function Join(sockets: seq<Socket>): (r: seq<Socket>)
    ensures |r| == |sockets|
  {
    seq(|sockets|, i requires 0 <= i < |sockets| => JoinOne(sockets[i], f => FlowIds(sockets, f)))
  }

  ghost predicate FromEvents(sockets: seq<Socket>) {
    forall i :: 0 <= i < |sockets| ==> ProbeHasFlow(sockets[i])
  }

  /**
   After the join a socket carries id p exactly when it goes to the probe
   target and p is the only id attested for its flow.
   */
  lemma JoinedIff(sockets: seq<Socket>, i: nat, p: string)
    requires FromEvents(sockets) && i < |sockets|
    ensures Join(sockets)[i].probe == Some(p) <==>
            sockets[i].target.ProbeTarget? && sockets[i].flow.Some? && FlowIds(sockets, sockets[i].flow.value) == {p}
    ensures Join(sockets)[i].flow == sockets[i].flow && Join(sockets)[i].target == sockets[i].target
            && Join(sockets)[i].id == sockets[i].id
    ensures Join(sockets)[i].joined <==> sockets[i].joined || Join(sockets)[i].probe.Some?
  {
    var s := sockets[i];
    if s.flow.Some? && s.target.ProbeTarget? {
      var ids := FlowIds(sockets, s.flow.value);
      if s.probe.Some? {
        assert s in sockets;
        assert s.probe.value in ids;
      }
      if |ids| > 1 {
        assert ids != {p};
      }
      if ids != {} && |ids| <= 1 {
        assert |ids| == 1;
      }
    }
  }

  /** Every joined id has the probe target and a flow, and one flow never carries two ids. */
  lemma JoinIsConsistent(sockets: seq<Socket>, i: nat, j: nat)
    requires FromEvents(sockets) && i < |sockets| && j < |sockets|
    ensures var a, b := Join(sockets)[i], Join(sockets)[j];
            && (a.probe.Some? ==> a.target.ProbeTarget? && a.flow.Some?)
            && (a.probe.Some? && b.probe.Some? && a.flow == b.flow ==> a.probe == b.probe)
  {
    var a, b := Join(sockets)[i], Join(sockets)[j];
    if a.probe.Some? {
      JoinedIff(sockets, i, a.probe.value);
    }
    if b.probe.Some? {
      JoinedIff(sockets, j, b.probe.value);
    }
  }

  datatype Retry = Retry(at: nat, flow: Option<string>, probe: Option<string>)

  function JoinRetry(r: Retry, sockets: seq<Socket>): Retry {
    if r.flow.Some? && FlowProbe(FlowIds(sockets, r.flow.value)).Some?
    then r.(probe := FlowProbe(FlowIds(sockets, r.flow.value))) else r
  }

  /** A retry takes the one id of its flow, and keeps what it had where there is none. */
  lemma RetryJoined(r: Retry, sockets: seq<Socket>, p: string)
    ensures var t := JoinRetry(r, sockets);
            && t.at == r.at && t.flow == r.flow
            && (r.flow.Some? && FlowIds(sockets, r.flow.value) == {p} ==> t.probe == Some(p))
            && (r.flow.None? || (forall q :: FlowIds(sockets, r.flow.value) != {q}) ==> t.probe == r.probe)
  {
    if r.flow.Some? && FlowProbe(FlowIds(sockets, r.flow.value)).Some? {
      assert FlowIds(sockets, r.flow.value) == {FlowProbe(FlowIds(sockets, r.flow.value)).value};
    }
    if r.flow.Some? && FlowIds(sockets, r.flow.value) == {p} {
      assert |{p}| == 1;
      assert p in {FlowProbe({p}).value};
    }
  }

  // --------------------------------------------------------- the accounting

  /** A request with its id, if that validated and matches the request number. */
  datatype Request = Request(probe: Option<string>, success: bool)

  function Frequency(requests: seq<Request>, p: string): nat {
    if requests == [] then 0
    else Frequency(requests[..|requests| - 1], p) + if requests[|requests| - 1].probe == Some(p) then 1 else 0
  }

  /** The sockets joined to id p; only an id that exactly one request carries is joined. */
  function JoinedSockets(requests: seq<Request>, sockets: seq<Socket>, p: string): set<Socket> {
    if Frequency(requests, p) != 1 then {} else set s | s in sockets && s.probe == Some(p) && s.target.ProbeTarget?
  }

  /** The retry belongs to a flow and id of the benchmark. */
  predicate Benchmark(requests: seq<Request>, sockets: seq<Socket>, r: Retry) {
    r.probe.Some? && exists s :: s in JoinedSockets(requests, sockets, r.probe.value) && s.flow == r.flow
  }

  /** Request i carries the id, and no other does. */
  predicate OnlyCarrier(requests: seq<Request>, p: string, i: nat) {
    && i < |requests| && requests[i].probe == Some(p)
    && forall j :: 0 <= j < |requests| && j != i ==> requests[j].probe != Some(p)
  }

  /** Exactly one request carries the id. */
  ghost predicate CarriedOnce(requests: seq<Request>, p: string) { exists i: nat :: OnlyCarrier(requests, p, i) }

  predicate Uncarried(requests: seq<Request>, p: string) {
    forall i :: 0 <= i < |requests| ==> requests[i].probe != Some(p)
  }

  lemma CarriedOnceSnoc(init: seq<Request>, last: Request, p: string)
    ensures CarriedOnce(init + [last], p) <==>
            if last.probe == Some(p) then Uncarried(init, p) else CarriedOnce(init, p)
  {
    var all := init + [last];
    if i: nat :| OnlyCarrier(all, p, i) {
      assert all[|init|] == last;
      assert forall j :: 0 <= j < |init| ==> all[j] == init[j];
      assert i < |init| ==> OnlyCarrier(init, p, i);
    }
    if last.probe == Some(p) && Uncarried(init, p) {
      assert OnlyCarrier(all, p, |init|);
    }
    if last.probe != Some(p) && CarriedOnce(init, p) {
      var i: nat :| OnlyCarrier(init, p, i);
      assert OnlyCarrier(all, p, i);
    }
  }

  lemma {:induction false} FrequencyLaw(requests: seq<Request>, p: string)
    ensures Frequency(requests, p) == 0 <==> Uncarried(requests, p)
    ensures Frequency(requests, p) == 1 <==> CarriedOnce(requests, p)
  {
    if requests != [] {
      var init, last := requests[..|requests| - 1], requests[|requests| - 1];
      FrequencyLaw(init, p);
      assert requests == init + [last];
      CarriedOnceSnoc(init, last, p);
      hide CarriedOnce;
    }
  }

  /**
   A retry counts for the benchmark exactly when one request carries its id, and a socket to
   the probe target carries its id and flow.
   */
  lemma BenchmarkIff(requests: seq<Request>, sockets: seq<Socket>, r: Retry)
    ensures Benchmark(requests, sockets, r) <==>
              && r.probe.Some? && CarriedOnce(requests, r.probe.value)
              && exists i :: 0 <= i < |sockets| && sockets[i].probe == r.probe && sockets[i].target == ProbeTarget
                             && sockets[i].flow == r.flow
  {
    if r.probe.Some? {
      FrequencyLaw(requests, r.probe.value);
      hide Frequency, CarriedOnce;
      if i :| 0 <= i < |sockets| && sockets[i].probe == r.probe && sockets[i].target == ProbeTarget && sockets[i].flow == r.flow {
        if CarriedOnce(requests, r.probe.value) {
          assert sockets[i] in JoinedSockets(requests, sockets, r.probe.value);
        }
      }
    }
  }

  function BenchmarkRetries(requests: seq<Request>, sockets: seq<Socket>, retries: seq<Retry>): seq<Retry> {
    if retries == [] then []
    else
      var init, last := BenchmarkRetries(requests, sockets, retries[..|retries| - 1]), retries[|retries| - 1];
      if Benchmark(requests, sockets, last) then init + [last] else init
  }

  function Carrying(retries: seq<Retry>, p: string): nat {
    if retries == [] then 0
    else Carrying(retries[..|retries| - 1], p) + if retries[|retries| - 1].probe == Some(p) then 1 else 0
  }

  /** guardRetryEvents of one request. */
  function GuardCount(all: seq<Request>, sockets: seq<Socket>, benchmark: seq<Retry>, r: Request): nat {
    if r.probe.None? || JoinedSockets(all, sockets, r.probe.value) == {} then 0 else Carrying(benchmark, r.probe.value)
  }

  function GuardSum(all: seq<Request>, sockets: seq<Socket>, benchmark: seq<Retry>, requests: seq<Request>): nat {
    if requests == [] then 0
    else GuardSum(all, sockets, benchmark, requests[..|requests| - 1])
         + GuardCount(all, sockets, benchmark, requests[|requests| - 1])
  }

  lemma {:induction false} OneMoreRetry(
    all: seq<Request>, sockets: seq<Socket>, benchmark: seq<Retry>, x: Retry, requests: seq<Request>
  )
    requires Benchmark(all, sockets, x)
    ensures GuardSum(all, sockets, benchmark + [x], requests)
            == GuardSum(all, sockets, benchmark, requests) + Frequency(requests, x.probe.value)
  {
    BenchmarkIsJoined(all, sockets, x);
    hide Benchmark, JoinedSockets;
    if requests != [] {
      var init, last := requests[..|requests| - 1], requests[|requests| - 1];
      OneMoreRetry(all, sockets, benchmark, x, init);
      assert (benchmark + [x])[..|benchmark|] == benchmark;
    }
  }

  lemma BenchmarkIsJoined(all: seq<Request>, sockets: seq<Socket>, x: Retry)
    requires Benchmark(all, sockets, x)
    ensures x.probe.Some? && JoinedSockets(all, sockets, x.probe.value) != {} && Frequency(all, x.probe.value) == 1
  {
  }

  /** Without any retry every count is zero. */
  lemma {:induction false} NoRetryNoCount(all: seq<Request>, sockets: seq<Socket>, requests: seq<Request>)
    ensures GuardSum(all, sockets, [], requests) == 0
  {
    if requests != [] {
      NoRetryNoCount(all, sockets, requests[..|requests| - 1]);
    }
  }

  /** The per-request retry counts add up to exactly the benchmark's retries, whatever ids repeat or are invalid. */
  lemma {:induction false} RetryCountsAddUp(requests: seq<Request>, sockets: seq<Socket>, retries: seq<Retry>)
    ensures var benchmark := BenchmarkRetries(requests, sockets, retries);
            GuardSum(requests, sockets, benchmark, requests) == |benchmark|
  {
    if retries == [] {
      NoRetryNoCount(requests, sockets, requests);
    } else {
      var init, last := retries[..|retries| - 1], retries[|retries| - 1];
      RetryCountsAddUp(requests, sockets, init);
      if Benchmark(requests, sockets, last) {
        hide Benchmark, JoinedSockets;
        OneMoreRetry(requests, sockets, BenchmarkRetries(requests, sockets, init), last, requests);
        BenchmarkIsJoined(requests, sockets, last);
      }
    }
  }

  datatype Counts = Counts(
    all: nat, benchmark: nat, unjoined: nat, withRetry: nat, recovered: nat, failedDespite: nat, sum: nat)

  /** The counters over the outcomes of the given requests. */
  function Tally(all: seq<Request>, sockets: seq<Socket>, benchmark: seq<Retry>, requests: seq<Request>, start: Counts): Counts {
    if requests == [] then start
    else
      var c := Tally(all, sockets, benchmark, requests[..|requests| - 1], start);
      var last := requests[|requests| - 1];
      var n := GuardCount(all, sockets, benchmark, last);
      c.(withRetry := c.withRetry + if n > 0 then 1 else 0,
         recovered := c.recovered + if last.success && n > 0 then 1 else 0,
         failedDespite := c.failedDespite + if !last.success && n > 0 then 1 else 0,
         sum := c.sum + n)
  }

  lemma {:induction false} TallyBalances(all: seq<Request>, sockets: seq<Socket>, benchmark: seq<Retry>, requests: seq<Request>,
      start: Counts)
    requires start.withRetry == start.recovered == start.failedDespite == start.sum == 0
    ensures var c := Tally(all, sockets, benchmark, requests, start);
            && c.recovered + c.failedDespite == c.withRetry
            && c.sum == GuardSum(all, sockets, benchmark, requests)
            && c.all == start.all && c.benchmark == start.benchmark && c.unjoined == start.unjoined
  {
    hide GuardCount;
    if requests != [] {
      TallyBalances(all, sockets, benchmark, requests[..|requests| - 1], start);
    }
  }

  lemma {:induction false} BenchmarkIsPart(requests: seq<Request>, sockets: seq<Socket>, retries: seq<Retry>)
    ensures |BenchmarkRetries(requests, sockets, retries)| <= |retries|
  {
    hide Benchmark;
    if retries != [] {
      BenchmarkIsPart(requests, sockets, retries[..|retries| - 1]);
    }
  }

  // ------------------------------------------------------------ the loops

  /** The dictionary of attested ids: a flow is in it exactly when it has some. */
  ghost predicate Table(ids: map<string, set<string>>, sockets: seq<Socket>) {
    forall f :: TableAt(ids, sockets, f)
  }

  predicate TableAt(ids: map<string, set<string>>, sockets: seq<Socket>, f: string) {
    (f in ids ==> ids[f] != {}) && FlowIds(sockets, f) == if f in ids then ids[f] else {}
  }

  method CollectFlowIds(sockets: seq<Socket>) returns (ids: map<string, set<string>>)
    ensures Table(ids, sockets)
  {
    ids := map[];
    assert Table(ids, sockets[..0]) by {
      forall f ensures TableAt(ids, sockets[..0], f) {
      }
    }
    for i := 0 to |sockets|
      invariant Table(ids, sockets[..i])
    {
      hide Table;
      TableStep(ids, sockets, i);
      var s := sockets[i];
      if s.probe.Some? && s.target.ProbeTarget? && s.flow.Some? {
        ids := Added(ids, s.flow.value, s.probe.value);
      }
    }
    assert sockets[..|sockets|] == sockets;
  }

  function Added(ids: map<string, set<string>>, f: string, p: string): map<string, set<string>> {
    ids[f := (if f in ids then ids[f] else {}) + {p}]
  }

  lemma TableStep(ids: map<string, set<string>>, sockets: seq<Socket>, i: nat)
    requires i < |sockets| && Table(ids, sockets[..i])
    ensures var s := sockets[i];
            Table(if s.probe.Some? && s.target.ProbeTarget? && s.flow.Some? then Added(ids, s.flow.value, s.probe.value) else ids,
                  sockets[..i + 1])
  {
    hide FlowIds;
    var s := sockets[i];
    var next := if s.probe.Some? && s.target.ProbeTarget? && s.flow.Some? then Added(ids, s.flow.value, s.probe.value) else ids;
    var seen := sockets[..i + 1];
    forall f ensures TableAt(next, seen, f) {
      FlowIdsStep(sockets, i, f);
      assert TableAt(ids, sockets[..i], f);
    }
  }

  method JoinSockets(sockets: array<Socket>, ids: map<string, set<string>>)
    requires Table(ids, sockets[..])
    modifies sockets
    ensures sockets[..] == Join(old(sockets[..]))
  {
    hide FlowIds;
    ghost var before := sockets[..];
    for i := 0 to sockets.Length
      invariant forall k :: 0 <= k < i ==> sockets[k] == Join(before)[k]
      invariant forall k :: i <= k < sockets.Length ==> sockets[k] == before[k]
    {
      var s := sockets[i];
      assert s.flow.Some? ==> TableAt(ids, before, s.flow.value);
      if !s.target.ProbeTarget? {
        sockets[i] := s.(probe := None);
      } else if s.flow.Some? && s.flow.value in ids {
        if |ids[s.flow.value]| > 1 {
          sockets[i] := s.(probe := None);
        } else {
          sockets[i] := s.(probe := FlowProbe(ids[s.flow.value]), joined := true);
        }
      }
    }
  }

  method JoinRetries(retries: array<Retry>, ids: map<string, set<string>>, ghost sockets: seq<Socket>)
    requires Table(ids, sockets)
    modifies retries
    ensures forall i :: 0 <= i < retries.Length ==> retries[i] == JoinRetry(old(retries[i]), sockets)
  {
    hide FlowIds;
    for i := 0 to retries.Length
      invariant forall k :: 0 <= k < i ==> retries[k] == JoinRetry(old(retries[k]), sockets)
      invariant forall k :: i <= k < retries.Length ==> retries[k] == old(retries[k])
    {
      var r := retries[i];
      assert r.flow.Some? ==> TableAt(ids, sockets, r.flow.value);
      if r.flow.Some? && r.flow.value in ids && |ids[r.flow.value]| == 1 {
        retries[i] := r.(probe := FlowProbe(ids[r.flow.value]));
      }
    }
  }

  /** The join phase of read_events: it rewrites every socket and every retry in place. */
  method JoinPhase(sockets: array<Socket>, retries: array<Retry>)
    modifies sockets, retries
    ensures sockets[..] == Join(old(sockets[..]))
    ensures forall i :: 0 <= i < retries.Length ==> retries[i] == JoinRetry(old(retries[i]), old(sockets[..]))
  {
    hide Join, JoinRetry, Table;
    ghost var before := sockets[..];
    var ids := CollectFlowIds(sockets[..]);
    JoinRetries(retries, ids, before);
    JoinSockets(sockets, ids);
  }

  lemma FlowIdsStep(sockets: seq<Socket>, i: nat, f: string)
    requires i < |sockets|
    ensures FlowIds(sockets[..i + 1], f) == FlowIds(sockets[..i], f) +
              if sockets[i].flow == Some(f) && sockets[i].target.ProbeTarget? && sockets[i].probe.Some?
              then {sockets[i].probe.value} else {}
  {
    assert sockets[..i + 1] == sockets[..i] + [sockets[i]];
  }

  /** The counters of analysis, for already joined sockets and retries. */
  method Account(requests: seq<Request>, sockets: seq<Socket>, retries: seq<Retry>) returns (c: Counts)
    ensures c.all == |retries| && c.benchmark + c.unjoined == c.all
            && c.benchmark == |BenchmarkRetries(requests, sockets, retries)|
    ensures c.sum == c.benchmark && c.recovered + c.failedDespite == c.withRetry
    ensures c == Tally(requests, sockets, BenchmarkRetries(requests, sockets, retries), requests,
                       Counts(|retries|, c.benchmark, c.unjoined, 0, 0, 0, 0))
  {
    hide Benchmark, GuardCount, JoinedSockets;
    var benchmark: seq<Retry> := [];
    for i := 0 to |retries|
      invariant benchmark == BenchmarkRetries(requests, sockets, retries[..i])
    {
      assert retries[..i + 1][..i] == retries[..i];
      if Benchmark(requests, sockets, retries[i]) {
        benchmark := benchmark + [retries[i]];
      }
    }
    assert retries[..|retries|] == retries;
    BenchmarkIsPart(requests, sockets, retries);
    ghost var start := Counts(|retries|, |benchmark|, |retries| - |benchmark|, 0, 0, 0, 0);
    c := Counts(|retries|, |benchmark|, |retries| - |benchmark|, 0, 0, 0, 0);
    for i := 0 to |requests|
      invariant c == Tally(requests, sockets, benchmark, requests[..i], start)
    {
      assert requests[..i + 1][..i] == requests[..i];
      var n := GuardCount(requests, sockets, benchmark, requests[i]);
      if n > 0 {
        c := c.(withRetry := c.withRetry + 1);
        if requests[i].success {
          c := c.(recovered := c.recovered + 1);
        } else {
          c := c.(failedDespite := c.failedDespite + 1);
        }
      }
      c := c.(sum := c.sum + n);
    }
    assert requests[..|requests|] == requests;
    TallyBalances(requests, sockets, benchmark, requests, start);
    RetryCountsAddUp(requests, sockets, retries);
  }
}
