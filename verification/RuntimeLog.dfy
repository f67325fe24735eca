/**
 The resumable runtime log buffer of log_recording.rs: what is captured, what
 reaches the archive, and what can be lost on the way. The marker file, the
 appender and each write may fail; formatting a line is not part of this model.
 */
module RuntimeLog {
  import opened Wrappers

  const MAX_IN_MEMORY_LOGS := 256
  const MAX_PENDING_RUNTIME_LOGS := 4096
  const MAX_SEQUENCE: nat := 0xFFFF_FFFF_FFFF_FFFF

  datatype Captured = Captured(sequence: nat, capturedAt: nat, text: string)

  /** The marker's text and the start time it parses to (the maximum when it does not). */
  datatype Session = Session(id: string, startedAt: nat)

  datatype Log = Log(session: Option<Session>, open: bool, entries: seq<Captured>, next: nat, persisted: nat)

  const EMPTY := Log(None, false, [], 1, 0)

  // ---------------------------------------------------------- operations

  function Capture(l: Log, now: nat, text: string): Log {
    var kept := if |l.entries| >= MAX_PENDING_RUNTIME_LOGS then l.entries[1..] else l.entries;
    l.(entries := kept + [Captured(l.next, now, text)],
       next := if l.next >= MAX_SEQUENCE then l.next else l.next + 1)
  }

  function Since(entries: seq<Captured>, start: nat): seq<Captured> {
    if entries == [] then []
    else if entries[0].capturedAt >= start then [entries[0]] + Since(entries[1..], start)
    else Since(entries[1..], start)
  }

  /** The entries the archive does not have yet. */
  function After(entries: seq<Captured>, sequence: nat): seq<Captured> {
    if entries == [] then []
    else if entries[0].sequence > sequence then [entries[0]] + After(entries[1..], sequence)
    else After(entries[1..], sequence)
  }

  function Pending(l: Log): seq<Captured> { After(l.entries, l.persisted) }

  function Trim(entries: seq<Captured>, persisted: nat): seq<Captured> {
    if |entries| > MAX_IN_MEMORY_LOGS && entries[0].sequence <= persisted then Trim(entries[1..], persisted) else entries
  }

  /** Switching to another recording session, or to none. */
  function Adopt(l: Log, session: Option<Session>): Log {
    if session == l.session then l
    else
      var start := if session.Some? then session.value.startedAt else MAX_SEQUENCE;
      Log(session, false, if session.None? then [] else Since(l.entries, start), l.next, 0)
  }

  /** Appends the first `budget` pending entries; the write after them fails. */
  function Flush(l: Log, budget: nat): (Log, seq<Captured>) {
    var pending := Pending(l);
    var out := if budget < |pending| then pending[..budget] else pending;
    var persisted := if out == [] then l.persisted else out[|out| - 1].sequence;
    (l.(entries := Trim(l.entries, persisted), persisted := persisted), out)
  }

  /** sync: what it read from the marker file, whether an appender can be built, how many writes succeed. */
  function Sync(l: Log, marker: Result<Option<Session>, ()>, canOpen: bool, budget: nat): (Log, seq<Captured>) {
    if marker.Err? then (l, [])
    else
      var a := Adopt(l, marker.value);
      if a.session.None? then (a.(open := false, entries := [], persisted := 0), [])
      else if !a.open && !canOpen then (a, [])
      else Flush(a.(open := true), budget)
  }

  function Clear(l: Log): Log { l.(entries := [], persisted := 0) }

  // ------------------------------------------------------------ soundness

  ghost predicate Increasing(entries: seq<Captured>) {
    forall i, j :: 0 <= i < j < |entries| ==> entries[i].sequence < entries[j].sequence
  }

  ghost predicate Valid(l: Log) {
    && |l.entries| <= MAX_PENDING_RUNTIME_LOGS && l.persisted < l.next
    && Increasing(l.entries)
    && forall i :: 0 <= i < |l.entries| ==> 0 < l.entries[i].sequence < l.next
  }

  /** In an increasing buffer, splitting at k where `sequence` falls. */
  lemma {:induction false} AfterSplits(entries: seq<Captured>, sequence: nat, k: nat)
    requires k <= |entries|
    requires forall i :: 0 <= i < k ==> entries[i].sequence <= sequence
    requires forall i :: k <= i < |entries| ==> entries[i].sequence > sequence
    ensures After(entries, sequence) == entries[k..]
    decreases |entries|
  {
    if entries != [] {
      AfterSplits(entries[1..], sequence, if k > 0 then k - 1 else 0);
      if k == 0 {
        assert entries == [entries[0]] + entries[1..];
      }
    }
  }

  /** So the pending entries are a suffix. */
  lemma {:induction false} AfterIsSuffix(entries: seq<Captured>, sequence: nat) returns (k: nat)
    requires Increasing(entries)
    ensures k <= |entries| && After(entries, sequence) == entries[k..]
    ensures forall i :: 0 <= i < k ==> entries[i].sequence <= sequence
    ensures forall i :: k <= i < |entries| ==> entries[i].sequence > sequence
  {
    k := 0;
    while k < |entries| && entries[k].sequence <= sequence
      invariant k <= |entries|
      invariant forall i :: 0 <= i < k ==> entries[i].sequence <= sequence
    {
      k := k + 1;
    }
    AfterSplits(entries, sequence, k);
  }

  /** Trimming drops a prefix, and only of entries the archive has. */
  lemma {:induction false} TrimDropsPersisted(entries: seq<Captured>, persisted: nat) returns (k: nat)
    ensures k <= |entries| && Trim(entries, persisted) == entries[k..]
    ensures forall i :: 0 <= i < k ==> entries[i].sequence <= persisted
    ensures After(Trim(entries, persisted), persisted) == After(entries, persisted)
  {
    if |entries| > MAX_IN_MEMORY_LOGS && entries[0].sequence <= persisted {
      var rest := TrimDropsPersisted(entries[1..], persisted);
      k := rest + 1;
      assert entries[1..][rest..] == entries[k..];
      forall i | 0 <= i < k ensures entries[i].sequence <= persisted {
        if i > 0 {
          assert entries[i] == entries[1..][i - 1];
        }
      }
    } else {
      k := 0;
    }
  }

  /** Increasing, told from the front. */
  lemma IncreasingCons(e: Captured, rest: seq<Captured>)
    requires Increasing(rest) && forall x :: x in rest ==> x.sequence > e.sequence
    ensures Increasing([e] + rest)
  {
    var all := [e] + rest;
    forall i, j | 0 <= i < j < |all| ensures all[i].sequence < all[j].sequence {
      assert all[j] == rest[j - 1] && rest[j - 1] in rest;
      if i > 0 {
        assert all[i] == rest[i - 1];
      }
    }
  }

  lemma IncreasingHead(entries: seq<Captured>)
    requires Increasing(entries) && entries != []
    ensures Increasing(entries[1..])
    ensures forall x :: x in entries[1..] ==> x in entries && x.sequence > entries[0].sequence
  {
    var tail := entries[1..];
    forall x | x in tail ensures x in entries && x.sequence > entries[0].sequence {
      var k :| 0 <= k < |tail| && tail[k] == x;
      assert tail[k] == entries[k + 1];
    }
    forall i, j | 0 <= i < j < |tail| ensures tail[i].sequence < tail[j].sequence {
      assert tail[i] == entries[i + 1] && tail[j] == entries[j + 1];
    }
  }

  lemma {:induction false} SinceKeepsOrder(entries: seq<Captured>, start: nat)
    requires Increasing(entries)
    ensures Increasing(Since(entries, start)) && |Since(entries, start)| <= |entries|
    ensures forall e :: e in Since(entries, start) ==> e in entries
  {
    if entries == [] {
    } else {
      IncreasingHead(entries);
      SinceKeepsOrder(entries[1..], start);
      hide Increasing;
      if entries[0].capturedAt >= start {
        IncreasingCons(entries[0], Since(entries[1..], start));
      }
    }
  }

  lemma IncreasingParts(a: seq<Captured>, b: seq<Captured>)
    requires Increasing(a + b)
    ensures Increasing(a) && Increasing(b)
    ensures b != [] ==> Increasing(a + b[1..])
  {
    var ab := a + b;
    forall i, j | 0 <= i < j < |a| ensures a[i].sequence < a[j].sequence {
      assert ab[i].sequence < ab[j].sequence;
    }
    forall i, j | 0 <= i < j < |b| ensures b[i].sequence < b[j].sequence {
      assert ab[|a| + i].sequence < ab[|a| + j].sequence;
    }
    if b != [] {
      var c := a + b[1..];
      forall i, j | 0 <= i < j < |c| ensures c[i].sequence < c[j].sequence {
        var p, q := if i < |a| then i else i + 1, if j < |a| then j else j + 1;
        assert ab[p] == c[i] && ab[q] == c[j];
      }
    }
  }

  lemma IncreasingSuffix(entries: seq<Captured>, k: nat)
    requires Increasing(entries) && k <= |entries|
    ensures Increasing(entries[k..])
  {
    assert entries == entries[..k] + entries[k..];
    IncreasingParts(entries[..k], entries[k..]);
  }

  lemma IncreasingSnoc(entries: seq<Captured>, e: Captured)
    requires Increasing(entries) && forall i :: 0 <= i < |entries| ==> entries[i].sequence < e.sequence
    ensures Increasing(entries + [e])
  {
  }

  /** Every entry carries a sequence the counter has passed. */
  ghost predicate Below(entries: seq<Captured>, next: nat) {
    forall i :: 0 <= i < |entries| ==> 0 < entries[i].sequence < next
  }

  /** The split a flush makes: [already written | written now | still pending]. */
  lemma FlushSplit(l: Log, budget: nat) returns (k: nat, n: nat)
    requires Valid(l)
    ensures k <= n <= |l.entries|
    ensures Pending(l) == l.entries[k..] && Flush(l, budget).1 == l.entries[k..n]
    ensures Flush(l, budget).0.persisted == if n == k then l.persisted else l.entries[n - 1].sequence
    ensures After(l.entries, Flush(l, budget).0.persisted) == l.entries[n..]
  {
    hide Trim;
    k := AfterIsSuffix(l.entries, l.persisted);
    var out := Flush(l, budget).1;
    n := k + |out|;
    assert out == l.entries[k..n];
    if n > k {
      assert out[|out| - 1] == l.entries[n - 1];
    }
    AfterSplits(l.entries, Flush(l, budget).0.persisted, n);
  }

  /** What one flush moves from the buffer to the archive. */
  lemma FlushMoves(l: Log, budget: nat) returns (dropped: nat)
    requires Valid(l)
    ensures var (m, out) := Flush(l, budget);
            && Valid(m) && m.next == l.next && m.session == l.session && Below(out, l.next)
            && Pending(l) == out + Pending(m)
            && dropped <= |l.entries| && m.entries == l.entries[dropped..]
            && (forall i :: 0 <= i < dropped ==> l.entries[i].sequence <= m.persisted)
            && (|m.entries| > MAX_IN_MEMORY_LOGS ==> m.entries[0].sequence > m.persisted)
  {
    var k, n := FlushSplit(l, budget);
    SliceBelow(l, k, n);
    FlushTrims(l, budget);
    FlushKeepsSession(l, budget);
    var m := Flush(l, budget).0;
    assert m.persisted < l.next;
    hide Flush, After, Increasing, Valid, Below, Pending, Trim;
    assert l.entries[k..] == l.entries[k..n] + l.entries[n..];
    dropped := TrimmedLog(l, m.persisted);
  }

  lemma SliceBelow(l: Log, k: nat, n: nat)
    requires Valid(l) && k <= n <= |l.entries|
    ensures Below(l.entries[k..n], l.next)
  {
    hide Increasing;
  }

  lemma FlushKeepsSession(l: Log, budget: nat)
    ensures Flush(l, budget).0.session == l.session && Flush(l, budget).0.next == l.next
  {
    hide Pending, Trim;
  }

  /** The entries of one write loop, with `budget` writes to go. */
  function FirstPending(entries: seq<Captured>, persisted: nat, budget: nat): seq<Captured>
    decreases |entries|
  {
    if entries == [] then []
    else if entries[0].sequence <= persisted then FirstPending(entries[1..], persisted, budget)
    else if budget == 0 then []
    else [entries[0]] + FirstPending(entries[1..], persisted, budget - 1)
  }

  /** With `budget` writes to go and `done` written, the loop will have written `out`. */
  predicate WillWrite(out: seq<Captured>, done: seq<Captured>, rest: seq<Captured>, persisted: nat, budget: nat) {
    done + FirstPending(rest, persisted, budget) == out
  }

  lemma SkipWritten(out: seq<Captured>, done: seq<Captured>, rest: seq<Captured>, persisted: nat, budget: nat)
    requires WillWrite(out, done, rest, persisted, budget) && rest != [] && rest[0].sequence <= persisted
    ensures WillWrite(out, done, rest[1..], persisted, budget)
  {
  }

  lemma WriteNext(out: seq<Captured>, done: seq<Captured>, rest: seq<Captured>, persisted: nat, budget: nat)
    requires WillWrite(out, done, rest, persisted, budget) && rest != [] && rest[0].sequence > persisted && budget > 0
    ensures WillWrite(out, done + [rest[0]], rest[1..], persisted, budget - 1)
  {
  }

  lemma NothingMore(out: seq<Captured>, done: seq<Captured>, rest: seq<Captured>, persisted: nat, budget: nat)
    requires WillWrite(out, done, rest, persisted, budget)
    requires rest == [] || (rest[0].sequence > persisted && budget == 0)
    ensures done == out
  {
  }

  lemma {:induction false} FirstPendingIs(entries: seq<Captured>, persisted: nat, budget: nat)
    ensures var pending := After(entries, persisted);
            FirstPending(entries, persisted, budget) == pending[..if budget < |pending| then budget else |pending|]
    decreases |entries|
  {
    if entries != [] {
      var rest := entries[1..];
      FirstPendingIs(rest, persisted, if entries[0].sequence > persisted && budget > 0 then budget - 1 else budget);
    }
  }

  function LastSequence(out: seq<Captured>, otherwise: nat): nat {
    if out == [] then otherwise else out[|out| - 1].sequence
  }

  lemma LastOne(out: seq<Captured>, otherwise: nat)
    ensures out == [] ==> LastSequence(out, otherwise) == otherwise
    ensures out != [] ==> LastSequence(out, otherwise) == out[|out| - 1].sequence
  {
  }

  lemma FlushParts(l: Log, budget: nat)
    ensures var (m, out) := Flush(l, budget);
            && out == Pending(l)[..if budget < |Pending(l)| then budget else |Pending(l)|]
            && m.persisted == LastSequence(out, l.persisted)
  {
    hide Trim, After;
  }

  /** The write loop writes what a flush takes out. */
  lemma FlushIsFirst(l: Log, budget: nat)
    ensures var (m, out) := Flush(l, budget);
            && out == FirstPending(l.entries, l.persisted, budget)
            && m.persisted == LastSequence(out, l.persisted)
  {
    FlushParts(l, budget);
    FirstPendingIs(l.entries, l.persisted, budget);
    hide Flush, FirstPending, LastSequence, After;
  }

  lemma FlushTrims(l: Log, budget: nat)
    ensures var m := Flush(l, budget).0; m == l.(entries := Trim(l.entries, m.persisted), persisted := m.persisted)
  {
    hide Trim;
  }

  lemma TrimmedLog(l: Log, persisted: nat) returns (dropped: nat)
    requires Valid(l) && persisted < l.next
    ensures var m := l.(entries := Trim(l.entries, persisted), persisted := persisted);
            && Valid(m) && Pending(m) == After(l.entries, persisted)
            && dropped <= |l.entries| && m.entries == l.entries[dropped..]
            && (forall i :: 0 <= i < dropped ==> l.entries[i].sequence <= persisted)
            && (|m.entries| > MAX_IN_MEMORY_LOGS ==> m.entries[0].sequence > persisted)
  {
    hide Increasing, Trim, After;
    dropped := TrimDropsPersisted(l.entries, persisted);
    TrimStops(l.entries, persisted);
    IncreasingSuffix(l.entries, dropped);
  }

  lemma {:induction false} TrimStops(entries: seq<Captured>, persisted: nat)
    ensures var t := Trim(entries, persisted);
            |t| > MAX_IN_MEMORY_LOGS ==> t[0].sequence > persisted
  {
    if |entries| > MAX_IN_MEMORY_LOGS && entries[0].sequence <= persisted {
      TrimStops(entries[1..], persisted);
    }
  }

  // ------------------------------------------------- each operation, told apart

  /** A capture gets the next sequence, which stays at the last 64-bit value; of 4096 entries held, the oldest gives way. */
  lemma CaptureLaw(l: Log, now: nat, text: string)
    requires |l.entries| <= 4096
    ensures var m := Capture(l, now, text);
            && m.next == (if l.next < 0xFFFF_FFFF_FFFF_FFFF then l.next + 1 else l.next)
            && m.session == l.session && m.open == l.open && m.persisted == l.persisted
            && |m.entries| == (if |l.entries| < 4096 then |l.entries| + 1 else 4096)
            && m.entries[|m.entries| - 1] == Captured(l.next, now, text)
            && forall i :: 0 <= i < |m.entries| - 1 ==> m.entries[i] == l.entries[i + |l.entries| + 1 - |m.entries|]
  {
  }

  /** A new session retains exactly what was captured since it started. */
  lemma {:induction false} SinceLaw(entries: seq<Captured>, start: nat, e: Captured)
    ensures e in Since(entries, start) <==> e in entries && e.capturedAt >= start
  {
    if entries != [] {
      SinceLaw(entries[1..], start, e);
      assert e in entries <==> e == entries[0] || e in entries[1..];
    }
  }

  /** Trimming drops written entries from the front, while more than 256 are held and the oldest is written. */
  lemma {:induction false} TrimLaw(entries: seq<Captured>, persisted: nat) returns (k: nat)
    ensures k <= |entries| && Trim(entries, persisted) == entries[k..]
    ensures (forall i :: 0 <= i < k ==> entries[i].sequence <= persisted) && (k > 0 ==> |entries| - k >= 256)
    ensures |entries| - k <= 256 || entries[k].sequence > persisted
  {
    k := 0;
    if |entries| > 256 && entries[0].sequence <= persisted {
      var j := TrimLaw(entries[1..], persisted);
      k := j + 1;
      assert entries[1..][j..] == entries[k..];
      if k < |entries| {
        assert entries[1..][j] == entries[k];
      }
      forall i | 0 <= i < k ensures entries[i].sequence <= persisted {
        if i > 0 {
          assert entries[i] == entries[1..][i - 1];
        }
      }
    }
  }

  /** Where no write is due: an unreadable marker changes nothing, no session forgets everything, no appender writes nothing. */
  lemma SyncWithoutWrites(l: Log, marker: Result<Option<Session>, ()>, canOpen: bool, budget: nat)
    ensures var (m, out) := Sync(l, marker, canOpen, budget);
            && m.next == l.next
            && (marker.Err? ==> m == l && out == [])
            && (marker == Ok(None) ==> m == Log(None, false, [], l.next, 0) && out == [])
            && (marker.Ok? && marker.value.Some? ==>
                  var anew := marker.value != l.session;
                  var entries := if anew then Since(l.entries, marker.value.value.startedAt) else l.entries;
                  && m.session == marker.value && m.open == (canOpen || (!anew && l.open))
                  && (!m.open ==> out == [] && m.entries == entries && m.persisted == if anew then 0 else l.persisted))
  {
    hide Trim, After, Since;
  }

  /** Clearing forgets the entries and what was written, but not how far the sequence came. */
  lemma ClearLaw(l: Log)
    ensures Clear(l) == Log(l.session, l.open, [], l.next, 0)
  {
  }

  /** What a sync writes: the first entries past the last one written, as many as writes succeed, all of a new session's. */
  lemma SyncWrites(l: Log, session: Session, canOpen: bool, budget: nat)
    requires canOpen || (l.session == Some(session) && l.open)
    ensures var (m, out) := Sync(l, Ok(Some(session)), canOpen, budget);
            var anew := l.session != Some(session);
            var due := if anew then After(Since(l.entries, session.startedAt), 0) else After(l.entries, l.persisted);
            && out == due[..if budget < |due| then budget else |due|]
            && m.persisted == (if out != [] then out[|out| - 1].sequence else if anew then 0 else l.persisted)
  {
    hide Trim, After, Since;
  }

  // ----------------------------------------------------------------- runs

  datatype Op =
    | OpCapture(now: nat, text: string)
    | OpSync(marker: Result<Option<Session>, ()>, canOpen: bool, budget: nat)
    | OpClear

  /**
   A run so far. `seen` is what was captured for the adopted session (what it
   retained when it was adopted, then every capture), `archive` what was written
   in it, `lost` whether an entry was dropped before it was written.
   */
  datatype Trace = Trace(log: Log, seen: seq<Captured>, archive: seq<Captured>, lost: bool)

  const START := Trace(EMPTY, [], [], false)

  function Next(t: Trace, op: Op): Trace {
    match op
    case OpCapture(now, text) =>
      Trace(Capture(t.log, now, text), t.seen + [Captured(t.log.next, now, text)], t.archive,
            t.lost || (|t.log.entries| >= MAX_PENDING_RUNTIME_LOGS && t.log.entries[0].sequence > t.log.persisted))
    case OpSync(marker, canOpen, budget) =>
      var (l, out) := Sync(t.log, marker, canOpen, budget);
      if l.session == t.log.session && l.session.Some? then Trace(l, t.seen, t.archive + out, t.lost)
      else if l.session.None? then Trace(l, [], [], false)
      else Trace(l, Adopt(t.log, marker.value).entries, out, false)
    case OpClear => Trace(Clear(t.log), t.seen, t.archive, t.lost || Pending(t.log) != [])
  }

  function Run(t: Trace, ops: seq<Op>): Trace {
    if ops == [] then t else Next(Run(t, ops[..|ops| - 1]), ops[|ops| - 1])
  }

  /** Written once and in order, ahead of everything pending; and nothing is missing unless it was lost. */
  ghost predicate Sound(t: Trace) {
    && Valid(t.log)
    && Increasing(t.archive + Pending(t.log))
    && (forall e :: e in t.archive ==> 0 < e.sequence < t.log.next)
    && (t.log.session.Some? && !t.lost ==> t.seen == t.archive + Pending(t.log))
    && (t.log.session.None? ==> t.archive == [])
  }

  lemma SinceIsPending(entries: seq<Captured>)
    requires Increasing(entries) && forall i :: 0 <= i < |entries| ==> entries[i].sequence > 0
    ensures After(entries, 0) == entries
  {
    AfterSplits(entries, 0, 0);
  }

  /** An adopted session starts with everything it retained pending and nothing written. */
  lemma AdoptIsSound(l: Log, session: Option<Session>)
    requires Valid(l) && session != l.session
    ensures var a := Adopt(l, session);
            Valid(a) && a.next == l.next && Pending(a) == a.entries
  {
    hide Increasing;
    var a := Adopt(l, session);
    if session.Some? {
      SinceKeepsOrder(l.entries, session.value.startedAt);
      forall i | 0 <= i < |a.entries| ensures 0 < a.entries[i].sequence < l.next {
        assert a.entries[i] in l.entries;
      }
    } else {
      assert Increasing([]) by { NoneIncreasing(); }
    }
    SinceIsPending(a.entries);
  }

  lemma NoneIncreasing()
    ensures Increasing([])
  {
  }

  /** A flush extends the archive by what it takes from the pending entries. */
  lemma FlushIsSound(t: Trace, budget: nat)
    requires Sound(t) && t.log.session.Some?
    ensures var (m, out) := Flush(t.log, budget); Sound(Trace(m, t.seen, t.archive + out, t.lost))
  {
    var _ := FlushMoves(t.log, budget);
    hide Increasing, Flush, After, Pending, Valid;
    var m, out := Flush(t.log, budget).0, Flush(t.log, budget).1;
    assert t.archive + (out + Pending(m)) == (t.archive + out) + Pending(m);
  }

  /** The appender being open or not is no part of soundness. */
  lemma OpenIsSound(t: Trace, open: bool)
    requires Sound(t)
    ensures Sound(t.(log := t.log.(open := open)))
  {
    hide Increasing, After;
  }

  lemma SameSessionSync(t: Trace, op: Op)
    requires Sound(t) && op.OpSync? && op.marker == Ok(t.log.session) && t.log.session.Some? && (t.log.open || op.canOpen)
    ensures Sound(Next(t, op))
  {
    var u := t.(log := t.log.(open := true));
    OpenIsSound(t, true);
    FlushIsSound(u, op.budget);
    FlushKeepsSession(u.log, op.budget);
    hide Flush, Sound;
  }

  lemma NewSessionSync(t: Trace, op: Op)
    requires Sound(t) && op.OpSync? && op.marker.Ok? && op.marker.value.Some? && op.marker.value != t.log.session
    ensures Sound(Next(t, op))
  {
    var u := Trace(Adopt(t.log, op.marker.value), Adopt(t.log, op.marker.value).entries, [], false);
    AdoptedIsSound(t, op.marker.value);
    if op.canOpen {
      OpenIsSound(u, true);
      var open := u.(log := u.log.(open := true));
      FlushIsSound(open, op.budget);
      FlushKeepsSession(open.log, op.budget);
      assert [] + Flush(open.log, op.budget).1 == Flush(open.log, op.budget).1;
    }
    hide Flush, Sound, Since;
  }

  lemma AdoptedIsSound(t: Trace, session: Option<Session>)
    requires Sound(t) && session != t.log.session && session.Some?
    ensures var a := Adopt(t.log, session); Sound(Trace(a, a.entries, [], false))
  {
    AdoptIsSound(t.log, session);
    var a := Adopt(t.log, session);
    PendingIncreases(a);
    hide Adopt, Valid, Increasing, After, Pending;
    assert [] + Pending(a) == Pending(a);
  }

  /** A sync that could not read the marker, or could not open the appender. */
  lemma IdleSync(t: Trace, op: Op)
    requires Sound(t) && op.OpSync?
    requires op.marker.Err? || (op.marker.value == t.log.session && t.log.session.Some? && !t.log.open && !op.canOpen)
    ensures Sound(Next(t, op))
  {
    hide Increasing, After, Flush;
    NoneIncreasing();
    assert t.archive + [] == t.archive;
    EmptyPending(t.log);
    assert [] + Pending(t.log) == Pending(t.log);
    PendingIncreases(t.log);
  }

  lemma EmptyPending(l: Log)
    ensures l.entries == [] ==> Pending(l) == []
  {
  }

  lemma PendingIncreases(l: Log)
    requires Valid(l)
    ensures Increasing(Pending(l))
  {
    hide Increasing, After;
    var k := AfterIsSuffix(l.entries, l.persisted);
    IncreasingSuffix(l.entries, k);
  }

  lemma NoneSync(t: Trace, op: Op)
    requires Sound(t) && op.OpSync? && op.marker == Ok(None)
    ensures Sound(Next(t, op))
  {
    hide Flush, After, Increasing;
    NoneIncreasing();
    EmptyPending(Next(t, op).log);
    assert Next(t, op).archive + Pending(Next(t, op).log) == [];
  }

  lemma SyncIsSound(t: Trace, op: Op)
    requires Sound(t) && op.OpSync?
    ensures Sound(Next(t, op))
  {
    if op.marker.Ok? {
      var session := op.marker.value;
      hide Flush, After, Increasing, Adopt;
      if session.None? {
        NoneSync(t, op);
      } else if session != t.log.session {
        NewSessionSync(t, op);
      } else if t.log.open || op.canOpen {
        SameSessionSync(t, op);
      } else {
        IdleSync(t, op);
      }
    } else {
      IdleSync(t, op);
    }
  }

  lemma CapturePending(l: Log, now: nat, text: string)
    requires Valid(l) && l.next < MAX_SEQUENCE
    ensures var m := Capture(l, now, text);
            && Valid(m)
            && (|l.entries| >= MAX_PENDING_RUNTIME_LOGS && l.entries[0].sequence > l.persisted ==>
                  Pending(l) != [] && Pending(m) == Pending(l)[1..] + [Captured(l.next, now, text)])
            && (!(|l.entries| >= MAX_PENDING_RUNTIME_LOGS && l.entries[0].sequence > l.persisted) ==>
                  Pending(m) == Pending(l) + [Captured(l.next, now, text)])
  {
    hide Increasing, After;
    var drop := if |l.entries| >= MAX_PENDING_RUNTIME_LOGS then 1 else 0;
    var e := Captured(l.next, now, text);
    IncreasingSuffix(l.entries, drop);
    IncreasingSnoc(l.entries[drop..], e);
    CaptureSplit(l.entries, drop, e, l.persisted);
  }

  lemma CaptureSplit(entries: seq<Captured>, drop: nat, e: Captured, persisted: nat)
    requires Increasing(entries) && drop <= 1 && drop <= |entries| && e.sequence > persisted
    ensures After(entries[drop..] + [e], persisted)
            == (if drop == 1 && entries[0].sequence > persisted then After(entries, persisted)[1..]
                else After(entries, persisted)) + [e]
    ensures drop == 1 && entries[0].sequence > persisted ==> After(entries, persisted) == entries
  {
    hide Increasing, After;
    var k := AfterIsSuffix(entries, persisted);
    var kept := entries[drop..] + [e];
    var j := if k > drop then k - drop else 0;
    forall i | 0 <= i < |kept| ensures i < j <==> kept[i].sequence <= persisted {
      if i < |kept| - 1 {
        assert kept[i] == entries[drop + i];
      }
    }
    AfterSplits(kept, persisted, j);
    assert kept[j..] == entries[drop + j..] + [e];
  }

  lemma PendingBelow(l: Log)
    requires Valid(l)
    ensures Below(Pending(l), l.next)
  {
    hide Increasing, After;
    var k := AfterIsSuffix(l.entries, l.persisted);
  }

  lemma CaptureIsSound(t: Trace, op: Op)
    requires Sound(t) && op.OpCapture? && t.log.next < MAX_SEQUENCE
    ensures Sound(Next(t, op))
  {
    CapturePending(t.log, op.now, op.text);
    PendingBelow(t.log);
    var e := Captured(t.log.next, op.now, op.text);
    hide Capture, After;
    IncreasingParts(t.archive, Pending(t.log));
    var full := |t.log.entries| >= MAX_PENDING_RUNTIME_LOGS && t.log.entries[0].sequence > t.log.persisted;
    var rest := if full then Pending(t.log)[1..] else Pending(t.log);
    hide Increasing;
    CaptureAppends(t.archive, rest, e);
    CaptureNext(t.log, op.now, op.text);
    if !full {
      assert (t.archive + Pending(t.log)) + [e] == t.archive + (Pending(t.log) + [e]);
    }
  }

  lemma CaptureNext(l: Log, now: nat, text: string)
    ensures l.next < MAX_SEQUENCE ==> Capture(l, now, text).next == l.next + 1
    ensures Capture(l, now, text).session == l.session && Capture(l, now, text).persisted == l.persisted
  {
  }

  lemma CaptureAppends(archive: seq<Captured>, rest: seq<Captured>, e: Captured)
    requires Increasing(archive + rest)
    requires (forall x :: x in archive ==> x.sequence < e.sequence) && Below(rest, e.sequence)
    ensures Increasing(archive + (rest + [e]))
  {
    var all := archive + rest;
    forall i | 0 <= i < |all| ensures all[i].sequence < e.sequence {
      if i < |archive| {
        assert all[i] in archive;
      } else {
        assert all[i] == rest[i - |archive|];
      }
    }
    IncreasingSnoc(all, e);
    assert all + [e] == archive + (rest + [e]);
  }

  lemma ClearIsSound(t: Trace)
    requires Sound(t)
    ensures Sound(Next(t, OpClear))
  {
    hide Increasing, After;
    NoneIncreasing();
    IncreasingParts(t.archive, Pending(t.log));
    EmptyPending(Clear(t.log));
    assert t.archive + [] == t.archive;
  }

  /**
   Over every run of captures, syncs and clears, with any marker reads, appender
   and write failures: within one recording session every entry is written at
   most once and in capture order; what is pending continues it; and unless an
   entry was lost to the overflow or to a clear, what was written and what is
   pending are exactly what the session captured.
   */
  lemma {:induction false} EveryRunIsSound(ops: seq<Op>)
    requires Run(START, ops).log.next < MAX_SEQUENCE
    ensures Sound(Run(START, ops))
    decreases |ops|
  {
    if ops != [] {
      var before, op := Run(START, ops[..|ops| - 1]), ops[|ops| - 1];
      NextGrows(before, op);
      EveryRunIsSound(ops[..|ops| - 1]);
      match op
      case OpCapture(_, _) => CaptureIsSound(before, op);
      case OpSync(_, _, _) => SyncIsSound(before, op);
      case OpClear => ClearIsSound(before);
    }
  }

  lemma NextGrows(t: Trace, op: Op)
    ensures Next(t, op).log.next >= t.log.next || t.log.next > MAX_SEQUENCE
  {
  }

  /** A new session starts with what it retains, nothing lost and nothing written but by this sync. */
  lemma NewSessionStartsWhole(t: Trace, op: Op)
    requires Next(t, op).log.session != t.log.session
    ensures var n := Next(t, op);
            && op.OpSync? && op.marker == Ok(n.log.session) && !n.lost
            && (n.log.session.None? ==> n.seen == [] && n.archive == [])
            && (n.log.session.Some? ==>
                  && n.seen == Since(t.log.entries, n.log.session.value.startedAt)
                  && n.archive == Sync(t.log, op.marker, op.canOpen, op.budget).1)
  {
    hide Trim, After, Since;
  }

  /** Trimming and writing never drop an unpersisted entry: within a session only a full buffer or a clear does. */
  lemma OnlyOverflowOrClearLoses(t: Trace, op: Op)
    requires Sound(t) && t.log.next < MAX_SEQUENCE && t.log.session.Some? && Next(t, op).log.session == t.log.session
    ensures Next(t, op).lost && !t.lost <==>
            !t.lost && ((op.OpCapture? && |t.log.entries| >= MAX_PENDING_RUNTIME_LOGS && t.log.entries[0] in Pending(t.log))
                        || (op.OpClear? && Pending(t.log) != []))
    ensures op.OpSync? ==> forall e :: e in Pending(t.log) ==> e in Next(t, op).archive || e in Pending(Next(t, op).log)
  {
    var k := AfterIsSuffix(t.log.entries, t.log.persisted);
    if |t.log.entries| > 0 && k > 0 {
      assert t.log.entries[0] !in t.log.entries[k..];
    }
    if op.OpSync? && op.marker.Ok? && (t.log.open || op.canOpen) {
      assert Adopt(t.log, op.marker.value) == t.log;
      var _ := FlushMoves(t.log.(open := true), op.budget);
      assert Pending(t.log.(open := true)) == Pending(t.log);
    }
  }

  /** Once the 64-bit sequence saturates and that value was written, nothing captured later is ever written. */
  lemma SaturatedSequenceStopsPersistence(l: Log, now: nat, text: string)
    requires l.next == MAX_SEQUENCE && l.persisted == MAX_SEQUENCE
    ensures Captured(MAX_SEQUENCE, now, text) in Capture(l, now, text).entries
    ensures Captured(MAX_SEQUENCE, now, text) !in Pending(Capture(l, now, text))
  {
    var m := Capture(l, now, text);
    assert m.entries[|m.entries| - 1] == Captured(MAX_SEQUENCE, now, text);
    AfterOnlyLater(m.entries, MAX_SEQUENCE);
  }

  lemma {:induction false} AfterOnlyLater(entries: seq<Captured>, sequence: nat)
    ensures forall e :: e in After(entries, sequence) ==> e.sequence > sequence
  {
    if entries != [] {
      AfterOnlyLater(entries[1..], sequence);
    }
  }

  // -------------------------------------------------------------- the buffer

  /** The archive file the open appender writes to; `budget` is how many more writes succeed. */
  class Archive {
    var lines: seq<Captured>
    var budget: nat

    constructor (n: nat)
      ensures lines == [] && budget == n
    {
      lines, budget := [], n;
    }

    method Write(e: Captured) returns (ok: bool)
      modifies this
      ensures ok == (old(budget) > 0)
      ensures lines == if ok then old(lines) + [e] else old(lines)
      ensures budget == if ok then old(budget) - 1 else 0
    {
      ok := budget > 0;
      if ok {
        lines, budget := lines + [e], budget - 1;
      }
    }
  }

  /** Appends the entries past `written`, up to the first failing write, and says how far it came. */
  method AppendNewer(archive: Archive, entries: seq<Captured>, written: nat) returns (persisted: nat)
    modifies archive
    ensures var out := FirstPending(entries, written, old(archive.budget));
            archive.lines == old(archive.lines) + out && persisted == LastSequence(out, written)
  {
    ghost var out := FirstPending(entries, written, archive.budget);
    ghost var done: seq<Captured> := [];
    var rest := entries;
    persisted := written;
    LastOne(done, written);
    assert WillWrite(out, done, rest, written, archive.budget);
    hide FirstPending, LastSequence, WillWrite;
    while rest != []
      invariant WillWrite(out, done, rest, written, archive.budget)
      invariant archive.lines == old(archive.lines) + done
      invariant persisted == LastSequence(done, written)
      decreases |rest|
    {
      if rest[0].sequence > written {
        ghost var budget := archive.budget;
        var ok := archive.Write(rest[0]);
        if !ok {
          break;
        }
        persisted := rest[0].sequence;
        WriteNext(out, done, rest, written, budget);
        done := done + [rest[0]];
        LastOne(done, written);
      } else {
        SkipWritten(out, done, rest, written, archive.budget);
      }
      rest := rest[1..];
    }
    NothingMore(out, done, rest, written, archive.budget);
  }

  class RuntimeLogBuffer {
    var session: Option<Session>
    var open: bool
    var entries: seq<Captured>
    var nextSequence: nat
    var persistedSequence: nat

    function View(): Log
      reads this
    {
      Log(session, open, entries, nextSequence, persistedSequence)
    }

    constructor ()
      ensures View() == EMPTY
    {
      session, open, entries, nextSequence, persistedSequence := None, false, [], 1, 0;
    }

    /** capture. */
    method CaptureEntry(now: nat, text: string)
      modifies this`entries, this`nextSequence
      ensures View() == Capture(old(View()), now, text)
    {
      if |entries| >= MAX_PENDING_RUNTIME_LOGS {
        entries := entries[1..];
      }
      var sequence := nextSequence;
      nextSequence := if nextSequence >= MAX_SEQUENCE then nextSequence else nextSequence + 1;
      entries := entries + [Captured(sequence, now, text)];
    }

    /** clear. */
    method ClearEntries()
      modifies this`entries, this`persistedSequence
      ensures View() == Clear(old(View()))
    {
      entries, persistedSequence := [], 0;
    }

    method Retain(start: nat)
      modifies this`entries
      ensures entries == Since(old(entries), start)
    {
      var kept: seq<Captured> := [];
      for i := 0 to |entries|
        invariant entries == old(entries) && kept + Since(entries[i..], start) == Since(entries, start)
      {
        assert entries[i..][1..] == entries[i + 1..];
        if entries[i].capturedAt >= start {
          kept := kept + [entries[i]];
        }
      }
      entries := kept;
    }

    /** The write loop of sync: it stops at the first failure and remembers how far it came. */
    method WritePending(archive: Archive)
      modifies this`persistedSequence, archive
      ensures var (l, out) := Flush(old(View()), old(archive.budget));
              archive.lines == old(archive.lines) + out && persistedSequence == l.persisted
    {
      FlushIsFirst(View(), archive.budget);
      hide Flush, FirstPending, LastSequence;
      persistedSequence := AppendNewer(archive, entries, persistedSequence);
    }

    method TrimPersisted()
      modifies this`entries
      ensures entries == Trim(old(entries), persistedSequence)
    {
      while |entries| > MAX_IN_MEMORY_LOGS && entries[0].sequence <= persistedSequence
        invariant Trim(entries, persistedSequence) == Trim(old(entries), persistedSequence)
        decreases |entries|
      {
        entries := entries[1..];
      }
    }

    /** sync. */
    method SyncTo(archive: Archive, marker: Result<Option<Session>, ()>, canOpen: bool)
      modifies this, archive
      ensures var (l, out) := Sync(old(View()), marker, canOpen, old(archive.budget));
              View() == l && archive.lines == old(archive.lines) + out
    {
      if marker.Err? {
        return;
      }
      if marker.value != session {
        if marker.value.Some? {
          Retain(marker.value.value.startedAt);
        }
        persistedSequence, open, session := 0, false, marker.value;
      }
      if session.None? {
        entries, persistedSequence, open := [], 0, false;
        return;
      }
      if !open {
        open := canOpen;
      }
      if !open {
        return;
      }
      ghost var adopted := Adopt(old(View()), marker.value).(open := true);
      assert View() == adopted;
      FlushTrims(adopted, archive.budget);
      hide Since, After, Flush, Trim;
      WritePending(archive);
      TrimPersisted();
    }
  }
}
