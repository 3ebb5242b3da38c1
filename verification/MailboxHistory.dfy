/** The rows of a mailbox run told by its actions alone: which hook started and polled for a row, when it matched, and
    which stores and clears that row met. */
module MailboxHistory {
  import opened Words
  import opened MailboxWords
  import opened Mailbox

  // --- Counting actions ---

  function TimeStores(acts: seq<Action>): nat {
    if acts == [] then 0 else TimeStores(acts[..|acts| - 1]) + if acts[|acts| - 1].StoreTime? then 1 else 0
  }

  function TagStores(acts: seq<Action>): nat {
    if acts == [] then 0 else TagStores(acts[..|acts| - 1]) + if acts[|acts| - 1].StoreTag? then 1 else 0
  }

  function Polls(acts: seq<Action>, r: nat): nat {
    if acts == [] then 0 else Polls(acts[..|acts| - 1], r) + if acts[|acts| - 1] == Poll(r) then 1 else 0
  }

  function Saves(acts: seq<Action>): nat {
    if acts == [] then 0 else Saves(acts[..|acts| - 1]) + if acts[|acts| - 1].Save? then 1 else 0
  }

  predicate Begins(a: Action, r: nat) {
    a.Begin? && a.r == r
  }

  // What is in the slot when action i is taken.
  ghost predicate SlotAt(acts: seq<Action>, i: nat, slot: Slot) {
    i <= |acts| && Legal(acts[..i]) && After(acts[..i]).slot == slot
  }

  // Poll j finds another tag than the awaited one.
  ghost predicate Misses(acts: seq<Action>, j: nat, tag: Word) {
    exists slot :: SlotAt(acts, j, slot) && slot.x != tag
  }

  // --- One hook ---

  ghost predicate NoBegin(acts: seq<Action>, k: nat, n: nat, r: nat)
    requires n <= |acts|
  {
    forall j :: k < j < n ==> !Begins(acts[j], r)
  }

  // Reader r began its hook at k, and before p has only polled, in vain.
  ghost predicate Waited(acts: seq<Action>, k: nat, p: nat, r: nat, step: Word, runId: RunId, now: Word, misses: nat) {
    && k < p <= |acts| && acts[k] == Begin(r, step, runId, now) && NoBegin(acts, k, p, r)
    && (forall j :: k < j < p && acts[j] == Poll(r) ==> Misses(acts, j, Tag(step, runId)))
    && Polls(acts[..p], r) == Polls(acts[..k], r) + misses
  }

  // It then matched at p: the pair it loaded, the last send that had stored its tag, and whether the next one had
  // stored its time.
  ghost predicate Met(acts: seq<Action>, k: nat, p: nat, r: nat, h: Hit) {
    && Waited(acts, k, p, r, h.step, h.runId, h.now, h.misses)
    && p < |acts| && acts[p] == Poll(r) && SlotAt(acts, p, h.seen) && h.seen.x == Tag(h.step, h.runId)
    && h.matched == TagStores(acts[..p]) - 1
    && (h.overlap <==> TimeStores(acts[..p]) > TagStores(acts[..p]))
  }

  // And has not begun another hook before n.
  ghost predicate Held(acts: seq<Action>, k: nat, p: nat, n: nat, r: nat, h: Hit) {
    Met(acts, k, p, r, h) && p < n <= |acts| && NoBegin(acts, k, n, r)
  }

  ghost predicate Polled(acts: seq<Action>, r: nat, step: Word, runId: RunId, now: Word, misses: nat) {
    exists k: nat :: Waited(acts, k, |acts|, r, step, runId, now, misses)
  }

  ghost predicate Holds(acts: seq<Action>, r: nat, h: Hit) {
    exists k: nat, p: nat :: Held(acts, k, p, |acts|, r, h)
  }

  // Row i is the one saved at v.
  ghost predicate SavedAt(acts: seq<Action>, k: nat, p: nat, v: nat, i: nat, row: Row) {
    && Held(acts, k, p, v, row.reader, row.hit)
    && v < |acts| && acts[v] == Save(row.reader) && Saves(acts[..v]) == i
  }

  ghost predicate RowTold(acts: seq<Action>, i: nat, row: Row) {
    exists k: nat, p: nat, v: nat :: SavedAt(acts, k, p, v, i, row)
  }

  ghost predicate ThreadTold(acts: seq<Action>, r: nat, t: Receiver) {
    match t
    case Resting => true
    case Polling(step, runId, now, misses) => Polled(acts, r, step, runId, now, misses)
    case Matched(h) => Holds(acts, r, h)
    case Cleared(h) => Holds(acts, r, h)
  }

  // --- The sends ---

  // Send n stored its time at e.
  ghost predicate SentAt(acts: seq<Action>, e: nat, n: nat, send: Send) {
    && e < |acts| && acts[e].StoreTime? && TimeStores(acts[..e]) == n
    && send == Send(Tag(acts[e].step, acts[e].runId), acts[e].time)
  }

  ghost predicate SendTold(acts: seq<Action>, n: nat, send: Send) {
    exists e: nat :: SentAt(acts, e, n, send)
  }

  // A clear landed at c between the two stores of send n.
  ghost predicate HurtAt(acts: seq<Action>, c: nat, n: int) {
    c < |acts| && acts[c].Clear? && TimeStores(acts[..c]) == n + 1 && TagStores(acts[..c]) == n
  }

  ghost predicate HurtTold(acts: seq<Action>, n: int) {
    exists c: nat :: HurtAt(acts, c, n)
  }

  ghost predicate CountsTold(acts: seq<Action>)
    requires Legal(acts)
  {
    var s := After(acts);
    && |s.rows| == Saves(acts) && |s.sends| == TimeStores(acts) && s.Tagged() == TagStores(acts)
  }

  // --- One more action ---

  lemma {:induction false} AfterOne(acts: seq<Action>, a: Action)
    requires Legal(acts + [a])
    ensures Legal(acts) && Enabled(After(acts), a) && After(acts + [a]) == Apply(After(acts), a)
  {
    hide Apply, Enabled;
    assert (acts + [a])[..|acts + [a]| - 1] == acts;
  }

  lemma {:induction false} CountsOne(acts: seq<Action>, a: Action, r: nat)
    ensures TimeStores(acts + [a]) == TimeStores(acts) + if a.StoreTime? then 1 else 0
    ensures TagStores(acts + [a]) == TagStores(acts) + if a.StoreTag? then 1 else 0
    ensures Polls(acts + [a], r) == Polls(acts, r) + if a == Poll(r) then 1 else 0
    ensures Saves(acts + [a]) == Saves(acts) + if a.Save? then 1 else 0
  {
    assert (acts + [a])[..|acts + [a]| - 1] == acts;
  }

  lemma Front(acts: seq<Action>, a: Action, i: nat)
    requires i <= |acts|
    ensures (acts + [a])[..i] == acts[..i]
  {
  }

  lemma ApplyCounts(s: State, a: Action)
    requires Enabled(s, a)
    ensures var t := Apply(s, a);
            && |t.rows| == |s.rows| + (if a.Save? then 1 else 0)
            && |t.sends| == |s.sends| + (if a.StoreTime? then 1 else 0)
            && t.Tagged() == s.Tagged() + (if a.StoreTag? then 1 else 0)
  {
  }

  lemma {:induction false} CountsStep(acts: seq<Action>, a: Action)
    requires Legal(acts + [a]) && (Legal(acts) ==> CountsTold(acts))
    ensures CountsTold(acts + [a])
  {
    hide Legal, After, Apply, Enabled, TimeStores, TagStores, Saves, State.Tagged;
    AfterOne(acts, a);
    CountsOne(acts, a, 0);
    ApplyCounts(After(acts), a);
  }

  lemma MissesStays(acts: seq<Action>, a: Action, j: nat, tag: Word)
    requires Misses(acts, j, tag)
    ensures Misses(acts + [a], j, tag)
  {
    hide Legal, After;
    var slot :| SlotAt(acts, j, slot) && slot.x != tag;
    Front(acts, a, j);
    assert SlotAt(acts + [a], j, slot);
  }

  lemma WaitedStays(acts: seq<Action>, a: Action, k: nat, p: nat, r: nat, step: Word, runId: RunId, now: Word,
                    misses: nat)
    requires Waited(acts, k, p, r, step, runId, now, misses)
    ensures Waited(acts + [a], k, p, r, step, runId, now, misses)
  {
    hide Misses, Polls;
    Front(acts, a, k);
    Front(acts, a, p);
    forall j | k < j < p && (acts + [a])[j] == Poll(r) ensures Misses(acts + [a], j, Tag(step, runId)) {
      MissesStays(acts, a, j, Tag(step, runId));
    }
  }

  lemma MetStays(acts: seq<Action>, a: Action, k: nat, p: nat, r: nat, h: Hit)
    requires Met(acts, k, p, r, h)
    ensures Met(acts + [a], k, p, r, h)
  {
    hide Waited, Legal, After, TagStores, TimeStores;
    WaitedStays(acts, a, k, p, r, h.step, h.runId, h.now, h.misses);
    Front(acts, a, p);
  }

  lemma HeldStays(acts: seq<Action>, a: Action, k: nat, p: nat, n: nat, r: nat, h: Hit)
    requires Held(acts, k, p, n, r, h)
    ensures Held(acts + [a], k, p, n, r, h)
  {
    hide Met;
    MetStays(acts, a, k, p, r, h);
  }

  lemma HoldsStays(acts: seq<Action>, a: Action, r: nat, h: Hit)
    requires Holds(acts, r, h) && !Begins(a, r)
    ensures Holds(acts + [a], r, h)
  {
    hide Met;
    var k: nat, p: nat :| Held(acts, k, p, |acts|, r, h);
    HeldStays(acts, a, k, p, |acts|, r, h);
    assert Held(acts + [a], k, p, |acts + [a]|, r, h);
  }

  lemma RowStays(acts: seq<Action>, a: Action, i: nat, row: Row)
    requires RowTold(acts, i, row)
    ensures RowTold(acts + [a], i, row)
  {
    hide Held, Saves;
    var k: nat, p: nat, v: nat :| SavedAt(acts, k, p, v, i, row);
    HeldStays(acts, a, k, p, v, row.reader, row.hit);
    Front(acts, a, v);
    assert SavedAt(acts + [a], k, p, v, i, row);
  }

  // --- The hook of one reader, action by action ---

  lemma BeginTold(acts: seq<Action>, r: nat, step: Word, runId: RunId, now: Word)
    ensures Polled(acts + [Begin(r, step, runId, now)], r, step, runId, now, 0)
  {
    var a := Begin(r, step, runId, now);
    var more := acts + [a];
    CountsOne(acts, a, r);
    Front(acts, a, |acts|);
    hide Polls;
    assert more[..|more|] == more && more[..|acts|] == acts;
    assert Waited(more, |acts|, |more|, r, step, runId, now, 0);
  }

  // A poll in vain counts, and what others do does not.
  lemma {:induction false} WaitGoesOn(acts: seq<Action>, a: Action, r: nat, step: Word, runId: RunId, now: Word,
                                      misses: nat)
    requires Polled(acts, r, step, runId, now, misses) && !Begins(a, r)
    requires a == Poll(r) ==> Legal(acts) && After(acts).slot.x != Tag(step, runId)
    ensures Polled(acts + [a], r, step, runId, now, if a == Poll(r) then misses + 1 else misses)
  {
    hide Polls, Legal, After, Tag;
    var more := acts + [a];
    var k: nat :| Waited(acts, k, |acts|, r, step, runId, now, misses);
    WaitedStays(acts, a, k, |acts|, r, step, runId, now, misses);
    CountsOne(acts, a, r);
    Front(acts, a, |acts|);
    assert acts[..|acts|] == acts && more[..|more|] == more;
    if a == Poll(r) {
      assert SlotAt(more, |acts|, After(acts).slot);
      assert Misses(more, |acts|, Tag(step, runId));
    }
    assert forall j :: k < j < |more| && more[j] == Poll(r) ==> Misses(more, j, Tag(step, runId));
    assert Waited(more, k, |more|, r, step, runId, now, if a == Poll(r) then misses + 1 else misses);
  }

  lemma {:induction false} MatchTold(acts: seq<Action>, r: nat, h: Hit)
    requires Polled(acts, r, h.step, h.runId, h.now, h.misses)
    requires Legal(acts) && CountsTold(acts) && After(acts).slot == h.seen && h.seen.x == Tag(h.step, h.runId)
    requires h.matched == After(acts).Tagged() - 1 && h.overlap == After(acts).between
    ensures Holds(acts + [Poll(r)], r, h)
  {
    hide Legal, After, Tag, Polls, Misses;
    var a, more := Poll(r), acts + [Poll(r)];
    var k: nat :| Waited(acts, k, |acts|, r, h.step, h.runId, h.now, h.misses);
    WaitedStays(acts, a, k, |acts|, r, h.step, h.runId, h.now, h.misses);
    Front(acts, a, |acts|);
    assert acts[..|acts|] == acts;
    assert Met(more, k, |acts|, r, h);
    assert Held(more, k, |acts|, |more|, r, h);
  }

  lemma {:induction false} ThreadStep(acts: seq<Action>, a: Action, r: nat)
    requires Legal(acts) && Enabled(After(acts), a) && CountsTold(acts) && ThreadTold(acts, r, After(acts).Thread(r))
    ensures ThreadTold(acts + [a], r, Apply(After(acts), a).Thread(r))
  {
    hide Legal, After, Tag, Polled, Holds, CountsTold;
    var s := After(acts);
    if a.Begin? && a.r == r {
      BeginTold(acts, r, a.wantStep, a.wantRun, a.now);
    } else {
      match s.Thread(r) {
        case Resting =>
        case Polling(step, runId, now, misses) =>
          if a == Poll(r) && s.slot.x == Tag(step, runId) {
            MatchTold(acts, r, AfterPoll(s, s.Thread(r)).hit);
          } else {
            WaitGoesOn(acts, a, r, step, runId, now, misses);
          }
        case Matched(h) => HoldsStays(acts, a, r, h);
        case Cleared(h) => HoldsStays(acts, a, r, h);
      }
    }
  }

  lemma {:induction false} SaveTold(acts: seq<Action>, row: Row)
    requires Holds(acts, row.reader, row.hit)
    ensures RowTold(acts + [Save(row.reader)], Saves(acts), row)
  {
    hide Met, Saves;
    var r, a, more := row.reader, Save(row.reader), acts + [Save(row.reader)];
    var k: nat, p: nat :| Held(acts, k, p, |acts|, r, row.hit);
    HeldStays(acts, a, k, p, |acts|, r, row.hit);
    Front(acts, a, |acts|);
    assert acts[..|acts|] == acts;
    assert SavedAt(more, k, p, |acts|, Saves(acts), row);
  }

  lemma SentStays(acts: seq<Action>, a: Action, n: nat, send: Send)
    requires SendTold(acts, n, send)
    ensures SendTold(acts + [a], n, send)
  {
    hide TimeStores;
    var e: nat :| SentAt(acts, e, n, send);
    Front(acts, a, e);
    assert SentAt(acts + [a], e, n, send);
  }

  lemma {:induction false} SendNow(acts: seq<Action>, a: Action)
    requires a.StoreTime?
    ensures SendTold(acts + [a], TimeStores(acts), Send(Tag(a.step, a.runId), a.time))
  {
    hide TimeStores;
    Front(acts, a, |acts|);
    assert acts[..|acts|] == acts;
    assert SentAt(acts + [a], |acts|, TimeStores(acts), Send(Tag(a.step, a.runId), a.time));
  }

  // Which sends a clear has hurt after one more action.
  lemma {:induction false} HurtOne(acts: seq<Action>, a: Action, n: int)
    ensures HurtTold(acts + [a], n) <==>
            HurtTold(acts, n) || (a.Clear? && TimeStores(acts) == n + 1 && TagStores(acts) == n)
  {
    hide TimeStores, TagStores;
    var more := acts + [a];
    Front(acts, a, |acts|);
    assert acts[..|acts|] == acts;
    if HurtTold(acts, n) {
      var c: nat :| HurtAt(acts, c, n);
      Front(acts, a, c);
      assert HurtAt(more, c, n);
    }
    if a.Clear? && TimeStores(acts) == n + 1 && TagStores(acts) == n {
      assert HurtAt(more, |acts|, n);
    }
    if HurtTold(more, n) {
      var c: nat :| HurtAt(more, c, n);
      if c < |acts| {
        Front(acts, a, c);
        assert HurtAt(acts, c, n);
      }
    }
  }

  // All that a run's state says of its actions.
  ghost predicate Tells(acts: seq<Action>)
    requires Legal(acts)
  {
    var s := After(acts);
    && CountsTold(acts)
    && (forall r :: 0 <= r ==> ThreadTold(acts, r, s.Thread(r)))
    && (forall i :: 0 <= i < |s.rows| ==> RowTold(acts, i, s.rows[i]))
    && (forall n :: 0 <= n < |s.sends| ==> SendTold(acts, n, s.sends[n]))
    && (forall n :: n in s.hurt <==> HurtTold(acts, n))
  }

  lemma {:induction false} RowsStep(acts: seq<Action>, a: Action, i: nat)
    requires Legal(acts) && Enabled(After(acts), a) && Tells(acts) && i < |Apply(After(acts), a).rows|
    ensures RowTold(acts + [a], i, Apply(After(acts), a).rows[i])
  {
    hide Legal, After, Holds, RowTold;
    var s := After(acts);
    if i < |s.rows| {
      RowStays(acts, a, i, s.rows[i]);
    } else {
      assert ThreadTold(acts, a.r, s.Thread(a.r));
      SaveTold(acts, Row(a.r, s.Thread(a.r).hit));
    }
  }

  lemma {:induction false} SendsStep(acts: seq<Action>, a: Action, n: nat)
    requires Legal(acts) && Enabled(After(acts), a) && Tells(acts) && n < |Apply(After(acts), a).sends|
    ensures SendTold(acts + [a], n, Apply(After(acts), a).sends[n])
  {
    hide Legal, After, SendTold, Tag;
    var s := After(acts);
    if n < |s.sends| {
      SentStays(acts, a, n, s.sends[n]);
    } else {
      SendNow(acts, a);
    }
  }

  lemma {:induction false} HurtStep(acts: seq<Action>, a: Action, n: int)
    requires Legal(acts) && Enabled(After(acts), a) && Tells(acts)
    ensures n in Apply(After(acts), a).hurt <==> HurtTold(acts + [a], n)
  {
    hide Legal, After, HurtTold, TimeStores, TagStores;
    HurtOne(acts, a, n);
  }

  lemma {:induction false} TellsStep(acts: seq<Action>, a: Action)
    requires Legal(acts + [a]) && (Legal(acts) ==> Tells(acts))
    ensures Tells(acts + [a])
  {
    AfterOne(acts, a);
    CountsStep(acts, a);
    forall r: nat ensures ThreadTold(acts + [a], r, After(acts + [a]).Thread(r)) {
      ThreadStep(acts, a, r);
    }
    forall i | 0 <= i < |After(acts + [a]).rows| ensures RowTold(acts + [a], i, After(acts + [a]).rows[i]) {
      RowsStep(acts, a, i);
    }
    forall n | 0 <= n < |After(acts + [a]).sends| ensures SendTold(acts + [a], n, After(acts + [a]).sends[n]) {
      SendsStep(acts, a, n);
    }
    forall n: int ensures n in After(acts + [a]).hurt <==> HurtTold(acts + [a], n) {
      HurtStep(acts, a, n);
    }
  }

  lemma {:induction false} RunsTell(acts: seq<Action>)
    requires Legal(acts)
    ensures Tells(acts)
  {
    if acts != [] {
      hide Tells, After;
      var front, a := acts[..|acts| - 1], acts[|acts| - 1];
      assert acts == front + [a];
      RunsTell(front);
      TellsStep(front, a);
    }
  }

  // --- Main results ---

  /** Every saved row is the record of one hook: its step, run id and start time are those of the reader's last begin
      before the load that matched, it counts the polls in vain in between, it holds the pair loaded, and row i is
      the i-th save. */
  lemma RowsTellTheirHook(acts: seq<Action>, i: nat) returns (k: nat, p: nat, v: nat)
    requires Legal(acts) && i < |After(acts).rows|
    ensures SavedAt(acts, k, p, v, i, After(acts).rows[i])
  {
    hide Legal, After, SavedAt;
    RunsTell(acts);
    var row := After(acts).rows[i];
    assert RowTold(acts, i, row);
    k, p, v :| SavedAt(acts, k, p, v, i, row);
  }

  /** A hook whose poll does not match gives up exactly if it is its 1048576th poll since its begin. */
  lemma HooksGiveUpAfterAllPolls(acts: seq<Action>, r: nat) returns (k: nat, misses: nat)
    requires Legal(acts) && After(acts).Thread(r).Polling?
    requires var t := After(acts).Thread(r); After(acts).slot.x != Tag(t.step, t.runId)
    ensures var t := After(acts).Thread(r);
            && Waited(acts, k, |acts|, r, t.step, t.runId, t.now, misses)
            && (Apply(After(acts), Poll(r)).Thread(r).Resting? <==> misses == 1048575)
  {
    hide Legal, After, Waited, Tag;
    Reachable(acts);
    RunsTell(acts);
    var t := After(acts).Thread(r);
    assert ThreadTold(acts, r, t);
    misses := t.misses;
    k :| Waited(acts, k, |acts|, r, t.step, t.runId, t.now, misses);
  }

  /** A send is hurt exactly if a clear was taken between its two stores. */
  lemma {:induction false} HurtSendsMetAClear(acts: seq<Action>, n: int)
    requires Legal(acts)
    ensures n in After(acts).hurt <==> exists c: nat :: HurtAt(acts, c, n)
  {
    hide Legal, After, HurtAt;
    RunsTell(acts);
    assert n in After(acts).hurt <==> HurtTold(acts, n);
  }

  lemma {:induction false} TimeStoresGrow(acts: seq<Action>, i: nat, j: nat)
    requires i <= j <= |acts|
    ensures TimeStores(acts[..i]) <= TimeStores(acts[..j])
  {
    if i < j {
      TimeStoresGrow(acts, i, j - 1);
      assert acts[..j][..j - 1] == acts[..j - 1];
    }
  }

  /** Whatever the interleaving, an unflagged row carries the time of the latest time store before its load. That is the
      send whose tag the row matched, or else the one after it, still without its tag. */
  lemma UnflaggedRowsCarryTheLatestStore(acts: seq<Action>, i: nat) returns (k: nat, p: nat, v: nat, e: nat)
    requires Legal(acts) && i < |After(acts).rows| && !After(acts).rows[i].hit.Invalid()
    ensures SavedAt(acts, k, p, v, i, After(acts).rows[i])
    ensures var h := After(acts).rows[i].hit;
            && e < p && acts[e].StoreTime? && TimeStores(acts[..e]) + 1 == TimeStores(acts[..p])
            && h.seen.y == acts[e].time
            && (if TagStores(acts[..p]) == TimeStores(acts[..p])
                then Tag(acts[e].step, acts[e].runId) == Tag(h.step, h.runId)
                else TagStores(acts[..p]) + 1 == TimeStores(acts[..p]))
  {
    hide Legal, After, TimeStores, TagStores, Waited, Tag;
    var s := After(acts);
    var h := s.rows[i].hit;
    k, p, v := RowsTellTheirHook(acts, i);
    UnflaggedRowsCarryMatchedOrNextTime(acts, i);
    RunsTell(acts);
    var n := if h.overlap then h.matched + 1 else h.matched;
    assert SendTold(acts, n, s.sends[n]);
    e :| SentAt(acts, e, n, s.sends[n]);
    CountsAt(acts, p);
    if p <= e {
      TimeStoresGrow(acts, p, e);
    }
  }

  // At every moment either all sends have stored their tag, or all but the last.
  lemma CountsAt(acts: seq<Action>, p: nat)
    requires p <= |acts| && Legal(acts[..p])
    ensures TagStores(acts[..p]) <= TimeStores(acts[..p]) <= TagStores(acts[..p]) + 1
  {
    hide Legal, After, TimeStores, TagStores;
    RunsTell(acts[..p]);
  }
}
