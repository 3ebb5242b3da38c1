/** The timestamp mailbox of the send and receive hooks (latency.probe, probes recv_latency and
    send_timestamp_message), as a transition system over every interleaving of one writer thread
    and any number of receiver threads on one (source, vblock) slot.

    Memory is sequentially consistent and the 16-byte v2 load and store are atomic; the writer's
    two 8-byte stores are separate steps. The slot starts zeroed and is never reset between
    launches, so one run covers any number of launches and run ids. */
module Mailbox {
  import opened Limits
  import opened Words
  import opened MailboxWords

  datatype Slot = Slot(x: Word, y: Word)

  const EmptySlot := Slot(0, 0)

  // One execution of the send hook: the tag it stores last and the root-clock time it stores first.
  datatype Send = Send(tag: Word, time: Word)

  // What one receive hook holds once its poll has matched: its own step, run id and start time,
  // the pair it loaded and the polls it missed. `matched` and `overlap` are history that the code
  // does not keep: the number of the last send whose tag was stored, and whether the send after
  // it was between its two stores at that load.
  datatype Hit = Hit(step: Word, runId: RunId, now: Word, seen: Slot, misses: nat, matched: int, overlap: bool)
  {
    // The flag of the saved row: a zero time field, or at most one missed poll.
    predicate Invalid() {
      seen.y == 0 || misses <= 1
    }
  }

  datatype Receiver =
    | Resting
    | Polling(step: Word, runId: RunId, now: Word, misses: nat)
    | Matched(hit: Hit)
    | Cleared(hit: Hit)

  datatype Row = Row(reader: nat, hit: Hit)

  // `sends` lists the sends whose time store has happened; the last one still lacks its tag store
  // when `between` holds. `hurt` collects the sends that had a clear land between their stores.
  datatype State = State(slot: Slot, sends: seq<Send>, between: bool, hurt: set<int>,
                         receivers: map<nat, Receiver>, rows: seq<Row>)
  {
    // The number of sends whose tag store has happened.
    function Tagged(): int {
      if between then |sends| - 1 else |sends|
    }

    function Thread(r: nat): Receiver {
      if r in receivers then receivers[r] else Resting
    }
  }

  const Start := State(EmptySlot, [], false, {}, map[], [])

  datatype Action =
    | StoreTime(step: Word, runId: RunId, time: Word)
    | StoreTag
    | Begin(r: nat, wantStep: Word, wantRun: RunId, now: Word)
    | Poll(r: nat)
    | Clear(r: nat)
    | Save(r: nat)

  predicate Enabled(s: State, a: Action) {
    match a
    case StoreTime(_, _, _) => !s.between
    case StoreTag => s.between && s.sends != []
    case Begin(r, _, _, _) => s.Thread(r).Resting?
    case Poll(r) => s.Thread(r).Polling?
    case Clear(r) => s.Thread(r).Matched?
    case Save(r) => s.Thread(r).Cleared?
  }

  function Apply(s: State, a: Action): State
    requires Enabled(s, a)
  {
    match a
    case StoreTime(step, runId, time) =>
      s.(slot := s.slot.(y := time), sends := s.sends + [Send(Tag(step, runId), time)], between := true)
    case StoreTag =>
      s.(slot := s.slot.(x := s.sends[|s.sends| - 1].tag), between := false)
    case Begin(r, step, runId, now) =>
      s.(receivers := s.receivers[r := Polling(step, runId, now, 0)])
    case Poll(r) =>
      s.(receivers := s.receivers[r := AfterPoll(s, s.Thread(r))])
    case Clear(r) =>
      s.(slot := EmptySlot,
         hurt := if s.between then s.hurt + {|s.sends| - 1} else s.hurt,
         receivers := s.receivers[r := Cleared(s.Thread(r).hit)])
    case Save(r) =>
      s.(rows := s.rows + [Row(r, s.Thread(r).hit)], receivers := s.receivers[r := Resting])
  }

  // One atomic load of the slot: a match, a counted miss, or giving up at the poll limit.
  function AfterPoll(s: State, t: Receiver): Receiver
    requires t.Polling?
  {
    if s.slot.x == Tag(t.step, t.runId) then
      Matched(Hit(t.step, t.runId, t.now, s.slot, t.misses, s.Tagged() - 1, s.between))
    else if t.misses + 1 < POLL_LIMIT then
      t.(misses := t.misses + 1)
    else
      Resting
  }

  // A run is a list of actions, each enabled when its turn comes.
  predicate Legal(acts: seq<Action>)
    decreases |acts|, 0
  {
    acts == [] || (Legal(acts[..|acts| - 1]) && Enabled(After(acts[..|acts| - 1]), acts[|acts| - 1]))
  }

  function After(acts: seq<Action>): State
    requires Legal(acts)
    decreases |acts|, 1
  {
    if acts == [] then Start else Apply(After(acts[..|acts| - 1]), acts[|acts| - 1])
  }

  // --- What every reachable state satisfies ---

  // The tag field is empty or holds the last stored tag. The time field belongs to the last
  // finished send, or to the one in progress, unless a clear wiped it.
  ghost predicate SlotInv(s: State) {
    && (s.between ==> s.sends != [])
    && (forall i :: 0 <= i < |s.sends| ==> s.sends[i].tag != 0)
    && (s.slot.x != 0 ==> s.Tagged() > 0 && s.slot.x == s.sends[s.Tagged() - 1].tag)
    && (s.slot.y != 0 ==> s.sends != [] && s.slot.y == s.sends[|s.sends| - 1].time)
    && (!s.between && s.slot.x == 0 ==> s.slot.y == 0)
    && (s.between && s.slot.x != 0 ==> s.slot.y == s.sends[|s.sends| - 1].time && |s.sends| - 1 !in s.hurt)
    && (|s.sends| - 1 in s.hurt ==> s.slot.y == 0)
    && (forall i :: i in s.hurt ==> 0 <= i < |s.sends|)
  }

  // A matched hook holds the tag of the send numbered `matched`; its time is that of the next send
  // when the load overlapped it, and otherwise its own time or zero.
  ghost predicate HitInv(s: State, h: Hit) {
    && 0 <= h.matched < s.Tagged()
    && h.seen.x == Tag(h.step, h.runId) == s.sends[h.matched].tag
    && h.misses < POLL_LIMIT
    && (h.overlap ==> h.matched + 1 < |s.sends| && h.seen.y == s.sends[h.matched + 1].time)
    && (!h.overlap ==> h.seen.y == 0 || h.seen.y == s.sends[h.matched].time)
    && (!h.overlap && h.matched in s.hurt ==> h.seen.y == 0)
  }

  ghost predicate HitsInv(s: State) {
    && (forall r :: r in s.receivers && s.receivers[r].Polling? ==> s.receivers[r].misses < POLL_LIMIT)
    && (forall r :: r in s.receivers && s.receivers[r].Matched? ==> HitInv(s, s.receivers[r].hit))
    && (forall r :: r in s.receivers && s.receivers[r].Cleared? ==> HitInv(s, s.receivers[r].hit))
    && (forall i :: 0 <= i < |s.rows| ==> HitInv(s, s.rows[i].hit))
  }

  // The send a row consumed lies before the one its reader holds, or before the tag now visible to it.
  ghost predicate Behind(s: State, row: Row) {
    match s.Thread(row.reader)
    case Matched(h) => row.hit.matched < h.matched
    case Cleared(h) => row.hit.matched < h.matched
    case _ => s.slot.x != 0 ==> row.hit.matched < s.Tagged() - 1
  }

  ghost predicate ClearedBehind(s: State, t: Receiver) {
    t.Cleared? && s.slot.x != 0 ==> t.hit.matched < s.Tagged() - 1
  }

  ghost predicate OrderInv(s: State) {
    && (forall i, j :: 0 <= i < j < |s.rows| && s.rows[i].reader == s.rows[j].reader
          ==> s.rows[i].hit.matched < s.rows[j].hit.matched)
    && (forall i :: 0 <= i < |s.rows| ==> Behind(s, s.rows[i]))
    && (forall r :: r in s.receivers ==> ClearedBehind(s, s.receivers[r]))
  }

  lemma SlotStep(s: State, a: Action)
    requires SlotInv(s) && Enabled(s, a)
    ensures SlotInv(Apply(s, a))
  {
    match a
    case StoreTime(step, runId, time) => TagFields(step, runId);
    case _ =>
  }

  // Later steps never disturb what a hit says.
  lemma HitKept(s: State, a: Action, h: Hit)
    requires SlotInv(s) && Enabled(s, a) && HitInv(s, h)
    ensures HitInv(Apply(s, a), h)
  {
  }

  // A poll that matches saw the tag of the last finished send.
  lemma MatchIsLastFinished(s: State, a: Action)
    requires SlotInv(s) && HitsInv(s) && a.Poll? && Enabled(s, a) && AfterPoll(s, s.Thread(a.r)).Matched?
    ensures HitInv(s, AfterPoll(s, s.Thread(a.r)).hit)
  {
    TagFields(s.Thread(a.r).step, s.Thread(a.r).runId);
  }

  lemma HitsStep(s: State, a: Action)
    requires SlotInv(s) && HitsInv(s) && Enabled(s, a)
    ensures HitsInv(Apply(s, a))
  {
    var t := Apply(s, a);
    forall h | HitInv(s, h) ensures HitInv(t, h) {
      HitKept(s, a, h);
    }
    if a.Poll? && AfterPoll(s, s.Thread(a.r)).Matched? {
      MatchIsLastFinished(s, a);
    }
  }

  lemma BehindKept(s: State, a: Action, row: Row)
    requires SlotInv(s) && Enabled(s, a) && HitInv(s, row.hit) && Behind(s, row)
    requires ClearedBehind(s, s.Thread(row.reader))
    ensures Behind(Apply(s, a), row)
  {
    if a.Poll? {
      TagFields(s.Thread(a.r).step, s.Thread(a.r).runId);
    }
  }

  lemma ClearedKept(s: State, a: Action)
    requires SlotInv(s) && HitsInv(s) && Enabled(s, a)
    requires forall r :: r in s.receivers ==> ClearedBehind(s, s.receivers[r])
    ensures forall r :: r in Apply(s, a).receivers ==> ClearedBehind(Apply(s, a), Apply(s, a).receivers[r])
  {
  }

  lemma OrderStep(s: State, a: Action)
    requires SlotInv(s) && HitsInv(s) && OrderInv(s) && Enabled(s, a)
    ensures OrderInv(Apply(s, a))
  {
    var t := Apply(s, a);
    ClearedKept(s, a);
    forall i | 0 <= i < |s.rows| ensures Behind(t, s.rows[i]) {
      assert Behind(s, s.rows[i]);
      BehindKept(s, a, s.rows[i]);
    }
    if a.Save? {
      assert t.rows == s.rows + [Row(a.r, s.receivers[a.r].hit)];
      assert forall i :: 0 <= i < |s.rows| ==> Behind(s, s.rows[i]);
      assert ClearedBehind(s, s.receivers[a.r]);
    }
  }

  lemma {:induction false} Reachable(acts: seq<Action>)
    requires Legal(acts)
    ensures SlotInv(After(acts)) && HitsInv(After(acts)) && OrderInv(After(acts))
  {
    if acts != [] {
      var before, a := acts[..|acts| - 1], acts[|acts| - 1];
      Reachable(before);
      SlotStep(After(before), a);
      HitsStep(After(before), a);
      OrderStep(After(before), a);
    }
  }

  // --- Main results ---

  /** Whose time a row carries, over every run: the tag it matched was stored by send `matched`, the
      last one then finished; an unflagged row carries that send's time unless the next send was
      then between its stores, in which case it carries the next send's time. Never an older one. */
  lemma {:induction false} UnflaggedRowsCarryMatchedOrNextTime(acts: seq<Action>, i: nat)
    requires Legal(acts) && i < |After(acts).rows|
    ensures var s := After(acts); var h := s.rows[i].hit;
            && 0 <= h.matched < |s.sends|
            && s.sends[h.matched].tag == Tag(h.step, h.runId)
            && (!h.Invalid() && !h.overlap ==> h.seen.y == s.sends[h.matched].time && h.matched !in s.hurt)
            && (!h.Invalid() && h.overlap ==>
                  h.matched + 1 < |s.sends| && h.seen.y == s.sends[h.matched + 1].time)
  {
    Reachable(acts);
    assert HitInv(After(acts), After(acts).rows[i].hit);
  }

  /** Each receiver thread consumes sends in order, and no send twice, whatever the other threads do. */
  lemma {:induction false} RowsOfOneReaderAdvance(acts: seq<Action>, i: nat, j: nat)
    requires Legal(acts) && i < j < |After(acts).rows|
    requires After(acts).rows[i].reader == After(acts).rows[j].reader
    ensures After(acts).rows[i].hit.matched < After(acts).rows[j].hit.matched
  {
    Reachable(acts);
  }

  /** What a clear between the two stores of a send does, in every run. A row that matched such a send is flagged if the
      load did not overlap the next send. If it did, the row carries the next send's time, and is flagged exactly if
      that time is zero or the hook missed at most one poll. */
  lemma {:induction false} HurtRowsAreFlaggedUnlessOverlapped(acts: seq<Action>, i: nat)
    requires Legal(acts) && i < |After(acts).rows| && After(acts).rows[i].hit.matched in After(acts).hurt
    ensures var s := After(acts); var h := s.rows[i].hit;
            && (h.overlap ==> 0 <= h.matched + 1 < |s.sends| && h.seen.y == s.sends[h.matched + 1].time)
            && (h.Invalid() <==> !h.overlap || h.misses <= 1 || s.sends[h.matched + 1].time == 0)
  {
    Reachable(acts);
    assert HitInv(After(acts), After(acts).rows[i].hit);
  }

  // The flow control a channel can offer: no send starts before the previous message is cleared.
  predicate Paced(acts: seq<Action>)
    requires Legal(acts)
  {
    acts == [] ||
    (Paced(acts[..|acts| - 1]) &&
     (acts[|acts| - 1].StoreTime? ==> After(acts[..|acts| - 1]).slot.x == 0))
  }

  ghost predicate NoOverlap(s: State) {
    && (s.between ==> s.slot.x == 0)
    && (forall r :: r in s.receivers && s.receivers[r].Matched? ==> !s.receivers[r].hit.overlap)
    && (forall r :: r in s.receivers && s.receivers[r].Cleared? ==> !s.receivers[r].hit.overlap)
    && (forall i :: 0 <= i < |s.rows| ==> !s.rows[i].hit.overlap)
  }

  lemma {:induction false} PacedRunsDoNotOverlap(acts: seq<Action>)
    requires Legal(acts) && Paced(acts)
    ensures NoOverlap(After(acts))
  {
    if acts != [] {
      var before, a := acts[..|acts| - 1], acts[|acts| - 1];
      PacedRunsDoNotOverlap(before);
      if a.Poll? {
        TagFields(After(before).Thread(a.r).step, After(before).Thread(a.r).runId);
      }
    }
  }

  /** With paced sends every unflagged row carries exactly the time of the send whose tag it matched,
      and a send that had a clear land between its two stores only ever yields flagged rows. */
  lemma {:induction false} PacedRowsAreExact(acts: seq<Action>, i: nat)
    requires Legal(acts) && Paced(acts) && i < |After(acts).rows|
    ensures var s := After(acts); var h := s.rows[i].hit;
            && 0 <= h.matched < |s.sends|
            && s.sends[h.matched].tag == Tag(h.step, h.runId)
            && (!h.Invalid() ==> h.seen.y == s.sends[h.matched].time)
            && (h.matched in s.hurt ==> h.Invalid())
  {
    UnflaggedRowsCarryMatchedOrNextTime(acts, i);
    PacedRunsDoNotOverlap(acts);
  }

  lemma Then(acts: seq<Action>, s: State, a: Action, t: State) returns (more: seq<Action>)
    requires Legal(acts) && After(acts) == s && Enabled(s, a) && Apply(s, a) == t
    ensures Legal(more) && After(more) == t
  {
    more := acts + [a];
    assert more[..|acts|] == acts;
  }

  const Send0 := Send(Tag(1, 0), 10)
  const Send1 := Send(Tag(2, 0), 20)
  const Send2 := Send(Tag(3, 0), 30)
  const Hit0 := Hit(1, 0, 0, Slot(Tag(1, 0), 10), 2, 0, false)
  const Hit1 := Hit(2, 0, 0, Slot(Tag(2, 0), 30), 2, 1, true)

  // Two polls in vain for the tag of one step.
  lemma TwoMisses(acts: seq<Action>, s: State, step: Word) returns (more: seq<Action>)
    requires Legal(acts) && After(acts) == s && s.slot == EmptySlot
    requires s.receivers == map[0 := Polling(step, 0, 0, 0)]
    ensures Legal(more) && After(more) == s.(receivers := map[0 := Polling(step, 0, 0, 2)])
  {
    TagFields(step, 0);
    var once := s.(receivers := map[0 := Polling(step, 0, 0, 1)]);
    more := Then(acts, s, Poll(0), once);
    more := Then(more, once, Poll(0), s.(receivers := map[0 := Polling(step, 0, 0, 2)]));
  }

  // A match, a clear and a save by receiver 0.
  lemma Consume(acts: seq<Action>, s: State, h: Hit) returns (more: seq<Action>)
    requires Legal(acts) && After(acts) == s
    requires s.receivers == map[0 := Matched(h)]
    ensures Legal(more) && After(more) == s.(
      slot := EmptySlot, receivers := map[0 := Resting], rows := s.rows + [Row(0, h)],
      hurt := if s.between then s.hurt + {|s.sends| - 1} else s.hurt)
  {
    var c := Apply(s, Clear(0));
    more := Then(acts, s, Clear(0), c);
    assert c.Thread(0) == Cleared(h);
    more := Then(more, c, Save(0), Apply(c, Save(0)));
    assert Apply(c, Save(0)).receivers == map[0 := Resting];
  }

  // Send 0 was matched in time; send 1 has stored its time but not its tag; then send 0 is cleared.
  const LateClear := State(EmptySlot, [Send0, Send1], true, {1}, map[0 := Resting], [Row(0, Hit0)])

  // Send 0 is in the slot and receiver 0 polls for it.
  const Sent0 := State(Slot(Tag(1, 0), 10), [Send0], false, {}, map[0 := Polling(1, 0, 0, 2)], [])

  lemma Sent0Happens() returns (acts: seq<Action>)
    ensures Legal(acts) && After(acts) == Sent0
  {
    var s0 := Start.(receivers := map[0 := Polling(1, 0, 0, 0)]);
    acts := Then([], Start, Begin(0, 1, 0, 0), s0);
    acts := TwoMisses(acts, s0, 1);
    var s1 := Sent0.(slot := Slot(0, 10), between := true);
    acts := Then(acts, Start.(receivers := Sent0.receivers), StoreTime(1, 0, 10), s1);
    acts := Then(acts, s1, StoreTag, Sent0);
  }

  lemma LateClearHappens() returns (acts: seq<Action>)
    ensures Legal(acts) && After(acts) == LateClear
  {
    acts := Sent0Happens();
    var s0 := Sent0.(receivers := map[0 := Matched(Hit0)]);
    acts := Then(acts, Sent0, Poll(0), s0);
    var s1 := s0.(slot := Slot(Tag(1, 0), 20), sends := [Send0, Send1], between := true);
    acts := Then(acts, s0, StoreTime(2, 0, 20), s1);
    acts := Consume(acts, s1, Hit0);
  }

  /** Pacing is needed: in this run a clear wipes the time of send 1 between its stores, send 2 then
      stores its own time under the still visible tag of send 1, and the row matched to send 1 is
      unflagged although it carries the time of send 2. */
  lemma UnpacedClearCanLookValid() returns (acts: seq<Action>)
    ensures Legal(acts)
    ensures var s := After(acts);
            && |s.rows| == 2 && |s.sends| == 3 && s.rows[1].hit.matched == 1 && 1 in s.hurt
            && !s.rows[1].hit.Invalid() && s.rows[1].hit.seen.y != s.sends[1].time
  {
    acts := LateClearHappens();
    var waiting := map[0 := Polling(2, 0, 0, 2)];
    var s0 := LateClear.(receivers := map[0 := Polling(2, 0, 0, 0)]);
    acts := Then(acts, LateClear, Begin(0, 2, 0, 0), s0);
    acts := TwoMisses(acts, s0, 2);
    var s1 := LateClear.(receivers := waiting);
    var s2 := s1.(slot := Slot(Tag(2, 0), 0), between := false);
    acts := Then(acts, s1, StoreTag, s2);
    var s3 := s2.(slot := Slot(Tag(2, 0), 30), sends := [Send0, Send1, Send2], between := true);
    acts := Then(acts, s2, StoreTime(3, 0, 30), s3);
    var s4 := s3.(receivers := map[0 := Matched(Hit1)]);
    acts := Then(acts, s3, Poll(0), s4);
    acts := Consume(acts, s4, Hit1);
  }
}
