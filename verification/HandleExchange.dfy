/** The all-to-all handle exchange over a shared directory (latency.c): every rank writes its three handles to
    temporary files and renames each into place, then polls until it has read the files of all ranks. */
module HandleExchange {
  import opened Arithmetic

  const HANDLE_BYTES := 64
  const DEFAULT_TIMEOUT_MS := 120000
  const SLEEP_MS := 10

  type Byte = n: nat | n < 256
  type Handle = seq<Byte>

  datatype Kind = Leader | Follower | Mailbox
  datatype Slot = Slot(kind: Kind, rank: nat)

  // The handles that the ranks create.
  datatype World = World(leaders: seq<Handle>, followers: seq<Handle>, mailboxes: seq<Handle>) {
    ghost predicate Valid() {
      && |leaders| == |followers| == |mailboxes|
      && forall s: Slot :: s.rank < Size() ==> |Created(s)| == HANDLE_BYTES
    }

    function Size(): nat { |leaders| }

    // The handle that a rank made for itself.
    function Created(s: Slot): Handle {
      var table := match s.kind case Leader => leaders case Follower => followers case Mailbox => mailboxes;
      if s.rank < |table| then table[s.rank] else []
    }
  }

  // --- Publishing: all ranks, every interleaving ---

  // Files by their final name, and the temporary ones by the name they are meant for.
  datatype Directory = Directory(final: map<Slot, Handle>, temp: map<Slot, Handle>)

  // Where `write_fabric_handle_file` stands for one kind; a rank that fails gives up the exchange.
  datatype Stage = Closed | Open | Written
  datatype Writer = Writing(kind: Kind, stage: Stage) | Done | Failed

  datatype State = State(dir: Directory, writers: seq<Writer>)

  datatype Act =
    | Create                // fopen of the temporary file
    | Append(count: nat)    // some bytes of the handle reach the file
    | Close                 // fclose, after the whole handle
    | Rename
    | Fail                  // any call fails; the temporary file is unlinked

  function NextKind(kind: Kind): Writer {
    match kind
    case Leader => Writing(Follower, Closed)
    case Follower => Writing(Mailbox, Closed)
    case Mailbox => Done
  }

  // One call of rank r; an act that does not fit where the rank stands does nothing.
  function Step(w: World, s: State, r: nat, a: Act): (t: State)
    requires r < |s.writers|
    ensures |t.writers| == |s.writers|
  {
    match s.writers[r]
    case Writing(kind, stage) => (
      var slot, dir := Slot(kind, r), s.dir;
      if a.Fail? then State(dir.(temp := dir.temp - {slot}), s.writers[r := Failed])
      else match stage
        case Closed =>
          if a.Create? then State(dir.(temp := dir.temp[slot := []]), s.writers[r := Writing(kind, Open)]) else s
        case Open =>
          var sofar := if slot in dir.temp then |dir.temp[slot]| else 0;
          if a.Append? && sofar <= |w.Created(slot)| then
            State(dir.(temp := dir.temp[slot := w.Created(slot)[..Min(sofar + a.count, |w.Created(slot)|)]]), s.writers)
          else if a.Close? && sofar == HANDLE_BYTES then State(dir, s.writers[r := Writing(kind, Written)])
          else s
        case Written =>
          if a.Rename? && slot in dir.temp then
            State(Directory(dir.final[slot := dir.temp[slot]], dir.temp - {slot}), s.writers[r := NextKind(kind)])
          else s)
    case _ => s
  }

  datatype Event = Event(rank: nat, act: Act)

  // An empty directory and n ranks about to write.
  function Start(n: nat): (s: State)
    ensures |s.writers| == n
  {
    State(Directory(map[], map[]), seq(n, _ => Writing(Leader, Closed)))
  }

  function After(w: World, events: seq<Event>): (s: State)
    requires forall i :: 0 <= i < |events| ==> events[i].rank < w.Size()
    ensures |s.writers| == w.Size()
  {
    if events == [] then Start(w.Size())
    else Step(w, After(w, events[..|events| - 1]), events[|events| - 1].rank, events[|events| - 1].act)
  }

  // The kinds that a rank has renamed into place.
  predicate HasPublished(writer: Writer, kind: Kind) {
    match writer
    case Done => true
    case Writing(Follower, _) => kind.Leader?
    case Writing(Mailbox, _) => !kind.Mailbox?
    case _ => false
  }

  // A final file is whole, and a temporary one is a prefix of the handle.
  ghost predicate SoundFiles(w: World, dir: Directory) {
    && (forall slot :: slot in dir.final ==> slot.rank < w.Size() && dir.final[slot] == w.Created(slot))
    && (forall slot :: slot in dir.temp ==>
          && slot.rank < w.Size() && |dir.temp[slot]| <= |w.Created(slot)|
          && dir.temp[slot] == w.Created(slot)[..|dir.temp[slot]|])
  }

  // A closed temporary file is whole, and the files a rank has renamed are there.
  ghost predicate SoundWriters(s: State) {
    && (forall r :: 0 <= r < |s.writers| && s.writers[r].Writing? && s.writers[r].stage.Written? ==>
          var slot := Slot(s.writers[r].kind, r);
          slot in s.dir.temp && |s.dir.temp[slot]| == HANDLE_BYTES)
    && (forall r, kind :: 0 <= r < |s.writers| && HasPublished(s.writers[r], kind) ==> Slot(kind, r) in s.dir.final)
  }

  ghost predicate Sound(w: World, s: State) {
    |s.writers| == w.Size() && SoundFiles(w, s.dir) && SoundWriters(s)
  }

  lemma StepSoundWriters(w: World, s: State, r: nat, a: Act)
    requires r < |s.writers| && SoundWriters(s)
    ensures SoundWriters(Step(w, s, r, a))
  {
    hide World.Created, SoundFiles;
  }

  lemma StepSound(w: World, s: State, r: nat, a: Act)
    requires w.Valid() && Sound(w, s) && r < w.Size()
    ensures Sound(w, Step(w, s, r, a))
  {
    hide World.Created, SoundWriters, HasPublished;
    assert |w.Created(Slot(Leader, r))| == |w.Created(Slot(Follower, r))|
      == |w.Created(Slot(Mailbox, r))| == HANDLE_BYTES;
    if s.writers[r].Writing? && s.writers[r].stage.Written? {
      WrittenIsWhole(s, r);
    }
    StepSoundWriters(w, s, r, a);
  }

  lemma WrittenIsWhole(s: State, r: nat)
    requires r < |s.writers| && SoundWriters(s) && s.writers[r].Writing? && s.writers[r].stage.Written?
    ensures Slot(s.writers[r].kind, r) in s.dir.temp && |s.dir.temp[Slot(s.writers[r].kind, r)]| == HANDLE_BYTES
  {
  }

  /** In every interleaving a published file holds the whole handle that its rank created, and a rank that is done
      writing has published all three. */
  lemma {:induction false} PublishedFilesAreWhole(w: World, events: seq<Event>)
    requires w.Valid() && forall i :: 0 <= i < |events| ==> events[i].rank < w.Size()
    ensures Sound(w, After(w, events))
  {
    hide Step, Sound;
    if events == [] {
      StartSound(w);
    } else {
      PublishedFilesAreWhole(w, events[..|events| - 1]);
      StepSound(w, After(w, events[..|events| - 1]), events[|events| - 1].rank, events[|events| - 1].act);
    }
  }

  lemma StartSound(w: World)
    requires w.Valid()
    ensures Sound(w, Start(w.Size()))
  {
  }

  // --- No temporary file is left behind, and every exchange can complete ---

  // A temporary file is that of a rank which is writing it.
  ghost predicate TempsInProgress(s: State) {
    forall slot :: slot in s.dir.temp ==>
      && slot.rank < |s.writers| && s.writers[slot.rank].Writing? && s.writers[slot.rank].kind == slot.kind
      && !s.writers[slot.rank].stage.Closed?
  }

  lemma TempsStep(w: World, s: State, r: nat, a: Act)
    requires r < |s.writers| && TempsInProgress(s)
    ensures TempsInProgress(Step(w, s, r, a))
  {
    hide World.Created;
  }

  /** In every interleaving a rank that is done or has failed leaves no temporary file. */
  lemma {:induction false} NoTempIsLeft(w: World, events: seq<Event>, slot: Slot)
    requires forall i :: 0 <= i < |events| ==> events[i].rank < w.Size()
    ensures TempsInProgress(After(w, events))
    ensures slot in After(w, events).dir.temp ==> slot.rank < w.Size() && After(w, events).writers[slot.rank].Writing?
  {
    if events != [] {
      hide Step, TempsInProgress;
      var front, e := events[..|events| - 1], events[|events| - 1];
      NoTempIsLeft(w, front, slot);
      TempsStep(w, After(w, front), e.rank, e.act);
    }
    InProgress(After(w, events), slot);
  }

  lemma InProgress(s: State, slot: Slot)
    requires TempsInProgress(s)
    ensures slot in s.dir.temp ==> slot.rank < |s.writers| && s.writers[slot.rank].Writing?
  {
  }

  ghost predicate RanksFit(w: World, events: seq<Event>) {
    forall i :: 0 <= i < |events| ==> events[i].rank < w.Size()
  }

  lemma {:induction false} AfterOne(w: World, events: seq<Event>, r: nat, a: Act)
    requires RanksFit(w, events) && r < w.Size()
    ensures RanksFit(w, events + [Event(r, a)])
    ensures After(w, events + [Event(r, a)]) == Step(w, After(w, events), r, a)
  {
    hide Step;
    var more := events + [Event(r, a)];
    assert more[..|more| - 1] == events;
  }

  // What publishing one kind leaves.
  function Published(w: World, s: State, r: nat, kind: Kind): State
    requires r < |s.writers|
  {
    var slot := Slot(kind, r);
    State(Directory(s.dir.final[slot := w.Created(slot)], s.dir.temp - {slot}), s.writers[r := NextKind(kind)])
  }

  // The four calls that publish a kind.
  lemma FourCalls(w: World, s: State, r: nat, kind: Kind)
    requires w.Valid() && r < |s.writers| == w.Size() && s.writers[r] == Writing(kind, Closed)
    ensures Step(w, Step(w, Step(w, Step(w, s, r, Create), r, Append(64)), r, Close), r, Rename)
            == Published(w, s, r, kind)
  {
    hide World.Created;
    var slot := Slot(kind, r);
    var s1 := Step(w, s, r, Create);
    assert slot in s1.dir.temp && s1.dir.temp[slot] == [] && |w.Created(slot)| == 64;
    var s2 := Step(w, s1, r, Append(64));
    assert w.Created(slot)[..64] == w.Created(slot);
    assert s2 == State(s.dir.(temp := s.dir.temp[slot := w.Created(slot)]), s.writers[r := Writing(kind, Open)]);
    var s3 := Step(w, s2, r, Close);
    assert s3 == State(s2.dir, s.writers[r := Writing(kind, Written)]);
    assert s2.dir.temp - {slot} == s.dir.temp - {slot};
  }

  lemma PublishKind(w: World, events: seq<Event>, r: nat, kind: Kind) returns (more: seq<Event>)
    requires w.Valid() && RanksFit(w, events) && r < w.Size() && After(w, events).writers[r] == Writing(kind, Closed)
    ensures RanksFit(w, more) && After(w, more) == Published(w, After(w, events), r, kind)
  {
    hide Step, Published, After;
    FourCalls(w, After(w, events), r, kind);
    AfterOne(w, events, r, Create);
    more := events + [Event(r, Create)];
    AfterOne(w, more, r, Append(64));
    more := more + [Event(r, Append(64))];
    AfterOne(w, more, r, Close);
    more := more + [Event(r, Close)];
    AfterOne(w, more, r, Rename);
    more := more + [Event(r, Rename)];
  }

  // The ranks before n are done, and the others have not begun.
  predicate DoneBelow(s: State, n: nat) {
    forall r :: 0 <= r < |s.writers| ==> s.writers[r] == if r < n then Done else Writing(Leader, Closed)
  }

  lemma {:induction false} RanksCanPublish(w: World, n: nat) returns (events: seq<Event>)
    requires w.Valid() && n <= w.Size()
    ensures RanksFit(w, events) && DoneBelow(After(w, events), n)
  {
    hide Step, After;
    if n == 0 {
      events := [];
      NothingDone(w);
    } else {
      var before := RanksCanPublish(w, n - 1);
      events := PublishKind(w, before, n - 1, Leader);
      events := PublishKind(w, events, n - 1, Follower);
      events := PublishKind(w, events, n - 1, Mailbox);
    }
  }

  lemma {:induction false} NothingDone(w: World)
    ensures DoneBelow(After(w, []), 0)
  {
  }

  /** From the empty directory the ranks can all publish, whatever handles they have, and all files are then there. */
  lemma EveryExchangeCanComplete(w: World) returns (events: seq<Event>)
    requires w.Valid()
    ensures RanksFit(w, events) && forall r :: 0 <= r < w.Size() ==> After(w, events).writers[r].Done?
    ensures forall slot: Slot :: slot.rank < w.Size() ==>
              slot in After(w, events).dir.final && After(w, events).dir.final[slot] == w.Created(slot)
  {
    hide After;
    events := RanksCanPublish(w, w.Size());
    PublishedFilesAreWhole(w, events);
    forall slot: Slot | slot.rank < w.Size() ensures slot in After(w, events).dir.final {
      assert HasPublished(After(w, events).writers[slot.rank], slot.kind);
    }
  }

  // --- Polling: one rank ---

  // What reading one file comes to: absent, unreadable with the buffer overwritten, read in full, or a path too long.
  datatype Read = Missing | Short(buffer: Handle) | Full(handle: Handle) | TooLong

  // What the reads of one rank come to, poll by poll.
  type Reads = (nat, Slot) -> Read

  datatype Outcome = Ready | Waiting | Broken

  function PollRank(env: Reads, poll: nat, rank: nat): Outcome {
    var l, f, m := env(poll, Slot(Leader, rank)), env(poll, Slot(Follower, rank)), env(poll, Slot(Mailbox, rank));
    if l.TooLong? || f.TooLong? || m.TooLong? then Broken
    else if l.Full? && f.Full? && m.Full? then Ready
    else Waiting
  }

  // A poll goes through the ranks up to the first that is not ready.
  function Poll(env: Reads, poll: nat, rank: nat, n: nat): (r: Outcome)
    ensures r.Ready? <==> forall q :: rank <= q < n ==> PollRank(env, poll, q).Ready?
    decreases n - rank
  {
    if rank >= n then Ready
    else if PollRank(env, poll, rank).Ready? then Poll(env, poll, rank + 1, n)
    else PollRank(env, poll, rank)
  }

  predicate AllFull(env: Reads, poll: nat, rank: nat) {
    env(poll, Slot(Leader, rank)).Full? && env(poll, Slot(Follower, rank)).Full? && env(poll, Slot(Mailbox, rank)).Full?
  }

  predicate SomeTooLong(env: Reads, poll: nat, rank: nat) {
    || env(poll, Slot(Leader, rank)).TooLong? || env(poll, Slot(Follower, rank)).TooLong?
    || env(poll, Slot(Mailbox, rank)).TooLong?
  }

  // Rank q is the first whose files are not all read in full.
  ghost predicate StopsAt(env: Reads, poll: nat, n: nat, q: nat) {
    q < n && !AllFull(env, poll, q) && forall r :: 0 <= r < q ==> AllFull(env, poll, r)
  }

  /** What a poll comes to: ready exactly if all files of all ranks are read in full, otherwise broken exactly if the
      first rank that is not ready has a path that is too long. */
  lemma {:induction false} PollTells(env: Reads, poll: nat, n: nat)
    ensures Poll(env, poll, 0, n).Ready? <==> forall q :: 0 <= q < n ==> AllFull(env, poll, q)
    ensures forall q: nat :: StopsAt(env, poll, n, q) ==> (Poll(env, poll, 0, n).Broken? <==> SomeTooLong(env, poll, q))
  {
    hide Poll;
    forall q: nat ensures PollRank(env, poll, q).Ready? <==> AllFull(env, poll, q) {
    }
    forall q: nat | StopsAt(env, poll, n, q) ensures Poll(env, poll, 0, n).Broken? <==> SomeTooLong(env, poll, q) {
      PollStops(env, poll, 0, n, q);
      RankTells(env, poll, q);
    }
  }

  lemma RankTells(env: Reads, poll: nat, q: nat)
    ensures PollRank(env, poll, q).Broken? <==> SomeTooLong(env, poll, q)
  {
  }

  lemma {:induction false} PollStops(env: Reads, poll: nat, rank: nat, n: nat, q: nat)
    requires rank <= q < n && !PollRank(env, poll, q).Ready?
    requires forall r :: rank <= r < q ==> PollRank(env, poll, r).Ready?
    ensures Poll(env, poll, rank, n) == PollRank(env, poll, q)
    decreases q - rank
  {
    hide PollRank;
    if rank < q {
      PollStops(env, poll, rank + 1, n, q);
    }
  }

  function TimeoutMs(setting: int): int {
    if setting < 1 then DEFAULT_TIMEOUT_MS else setting
  }

  method ReadHandle(table: array<Handle>, read: Read, rank: nat) returns (status: int)
    requires rank < table.Length
    modifies table
    ensures status == match read case Full(_) => 0 case TooLong => -1 case _ => 1
    ensures read.Full? ==> table[rank] == read.handle
    ensures forall q :: 0 <= q < table.Length && q != rank ==> table[q] == old(table[q])
  {
    match read
    case Missing => status := 1;
    case Short(buffer) => table[rank] := buffer; status := 1;
    case Full(handle) => table[rank] := handle; status := 0;
    case TooLong => status := -1;
  }

  // The tables hold what the poll read for the ranks before n.
  ghost predicate Holds(env: Reads, poll: nat, n: nat,
                        leaders: seq<Handle>, followers: seq<Handle>, mailboxes: seq<Handle>)
  {
    && n <= |leaders| == |followers| == |mailboxes|
    && forall q :: 0 <= q < n ==>
         && env(poll, Slot(Leader, q)) == Full(leaders[q])
         && env(poll, Slot(Follower, q)) == Full(followers[q])
         && env(poll, Slot(Mailbox, q)) == Full(mailboxes[q])
  }

  // One more rank read in full.
  lemma HoldsNext(env: Reads, poll: nat, rank: nat, before: (seq<Handle>, seq<Handle>, seq<Handle>),
                  leaders: seq<Handle>, followers: seq<Handle>, mailboxes: seq<Handle>)
    requires Holds(env, poll, rank, before.0, before.1, before.2)
    requires rank < |leaders| == |followers| == |mailboxes|
    requires rank <= |before.0| && rank <= |before.1| && rank <= |before.2|
    requires leaders[..rank] == before.0[..rank] && followers[..rank] == before.1[..rank]
    requires mailboxes[..rank] == before.2[..rank]
    requires env(poll, Slot(Leader, rank)) == Full(leaders[rank])
    requires env(poll, Slot(Follower, rank)) == Full(followers[rank])
    requires env(poll, Slot(Mailbox, rank)) == Full(mailboxes[rank])
    ensures Holds(env, poll, rank + 1, leaders, followers, mailboxes)
  {
    forall q | 0 <= q < rank
      ensures leaders[q] == before.0[q] && followers[q] == before.1[q] && mailboxes[q] == before.2[q]
    {
      assert leaders[q] == leaders[..rank][q] && followers[q] == followers[..rank][q];
      assert mailboxes[q] == mailboxes[..rank][q];
    }
  }

  method PollOnce(env: Reads, poll: nat, leaders: array<Handle>, followers: array<Handle>, mailboxes: array<Handle>)
    returns (outcome: Outcome)
    requires leaders.Length == followers.Length == mailboxes.Length
    requires leaders != followers && leaders != mailboxes && followers != mailboxes
    modifies leaders, followers, mailboxes
    ensures outcome == Poll(env, poll, 0, leaders.Length)
    ensures outcome.Ready? ==> Holds(env, poll, leaders.Length, leaders[..], followers[..], mailboxes[..])
  {
    var rank := 0;
    while rank < leaders.Length
      invariant rank <= leaders.Length
      invariant Poll(env, poll, 0, leaders.Length) == Poll(env, poll, rank, leaders.Length)
      invariant Holds(env, poll, rank, leaders[..], followers[..], mailboxes[..])
    {
      ghost var before := (leaders[..], followers[..], mailboxes[..]);
      var l := ReadHandle(leaders, env(poll, Slot(Leader, rank)), rank);
      var f := ReadHandle(followers, env(poll, Slot(Follower, rank)), rank);
      var m := ReadHandle(mailboxes, env(poll, Slot(Mailbox, rank)), rank);
      if l < 0 || f < 0 || m < 0 {
        return Broken;
      }
      if l != 0 || f != 0 || m != 0 {
        return Waiting;
      }
      HoldsNext(env, poll, rank, before, leaders[..], followers[..], mailboxes[..]);
      rank := rank + 1;
    }
    outcome := Ready;
  }

  /** The polling loop: it succeeds in the first poll that reads every file, gives up on a path that is too long,
      and polls at most timeout / 10 + 1 times. */
  method PollHandles(env: Reads, setting: int,
                     leaders: array<Handle>, followers: array<Handle>, mailboxes: array<Handle>)
    returns (ok: bool, polls: nat)
    requires leaders.Length == followers.Length == mailboxes.Length
    requires leaders != followers && leaders != mailboxes && followers != mailboxes
    modifies leaders, followers, mailboxes
    ensures 0 < polls <= (if setting < 1 then 120000 else setting) / 10 + 1
    ensures forall p :: 0 <= p < polls - 1 ==> Poll(env, p, 0, leaders.Length) == Waiting
    ensures ok <==> Poll(env, polls - 1, 0, leaders.Length) == Ready
    ensures ok ==> Holds(env, polls - 1, leaders.Length, leaders[..], followers[..], mailboxes[..])
    ensures Poll(env, polls - 1, 0, leaders.Length) == Waiting ==>
              polls == (if setting < 1 then 120000 else setting) / 10 + 1
  {
    var timeout := TimeoutMs(setting);
    var waited := 0;
    polls := 0;
    while waited <= timeout
      invariant waited == SLEEP_MS * polls && waited <= timeout + SLEEP_MS
      invariant forall p :: 0 <= p < polls ==> Poll(env, p, 0, leaders.Length) == Waiting
    {
      var outcome := PollOnce(env, polls, leaders, followers, mailboxes);
      polls := polls + 1;
      if outcome.Broken? {
        return false, polls;
      }
      if outcome.Ready? {
        return true, polls;
      }
      waited := waited + SLEEP_MS;
    }
    ok := false;
  }

  // --- Both together ---

  // A read that comes to a whole file finds it published, at some time in the run of all ranks.
  ghost predicate ReadsFrom(w: World, events: seq<Event>, env: Reads, polls: nat)
    requires forall i :: 0 <= i < |events| ==> events[i].rank < w.Size()
  {
    forall p, slot: Slot :: 0 <= p < polls && slot.rank < w.Size() && env(p, slot).Full? ==>
      exists at :: 0 <= at <= |events| && PublishedAt(w, events, at, slot, env(p, slot).handle)
  }

  ghost predicate PublishedAt(w: World, events: seq<Event>, at: nat, slot: Slot, handle: Handle)
    requires forall i :: 0 <= i < |events| ==> events[i].rank < w.Size()
    requires at <= |events|
  {
    slot in After(w, events[..at]).dir.final && After(w, events[..at]).dir.final[slot] == handle
  }

  /** However the ranks interleave, a rank whose polling succeeds holds for every rank the three handles which that
      rank created. */
  lemma SuccessfulTablesAreTheCreatedHandles(w: World, events: seq<Event>, env: Reads, polls: nat,
                                             leaders: seq<Handle>, followers: seq<Handle>, mailboxes: seq<Handle>)
    requires w.Valid() && forall i :: 0 <= i < |events| ==> events[i].rank < w.Size()
    requires 0 < polls && ReadsFrom(w, events, env, polls)
    requires |leaders| == w.Size() && Holds(env, polls - 1, w.Size(), leaders, followers, mailboxes)
    ensures leaders == w.leaders && followers == w.followers && mailboxes == w.mailboxes
  {
    hide ReadsFrom;
    forall q | 0 <= q < w.Size()
      ensures leaders[q] == w.leaders[q] && followers[q] == w.followers[q] && mailboxes[q] == w.mailboxes[q]
    {
      FullReadIsCreated(w, events, env, polls, Slot(Leader, q));
      FullReadIsCreated(w, events, env, polls, Slot(Follower, q));
      FullReadIsCreated(w, events, env, polls, Slot(Mailbox, q));
    }
  }

  lemma FullReadIsCreated(w: World, events: seq<Event>, env: Reads, polls: nat, slot: Slot)
    requires w.Valid() && forall i :: 0 <= i < |events| ==> events[i].rank < w.Size()
    requires 0 < polls && ReadsFrom(w, events, env, polls)
    requires slot.rank < w.Size() && env(polls - 1, slot).Full?
    ensures env(polls - 1, slot).handle == w.Created(slot)
  {
    hide After;
    var at :| 0 <= at <= |events| && PublishedAt(w, events, at, slot, env(polls - 1, slot).handle);
    PublishedFilesAreWhole(w, events[..at]);
  }

  // What is published stays.
  lemma {:induction false} PublishedStays(w: World, events: seq<Event>, at: nat, slot: Slot)
    requires w.Valid() && at <= |events| && forall i :: 0 <= i < |events| ==> events[i].rank < w.Size()
    requires slot in After(w, events[..at]).dir.final
    ensures slot in After(w, events).dir.final
  {
    if at == |events| {
      assert events[..at] == events;
    } else {
      var front := events[..|events| - 1];
      assert front[..at] == events[..at];
      PublishedStays(w, front, at, slot);
    }
  }

  /** Once every rank is done writing, all files are there: a poll whose reads all see the directory as it is
      succeeds. */
  lemma {:induction false} CompleteDirectoryIsReady(w: World, events: seq<Event>, at: nat, env: Reads, poll: nat)
    requires w.Valid() && at <= |events| && forall i :: 0 <= i < |events| ==> events[i].rank < w.Size()
    requires forall r :: 0 <= r < w.Size() ==> After(w, events[..at]).writers[r].Done?
    requires forall slot: Slot :: slot.rank < w.Size() && slot in After(w, events).dir.final ==> env(poll, slot).Full?
    ensures Poll(env, poll, 0, w.Size()) == Ready
  {
    hide After;
    forall q | 0 <= q < w.Size() ensures PollRank(env, poll, q).Ready? {
      DoneHasPublished(w, events, at, q, Leader);
      DoneHasPublished(w, events, at, q, Follower);
      DoneHasPublished(w, events, at, q, Mailbox);
    }
  }

  lemma {:induction false} DoneHasPublished(w: World, events: seq<Event>, at: nat, r: nat, kind: Kind)
    requires w.Valid() && at <= |events| && forall i :: 0 <= i < |events| ==> events[i].rank < w.Size()
    requires r < w.Size() && After(w, events[..at]).writers[r].Done?
    ensures Slot(kind, r) in After(w, events).dir.final
  {
    hide After, SoundFiles;
    PublishedFilesAreWhole(w, events[..at]);
    assert HasPublished(After(w, events[..at]).writers[r], kind);
    PublishedStays(w, events, at, Slot(kind, r));
  }
}
