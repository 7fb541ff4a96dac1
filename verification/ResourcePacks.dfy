/** Resource-pack offers (`understudy/resource_packs.go`, and the switch to the play state in
`understudy/login.go`). The server pushes and pops offers; each accepted one is checked by a
worker of its own; closing the session stops everything. All of it is serialised by one
mutex, so every critical section is one step here and any order of steps is a run. What
comes back over the network - a download's outcome, whether a write succeeds - is a
parameter of the step. */
module ResourcePacks {
  import opened Words
  import opened Wire
  import opened Shapes
  import opened ShapeCodec
  import opened FieldSkippers
  import Nbt

  const LOADED := 0
  const DECLINED := 1
  const FAILED_DOWNLOAD := 2
  const ACCEPTED := 3
  const DOWNLOADED := 4
  const INVALID_URL := 5
  const FAILED_RELOAD := 6

  const MAX_WORKERS := 4
  const UUID_BYTES := 16

  type Uuid = bytes

  /** What the client writes: a pack status, with its configuration or play packet id, or
      the acknowledgement that ends configuration. */
  datatype Event = Status(id: Uuid, status: int, play: bool) | FinishAck

  // ------------------------------------------------------------------ reading the log

  /** The statuses sent for one pack, in order. */
  function StatusesFor(log: seq<Event>, id: Uuid): seq<int> {
    if log == [] then []
    else
      var last := log[|log| - 1];
      StatusesFor(log[..|log| - 1], id) + if last.Status? && last.id == id then [last.status] else []
  }

  /** The words of one pack's offers, end to end in the order they were made. */
  function WordsFor(ids: seq<Uuid>, words: seq<seq<int>>, id: Uuid): seq<int>
    requires |ids| == |words|
  {
    if ids == [] then []
    else
      var n := |ids| - 1;
      WordsFor(ids[..n], words[..n], id) + if ids[n] == id then words[n] else []
  }

  /** What one offer may have been answered so far: declined (1) or an invalid address (5) at
      once; or accepted (3), and then an invalid address (5), a failed download (2), or a
      download (4) that was loaded (0) or failed to load (6). */
  predicate Word(w: seq<int>) {
    || w == [] || w == [1] || w == [5] || w == [3] || w == [3, 5] || w == [3, 2] || w == [3, 4]
    || w == [3, 4, 0] || w == [3, 4, 6]
  }

  /** Configuration statuses, the acknowledgement at k, then play statuses. */
  predicate SplitAt(log: seq<Event>, k: nat) {
    && k < |log| && log[k] == FinishAck
    && (forall i | 0 <= i < |log| && i != k :: log[i].Status? && log[i].play == (i > k))
  }

  ghost predicate InPhase(log: seq<Event>, playing: bool) {
    if playing then exists k: nat :: SplitAt(log, k)
    else forall i | 0 <= i < |log| :: log[i].Status? && !log[i].play
  }

  lemma PhaseAppend(log: seq<Event>, playing: bool, e: Event)
    requires InPhase(log, playing)
    requires e.Status? ==> e.play == playing
    requires e.FinishAck? ==> !playing
    ensures InPhase(log + [e], playing || e.FinishAck?)
  {
    if playing {
      var k: nat :| SplitAt(log, k);
      assert SplitAt(log + [e], k);
    } else if e.FinishAck? {
      assert SplitAt(log + [e], |log|);
    }
  }

  lemma StatusAppend(log: seq<Event>, e: Event, id: Uuid)
    ensures StatusesFor(log + [e], id) == StatusesFor(log, id) + if e.Status? && e.id == id then [e.status] else []
  {
    assert (log + [e])[..|log|] == log;
  }

  /** A status of the last offer for a pack goes at the end of that pack's words. */
  lemma {:induction false} WordAppend(ids: seq<Uuid>, words: seq<seq<int>>, k: nat, status: int, id: Uuid)
    requires |ids| == |words| && k < |ids| && forall j | k < j < |ids| :: ids[j] != ids[k]
    ensures WordsFor(ids, words[k := words[k] + [status]], id)
         == WordsFor(ids, words, id) + if ids[k] == id then [status] else []
    decreases |ids|
  {
    var n := |ids| - 1;
    var words' := words[k := words[k] + [status]];
    if k < n {
      assert words'[..n] == words[..n][k := words[..n][k] + [status]];
      WordAppend(ids[..n], words[..n], k, status, id);
    } else {
      assert words'[..n] == words[..n];
    }
  }

  // --------------------------------------------------------------------- push and pop

  /** The resource pack a push offers, when the packet is well formed to its last byte. */
  function PushedId(packet: bytes): Option<Uuid> {
    var flags := At(packet).Skip(UUID_BYTES).AfterString().AfterString().Skip(1);
    var end := if flags.Peek(1) != 0 then AfterTag(flags.Skip(1)) else flags.Skip(1);
    if end == At([]) && |packet| >= UUID_BYTES then Some(packet[..UUID_BYTES]) else None
  }

  datatype Pops = Malformed | All | One(id: Uuid)

  function PoppedIds(packet: bytes): Pops {
    var s := At(packet);
    if s.Peek(1) == 0 then (if s.Skip(1) == At([]) then All else Malformed)
    else if s.Skip(1).Skip(UUID_BYTES) == At([]) && |packet| == 1 + UUID_BYTES then One(packet[1..])
    else Malformed
  }

  /** A push as a server writes it: the pack, its address and hash, whether it is required,
      and a prompt, if there is one. */
  function PushBytes(id: Uuid, address: bytes, hash: bytes, required: bool, prompt: Option<Option<Nbt.Tree>>): bytes {
    id + (TextBytes(address) + (TextBytes(hash) + ([if required then 1 else 0] +
    match prompt case None => [0] case Some(root) => [1] + Nbt.RootBytes(root))))
  }

  /** It names its pack; with anything after it, it is malformed. */
  lemma PushRead(id: Uuid, address: bytes, hash: bytes, required: bool, prompt: Option<Option<Nbt.Tree>>,
      trailing: bytes)
    requires |id| == 16 && |address| <= 131068 && |hash| <= 131068 && (prompt.Some? ==> Nbt.RootFits(prompt.value))
    ensures PushedId(PushBytes(id, address, hash, required, prompt) + trailing)
         == if trailing == [] then Some(id) else None
  {
    hide TextBytes, Nbt.TagSpan, Nbt.RootBytes, Nbt.RootFits, Stream.AfterString;
    var flag: bytes := [if required then 1 else 0];
    var end := (match prompt case None => [0] case Some(root) => [1] + Nbt.RootBytes(root)) + trailing;
    var packet := PushBytes(id, address, hash, required, prompt) + trailing;
    assert packet == id + (TextBytes(address) + (TextBytes(hash) + (flag + end)));
    SkipAt(id, TextBytes(address) + (TextBytes(hash) + (flag + end)));
    TextAt(address, TextBytes(hash) + (flag + end));
    TextAt(hash, flag + end);
    SkipAt(flag, end);
    match prompt
    case None => FlagAt(0, trailing);
    case Some(root) =>
      assert end == [1] + (Nbt.RootBytes(root) + trailing);
      FlagAt(1, Nbt.RootBytes(root) + trailing);
      Nbt.RootSkipped(root, trailing);
      SkipAt(Nbt.RootBytes(root), trailing);
  }

  /** A pop of one pack, or of all. */
  lemma PopRead(id: Uuid, trailing: bytes)
    requires |id| == 16
    ensures PoppedIds([1] + id + trailing) == if trailing == [] then One(id) else Malformed
    ensures PoppedIds([0] + trailing) == if trailing == [] then All else Malformed
  {
    assert [1] + id + trailing == [1] + (id + trailing);
    FlagAt(1, id + trailing);
    FlagAt(0, trailing);
    SkipAt(id, trailing);
    if trailing == [] { assert ([1] + id + trailing)[1..] == id; }
  }

  method ReadPush(packet: bytes) returns (id: Option<Uuid>)
    ensures id == PushedId(packet)
  {
    hide Nbt.TagSpan, Stream.AfterString, Stream.Peek;
    var r := new Reader(packet);
    var uuid := r.Take(UUID_BYTES);
    var _ := r.String();
    var _ := r.String();
    var required := r.Bool();
    var hasPrompt := r.Bool();
    if hasPrompt {
      var n, work := Nbt.SkipTag(r.State().Remaining());
      if n == None { return None; }
      r.Skip(n.value);
    }
    if r.failed || r.tail != [] { return None; }
    StringBroken();
    id := Some(uuid);
  }

  lemma StringBroken()
    ensures Broken.AfterString() == Broken
  {
  }

  method ReadPop(packet: bytes) returns (popped: Pops)
    ensures popped == PoppedIds(packet)
  {
    hide Stream.Peek;
    var r := new Reader(packet);
    var one := r.Bool();
    var id := [];
    if one { id := r.Take(UUID_BYTES); }
    if r.failed || r.tail != [] { return Malformed; }
    popped := if one then One(id) else All;
  }

  // ------------------------------------------------------------------------ the state

  /** The state as a value. An offer's number is its place in `ids`, and stands for the
      identity of its job: no two offers share one. */
  datatype State = State(jobs: map<Uuid, nat>, closed: bool, playing: bool, workers: map<nat, Uuid>,
                         ids: seq<Uuid>, words: seq<seq<int>>, log: seq<Event>)
  {
    /** An offer that may still be answered. */
    predicate Live(k: nat) { !closed && k < |ids| && ids[k] in jobs && jobs[ids[k]] == k }

    /** Never more than four workers, each for its own offer's pack; while the session is
        open every job is one of them. */
    ghost predicate Staffed() {
      && |workers| <= 4
      && (forall k | k in workers :: k < |ids| && ids[k] == workers[k])
      && (!closed ==> forall id | id in jobs :: jobs[id] in workers && workers[jobs[id]] == id)
    }

    /** A job is its pack's last offer, and has been accepted and no more. */
    ghost predicate Current() {
      && |ids| == |words|
      && (forall id | id in jobs :: jobs[id] < |ids| && ids[jobs[id]] == id && words[jobs[id]] == [ACCEPTED])
      && (forall id, k | id in jobs && jobs[id] < k < |ids| :: ids[k] != id)
    }

    /** Each pack's statuses are its offers' words, one after another; the phases are in
        order. */
    ghost predicate Logged() {
      && |ids| == |words|
      && (forall k | 0 <= k < |words| :: Word(words[k]))
      && (forall id :: StatusesFor(log, id) == WordsFor(ids, words, id))
      && InPhase(log, playing)
    }

    ghost predicate Good() { Staffed() && Current() && Logged() }

    function Registered(id: Uuid): State { this.(jobs := jobs - {id}, ids := ids + [id], words := words + [[]]) }

    function Written(k: nat, status: int): State
      requires k < |ids| == |words|
    {
      this.(words := words[k := words[k] + [status]], log := log + [Status(ids[k], status, playing)])
    }

    function Started(k: nat): State
      requires k < |ids|
    {
      this.(jobs := jobs[ids[k] := k], workers := workers[k := ids[k]])
    }

    function Dropped(id: Uuid): State { this.(jobs := jobs - {id}) }

    function Ended(k: nat): State { this.(workers := workers - {k}) }
  }

  /** What every run keeps: nothing written is taken back, closing and entering play are for
      good, no worker starts once closed, and an offer that has been replaced, popped,
      finished or closed stays so and has nothing more written for it. */
  ghost predicate Kept(a: State, b: State) {
    && a.ids <= b.ids && a.log <= b.log && |a.words| == |a.ids| && |b.words| == |b.ids|
    && (a.playing ==> b.playing)
    && (a.closed ==> b.closed && b.workers.Keys <= a.workers.Keys && a.ids == b.ids)
    && (forall k | 0 <= k < |a.ids| && !a.Live(k) :: b.words[k] == a.words[k] && !b.Live(k))
  }

  lemma KeptOn(a: State, b: State, c: State)
    requires Kept(a, b) && Kept(b, c)
    ensures Kept(a, c)
  {
    forall k | 0 <= k < |a.ids| && !a.Live(k) ensures c.words[k] == a.words[k] && !c.Live(k) {
      assert !b.Live(k);
    }
  }

  lemma RegisteredLogged(s: State, id: Uuid)
    requires s.Logged()
    ensures s.Registered(id).Logged()
  {
    hide InPhase, StatusesFor;
    var n := |s.ids|;
    forall other ensures WordsFor(s.ids + [id], s.words + [[]], other) == WordsFor(s.ids, s.words, other) {
      assert (s.ids + [id])[..n] == s.ids && (s.words + [[]])[..n] == s.words;
    }
  }

  lemma RegisteredCurrent(s: State, id: Uuid)
    requires s.Current() && s.Staffed()
    ensures s.Registered(id).Current() && s.Registered(id).Staffed()
  {
  }

  lemma RegisteredGood(s: State, id: Uuid)
    requires s.Good() && !s.closed
    ensures s.Registered(id).Good() && Kept(s, s.Registered(id))
  {
    RegisteredLogged(s, id);
    RegisteredCurrent(s, id);
    hide State.Logged, State.Staffed;
  }

  /** Writing for a pack's last offer, which must not be a job still counted on as accepted. */
  lemma WrittenLogged(s: State, k: nat, status: int)
    requires s.Logged() && k < |s.ids| && Word(s.words[k] + [status])
    requires forall j | k < j < |s.ids| :: s.ids[j] != s.ids[k]
    ensures s.Written(k, status).Logged()
  {
    hide InPhase;
    var e := Status(s.ids[k], status, s.playing);
    PhaseAppend(s.log, s.playing, e);
    forall id ensures StatusesFor(s.log + [e], id) == WordsFor(s.ids, s.Written(k, status).words, id) {
      StatusAppend(s.log, e, id);
      WordAppend(s.ids, s.words, k, status, id);
    }
  }

  lemma WrittenCurrent(s: State, k: nat, status: int)
    requires s.Staffed() && s.Current() && k < |s.ids| && !(s.ids[k] in s.jobs && s.jobs[s.ids[k]] == k)
    ensures s.Written(k, status).Staffed() && s.Written(k, status).Current()
  {
  }

  lemma SameLog(s: State, s': State)
    requires s.ids == s'.ids && s.words == s'.words && s.log == s'.log && s.playing == s'.playing
    ensures s.Logged() == s'.Logged()
  {
  }

  lemma StartedGood(s: State, k: nat)
    requires s.Good() && k < |s.ids| && !s.closed && |s.workers| < MAX_WORKERS && k !in s.workers && s.ids[k] !in s.jobs
    requires s.words[k] == [ACCEPTED] && forall j | k < j < |s.ids| :: s.ids[j] != s.ids[k]
    ensures s.Started(k).Good() && |s.Started(k).workers| == |s.workers| + 1
  {
    SameLog(s, s.Started(k));
    hide State.Logged;
    StartedStaffed(s, k);
    hide State.Staffed;
  }

  lemma StartedStaffed(s: State, k: nat)
    requires s.Staffed() && k < |s.ids| && |s.workers| < MAX_WORKERS && k !in s.workers
    ensures s.Started(k).Staffed() && |s.Started(k).workers| == |s.workers| + 1
  {
  }

  lemma DroppedGood(s: State, id: Uuid)
    requires s.Good()
    ensures s.Dropped(id).Good() && Kept(s, s.Dropped(id))
  {
    PoppedGood(s, {id});
  }

  lemma EndedGood(s: State, k: nat)
    requires s.Good() && k in s.workers && !s.Live(k)
    ensures s.Ended(k).Good() && Kept(s, s.Ended(k)) && |s.Ended(k).workers| == |s.workers| - 1
  {
    SameLog(s, s.Ended(k));
    hide State.Logged;
    assert s.Ended(k).workers.Keys == s.workers.Keys - {k};
  }

  // -------------------------------------------------------------------------- the steps

  /** The first answer to a well-formed offer. */
  function Answer(headless: bool, urlOk: bool, active: int): int {
    if !headless then DECLINED else if !urlOk then INVALID_URL else if active >= MAX_WORKERS then DECLINED else ACCEPTED
  }

  predicate Outcome(status: int) {
    status == FAILED_DOWNLOAD || status == INVALID_URL || status == LOADED || status == FAILED_RELOAD
  }

  /** What a finished worker writes for its offer, given which writes the connection takes. */
  function Reported(s: State, k: nat, status: int, wrote: bool, wroteAgain: bool): (s': State)
    requires k < |s.ids| == |s.words|
    ensures s'.words == s.words[k := s.words[k] + ReportOf(status, wrote, wroteAgain)]
  {
    assert s.words[k] + [] == s.words[k] && s.words[k] + [DOWNLOADED] + [status] == s.words[k] + [DOWNLOADED, status];
    if !wrote then s
    else if status != LOADED && status != FAILED_RELOAD then s.Written(k, status)
    else if !wroteAgain then s.Written(k, DOWNLOADED)
    else s.Written(k, DOWNLOADED).Written(k, status)
  }

  function ReportOf(status: int, wrote: bool, wroteAgain: bool): seq<int> {
    if !wrote then []
    else if status != LOADED && status != FAILED_RELOAD then [status]
    else if !wroteAgain then [DOWNLOADED]
    else [DOWNLOADED, status]
  }

  /** A push, answered: what the step does to the state as a whole. */
  function Offered(s: State, id: Uuid, answer: int, wrote: bool): State
    requires |s.ids| == |s.words|
  {
    var k := |s.ids|;
    var s1 := s.Registered(id);
    if !wrote then s1 else if answer != ACCEPTED then s1.Written(k, answer) else s1.Written(k, answer).Started(k)
  }

  lemma AnswerIs(headless: bool, urlOk: bool, active: int)
    ensures var a := Answer(headless, urlOk, active);
            && (a == 1 || a == 5 || a == 3)
            && (a == 1 <==> !headless || (urlOk && active >= 4)) && (a == 5 <==> headless && !urlOk)
            && (a == 3 <==> headless && urlOk && active < 4)
  {
  }

  lemma OfferedIs(s: State, id: Uuid, answer: int, wrote: bool)
    requires |s.ids| == |s.words|
    ensures var s' := Offered(s, id, answer, wrote);
            && s'.log == (if wrote then s.log + [Status(id, answer, s.playing)] else s.log)
            && s'.workers == (if wrote && answer == 3 then s.workers[|s.ids| := id] else s.workers)
            && s'.jobs == (if wrote && answer == 3 then (s.jobs - {id})[id := |s.ids|] else s.jobs - {id})
  {
  }

  lemma NotYet(s: State, k: nat)
    requires s.Good() && k >= |s.ids|
    ensures k !in s.workers
  {
  }

  lemma OfferedWords(s: State, id: Uuid, answer: int, wrote: bool)
    requires |s.ids| == |s.words|
    ensures Offered(s, id, answer, wrote).words == s.words + [if wrote then [answer] else []]
    ensures Offered(s, id, answer, wrote).ids == s.ids + [id]
  {
    assert [] + [answer] == [answer];
    assert (s.words + [[]])[|s.words| := [answer]] == s.words + [[answer]];
  }

  lemma OfferedKept(s: State, id: Uuid, answer: int, wrote: bool)
    requires s.Good() && !s.closed
    ensures Kept(s, Offered(s, id, answer, wrote))
  {
    hide State.Logged, State.Staffed;
    OfferedWords(s, id, answer, wrote);
  }

  lemma OfferedGood(s: State, id: Uuid, answer: int, wrote: bool)
    requires s.Good() && !s.closed && (answer == DECLINED || answer == INVALID_URL || answer == ACCEPTED)
    requires answer == ACCEPTED ==> |s.workers| < MAX_WORKERS
    ensures Offered(s, id, answer, wrote).Good() && Kept(s, Offered(s, id, answer, wrote))
    ensures |Offered(s, id, answer, wrote).workers| == |s.workers| + if wrote && answer == ACCEPTED then 1 else 0
  {
    OfferedKept(s, id, answer, wrote);
    RegisteredGood(s, id);
    if wrote { AnsweredGood(s, s.Registered(id), id, answer); }
  }

  lemma AnsweredGood(s: State, s1: State, id: Uuid, answer: int)
    requires s.Good() && s1 == s.Registered(id) && s1.Good() && !s.closed
    requires answer == DECLINED || answer == INVALID_URL || (answer == ACCEPTED && |s.workers| < MAX_WORKERS)
    ensures |s.ids| < |s1.ids| == |s1.words|
    ensures var s2 := s1.Written(|s.ids|, answer);
            && s2.Good()
            && (answer == ACCEPTED ==>
                  s2.Started(|s.ids|).Good() && |s2.Started(|s.ids|).workers| == |s.workers| + 1)
  {
    hide Kept, InPhase, StatusesFor, WordsFor;
    var k := |s.ids|;
    assert |s1.ids| == |s1.words| == k + 1 && s1.words[k] == [] && s1.ids[k] == id && id !in s1.jobs;
    assert [] + [answer] == [answer];
    WrittenLogged(s1, k, answer);
    WrittenCurrent(s1, k, answer);
    hide State.Logged, State.Current;
    if answer == ACCEPTED { StartedGood(s1.Written(k, answer), k); }
  }

  /** A completed offer: its worker ends, and it is reported on if it is still live. */
  function Finished(s: State, k: nat, status: int, cancelled: bool, wrote: bool, wroteAgain: bool): State
    requires k < |s.ids| == |s.words|
  {
    if !s.Live(k) then s.Ended(k)
    else if cancelled then s.Dropped(s.ids[k]).Ended(k)
    else Reported(s.Dropped(s.ids[k]).Ended(k), k, status, wrote, wroteAgain)
  }

  lemma FinishedIs(s: State, k: nat, status: int, cancelled: bool, wrote: bool, wroteAgain: bool)
    requires s.Good() && k in s.workers && Outcome(status)
    ensures k < |s.ids| == |s.words|
    ensures var s' := Finished(s, k, status, cancelled, wrote, wroteAgain);
            var id := s.workers[k];
            var live := !s.closed && id in s.jobs && s.jobs[id] == k;
            && s'.workers == s.workers - {k} && s'.playing == s.playing && s'.closed == s.closed
            && s'.jobs == (if live then s.jobs - {id} else s.jobs)
            && s'.log == s.log +
                         if !live || cancelled || !wrote then []
                         else if status == 2 || status == 5 then [Status(id, status, s.playing)]
                         else if !wroteAgain then [Status(id, 4, s.playing)]
                         else [Status(id, 4, s.playing), Status(id, status, s.playing)]
  {
    WorkerOffer(s, k);
    hide State.Good, Reported;
    assert s.log + [] == s.log;
    ReportedIs(s.Dropped(s.ids[k]).Ended(k), k, status, wrote, wroteAgain);
  }

  lemma ReportedIs(s: State, k: nat, status: int, wrote: bool, wroteAgain: bool)
    requires k < |s.ids| == |s.words| && Outcome(status)
    ensures var s' := Reported(s, k, status, wrote, wroteAgain);
            && s'.workers == s.workers && s'.playing == s.playing && s'.closed == s.closed && s'.jobs == s.jobs
            && s'.log == s.log +
                         if !wrote then []
                         else if status == 2 || status == 5 then [Status(s.ids[k], status, s.playing)]
                         else if !wroteAgain then [Status(s.ids[k], 4, s.playing)]
                         else [Status(s.ids[k], 4, s.playing), Status(s.ids[k], status, s.playing)]
  {
    var id := s.ids[k];
    assert s.log + [] == s.log;
    assert s.log + [Status(id, 4, s.playing)] + [Status(id, status, s.playing)]
        == s.log + [Status(id, 4, s.playing), Status(id, status, s.playing)];
  }

  lemma FinishedGood(s: State, k: nat, status: int, cancelled: bool, wrote: bool, wroteAgain: bool)
    requires s.Good() && k in s.workers && Outcome(status)
    ensures k < |s.ids| == |s.words|
    ensures var s' := Finished(s, k, status, cancelled, wrote, wroteAgain);
            s'.Good() && Kept(s, s') && |s'.workers| == |s.workers| - 1
  {
    WorkerOffer(s, k);
    hide State.Good, Reported, Kept;
    if !s.Live(k) {
      EndedGood(s, k);
    } else {
      var s1 := s.Dropped(s.ids[k]).Ended(k);
      LiveIsLast(s, k);
      DroppedGood(s, s.ids[k]);
      EndedGood(s.Dropped(s.ids[k]), k);
      KeptOn(s, s.Dropped(s.ids[k]), s1);
      ReportedGood(s, s1, k, status, wrote, wroteAgain);
    }
  }

  lemma WorkerOffer(s: State, k: nat)
    requires s.Good() && k in s.workers
    ensures k < |s.ids| == |s.words| && s.workers[k] == s.ids[k]
  {
  }

  lemma ReportedGood(a: State, s: State, k: nat, status: int, wrote: bool, wroteAgain: bool)
    requires s.Good() && Kept(a, s) && a.Live(k) && !s.Live(k) && s.ids == a.ids && !s.closed && s.ids[k] !in s.jobs
    requires k < |s.words| && s.words[k] == [ACCEPTED] && Outcome(status)
    requires forall j | k < j < |s.ids| :: s.ids[j] != s.ids[k]
    ensures var s' := Reported(s, k, status, wrote, wroteAgain);
            s'.Good() && Kept(a, s') && s'.workers == s.workers
  {
    assert |s.ids| == |s.words|;
    hide State.Logged, State.Current, State.Staffed, Kept;
    if wrote {
      var first := if status == LOADED || status == FAILED_RELOAD then DOWNLOADED else status;
      WroteMore(a, s, k, first);
      if first == DOWNLOADED && wroteAgain {
        WroteMore(a, s.Written(k, first), k, status);
      }
    }
  }

  lemma WroteMore(a: State, s: State, k: nat, status: int)
    requires s.Good() && Kept(a, s) && a.Live(k) && s.ids == a.ids && k < |s.words| && s.ids[k] !in s.jobs
    requires Word(s.words[k] + [status]) && forall j | k < j < |s.ids| :: s.ids[j] != s.ids[k]
    ensures s.Written(k, status).Good() && Kept(a, s.Written(k, status))
  {
    WrittenLogged(s, k, status);
    WrittenCurrent(s, k, status);
    hide State.Logged, State.Current, State.Staffed;
  }

  lemma LiveIsLast(s: State, k: nat)
    requires s.Good() && s.Live(k)
    ensures s.words[k] == [ACCEPTED] && forall j | k < j < |s.ids| :: s.ids[j] != s.ids[k]
  {
  }

  // ----------------------------------------------------------------------- the object

  class Packs {
    const headless: bool
    var jobs: map<Uuid, nat>
    var active: int
    var closed: bool
    var playing: bool
    /** The goroutines started and not yet past their locked completion, with their packs. */
    var workers: map<nat, Uuid>
    var offers: nat
    ghost var ids: seq<Uuid>
    ghost var words: seq<seq<int>>
    ghost var log: seq<Event>

    constructor (headless: bool)
      ensures Valid() && this.headless == headless && Now() == State(map[], false, false, map[], [], [], [])
    {
      this.headless := headless;
      jobs, active, closed, playing, workers, offers := map[], 0, false, false, map[], 0;
      ids, words, log := [], [], [];
    }

    ghost function Now(): State
      reads this
    {
      State(jobs, closed, playing, workers, ids, words, log)
    }

    /** `active` is exactly the number of workers still running. */
    ghost predicate Valid()
      reads this
    {
      Now().Good() && active == |workers| && offers == |ids| == |words|
    }

    /** Sends one status for offer k of a pack, if the connection takes it. */
    method PackStatus(k: nat, id: Uuid, status: int, wrote: bool) returns (err: bool)
      requires k < |ids| == |words| && ids[k] == id
      modifies this`log, this`words
      ensures err == !wrote && Now() == if wrote then old(Now()).Written(k, status) else old(Now())
    {
      if wrote {
        words, log := words[k := words[k] + [status]], log + [Status(id, status, playing)];
      }
      err := !wrote;
    }

    /** A resource_pack_push packet: a new offer, which replaces any before it for its pack. */
    method Push(packet: bytes, urlOk: bool, wrote: bool) returns (err: bool)
      requires Valid()
      modifies this
      ensures Valid() && Kept(old(Now()), Now())
      ensures err == (old(closed) || PushedId(packet) == None || !wrote)
      ensures Now() == if old(closed) || PushedId(packet) == None then old(Now())
                       else Offered(old(Now()), PushedId(packet).value, Answer(headless, urlOk, old(active)), wrote)
      // Exactly one status goes out for the pack, and a worker starts exactly when it is 3.
      ensures !err ==>
                && |log| == |old(log)| + 1 && log[..|old(log)|] == old(log)
                && log[|old(log)|].Status? && log[|old(log)|].id == PushedId(packet).value
                && log[|old(log)|].play == old(playing)
                && (log[|old(log)|].status == 1 <==> !headless || (urlOk && |old(workers)| >= 4))
                && (log[|old(log)|].status == 5 <==> headless && !urlOk)
                && (log[|old(log)|].status == 3 <==> headless && urlOk && |old(workers)| < 4)
                && (log[|old(log)|].status == 3 <==> |workers| == |old(workers)| + 1)
                && workers == if log[|old(log)|].status == 3 then old(workers)[old(offers) := PushedId(packet).value]
                              else old(workers)
      ensures err ==> log == old(log) && workers == old(workers)
      // What was offered before for the pack is no longer a job; the offer is one if accepted.
      ensures PushedId(packet) != None && !old(closed) ==>
                jobs == if !err && log[|old(log)|].status == 3
                        then (old(jobs) - {PushedId(packet).value})[PushedId(packet).value := old(offers)]
                        else old(jobs) - {PushedId(packet).value}
    {
      hide State.Good, Kept, PushedId, Offered, Answer;
      KeptSame(Now());
      if closed { return true; }
      var offered := ReadPush(packet);
      if offered == None { return true; }
      AnswerIs(headless, urlOk, active);
      OfferedGood(Now(), offered.value, Answer(headless, urlOk, active), wrote);
      OfferedIs(Now(), offered.value, Answer(headless, urlOk, active), wrote);
      ghost var k, was := offers, workers;
      assert k !in was by { NotYet(Now(), k); }
      err := Offer(offered.value, urlOk, wrote);
      assert |was[k := offered.value]| == |was| + 1;
    }

    method Offer(id: Uuid, urlOk: bool, wrote: bool) returns (err: bool)
      requires offers == |ids| == |words|
      modifies this
      ensures err == !wrote && Now() == Offered(old(Now()), id, Answer(headless, urlOk, old(active)), wrote)
      ensures offers == |ids| == |words|
      ensures active == old(active) + if wrote && Answer(headless, urlOk, old(active)) == ACCEPTED then 1 else 0
    {
      var k := offers;
      jobs, offers := jobs - {id}, offers + 1;
      ids, words := ids + [id], words + [[]];
      if !headless {
        err := PackStatus(k, id, DECLINED, wrote);
        return;
      }
      if !urlOk {
        err := PackStatus(k, id, INVALID_URL, wrote);
        return;
      }
      if active >= 4 {
        err := PackStatus(k, id, DECLINED, wrote);
        return;
      }
      err := PackStatus(k, id, ACCEPTED, wrote);
      if err { return; }
      jobs, active, workers := jobs[id := k], active + 1, workers[k := id];
    }

    /** A resource_pack_pop packet: forgets one pack's job, or all of them. */
    method Pop(packet: bytes) returns (err: bool)
      requires Valid()
      modifies this`jobs
      ensures Valid() && Kept(old(Now()), Now())
      ensures err == (closed || PoppedIds(packet) == Malformed)
      ensures jobs == if err then old(jobs) else
                        match PoppedIds(packet)
                        case Malformed => old(jobs)
                        case All => map[]
                        case One(id) => old(jobs) - {id}
    {
      hide PoppedIds;
      if closed { return true; }
      var popped := ReadPop(packet);
      if popped == Malformed { return true; }
      PoppedGood(Now(), if popped == All then jobs.Keys else {popped.id});
      assert jobs - jobs.Keys == map[];
      if popped == All { jobs := map[]; } else { jobs := jobs - {popped.id}; }
      err := false;
    }

    /** A worker's locked completion, with how its download went. */
    method Complete(k: nat, status: int, cancelled: bool, wrote: bool, wroteAgain: bool)
      requires Valid() && k in workers && Outcome(status)
      modifies this
      ensures Valid() && Kept(old(Now()), Now())
      ensures k < |old(ids)| == |old(words)| && Now() == Finished(old(Now()), k, status, cancelled, wrote, wroteAgain)
      // The worker is gone. Only a live offer of a session that goes on is reported on: as a
      // download and what came of it, or as the failure it was.
      ensures workers == old(workers) - {k} && playing == old(playing) && closed == old(closed)
      ensures var id := old(workers)[k];
              var live := !old(closed) && id in old(jobs) && old(jobs)[id] == k;
              && jobs == (if live then old(jobs) - {id} else old(jobs))
              && log == old(log) +
                        if !live || cancelled || !wrote then []
                        else if status == 2 || status == 5 then [Status(id, status, playing)]
                        else if !wroteAgain then [Status(id, 4, playing)]
                        else [Status(id, 4, playing), Status(id, status, playing)]
    {
      FinishedIs(Now(), k, status, cancelled, wrote, wroteAgain);
      FinishedGood(Now(), k, status, cancelled, wrote, wroteAgain);
      WorkerOffer(Now(), k);
      hide State.Good, Kept, Finished;
      Release(k, status, cancelled, wrote, wroteAgain);
    }

    method Release(k: nat, status: int, cancelled: bool, wrote: bool, wroteAgain: bool)
      requires k in workers && k < |ids| == |words| && ids[k] == workers[k]
      modifies this`jobs, this`active, this`workers, this`words, this`log
      ensures Now() == Finished(old(Now()), k, status, cancelled, wrote, wroteAgain) && active == old(active) - 1
    {
      hide Reported;
      var id := workers[k];
      workers, active := workers - {k}, active - 1;
      if closed || id !in jobs || jobs[id] != k { return; }
      jobs := jobs - {id};
      if cancelled { return; }
      Report(k, id, status, wrote, wroteAgain);
    }

    /** The one or two statuses that report a finished download. */
    method Report(k: nat, id: Uuid, status: int, wrote: bool, wroteAgain: bool)
      requires k < |ids| == |words| && ids[k] == id
      modifies this`log, this`words
      ensures Now() == Reported(old(Now()), k, status, wrote, wroteAgain) && |ids| == |words|
    {
      if status == LOADED || status == FAILED_RELOAD {
        var failed := PackStatus(k, id, DOWNLOADED, wrote);
        if failed { return; }
        failed := PackStatus(k, id, status, wroteAgain);
      } else {
        var failed := PackStatus(k, id, status, wrote);
      }
    }

    /** Ends the session: every job is cancelled, and no step writes a status again. */
    method Close()
      requires Valid()
      modifies this`closed
      ensures Valid() && Kept(old(Now()), Now()) && Now() == old(Now()).(closed := true)
    {
      closed := true;
    }

    /** The end of configuration: the acknowledgement, and the switch to play. */
    method Finish(wrote: bool) returns (err: bool)
      requires Valid() && !playing
      modifies this`playing, this`log
      ensures Valid() && Kept(old(Now()), Now())
      ensures err == !wrote
      ensures Now() == if wrote then old(Now()).(playing := true, log := old(log) + [FinishAck]) else old(Now())
    {
      if !wrote { return true; }
      FinishGood(Now());
      log, playing := log + [FinishAck], true;
      err := false;
    }
  }

  lemma PoppedGood(s: State, gone: set<Uuid>)
    requires s.Good()
    ensures s.(jobs := s.jobs - gone).Good() && Kept(s, s.(jobs := s.jobs - gone))
  {
    SameLog(s, s.(jobs := s.jobs - gone));
    hide State.Logged;
  }

  lemma FinishGood(s: State)
    requires s.Good() && !s.playing
    ensures var s' := s.(playing := true, log := s.log + [FinishAck]);
            s'.Good() && Kept(s, s')
  {
    hide InPhase;
    PhaseAppend(s.log, s.playing, FinishAck);
    forall id ensures StatusesFor(s.log + [FinishAck], id) == StatusesFor(s.log, id) {
      StatusAppend(s.log, FinishAck, id);
    }
  }

  // ----------------------------------------------------------------------- whole runs

  datatype Step =
    | Pushed(packet: bytes, urlOk: bool, wrote: bool)
    | Popped(packet: bytes)
    | Completed(offer: nat, status: int, cancelled: bool, wrote: bool, wroteAgain: bool)
    | Closed
    | Configured(wrote: bool)

  /** Any interleaving of the steps. A completion happens only while its worker runs, and
      configuration ends only once. */
  method Replay(p: Packs, steps: seq<Step>)
    requires p.Valid()
    modifies p
    ensures p.Valid() && Kept(old(p.Now()), p.Now())
  {
    hide State.Good, Kept;
    KeptSame(p.Now());
    for i := 0 to |steps|
      invariant p.Valid() && Kept(old(p.Now()), p.Now())
    {
      ghost var before := p.Now();
      KeptSame(before);
      match steps[i] {
        case Pushed(packet, urlOk, wrote) => var err := p.Push(packet, urlOk, wrote);
        case Popped(packet) => var err := p.Pop(packet);
        case Completed(k, status, cancelled, wrote, again) =>
          if k in p.workers && Outcome(status) { p.Complete(k, status, cancelled, wrote, again); }
        case Closed => p.Close();
        case Configured(wrote) => if !p.playing { var err := p.Finish(wrote); }
      }
      KeptOn(old(p.Now()), before, p.Now());
    }
  }

  lemma KeptSame(s: State)
    ensures |s.words| == |s.ids| ==> Kept(s, s)
  {
  }
}
