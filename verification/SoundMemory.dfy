/** Every sound bank has one owner, is freed once, and is never used afterwards. */
module SoundMemory {
  import opened Pointers
  import opened Sound
  import opened SoundRing

  // ----- owners

  function Held(after: Then): Ptr {
    if after.Publish? then after.bank else NULL
  }

  /** The bank the compositor is about to publish or to free. */
  function CompositorBank(c: Compositor): Ptr {
    match c
    case Taking(after) => Held(after)
    case Collecting(_, after) => Held(after)
    case Exchanging(bank) => bank
    case Replacing(replaced, _) => replaced
    case _ => NULL
  }

  /** The bank the audio thread has taken and not yet made the playing one. */
  function NextBank(a: Audio): Ptr {
    match a
    case Taken(next) => next
    case Cleared(next) => next
    case Linked(next) => next
    case Pushed(next) => next
    case _ => NULL
  }

  /** The playing bank until it is pushed on the retired stack. */
  function PlayingBank(s: State): Ptr {
    if s.a.Pushed? then NULL else s.playing
  }

  function Occurs(ids: seq<Ptr>, p: Ptr): nat {
    if ids == [] then 0 else One(ids[0], p) + Occurs(ids[1..], p)
  }

  /** How often `p` is owned: by the plan, either thread, `pending`, `playing`, or one of the two lists. */
  function Owners(s: State, p: Ptr): nat {
    One(s.staged, p) + One(s.pending, p) + One(CompositorBank(s.c), p) + One(NextBank(s.a), p) + One(PlayingBank(s), p)
    + Occurs(s.chain, p) + Occurs(s.batch, p)
  }

  ghost predicate Owned(s: State) {
    forall p :: p != NULL ==> Owners(s, p) == if p in s.heap then 1 else 0
  }

  // ----- lists through `next`

  ghost predicate Chained(heap: map<Ptr, Bank>, p: Ptr, ids: seq<Ptr>)
    decreases ids
  {
    if ids == [] then p == NULL
    else p != NULL && p == ids[0] && p in heap && Chained(heap, heap[p].next, ids[1..])
  }

  /** `q` keeps its `next`, if it is on the list. */
  ghost predicate LinksKept(h: map<Ptr, Bank>, k: map<Ptr, Bank>, ids: seq<Ptr>) {
    forall q :: q in h && Occurs(ids, q) > 0 ==> q in k && k[q].next == h[q].next
  }

  lemma {:induction false} ListKept(h: map<Ptr, Bank>, k: map<Ptr, Bank>, p: Ptr, ids: seq<Ptr>)
    requires Chained(h, p, ids) && LinksKept(h, k, ids)
    ensures Chained(k, p, ids)
    decreases ids
  {
    if ids != [] {
      assert Occurs(ids, p) > 0;
      forall q | q in h && Occurs(ids[1..], q) > 0
        ensures q in k && k[q].next == h[q].next
      {
        assert Occurs(ids, q) > 0;
      }
      ListKept(h, k, h[p].next, ids[1..]);
    }
  }

  ghost predicate Lists(s: State) {
    && Chained(s.heap, s.retired, s.chain)
    && (if s.c.Collecting? then Chained(s.heap, s.c.at, s.batch) else s.batch == [])
  }

  // ----- contents

  predicate CuesFit(b: Bank) {
    && |b.cues| == EVENTS
    && (forall e :: 0 <= e < EVENTS && b.cues[e].count > 0 ==> b.cues[e].first + b.cues[e].count <= |b.samples|)
    && (forall k :: 0 <= k < |b.samples| ==> b.samples[k] > 0)
  }

  ghost predicate Contents(s: State) {
    forall p :: p in s.heap ==> CuesFit(s.heap[p])
  }

  /** Published banks have distinct generations no later than the counter. */
  ghost predicate Generations(s: State) {
    && (s.staged in s.heap ==> s.heap[s.staged].generation == 0)
    && (forall p :: p in s.heap && p != s.staged ==> 0 < s.heap[p].generation <= s.generation)
    && (forall p, q :: p in s.heap && q in s.heap && p != s.staged && s.heap[p].generation == s.heap[q].generation ==>
      p == q)
  }

  /** Any live bank of its generation is the bank the trigger was made for, and has the sample. */
  ghost predicate TriggerOk(s: State, t: Trigger) {
    && 0 < t.generation <= s.generation
    && (forall p :: p in s.heap && s.heap[p].generation == t.generation ==>
      p == t.bank && t.sample < |s.heap[p].samples|)
  }

  ghost predicate Triggers(s: State) {
    && (forall k :: 0 <= k < |s.sent| ==> TriggerOk(s, s.sent[k]))
    && (s.c.StoringHead? ==> TriggerOk(s, s.c.trigger))
  }

  /** A voice plays a sample of the playing bank, inside its frames, and of the generation it was asked for. */
  ghost predicate VoiceOk(s: State, v: Voice) {
    v.bank != NULL ==>
      && v.bank == s.playing && v.bank in s.heap && v.sample < |s.heap[v.bank].samples|
      && v.position < s.heap[v.bank].samples[v.sample]
      && v.origin == Trigger(s.heap[v.bank].generation, v.sample, v.bank)
  }

  ghost predicate Voices(s: State) {
    && |s.voices| == VOICES
    && (forall i :: 0 <= i < VOICES ==> VoiceOk(s, s.voices[i]))
    && (s.a.Cleared? || s.a.Linked? || s.a.Pushed? ==> forall i :: 0 <= i < VOICES ==> s.voices[i] == SILENT)
  }

  // ----- the bank the compositor plays from

  function Current(s: State): Ptr {
    match s.c
    case Replacing(_, bank) => bank
    case Storing(bank) => bank
    case _ => s.bank
  }

  function Newest(s: State): Ptr {
    if s.pending != NULL then s.pending else if NextBank(s.a) != NULL then NextBank(s.a) else PlayingBank(s)
  }

  ghost predicate Control(s: State) {
    && !s.bad && NULL !in s.heap
    && Current(s) == Newest(s)
    && (s.running ==> s.on)
    && (!s.running ==> s.a.Waiting?)
    && (s.a.Linked? ==> s.playing != NULL)
    && (NextBank(s.a) == NULL ==> !s.a.Taken? && !s.a.Cleared? && !s.a.Linked? && !s.a.Pushed?)
    && (CompositorBank(s.c) == NULL ==>
      !s.c.Exchanging? && (s.c.Taking? || s.c.Collecting? ==> s.c.after.Finish?))
    && (s.c.Replacing? ==> s.c.bank != NULL)
    && (s.c.Storing? ==> s.c.bank != NULL)
    && (s.c.LoadingTail? || s.c.Filling? ==> s.bank != NULL && s.c.event < EVENTS)
    && (!s.on ==> s.c.Idle? && s.bank == NULL && s.pending == NULL && s.playing == NULL)
    && (!s.on ==> s.retired == NULL && s.chain == [] && s.sent == [])
    && (s.c.FreeingLast? || ((s.c.Taking? || s.c.Collecting?) && s.c.after.Finish?) ==> !s.running)
    && ((s.c.FreeingLast? || (s.c.Collecting? && s.c.after.Finish?)) ==> s.retired == NULL && s.chain == [])
  }

  /** A cue that is being played has samples. */
  ghost predicate PlayedCue(s: State) {
    (s.c.LoadingTail? || s.c.Filling?) && s.bank in s.heap && s.c.event < EVENTS && CuesFit(s.heap[s.bank]) ==>
      s.heap[s.bank].cues[s.c.event].count > 0
  }

  ghost predicate Safe(s: State) {
    && Owned(s) && Lists(s) && Contents(s) && Generations(s) && Triggers(s) && Voices(s) && Control(s) && PlayedCue(s)
  }

  /** The compositor's bank is alive: it waits, or is being taken, or plays. */
  lemma CurrentLive(s: State)
    requires Safe(s)
    ensures Current(s) != NULL ==> Owners(s, Current(s)) == 1 && Current(s) in s.heap
  {
    var p := Current(s);
    if p != NULL {
      assert One(s.pending, p) + One(NextBank(s.a), p) + One(PlayingBank(s), p) > 0;
      assert Owners(s, p) > 0;
    }
  }

  lemma PlayingLive(s: State)
    requires Safe(s)
    ensures PlayingBank(s) != NULL ==> Owners(s, PlayingBank(s)) == 1 && PlayingBank(s) in s.heap
  {
    var p := PlayingBank(s);
    if p != NULL {
      assert One(PlayingBank(s), p) > 0;
      assert Owners(s, p) > 0;
    }
  }

  // ----- steps that leave the heap alone

  lemma StopLoopSafe(s: State)
    requires Safe(s)
    ensures Safe(StopLoopStep(s))
  {
  }

  lemma BeginFinishSafe(s: State)
    requires Safe(s)
    ensures Safe(BeginFinishStep(s))
  {
  }

  lemma TakeRetiredSafe(s: State)
    requires Safe(s)
    ensures Safe(TakeRetiredStep(s))
  {
  }

  lemma ExchangePendingSafe(s: State)
    requires Safe(s)
    ensures Safe(ExchangePendingStep(s))
  {
  }

  lemma StoreBankSafe(s: State)
    requires Safe(s)
    ensures Safe(StoreBankStep(s))
  {
  }

  lemma BeginPlaySafe(s: State, event: nat)
    requires Safe(s)
    ensures Safe(BeginPlayStep(s, event))
  {
    CurrentLive(s);
  }

  lemma FilledTrigger(s: State)
    requires Safe(s) && s.c.Filling?
    ensures s.bank in s.heap && s.c.event < |s.heap[s.bank].cues| && s.heap[s.bank].cues[s.c.event].count > 0
    ensures forall n: nat :: var cue := s.heap[s.bank].cues[s.c.event];
      TriggerOk(s, Trigger(s.heap[s.bank].generation, cue.first + n % cue.count, s.bank))
  {
    CurrentLive(s);
    assert One(s.staged, s.bank) + One(Newest(s), s.bank) <= Owners(s, s.bank);
    assert CuesFit(s.heap[s.bank]);
  }

  /** In the middle of `sound_play`. */
  predicate Cueing(c: Compositor) {
    c.LoadingTail? || c.Filling? || c.StoringHead?
  }

  /** The steps of `sound_play` touch no bank. */
  lemma PlayFrame(s: State, t: State)
    requires Owned(s) && Lists(s) && Contents(s) && Generations(s) && Voices(s)
    requires Cueing(s.c) && (Cueing(t.c) || t.c.Idle?)
    requires t == s.(c := t.c, triggers := t.triggers, cursor := t.cursor, head := t.head, sent := t.sent)
    ensures Owned(t) && Lists(t) && Contents(t) && Generations(t) && Voices(t)
  {
    forall p
      ensures Owners(t, p) == Owners(s, p)
    {
    }
  }

  lemma LoadTailSafe(s: State)
    requires Safe(s)
    ensures Safe(LoadTailStep(s))
  {
    hide Owned, Lists, Contents, Generations, Voices, CuesFit;
    if s.c.LoadingTail? {
      PlayFrame(s, LoadTailStep(s));
    }
  }

  lemma FillSlotSafe(s: State)
    requires Safe(s)
    ensures Safe(FillSlotStep(s))
  {
    hide Owned, Lists, Contents, Generations, Voices, CuesFit, Control, PlayedCue;
    if s.c.Filling? {
      FilledTrigger(s);
      PlayFrame(s, FillSlotStep(s));
      FilledControl(s);
    }
  }

  lemma FilledControl(s: State)
    requires Control(s) && PlayedCue(s) && s.c.Filling? && s.bank in s.heap
    ensures Control(FillSlotStep(s)) && PlayedCue(FillSlotStep(s))
  {
    hide CuesFit;
  }

  lemma StoreHeadSafe(s: State)
    requires Safe(s)
    ensures Safe(StoreHeadStep(s))
  {
    hide Owned, Lists, Contents, Generations, Voices, CuesFit;
    if s.c.StoringHead? {
      PlayFrame(s, StoreHeadStep(s));
    }
  }

  lemma TakePendingSafe(s: State)
    requires Safe(s)
    ensures Safe(TakePendingStep(s))
  {
  }

  lemma ClearVoicesSafe(s: State)
    requires Safe(s)
    ensures Safe(ClearVoicesStep(s))
  {
    hide Owned, Contents, Generations, CuesFit;
    ClearVoicesFrame(s, ClearVoicesStep(s));
  }

  /** Clearing the voices touches no bank. */
  lemma ClearVoicesFrame(s: State, t: State)
    requires Owned(s) && Contents(s) && Generations(s) && t == ClearVoicesStep(s)
    ensures Owned(t) && Contents(t) && Generations(t)
  {
    forall p
      ensures Owners(t, p) == Owners(s, p)
    {
    }
  }

  lemma StorePlayingSafe(s: State)
    requires Safe(s)
    ensures Safe(StorePlayingStep(s))
  {
  }

  /** The audio thread holds no bank but the playing one. */
  predicate Steady(a: Audio) {
    a.Waiting? || a.LoadingHead? || a.Reading? || a.Mixing?
  }

  /** A new set of voices on the same bank, between steps that own nothing new. */
  lemma VoicesSwapped(s: State, t: State)
    requires Safe(s) && Voices(t) && Steady(s.a) && Steady(t.a) && s.running
    requires t == s.(a := t.a, voices := t.voices, seen := t.seen, tail := t.tail, released := t.released)
    ensures Safe(t)
  {
    SteadyOwned(s, t);
    hide Owned, Lists, Contents, Generations, CuesFit, Voices;
  }

  lemma SteadyOwned(s: State, t: State)
    requires Owned(s) && Lists(s) && Contents(s) && Generations(s) && Steady(s.a) && Steady(t.a)
    requires t == s.(a := t.a, voices := t.voices, seen := t.seen, tail := t.tail, released := t.released)
    ensures Owned(t) && Lists(t) && Contents(t) && Generations(t)
  {
    forall p
      ensures Owners(t, p) == Owners(s, p)
    {
    }
    hide Owners, CuesFit, Chained;
  }

  lemma ConsumeVoices(s: State, t: Trigger, k: nat, a: Audio, seen: seq<Trigger>)
    requires Safe(s) && Steady(a) && TriggerOk(s, t) && k < VOICES
    requires s.playing in s.heap && t.generation == s.heap[s.playing].generation
    requires t.sample < |s.heap[s.playing].samples|
    ensures Voices(s.(a := a, seen := seen, voices := s.voices[k := Voice(s.playing, t.sample, 0, t)]))
  {
    assert CuesFit(s.heap[s.playing]);
  }

  lemma ConsumeSafe(s: State)
    requires Safe(s) && Ring(s)
    ensures Safe(ConsumeStep(s))
  {
    hide Pick, Safe, Voices, TriggerOk, Ring;
    if s.a.Reading? && s.a.tail != s.a.head && |s.triggers| == TRIGGERS && |s.voices| == VOICES {
      NextTrigger(s);
      ReadingFacts(s);
      var t := ConsumeStep(s);
      var trigger := s.triggers[s.a.tail % TRIGGERS];
      assert trigger == s.sent[|s.seen|];
      if t.voices != s.voices {
        ConsumeVoices(s, trigger, Pick(s.voices), t.a, t.seen);
      } else {
        SameVoices(s, t.a, t.seen);
      }
      VoicesSwapped(s, t);
    }
  }

  lemma SameVoices(s: State, a: Audio, seen: seq<Trigger>)
    requires Safe(s) && Steady(a)
    ensures Voices(s.(a := a, seen := seen))
  {
  }

  lemma LoadHeadSafe(s: State)
    requires Safe(s)
    ensures Safe(LoadHeadStep(s))
  {
    var t := LoadHeadStep(s);
    if s.a.LoadingHead? {
      LoadingFacts(s);
      SameVoices(s, t.a, t.seen);
      hide Safe, Voices;
      VoicesSwapped(s, t);
    }
  }

  lemma LoadingFacts(s: State)
    requires Safe(s) && s.a.LoadingHead?
    ensures s.running
  {
  }

  lemma ReadingFacts(s: State)
    requires Safe(s) && (s.a.Reading? || s.a.Mixing?)
    ensures s.running && (s.playing != NULL ==> s.playing in s.heap)
    ensures forall k :: 0 <= k < |s.sent| ==> TriggerOk(s, s.sent[k])
  {
    PlayingLive(s);
  }

  lemma StoreTailSafe(s: State, mapped: bool, count: nat)
    requires Safe(s)
    ensures Safe(StoreTailStep(s, mapped, count))
  {
    hide Safe, Voices;
    if s.a.Reading? {
      var t := StoreTailStep(s, mapped, count);
      ReadingFacts(s);
      SameVoices(s, t.a, s.seen);
      TailVoices(s.(a := t.a, seen := s.seen), t);
      VoicesSwapped(s, t);
    }
  }

  lemma TailVoices(s: State, t: State)
    requires Voices(s) && t == s.(tail := t.tail, released := t.released)
    ensures Voices(t)
  {
  }

  lemma MixVoices(s: State, i: nat, count: nat, a: Audio)
    requires Safe(s) && i < VOICES && s.voices[i].bank != NULL && Steady(s.a) && Steady(a)
    ensures VoiceOk(s, s.voices[i])
    ensures Voices(s.(a := a, voices := s.voices[i := Mixed(s.voices[i], count,
                                                            s.heap[s.playing].samples[s.voices[i].sample])]))
  {
  }

  lemma MixSafe(s: State)
    requires Safe(s)
    ensures Safe(MixStep(s))
  {
    hide Safe, Voices, Mixed;
    var t := MixStep(s);
    if s.a.Mixing? {
      ReadingFacts(s);
      if s.a.voice < VOICES == |s.voices| && s.voices[s.a.voice].bank != NULL {
        MixVoices(s, s.a.voice, s.a.count, t.a);
      } else {
        SixteenVoices(s);
        SameVoices(s, t.a, t.seen);
      }
      VoicesSwapped(s, t);
    }
  }

  lemma SixteenVoices(s: State)
    requires Safe(s)
    ensures |s.voices| == VOICES
  {
  }

  // ----- steps that change the heap

  /** Both lists survive a change of the heap that keeps the links of the banks on them. */
  lemma ListsKept(s: State, t: State)
    requires Lists(s) && t.retired == s.retired && t.chain == s.chain && t.batch == s.batch
    requires if s.c.Collecting? then t.c == s.c else !t.c.Collecting?
    requires LinksKept(s.heap, t.heap, s.chain) && LinksKept(s.heap, t.heap, s.batch)
    ensures Lists(t)
  {
    ListKept(s.heap, t.heap, s.retired, s.chain);
    if s.c.Collecting? {
      ListKept(s.heap, t.heap, s.c.at, s.batch);
    }
  }

  /** Something owned elsewhere is on neither list. */
  lemma OffLists(s: State, p: Ptr)
    requires Owned(s) && p != NULL
    requires p == s.staged || p == s.pending || p == CompositorBank(s.c) || p == NextBank(s.a) || p == PlayingBank(s)
    ensures p in s.heap && Owners(s, p) == 1 && Occurs(s.chain, p) == 0 && Occurs(s.batch, p) == 0
  {
    assert Owners(s, p) > 0;
  }

  /** `t` has lost the bank at `p` and is the same in what the contents depend on. */
  ghost predicate Lost(s: State, t: State, p: Ptr) {
    && t.heap == s.heap - {p} && t.generation == s.generation && t.sent == s.sent
    && (t.staged == s.staged || (p == s.staged && t.staged == NULL)) && !t.c.StoringHead? && NULL !in s.heap
    && t.voices == s.voices && t.a == s.a && t.playing == s.playing
  }

  lemma LosingKeeps(s: State, t: State, p: Ptr)
    requires Lost(s, t, p) && Contents(s) && Generations(s) && Triggers(s)
    ensures Contents(t) && Generations(t) && Triggers(t)
  {
  }

  lemma LosingKeepsVoices(s: State, t: State, p: Ptr)
    requires Lost(s, t, p) && Voices(s) && (p != s.playing || s.a.Pushed?)
    ensures Voices(t)
  {
  }

  /** Freeing an owned bank that neither thread plays from. */
  lemma Losing(s: State, t: State, p: Ptr)
    requires Safe(s) && Lost(s, t, p) && (p != s.playing || s.a.Pushed?)
    requires p in s.heap && forall q :: q != NULL ==> Owners(t, q) == Owners(s, q) - One(p, q)
    requires Lists(t) && Control(t) && !t.c.LoadingTail? && !t.c.Filling?
    ensures Safe(t)
  {
    hide Contents, Generations, Triggers, Voices, Control, Lists, Owners;
    OneOwner(s, p);
    LosingKeeps(s, t, p);
    LosingKeepsVoices(s, t, p);
  }

  lemma OneOwner(s: State, p: Ptr)
    requires Safe(s) && p in s.heap
    ensures p != NULL && Owners(s, p) == 1
  {
  }

  lemma DiscardSafe(s: State)
    requires Safe(s)
    ensures Safe(DiscardStep(s))
  {
    if s.staged != NULL && s.c.Idle? {
      OffLists(s, s.staged);
      ListsKept(s, DiscardStep(s));
      NotPlaying(s, s.staged);
      hide Lists, Contents, Generations, Triggers, Voices, PlayedCue;
      Losing(s, DiscardStep(s), s.staged);
    }
  }

  /** What is owned elsewhere is not being played. */
  lemma NotPlaying(s: State, p: Ptr)
    requires Owned(s) && p != NULL && One(s.staged, p) + One(s.pending, p) + One(CompositorBank(s.c), p)
      + Occurs(s.chain, p) + Occurs(s.batch, p) > 0
    ensures p in s.heap && (p == s.playing ==> s.a.Pushed?)
  {
    assert Owners(s, p) > 0;
  }

  lemma FreshContents(s: State, t: State, id: Ptr)
    requires s.staged == NULL && id !in s.heap && NULL !in s.heap
    requires t == s.(heap := s.heap[id := NoBank()], staged := id)
    requires Contents(s) && Generations(s) && Triggers(s) && Voices(s)
    ensures Contents(t) && Generations(t) && Triggers(t) && Voices(t)
  {
    assert Contents(t) && Generations(t);
    FreshTriggers(s, t, id);
    hide Contents, Generations, Triggers, TriggerOk;
  }

  lemma FreshTriggers(s: State, t: State, id: Ptr)
    requires id !in s.heap && t == s.(heap := s.heap[id := NoBank()], staged := id) && Triggers(s)
    ensures Triggers(t)
  {
    hide CuesFit;
  }

  lemma FreshBank(s: State, id: Ptr)
    requires Safe(s) && s.c.Idle? && s.staged == NULL && id != NULL && id !in s.heap
    ensures Safe(s.(heap := s.heap[id := NoBank()], staged := id))
  {
    hide Contents, Generations, Triggers, Voices, Lists;
    var t := s.(heap := s.heap[id := NoBank()], staged := id);
    assert Owners(s, id) == 0;
    ListsKept(s, t);
    FreshContents(s, t, id);
  }

  lemma StageSafe(s: State, id: Ptr)
    requires Safe(s)
    ensures Safe(StageStep(s, id))
  {
    if s.c.Idle? && id != NULL && id !in Freed(s, s.staged).heap {
      DiscardSafe(s);
      hide Safe;
      FreshBank(DiscardStep(s), id);
    }
  }

  lemma PresentFits(b: Bank, event: nat, frames: nat)
    requires CuesFit(b) && event < EVENTS && frames > 0
    requires b.cues[event].count == 0 || b.cues[event].first + b.cues[event].count == |b.samples|
    ensures var first := if b.cues[event].count == 0 then |b.samples| else b.cues[event].first;
      CuesFit(b.(cues := b.cues[event := Cue(first, b.cues[event].count + 1)], samples := b.samples + [frames]))
  {
  }

  /** `t` differs from `s` in the staged bank only, which keeps its link and its generation 0. */
  ghost predicate Restaged(s: State, t: State) {
    && s.staged in s.heap && s.staged in t.heap && t == s.(heap := s.heap[s.staged := t.heap[s.staged]])
    && CuesFit(t.heap[s.staged])
    && t.heap[s.staged].generation == s.heap[s.staged].generation && t.heap[s.staged].next == s.heap[s.staged].next
  }

  lemma RestagedContents(s: State, t: State)
    requires Restaged(s, t) && Contents(s) && Generations(s) && Triggers(s)
    ensures Contents(t) && Generations(t) && Triggers(t)
  {
  }

  lemma RestagedVoices(s: State, t: State)
    requires Restaged(s, t) && Voices(s) && (s.staged == s.playing ==> s.a.Pushed?)
    ensures Voices(t)
  {
    hide CuesFit;
  }

  lemma RestagedSafe(s: State, t: State)
    requires Safe(s) && Restaged(s, t) && s.staged != NULL && s.c.Idle?
    ensures Safe(t)
  {
    OffLists(s, s.staged);
    NotPlaying(s, s.staged);
    ListsKept(s, t);
    RestagedContents(s, t);
    RestagedVoices(s, t);
    SameKeysOwned(s, t);
    RestagedControl(s, t);
    hide Owned, Contents, Generations, Triggers, Voices, Lists, Control;
  }

  lemma RestagedControl(s: State, t: State)
    requires Control(s) && Restaged(s, t)
    ensures Control(t)
  {
  }

  /** Owners do not depend on what the banks hold. */
  lemma SameKeysOwned(s: State, t: State)
    requires Owned(s) && t.heap.Keys == s.heap.Keys
    requires t == s.(heap := t.heap, a := t.a) && NextBank(t.a) == NextBank(s.a) && (t.a.Pushed? <==> s.a.Pushed?)
    ensures Owned(t)
  {
    forall p
      ensures Owners(t, p) == Owners(s, p)
    {
    }
  }

  lemma PresentSafe(s: State, event: nat, frames: nat)
    requires Safe(s)
    ensures Safe(PresentStep(s, event, frames))
  {
    var t := PresentStep(s, event, frames);
    if s.c.Idle? && s.staged != NULL && t != s {
      OffLists(s, s.staged);
      StagedFits(s);
      hide Safe, CuesFit;
      PresentFits(s.heap[s.staged], event, frames);
      RestagedSafe(s, t);
    }
  }

  lemma StagedFits(s: State)
    requires Safe(s) && s.staged in s.heap
    ensures CuesFit(s.heap[s.staged]) && |s.heap[s.staged].cues| == EVENTS
  {
  }

  lemma CollectLists(s: State)
    requires Safe(s) && s.c.Collecting? && s.c.at != NULL
    ensures s.batch != [] && s.batch[0] == s.c.at && s.c.at in s.heap && Lists(CollectOneStep(s))
  {
    var p, t := s.c.at, CollectOneStep(s);
    assert Owners(s, p) == 1;
    ListKept(s.heap, t.heap, s.retired, s.chain);
    ListKept(s.heap, t.heap, s.heap[p].next, s.batch[1..]);
  }

  lemma CollectOwners(s: State, p: Ptr)
    requires s.c.Collecting? && s.c.at != NULL && s.batch != [] && s.batch[0] == s.c.at && s.c.at in s.heap
    ensures Owners(CollectOneStep(s), p) == Owners(s, p) - One(s.c.at, p)
  {
  }

  lemma CollectEnds(s: State)
    requires Safe(s) && s.c.Collecting? && s.c.at == NULL
    ensures Safe(CollectOneStep(s))
  {
    hide Owned, Contents, Generations, Voices;
    CollectEndsFrame(s, CollectOneStep(s));
  }

  /** The end of the list moves the compositor on, and touches no bank. */
  lemma CollectEndsFrame(s: State, t: State)
    requires Owned(s) && Contents(s) && Generations(s) && Voices(s) && s.c.Collecting? && s.c.at == NULL
    requires t == CollectOneStep(s)
    ensures Owned(t) && Contents(t) && Generations(t) && Voices(t)
  {
    forall p
      ensures Owners(t, p) == Owners(s, p)
    {
    }
  }

  lemma CollectControl(s: State)
    requires Safe(s) && s.c.Collecting? && s.c.at in s.heap
    ensures Control(CollectOneStep(s)) && Lost(s, CollectOneStep(s), s.c.at)
  {
  }

  lemma CollectOneSafe(s: State)
    requires Safe(s)
    ensures Safe(CollectOneStep(s))
  {
    if s.c.Collecting? {
      if s.c.at == NULL {
        CollectEnds(s);
      } else {
        CollectLists(s);
        NotPlaying(s, s.c.at);
        CollectControl(s);
        forall q
          ensures Owners(CollectOneStep(s), q) == Owners(s, q) - One(s.c.at, q)
        {
          CollectOwners(s, q);
        }
        hide Safe, Lists, Control, Lost, Owners;
        Losing(s, CollectOneStep(s), s.c.at);
      }
    }
  }

  lemma ReplacedControl(s: State)
    requires Safe(s) && s.c.Replacing? && s.c.replaced in s.heap
    ensures Control(FreeReplacedStep(s)) && Lost(s, FreeReplacedStep(s), s.c.replaced)
    ensures forall q :: q != NULL ==> Owners(FreeReplacedStep(s), q) == Owners(s, q) - One(s.c.replaced, q)
  {
  }

  lemma NothingReplaced(s: State)
    requires Safe(s) && s.c.Replacing? && s.c.replaced == NULL
    ensures Safe(FreeReplacedStep(s))
  {
  }

  lemma FreeReplacedSafe(s: State)
    requires Safe(s)
    ensures Safe(FreeReplacedStep(s))
  {
    if s.c.Replacing? {
      if s.c.replaced == NULL {
        NothingReplaced(s);
      } else {
        OffLists(s, s.c.replaced);
        ListsKept(s, FreeReplacedStep(s));
        NotPlaying(s, s.c.replaced);
        ReplacedControl(s);
        hide Safe, Lists, Control, Lost, Owners;
        Losing(s, FreeReplacedStep(s), s.c.replaced);
      }
    }
  }

  lemma OnlyStagedLeft(s: State)
    requires Safe(s) && s.c.FreeingLast?
    ensures s.chain == [] && s.batch == [] && !FreeLastStep(s).bad
    ensures forall p :: p in FreeLastStep(s).heap <==> p in s.heap && p == s.staged
  {
    hide Contents, Generations, Triggers, Voices, PlayedCue;
    if s.pending != NULL {
      OffLists(s, s.pending);
    }
    if s.playing != NULL {
      OffLists(s, s.playing);
    }
    forall p | p in s.heap
      ensures p == s.staged || p == s.pending || p == s.playing
    {
      assert Owners(s, p) == 1;
    }
    if s.staged != NULL {
      OffLists(s, s.staged);
    }
  }

  lemma FreeLastSafe(s: State)
    requires Safe(s)
    ensures Safe(FreeLastStep(s))
  {
    if s.c.FreeingLast? {
      OnlyStagedLeft(s);
      StagedLive(s);
      LastSafe(s, FreeLastStep(s));
    }
  }

  lemma StagedLive(s: State)
    requires Safe(s)
    ensures s.staged != NULL ==> s.staged in s.heap
  {
    if s.staged != NULL {
      OffLists(s, s.staged);
    }
  }

  lemma LastSafe(s: State, t: State)
    requires Contents(s) && Generations(s) && NULL !in s.heap && (s.staged != NULL ==> s.staged in s.heap)
    requires forall p :: p in t.heap <==> p in s.heap && p == s.staged
    requires s.staged in t.heap ==> t.heap[s.staged] == s.heap[s.staged]
    requires t.staged == s.staged && t == NoSound(t, false).(c := Idle) && !t.bad
    ensures Safe(t)
  {
  }

  /** `t` differs from `s` in the link of the playing bank only. */
  ghost predicate Relinked(s: State, t: State) {
    && s.playing in s.heap && s.playing in t.heap
    && t == s.(heap := s.heap[s.playing := s.heap[s.playing].(next := t.heap[s.playing].next)],
               retired := t.retired, chain := t.chain, a := t.a)
  }

  lemma RelinkedContents(s: State, t: State)
    requires Relinked(s, t) && Contents(s) && Generations(s)
    ensures Contents(t) && Generations(t)
  {
  }

  lemma RelinkedTriggers(s: State, t: State)
    requires Relinked(s, t) && Triggers(s) && PlayedCue(s)
    ensures Triggers(t) && PlayedCue(t)
  {
  }

  lemma RelinkedVoices(s: State, t: State)
    requires Relinked(s, t) && Voices(s) && !t.a.Cleared?
    requires t.a.Linked? || t.a.Pushed? ==> forall i :: 0 <= i < VOICES ==> s.voices[i] == SILENT
    ensures Voices(t)
  {
  }

  /** Writing the link of the playing bank while the audio thread holds it. */
  lemma RelinkedSafe(s: State, t: State)
    requires Safe(s) && Relinked(s, t) && t.retired == s.retired && t.chain == s.chain
    requires s.playing != NULL && (s.a.Cleared? || s.a.Linked?) && t.a == Linked(NextBank(s.a))
    ensures Safe(t)
  {
    OffLists(s, s.playing);
    ListsKept(s, t);
    RelinkedContents(s, t);
    RelinkedTriggers(s, t);
    RelinkedVoices(s, t);
    RelinkedOwned(s, t);
    RelinkedControl(s, t);
    hide Owned, Lists, Contents, Generations, Triggers, Voices, PlayedCue, Control, Relinked;
  }

  lemma RelinkedOwned(s: State, t: State)
    requires Owned(s) && Relinked(s, t) && t.retired == s.retired && t.chain == s.chain
    requires (s.a.Cleared? || s.a.Linked?) && t.a == Linked(NextBank(s.a))
    ensures Owned(t)
  {
    forall p
      ensures Owners(t, p) == Owners(s, p)
    {
    }
  }

  lemma RelinkedControl(s: State, t: State)
    requires Control(s) && Relinked(s, t) && t.retired == s.retired && t.chain == s.chain
    requires s.playing != NULL && (s.a.Cleared? || s.a.Linked?) && t.a == Linked(NextBank(s.a))
    ensures Control(t)
  {
  }

  lemma LinkOldSafe(s: State)
    requires Safe(s)
    ensures Safe(LinkOldStep(s))
  {
    if s.a.Cleared? {
      if s.playing == NULL {
        FirstBankSafe(s);
      } else {
        OffLists(s, s.playing);
        hide Safe;
        RelinkedSafe(s, LinkOldStep(s));
      }
    }
  }

  lemma FirstBankSafe(s: State)
    requires Safe(s) && s.a.Cleared? && s.playing == NULL
    ensures Safe(s.(a := Pushed(s.a.next)))
  {
  }

  lemma PushedLists(s: State, t: State)
    requires Safe(s) && s.a.Linked? && t == PushOldStep(s, false)
    requires s.playing in s.heap && s.retired == s.heap[s.playing].next
    ensures Lists(t) && forall p :: Occurs(t.chain, p) == One(s.playing, p) + Occurs(s.chain, p)
  {
    assert t.chain[1..] == s.chain;
  }

  lemma PushedOwned(s: State, t: State)
    requires Owned(s) && s.a.Linked? && t == PushOldStep(s, false)
    requires s.playing in s.heap && s.retired == s.heap[s.playing].next
    requires forall p :: Occurs(t.chain, p) == One(s.playing, p) + Occurs(s.chain, p)
    ensures Owned(t)
  {
    forall p | p != NULL
      ensures Owners(t, p) == Owners(s, p)
    {
    }
    assert t.heap.Keys == s.heap.Keys;
  }

  lemma PushSucceeds(s: State)
    requires Safe(s) && s.a.Linked? && s.playing in s.heap && s.retired == s.heap[s.playing].next
    ensures Safe(PushOldStep(s, false))
  {
    var t := PushOldStep(s, false);
    RelinkedContents(s, t);
    RelinkedTriggers(s, t);
    RelinkedVoices(s, t);
    PushedLists(s, t);
    PushedOwned(s, t);
    hide Owned, Lists, Contents, Generations, Triggers, Voices, PlayedCue;
  }

  lemma PushOldSafe(s: State, spurious: bool)
    requires Safe(s)
    ensures Safe(PushOldStep(s, spurious))
  {
    if s.a.Linked? {
      OffLists(s, s.playing);
      if !spurious && s.retired == s.heap[s.playing].next {
        PushSucceeds(s);
      } else {
        hide Safe;
        RelinkedSafe(s, PushOldStep(s, spurious));
      }
    }
  }

  /** Nothing but the staged bank is alive without a sound object. */
  lemma OffMeansStagedOnly(s: State)
    requires Safe(s) && !s.on
    ensures forall p :: p in s.heap ==> p == s.staged
  {
    forall p | p in s.heap
      ensures p == s.staged
    {
      assert Owners(s, p) == 1;
    }
  }

  lemma SoundCreated(s: State)
    requires Safe(s) && !s.on
    ensures Safe(NoSound(s, true))
  {
    OffMeansStagedOnly(s);
    StagedLive(s);
  }

  /** `t` is `s` with the staged bank given the next generation and on its way to `pending`. */
  ghost predicate Numbered(s: State, t: State) {
    && s.staged in s.heap
    && t == s.(staged := NULL, generation := s.generation + 1,
               heap := s.heap[s.staged := s.heap[s.staged].(generation := s.generation + 1)],
               c := Taking(Publish(s.staged)))
  }

  lemma NumberedContents(s: State, t: State)
    requires Numbered(s, t) && NULL !in s.heap && Contents(s) && Generations(s) && Triggers(s)
    ensures Contents(t) && Generations(t) && Triggers(t)
  {
  }

  lemma NumberedVoices(s: State, t: State)
    requires Numbered(s, t) && Voices(s) && (s.staged == s.playing ==> s.a.Pushed?)
    ensures Voices(t)
  {
  }

  lemma NumberedOwned(s: State, t: State)
    requires Owned(s) && s.c.Idle? && Numbered(s, t)
    ensures Owned(t)
  {
    assert CompositorBank(t.c) == s.staged && CompositorBank(s.c) == NULL;
    assert NextBank(t.a) == NextBank(s.a) && PlayingBank(t) == PlayingBank(s);
    forall p | p != NULL
      ensures Owners(t, p) == Owners(s, p)
    {
    }
    assert t.heap.Keys == s.heap.Keys;
  }

  lemma NumberedSafe(s: State, t: State)
    requires Safe(s) && s.on && s.c.Idle? && Numbered(s, t)
    ensures Safe(t)
  {
    NotPlaying(s, s.staged);
    OffLists(s, s.staged);
    ListsKept(s, t);
    NumberedContents(s, t);
    NumberedVoices(s, t);
    NumberedOwned(s, t);
    NumberedControl(s, t);
    hide Owned, Lists, Contents, Generations, Triggers, Voices, Control;
  }

  lemma NumberedControl(s: State, t: State)
    requires Control(s) && s.on && s.c.Idle? && Numbered(s, t) && s.staged != NULL
    ensures Control(t)
  {
  }

  lemma EmptyFreed(s: State)
    requires Safe(s) && s.c.Idle? && s.staged != NULL
    ensures Safe(Freed(s, s.staged).(staged := NULL, c := if s.on then Stopping else Idle))
  {
    hide Safe;
    DiscardSafe(s);
    BeginFinishSafe(DiscardStep(s));
  }

  lemma BeginPublishSafe(s: State)
    requires Safe(s)
    ensures Safe(BeginPublishStep(s))
  {
    if s.c.Idle? && s.staged != NULL {
      OffLists(s, s.staged);
      NoDangling(s);
      if s.heap[s.staged].samples == [] {
        EmptyFreed(s);
      } else {
        var t := if s.on then s else NoSound(s, true);
        if !s.on {
          SoundCreated(s);
        }
        hide Safe;
        NumberedSafe(t, BeginPublishStep(s));
      }
    }
  }

  lemma NoDangling(s: State)
    requires Safe(s)
    ensures !s.bad
  {
  }

  // ----- runs

  lemma StartSafe()
    ensures Safe(Start())
  {
  }

  lemma StepSafe(s: State, x: Action)
    requires Safe(s) && Ring(s)
    ensures Safe(Next(s, x))
  {
    hide Safe, Ring;
    match x
    case Stage(id) => StageSafe(s, id);
    case Present(event, frames) => PresentSafe(s, event, frames);
    case Discard => DiscardSafe(s);
    case BeginPublish => BeginPublishSafe(s);
    case BeginFinish => BeginFinishSafe(s);
    case StopLoop => StopLoopSafe(s);
    case TakeRetired => TakeRetiredSafe(s);
    case CollectOne => CollectOneSafe(s);
    case ExchangePending => ExchangePendingSafe(s);
    case FreeReplaced => FreeReplacedSafe(s);
    case StoreBank => StoreBankSafe(s);
    case FreeLast => FreeLastSafe(s);
    case BeginPlay(event) => BeginPlaySafe(s, event);
    case LoadTail => LoadTailSafe(s);
    case FillSlot => FillSlotSafe(s);
    case StoreHead => StoreHeadSafe(s);
    case TakePending => TakePendingSafe(s);
    case ClearVoices => ClearVoicesSafe(s);
    case LinkOld => LinkOldSafe(s);
    case PushOld(spurious) => PushOldSafe(s, spurious);
    case StorePlaying => StorePlayingSafe(s);
    case LoadHead => LoadHeadSafe(s);
    case Consume => ConsumeSafe(s);
    case StoreTail(mapped, count) => StoreTailSafe(s, mapped, count);
    case Mix => MixSafe(s);
  }

  lemma {:induction false} RunsSafe(steps: seq<Action>)
    ensures Safe(Run(steps))
  {
    if steps == [] {
      StartSafe();
    } else {
      RunsSafe(steps[..|steps| - 1]);
      RunsKeepRing(steps[..|steps| - 1]);
      StepSafe(Run(steps[..|steps| - 1]), steps[|steps| - 1]);
    }
  }

  /**
   * Under every interleaving: no bank is freed twice or used after it is freed, every live bank has exactly one
   * owner and everything owned is alive, and no bank leaks once the sound object is gone.
   */
  lemma OneOwnerAlways(steps: seq<Action>)
    ensures var s := Run(steps);
      && !s.bad
      && (forall p :: p != NULL ==> Owners(s, p) == if p in s.heap then 1 else 0)
      && (!s.on ==> forall p :: p in s.heap ==> p == s.staged)
  {
    RunsSafe(steps);
    if !Run(steps).on {
      OffMeansStagedOnly(Run(steps));
    }
  }

  /** Voices point only into the playing bank, and the compositor's bank waits, has just been taken, or plays. */
  lemma PointersAlways(steps: seq<Action>)
    ensures var s := Run(steps);
      && (forall v :: v in s.voices && v.bank != NULL ==> v.bank == s.playing && v.bank in s.heap)
      && (s.c.Idle? && s.bank != NULL ==> s.bank in s.heap && s.bank in {s.pending, NextBank(s.a), PlayingBank(s)})
  {
    RunsSafe(steps);
    var s := Run(steps);
    CurrentLive(s);
    forall v | v in s.voices
      ensures VoiceOk(s, v)
    {
    }
  }

  /** A sounding voice plays the very sample its trigger was made for, from the bank that was current then. */
  lemma VoicesFollowTriggers(steps: seq<Action>)
    ensures var s := Run(steps);
      forall v :: v in s.voices && v.bank != NULL ==>
        && v.bank in s.heap && v.origin == Trigger(s.heap[v.bank].generation, v.sample, v.bank)
        && v.sample < |s.heap[v.bank].samples| && v.position < s.heap[v.bank].samples[v.sample]
  {
    RunsSafe(steps);
    var s := Run(steps);
    forall v | v in s.voices
      ensures VoiceOk(s, v)
    {
    }
  }
}
