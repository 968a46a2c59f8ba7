/** What the steps of the two threads achieve: sounds that are played are heard, and banks arrive. */
module SoundFlow {
  import opened Pointers
  import opened Sound
  import opened SoundRing
  import opened SoundMemory

  // ----- the audio thread reads triggers

  /** The playing bank can play the sample that the trigger asks for. */
  predicate Playable(s: State, t: Trigger) {
    && s.playing != NULL && s.playing in s.heap
    && t.generation == s.heap[s.playing].generation && t.sample < |s.heap[s.playing].samples|
  }

  /** The trigger starts the chosen voice if the playing bank can play it, and otherwise no voice changes. */
  ghost predicate Heard(s: State, t: Trigger, voices: seq<Voice>) {
    if Playable(s, t) then
      exists k: nat :: Chosen(s.voices, k) && voices == s.voices[k := Voice(s.playing, t.sample, 0, t)]
    else
      voices == s.voices
  }

  /** Reading takes the next trigger of the queue, and it is heard. */
  lemma ConsumeStarts(s: State)
    requires Safe(s) && Ring(s) && s.a.Reading? && s.a.tail != s.a.head
    ensures |s.seen| < |s.sent| && Next(s, Consume).seen == s.seen + [s.sent[|s.seen|]]
    ensures Heard(s, s.sent[|s.seen|], Next(s, Consume).voices)
  {
    hide Safe, Ring, Chosen;
    NextTrigger(s);
    PlayingKnown(s);
    assert Chosen(s.voices, Pick(s.voices));
  }

  lemma PlayingKnown(s: State)
    requires Safe(s) && s.a.Reading?
    ensures |s.voices| == VOICES && (s.playing != NULL ==> s.playing in s.heap)
    ensures Ring(s) ==> |s.triggers| == TRIGGERS
  {
    PlayingLive(s);
  }

  function Consumed(s: State, n: nat): State {
    if n == 0 then s else Next(Consumed(s, n - 1), Consume)
  }

  /** Once the audio thread has loaded `head` it reads every trigger that was stored by then, in order. */
  lemma ReadsAll(s: State)
    requires Ring(s) && Safe(s) && s.a.LoadingHead?
    ensures var r := Next(s, LoadHead);
      r.a.Reading? && r.a.goal == |s.sent| && |r.seen| <= |r.sent| &&
      var done := Consumed(r, |s.sent| - |s.seen|);
      done.a.Reading? && done.a.tail == done.a.head && done.seen == s.sent
  {
    LoadHeadKeepsRing(s);
    LoadHeadSafe(s);
    ReadsTo(Next(s, LoadHead), |s.sent| - |s.seen|);
  }

  /** After `n` triggers more have been read they are the next `n` of the queue. */
  lemma {:induction false} ReadsTo(r: State, n: nat)
    requires Ring(r) && Safe(r) && r.a.Reading? && n <= r.a.goal - |r.seen|
    ensures var d := Consumed(r, n);
      && Ring(d) && Safe(d) && d.a.Reading? && d.a.goal == r.a.goal && d.sent == r.sent && |d.seen| == |r.seen| + n
      && (d.a.tail == d.a.head <==> |d.seen| == d.a.goal) && d.seen == r.sent[..|d.seen|]
  {
    hide Safe;
    if n > 0 {
      ReadsTo(r, n - 1);
      var d := Consumed(r, n - 1);
      ReadsOne(d);
      ConsumeSafe(d);
      ConsumeKeepsRing(d);
    }
    CaughtUp(Consumed(r, n));
  }

  lemma ReadsOne(s: State)
    requires Ring(s) && Safe(s) && s.a.Reading? && s.a.tail != s.a.head
    ensures var d := Next(s, Consume);
      d.a.Reading? && d.a.goal == s.a.goal && d.sent == s.sent && |d.seen| == |s.seen| + 1
  {
    hide Safe, Ring;
    PlayingKnown(s);
  }

  lemma CaughtUp(s: State)
    requires Ring(s) && s.a.Reading?
    ensures s.a.tail == s.a.head <==> |s.seen| == s.a.goal
    ensures s.seen == s.sent[..|s.seen|]
  {
    WrappedDifference(s.a.goal, |s.seen|);
  }

  /** Caught up, the audio thread gives back every slot it read, and mixes if it has somewhere to mix to. */
  lemma TailStored(s: State, mapped: bool, count: nat)
    requires Ring(s) && s.a.Reading? && s.a.tail == s.a.head
    ensures var t := Next(s, StoreTail(mapped, count));
      && t.released == |s.seen| == s.a.goal && t.tail == |s.seen| % WRAP && t.voices == s.voices
      && t.a == (if mapped then Mixing(0, count) else Waiting)
  {
    CaughtUp(s);
  }

  // ----- the audio thread takes a bank

  /** The old bank is linked and pushed, when nothing interferes. */
  function Retires(s: State): State {
    Next(Next(s, LinkOld), PushOld(false))
  }

  /** The steps from the load of `pending` to the store of `playing`, when nothing interferes. */
  function TakesOver(s: State): State {
    Next(Retires(Next(Next(s, TakePending), ClearVoices)), StorePlaying)
  }

  predicate AllSilent(voices: seq<Voice>) {
    |voices| == VOICES && forall i :: 0 <= i < VOICES ==> voices[i] == SILENT
  }

  /** A pending bank becomes the playing one, every voice falls silent, and the old bank waits to be freed. */
  lemma PendingPlays(s: State)
    requires Safe(s) && s.running && s.a.Waiting? && s.pending != NULL
    ensures var t := TakesOver(s);
      && t.playing == s.pending && t.pending == NULL && t.a == LoadingHead
      && AllSilent(t.voices)
      && t.chain == (if s.playing == NULL then s.chain else [s.playing] + s.chain)
      && (s.playing != NULL ==> t.retired == s.playing)
  {
    var c := Next(Next(s, TakePending), ClearVoices);
    assert c == s.(pending := NULL, voices := seq(VOICES, _ => SILENT), a := Cleared(s.pending));
    hide Safe, LinkOldStep, PushOldStep;
    OldRetires(c);
  }

  lemma OldRetires(c: State)
    requires c.a.Cleared?
    ensures var t := Retires(c);
      && t.a == Pushed(c.a.next) && t.voices == c.voices && t.playing == c.playing && t.pending == c.pending
      && t.chain == (if c.playing == NULL then c.chain else [c.playing] + c.chain)
      && (c.playing != NULL ==> t.retired == c.playing)
  {
  }

  /** Without a pending bank the audio thread goes on with the one it plays. */
  lemma NothingPending(s: State)
    requires s.running && s.a.Waiting? && s.pending == NULL
    ensures Next(s, TakePending) == s.(a := LoadingHead)
  {
  }

  predicate Advanced(s: State, v: Voice, r: Voice, count: nat) {
    if v.bank == NULL then
      r == v
    else
      && v.bank in s.heap && v.sample < |s.heap[v.bank].samples|
      && var frames := s.heap[v.bank].samples[v.sample];
      r == if v.position + count < frames then v.(position := v.position + count) else SILENT
  }

  /** A voice that is mixed moves on by `count` frames, or falls silent at the end of its sample; the others wait. */
  lemma MixAdvances(s: State)
    requires Safe(s) && s.a.Mixing?
    ensures |s.voices| == VOICES
    ensures var t := Next(s, Mix);
      && t.a == (if s.a.voice < VOICES then Mixing(s.a.voice + 1, s.a.count) else Waiting)
      && |t.voices| == VOICES && (forall k :: 0 <= k < VOICES && k != s.a.voice ==> t.voices[k] == s.voices[k])
    ensures s.a.voice < VOICES ==> Advanced(s, s.voices[s.a.voice], Next(s, Mix).voices[s.a.voice], s.a.count)
  {
    hide Safe, VoiceOk;
    SixteenVoices(s);
    if s.a.voice < VOICES {
      VoiceKnown(s, s.a.voice);
    }
  }

  lemma VoiceKnown(s: State, i: nat)
    requires Safe(s) && i < VOICES
    ensures |s.voices| == VOICES
    ensures var v := s.voices[i]; v.bank != NULL ==>
      v.bank in s.heap && v.sample < |s.heap[v.bank].samples| && v.position < s.heap[v.bank].samples[v.sample]
  {
  }

  // ----- the compositor plays a cue

  function Plays(s: State, event: nat): State {
    Next(Next(Next(Next(s, BeginPlay(event)), LoadTail), FillSlot), StoreHead)
  }

  /** A trigger for the next sample of the cue joins the queue. */
  predicate Queued(s: State, t: State, event: nat)
    requires s.bank in s.heap && event < |s.heap[s.bank].cues| && event < |s.cursor|
  {
    var cue, n := s.heap[s.bank].cues[event], s.cursor[event];
    && cue.count > 0 && t.c.Idle? && t.cursor == s.cursor[event := (n + 1) % WRAP]
    && t.sent == s.sent + [Trigger(s.heap[s.bank].generation, cue.first + n % cue.count, s.bank)]
    && t.voices == s.voices && t.heap == s.heap && t.a == s.a
  }

  /** A cue is played from its samples in turn, unless 64 triggers wait; a cue without samples is silent. */
  lemma CuePlays(s: State, event: nat)
    requires Safe(s) && Ring(s) && s.c.Idle? && s.on && s.bank != NULL && event < EVENTS
    ensures s.bank in s.heap && |s.heap[s.bank].cues| == EVENTS == |s.cursor|
    ensures s.heap[s.bank].cues[event].count == 0 || |s.sent| - s.released >= TRIGGERS ==> Plays(s, event) == s
    ensures s.heap[s.bank].cues[event].count > 0 && |s.sent| - s.released < TRIGGERS ==>
      Queued(s, Plays(s, event), event)
  {
    hide Safe, Ring, LoadTailStep;
    BankKnown(s);
    RingFacts(s);
    RingSlots(s);
    var l := Next(s, BeginPlay(event));
    TailLoaded(l);
    if s.heap[s.bank].cues[event].count > 0 {
      assert l == s.(c := LoadingTail(event));
      BeginPlayRing(s, event);
      LoadTailKeepsRing(l);
    }
  }

  lemma TailLoaded(s: State)
    ensures !s.c.LoadingTail? ==> LoadTailStep(s) == s
    ensures s.c.LoadingTail? ==>
      LoadTailStep(s) == s.(c := if LoadTailStep(s).c.Filling? then Filling(s.c.event) else Idle)
  {
  }

  lemma RingSlots(s: State)
    requires Ring(s)
    ensures |s.triggers| == TRIGGERS
  {
  }

  lemma BankKnown(s: State)
    requires Safe(s) && s.c.Idle? && s.bank != NULL
    ensures s.bank in s.heap && |s.heap[s.bank].cues| == EVENTS
  {
    CurrentLive(s);
    assert CuesFit(s.heap[s.bank]);
  }

  lemma BeginPlayRing(s: State, event: nat)
    requires Ring(s)
    ensures Ring(Next(s, BeginPlay(event)))
  {
    RingFacts(s);
    CueingIsApart(s, BeginPlay(event));
    SameRingKept(s, Next(s, BeginPlay(event)));
  }

  // ----- the compositor plans and publishes a bank

  /** A new plan starts with an empty bank, and the bank of the plan before is freed. */
  lemma StagesEmpty(s: State, id: Ptr)
    requires Safe(s) && s.c.Idle? && id != NULL && id !in s.heap
    ensures var t := Next(s, Stage(id));
      && t.staged == id && t.heap.Keys == s.heap.Keys - {s.staged} + {id}
      && t.heap[id].samples == [] && (forall e :: 0 <= e < |t.heap[id].cues| ==> t.heap[id].cues[e].count == 0)
      && forall p :: p in s.heap && p != s.staged ==> t.heap[p] == s.heap[p]
  {
    hide Safe;
    NoDangling(s);
    StagedLive(s);
    NullIsNoBank(s);
  }

  lemma NullIsNoBank(s: State)
    requires Safe(s)
    ensures NULL !in s.heap
  {
  }

  /** A sample joins the cue of its event as long as the samples of the cue stay together. */
  lemma SampleJoins(s: State, event: nat, frames: nat)
    requires Safe(s) && s.c.Idle? && s.staged != NULL && event < EVENTS && frames > 0
    ensures s.staged in s.heap && |s.heap[s.staged].cues| == EVENTS
    ensures var b := s.heap[s.staged];
      var cue, t := b.cues[event], Next(s, Present(event, frames));
      if cue.count > 0 && cue.first + cue.count != |b.samples| then t == s
      else
        && t.staged in t.heap && t.staged == s.staged && t.heap[s.staged].samples == b.samples + [frames]
        && |t.heap[s.staged].cues| == EVENTS && t.heap[s.staged].cues[event].count == cue.count + 1
        && t.heap[s.staged].cues[event].first + cue.count == |b.samples|
        && forall e :: 0 <= e < EVENTS && e != event ==> t.heap[s.staged].cues[e] == b.cues[e]
  {
    hide Safe;
    StagedLive(s);
    StagedFits(s);
  }

  /** Publishing a bank that has samples gives it the next generation; one without samples ends the sound. */
  lemma PublishBegins(s: State)
    requires Safe(s) && s.c.Idle? && s.staged != NULL
    ensures s.staged in s.heap
    ensures var t := Next(s, BeginPublish);
      && t.staged == NULL
      && (s.heap[s.staged].samples == [] ==> s.staged !in t.heap && (t.c == if s.on then Stopping else Idle))
      && (s.heap[s.staged].samples != [] ==>
        && t.c == Taking(Publish(s.staged)) && t.on && s.staged in t.heap
        && t.generation == (if s.on then s.generation else 0) + 1
        && t.heap[s.staged] == s.heap[s.staged].(generation := t.generation))
  {
    hide Safe;
    StagedLive(s);
  }

  /** A plan that is given up takes its bank with it. */
  lemma Discards(s: State)
    requires Safe(s) && s.c.Idle?
    ensures Next(s, Discard).staged == NULL && Next(s, Discard).heap == s.heap - {s.staged}
  {
    hide Safe;
    StagedLive(s);
    NullIsNoBank(s);
  }

  /** The whole retired stack is taken to be freed. */
  lemma TakesRetired(s: State)
    requires Safe(s) && s.c.Taking?
    ensures var t := Next(s, TakeRetired);
      t.retired == NULL && t.chain == [] && t.batch == s.chain && t.c == Collecting(s.retired, s.c.after)
  {
  }

  function Collects(s: State, n: nat): State {
    if n == 0 then s else Next(Collects(s, n - 1), CollectOne)
  }

  /** The whole retired list is freed, and nothing else, before the bank goes on its way. */
  lemma {:induction false} CollectsAll(s: State, n: nat)
    requires Safe(s) && s.c.Collecting? && n <= |s.batch|
    ensures var t := Collects(s, n);
      && Safe(t) && t.c.Collecting? && t.c.after == s.c.after && t.batch == s.batch[n..]
      && (forall p :: p in t.heap <==> p in s.heap && p !in s.batch[..n])
      && (forall p :: p in t.heap ==> t.heap[p] == s.heap[p])
    ensures n == |s.batch| ==>
      Next(Collects(s, n), CollectOne).c ==
        match s.c.after case Publish(bank) => Exchanging(bank) case Finish => FreeingLast
  {
    hide Safe, CollectOneStep;
    if n > 0 {
      CollectsAll(s, n - 1);
      var t := Collects(s, n - 1);
      CollectsOne(t);
      CollectOneSafe(t);
      assert s.batch[..n] == s.batch[..n - 1] + [s.batch[n - 1]];
    } else {
      assert s.batch[0..] == s.batch;
    }
    if n == |s.batch| {
      CollectsEnd(Collects(s, n));
    }
  }

  lemma CollectsOne(s: State)
    requires Safe(s) && s.c.Collecting? && s.batch != []
    ensures var t := Next(s, CollectOne);
      && t.c.Collecting? && t.c.after == s.c.after && t.batch == s.batch[1..] && s.batch[0] in s.heap
      && t.heap == s.heap - {s.batch[0]}
  {
  }

  lemma CollectsEnd(s: State)
    requires Safe(s) && s.c.Collecting? && s.batch == []
    ensures s.c.at == NULL
    ensures Next(s, CollectOne).c ==
      match s.c.after case Publish(bank) => Exchanging(bank) case Finish => FreeingLast
  {
  }

  /** Then it is pending, replaces an earlier pending bank, and becomes the bank cues are played from. */
  lemma PublishEnds(s: State)
    requires Safe(s) && s.c.Exchanging?
    ensures var t := Next(Next(Next(s, ExchangePending), FreeReplaced), StoreBank);
      && t.c.Idle? && t.pending == s.c.bank && t.bank == s.c.bank && t.heap == s.heap - {s.pending}
      && t.cursor == seq(EVENTS, _ => 0)
  {
    hide Safe;
    PendingKnown(s);
  }

  lemma PendingKnown(s: State)
    requires Safe(s)
    ensures NULL !in s.heap && (s.pending != NULL ==> s.pending in s.heap)
  {
    if s.pending != NULL {
      OffLists(s, s.pending);
    }
  }

  /** Then the pending and the playing bank go, and the sound object with them. */
  lemma LastFreed(s: State)
    requires Safe(s) && s.c.FreeingLast?
    ensures var t := Next(s, FreeLast);
      !t.on && t.c.Idle? && t.bank == NULL && forall p :: p in t.heap <==> p in s.heap && p == s.staged
  {
    OnlyStagedLeft(s);
  }

  /** Finishing stops the loop once the callback has returned, frees what is left, and drops the sound object. */
  lemma FinishEnds(s: State)
    requires Safe(s) && s.c.Idle? && s.on && s.a.Waiting?
    ensures var t := Next(Next(s, BeginFinish), StopLoop);
      !t.running && t.c == Taking(Finish)
  {
  }
}
