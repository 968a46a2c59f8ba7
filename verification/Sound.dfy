/**
 * The sound bank hand-over and the trigger ring between the compositor thread and the audio thread
 * (native/sound.c), as interleaved atomic steps under sequential consistency.
 */
module Sound {
  import opened Pointers

  const WRAP := 0x1_0000_0000
  const TRIGGERS := 64
  const VOICES := 16
  const EVENTS := 4

  datatype Cue = Cue(first: nat, count: nat)

  /** `struct sound_bank`; a sample is its number of frames. */
  datatype Bank = Bank(generation: nat, cues: seq<Cue>, samples: seq<nat>, next: Ptr)

  /** `struct sound_trigger`, with the bank it was made for as history. */
  datatype Trigger = Trigger(generation: nat, sample: nat, bank: Ptr)

  /** `struct sound_voice`: `bank` and `sample` stand for the sample pointer; `origin` is the trigger, as history. */
  datatype Voice = Voice(bank: Ptr, sample: nat, position: nat, origin: Trigger)

  const NO_TRIGGER := Trigger(0, 0, NULL)
  const SILENT := Voice(NULL, 0, 0, NO_TRIGGER)

  /** What the compositor does once the retired banks are freed. */
  datatype Then = Publish(bank: Ptr) | Finish

  /** The compositor thread between two of its atomic steps. */
  datatype Compositor =
    | Idle
    | Stopping
    | Taking(after: Then)
    | Collecting(at: Ptr, after: Then)
    | Exchanging(bank: Ptr)
    | Replacing(replaced: Ptr, bank: Ptr)
    | Storing(bank: Ptr)
    | FreeingLast
    | LoadingTail(event: nat)
    | Filling(event: nat)
    | StoringHead(trigger: Trigger)

  /** The audio thread inside `sound_process`. */
  datatype Audio =
    | Waiting
    | Taken(next: Ptr)
    | Cleared(next: Ptr)
    | Linked(next: Ptr)
    | Pushed(next: Ptr)
    | LoadingHead
    | Reading(head: nat, tail: nat, goal: nat)
    | Mixing(voice: nat, count: nat)

  /**
   * The shared memory, both threads, and four history fields: `chain` and `batch` list the banks on the retired
   * stack and in the list being freed, `sent` the triggers stored so far, `seen` those the audio thread has read, and
   * `released` how many of their slots it has given back.  `bad` records a double free or the use of a freed bank.
   */
  datatype State = State(
    heap: map<Ptr, Bank>, bad: bool, staged: Ptr, on: bool, running: bool,
    bank: Ptr, playing: Ptr, pending: Ptr, retired: Ptr, generation: nat, cursor: seq<nat>,
    triggers: seq<Trigger>, head: nat, tail: nat, voices: seq<Voice>,
    c: Compositor, a: Audio,
    chain: seq<Ptr>, batch: seq<Ptr>, sent: seq<Trigger>, seen: seq<Trigger>, released: nat)

  datatype Action =
    | Stage(id: Ptr)
    | Present(event: nat, frames: nat)
    | Discard
    | BeginPublish
    | BeginFinish
    | StopLoop
    | TakeRetired
    | CollectOne
    | ExchangePending
    | FreeReplaced
    | StoreBank
    | FreeLast
    | BeginPlay(event: nat)
    | LoadTail
    | FillSlot
    | StoreHead
    | TakePending
    | ClearVoices
    | LinkOld
    | PushOld(spurious: bool)
    | StorePlaying
    | LoadHead
    | Consume
    | StoreTail(mapped: bool, count: nat)
    | Mix

  // ----- memory

  function Freed(s: State, p: Ptr): State {
    if p == NULL then s else if p in s.heap then s.(heap := s.heap - {p}) else s.(bad := true)
  }

  /** The bank at `p`; following a dangling pointer is recorded by `Used`. */
  function At(s: State, p: Ptr): Bank {
    if p in s.heap then s.heap[p] else NoBank()
  }

  function Used(s: State, p: Ptr): State {
    if p in s.heap then s else s.(bad := true)
  }

  function NoBank(): Bank {
    Bank(0, seq(EVENTS, _ => Cue(0, 0)), [], NULL)
  }

  /** `struct sound` from `calloc`, or none. */
  function NoSound(s: State, on: bool): State {
    s.(on := on, running := on, bank := NULL, playing := NULL, pending := NULL, retired := NULL, generation := 0,
       cursor := seq(EVENTS, _ => 0), triggers := seq(TRIGGERS, _ => NO_TRIGGER), head := 0, tail := 0,
       voices := seq(VOICES, _ => SILENT), a := Waiting, chain := [], batch := [], sent := [], seen := [],
       released := 0)
  }

  function Start(): State {
    NoSound(State(map[], false, NULL, false, false, NULL, NULL, NULL, NULL, 0, [], [], 0, 0, [], Idle, Waiting, [], [],
                  [], [], 0), false)
  }

  // ----- the compositor thread

  /** `tomoe_present_sounds`: the staged bank is private to the plan. */
  function StageStep(s: State, id: Ptr): State {
    if s.c.Idle? && id != NULL && id !in Freed(s, s.staged).heap then
      var f := Freed(s, s.staged);
      f.(heap := f.heap[id := NoBank()], staged := id)
    else s
  }

  /** `tomoe_present_sound`. */
  function PresentStep(s: State, event: nat, frames: nat): State {
    if s.c.Idle? && s.staged != NULL && event < EVENTS && frames > 0 then
      var u, b := Used(s, s.staged), At(s, s.staged);
      if |b.cues| != EVENTS then u
      else
        var cue := b.cues[event];
        if cue.count > 0 && cue.first + cue.count != |b.samples| then u
        else
          var more := Cue(if cue.count == 0 then |b.samples| else cue.first, cue.count + 1);
          u.(heap := u.heap[s.staged := b.(cues := b.cues[event := more], samples := b.samples + [frames])])
    else s
  }

  function DiscardStep(s: State): State {
    if s.c.Idle? then Freed(s, s.staged).(staged := NULL) else s
  }

  /** `sound_publish` up to the first shared access: the bank leaves the plan and gets its generation. */
  function BeginPublishStep(s: State): State {
    if s.c.Idle? && s.staged != NULL then
      var u, bank := Used(s, s.staged).(staged := NULL), s.staged;
      if At(s, bank).samples == [] then
        Freed(u, bank).(c := if s.on then Stopping else Idle)
      else
        var v := if s.on then u else NoSound(u, true);
        var g := v.generation + 1;
        v.(generation := g, heap := v.heap[bank := At(s, bank).(generation := g)], c := Taking(Publish(bank)))
    else s
  }

  /** `sound_finish` from the compositor's own shutdown. */
  function BeginFinishStep(s: State): State {
    if s.c.Idle? && s.on then s.(c := Stopping) else s
  }

  /** Stopping the loop waits for the process callback to return. */
  function StopLoopStep(s: State): State {
    if s.c.Stopping? && s.a.Waiting? then s.(running := false, c := Taking(Finish)) else s
  }

  function TakeRetiredStep(s: State): State {
    if s.c.Taking? then
      s.(retired := NULL, chain := [], batch := s.chain, c := Collecting(s.retired, s.c.after))
    else s
  }

  /** One round of the loop of `sound_collect`. */
  function CollectOneStep(s: State): State {
    if s.c.Collecting? then
      if s.c.at == NULL then
        s.(c := match s.c.after case Publish(bank) => Exchanging(bank) case Finish => FreeingLast)
      else
        var u := Used(s, s.c.at);
        Freed(u, s.c.at).(c := Collecting(At(s, s.c.at).next, s.c.after),
                          batch := if s.batch == [] then [] else s.batch[1..])
    else s
  }

  function ExchangePendingStep(s: State): State {
    if s.c.Exchanging? then s.(pending := s.c.bank, c := Replacing(s.pending, s.c.bank)) else s
  }

  function FreeReplacedStep(s: State): State {
    if s.c.Replacing? then Freed(s, s.c.replaced).(c := Storing(s.c.bank)) else s
  }

  function StoreBankStep(s: State): State {
    if s.c.Storing? then s.(bank := s.c.bank, cursor := seq(EVENTS, _ => 0), c := Idle) else s
  }

  function FreeLastStep(s: State): State {
    if s.c.FreeingLast? then NoSound(Freed(Freed(s, s.pending), s.playing), false).(c := Idle) else s
  }

  /** `sound_play` up to the load of `tail`. */
  function BeginPlayStep(s: State, event: nat): State {
    if s.c.Idle? && s.on && s.bank != NULL && event < EVENTS then
      var u, b := Used(s, s.bank), At(s, s.bank);
      if |b.cues| != EVENTS || b.cues[event].count == 0 then u else u.(c := LoadingTail(event))
    else s
  }

  /** Dropped when 64 triggers wait: the difference of the counters is taken modulo 2^32. */
  function LoadTailStep(s: State): State {
    if s.c.LoadingTail? then
      s.(c := if (s.head - s.tail) % WRAP >= TRIGGERS then Idle else Filling(s.c.event))
    else s
  }

  function FillSlotStep(s: State): State {
    if s.c.Filling? && s.c.event < |s.cursor| && |s.triggers| == TRIGGERS then
      var u, b, e := Used(s, s.bank), At(s, s.bank), s.c.event;
      if e < |b.cues| && b.cues[e].count > 0 then
        var t := Trigger(b.generation, b.cues[e].first + s.cursor[e] % b.cues[e].count, s.bank);
        u.(triggers := s.triggers[s.head % TRIGGERS := t], cursor := s.cursor[e := (s.cursor[e] + 1) % WRAP],
           c := StoringHead(t))
      else u.(c := Idle)
    else s
  }

  function StoreHeadStep(s: State): State {
    if s.c.StoringHead? then s.(head := (s.head + 1) % WRAP, sent := s.sent + [s.c.trigger], c := Idle) else s
  }

  // ----- the audio thread

  function TakePendingStep(s: State): State {
    if s.running && s.a.Waiting? then
      s.(pending := NULL, a := if s.pending != NULL then Taken(s.pending) else LoadingHead)
    else s
  }

  function ClearVoicesStep(s: State): State {
    if s.a.Taken? then s.(voices := seq(VOICES, _ => SILENT), a := Cleared(s.a.next)) else s
  }

  function LinkOldStep(s: State): State {
    if s.a.Cleared? then
      if s.playing == NULL then s.(a := Pushed(s.a.next))
      else
        var u := Used(s, s.playing);
        u.(heap := u.heap[s.playing := At(s, s.playing).(next := s.retired)], a := Linked(s.a.next))
    else s
  }

  /** The compare-and-exchange, which may fail for no reason; a failure reloads `old->next`. */
  function PushOldStep(s: State, spurious: bool): State {
    if s.a.Linked? then
      var u := Used(s, s.playing);
      if !spurious && s.retired == At(s, s.playing).next then
        u.(retired := s.playing, chain := [s.playing] + s.chain, a := Pushed(s.a.next))
      else
        u.(heap := u.heap[s.playing := At(s, s.playing).(next := s.retired)])
    else s
  }

  function StorePlayingStep(s: State): State {
    if s.a.Pushed? then s.(playing := s.a.next, a := LoadingHead) else s
  }

  function LoadHeadStep(s: State): State {
    if s.a.LoadingHead? then s.(a := Reading(s.head, s.tail, |s.sent|)) else s
  }

  /** One trigger: another generation or an unknown sample is skipped, anything else takes a voice. */
  function ConsumeStep(s: State): State {
    if s.a.Reading? && s.a.tail != s.a.head && |s.triggers| == TRIGGERS && |s.voices| == VOICES then
      var t := s.triggers[s.a.tail % TRIGGERS];
      var u := if s.playing == NULL then s else Used(s, s.playing);
      var b := At(s, s.playing);
      u.(a := s.a.(tail := (s.a.tail + 1) % WRAP), seen := s.seen + [t],
         voices := if s.playing == NULL || t.generation != b.generation || t.sample >= |b.samples| then s.voices
                   else s.voices[Pick(s.voices) := Voice(s.playing, t.sample, 0, t)])
    else s
  }

  function StoreTailStep(s: State, mapped: bool, count: nat): State {
    if s.a.Reading? && s.a.tail == s.a.head then
      s.(tail := s.a.tail, released := |s.seen|, a := if mapped then Mixing(0, count) else Waiting)
    else s
  }

  /** One voice of the mixing loop. */
  function MixStep(s: State): State {
    if s.a.Mixing? then
      if s.a.voice >= |s.voices| then s.(a := Waiting)
      else
        var i, v := s.a.voice, s.voices[s.a.voice];
        if v.bank == NULL then s.(a := Mixing(i + 1, s.a.count))
        else
          var u, b := Used(s, v.bank), At(s, v.bank);
          u.(a := Mixing(i + 1, s.a.count),
             voices := s.voices[i := if v.sample < |b.samples| then Mixed(v, s.a.count, b.samples[v.sample]) else v])
    else s
  }

  /** A voice after `count` more frames; one at the end of its sample falls silent. */
  function Mixed(v: Voice, count: nat, frames: nat): (r: Voice)
    ensures v.position < frames && v.bank != NULL ==>
      && (r.bank == NULL <==> v.position + count >= frames)
      && (r.bank != NULL ==> r.position == v.position + count < frames)
  {
    var n := if frames - v.position > count then count else frames - v.position;
    if v.position + n == frames then SILENT
    else if n < 0 then v
    else v.(position := v.position + n)
  }

  // ----- the choice of a voice

  /** The first silent voice, or else the first of those that have played longest. */
  ghost predicate Chosen(voices: seq<Voice>, k: nat) {
    && k < |voices|
    && if exists i :: 0 <= i < |voices| && voices[i].bank == NULL then
         voices[k].bank == NULL && forall i :: 0 <= i < k ==> voices[i].bank != NULL
       else
         && (forall i :: 0 <= i < |voices| ==> voices[i].position <= voices[k].position)
         && (forall i :: 0 <= i < k ==> voices[i].position < voices[k].position)
  }

  lemma ChosenOnce(voices: seq<Voice>, j: nat, k: nat)
    requires Chosen(voices, j) && Chosen(voices, k)
    ensures j == k
  {
  }

  function Search(voices: seq<Voice>, i: nat, best: nat): (k: nat)
    requires best < |voices| && i <= |voices| && best <= i
    requires forall j :: 0 <= j < i ==> voices[j].bank != NULL && voices[j].position <= voices[best].position
    requires forall j :: 0 <= j < best ==> voices[j].position < voices[best].position
    ensures Chosen(voices, k)
    decreases |voices| - i
  {
    if i == |voices| then best
    else if voices[i].bank == NULL then i
    else Search(voices, i + 1, if voices[i].position > voices[best].position then i else best)
  }

  function Pick(voices: seq<Voice>): (k: nat)
    requires |voices| > 0
    ensures Chosen(voices, k)
  {
    Search(voices, 0, 0)
  }

  /** The search loop of `sound_process`. */
  method PickVoice(voices: array<Voice>) returns (k: nat)
    requires voices.Length == VOICES
    ensures k == Pick(voices[..])
  {
    k := 0;
    for i := 0 to voices.Length
      invariant k < voices.Length && k <= i
      invariant forall j :: 0 <= j < i ==> voices[j].bank != NULL && voices[j].position <= voices[k].position
      invariant forall j :: 0 <= j < k ==> voices[j].position < voices[k].position
    {
      if voices[i].bank == NULL {
        k := i;
        break;
      }
      if voices[i].position > voices[k].position {
        k := i;
      }
    }
    assert Chosen(voices[..], k);
    ChosenOnce(voices[..], k, Pick(voices[..]));
  }

  // ----- runs

  function Next(s: State, x: Action): State {
    match x
    case Stage(id) => StageStep(s, id)
    case Present(event, frames) => PresentStep(s, event, frames)
    case Discard => DiscardStep(s)
    case BeginPublish => BeginPublishStep(s)
    case BeginFinish => BeginFinishStep(s)
    case StopLoop => StopLoopStep(s)
    case TakeRetired => TakeRetiredStep(s)
    case CollectOne => CollectOneStep(s)
    case ExchangePending => ExchangePendingStep(s)
    case FreeReplaced => FreeReplacedStep(s)
    case StoreBank => StoreBankStep(s)
    case FreeLast => FreeLastStep(s)
    case BeginPlay(event) => BeginPlayStep(s, event)
    case LoadTail => LoadTailStep(s)
    case FillSlot => FillSlotStep(s)
    case StoreHead => StoreHeadStep(s)
    case TakePending => TakePendingStep(s)
    case ClearVoices => ClearVoicesStep(s)
    case LinkOld => LinkOldStep(s)
    case PushOld(spurious) => PushOldStep(s, spurious)
    case StorePlaying => StorePlayingStep(s)
    case LoadHead => LoadHeadStep(s)
    case Consume => ConsumeStep(s)
    case StoreTail(mapped, count) => StoreTailStep(s, mapped, count)
    case Mix => MixStep(s)
  }

  /** The state after any interleaving of steps of the two threads. */
  function Run(steps: seq<Action>): State {
    if steps == [] then Start() else Next(Run(steps[..|steps| - 1]), steps[|steps| - 1])
  }
}
