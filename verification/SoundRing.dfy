/** The trigger ring is a queue: what the audio thread reads is what the compositor stored, in order. */
module SoundRing {
  import opened Pointers
  import opened Sound

  lemma SameSlot(n: nat)
    ensures (n % WRAP) % TRIGGERS == n % TRIGGERS && (n % WRAP + 1) % WRAP == (n + 1) % WRAP
  {
    var q, r := n / WRAP, n % WRAP;
    assert n == q * WRAP + r;
    SlotOf(n, q * 0x400_0000 + r / TRIGGERS, r % TRIGGERS);
    if r + 1 < WRAP {
      Remainder(n + 1, q, r + 1);
    } else {
      Remainder(n + 1, q + 1, 0);
    }
  }

  lemma SlotOf(n: nat, m: nat, t: nat)
    requires t < TRIGGERS && n == TRIGGERS * m + t
    ensures n % TRIGGERS == t
  {
  }

  lemma Remainder(n: nat, q: nat, r: nat)
    requires r < WRAP && n == q * WRAP + r
    ensures n % WRAP == r
  {
  }

  /** Counters less than 2^32 apart differ by their wrapped difference. */
  lemma WrappedDifference(high: nat, low: nat)
    requires low <= high < low + WRAP
    ensures (high % WRAP - low % WRAP) % WRAP == high - low
  {
  }

  /** Different slots for numbers less than 64 apart. */
  lemma OtherSlot(k: nat, n: nat)
    requires k < n < k + TRIGGERS
    ensures k % TRIGGERS != n % TRIGGERS
  {
  }

  ghost predicate Ring(s: State) {
    && |s.triggers| == TRIGGERS && |s.cursor| == EVENTS
    && s.head == |s.sent| % WRAP && s.tail == s.released % WRAP
    && s.released <= |s.seen| <= |s.sent| <= s.released + TRIGGERS
    && s.seen == s.sent[..|s.seen|]
    && (forall k :: |s.seen| <= k < |s.sent| ==> s.triggers[k % TRIGGERS] == s.sent[k])
    && (if s.a.Reading? then
          s.a.head == s.a.goal % WRAP && |s.seen| <= s.a.goal <= |s.sent| && s.a.tail == |s.seen| % WRAP
        else s.released == |s.seen|)
    && (s.c.Filling? || s.c.StoringHead? ==> |s.sent| < s.released + TRIGGERS)
    && (s.c.StoringHead? ==> s.triggers[|s.sent| % TRIGGERS] == s.c.trigger)
    && (s.c.LoadingTail? || s.c.Filling? || s.c.StoringHead? ==> s.on)
    && (!s.on ==> s.a.Waiting? && !s.running && s.sent == [])
  }

  /** Nothing the ring depends on has changed, or there is a new ring. */
  ghost predicate SameRing(s: State, t: State) {
    && t.triggers == s.triggers && t.head == s.head && t.tail == s.tail && t.sent == s.sent && t.seen == s.seen
    && t.released == s.released && |t.cursor| == |s.cursor| && (t.on <==> s.on)
    && (if s.a.Reading? then t.a == s.a else !t.a.Reading?)
    && (!t.on ==> t.a.Waiting? && !t.running)
    && (t.c == s.c || (!t.c.Filling? && !t.c.StoringHead? && (t.c.LoadingTail? ==> t.on)))
  }

  lemma SameRingKept(s: State, t: State)
    requires Ring(s) && SameRing(s, t)
    ensures Ring(t)
  {
  }

  lemma RingFacts(s: State)
    requires Ring(s)
    ensures |s.cursor| == EVENTS && (!s.on ==> s.a.Waiting? && !s.running)
  {
  }

  lemma NewRing(s: State, on: bool)
    requires !s.c.LoadingTail? && !s.c.Filling? && !s.c.StoringHead?
    ensures Ring(NoSound(s, on))
  {
  }

  lemma LoadTailKeepsRing(s: State)
    requires Ring(s)
    ensures Ring(LoadTailStep(s))
    ensures s.c.LoadingTail? ==> (LoadTailStep(s).c.Filling? <==> |s.sent| - s.released < TRIGGERS)
  {
    WrappedDifference(|s.sent|, s.released);
  }

  lemma FillSlotKeepsRing(s: State)
    requires Ring(s)
    ensures Ring(FillSlotStep(s))
  {
    SameSlot(|s.sent|);
    forall k | |s.seen| <= k < |s.sent| && s.c.Filling?
      ensures k % TRIGGERS != |s.sent| % TRIGGERS
    {
      OtherSlot(k, |s.sent|);
    }
  }

  lemma StoreHeadKeepsRing(s: State)
    requires Ring(s)
    ensures Ring(StoreHeadStep(s))
  {
    if s.c.StoringHead? {
      SameSlot(|s.sent|);
      var sent := s.sent + [s.c.trigger];
      assert sent[..|s.seen|] == s.sent[..|s.seen|];
      forall k | |s.seen| <= k < |sent|
        ensures s.triggers[k % TRIGGERS] == sent[k]
      {
        assert k < |s.sent| ==> sent[k] == s.sent[k];
      }
    }
  }

  /** While the audio thread has not caught up, the slot it reads holds the next trigger of the queue. */
  lemma NextTrigger(s: State)
    requires Ring(s) && s.a.Reading? && s.a.tail != s.a.head
    ensures |s.seen| < s.a.goal <= |s.sent| && s.triggers[s.a.tail % TRIGGERS] == s.sent[|s.seen|]
  {
    SameSlot(|s.seen|);
  }

  lemma ConsumeKeepsRing(s: State)
    requires Ring(s)
    ensures Ring(ConsumeStep(s))
  {
    if s.a.Reading? && s.a.tail != s.a.head {
      NextTrigger(s);
      SameSlot(|s.seen|);
    }
  }

  lemma StoreTailKeepsRing(s: State, mapped: bool, count: nat)
    requires Ring(s)
    ensures Ring(StoreTailStep(s, mapped, count))
  {
    if s.a.Reading? && s.a.tail == s.a.head {
      WrappedDifference(s.a.goal, |s.seen|);
    }
  }

  lemma LoadHeadKeepsRing(s: State)
    requires Ring(s)
    ensures Ring(LoadHeadStep(s))
  {
  }

  lemma BeginPublishKeepsRing(s: State)
    requires Ring(s)
    ensures Ring(BeginPublishStep(s))
  {
    hide Ring;
    RingFacts(s);
    var t := BeginPublishStep(s);
    if s.c.Idle? && s.staged != NULL && At(s, s.staged).samples != [] && !s.on {
      NewRing(t, true);
      assert t.(generation := 0) == NoSound(t, true);
      SameRingKept(NoSound(t, true), t);
    } else {
      SameRingKept(s, t);
    }
  }

  lemma FreeLastKeepsRing(s: State)
    requires Ring(s)
    ensures Ring(FreeLastStep(s))
  {
    if s.c.FreeingLast? {
      NewRing(Freed(Freed(s, s.pending), s.playing).(c := Idle), false);
    }
  }

  lemma StagingIsApart(s: State, x: Action)
    requires |s.cursor| == EVENTS && (!s.on ==> s.a.Waiting? && !s.running)
    requires x.Stage? || x.Discard?
    ensures SameRing(s, Next(s, x))
  {
  }

  lemma CueingIsApart(s: State, x: Action)
    requires |s.cursor| == EVENTS && (!s.on ==> s.a.Waiting? && !s.running)
    requires x.Present? || x.BeginPlay?
    ensures SameRing(s, Next(s, x))
  {
  }

  lemma StoppingIsApart(s: State, x: Action)
    requires |s.cursor| == EVENTS && (!s.on ==> s.a.Waiting? && !s.running)
    requires x.BeginFinish? || x.StopLoop?
    ensures SameRing(s, Next(s, x))
  {
  }

  lemma FreeingIsApart(s: State, x: Action)
    requires |s.cursor| == EVENTS && (!s.on ==> s.a.Waiting? && !s.running)
    requires x.TakeRetired?
    ensures SameRing(s, Next(s, x))
  {
  }

  lemma CollectingIsApart(s: State)
    requires |s.cursor| == EVENTS && (!s.on ==> s.a.Waiting? && !s.running)
    ensures SameRing(s, CollectOneStep(s))
  {
  }

  lemma PublishingIsApart(s: State, x: Action)
    requires |s.cursor| == EVENTS && (!s.on ==> s.a.Waiting? && !s.running)
    requires x.ExchangePending? || x.FreeReplaced? || x.StoreBank?
    ensures SameRing(s, Next(s, x))
  {
  }

  lemma TakingIsApart(s: State, x: Action)
    requires |s.cursor| == EVENTS && (!s.on ==> s.a.Waiting? && !s.running)
    requires x.TakePending? || x.ClearVoices? || x.LinkOld?
    ensures SameRing(s, Next(s, x))
  {
  }

  lemma PushingIsApart(s: State, x: Action)
    requires |s.cursor| == EVENTS && (!s.on ==> s.a.Waiting? && !s.running)
    requires x.PushOld?
    ensures SameRing(s, Next(s, x))
  {
  }

  lemma SwappingIsApart(s: State, x: Action)
    requires |s.cursor| == EVENTS && (!s.on ==> s.a.Waiting? && !s.running)
    requires x.StorePlaying?
    ensures SameRing(s, Next(s, x))
  {
  }

  lemma MixingIsApart(s: State)
    requires |s.cursor| == EVENTS && (!s.on ==> s.a.Waiting? && !s.running)
    ensures SameRing(s, MixStep(s))
  {
    hide Mixed;
  }

  lemma StepKeepsRing(s: State, x: Action)
    requires Ring(s)
    ensures Ring(Next(s, x))
  {
    hide Ring, SameRing;
    RingFacts(s);
    match x {
    case LoadTail => LoadTailKeepsRing(s);
    case FillSlot => FillSlotKeepsRing(s);
    case StoreHead => StoreHeadKeepsRing(s);
    case Consume => ConsumeKeepsRing(s);
    case StoreTail(mapped, count) => StoreTailKeepsRing(s, mapped, count);
    case LoadHead => LoadHeadKeepsRing(s);
    case BeginPublish => BeginPublishKeepsRing(s);
    case FreeLast => FreeLastKeepsRing(s);
    case Stage(_) | Discard => StagingIsApart(s, x);
    case Present(_, _) | BeginPlay(_) => CueingIsApart(s, x);
    case BeginFinish | StopLoop => StoppingIsApart(s, x);
    case TakeRetired => FreeingIsApart(s, x);
    case CollectOne => CollectingIsApart(s);
    case ExchangePending | FreeReplaced | StoreBank => PublishingIsApart(s, x);
    case TakePending | ClearVoices | LinkOld => TakingIsApart(s, x);
    case PushOld(_) => PushingIsApart(s, x);
    case StorePlaying => SwappingIsApart(s, x);
    case Mix => MixingIsApart(s);
    }
    if SameRing(s, Next(s, x)) {
      SameRingKept(s, Next(s, x));
    }
  }

  /**
   * In every run: at most 64 triggers wait, none of them has been overwritten, and the audio thread has read exactly
   * the first triggers stored, in order, however often the counters wrapped.
   */
  lemma {:induction false} RunsKeepRing(steps: seq<Action>)
    ensures Ring(Run(steps))
  {
    if steps != [] {
      RunsKeepRing(steps[..|steps| - 1]);
      StepKeepsRing(Run(steps[..|steps| - 1]), steps[|steps| - 1]);
    }
  }
}
