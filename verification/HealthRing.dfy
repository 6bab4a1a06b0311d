/** The ring of health counters of one node
    (EasyTier-2.6.4/easytier-contrib/easytier-uptime/src/health_checker.rs) against a plain
    log of checks. */
module HealthRing {
  import opened Options

  const GRANULARITY: nat := 900
  const SIZE: nat := 96

  datatype RingItem = RingItem(counter: nat, round: nat)

  /** A check: when it was counted, and whether the node was healthy. */
  datatype Check = Check(time: nat, healthy: bool)

  function Bucket(time: nat): nat {
    time / GRANULARITY
  }

  function TryUpdateRound(item: RingItem, time: nat): RingItem {
    var round := time / (GRANULARITY * SIZE);
    if item.round != round then RingItem(0, round) else item
  }

  function Inc(item: RingItem, time: nat): RingItem {
    var current := TryUpdateRound(item, time);
    current.(counter := current.counter + 1)
  }

  /** Checks in a bucket. */
  function Total(log: seq<Check>, bucket: int): nat {
    if log == [] then 0
    else Total(log[..|log| - 1], bucket) + if Bucket(log[|log| - 1].time) == bucket then 1 else 0
  }

  /** Healthy checks in a bucket. */
  function Healthy(log: seq<Check>, bucket: int): nat {
    if log == [] then 0
    else
      var last := log[|log| - 1];
      Healthy(log[..|log| - 1], bucket) + if Bucket(last.time) == bucket && last.healthy then 1 else 0
  }

  lemma {:induction false} NoneLogged(log: seq<Check>, bucket: int)
    requires forall i :: 0 <= i < |log| ==> Bucket(log[i].time) != bucket
    ensures Total(log, bucket) == 0 && Healthy(log, bucket) == 0
  {
    if log != [] {
      NoneLogged(log[..|log| - 1], bucket);
    }
  }

  lemma {:induction false} HealthyAtMostTotal(log: seq<Check>, bucket: int)
    ensures Healthy(log, bucket) <= Total(log, bucket)
  {
    if log != [] {
      HealthyAtMostTotal(log[..|log| - 1], bucket);
    }
  }

  /** The bucket a slot stands for: round and index together name it. */
  function Held(item: RingItem, index: nat): nat {
    item.round * SIZE + index
  }

  lemma SlotOfTime(time: nat)
    ensures Bucket(time) % SIZE < SIZE
    ensures (time / (GRANULARITY * SIZE)) * SIZE + Bucket(time) % SIZE == Bucket(time)
  {
  }

  /** The bucket of the last check that fell into a slot. */
  function LastIn(log: seq<Check>, index: nat): Option<nat> {
    if log == [] then None
    else
      var last := Bucket(log[|log| - 1].time);
      if last % SIZE == index then Some(last) else LastIn(log[..|log| - 1], index)
  }

  /** Healthy checks in that bucket. */
  function LastHealthy(log: seq<Check>, index: nat): nat {
    match LastIn(log, index)
    case None => 0
    case Some(bucket) => Healthy(log, bucket)
  }

  /** The bucket the second slot stands for: the last one with a check, at first that of round 0. */
  function LastBucket(log: seq<Check>, index: nat): nat {
    match LastIn(log, index)
    case None => index
    case Some(bucket) => bucket
  }

  ghost predicate NoneAfter(log: seq<Check>, index: nat, bucket: nat) {
    forall i :: 0 <= i < |log| && Bucket(log[i].time) % SIZE == index ==> Bucket(log[i].time) <= bucket
  }

  /** The two slots of one index agree with the log: the first holds the checks of its bucket,
      the second the healthy ones of the last bucket that had a check. */
  ghost predicate SlotAgrees(total: RingItem, healthy: RingItem, index: nat, log: seq<Check>) {
    && total.counter == Total(log, Held(total, index))
    && healthy.counter == LastHealthy(log, index)
    && Held(healthy, index) == LastBucket(log, index) <= Held(total, index)
    && NoneAfter(log, index, Held(healthy, index))
  }

  /** The two slots track the log, but `missing` checks of the last bucket are not counted in the
      first one any more. If that stands for an earlier bucket, all of them are missing. */
  ghost predicate SlotTracks(total: RingItem, healthy: RingItem, index: nat, log: seq<Check>, missing: nat) {
    var last := LastBucket(log, index);
    && healthy.counter == LastHealthy(log, index) && Held(healthy, index) == last
    && missing <= Total(log, last)
    && total.counter == (if Held(total, index) == last then Total(log, last) - missing else 0)
    && (Held(total, index) < last ==> missing == Total(log, last))
    && (Held(total, index) > last ==> missing == 0)
    && NoneAfter(log, index, last)
  }

  /** The slots that track the log agree with it exactly if nothing is missing. */
  lemma MissingMeansDisagreement(total: RingItem, healthy: RingItem, index: nat, log: seq<Check>, missing: nat)
    requires SlotTracks(total, healthy, index, log, missing) && index < SIZE
    ensures SlotAgrees(total, healthy, index, log) <==> missing == 0
  {
    var last := LastBucket(log, index);
    assert Held(total, index) % SIZE == index;
    if Held(total, index) > last {
      NoneLogged(log, Held(total, index));
    } else if Held(total, index) < last {
      CountedIn(log, index);
    }
  }

  /** The slot is not ahead of the clock. */
  predicate NotAhead(item: RingItem, index: nat, time: nat) {
    item.round == 0 || Held(item, index) <= Bucket(time)
  }

  /** What is missing after a check: if it is in the last bucket, still the same. */
  function CountMissing(log: seq<Check>, bucket: nat, missing: nat): nat {
    if LastIn(log, bucket % SIZE) == Some(bucket) then missing else 0
  }

  /** Counting one check in the slot of its bucket. */
  lemma SlotCounts(total: RingItem, healthy: RingItem, log: seq<Check>, missing: nat, latest: nat, check: Check)
    requires SlotTracks(total, healthy, Bucket(check.time) % SIZE, log, missing) && latest <= check.time
    requires NotAhead(total, Bucket(check.time) % SIZE, latest) && NotAhead(healthy, Bucket(check.time) % SIZE, latest)
    ensures var index := Bucket(check.time) % SIZE;
            var t, h := Inc(total, check.time), TryUpdateRound(healthy, check.time);
            var h' := if check.healthy then Inc(h, check.time) else h;
            && SlotTracks(t, h', index, log + [check], CountMissing(log, Bucket(check.time), missing))
            && Held(t, index) == Bucket(check.time) && Held(h', index) == Bucket(check.time)
  {
    var index, bucket := Bucket(check.time) % SIZE, Bucket(check.time);
    SlotOfTime(check.time);
    var more := log + [check];
    assert more[..|log|] == log;
    assert LastIn(more, index) == Some(bucket);
    assert Total(more, bucket) == Total(log, bucket) + 1;
    assert Healthy(more, bucket) == Healthy(log, bucket) + if check.healthy then 1 else 0;
    if LastBucket(log, index) < bucket {
      NoneLogged(log, bucket);
    } else if LastIn(log, index).None? {
      NothingIn(log, index);
      NoneLogged(log, bucket);
    }
  }

  lemma {:induction false} NothingIn(log: seq<Check>, index: nat)
    requires LastIn(log, index).None?
    ensures forall i :: 0 <= i < |log| ==> Bucket(log[i].time) % SIZE != index
  {
    if log != [] {
      NothingIn(log[..|log| - 1], index);
    }
  }

  /** There is a check in the last bucket that had one. */
  lemma {:induction false} CountedIn(log: seq<Check>, index: nat)
    requires LastIn(log, index).Some?
    ensures LastIn(log, index).value % SIZE == index && Total(log, LastIn(log, index).value) > 0
  {
    if Bucket(log[|log| - 1].time) % SIZE != index {
      CountedIn(log[..|log| - 1], index);
    }
  }

  /** The other slots do not notice. */
  lemma OtherSlots(total: RingItem, healthy: RingItem, index: nat, log: seq<Check>, missing: nat, check: Check)
    requires SlotTracks(total, healthy, index, log, missing) && index < SIZE && Bucket(check.time) % SIZE != index
    ensures SlotTracks(total, healthy, index, log + [check], missing)
  {
    var more := log + [check];
    assert more[..|log|] == log;
    assert Held(healthy, index) % SIZE == index;
    assert LastIn(more, index) == LastIn(log, index);
  }

  /** What is missing after a slot was read for a bucket: all checks of the last bucket, if that is
      a later one. */
  function ReadMissing(log: seq<Check>, bucket: nat, missing: nat): nat {
    var last := LastBucket(log, bucket % SIZE);
    if bucket < last then Total(log, last) else if bucket > last then 0 else missing
  }

  /** What a slot yields for a bucket. */
  function Counted(log: seq<Check>, bucket: nat, missing: nat): int {
    if bucket == LastBucket(log, bucket % SIZE) then Total(log, bucket) - missing else 0
  }

  /** Reading a slot for a bucket that it is not ahead of, or that is behind the last check. */
  lemma SlotRead(total: RingItem, healthy: RingItem, log: seq<Check>, missing: nat, time: nat)
    requires SlotTracks(total, healthy, Bucket(time) % SIZE, log, missing)
    requires Held(total, Bucket(time) % SIZE) <= Bucket(time) || Bucket(time) < LastBucket(log, Bucket(time) % SIZE)
    ensures var index := Bucket(time) % SIZE;
            var t, m := TryUpdateRound(total, time), ReadMissing(log, Bucket(time), missing);
            && SlotTracks(t, healthy, index, log, m) && Held(t, index) == Bucket(time)
            && t.counter == Counted(log, Bucket(time), m)
  {
    SlotOfTime(time);
  }

  /** One entry of the two rings, for a bucket. The first is the number of checks in it. The
      second is about the last bucket of the slot that had a check: it is the number of healthy
      checks in this bucket exactly when there was a check in it, or the number is zero. */
  ghost predicate EntryAgrees(total: int, healthy: nat, bucket: nat, log: seq<Check>) {
    && total == Total(log, bucket)
    && healthy == LastHealthy(log, bucket % SIZE)
    && (healthy == Healthy(log, bucket) <==> total > 0 || healthy == 0)
  }

  /** If nothing is missing, an entry for a bucket that no check of its slot comes after is right. */
  lemma EntryIsRight(log: seq<Check>, bucket: nat)
    requires NoneAfter(log, bucket % SIZE, LastBucket(log, bucket % SIZE)) && LastBucket(log, bucket % SIZE) <= bucket
    ensures EntryAgrees(Counted(log, bucket, 0), LastHealthy(log, bucket % SIZE), bucket, log)
  {
    var index := bucket % SIZE;
    HealthyAtMostTotal(log, bucket);
    if LastIn(log, index).None? {
      NothingIn(log, index);
      NoneLogged(log, bucket);
    } else if LastBucket(log, index) < bucket {
      NoneLogged(log, bucket);
    } else {
      CountedIn(log, index);
    }
  }

  class HealthyMemRecord {
    var lastCheckTime: nat
    const total: array<RingItem>
    const healthy: array<RingItem>

    ghost var log: seq<Check>
    ghost var latest: nat
    ghost var missing: seq<nat>

    ghost function Newest(): nat
      reads this
    {
      Bucket(latest) % SIZE
    }

    /** The slot of the last check may be ahead of the time that was kept for it. */
    ghost predicate SlotSound(i: nat)
      requires total.Length == SIZE && healthy.Length == SIZE && |missing| == SIZE && i < SIZE
      reads this, total, healthy
    {
      var time := if i == Newest() then latest else lastCheckTime;
      && SlotTracks(total[i], healthy[i], i, log, missing[i])
      && NotAhead(total[i], i, time) && NotAhead(healthy[i], i, time)
    }

    ghost predicate Shape()
      reads this
    {
      && total.Length == SIZE && healthy.Length == SIZE && |missing| == SIZE && total != healthy
      && lastCheckTime <= latest
      && (if log == [] then lastCheckTime == latest else log[|log| - 1].time == latest)
    }

    /** Every slot tracks the log. */
    ghost predicate Sound()
      reads this, total, healthy
    {
      Shape() && forall i :: 0 <= i < SIZE ==> SlotSound(i)
    }

    /** Every slot agrees with the log. */
    ghost predicate Valid()
      reads this, total, healthy
    {
      Sound() && forall i :: 0 <= i < SIZE ==> SlotAgrees(total[i], healthy[i], i, log)
    }

    lemma ValidMeansNoneMissing()
      requires Sound()
      ensures Valid() <==> forall i :: 0 <= i < SIZE ==> missing[i] == 0
    {
      hide SlotTracks, SlotAgrees, NotAhead;
      forall i | 0 <= i < SIZE
        ensures SlotAgrees(total[i], healthy[i], i, log) <==> missing[i] == 0
      {
        assert SlotSound(i);
        MissingMeansDisagreement(total[i], healthy[i], i, log, missing[i]);
      }
    }

    constructor (now: nat)
      ensures Valid() && fresh(total) && fresh(healthy)
      ensures log == [] && latest == now && lastCheckTime == now
    {
      lastCheckTime := now;
      total := new RingItem[SIZE](i => RingItem(0, 0));
      healthy := new RingItem[SIZE](i => RingItem(0, 0));
      log, latest, missing := [], now, seq(SIZE, i => 0);
    }

    /** `update_health_status`. The source reads the clock twice: once for the time it keeps,
        once for the slot. What was missing stays missing while checks fall into the same bucket,
        and is forgotten with the first check in a later one. */
    method UpdateHealthStatus(checkTime: nat, now: nat, isHealthy: bool)
      requires Sound() && latest <= checkTime <= now
      modifies this, total, healthy
      ensures Sound() && (old(Valid()) ==> Valid())
      ensures log == old(log) + [Check(now, isHealthy)] && latest == now && lastCheckTime == checkTime
      ensures missing == old(missing)[Newest() := CountMissing(old(log), Bucket(now), old(missing)[Newest()])]
      ensures total[Newest()].counter == Total(log, Bucket(now)) - missing[Newest()]
      ensures healthy[Newest()].counter == Healthy(log, Bucket(now))
    {
      hide SlotTracks, SlotAgrees, Total, Healthy, NotAhead, CountMissing;
      ghost var was := Valid();
      ValidMeansNoneMissing();
      ghost var check := Check(now, isHealthy);
      var index := Bucket(now) % SIZE;
      assert SlotSound(index);
      InOrder(total[index], healthy[index], index, lastCheckTime, latest);
      SlotCounts(total[index], healthy[index], log, missing[index], latest, check);
      forall i | 0 <= i < SIZE && i != index
        ensures SlotTracks(total[i], healthy[i], i, log + [check], missing[i])
        ensures NotAhead(total[i], i, checkTime) && NotAhead(healthy[i], i, checkTime)
      {
        assert SlotSound(i);
        InOrder(total[i], healthy[i], i, if i == Newest() then latest else lastCheckTime, checkTime);
        OtherSlots(total[i], healthy[i], i, log, missing[i], check);
      }
      lastCheckTime := checkTime;
      total[index] := Inc(total[index], now);
      healthy[index] := TryUpdateRound(healthy[index], now);
      if isHealthy {
        healthy[index] := Inc(healthy[index], now);
      }
      NowIsNotAhead(total[index], index, now);
      NowIsNotAhead(healthy[index], index, now);
      CountsNone(log, Bucket(now));
      missing := missing[index := CountMissing(log, Bucket(now), missing[index])];
      log, latest := log + [check], now;
      LastCheckCounts(total[index], healthy[index], log, missing[index], now);
      ValidMeansNoneMissing();
    }

    /** Entry `i` takes the slot of the last check for an earlier bucket. */
    ghost predicate Overrun(i: int)
      reads this
    {
      TakenFor(Bucket(lastCheckTime), Bucket(latest), i)
    }

    /** One pass of the loop in `get_counter_ring`. */
    method ReadSlot(i: nat) returns (t: nat, h: nat)
      requires Sound() && i < SIZE && lastCheckTime >= (SIZE - 1) * GRANULARITY
      modifies this`missing, total
      ensures Sound() && Bucket(lastCheckTime) >= i
      ensures var kept := Bucket(lastCheckTime);
              var slot := SlotOf(kept, i);
              && missing == old(missing)[slot := ReadMissing(log, kept - i, old(missing)[slot])]
              && t == Counted(log, kept - i, missing[slot]) && h == LastHealthy(log, slot)
              && (LastBucket(log, slot) > kept - i <==> Overrun(i)) && NoneAfter(log, slot, LastBucket(log, slot))
    {
      hide SlotTracks, Held, TryUpdateRound, NotAhead, Bucket, LastBucket, ReadMissing, Counted, LastHealthy,
           NoneAfter;
      BucketsInOrder(lastCheckTime, latest);
      BucketsAgo(lastCheckTime, i);
      var ringTime := lastCheckTime - i * GRANULARITY;
      var index := Bucket(ringTime) % SIZE;
      assert SlotSound(index);
      SlotFacts(total[index], healthy[index], index, log, missing[index]);
      if Overrun(i) {
        LastInNewest(log, latest);
      } else {
        if Bucket(lastCheckTime) == Bucket(latest) {
          SameBucket(total[index], index, lastCheckTime, latest);
          SameBucket(healthy[index], index, lastCheckTime, latest);
        }
        HeldIsBehind(total[index], lastCheckTime, ringTime, i);
        HeldIsBehind(healthy[index], lastCheckTime, ringTime, i);
      }
      SlotRead(total[index], healthy[index], log, missing[index], ringTime);
      StillNotAhead(TryUpdateRound(total[index], ringTime), index, lastCheckTime, latest, ringTime);
      total[index] := TryUpdateRound(total[index], ringTime);
      missing := missing[index := ReadMissing(log, Bucket(ringTime), missing[index])];
      t, h := total[index].counter, healthy[index].counter;
      forall k | 0 <= k < SIZE
        ensures SlotSound(k)
      {
        assert old(SlotSound(k));
      }
    }

    /** `get_counter_ring`. Entry `i` of the rings is about the checks logged `i` buckets ago, less
        what is missing. If the ring was in agreement with the log, the entry is right, see
        `EntryAgrees`, but for the entry that takes the slot of the last check for an earlier
        bucket: that entry is zero, and the count in the slot is lost. So the ring stays in
        agreement if and only if both clock readings of the last update fell into the same
        bucket. */
    method GetCounterRing() returns (totalRing: seq<nat>, healthyRing: seq<nat>)
      requires Sound() && lastCheckTime >= (SIZE - 1) * GRANULARITY
      modifies this`missing, total
      ensures Sound()
      ensures |totalRing| == SIZE && |healthyRing| == SIZE && Bucket(lastCheckTime) >= SIZE - 1
      ensures forall i :: 0 <= i < SIZE ==>
                var kept, slot := Bucket(lastCheckTime), SlotOf(Bucket(lastCheckTime), i);
                && missing[slot] == ReadMissing(log, kept - i, old(missing)[slot])
                && totalRing[i] == Counted(log, kept - i, missing[slot])
                && healthyRing[i] == LastHealthy(log, slot)
      ensures old(Valid()) ==> (Valid() <==> Bucket(lastCheckTime) == Bucket(latest))
      ensures old(Valid()) ==>
                forall i :: 0 <= i < SIZE ==>
                  if Overrun(i) then totalRing[i] == 0
                  else EntryAgrees(totalRing[i], healthyRing[i], Bucket(lastCheckTime) - i, log)
    {
      hide SlotSound, Bucket, TakenFor, SlotOf, ReadMissing, Counted, LastHealthy, LastBucket, EntryAgrees, NoneAfter,
           SlotAgrees;
      BucketsAgo(lastCheckTime, SIZE - 1);
      ValidMeansNoneMissing();
      ghost var kept, counted, before := Bucket(lastCheckTime), Bucket(latest), missing;
      totalRing, healthyRing := [], [];
      for i := 0 to SIZE
        invariant |totalRing| == i && |healthyRing| == i && Sound()
        invariant forall j :: i <= j < SIZE ==> missing[SlotOf(kept, j)] == before[SlotOf(kept, j)]
        invariant forall j :: 0 <= j < i ==>
                    && missing[SlotOf(kept, j)] == ReadMissing(log, kept - j, before[SlotOf(kept, j)])
                    && totalRing[j] == Counted(log, kept - j, missing[SlotOf(kept, j)])
                    && healthyRing[j] == LastHealthy(log, SlotOf(kept, j))
        invariant forall j :: 0 <= j < i ==> Passed(log, kept, counted, j)
      {
        var t, h := ReadSlot(i);
        SlotsDiffer(kept, i);
        totalRing, healthyRing := totalRing + [t], healthyRing + [h];
      }
      ValidMeansNoneMissing();
      if forall k :: 0 <= k < SIZE ==> before[k] == 0 {
        ReadingOutcome(log, kept, counted, before, missing);
        forall j | 0 <= j < SIZE
          ensures if TakenFor(kept, counted, j) then totalRing[j] == 0
                  else EntryAgrees(totalRing[j], healthyRing[j], kept - j, log)
        {
          EntryOutcome(log, kept, counted, j);
        }
      }
    }
  }

  function SlotOf(kept: int, i: int): (slot: nat)
    ensures slot < SIZE
  {
    (kept - i) % SIZE
  }

  /** Of two different buckets, the first minus `i` shares its slot with the second. */
  predicate TakenFor(kept: int, counted: int, i: int) {
    kept != counted && (kept - i) % SIZE == counted % SIZE
  }

  /** What an entry tells of its slot: its last check is not later than the bucket, unless the entry
      takes the slot of the last check for an earlier bucket. */
  ghost predicate Passed(log: seq<Check>, kept: int, counted: int, i: int) {
    && (LastBucket(log, SlotOf(kept, i)) > kept - i <==> TakenFor(kept, counted, i))
    && NoneAfter(log, SlotOf(kept, i), LastBucket(log, SlotOf(kept, i)))
  }

  /** If nothing was missing, something is missing after a reading exactly if the buckets differ. */
  lemma ReadingOutcome(log: seq<Check>, kept: nat, counted: nat, before: seq<nat>, after: seq<nat>)
    requires |before| == SIZE && |after| == SIZE && kept >= SIZE - 1
    requires forall k :: 0 <= k < SIZE ==> before[k] == 0
    requires forall j :: 0 <= j < SIZE ==> Passed(log, kept, counted, j)
    requires forall j :: 0 <= j < SIZE ==> after[SlotOf(kept, j)] == ReadMissing(log, kept - j, before[SlotOf(kept, j)])
    ensures (forall k :: 0 <= k < SIZE ==> after[k] == 0) <==> kept == counted
  {
    hide Total, LastIn, SlotOf, TakenFor, LastBucket, NoneAfter;
    if kept == counted {
      SomeOverrun(kept, counted);
      forall k | 0 <= k < SIZE
        ensures after[k] == 0
      {
        var j := SlotReached(kept, k);
        SlotsFit(kept, j);
        assert Passed(log, kept, counted, j);
      }
    } else {
      SomeOverrun(kept, counted);
      var j :| 0 <= j < SIZE && TakenFor(kept, counted, j);
      assert Passed(log, kept, counted, j);
      SlotsFit(kept, j);
      LateCheck(log, SlotOf(kept, j), kept - j);
      assert after[SlotOf(kept, j)] > 0;
    }
  }

  lemma SlotReached(kept: nat, k: nat) returns (j: nat)
    requires k < SIZE
    ensures j < SIZE && SlotOf(kept, j) == k
  {
    j := (kept - k) % SIZE;
  }

  lemma SlotsFit(kept: nat, j: nat)
    requires j <= kept
    ensures SlotOf(kept, j) == (kept - j) % SIZE <= kept - j
  {
  }

  /** If the last bucket of a slot is later than one of its buckets, there is a check in it. */
  lemma LateCheck(log: seq<Check>, slot: nat, bucket: nat)
    requires slot <= bucket < LastBucket(log, slot)
    ensures Total(log, LastBucket(log, slot)) > 0
  {
    CountedIn(log, slot);
  }

  /** If nothing is missing, an entry is right, or it is zero and takes the slot of the last check for
      an earlier bucket. */
  lemma EntryOutcome(log: seq<Check>, kept: nat, counted: nat, j: nat)
    requires j < SIZE <= kept + 1 && Passed(log, kept, counted, j)
    ensures var m := ReadMissing(log, kept - j, 0);
            if TakenFor(kept, counted, j) then Counted(log, kept - j, m) == 0
            else EntryAgrees(Counted(log, kept - j, m), LastHealthy(log, SlotOf(kept, j)), kept - j, log)
  {
    hide Total, Healthy, LastIn, LastHealthy, EntryAgrees;
    if !TakenFor(kept, counted, j) {
      EntryIsRight(log, kept - j);
    }
  }

  lemma SlotsDiffer(kept: int, i: nat)
    requires i < SIZE
    ensures forall j :: 0 <= j < SIZE && j != i ==> SlotOf(kept, j) != SlotOf(kept, i)
  {
  }

  /** Among any 96 consecutive buckets there is one in the slot of the other. */
  lemma SomeOverrun(kept: int, counted: int)
    ensures kept != counted <==> exists j :: 0 <= j < SIZE && TakenFor(kept, counted, j)
  {
    if kept != counted {
      var j := (kept - counted) % SIZE;
      assert 0 <= j < SIZE && TakenFor(kept, counted, j);
    }
  }

  lemma SlotFacts(total: RingItem, healthy: RingItem, index: nat, log: seq<Check>, missing: nat)
    requires SlotTracks(total, healthy, index, log, missing)
    ensures Held(healthy, index) == LastBucket(log, index) && healthy.counter == LastHealthy(log, index)
    ensures NoneAfter(log, index, LastBucket(log, index))
  {
  }

  lemma LastInNewest(log: seq<Check>, latest: nat)
    requires log != [] && log[|log| - 1].time == latest
    ensures LastBucket(log, Bucket(latest) % SIZE) == Bucket(latest)
  {
  }

  /** The slot of the last check holds its bucket, less what is missing. */
  lemma LastCheckCounts(total: RingItem, healthy: RingItem, log: seq<Check>, missing: nat, now: nat)
    requires log != [] && log[|log| - 1].time == now
    requires SlotTracks(total, healthy, Bucket(now) % SIZE, log, missing)
    requires Held(total, Bucket(now) % SIZE) == Bucket(now)
    ensures total.counter == Total(log, Bucket(now)) - missing && healthy.counter == Healthy(log, Bucket(now))
  {
    LastInNewest(log, now);
  }

  lemma CountsNone(log: seq<Check>, bucket: nat)
    ensures CountMissing(log, bucket, 0) == 0
  {
  }

  lemma NowIsNotAhead(item: RingItem, index: nat, now: nat)
    requires Held(item, index) == Bucket(now)
    ensures NotAhead(item, index, now)
  {
  }

  lemma InOrder(total: RingItem, healthy: RingItem, index: nat, a: nat, b: nat)
    requires a <= b
    ensures NotAhead(total, index, a) ==> NotAhead(total, index, b)
    ensures NotAhead(healthy, index, a) ==> NotAhead(healthy, index, b)
  {
  }

  lemma SameBucket(item: RingItem, index: nat, a: nat, b: nat)
    requires Bucket(a) == Bucket(b)
    ensures NotAhead(item, index, a) <==> NotAhead(item, index, b)
  {
  }

  lemma StillNotAhead(item: RingItem, index: nat, lastCheckTime: nat, latest: nat, ringTime: nat)
    requires Held(item, index) == Bucket(ringTime) <= Bucket(lastCheckTime) && lastCheckTime <= latest
    ensures NotAhead(item, index, latest) && NotAhead(item, index, lastCheckTime)
  {
  }

  lemma BucketsInOrder(a: nat, b: nat)
    requires a <= b
    ensures Bucket(a) <= Bucket(b)
  {
  }

  lemma BucketsAgo(time: nat, i: nat)
    requires i < SIZE && time >= (SIZE - 1) * GRANULARITY
    ensures time - i * GRANULARITY >= 0 && Bucket(time - i * GRANULARITY) == Bucket(time) - i
  {
  }

  /** A slot that is not ahead of the clock is not ahead of the bucket it is read for. */
  lemma HeldIsBehind(item: RingItem, time: nat, ringTime: nat, i: nat)
    requires i < SIZE && Bucket(ringTime) == Bucket(time) - i
    requires NotAhead(item, Bucket(ringTime) % SIZE, time)
    ensures Held(item, Bucket(ringTime) % SIZE) <= Bucket(ringTime)
  {
  }

  /** The two clock readings matter. The time of a check is kept one second before a bucket
      boundary and the check is counted right after it: the next reading of the ring throws the
      count away. */
  method TwoReadingsLoseACheck() returns (r: HealthyMemRecord)
    ensures fresh(r) && fresh(r.total) && fresh(r.healthy) && r.Sound() && !r.Valid()
    ensures r.log == [Check(172800, true)] && r.latest == 172800 && Total(r.log, 192) == 1 && r.missing[0] == 1
  {
    hide SlotTracks, SlotAgrees;
    r := new HealthyMemRecord(172799);
    r.UpdateHealthStatus(172799, 172800, true);
    var totalRing, healthyRing := r.GetCounterRing();
    assert r.log == [Check(172800, true)];
    OneCheck(Check(172800, true));
    assert totalRing[95] == 0 && SlotOf(Bucket(r.lastCheckTime), 95) == 0;
    assert r.missing[0] == ReadMissing(r.log, 96, 0);
  }

  lemma OneCheck(check: Check)
    ensures Total([check], Bucket(check.time)) == 1
    ensures Healthy([check], Bucket(check.time)) == if check.healthy then 1 else 0
    ensures LastBucket([check], Bucket(check.time) % SIZE) == Bucket(check.time)
  {
    assert [check][..0] == [];
  }

  /** One more healthy check in that bucket, and the ring has more healthy checks than checks. */
  method HealthyExceedsTotal() returns (r: HealthyMemRecord)
    ensures fresh(r) && r.Sound() && r.total[0].counter == 1 && r.healthy[0].counter == 2
  {
    hide SlotTracks, SlotAgrees;
    r := TwoReadingsLoseACheck();
    OneCheck(Check(172800, true));
    r.UpdateHealthStatus(172800, 172800, true);
    TwoChecks(Check(172800, true));
    assert r.log == [Check(172800, true), Check(172800, true)];
  }

  lemma TwoChecks(check: Check)
    requires check.healthy
    ensures Total([check, check], Bucket(check.time)) == 2 && Healthy([check, check], Bucket(check.time)) == 2
  {
    var log := [check, check];
    assert log[..1] == [check] && log[1] == check;
    OneCheck(check);
    assert Total(log, Bucket(check.time)) == Total(log[..1], Bucket(check.time)) + 1;
    assert Healthy(log, Bucket(check.time)) == Healthy(log[..1], Bucket(check.time)) + 1;
  }
}
