/** The TikTok listener: which gifts become demand and how many strokes
    each is worth, and the reconnect policy with its doubling, capped
    backoff. The TikTok client itself (the network connection, its
    events, the cookie headers) is outside the model: whether a connection
    attempt succeeds is a parameter, and a disconnection is a call. */
module Listener {
  import opened Wrappers
  import opened Js
  import opened Types
  import opened GiftMap

  const MaxBackoffMs: nat := 30000
  const InitialBackoffMs: nat := 1000

  /* ---------- Gifts ---------- */

  /** An optional number field that is present and truthy. */
  predicate Given(n: Option<Number>) {
    n.Some? && Truthy(n.value)
  }

  /** `resolveGiftCount`: a finished streak counts its repeats, else an
      explicit gift count counts, else the repeats of an event that says
      nothing about streaks, else one. */
  function ResolveGiftCount(e: GiftEvent): (c: Number)
    ensures Truthy(c)
    ensures c == Int(1) || (e.repeatCount.Some? && c == e.repeatCount.value) || (e.giftCount.Some? && c == e.giftCount.value)
    ensures e.repeatEnd == Some(true) && Given(e.repeatCount) ==> c == e.repeatCount.value
    ensures Given(e.giftCount) && !(e.repeatEnd == Some(true) && Given(e.repeatCount)) ==> c == e.giftCount.value
    ensures !(e.repeatEnd == Some(true) && Given(e.repeatCount)) && !Given(e.giftCount) ==>
      c == (if e.repeatEnd.None? && Given(e.repeatCount) then e.repeatCount.value else Int(1))
  {
    if e.repeatEnd == Some(true) && Given(e.repeatCount) then e.repeatCount.value
    else if Given(e.giftCount) then e.giftCount.value
    else if Given(e.repeatCount) && e.repeatEnd.None? then e.repeatCount.value
    else Int(1)
  }

  /** An event of a streak still in progress (`repeatEnd` false) without a
      gift count is worth one stroke, whatever its repeat count. */
  lemma InStreakEventCountsOne(e: GiftEvent)
    requires e.repeatEnd == Some(false) && !Given(e.giftCount)
    ensures ResolveGiftCount(e) == Int(1)
  {
  }

  /** `handleGift` up to the call of `applyGift`: the input it would pass,
      or nothing for an unmapped gift or a count of at most zero. */
  function HandleGift(m: map<string, string>, e: GiftEvent): (r: Option<GiftApplyInput>)
    ensures r.Some? <==> Resolve(m, e.giftId, e.giftName).Some? && !AtMostZero(ResolveGiftCount(e))
    ensures r.Some? ==>
      && r.value.rowId == Resolve(m, e.giftId, e.giftName).value
      && r.value.rowId != ""
      && r.value.count == ResolveGiftCount(e)
      && r.value.source == TikTok
    ensures r.Some? ==> (r.value.count.Int? && r.value.count.v > 0) || r.value.count == Infinity(false)
  {
    var rowId := Resolve(m, e.giftId, e.giftName);
    if rowId.None? then None
    else
      var count := ResolveGiftCount(e);
      if AtMostZero(count) then None
      else Some(GiftApplyInput(rowId.value, count, TikTok))
  }

  /* ---------- Reconnect backoff ---------- */

  /** `Math.min(backoff * 2, MAX_BACKOFF_MS)`. */
  function NextBackoff(b: nat): (r: nat)
    ensures r <= MaxBackoffMs && r <= 2 * b
    ensures r == 2 * b || r == MaxBackoffMs
  {
    if 2 * b < MaxBackoffMs then 2 * b else MaxBackoffMs
  }

  /** The backoff after `k` failures in a row since the last success. */
  function BackoffAfter(k: nat): nat {
    if k == 0 then InitialBackoffMs else NextBackoff(BackoffAfter(k - 1))
  }

  function Pow2(k: nat): (p: nat)
    ensures p >= 1
  {
    if k == 0 then 1 else 2 * Pow2(k - 1)
  }

  /** The delays double from one second and stop at thirty seconds:
      1000, 2000, 4000, 8000, 16000, 30000, 30000, ... */
  lemma {:induction false} BackoffClosedForm(k: nat)
    ensures BackoffAfter(k) == if InitialBackoffMs * Pow2(k) < MaxBackoffMs then InitialBackoffMs * Pow2(k) else MaxBackoffMs
  {
    if k > 0 {
      BackoffClosedForm(k - 1);
      assert InitialBackoffMs * Pow2(k) == 2 * (InitialBackoffMs * Pow2(k - 1));
    }
  }

  /** The backoff stays between one and thirty seconds and never shrinks
      during a streak of failures. */
  lemma {:induction false} BackoffBounded(k: nat)
    ensures InitialBackoffMs <= BackoffAfter(k) <= MaxBackoffMs
    ensures BackoffAfter(k) <= BackoffAfter(k + 1)
  {
    if k > 0 {
      BackoffBounded(k - 1);
    }
  }

  /** Five failures reach the cap, and it holds from then on. */
  lemma CapReachedAfterFive(k: nat)
    requires k >= 5
    ensures BackoffAfter(k) == MaxBackoffMs
  {
    BackoffClosedForm(k);
    assert Pow2(5) == 32;
    PowMonotone(5, k);
  }

  lemma {:induction false} PowMonotone(i: nat, j: nat)
    requires i <= j
    ensures Pow2(i) <= Pow2(j)
    decreases j
  {
    if i < j {
      PowMonotone(i, j - 1);
    }
  }

  /* ---------- The listener object ---------- */

  /** The TikTok part of the configuration. */
  datatype TikTokConfig = TikTokConfig(username: string, roomId: string)

  /** `username || roomId`. */
  function UniqueId(c: TikTokConfig): (r: string)
    ensures r == c.username || r == c.roomId
    ensures r == "" <==> c.username == "" && c.roomId == ""
  {
    if c.username != "" then c.username else c.roomId
  }

  class TikTokListener {
    const tiktok: TikTokConfig
    var running: bool
    var backoffMs: nat
    /** The live client, known by the id it was opened for; none before the
        first attempt and after `stop`. */
    var connection: Option<string>
    /** The delays of the reconnect timers armed so far, oldest first. */
    var delays: seq<nat>
    /** Failed attempts since the last success. */
    ghost var streak: nat

    ghost predicate Valid()
      reads this
    {
      backoffMs == BackoffAfter(streak)
    }

    constructor (tiktok: TikTokConfig)
      ensures this.tiktok == tiktok && Valid()
      ensures !running && backoffMs == InitialBackoffMs && connection.None? && delays == []
    {
      this.tiktok := tiktok;
      running := false;
      backoffMs := InitialBackoffMs;
      connection := None;
      delays := [];
      streak := 0;
    }

    /** `start`: does nothing while running; otherwise starts running and
      makes the first attempt. */
    method Start(connectOk: bool)
      requires Valid()
      modifies this
      ensures Valid() && running
      ensures old(running) ==> unchanged(this)
      ensures !old(running) && UniqueId(tiktok) == "" ==>
        connection == old(connection) && backoffMs == old(backoffMs) && delays == old(delays)
      ensures !old(running) && UniqueId(tiktok) != "" ==> Attempted(connectOk)
    {
      if running {
        return;
      }
      running := true;
      Connect(connectOk);
    }

    /** The effect of one connection attempt: the client is replaced; a
      success resets the backoff; a failure arms a timer with the current
      backoff and doubles it. */
    twostate predicate Attempted(connectOk: bool)
      reads this
    {
      && connection == Some(UniqueId(tiktok))
      && (connectOk ==> backoffMs == InitialBackoffMs && delays == old(delays) && streak == 0)
      && (!connectOk ==> backoffMs == NextBackoff(old(backoffMs)) && delays == old(delays) + [old(backoffMs)]
                         && streak == old(streak) + 1)
    }

    /** `stop`: stop running and drop the client; timers already armed will
      find the listener stopped. */
    method Stop()
      modifies this`running, this`connection
      ensures !running && connection.None?
    {
      running := false;
      connection := None;
    }

    /** `connect`: nothing once stopped or without a user name or room id;
      otherwise one attempt. */
    method Connect(connectOk: bool)
      requires Valid()
      modifies this`connection, this`backoffMs, this`delays, this`streak
      ensures Valid()
      ensures !running || UniqueId(tiktok) == "" ==> unchanged(this)
      ensures running && UniqueId(tiktok) != "" ==> Attempted(connectOk)
    {
      if !running {
        return;
      }
      var uniqueId := UniqueId(tiktok);
      if uniqueId == "" {
        return;
      }
      connection := Some(uniqueId);
      if connectOk {
        backoffMs := InitialBackoffMs;
        streak := 0;
      } else {
        ScheduleReconnect();
      }
    }

    /** `handleDisconnect`: a running listener reconnects after a delay. */
    method HandleDisconnect()
      requires Valid()
      modifies this`backoffMs, this`delays, this`streak
      ensures Valid()
      ensures !running ==> unchanged(this)
      ensures running ==> delays == old(delays) + [old(backoffMs)] && backoffMs == NextBackoff(old(backoffMs))
    {
      if !running {
        return;
      }
      ScheduleReconnect();
    }

    /** `scheduleReconnect`: arm a timer with the current backoff and double
      the backoff up to the cap; nothing once stopped. */
    method ScheduleReconnect()
      requires Valid()
      modifies this`backoffMs, this`delays, this`streak
      ensures Valid()
      ensures !running ==> unchanged(this)
      ensures running ==>
        delays == old(delays) + [old(backoffMs)] && backoffMs == NextBackoff(old(backoffMs)) && streak == old(streak) + 1
    {
      if !running {
        return;
      }
      var delay := backoffMs;
      backoffMs := NextBackoff(backoffMs);
      streak := streak + 1;
      delays := delays + [delay];
    }
  }
}
