/**
 * The spend-limit accounting of the spend-limit account module, as pure
 * functions: the one-hour window test `check_limit`, the charge of one
 * snapshot coin against its denomination's record, and the whole
 * after-execute pass over the balance snapshot.
 */
module SpendLimitLedger {
  import opened Wrappers
  import opened SmartAccount

  const SECOND_PER_HOUR: nat := 3600
  const NANOS_PER_SECOND: nat := 1_000_000_000
  /** What `minus_seconds(SECOND_PER_HOUR)` takes off a block time, in nanoseconds. */
  const HOUR_NANOS: nat := SECOND_PER_HOUR * NANOS_PER_SECOND

  /** Panic of `Timestamp::minus_seconds` below the epoch plus one hour. */
  const SUBTRACT_OVERFLOW: string := "attempt to subtract with overflow"
  /**
   * Panic of `checked_add(...).unwrap()` when `used` would leave `Uint128`:
   * `checked_add` returns `Err(OverflowError)`, whose details follow this prefix.
   */
  const UNWRAP_OVERFLOW: string := "called `Result::unwrap()` on an `Err` value"

  /** A denomination's record: its cap, what was spent, and when it was set. */
  datatype Limit = Limit(limit: Uint128, used: Uint128, timeSet: Timestamp)

  function LimitExceeded(denom: string): ContractError {
    CustomError("limit exceed for denom: " + denom)
  }

  /** More than one hour has passed since the record was set. */
  predicate Expired(l: Limit, now: Timestamp) {
    now >= HOUR_NANOS && now - HOUR_NANOS > l.timeSet
  }

  /** The records whose window is still running respect their cap. */
  predicate WithinLimit(limits: map<string, Limit>, now: Timestamp) {
    forall d :: d in limits && !Expired(limits[d], now) ==> limits[d].used <= limits[d].limit
  }

  /** No denomination appears twice (the bank reports one coin per denomination). */
  predicate DistinctDenoms(coins: seq<Coin>) {
    forall i, j :: 0 <= i < j < |coins| ==> coins[i].denom != coins[j].denom
  }

  predicate InSnapshot(coins: seq<Coin>, denom: string) {
    exists i :: 0 <= i < |coins| && coins[i].denom == denom
  }

  /** How much of a denomination left the account: the fall in its balance, if any. */
  function Spent(before: Uint128, after: Uint128): nat {
    if before > after then before - after else 0
  }

  /**
   * `check_limit`: an expired record allows anything; otherwise the charge
   * must fit in what is left. `limit - amount` is computed only once
   * `limit >= amount` is known, so the `unwrap` of the subtraction cannot panic.
   */
  function CheckLimit(limit: Limit, amount: Uint128, blockTime: Timestamp): (ok: bool)
    requires blockTime >= HOUR_NANOS
    ensures Expired(limit, blockTime) ==> ok
    ensures !Expired(limit, blockTime) ==> (ok <==> limit.used + amount <= limit.limit)
  {
    if blockTime - HOUR_NANOS > limit.timeSet then true
    else if limit.limit < amount || (var remaining: Uint128 := limit.limit - amount; remaining < limit.used) then false
    else true
  }

  /**
   * The amount of `denom` in a balance list: that of the first matching
   * coin, or zero when there is none.
   */
  function BalanceOf(balances: seq<Coin>, denom: string): (amount: Uint128)
    ensures (forall i :: 0 <= i < |balances| ==> balances[i].denom != denom) ==> amount == 0
    ensures forall i :: 0 <= i < |balances| && balances[i].denom == denom ==>
      (forall j :: 0 <= j < i ==> balances[j].denom != denom) ==> amount == balances[i].amount
  {
    if balances == [] then 0
    else if balances[0].denom == denom then balances[0].amount
    else BalanceOf(balances[1..], denom)
  }

  /**
   * Charging `amount` of `denom` against its record at `now`: the window
   * test (which panics before the first hour of the epoch), then the checked
   * addition to `used`. An expired window lets `used` pass `limit`.
   */
  function ChargeRecord(denom: string, l: Limit, amount: Uint128, now: Timestamp)
    : (r: Result<Limit, ContractError>)
    ensures r.Err? <==>
      || now < HOUR_NANOS
      || (!Expired(l, now) && l.used + amount > l.limit)
      || (Expired(l, now) && l.used + amount >= UINT128_LIMIT)
    ensures r == Err(LimitExceeded(denom)) <==>
      now >= HOUR_NANOS && !Expired(l, now) && l.used + amount > l.limit
    ensures r.Ok? ==>
      r.value.limit == l.limit && r.value.timeSet == l.timeSet && r.value.used == l.used + amount
    ensures r.Ok? && !Expired(l, now) ==> r.value.used <= r.value.limit
  {
    if now < HOUR_NANOS then Err(Panic(SUBTRACT_OVERFLOW))
    else if !CheckLimit(l, amount, now) then Err(LimitExceeded(denom))
    else if l.used + amount >= UINT128_LIMIT then Err(Panic(UNWRAP_OVERFLOW))
    else Ok(l.(used := l.used + amount))
  }

  /**
   * One iteration of the after-execute loop for the snapshot coin
   * `preBalance`: an unlimited denomination, or one whose balance did not
   * fall, is left alone; otherwise the fall is charged to its record.
   */
  function ChargeCoin(limits: map<string, Limit>, preBalance: Coin, afterBalances: seq<Coin>, now: Timestamp)
    : (r: Result<map<string, Limit>, ContractError>)
    ensures r.Ok? ==> r.value.Keys == limits.Keys
    ensures r.Ok? ==> forall d :: d in limits && d != preBalance.denom ==> r.value[d] == limits[d]
    ensures preBalance.denom !in limits || Spent(preBalance.amount, BalanceOf(afterBalances, preBalance.denom)) == 0
      ==> r == Ok(limits)
    ensures r.Ok? && preBalance.denom in limits ==>
      var before, after := limits[preBalance.denom], r.value[preBalance.denom];
      && after.limit == before.limit && after.timeSet == before.timeSet
      && after.used == before.used + Spent(preBalance.amount, BalanceOf(afterBalances, preBalance.denom))
    ensures r.Err? <==>
      && preBalance.denom in limits
      && preBalance.amount > BalanceOf(afterBalances, preBalance.denom)
      && ChargeRecord(preBalance.denom, limits[preBalance.denom],
                      preBalance.amount - BalanceOf(afterBalances, preBalance.denom), now).Err?
    ensures r.Err? ==> r.error == ChargeRecord(preBalance.denom, limits[preBalance.denom],
                                               preBalance.amount - BalanceOf(afterBalances, preBalance.denom), now).error
    ensures r.Ok? && WithinLimit(limits, now) ==> WithinLimit(r.value, now)
  {
    if preBalance.denom !in limits then Ok(limits)
    else
      var amount := BalanceOf(afterBalances, preBalance.denom);
      if !(preBalance.amount > amount) then Ok(limits)
      else
        var usedAmount: Uint128 := preBalance.amount - amount;
        match ChargeRecord(preBalance.denom, limits[preBalance.denom], usedAmount, now)
        case Err(e) => Err(e)
        case Ok(l) => Ok(limits[preBalance.denom := l])
  }

  /**
   * The after-execute pass: every snapshot coin in order, stopping at the
   * first error. Records are never created or removed, and a denomination
   * absent from the snapshot keeps its record.
   */
  function ChargeAll(limits: map<string, Limit>, preBalances: seq<Coin>, afterBalances: seq<Coin>, now: Timestamp)
    : (r: Result<map<string, Limit>, ContractError>)
    decreases |preBalances|
    ensures r.Ok? ==> r.value.Keys == limits.Keys
    ensures r.Ok? ==> forall d :: d in limits && !InSnapshot(preBalances, d) ==> r.value[d] == limits[d]
  {
    if preBalances == [] then Ok(limits)
    else
      match ChargeCoin(limits, preBalances[0], afterBalances, now)
      case Err(e) => Err(e)
      case Ok(m) =>
        var rest := ChargeAll(m, preBalances[1..], afterBalances, now);
        assert forall d :: InSnapshot(preBalances[1..], d) ==> InSnapshot(preBalances, d) by {
          forall d | InSnapshot(preBalances[1..], d) ensures InSnapshot(preBalances, d) {
            var i :| 0 <= i < |preBalances[1..]| && preBalances[1..][i].denom == d;
            assert preBalances[i + 1].denom == d;
          }
        }
        assert forall d :: d in limits && !InSnapshot(preBalances, d) ==> d != preBalances[0].denom by {
          forall d | d in limits && d == preBalances[0].denom ensures InSnapshot(preBalances, d) {
            assert preBalances[0].denom == d;
          }
        }
        rest
  }

  /** `ChargeCoin` looks only at the record of the coin's own denomination. */
  lemma ChargeCoinLocal(m1: map<string, Limit>, m2: map<string, Limit>, c: Coin, after: seq<Coin>, now: Timestamp)
    requires c.denom in m1 <==> c.denom in m2
    requires c.denom in m1 ==> m1[c.denom] == m2[c.denom]
    ensures ChargeCoin(m1, c, after, now).Err? <==> ChargeCoin(m2, c, after, now).Err?
    ensures ChargeCoin(m1, c, after, now).Err? ==> ChargeCoin(m1, c, after, now) == ChargeCoin(m2, c, after, now)
  {
  }

  /**
   * With one snapshot coin per denomination, a successful pass charges each
   * limited denomination exactly its fall in balance, and nothing else.
   */
  lemma {:induction false} ChargeAllCharges(
    m: map<string, Limit>, pre: seq<Coin>, after: seq<Coin>, now: Timestamp, i: nat)
    requires DistinctDenoms(pre) && i < |pre| && pre[i].denom in m
    requires ChargeAll(m, pre, after, now).Ok?
    ensures var m', d := ChargeAll(m, pre, after, now).value, pre[i].denom;
      && d in m'
      && m'[d].limit == m[d].limit
      && m'[d].timeSet == m[d].timeSet
      && m'[d].used == m[d].used + Spent(pre[i].amount, BalanceOf(after, d))
  {
    var m1 := ChargeCoin(m, pre[0], after, now).value;
    assert ChargeAll(m, pre, after, now) == ChargeAll(m1, pre[1..], after, now);
    if i == 0 {
      var d := pre[0].denom;
      assert !InSnapshot(pre[1..], d) by {
        forall k | 0 <= k < |pre[1..]| ensures pre[1..][k].denom != d {
          assert pre[1..][k] == pre[k + 1];
        }
      }
    } else {
      assert pre[1..][i - 1] == pre[i];
      ChargeAllCharges(m1, pre[1..], after, now, i - 1);
    }
  }

  /**
   * With one snapshot coin per denomination, the pass fails exactly when
   * some coin's charge fails on its own, and then with the error of the
   * first such coin in snapshot order.
   */
  lemma {:induction false} ChargeAllFirstError(m: map<string, Limit>, pre: seq<Coin>, after: seq<Coin>, now: Timestamp)
    requires DistinctDenoms(pre)
    ensures ChargeAll(m, pre, after, now).Err? <==>
      exists i :: 0 <= i < |pre| && ChargeCoin(m, pre[i], after, now).Err?
    ensures ChargeAll(m, pre, after, now).Err? ==>
      exists i :: 0 <= i < |pre| && ChargeCoin(m, pre[i], after, now) == ChargeAll(m, pre, after, now) &&
        forall j :: 0 <= j < i ==> ChargeCoin(m, pre[j], after, now).Ok?
  {
    if pre != [] {
      var first := ChargeCoin(m, pre[0], after, now);
      if first.Ok? {
        var m1 := first.value;
        var tail := pre[1..];
        assert DistinctDenoms(tail) by {
          forall a, b | 0 <= a < b < |tail| ensures tail[a].denom != tail[b].denom {
            assert tail[a] == pre[a + 1] && tail[b] == pre[b + 1];
          }
        }
        ChargeAllFirstError(m1, tail, after, now);
        forall k | 0 <= k < |tail|
          ensures ChargeCoin(m1, tail[k], after, now).Err? <==> ChargeCoin(m, pre[k + 1], after, now).Err?
          ensures ChargeCoin(m1, tail[k], after, now).Err? ==>
            ChargeCoin(m1, tail[k], after, now) == ChargeCoin(m, pre[k + 1], after, now)
        {
          assert tail[k] == pre[k + 1];
          assert pre[k + 1].denom != pre[0].denom;
          ChargeCoinLocal(m1, m, tail[k], after, now);
        }
        if ChargeAll(m, pre, after, now).Err? {
          var k :| 0 <= k < |tail| && ChargeCoin(m1, tail[k], after, now) == ChargeAll(m1, tail, after, now) &&
            forall j :: 0 <= j < k ==> ChargeCoin(m1, tail[j], after, now).Ok?;
          forall j | 0 <= j < k + 1 ensures ChargeCoin(m, pre[j], after, now).Ok? {
            if j > 0 {
              assert ChargeCoin(m1, tail[j - 1], after, now).Ok?;
            }
          }
        } else {
          forall i | 0 <= i < |pre| ensures ChargeCoin(m, pre[i], after, now).Ok? {
            if i > 0 {
              assert ChargeCoin(m1, tail[i - 1], after, now).Ok?;
            }
          }
        }
      }
    }
  }

  /**
   * A successful pass keeps every record whose window is still running
   * within its cap.
   */
  lemma {:induction false} ChargeAllKeepsWithinLimit(
    m: map<string, Limit>, pre: seq<Coin>, after: seq<Coin>, now: Timestamp)
    requires WithinLimit(m, now)
    ensures ChargeAll(m, pre, after, now).Ok? ==> WithinLimit(ChargeAll(m, pre, after, now).value, now)
  {
    if pre != [] {
      var first := ChargeCoin(m, pre[0], after, now);
      if first.Ok? {
        ChargeAllKeepsWithinLimit(first.value, pre[1..], after, now);
      }
    }
  }

  /** Block time moving forward only closes windows, so the invariant survives it. */
  lemma WithinLimitLater(m: map<string, Limit>, now: Timestamp, later: Timestamp)
    requires now <= later && WithinLimit(m, now)
    ensures WithinLimit(m, later)
  {
  }

  /**
   * At exactly one hour after the record was set the cap still applies; one
   * nanosecond later it no longer does.
   */
  lemma WindowBoundary(l: Limit, amount: Uint128)
    requires l.timeSet + HOUR_NANOS + 1 < UINT64_LIMIT
    ensures CheckLimit(l, amount, l.timeSet + HOUR_NANOS) <==> l.used + amount <= l.limit
    ensures CheckLimit(l, amount, l.timeSet + HOUR_NANOS + 1)
  {
  }

  /** Spending the whole cap right after it was set succeeds once; the same spend again fails. */
  lemma FullLimitChargedOnce(denom: string, cap: Uint128, t: Timestamp)
    requires t >= HOUR_NANOS && cap > 0
    ensures ChargeRecord(denom, Limit(cap, 0, t), cap, t) == Ok(Limit(cap, cap, t))
    ensures ChargeRecord(denom, Limit(cap, cap, t), cap, t) == Err(LimitExceeded(denom))
  {
  }

  /**
   * Once the window has run out, a spend larger than the whole cap is
   * accepted and recorded, leaving `used` above `limit`.
   */
  lemma ExpiredWindowOverrunsCap(denom: string, l: Limit, preAmount: Uint128, now: Timestamp)
    requires Expired(l, now) && preAmount > l.limit && l.used + preAmount < UINT128_LIMIT
    ensures var r := ChargeAll(map[denom := l], [Coin(denom, preAmount)], [], now);
      r.Ok? && r.value[denom].used > r.value[denom].limit
  {
    var m := map[denom := l];
    var c := Coin(denom, preAmount);
    assert BalanceOf([], denom) == 0;
    var m1 := ChargeCoin(m, c, [], now);
    assert m1.Ok?;
    assert ChargeAll(m, [c], [], now) == ChargeAll(m1.value, [], [], now);
  }
}
