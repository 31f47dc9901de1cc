/** Daily volume and fees summed from swap logs in hourly slots, behind the runner's start gate. */
module VolumeAdapter {

  const HOUR: nat := 3600
  const DAY: nat := 86_400

  datatype SwapLog = SwapLog(tokenIn: nat, totalAmount: nat, feeAmount: nat, at: nat)

  /** Amounts per token; an absent token reads zero. */
  type Balances = map<nat, nat>

  function Get(b: Balances, token: nat): nat {
    if token in b then b[token] else 0
  }

  function Add(b: Balances, token: nat, amount: nat): Balances {
    b[token := Get(b, token) + amount]
  }

  /** What one log adds to a token's volume or fees, if it falls in the window. */
  function Part(log: SwapLog, token: nat, fees: bool, from: nat, to: nat): nat {
    if log.tokenIn == token && from <= log.at < to then (if fees then log.feeAmount else log.totalAmount) else 0
  }

  /** The reference: the sum over all logs of a window. */
  function Sum(logs: seq<SwapLog>, token: nat, fees: bool, from: nat, to: nat): nat {
    if logs == [] then 0
    else Sum(logs[..|logs| - 1], token, fees, from, to) + Part(logs[|logs| - 1], token, fees, from, to)
  }

  /** A log counts once, from the window's start on and before its end: its total as volume and its fee as fees. */
  lemma OneLog(log: SwapLog, token: nat, from: nat, to: nat)
    ensures
      var counts := log.tokenIn == token && from <= log.at && log.at < to;
      && Sum([log], token, false, from, to) == (if counts then log.totalAmount else 0)
      && Sum([log], token, true, from, to) == (if counts then log.feeAmount else 0)
  {
    assert [log][..0] == [];
  }

  lemma {:induction false} WindowsJoin(logs: seq<SwapLog>, token: nat, fees: bool, from: nat, mid: nat, to: nat)
    requires from <= mid <= to
    ensures Sum(logs, token, fees, from, mid) + Sum(logs, token, fees, mid, to) == Sum(logs, token, fees, from, to)
  {
    if logs != [] {
      WindowsJoin(logs[..|logs| - 1], token, fees, from, mid, to);
    }
  }

  lemma {:induction false} OutsideWindow(logs: seq<SwapLog>, token: nat, fees: bool, from: nat, to: nat)
    requires forall log :: log in logs ==> log.at < from || to <= log.at
    ensures Sum(logs, token, fees, from, to) == 0
  {
    if logs != [] {
      OutsideWindow(logs[..|logs| - 1], token, fees, from, to);
    }
  }

  /** The logs a query for one window returns, in order. */
  function InWindow(logs: seq<SwapLog>, from: nat, to: nat): seq<SwapLog> {
    if logs == [] then []
    else
      var earlier, last := InWindow(logs[..|logs| - 1], from, to), logs[|logs| - 1];
      if from <= last.at < to then earlier + [last] else earlier
  }

  lemma SumSnoc(logs: seq<SwapLog>, log: SwapLog, token: nat, fees: bool, from: nat, to: nat)
    ensures Sum(logs + [log], token, fees, from, to)
         == Sum(logs, token, fees, from, to) + Part(log, token, fees, from, to)
  {
    hide Part;
    assert (logs + [log])[..|logs|] == logs;
  }

  lemma Nothing(token: nat, fees: bool, from: nat, to: nat)
    ensures Sum([], token, fees, from, to) == 0
  {
  }

  lemma {:induction false} QueryIsWindow(logs: seq<SwapLog>, token: nat, fees: bool, from: nat, to: nat)
    ensures Sum(InWindow(logs, from, to), token, fees, from, to) == Sum(logs, token, fees, from, to)
  {
    hide Sum;
    Nothing(token, fees, from, to);
    if logs != [] {
      var earlier, last := InWindow(logs[..|logs| - 1], from, to), logs[|logs| - 1];
      QueryIsWindow(logs[..|logs| - 1], token, fees, from, to);
      SumSnoc(earlier, last, token, fees, from, to);
      assert logs == logs[..|logs| - 1] + [last];
      SumSnoc(logs[..|logs| - 1], last, token, fees, from, to);
    }
  }

  /** Adds logs to balances that already hold something. */
  method Accumulate(
      logs: seq<SwapLog>, from: nat, to: nat, volume0: Balances, fees0: Balances)
      returns (volume: Balances, fees: Balances)
    requires forall log :: log in logs ==> from <= log.at < to
    ensures forall token :: Get(volume, token) == Get(volume0, token) + Sum(logs, token, false, from, to)
    ensures forall token :: Get(fees, token) == Get(fees0, token) + Sum(logs, token, true, from, to)
  {
    volume, fees := volume0, fees0;
    for i := 0 to |logs|
      invariant forall token :: Get(volume, token) == Get(volume0, token) + Sum(logs[..i], token, false, from, to)
      invariant forall token :: Get(fees, token) == Get(fees0, token) + Sum(logs[..i], token, true, from, to)
    {
      assert logs[..i + 1][..i] == logs[..i];
      volume := Add(volume, logs[i].tokenIn, logs[i].totalAmount);
      fees := Add(fees, logs[i].tokenIn, logs[i].feeAmount);
    }
    assert logs[..|logs|] == logs;
  }

  /** One slot: the collector's logs and then those of the frozen one, into the same balances. */
  method Fetch(
      logs: seq<SwapLog>, legacyLogs: seq<SwapLog>, from: nat, to: nat) returns (volume: Balances, fees: Balances)
    ensures forall token ::
              Get(volume, token) == Sum(logs, token, false, from, to) + Sum(legacyLogs, token, false, from, to)
    ensures forall token ::
              Get(fees, token) == Sum(logs, token, true, from, to) + Sum(legacyLogs, token, true, from, to)
  {
    hide Sum, InWindow;
    WindowOnly(logs, from, to);
    WindowOnly(legacyLogs, from, to);
    volume, fees := Accumulate(InWindow(logs, from, to), from, to, map[], map[]);
    volume, fees := Accumulate(InWindow(legacyLogs, from, to), from, to, volume, fees);
    forall token, f
      ensures Sum(InWindow(logs, from, to), token, f, from, to) == Sum(logs, token, f, from, to)
      ensures Sum(InWindow(legacyLogs, from, to), token, f, from, to) == Sum(legacyLogs, token, f, from, to)
    {
      QueryIsWindow(logs, token, f, from, to);
      QueryIsWindow(legacyLogs, token, f, from, to);
    }
  }

  lemma {:induction false} WindowOnly(logs: seq<SwapLog>, from: nat, to: nat)
    ensures forall log :: log in InWindow(logs, from, to) ==> log in logs && from <= log.at < to
  {
    if logs != [] {
      WindowOnly(logs[..|logs| - 1], from, to);
    }
  }

  /** The runner's gate: a chain that starts on day `startDay` runs in the slot that ends at `end`. */
  predicate Admitted(startDay: nat, end: nat) {
    startDay * DAY + DAY <= end
  }

  /** The earliest time the gate lets through: the last hour of the start day. */
  function Cutoff(startDay: nat): nat {
    startDay * DAY + DAY - HOUR
  }

  /** All hourly slots from the beginning of time up to `hours`, added up. */
  method RunSlots(
      logs: seq<SwapLog>, legacyLogs: seq<SwapLog>, startDay: nat, hours: nat)
      returns (volume: Balances, fees: Balances)
    ensures forall token :: Get(volume, token) == Counted(logs, legacyLogs, token, false, startDay, hours)
    ensures forall token :: Get(fees, token) == Counted(logs, legacyLogs, token, true, startDay, hours)
  {
    volume, fees := map[], map[];
    forall token, f
      ensures Counted(logs, legacyLogs, token, f, startDay, 0) == 0
    {
      OutsideWindow(logs, token, f, Cutoff(startDay), 0);
      OutsideWindow(legacyLogs, token, f, Cutoff(startDay), 0);
    }
    for h := 0 to hours
      invariant forall token :: Get(volume, token) == Counted(logs, legacyLogs, token, false, startDay, h)
      invariant forall token :: Get(fees, token) == Counted(logs, legacyLogs, token, true, startDay, h)
    {
      var end := (h + 1) * HOUR;
      forall token, f
        ensures Counted(logs, legacyLogs, token, f, startDay, h + 1)
             == Counted(logs, legacyLogs, token, f, startDay, h)
                + if Admitted(startDay, end)
                    then Sum(logs, token, f, end - HOUR, end) + Sum(legacyLogs, token, f, end - HOUR, end) else 0
      {
        OneMoreSlot(logs, legacyLogs, token, f, startDay, h);
      }
      if Admitted(startDay, end) {
        var slotVolume, slotFees := Fetch(logs, legacyLogs, end - HOUR, end);
        volume := Merge(volume, slotVolume);
        fees := Merge(fees, slotFees);
      }
    }
  }

  function Merge(a: Balances, b: Balances): (r: Balances)
    ensures forall token :: Get(r, token) == Get(a, token) + Get(b, token)
  {
    map token | token in a.Keys + b.Keys :: Get(a, token) + Get(b, token)
  }

  /** The reference for a whole run: every log from the cutoff on. */
  function Counted(
      logs: seq<SwapLog>, legacyLogs: seq<SwapLog>, token: nat, fees: bool, startDay: nat, hours: nat): nat {
    Sum(logs, token, fees, Cutoff(startDay), hours * HOUR)
        + Sum(legacyLogs, token, fees, Cutoff(startDay), hours * HOUR)
  }

  lemma OneMoreSlot(logs: seq<SwapLog>, legacyLogs: seq<SwapLog>, token: nat, fees: bool, startDay: nat, h: nat)
    ensures Counted(logs, legacyLogs, token, fees, startDay, h + 1)
         == Counted(logs, legacyLogs, token, fees, startDay, h)
            + if Admitted(startDay, (h + 1) * HOUR)
              then Sum(logs, token, fees, h * HOUR, (h + 1) * HOUR)
                  + Sum(legacyLogs, token, fees, h * HOUR, (h + 1) * HOUR) else 0
  {
    if Admitted(startDay, (h + 1) * HOUR) {
      WindowsJoin(logs, token, fees, Cutoff(startDay), h * HOUR, (h + 1) * HOUR);
      WindowsJoin(legacyLogs, token, fees, Cutoff(startDay), h * HOUR, (h + 1) * HOUR);
    } else {
      forall to | to == h * HOUR || to == (h + 1) * HOUR
        ensures Sum(logs, token, fees, Cutoff(startDay), to) == 0
            && Sum(legacyLogs, token, fees, Cutoff(startDay), to) == 0
      {
        OutsideWindow(logs, token, fees, Cutoff(startDay), to);
        OutsideWindow(legacyLogs, token, fees, Cutoff(startDay), to);
      }
    }
  }

  predicate NotBeforeDay(logs: seq<SwapLog>, day: nat) {
    forall log :: log in logs ==> day * DAY <= log.at
  }

  /** Starting at least one day before the first log's day loses nothing. */
  lemma EarlyStartCountsEverything(
      logs: seq<SwapLog>, legacyLogs: seq<SwapLog>, token: nat, fees: bool, startDay: nat, firstDay: nat, hours: nat)
    requires startDay < firstDay && NotBeforeDay(logs + legacyLogs, firstDay)
    requires Cutoff(startDay) <= hours * HOUR
    ensures Counted(logs, legacyLogs, token, fees, startDay, hours)
         == Sum(logs, token, fees, 0, hours * HOUR) + Sum(legacyLogs, token, fees, 0, hours * HOUR)
  {
    assert (startDay + 1) * DAY <= firstDay * DAY;
    forall log | log in logs || log in legacyLogs
      ensures Cutoff(startDay) <= log.at
    {
      assert log in logs + legacyLogs;
    }
    WindowsJoin(logs, token, fees, 0, Cutoff(startDay), hours * HOUR);
    WindowsJoin(legacyLogs, token, fees, 0, Cutoff(startDay), hours * HOUR);
    OutsideWindow(logs, token, fees, 0, Cutoff(startDay));
    OutsideWindow(legacyLogs, token, fees, 0, Cutoff(startDay));
  }

  /** Exactly which tokens' sums survive a given start: those with nothing before the last hour of the start day. */
  lemma CompleteExactly(logs: seq<SwapLog>, legacyLogs: seq<SwapLog>, token: nat, fees: bool, startDay: nat, hours: nat)
    requires Cutoff(startDay) <= hours * HOUR
    ensures Counted(logs, legacyLogs, token, fees, startDay, hours)
            == Sum(logs, token, fees, 0, hours * HOUR) + Sum(legacyLogs, token, fees, 0, hours * HOUR)
       <==> Sum(logs, token, fees, 0, Cutoff(startDay)) == 0 && Sum(legacyLogs, token, fees, 0, Cutoff(startDay)) == 0
  {
    WindowsJoin(logs, token, fees, 0, Cutoff(startDay), hours * HOUR);
    WindowsJoin(legacyLogs, token, fees, 0, Cutoff(startDay), hours * HOUR);
  }

  /** Starting on the first log's own day counts only the last hour of that day. */
  lemma SameDayStartCountsLastHour(logs: seq<SwapLog>, legacyLogs: seq<SwapLog>, token: nat, fees: bool, day: nat)
    ensures Counted(logs, legacyLogs, token, fees, day, (day + 1) * 24)
         == Sum(logs, token, fees, (day + 1) * DAY - HOUR, (day + 1) * DAY)
            + Sum(legacyLogs, token, fees, (day + 1) * DAY - HOUR, (day + 1) * DAY)
  {
    assert (day + 1) * 24 * HOUR == (day + 1) * DAY;
  }
}
