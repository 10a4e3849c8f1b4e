/**
 * The waiting loops of the mission scripts, over finite runs of telemetry.
 *
 * A MAVSDK telemetry stream never ends; a sequence here is the part of it a
 * script has read so far. A wait that has not decided by the end of that
 * part is `Pending`: the script would still be waiting. Where a script also
 * watches the clock, each sample carries the seconds elapsed since the wait
 * began, as read when the sample is examined.
 */
module Polling {
  import opened Wrappers

  /** A sample together with the elapsed time the script reads beside it. */
  datatype Timed<T> = Timed(elapsed: real, sample: T)

  /** How a wait ends: at the sample it accepted, at the sample where time ran out, or not yet. */
  datatype Poll = Found(index: nat) | TimedOut(index: nat) | Pending

  /**
   * `async for s in stream: if good(s): break`: the position of the first
   * good sample, or `None` while none has arrived.
   */
  function FirstFrom<T>(s: seq<T>, good: T -> bool, i: nat): (r: Option<nat>)
    requires i <= |s|
    ensures r.Some? ==> i <= r.value < |s| && good(s[r.value])
                        && forall j :: i <= j < r.value ==> !good(s[j])
    ensures r.None? ==> forall j :: i <= j < |s| ==> !good(s[j])
    decreases |s| - i
  {
    if i == |s| then None
    else if good(s[i]) then Some(i)
    else FirstFrom(s, good, i + 1)
  }

  /** The loop behind `FirstFrom`, reading one sample per pass. */
  method AwaitFirst<T>(s: seq<T>, good: T -> bool) returns (r: Option<nat>)
    ensures r == FirstFrom(s, good, 0)
  {
    var i := 0;
    while i < |s|
      invariant i <= |s|
      invariant FirstFrom(s, good, 0) == FirstFrom(s, good, i)
    {
      if good(s[i]) {
        return Some(i);
      }
      i := i + 1;
    }
    return None;
  }

  /**
   * An `async for` that checks the sample first and then the clock
   * (test/follower_drone_test.py, the connection and health waits): it
   * accepts the first good sample, and gives up at the first bad sample read
   * once more than `limit` seconds have passed.
   */
  function WaitFrom<T>(obs: seq<Timed<T>>, good: T -> bool, limit: real, i: nat): (r: Poll)
    requires i <= |obs|
    ensures r.Found? ==> i <= r.index < |obs| && good(obs[r.index].sample)
    ensures r.TimedOut? ==> i <= r.index < |obs| && !good(obs[r.index].sample) && obs[r.index].elapsed > limit
    ensures !r.Pending? ==> forall j :: i <= j < Index(r) ==> !good(obs[j].sample) && obs[j].elapsed <= limit
    ensures r.Pending? ==> forall j :: i <= j < |obs| ==> !good(obs[j].sample) && obs[j].elapsed <= limit
    decreases |obs| - i
  {
    if i == |obs| then Pending
    else if good(obs[i].sample) then Found(i)
    else if obs[i].elapsed > limit then TimedOut(i)
    else WaitFrom(obs, good, limit, i + 1)
  }

  /** The loop behind `WaitFrom`. */
  method AwaitWithTimeout<T>(obs: seq<Timed<T>>, good: T -> bool, limit: real) returns (r: Poll)
    ensures r == WaitFrom(obs, good, limit, 0)
  {
    var i := 0;
    while i < |obs|
      invariant i <= |obs|
      invariant WaitFrom(obs, good, limit, 0) == WaitFrom(obs, good, limit, i)
    {
      if good(obs[i].sample) {
        return Found(i);
      }
      if obs[i].elapsed > limit {
        return TimedOut(i);
      }
      i := i + 1;
    }
    return Pending;
  }

  /**
   * `while elapsed < limit:` reading one sample per pass (test/follower_drone_test.py,
   * the takeoff and progress checks): the clock is read before the sample,
   * and the loop stops at the first good sample.
   */
  function PollFrom<T>(obs: seq<Timed<T>>, good: T -> bool, limit: real, i: nat): (r: Poll)
    requires i <= |obs|
    ensures r.Found? ==> i <= r.index < |obs| && good(obs[r.index].sample) && obs[r.index].elapsed < limit
    ensures r.TimedOut? ==> i <= r.index < |obs| && obs[r.index].elapsed >= limit
    ensures !r.Pending? ==> forall j :: i <= j < Index(r) ==> !good(obs[j].sample) && obs[j].elapsed < limit
    ensures r.Pending? ==> forall j :: i <= j < |obs| ==> !good(obs[j].sample) && obs[j].elapsed < limit
    decreases |obs| - i
  {
    if i == |obs| then Pending
    else if !(obs[i].elapsed < limit) then TimedOut(i)
    else if good(obs[i].sample) then Found(i)
    else PollFrom(obs, good, limit, i + 1)
  }

  /** The loop behind `PollFrom`. */
  method PollUntil<T>(obs: seq<Timed<T>>, good: T -> bool, limit: real) returns (r: Poll)
    ensures r == PollFrom(obs, good, limit, 0)
  {
    var i := 0;
    while i < |obs|
      invariant i <= |obs|
      invariant PollFrom(obs, good, limit, 0) == PollFrom(obs, good, limit, i)
    {
      if !(obs[i].elapsed < limit) {
        return TimedOut(i);
      }
      if good(obs[i].sample) {
        return Found(i);
      }
      i := i + 1;
    }
    return Pending;
  }

  /** The position at which a decided wait stopped. */
  function Index(p: Poll): nat
  {
    match p
    case Found(i) => i
    case TimedOut(i) => i
    case Pending => 0
  }
}
