/**
 * models/connect.py: `DroneConnection.connect(system_address, port)` and
 * how a Python call binds to it.
 *
 * `connect` declares two parameters and no defaults, so a call reaches its
 * body only when its arguments fill exactly those two: positional ones
 * first, then keywords naming the rest, each once. A call that does not bind
 * raises `TypeError` before anything is sent to the vehicle.
 */
module Connection {
  import opened Polling
  import opened Drone

  /** A call's arguments: how many are positional, and the keyword names in order. */
  datatype Call = Call(positional: nat, keywords: seq<string>)

  /** The parameters of `connect` after `self`. */
  const ConnectParameters: seq<string> := ["system_address", "port"]

  /**
   * Python's binding of `call` to a function with parameters `params` and
   * no defaults, `*args` or `**kwargs`.
   */
  predicate Binds(params: seq<string>, call: Call)
  {
    && call.positional <= |params|
    && (forall i :: 0 <= i < |call.keywords| ==> call.keywords[i] in params[call.positional..])
    && (forall i, j :: 0 <= i < j < |call.keywords| ==> call.keywords[i] != call.keywords[j])
    && (forall p :: p in params[call.positional..] ==> p in call.keywords)
  }

  /**
   * Binding fills every parameter once: the keywords are exactly the
   * parameters the positional arguments leave over.
   */
  lemma BindsFillsEach(params: seq<string>, call: Call)
    requires Binds(params, call)
    requires forall i, j :: 0 <= i < j < |params| ==> params[i] != params[j]
    ensures call.positional + |call.keywords| == |params|
  {
    var rest := params[call.positional..];
    DistinctWithin(call.keywords, rest);
    DistinctWithin(rest, call.keywords);
  }

  /** A list of distinct strings all found in `into` is no longer than `into`. */
  lemma {:induction false} DistinctWithin(from: seq<string>, into: seq<string>)
    requires forall i, j :: 0 <= i < j < |from| ==> from[i] != from[j]
    requires forall x :: x in from ==> x in into
    ensures |from| <= |into|
    decreases |from|
  {
    if from != [] {
      var x := from[|from| - 1];
      assert x in into;
      var k :| 0 <= k < |into| && into[k] == x;
      var into' := into[..k] + into[k + 1..];
      forall y | y in from[..|from| - 1]
        ensures y in into'
      {
        var i :| 0 <= i < |from| - 1 && from[i] == y;
        assert y != x;
        assert y in into;
        var j :| 0 <= j < |into| && into[j] == y;
        if j < k {
          assert into'[j] == y;
        } else {
          assert into'[j - 1] == y;
        }
      }
      DistinctWithin(from[..|from| - 1], into');
    }
  }

  /** Whether a call to `connect` gets past argument binding. */
  predicate ConnectBinds(call: Call)
  {
    Binds(ConnectParameters, call)
  }

  /**
   * `connect(system_address=..., port=...)`: both parameters by keyword,
   * as `run_square_wave_mission` calls it.
   */
  const KeywordConnectCall: Call := Call(0, ["system_address", "port"])

  /** The keyword call binds. */
  lemma KeywordCallBinds()
    ensures ConnectBinds(KeywordConnectCall)
  {
    assert ConnectParameters[0..] == ["system_address", "port"];
  }

  /**
   * The tasks `connect` starts once the vehicle is healthy: status text,
   * position and velocity, then attitude. `self.update_attitude` is looked
   * up before its task is created; where the method does not exist (no
   * class in the hierarchy defines it) the lookup raises `AttributeError`
   * after the first three tasks were started.
   */
  function TaskStarts(attitudeBound: bool): seq<Command>
  {
    [StartTask(StatusText), StartTask(PositionUpdate), StartTask(VelocityPrint)]
    + (if attitudeBound then [StartTask(AttitudeUpdate)] else [])
  }

  /** The calls of a `connect` that links: the connect call, then the task starts. */
  function ConnectPlan(address: string, attitudeBound: bool): seq<Command>
  {
    [Command.Connect(address)] + TaskStarts(attitudeBound)
  }

  /**
   * How `connect` ends: the call did not bind, the connect call raised,
   * still waiting, `update_attitude` missing (`AttributeError`), or linked
   * with all four tasks running.
   */
  datatype Link = CallRejected | LinkRaised | LinkWaiting | AttitudeMissing | Linked

  /**
   * `connect` on vehicle `v`, as every mission class inherits it: a call
   * that does not bind raises before anything is sent; otherwise the connect
   * call, then the waits for the link (`link`, one reading per state update)
   * and for a healthy position estimate (`health`), then the telemetry
   * tasks. `attitudeBound` says whether `update_attitude` exists: `false`
   * for the classes as written, so a healthy connection always ends in
   * `AttitudeMissing`.
   */
  method ConnectVehicle(v: Vehicle, call: Call, address: string, link: seq<bool>, health: seq<Health>,
                        attitudeBound: bool)
    returns (end: Link)
    modifies v
    ensures end == CallRejected <==> !ConnectBinds(call)
    ensures end == CallRejected ==> v.commands == old(v.commands)
    ensures IssuedPrefix(old(v.commands), v.commands, ConnectPlan(address, attitudeBound))
    ensures end == LinkRaised || end == LinkWaiting ==> v.commands == old(v.commands) + [Command.Connect(address)]
    ensures end == LinkRaised <==> ConnectBinds(call) && |old(v.commands)| in v.failing
    ensures end == AttitudeMissing || end == Linked ==>
              v.commands == old(v.commands) + ConnectPlan(address, attitudeBound)
    ensures end == AttitudeMissing <==> ConnectBinds(call) && |old(v.commands)| !in v.failing
                                        && FirstFrom(link, Connected, 0).Some? && FirstFrom(health, Healthy, 0).Some?
                                        && !attitudeBound
    ensures end == Linked <==> ConnectBinds(call) && |old(v.commands)| !in v.failing
                               && FirstFrom(link, Connected, 0).Some? && FirstFrom(health, Healthy, 0).Some?
                               && attitudeBound
  {
    hide ConnectBinds, FirstFrom;
    ghost var before := v.commands;
    if !ConnectBinds(call) {
      return CallRejected;
    }
    var ok := v.Issue(Command.Connect(address));
    if !ok {
      return LinkRaised;
    }
    var connected := AwaitFirst(link, Connected);
    if connected.None? {
      return LinkWaiting;
    }
    var healthy := AwaitFirst(health, Healthy);
    if healthy.None? {
      return LinkWaiting;
    }
    v.Record(StartTask(StatusText));
    v.Record(StartTask(PositionUpdate));
    v.Record(StartTask(VelocityPrint));
    assert v.commands == before + ConnectPlan(address, false);
    if !attitudeBound {
      return AttitudeMissing;
    }
    v.Record(StartTask(AttitudeUpdate));
    assert v.commands == before + ConnectPlan(address, true);
    return Linked;
  }
}
