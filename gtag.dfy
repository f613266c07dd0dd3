/** The Google tag command queue (`dataLayer`) and the consent state that its
  * `consent` commands establish downstream (Google Consent Mode v2). */
module Gtag {

  datatype Consent = Granted | Denied

  datatype ConsentMode = Default | Update

  /** A value inside a command's parameter object. */
  datatype Param = Str(str: string) | Flag(flag: bool)

  /** One `gtag(...)` call: its arguments, as pushed onto the queue. */
  datatype Command =
    | ConsentCommand(mode: ConsentMode, settings: seq<(string, Consent)>)
    | JsCommand(loadedAt: string)
    | ConfigCommand(measurementId: string, config: seq<(string, Param)>)
    | EventCommand(name: string, params: seq<(string, Param)>)

  /** 'granted' for true, 'denied' for false. */
  function StateOf(b: bool): (c: Consent)
    ensures c == Granted <==> b
  {
    if b then Granted else Denied
  }

  /** The keys a list of consent settings mentions. */
  function KeysOf(settings: seq<(string, Consent)>): set<string> {
    set i | 0 <= i < |settings| :: settings[i].0
  }

  /** Settings applied left to right: a later setting of a key overrides an earlier one. */
  function Override(m: map<string, Consent>, settings: seq<(string, Consent)>): map<string, Consent>
    decreases |settings|
  {
    if settings == [] then m else Override(m[settings[0].0 := settings[0].1], settings[1..])
  }

  /** The effect of one queued command on the consent state; only consent commands have one. */
  function Step(m: map<string, Consent>, c: Command): map<string, Consent> {
    match c
    case ConsentCommand(_, settings) => Override(m, settings)
    case _ => m
  }

  /** The consent state after replaying `log` on top of `m`. */
  function Replay(m: map<string, Consent>, log: seq<Command>): map<string, Consent>
    decreases |log|
  {
    if log == [] then m else Replay(Step(m, log[0]), log[1..])
  }

  /** The consent state that a queue establishes from nothing. */
  function ConsentState(log: seq<Command>): map<string, Consent> {
    Replay(map[], log)
  }

  /** Two states that agree on every key outside `keys`. */
  ghost predicate AgreeOutside(m1: map<string, Consent>, m2: map<string, Consent>, keys: set<string>) {
    forall k :: k !in keys ==> (k in m1 <==> k in m2) && (k in m1 ==> m1[k] == m2[k])
  }

  /** Applying settings leaves every key they do not mention as it was, and defines every key they mention. */
  lemma {:induction false} OverrideFrame(m: map<string, Consent>, settings: seq<(string, Consent)>)
    ensures AgreeOutside(m, Override(m, settings), KeysOf(settings))
    ensures KeysOf(settings) <= Override(m, settings).Keys
    decreases |settings|
  {
    if settings != [] {
      var m' := m[settings[0].0 := settings[0].1];
      OverrideFrame(m', settings[1..]);
      forall i | 0 <= i < |settings[1..]| ensures settings[1..][i].0 == settings[i + 1].0 { }
      assert KeysOf(settings) == {settings[0].0} + KeysOf(settings[1..]);
    }
  }

  /** Settings overwrite every key they mention, so where they start from matters only outside those keys. */
  lemma {:induction false} OverrideAbsorbs(m1: map<string, Consent>, m2: map<string, Consent>, settings: seq<(string, Consent)>)
    requires AgreeOutside(m1, m2, KeysOf(settings))
    ensures Override(m1, settings) == Override(m2, settings)
    decreases |settings|
  {
    if settings == [] {
      assert m1.Keys == m2.Keys;
    } else {
      var k0 := settings[0].0;
      forall i | 0 <= i < |settings[1..]| ensures settings[1..][i].0 == settings[i + 1].0 { }
      assert KeysOf(settings) == {k0} + KeysOf(settings[1..]);
      OverrideAbsorbs(m1[k0 := settings[0].1], m2[k0 := settings[0].1], settings[1..]);
    }
  }

  /** Applying the same settings twice is applying them once. */
  lemma OverrideIdempotent(m: map<string, Consent>, settings: seq<(string, Consent)>)
    ensures Override(Override(m, settings), settings) == Override(m, settings)
  {
    OverrideFrame(m, settings);
    var once := Override(m, settings);
    OverrideFrame(once, settings);
    OverrideAbsorbs(once, m, settings);
  }

  /** Applying two lists of settings one after the other is applying their concatenation. */
  lemma {:induction false} OverrideConcat(m: map<string, Consent>, a: seq<(string, Consent)>, b: seq<(string, Consent)>)
    ensures Override(Override(m, a), b) == Override(m, a + b)
    decreases |a|
  {
    if a == [] {
      assert a + b == b;
    } else {
      assert (a + b)[0] == a[0] && (a + b)[1..] == a[1..] + b;
      OverrideConcat(m[a[0].0 := a[0].1], a[1..], b);
    }
  }

  /** Replaying a queue in two parts is replaying it whole. */
  lemma {:induction false} ReplayConcat(m: map<string, Consent>, a: seq<Command>, b: seq<Command>)
    ensures Replay(Replay(m, a), b) == Replay(m, a + b)
    decreases |a|
  {
    if a == [] {
      assert a + b == b;
    } else {
      assert (a + b)[0] == a[0] && (a + b)[1..] == a[1..] + b;
      ReplayConcat(Step(m, a[0]), a[1..], b);
    }
  }
}
