/** The host shell as the workflow sees it: a receiver of setAppletEnabled
    commands. The shell records every command in order; the enabled state of
    an applet is the value of the last command that named it. */
module AppletShell {

  /** The applets of the MRI volumetry workflows. */
  datatype Applet = DataSelection | FeatureSelection | PixelClassification | Filter | Report

  /** One setAppletEnabled(applet, enabled) command. */
  datatype Call = Call(applet: Applet, enabled: bool)

  /** The enabled state after the shell, starting from `state`, carries out
      the commands in order. */
  function Apply(state: map<Applet, bool>, calls: seq<Call>): map<Applet, bool>
    decreases |calls|
  {
    if |calls| == 0 then state
    else Apply(state[calls[0].applet := calls[0].enabled], calls[1..])
  }

  /** After the commands, the shell knows the applets it knew before and
      those the commands name, and no others. A standalone fact about the
      shell; the workflow proofs compute their concrete batches directly. */
  lemma {:induction false} ApplyKeys(state: map<Applet, bool>, calls: seq<Call>)
    ensures forall a :: a in Apply(state, calls) <==> a in state || exists i :: 0 <= i < |calls| && calls[i].applet == a
    decreases |calls|
  {
    if |calls| > 0 {
      ApplyKeys(state[calls[0].applet := calls[0].enabled], calls[1..]);
      assert forall i :: 1 <= i < |calls| ==> calls[1..][i - 1] == calls[i];
    }
  }

  /** Proof helper: one unfolding of Apply on a command followed by others. */
  lemma ApplyCons(state: map<Applet, bool>, c: Call, rest: seq<Call>)
    ensures Apply(state, [c] + rest) == Apply(state[c.applet := c.enabled], rest)
  {
  }

  /** The state a sequence of commands leaves behind on a fresh shell. */
  function Effect(calls: seq<Call>): map<Applet, bool>
  {
    Apply(map[], calls)
  }

  /** The commands leave the applet known to the shell, enabled or disabled
      as `enabled` says. */
  predicate Sets(calls: seq<Call>, a: Applet, enabled: bool)
  {
    a in Effect(calls) && Effect(calls)[a] == enabled
  }

  /** The last command naming an applet decides its state, for any batch.
      A standalone fact about the shell; the workflow's own six-command
      batch is computed directly in MriVolumetryWorkflow.PixelPattern. */
  lemma {:induction false} LastCallWins(state: map<Applet, bool>, calls: seq<Call>, i: nat)
    requires i < |calls|
    requires forall j :: i < j < |calls| ==> calls[j].applet != calls[i].applet
    ensures calls[i].applet in Apply(state, calls) && Apply(state, calls)[calls[i].applet] == calls[i].enabled
    decreases |calls|
  {
    var next := state[calls[0].applet := calls[0].enabled];
    if i == 0 {
      ApplyKeepsUnnamed(next, calls[1..], calls[0].applet);
    } else {
      assert calls[1..][i - 1] == calls[i];
      assert forall j :: i - 1 < j < |calls| - 1 ==> calls[1..][j] == calls[j + 1];
      LastCallWins(next, calls[1..], i - 1);
    }
  }

  /** An applet no command names keeps its state. */
  lemma {:induction false} ApplyKeepsUnnamed(state: map<Applet, bool>, calls: seq<Call>, a: Applet)
    requires a in state
    requires forall j :: 0 <= j < |calls| ==> calls[j].applet != a
    ensures a in Apply(state, calls) && Apply(state, calls)[a] == state[a]
    decreases |calls|
  {
    if |calls| > 0 {
      assert forall j :: 0 <= j < |calls| - 1 ==> calls[1..][j] == calls[j + 1];
      ApplyKeepsUnnamed(state[calls[0].applet := calls[0].enabled], calls[1..], a);
    }
  }

  /** Two batches of commands one after the other. */
  lemma {:induction false} ApplyConcat(state: map<Applet, bool>, first: seq<Call>, second: seq<Call>)
    ensures Apply(state, first + second) == Apply(Apply(state, first), second)
    decreases |first|
  {
    if |first| > 0 {
      assert (first + second)[0] == first[0];
      assert (first + second)[1..] == first[1..] + second;
      ApplyConcat(state[first[0].applet := first[0].enabled], first[1..], second);
    } else {
      assert first + second == second;
    }
  }

  /** A batch of commands sets the applets it names to the state it would
      leave on a fresh shell, and leaves the others alone. */
  lemma {:induction false} ApplyIsOverride(state: map<Applet, bool>, calls: seq<Call>)
    ensures Apply(state, calls) == state + Effect(calls)
    decreases |calls|
  {
    if |calls| > 0 {
      var c := calls[0];
      ApplyIsOverride(state[c.applet := c.enabled], calls[1..]);
      ApplyIsOverride(map[c.applet := c.enabled], calls[1..]);
      assert state[c.applet := c.enabled] == state + map[c.applet := c.enabled];
      assert map[][c.applet := c.enabled] == map[c.applet := c.enabled];
    }
  }

  /** Issuing the same batch twice leaves the same state as issuing it once. */
  lemma RepeatedBatchIsIdempotent(state: map<Applet, bool>, batch: seq<Call>)
    ensures Apply(state, batch + batch) == Apply(state, batch)
  {
    ApplyConcat(state, batch, batch);
    ApplyIsOverride(Apply(state, batch), batch);
    ApplyIsOverride(state, batch);
    assert state + Effect(batch) + Effect(batch) == state + Effect(batch);
  }

  /** The shell of one workflow session. */
  class Shell {
    /** Every setAppletEnabled command received, oldest first. */
    var calls: seq<Call>

    constructor ()
      ensures calls == []
    {
      calls := [];
    }

    /** The enabled state of the applets the shell has been told about. */
    function Enabled(): map<Applet, bool>
      reads this
    {
      Effect(calls)
    }

    method SetAppletEnabled(applet: Applet, enabled: bool)
      modifies this
      ensures calls == old(calls) + [Call(applet, enabled)]
    {
      calls := calls + [Call(applet, enabled)];
    }
  }
}
