/** The MRI volumetry workflows: the base workflow (filter and report
    applets), the variant that reads prediction maps from disk, and the
    variant that computes them with pixel classification. Each builds its
    applet list when constructed and, whenever an applet asks for a state
    update, tells the shell which applets are enabled. */
module MriVolumetryWorkflow {
  import opened Slots
  import opened AppletShell

  datatype Variant = Base | Prediction | Pixel

  /** What the state-update handlers read from the operators at one moment. */
  datatype Snapshot = Snapshot(
    imageGroup: seq<seq<bool>>,    // data selection ImageGroup: per dataset, readiness of each role slot
    featureOutput: Slot,           // feature selection OutputImage
    predictions: Slot,             // pixel classification PredictionProbabilities
    cachedOutput: seq<bool>,       // filter CachedOutput: readiness of each lane
    freezePredictions: bool)       // pixel classification FreezePredictions

  /** Both raw data and prediction maps have to be provided. */
  const PredictionRoles: nat := 2
  /** Only raw data is needed. */
  const PixelRoles: nat := 1

  /** Role slots per group the variant's handler reads (the base reads none). */
  function RolesOf(v: Variant): nat
  {
    match v
    case Base => 0
    case Prediction => PredictionRoles
    case Pixel => PixelRoles
  }

  /** The applet list each variant's constructor leaves behind. */
  function AppletOrder(v: Variant): seq<Applet>
  {
    match v
    case Base => [Filter, Report]
    case Prediction => [DataSelection, Filter, Report]
    case Pixel => [DataSelection, FeatureSelection, PixelClassification, Filter, Report]
  }

  /** list.insert(i, x): indices past the end append. */
  function Inserted(s: seq<Applet>, i: nat, x: Applet): (r: seq<Applet>)
    ensures |r| == |s| + 1
    ensures r[if i <= |s| then i else |s|] == x
    ensures forall j :: 0 <= j < |s| ==> r[if j < i then j else j + 1] == s[j]
  {
    var k := if i <= |s| then i else |s|;
    s[..k] + [x] + s[k..]
  }

  // ---------------------------------------------------------------------
  // The commands each handler issues, in order

  function BaseCalls(childReady: bool, cachedOutput: seq<bool>): seq<Call>
  {
    [Call(Filter, childReady), Call(Report, childReady && LanesReady(cachedOutput))]
  }

  function PredictionCalls(s: Snapshot): seq<Call>
    requires HasRoles(s.imageGroup, PredictionRoles)
  {
    BaseCalls(GroupsReady(s.imageGroup, PredictionRoles), s.cachedOutput)
  }

  function PixelCalls(s: Snapshot): seq<Call>
    requires HasRoles(s.imageGroup, PixelRoles)
  {
    var input := GroupsReady(s.imageGroup, PixelRoles);
    var afterFeatures := input && ReallyReady(s.featureOutput);
    var afterPredictions := afterFeatures && ReallyReady(s.predictions);
    var live := !s.freezePredictions;
    [Call(FeatureSelection, input),
     Call(PixelClassification, afterFeatures),
     Call(DataSelection, !live),
     Call(FeatureSelection, input && !live)]
    + BaseCalls(afterPredictions && live, s.cachedOutput)
  }

  /** The commands of one state update; the base class's handler runs with
      its default argument child_ready=False. */
  function HandlerCalls(v: Variant, s: Snapshot): seq<Call>
    requires HasRoles(s.imageGroup, RolesOf(v))
  {
    match v
    case Base => BaseCalls(false, s.cachedOutput)
    case Prediction => PredictionCalls(s)
    case Pixel => PixelCalls(s)
  }

  // ---------------------------------------------------------------------
  // The resulting enabled state, as closed formulas over the snapshot

  function BaseDecision(childReady: bool, cachedOutput: seq<bool>): map<Applet, bool>
  {
    map[Filter := childReady,
        Report := childReady && |cachedOutput| > 0 && forall i :: 0 <= i < |cachedOutput| ==> cachedOutput[i]]
  }

  function PixelDecision(s: Snapshot): map<Applet, bool>
    requires HasRoles(s.imageGroup, PixelRoles)
  {
    var input := GroupsReady(s.imageGroup, PixelRoles);
    var consumable := input && ReallyReady(s.featureOutput) && ReallyReady(s.predictions) && !s.freezePredictions;
    map[DataSelection := s.freezePredictions,
        FeatureSelection := input && s.freezePredictions,
        PixelClassification := input && ReallyReady(s.featureOutput),
        Filter := consumable,
        Report := consumable && LanesReady(s.cachedOutput)]
  }

  function Decision(v: Variant, s: Snapshot): map<Applet, bool>
    requires HasRoles(s.imageGroup, RolesOf(v))
  {
    match v
    case Base => BaseDecision(false, s.cachedOutput)
    case Prediction => BaseDecision(GroupsReady(s.imageGroup, PredictionRoles), s.cachedOutput)
    case Pixel => PixelDecision(s)
  }

  /** The commands of one state update leave exactly the closed-form state. */
  lemma HandlerDecides(v: Variant, s: Snapshot)
    requires HasRoles(s.imageGroup, RolesOf(v))
    ensures Effect(HandlerCalls(v, s)) == Decision(v, s)
  {
    match v
    case Base =>
      BaseDecides(false, s.cachedOutput);
    case Prediction =>
      BaseDecides(GroupsReady(s.imageGroup, PredictionRoles), s.cachedOutput);
    case Pixel =>
      PixelDecides(s);
  }

  lemma PixelDecides(s: Snapshot)
    requires HasRoles(s.imageGroup, PixelRoles)
    ensures Effect(PixelCalls(s)) == PixelDecision(s)
  {
    var input := GroupsReady(s.imageGroup, PixelRoles);
    var features := input && ReallyReady(s.featureOutput);
    var consumable := features && ReallyReady(s.predictions) && !s.freezePredictions;
    var report := consumable && LanesReady(s.cachedOutput);
    assert PixelCalls(s) == [Call(FeatureSelection, input), Call(PixelClassification, features),
                             Call(DataSelection, s.freezePredictions), Call(FeatureSelection, input && s.freezePredictions),
                             Call(Filter, consumable), Call(Report, report)];
    PixelPattern(input, features, s.freezePredictions, consumable, report);
  }

  /** The order of the pixel handler's commands, for any values they carry:
      the second FeatureSelection command overrides the first. */
  lemma PixelPattern(input: bool, features: bool, frozen: bool, consumable: bool, report: bool)
    ensures Effect([Call(FeatureSelection, input), Call(PixelClassification, features),
                    Call(DataSelection, frozen), Call(FeatureSelection, input && frozen),
                    Call(Filter, consumable), Call(Report, report)])
         == map[DataSelection := frozen, FeatureSelection := input && frozen,
                PixelClassification := features, Filter := consumable, Report := report]
  {
    var c0, c1, c2 := Call(FeatureSelection, input), Call(PixelClassification, features), Call(DataSelection, frozen);
    var c3, c4, c5 := Call(FeatureSelection, input && frozen), Call(Filter, consumable), Call(Report, report);
    var m1 := map[FeatureSelection := input];
    var m2 := m1[PixelClassification := features];
    var m3 := m2[DataSelection := frozen];
    var m4 := m3[FeatureSelection := input && frozen];
    var m5 := m4[Filter := consumable];
    var m6 := m5[Report := report];
    ApplyCons(map[], c0, [c1, c2, c3, c4, c5]);
    ApplyCons(m1, c1, [c2, c3, c4, c5]);
    ApplyCons(m2, c2, [c3, c4, c5]);
    ApplyCons(m3, c3, [c4, c5]);
    ApplyCons(m4, c4, [c5]);
    ApplyCons(m5, c5, []);
    assert m6 == map[DataSelection := frozen, FeatureSelection := input && frozen,
                     PixelClassification := features, Filter := consumable, Report := report];
  }

  lemma BaseDecides(childReady: bool, cachedOutput: seq<bool>)
    ensures Effect(BaseCalls(childReady, cachedOutput)) == BaseDecision(childReady, cachedOutput)
  {
    var report := childReady && LanesReady(cachedOutput);
    ApplyCons(map[], Call(Filter, childReady), [Call(Report, report)]);
    ApplyCons(map[Filter := childReady], Call(Report, report), []);
    assert map[Filter := childReady][Report := report] == BaseDecision(childReady, cachedOutput);
  }

  /** One workflow instance; its shell is shared with the GUI. */
  class Workflow {
    const variant: Variant
    const shell: Shell
    /** The applets in the order the shell shows them. */
    var applets: seq<Applet>

    constructor (variant: Variant, shell: Shell)
      ensures this.variant == variant && this.shell == shell
      ensures applets == AppletOrder(variant)
    {
      this.variant := variant;
      this.shell := shell;
      applets := [];
      new;
      // the base workflow's own applets
      AppendApplet(Filter);
      AppendApplet(Report);
      // the variant's applets go in front of them
      match variant {
        case Base =>
        case Prediction =>
          InsertApplet(0, DataSelection);
        case Pixel =>
          InsertApplet(0, DataSelection);
          InsertApplet(1, FeatureSelection);
          InsertApplet(2, PixelClassification);
      }
    }

    method AppendApplet(a: Applet)
      modifies this`applets
      ensures applets == old(applets) + [a]
    {
      applets := applets + [a];
    }

    method InsertApplet(i: nat, a: Applet)
      modifies this`applets
      ensures applets == Inserted(old(applets), i, a)
    {
      var k := if i <= |applets| then i else |applets|;
      applets := applets[..k] + [a] + applets[k..];
    }

    /** The base handler: the filter follows the upstream readiness; the
        report also needs every CachedOutput lane ready. */
    method HandleBase(childReady: bool, cachedOutput: seq<bool>)
      modifies shell
      ensures shell.calls == old(shell.calls) + BaseCalls(childReady, cachedOutput)
    {
      shell.SetAppletEnabled(Filter, childReady);
      var filterReady := childReady;
      filterReady := filterReady && LanesReady(cachedOutput);
      shell.SetAppletEnabled(Report, filterReady);
    }

    method HandlePrediction(s: Snapshot)
      requires variant == Prediction
      requires HasRoles(s.imageGroup, PredictionRoles)
      modifies shell
      ensures shell.calls == old(shell.calls) + PredictionCalls(s)
    {
      var ready := RootReady(s.imageGroup, PredictionRoles);
      HandleBase(ready, s.cachedOutput);
    }

    method HandlePixel(s: Snapshot)
      requires variant == Pixel
      requires HasRoles(s.imageGroup, PixelRoles)
      modifies shell
      ensures shell.calls == old(shell.calls) + PixelCalls(s)
    {
      var ready := RootReady(s.imageGroup, PixelRoles);
      var inputReady := ready;
      var cumulatedReadiness := ready;
      shell.SetAppletEnabled(FeatureSelection, cumulatedReadiness);

      var featuresReady := ReallyReady(s.featureOutput);
      cumulatedReadiness := cumulatedReadiness && featuresReady;
      shell.SetAppletEnabled(PixelClassification, cumulatedReadiness);

      var predictionsReady := ReallyReady(s.predictions);
      cumulatedReadiness := cumulatedReadiness && predictionsReady;

      // editing inputs or features while predictions update live is locked out
      var liveUpdateActive := !s.freezePredictions;
      shell.SetAppletEnabled(DataSelection, !liveUpdateActive);
      shell.SetAppletEnabled(FeatureSelection, inputReady && !liveUpdateActive);

      // frozen predictions are not handed downstream
      cumulatedReadiness := cumulatedReadiness && liveUpdateActive;
      HandleBase(cumulatedReadiness, s.cachedOutput);
    }

    /** One state update, as the instance's own class performs it. */
    method HandleAppletStateUpdateRequested(s: Snapshot)
      requires HasRoles(s.imageGroup, RolesOf(variant))
      modifies shell
      ensures shell.calls == old(shell.calls) + HandlerCalls(variant, s)
      ensures shell.Enabled() == old(shell.Enabled()) + Decision(variant, s)
    {
      match variant {
        case Base => HandleBase(false, s.cachedOutput);
        case Prediction => HandlePrediction(s);
        case Pixel => HandlePixel(s);
      }
      ApplyConcat(map[], old(shell.calls), HandlerCalls(variant, s));
      ApplyIsOverride(old(shell.Enabled()), HandlerCalls(variant, s));
      HandlerDecides(variant, s);
    }
  }
}
