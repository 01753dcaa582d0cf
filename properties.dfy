/** What the state-update handlers guarantee, stated over the snapshot the
    handlers read and the state they leave in the shell. */
module WorkflowProperties {
  import opened Slots
  import opened AppletShell
  import opened MriVolumetryWorkflow

  /** Readiness only narrows downstream: with the input not ready, nothing
      that consumes it is enabled. */
  lemma RootNotReadyDisablesDownstream(v: Variant, s: Snapshot)
    requires v != Base
    requires HasRoles(s.imageGroup, RolesOf(v)) && !GroupsReady(s.imageGroup, RolesOf(v))
    ensures Sets(HandlerCalls(v, s), Filter, false) && Sets(HandlerCalls(v, s), Report, false)
    ensures v == Pixel ==> Sets(HandlerCalls(v, s), PixelClassification, false)
                           && Sets(HandlerCalls(v, s), FeatureSelection, false)
  {
    HandlerDecides(v, s);
  }

  /** Each stage is enabled only if the stages it consumes are: the report
      needs the filter, the filter needs the classifier (in the pixel
      variant), and all of them need the input. */
  lemma EnabledStagesHaveReadyUpstream(v: Variant, s: Snapshot)
    requires HasRoles(s.imageGroup, RolesOf(v))
    ensures Sets(HandlerCalls(v, s), Report, true) ==> Sets(HandlerCalls(v, s), Filter, true)
    ensures v != Base && Sets(HandlerCalls(v, s), Filter, true) ==> GroupsReady(s.imageGroup, RolesOf(v))
    ensures v == Pixel && Sets(HandlerCalls(v, s), Filter, true) ==> Sets(HandlerCalls(v, s), PixelClassification, true)
    ensures v == Base ==> Sets(HandlerCalls(v, s), Filter, false) && Sets(HandlerCalls(v, s), Report, false)
  {
    HandlerDecides(v, s);
  }

  /** The classifier is enabled exactly when the input is ready and the
      features are really ready, whatever the live-update mode. */
  lemma PixelClassificationEnabledIff(s: Snapshot)
    requires HasRoles(s.imageGroup, PixelRoles)
    ensures Sets(PixelCalls(s), PixelClassification, GroupsReady(s.imageGroup, PixelRoles) && ReallyReady(s.featureOutput))
  {
    PixelDecides(s);
  }

  /** Live-update lockout: the inputs can be edited only while predictions
      are frozen, and so can the features, which also need the input. The
      first FeatureSelection command of an update is overridden by the
      later one. */
  lemma LiveUpdateLockout(s: Snapshot)
    requires HasRoles(s.imageGroup, PixelRoles)
    ensures Sets(PixelCalls(s), DataSelection, s.freezePredictions)
    ensures Sets(PixelCalls(s), FeatureSelection, GroupsReady(s.imageGroup, PixelRoles) && s.freezePredictions)
    ensures PixelCalls(s)[0] == Call(FeatureSelection, GroupsReady(s.imageGroup, PixelRoles))
  {
    PixelDecides(s);
  }

  /** Frozen predictions are not handed to their consumers, however ready
      everything upstream is. */
  lemma FrozenPredictionsGateConsumers(s: Snapshot)
    requires HasRoles(s.imageGroup, PixelRoles) && s.freezePredictions
    ensures Sets(PixelCalls(s), Filter, false) && Sets(PixelCalls(s), Report, false)
  {
    PixelDecides(s);
  }

  /** With live update on, the filter follows the readiness of the input,
      the features and the predictions, and the report also needs every
      CachedOutput lane. */
  lemma LivePredictionsReachConsumers(s: Snapshot)
    requires HasRoles(s.imageGroup, PixelRoles) && !s.freezePredictions
    ensures Sets(PixelCalls(s), Filter,
                 GroupsReady(s.imageGroup, PixelRoles) && ReallyReady(s.featureOutput) && ReallyReady(s.predictions))
    ensures Sets(PixelCalls(s), Report,
                 GroupsReady(s.imageGroup, PixelRoles) && ReallyReady(s.featureOutput) && ReallyReady(s.predictions)
                 && |s.cachedOutput| > 0 && forall i :: 0 <= i < |s.cachedOutput| ==> s.cachedOutput[i])
  {
    PixelDecides(s);
  }

  /** Which applets one update tells the shell about: every applet of the
      pixel variant, but only the filter and report of the prediction
      variant, whose data selection is never enabled or disabled here. */
  lemma UpdatedApplets(v: Variant, s: Snapshot)
    requires HasRoles(s.imageGroup, RolesOf(v))
    ensures v == Pixel ==> Effect(HandlerCalls(v, s)).Keys == set a | a in AppletOrder(v)
    ensures v != Pixel ==> Effect(HandlerCalls(v, s)).Keys == {Filter, Report}
    ensures v == Prediction ==> DataSelection in AppletOrder(v) && DataSelection !in Effect(HandlerCalls(v, s))
  {
    HandlerDecides(v, s);
    if v == Pixel {
      var order := AppletOrder(v);
      assert order[0] == DataSelection && order[1] == FeatureSelection && order[2] == PixelClassification;
      assert order[3] == Filter && order[4] == Report;
      forall a: Applet ensures a in order {
        match a
        case DataSelection => assert order[0] == a;
        case FeatureSelection => assert order[1] == a;
        case PixelClassification => assert order[2] == a;
        case Filter => assert order[3] == a;
        case Report => assert order[4] == a;
      }
    }
  }

  /** Evaluating twice with unchanged inputs leaves the same shell state as
      evaluating once. */
  lemma UpdateIsIdempotent(v: Variant, s: Snapshot, state: map<Applet, bool>)
    requires HasRoles(s.imageGroup, RolesOf(v))
    ensures Apply(state, HandlerCalls(v, s) + HandlerCalls(v, s)) == Apply(state, HandlerCalls(v, s))
  {
    RepeatedBatchIsIdempotent(state, HandlerCalls(v, s));
  }

  // ---------------------------------------------------------------------
  // Scenarios

  /** One dataset whose prediction map is missing. */
  lemma ScenarioMissingRole(s: Snapshot)
    requires s.imageGroup == [[true, false]]
    ensures Sets(PredictionCalls(s), Filter, false) && Sets(PredictionCalls(s), Report, false)
  {
    assert !RolesReady(s.imageGroup[0], PredictionRoles) by {
      assert !s.imageGroup[0][1];
    }
    RootNotReadyDisablesDownstream(Prediction, s);
  }

  /** Features report ready with a zero extent. */
  lemma ScenarioDegenerateFeatures(s: Snapshot)
    requires HasRoles(s.imageGroup, PixelRoles) && GroupsReady(s.imageGroup, PixelRoles)
    requires |s.featureOutput| > 0 && s.featureOutput[0] == Lane(true, [0, 10, 10])
    ensures Sets(PixelCalls(s), PixelClassification, false)
  {
    PixelClassificationEnabledIff(s);
    assert s.featureOutput[0].shape[0] == 0;
  }

  /** Everything ready, with live update on or off. */
  lemma ScenarioAllReady(s: Snapshot)
    requires HasRoles(s.imageGroup, PixelRoles) && GroupsReady(s.imageGroup, PixelRoles)
    requires ReallyReady(s.featureOutput) && ReallyReady(s.predictions) && LanesReady(s.cachedOutput)
    ensures !s.freezePredictions ==>
              Sets(PixelCalls(s), Report, true)
              && Sets(PixelCalls(s), DataSelection, false) && Sets(PixelCalls(s), FeatureSelection, false)
    ensures s.freezePredictions ==>
              Sets(PixelCalls(s), Report, false)
              && Sets(PixelCalls(s), DataSelection, true) && Sets(PixelCalls(s), FeatureSelection, true)
  {
    PixelDecides(s);
  }
}
