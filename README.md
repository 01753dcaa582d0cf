# MRI volumetry workflows: applet readiness gating

This project models the readiness gating of ilastik's MRI volumetry
workflows (`ilastik/workflows/mriVolumetry/mriVolumetryWorkflow.py`).
There are three workflow classes:

- the base workflow owns the prediction filter and report applets;
- the prediction-map variant adds a data selection applet with two roles,
  raw data and prediction maps;
- the pixel-classification variant adds data selection with one role, then
  feature selection and pixel classification.

Whenever an applet asks for a state update, the workflow works out which
applets may be used and sends one `setAppletEnabled` command per decision
to the shell. The constructors fix the order of the applet list.

The operators' slots are read as one snapshot (`MriVolumetryWorkflow.Snapshot`):

- the ImageGroup slot, as a list of groups, each a list of role readiness flags;
- the feature `OutputImage` and the classifier `PredictionProbabilities` slots,
  as lists of lanes, each with a ready flag and a shape;
- the readiness of each lane of the filter's `CachedOutput`;
- the `FreezePredictions` value.

The shell is a class that records every command in order. The state it
shows is the value of the last command naming each applet (`AppletShell.Apply`).
Each handler method is proved to append exactly the commands of a
specification function (`BaseCalls`, `PredictionCalls`, `PixelCalls`). Those
commands are proved to leave a closed-form state (`Decision`). The
properties are lemmas over those functions.

Modules:

- `Slots` (slots.dfy): lanes and shapes, `reallyReady`, and the
  root-readiness loop.
- `AppletShell` (applet_shell.dfy): the applets, the commands and the shell.
- `MriVolumetryWorkflow` (workflow.dfy): the snapshot, the per-variant
  command sequences and closed forms, and the `Workflow` class with its
  constructor and handlers.
- `WorkflowProperties` (properties.dfy): the gating properties and four
  worked scenarios.

The three Python classes become one `Workflow` class with a `variant`
field. The base class's handler is `HandleBase`. Each subclass's handler
calls it last, as the `super()` calls do. The base class's own handler
runs with its default `child_ready=False`.

## Model

| member | source | states |
|---|---|---|
| `Slots.ProductPositiveIffNoZeroExtent` | ilastik/workflows/mriVolumetry/mriVolumetryWorkflow.py:203 | the element count of a shape (`np.prod`, 1 for the empty shape) is positive exactly when no extent is zero |
| `Slots.ReallyReady` | ilastik/workflows/mriVolumetry/mriVolumetryWorkflow.py:200-204 | true exactly when the slot has a lane, lane 0 is ready and no extent of lane 0's shape is zero; only lane 0 is examined, and an empty shape passes |
| `Slots.RootReady` | ilastik/workflows/mriVolumetry/mriVolumetryWorkflow.py:122-130 | the loop returns false for an empty ImageGroup, otherwise true exactly when roles 0..nRoles-1 of every group are ready (the same loop is at lines 185-193 with nRoles = 1) |
| `AppletShell.ApplyKeys` | ilastik/workflows/mriVolumetry/mriVolumetryWorkflow.py:76-77 | after a batch of `setAppletEnabled` commands, the shell knows exactly the applets it knew before plus those the commands name |
| `AppletShell.LastCallWins` | ilastik/workflows/mriVolumetry/mriVolumetryWorkflow.py:222-225 | the last command naming an applet decides its state, whatever came before |
| `AppletShell.ApplyKeepsUnnamed` | ilastik/workflows/mriVolumetry/mriVolumetryWorkflow.py:76-77 | an applet that no command names keeps its state |
| `AppletShell.ApplyConcat` | ilastik/workflows/mriVolumetry/mriVolumetryWorkflow.py:231-232 | two batches issued one after the other act as the second applied to the result of the first |
| `AppletShell.ApplyIsOverride` | ilastik/workflows/mriVolumetry/mriVolumetryWorkflow.py:76-90 | a batch overrides the applets it names with the state it would leave on a fresh shell and leaves the others alone |
| `AppletShell.RepeatedBatchIsIdempotent` | ilastik/workflows/mriVolumetry/mriVolumetryWorkflow.py:76-90 | issuing the same batch twice leaves the same state as issuing it once |
| `AppletShell.Shell.SetAppletEnabled` | ilastik/workflows/mriVolumetry/mriVolumetryWorkflow.py:76-77 | the command is appended to the shell's record and nothing else changes |
| `MriVolumetryWorkflow.Inserted` | ilastik/workflows/mriVolumetry/mriVolumetryWorkflow.py:156-158 | `list.insert(i, x)`: one longer, `x` at index i (at the end when i is past it), earlier elements before it and later ones shifted by one |
| `MriVolumetryWorkflow.BaseDecides` | ilastik/workflows/mriVolumetry/mriVolumetryWorkflow.py:76-90 | the base handler leaves the filter set to exactly `child_ready` and the report set to `child_ready` and (CachedOutput has a lane and every lane is ready) |
| `MriVolumetryWorkflow.PixelPattern` | ilastik/workflows/mriVolumetry/mriVolumetryWorkflow.py:197-232 | for any values, the pixel handler's six commands leave each applet at its last command; the second FeatureSelection command overrides the first |
| `MriVolumetryWorkflow.PixelDecides` | ilastik/workflows/mriVolumetry/mriVolumetryWorkflow.py:184-232 | the pixel handler leaves: data selection = FreezePredictions; feature selection = input ready and FreezePredictions; classification = input ready and features really ready; filter = those and predictions really ready and not frozen; report = filter and CachedOutput ready |
| `MriVolumetryWorkflow.HandlerDecides` | ilastik/workflows/mriVolumetry/mriVolumetryWorkflow.py:121-132 | every variant's commands leave exactly its closed-form state; for the prediction variant, filter = both roles of every group ready (false with no group) and report = that and CachedOutput ready |
| `MriVolumetryWorkflow.Workflow.constructor` | ilastik/workflows/mriVolumetry/mriVolumetryWorkflow.py:19-37 | the applet list is [Filter, Report] for the base class, [DataSelection, Filter, Report] for the prediction variant (line 113) and [DataSelection, FeatureSelection, PixelClassification, Filter, Report] for the pixel variant (lines 156-158) |
| `MriVolumetryWorkflow.Workflow.AppendApplet` | ilastik/workflows/mriVolumetry/mriVolumetryWorkflow.py:36-37 | the applet is appended to the applet list |
| `MriVolumetryWorkflow.Workflow.InsertApplet` | ilastik/workflows/mriVolumetry/mriVolumetryWorkflow.py:113 | the applet list becomes `Inserted(old list, i, applet)` |
| `MriVolumetryWorkflow.Workflow.HandleBase` | ilastik/workflows/mriVolumetry/mriVolumetryWorkflow.py:64-90 | appends to the shell exactly the filter command with `child_ready`, then the report command with `child_ready` narrowed by the CachedOutput check |
| `MriVolumetryWorkflow.Workflow.HandlePrediction` | ilastik/workflows/mriVolumetry/mriVolumetryWorkflow.py:121-132 | appends exactly the base handler's commands, seeded with the two-role root readiness |
| `MriVolumetryWorkflow.Workflow.HandlePixel` | ilastik/workflows/mriVolumetry/mriVolumetryWorkflow.py:184-232 | appends exactly, in order: feature selection (input ready), classification (and features really ready), data selection (frozen), feature selection (input ready and frozen), then the base handler's commands seeded with readiness that also needs ready predictions and live update |
| `MriVolumetryWorkflow.Workflow.HandleAppletStateUpdateRequested` | ilastik/workflows/mriVolumetry/mriVolumetryWorkflow.py:64-72 | one update appends the variant's commands; the shell's state becomes its old state overridden by the variant's closed-form decision (the base class runs with `child_ready=False`) |
| `WorkflowProperties.RootNotReadyDisablesDownstream` | ilastik/workflows/mriVolumetry/mriVolumetryWorkflow.py:196-232 | when the input is not ready, the filter and report are disabled; in the pixel variant so are feature selection and classification |
| `WorkflowProperties.EnabledStagesHaveReadyUpstream` | ilastik/workflows/mriVolumetry/mriVolumetryWorkflow.py:84-90 | report enabled implies filter enabled; filter enabled implies the input ready, and in the pixel variant the classifier enabled; the base class alone disables both |
| `WorkflowProperties.PixelClassificationEnabledIff` | ilastik/workflows/mriVolumetry/mriVolumetryWorkflow.py:207-209 | classification is enabled exactly when the input is ready and the features are really ready; FreezePredictions does not enter the value |
| `WorkflowProperties.LiveUpdateLockout` | ilastik/workflows/mriVolumetry/mriVolumetryWorkflow.py:220-225 | data selection ends enabled exactly when predictions are frozen; feature selection ends at (input ready and frozen), overriding the first command of the update (line 197) |
| `WorkflowProperties.FrozenPredictionsGateConsumers` | ilastik/workflows/mriVolumetry/mriVolumetryWorkflow.py:227-232 | with FreezePredictions set, the filter and the report are disabled however ready everything is |
| `WorkflowProperties.LivePredictionsReachConsumers` | ilastik/workflows/mriVolumetry/mriVolumetryWorkflow.py:211-214 | with live update on, the filter is enabled exactly when the input, features and predictions are ready, and the report when CachedOutput is also ready |
| `WorkflowProperties.UpdatedApplets` | ilastik/workflows/mriVolumetry/mriVolumetryWorkflow.py:121-132 | one pixel-variant update sets every applet in its list; a prediction-variant update sets only the filter and the report, never its data selection |
| `WorkflowProperties.UpdateIsIdempotent` | ilastik/workflows/mriVolumetry/mriVolumetryWorkflow.py:184-232 | two updates with unchanged inputs leave the same shell state as one |
| `WorkflowProperties.ScenarioMissingRole` | ilastik/workflows/mriVolumetry/mriVolumetryWorkflow.py:122-128 | one dataset without its prediction map: filter and report disabled |
| `WorkflowProperties.ScenarioDegenerateFeatures` | ilastik/workflows/mriVolumetry/mriVolumetryWorkflow.py:203-209 | features ready with shape (0, 10, 10): classification disabled |
| `WorkflowProperties.ScenarioAllReady` | ilastik/workflows/mriVolumetry/mriVolumetryWorkflow.py:216-232 | everything ready: live update enables the report and locks data and feature selection; frozen predictions do the reverse |

## Notes on the source

- "Live update active" is `not FreezePredictions` (line 220). Data selection
  and feature selection can be edited only while predictions are frozen.
  Filter and report are enabled only while predictions update live.
- The prediction-map variant never enables or disables its data selection
  applet. Only the filter and the report receive commands
  (`WorkflowProperties.UpdatedApplets`). The model follows the code.
- The filter check loops over the one-element tuple `(op.CachedOutput,)`
  (lines 85-87). The model computes that single step without a loop.

## Left out

- `connectLane` of all three classes: it wires operator slots together, and
  their behaviour is not part of this model.
- Construction of the applets, the operator graph and `DatasetRoles`: these
  are library objects. Applets are enumeration tags here.
- The shell's user interface: `setAppletEnabled` is only a recorded command.
- `imageNameListSlot`, the workflow name and description strings, and the
  `vigra` import: these hold no logic.
- Reading the slots: the handlers get one snapshot of `ready()` flags,
  shapes and `FreezePredictions`. numpy dtypes are not modelled. Shapes are
  lists of naturals and their product is unbounded.
- Slots.RootReady: requires every group to have at least nRoles role slots.
  The source indexes `sub[i]` without a check. It raises an error only for a
  short group reached while every earlier group was ready. The model does
  not describe that error path.
