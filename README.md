# Lower-limb registration step: transform parameters, step state and configure dialog

This project models, in Dafny, the core of a MAP Client workflow step. The
step registers a lower-limb bone model to seven target landmarks. The model
covers three parts:

- **`LLTransformData`** holds the fields the registration optimises: the
  rigid pelvis pose (6 values), the hip rotation (3), the knee rotation (3),
  the shape-mode weights and the scale factors. It also has three packed
  vector views, each a getter and a setter that concatenate or slice those
  fields:
  - `shapeModelX`: the weights, then the pose;
  - `uniformScalingX`: one uniform scale, then the pose;
  - `perBoneScalingX`: four per-bone scales, then the pose.
- **`LLStepData`** holds the step's state: the registration-mode setter and
  its dispatch table, the target-landmark setter, and `register`, which
  calls whichever strategy is bound.
- **`ConfigureDialog`** of the step: `validate`'s identifier-uniqueness
  rule, and `getConfig`/`setConfig` as an encoder and a decoder between the
  dialog's widgets and the step's string-to-string configuration.

Files:

- `python.dfy` models the few Python operations the code relies on:
  - the exceptions it raises (`Exceptions`);
  - slicing with clipped bounds, and `tuple.index` (`PySeq`);
  - `int()` and `str()` on decimal integers (`PyInt`).
- `llstep.dfy` has three modules:
  - `ParameterLayout`: the pure concatenate/slice layout and its round trips;
  - `LLTransform`: the class `LLTransformData`;
  - `LLStep`: the strategy tag, the class `LLStepData`, and usage scenarios.
- `configuredialog.dfy` holds the `ConfigDialog` module:
  - `Widgets`, a snapshot of the dialog's widget values;
  - the pure functions `Encode` (getConfig) and `ApplyConfig` (setConfig);
  - the class `ConfigureDialog`. `GetConfig`, `SetConfig` and the three
    block setters are proved against `Encode` and the `Apply*` functions;
    `Validate` states its rule outright.

The objects keep their fields as plain mutable fields, and the methods
that change them assign them in the source's order. The transform's
getters and setters are proved against the pure layout functions
`Pack`/`Unpack`. The dialog's `GetConfig`, `SetConfig` and block setters
are proved against `Encode`/`ApplyHead`/`ApplyLandmarks`/`ApplyCheckBoxes`.
The step's mode setter is proved against `RegistrationModes` and `Rebind`,
its landmark setter against `IsLandmarkArray`, and its mode getter states
its AttributeError directly. The round-trip properties are lemmas about
those functions.

Python behaviours modelled explicitly:

- An exception is an `Err`/`Fail` value. This covers the ValueError of
  `tuple.index` and `int()`, the KeyError of a missing dictionary key, the
  AttributeError of a missing attribute, the IndexError of indexing past
  the end, and the TypeError of calling `None`.
- Python slices clip to the length, so the `shapeModelX` and
  `uniformScalingX` setters never fail on a short vector. They store
  shorter parts instead (`Slice`, `Unpack`, `WellShaped`). The
  `perBoneScalingX` setter indexes `value[0]` to `value[3]` first, so it
  raises IndexError on fewer than four values.
- When a statement raises part way through a setter, the assignments before
  it stay in effect. The perBoneScalingX setter on fewer than four values
  and `setConfig` on a dictionary missing a key both model this.

Behaviours of the code that a reader might expect to be otherwise, and
that the model keeps as written:

- No transform setter checks the pose lengths, and none wraps angles into
  (-π, π]. On a wrong-length vector the `shapeModelX` and `uniformScalingX`
  setters, and the `perBoneScalingX` setter once it has four values, store
  clipped slices. (The step's `targetLandmarks` setter does check its
  value's shape.)
- The `uniformScalingX` setter writes its first slot to `shapeModeWeights`,
  not to `uniformScaling`. It does not propagate the scale to the per-bone
  scales. So setting and then getting `uniformScalingX` shows the old scale
  (`UniformScalingSetThenGet`).
- The constructor creates `petallaScaling`. The per-bone getter reads
  `patellaScaling`, which exists only once the per-bone setter has reached
  `value[2]`. Until then the getter raises AttributeError
  (`FreshPerBoneScalingX`).
- The registration-mode setter compares against `'uniformscale'`, which no
  accepted mode equals. Selecting `'uniformscaling'` therefore binds nothing
  new, and `register` on a fresh step raises TypeError
  (`AcceptedModeBindings`, `ModeDispatchScenario`).
- `_registrationMode` is not created by the constructor, so the mode getter
  raises AttributeError until a mode is set.
- The configuration is a flat dictionary with one key per landmark
  (`pelvis-RASIS`, …).
- The registration modes are the four of `REG_MODES`. `'manual'` is
  accepted but binds no strategy.

## Model

| member | source | states |
|---|---|---|
| PySeq.Slice | mapclientplugins/fieldworklowerlimbgenerationstep/llstep.py:53-56 | A slice v[lo:hi] never fails. It has min(hi,len)-min(lo,len) elements, exactly hi-lo when v is long enough, and its i-th element is v[lo+i]. |
| PySeq.IndexOf | mapclientplugins/fieldworklowerlimbgenerationstep/configuredialog.py:114-116 | `tuple.index` finds nothing (ValueError) exactly when x is absent. Otherwise it returns a position holding x with no earlier occurrence. |
| PyInt.FormatNat | mapclientplugins/fieldworklowerlimbgenerationstep/configuredialog.py:82 | str(n) of a natural number is a non-empty string of digits with no leading zero unless n is 0. |
| PyInt.FormatInt | mapclientplugins/fieldworklowerlimbgenerationstep/configuredialog.py:82 | str(n) has no surrounding white space and starts with '-' exactly when n is negative. |
| PyInt.FormatNatValue | mapclientplugins/fieldworklowerlimbgenerationstep/configuredialog.py:82 | The decimal value of the digits of str(n) is n (by induction on n). |
| PyInt.ParseInt | mapclientplugins/fieldworklowerlimbgenerationstep/configuredialog.py:117 | int() rejects an empty or blank string, reads a plain digit string as its decimal value, and reads '-' followed by digits as the negated value. |
| PyInt.SpaceAfterSign | mapclientplugins/fieldworklowerlimbgenerationstep/configuredialog.py:117 | Python 2's int() lets white space follow the sign: int('- 5') == -5 and int(' +7 ') == 7. |
| PyInt.IntGrammar | mapclientplugins/fieldworklowerlimbgenerationstep/configuredialog.py:117 | int() accepts white space, an optional '+' or '-', white space, one or more digits and white space, and gives the digits' value, negated after '-'. |
| PyInt.ParseIntAlphabet | mapclientplugins/fieldworklowerlimbgenerationstep/configuredialog.py:117 | int() accepts only text made of white space, digits and signs: anything else, such as '1.5', is a ValueError. |
| PyInt.FormatThenParse | mapclientplugins/fieldworklowerlimbgenerationstep/configuredialog.py:117 | int(str(n)) == n for every integer, so the spin box value written by getConfig is read back by setConfig. |
| ParameterLayout.Pack | mapclientplugins/fieldworklowerlimbgenerationstep/llstep.py:41-46 | The packed length is the sum of the part lengths: the leading part plus 12 on a well-shaped pose. |
| ParameterLayout.Unpack | mapclientplugins/fieldworklowerlimbgenerationstep/llstep.py:51-56 | Splitting at offset a gives a leading part of min(a, len) values. The pose is well shaped exactly when len >= a+12. Packing the parts again gives exactly the first a+12 values. |
| ParameterLayout.PackThenUnpack | mapclientplugins/fieldworklowerlimbgenerationstep/llstep.py:39-56 | Unpacking a packed vector at its leading part's length gives back the parts, so pack and unpack are inverse on well-shaped parts. |
| ParameterLayout.UniformScalingSetThenGet | mapclientplugins/fieldworklowerlimbgenerationstep/llstep.py:58-75 | After the uniform setter, the uniform getter gives [old scale] + v[1:]. It equals v if and only if v[0] already is the scale. |
| ParameterLayout.PerBoneScalingSetThenGet | mapclientplugins/fieldworklowerlimbgenerationstep/llstep.py:77-100 | The per-bone layout round-trips on 16 values. |
| LLTransform.LLTransformData.constructor | mapclientplugins/fieldworklowerlimbgenerationstep/llstep.py:23-37 | Zero pose of lengths 6/3/3, no shape modes or weights, all scales 1.0, no patellaScaling, empty caches. |
| LLTransform.LLTransformData.ShapeModelX | mapclientplugins/fieldworklowerlimbgenerationstep/llstep.py:39-47 | Returns and caches weights + pose, of length #weights + 12 on a well-shaped pose. |
| LLTransform.LLTransformData.SetShapeModelX | mapclientplugins/fieldworklowerlimbgenerationstep/llstep.py:49-56 | The fields become Unpack(value, #shapeModes). The pose is well shaped iff the value is long enough. The cache holds value. shapeModes and the scales are unchanged. |
| LLTransform.LLTransformData.UniformScalingX | mapclientplugins/fieldworklowerlimbgenerationstep/llstep.py:58-66 | Returns and caches [uniformScaling] + pose, of length 13 on a well-shaped pose. |
| LLTransform.LLTransformData.SetUniformScalingX | mapclientplugins/fieldworklowerlimbgenerationstep/llstep.py:68-75 | Weights and pose become Unpack(value, 1). uniformScaling keeps its value. The cache holds value. |
| LLTransform.LLTransformData.PerBoneScalingX | mapclientplugins/fieldworklowerlimbgenerationstep/llstep.py:77-88 | AttributeError('patellaScaling'), with the cache untouched, while the attribute is missing. Otherwise returns and caches the four scales + pose (16 values on a well-shaped pose). |
| LLTransform.LLTransformData.SetPerBoneScalingX | mapclientplugins/fieldworklowerlimbgenerationstep/llstep.py:90-100 | Scale i becomes value[i] for each i < len. IndexError unless len >= 4, with the earlier writes kept. On success the pose comes from offset 4. Weights and the uniform scale are untouched. |
| LLTransform.FreshShapeModelX | mapclientplugins/fieldworklowerlimbgenerationstep/llstep.py:23-47 | A fresh transform's shapeModelX is twelve zeros. |
| LLTransform.ShapeModelXSetThenGet | mapclientplugins/fieldworklowerlimbgenerationstep/llstep.py:39-56 | Setting shapeModelX to #shapeModes + 12 values and getting it gives them back with a well-shaped pose. |
| LLTransform.UniformScalingXSetThenGet | mapclientplugins/fieldworklowerlimbgenerationstep/llstep.py:58-75 | On an object: set then get gives [old scale] + v[1:], equal to v iff v[0] is the old scale. The weights become [v[0]]. |
| LLTransform.PerBoneScalingXSetThenGet | mapclientplugins/fieldworklowerlimbgenerationstep/llstep.py:77-100 | On an object: set then get of 16 values gives Ok(v). Weights and uniform scale are unchanged. |
| LLTransform.FreshPerBoneScalingX | mapclientplugins/fieldworklowerlimbgenerationstep/llstep.py:77-100 | A fresh transform's per-bone getter raises AttributeError (the constructor spells the field petallaScaling, line 32). After a setter call that reaches value[2] the getter succeeds, even if the setter then raised. After 16 values it returns them. |
| LLStep.Rebind | mapclientplugins/fieldworklowerlimbgenerationstep/llstep.py:145-150 | The if/elif chain changes the binding only for 'shapemodel', 'uniformscale' or 'perbonescaling', and never unbinds. |
| LLStep.RegisterUniformScaling | mapclientplugins/fieldworklowerlimbgenerationstep/llstep.py:194-195 | The uniform-scaling stub raises NotImplementedError whatever step it is given. |
| LLStep.RegisterPerBoneScaling | mapclientplugins/fieldworklowerlimbgenerationstep/llstep.py:197-198 | The per-bone stub raises NotImplementedError whatever step it is given. |
| LLStep.Shape | mapclientplugins/fieldworklowerlimbgenerationstep/llstep.py:160-161 | np.array(value).shape: its first entry is the number of rows, and it has two entries exactly when the list is non-empty and all rows have one length, the second being that length. |
| LLStep.IsLandmarkArray | mapclientplugins/fieldworklowerlimbgenerationstep/llstep.py:160-161 | The shape test v.shape == (7, 3) holds exactly for seven rows of three coordinates. |
| LLStep.AcceptedModeBindings | mapclientplugins/fieldworklowerlimbgenerationstep/llstep.py:141-152 | Of the accepted modes only 'shapemodel' and 'perbonescaling' rebind. 'uniformscaling' and 'manual' keep the previous binding. The uniform-scaling strategy is never newly bound. |
| LLStep.LLStepData.constructor | mapclientplugins/fieldworklowerlimbgenerationstep/llstep.py:115-126 | A fresh initial transform, no target landmarks, no mode attribute, nothing bound, mWeight 0.0. |
| LLStep.LLStepData.RegistrationMode | mapclientplugins/fieldworklowerlimbgenerationstep/llstep.py:137-139 | AttributeError('_registrationMode') until a mode is stored, then that mode. |
| LLStep.LLStepData.SetRegistrationMode | mapclientplugins/fieldworklowerlimbgenerationstep/llstep.py:141-152 | An accepted mode is stored and the binding follows the if/elif chain. Any other string raises ValueError, and the mode and binding stay unchanged. |
| LLStep.LLStepData.SetTargetLandmarks | mapclientplugins/fieldworklowerlimbgenerationstep/llstep.py:158-164 | Stores exactly a 7x3 array. Any other shape raises ValueError and keeps the previous value. |
| LLStep.LLStepData.Register | mapclientplugins/fieldworklowerlimbgenerationstep/llstep.py:173-174 | With nothing bound: TypeError. Bound to either stub (lines 194-198): NotImplementedError. Bound to the shape-model strategy: whatever that strategy does (the parameter), and only then can it pass. |
| LLStep.ModeDispatchScenario | mapclientplugins/fieldworklowerlimbgenerationstep/llstep.py:141-174 | A fresh step, and a step after 'uniformscaling', both raise TypeError on register. After 'shapemodel' then 'manual', the shape-model strategy is still bound, and register returns that strategy's outcome. |
| LLStep.RejectedModeScenario | mapclientplugins/fieldworklowerlimbgenerationstep/llstep.py:141-174 | A rejected mode raises ValueError, keeps the stored mode, and keeps the per-bone stub bound. |
| LLStep.RejectedLandmarksScenario | mapclientplugins/fieldworklowerlimbgenerationstep/llstep.py:158-164 | A wrongly shaped target is refused and a fresh step keeps None. |
| ConfigDialog.EncodeChecked | mapclientplugins/fieldworklowerlimbgenerationstep/configuredialog.py:92-103 | getConfig writes a check box as 'True' or 'False', 'True' exactly when it is checked. |
| ConfigDialog.DecodeChecked | mapclientplugins/fieldworklowerlimbgenerationstep/configuredialog.py:126-137 | setConfig checks a box exactly for the string 'True', so 'False', 'true', 'TRUE', '1' and '' all uncheck it. |
| ConfigDialog.CheckedCodec | mapclientplugins/fieldworklowerlimbgenerationstep/configuredialog.py:92-137 | Decoding an encoded check box gives it back. Encoding a decoded string gives it back exactly when it is 'True' or 'False'. |
| ConfigDialog.Encode | mapclientplugins/fieldworklowerlimbgenerationstep/configuredialog.py:72-104 | getConfig writes exactly the fourteen configuration keys. |
| ConfigDialog.EncodeEntries | mapclientplugins/fieldworklowerlimbgenerationstep/configuredialog.py:79-103 | The value under each key: the identifier text, REG_MODES at the combo index, str of the spin box, the weight, the seven landmark texts, and 'True'/'False' for the boxes. |
| ConfigDialog.ApplyHead | mapclientplugins/fieldworklowerlimbgenerationstep/configuredialog.py:112-118 | Succeeds iff the four keys are present, the mode is in REG_MODES and int() parses. On success the head is fully determined by c. A missing identifier changes nothing. Otherwise both identifiers become c['identifier']. The combo index stays in range. |
| ConfigDialog.ApplyLandmarks | mapclientplugins/fieldworklowerlimbgenerationstep/configuredialog.py:119-125 | Succeeds iff all seven landmark keys are present, then holds their strings. A failure is a KeyError naming a missing landmark key. |
| ConfigDialog.ApplyCheckBoxes | mapclientplugins/fieldworklowerlimbgenerationstep/configuredialog.py:126-137 | Succeeds iff the three box keys are present, then each box is checked iff its string is 'True'. A failure is a KeyError naming a missing box key. |
| ConfigDialog.ApplyConfig | mapclientplugins/fieldworklowerlimbgenerationstep/configuredialog.py:106-137 | setConfig succeeds iff all fourteen keys are present, the mode is in REG_MODES and int() parses. It keeps the combo index valid. Once the identifier is read, both identifiers equal it whatever fails later. |
| ConfigDialog.UnknownModeFails | mapclientplugins/fieldworklowerlimbgenerationstep/configuredialog.py:112-116 | A mode outside REG_MODES raises ValueError after the identifier is written and before anything else changes. |
| ConfigDialog.SetConfigThenGetConfig | mapclientplugins/fieldworklowerlimbgenerationstep/configuredialog.py:72-137 | After a successful setConfig(c) with 'True'/'False' boxes, getConfig returns c's identifier, mode, seven landmark strings and three box strings, and str(int(c['pcs_to_fit'])), the last for values within the spin box's range (not modelled, see '## Left out'). |
| ConfigDialog.ModeIndex | mapclientplugins/fieldworklowerlimbgenerationstep/configuredialog.py:9 | REG_MODES.index finds each mode at its own position. |
| ConfigDialog.GetConfigThenSetConfig | mapclientplugins/fieldworklowerlimbgenerationstep/configuredialog.py:72-137 | setConfig of what getConfig returned succeeds from any prior widget state. It restores every widget, with the identifier recorded as the previous one. |
| ConfigDialog.ConfigureDialog.constructor | mapclientplugins/fieldworklowerlimbgenerationstep/configuredialog.py:16-36 | Empty previous identifier, the combo box on the first of REG_MODES. |
| ConfigDialog.ConfigureDialog.Validate | mapclientplugins/fieldworklowerlimbgenerationstep/configuredialog.py:55-70 | Valid iff the identifier occurs nowhere else, or occurs once and equals the previous identifier. |
| ConfigDialog.ConfigureDialog.GetConfig | mapclientplugins/fieldworklowerlimbgenerationstep/configuredialog.py:72-104 | Records the identifier as the previous one, changes nothing else, and returns Encode of the widgets. |
| ConfigDialog.ConfigureDialog.SetConfig | mapclientplugins/fieldworklowerlimbgenerationstep/configuredialog.py:106-137 | Outcome and new widget state are ApplyConfig of the old state, partial writes included. The combo index stays valid. |
| ConfigDialog.ConfigureDialog.SetHead | mapclientplugins/fieldworklowerlimbgenerationstep/configuredialog.py:112-118 | The first block of setConfig on its five fields equals ApplyHead. |
| ConfigDialog.ConfigureDialog.SetLandmarkTexts | mapclientplugins/fieldworklowerlimbgenerationstep/configuredialog.py:119-125 | The landmark block on its seven fields equals ApplyLandmarks. |
| ConfigDialog.ConfigureDialog.SetCheckBoxes | mapclientplugins/fieldworklowerlimbgenerationstep/configuredialog.py:126-137 | The check-box block on its three fields equals ApplyCheckBoxes. |
| ConfigDialog.SetConfigThenValidate | mapclientplugins/fieldworklowerlimbgenerationstep/configuredialog.py:112-113 | Once setConfig has read the identifier, validate with one occurrence (line 64) accepts it, whatever fails later. |
| ConfigDialog.GetConfigThenValidate | mapclientplugins/fieldworklowerlimbgenerationstep/configuredialog.py:78-80 | getConfig returns the identifier text under 'identifier', and validate with one occurrence then accepts it. |
| ConfigDialog.SaveThenLoad | mapclientplugins/fieldworklowerlimbgenerationstep/configuredialog.py:72-137 | getConfig then setConfig on one dialog succeeds and leaves every widget as it was, apart from the recorded previous identifier. |

## Left out

- The bone model `bone_models.LowerLimbLeftAtlas` that the step constructor creates (llstep.py:116) is external geometry, left out.
- `LLStep.LLStepData.Register`: the body of `_registerShapeModel` (llstep.py:176-192) is not modelled; what the call does is the parameter `shapeModelOutcome`. As written, that body reads `self.min_args` in a module-level function, so it raises NameError while evaluating the arguments of `lowerlimbatlasfit.fit`. With that fixed, the outcome would be whatever the external optimiser does. The body also stores the fitted vector on the step rather than on its transform, and the model does not capture that write.
- `_minArgs` (llstep.py:109-113), an optimiser argument block that is accidentally a 1-tuple, is read by nothing: line 188 passes `self.min_args`, a different name that is not defined there.
- `outputModelDict`, `outputTransform`, `inputPCs`, `regMode`, `landmarkErrors` and `landmarkRMSE` are plain attributes or calls into the bone model.
- `inputModelDict` is read as a plain attribute. As written, its setter (llstep.py:169-170) puts an indented statement after the decorator line `@inputModelDict.setter(self, value)`, which is a syntax error: neither llstep.py nor step.py, which imports it, loads at all. The model treats the rest of the module as if it loaded.
- `landmarkNames` (llstep.py:105-108) is read only by the external fit.
- The targetLandmarks getter simply returns the stored value (the field `targetLandmarksValue`).
- numpy arrays are sequences of reals. `np.hstack`, `np.array` and the shape test are concatenation and a row/column count. Slices are copies here, so the aliasing of numpy views is not modelled.
- `ConfigDialog.ApplyHead`: does not model `float(config['mweight'])`, the double spin box's value, or `str(float)`. The weight widget is its text, stored from and written to the dictionary verbatim. So a non-numeric weight does not raise ValueError here. `GetConfigThenSetConfig` and `SaveThenLoad` restore the weight word for word only because the model keeps it as text (in Python it goes through `float` and `str`).
  - `ConfigDialog.ApplyConfig`: inherits the missing weight parse from `ApplyHead`, and the missing spin-box clamping described on the `SetHead` line below.
  - `ConfigDialog.ConfigureDialog.SetConfig`: inherits the missing weight parse and the missing spin-box clamping through `ApplyConfig`.
  - `ConfigDialog.ConfigureDialog.SetHead`: inherits the missing weight parse, since its ensures is `ApplyHead`'s.
  - `ConfigDialog.SetConfigThenGetConfig`: claims nothing about the weight, and its `pcs_to_fit` equation holds only within the spin box's range (see the `SetHead` line below).
- `ConfigDialog.ConfigureDialog.SetHead`: does not model the range clamping of `QSpinBox.setValue` (configuredialog.py:117). The spin box stores any parsed integer; its range comes from the UI definition, which is not part of this model. `ConfigDialog.ApplyHead`, `ConfigDialog.ApplyConfig` and `ConfigDialog.ConfigureDialog.SetConfig` inherit this, so their `pcsToFit == ParseInt(c["pcs_to_fit"]).value` holds in the program only for values within the spin box's range. Likewise `ConfigDialog.SetConfigThenGetConfig`'s `e["pcs_to_fit"] == FormatInt(ParseInt(c["pcs_to_fit"]).value)` holds only within that range: with a minimum of 0, `'-1'` would come back as `'0'`.
- `PyInt.ParseInt` follows Python 2's `int()` on ASCII text: white space, an optional sign, optional white space, decimal digits, white space. It does not model Unicode digits or white space in a `unicode` argument, or the integer width of the spin box.
- The style sheets set by `validate`, the `QMessageBox` confirmation in `accept`, the signal connection, and the widget layout (`Ui_Dialog`) are UI. `identifierOccursCount` is a call into the workflow framework, so `Validate` takes its answer as the parameter `occurrences`.
- The initial values of the spin boxes, line edits and check boxes come from the UI definition, which is not part of this model. The constructor uses 0, "" and unchecked.
- lowerlimbgenerationdialog.py (viewer and worker thread), step.py (plugin lifecycle and settings files) and autoreg.py (empty stubs) are not part of this model.
