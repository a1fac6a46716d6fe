/** The configure dialog of the step with its widgets reduced to plain
    values: the identifier-uniqueness rule of validate, and getConfig and
    setConfig as an encoder and decoder between those values and the step's
    string-to-string configuration dictionary. */
module ConfigDialog {
  import opened Exceptions
  import opened PySeq
  import opened PyInt

  /** REG_MODES, in the order the combo box lists them. */
  const RegModes: seq<string> := ["shapemodel", "uniformscaling", "perbonescaling", "manual"]

  /** The keys getConfig writes and setConfig reads. */
  const ConfigKeys: set<string> := {
    "identifier", "registration_mode", "pcs_to_fit", "mweight",
    "pelvis-RASIS", "pelvis-LASIS", "pelvis-Sacral", "femur-LEC", "femur-MEC",
    "tibiafibula-LM", "tibiafibula-MM", "knee_corr", "knee_dof", "GUI"
  }

  /** The keys of the first block of setConfig. */
  const HeadKeys: set<string> := {"identifier", "registration_mode", "pcs_to_fit", "mweight"}

  /** The keys of the seven landmark line edits. */
  const LandmarkKeys: set<string> := {
    "pelvis-RASIS", "pelvis-LASIS", "pelvis-Sacral", "femur-LEC", "femur-MEC",
    "tibiafibula-LM", "tibiafibula-MM"
  }

  /** The keys of the three check boxes. */
  const CheckBoxKeys: set<string> := {"knee_corr", "knee_dof", "GUI"}

  /** How getConfig writes a check box: one of the two literals, 'True'
      exactly when checked. */
  function EncodeChecked(checked: bool): (s: string)
    ensures s == "True" || s == "False"
    ensures s == "True" <==> checked
  {
    if checked then "True" else "False"
  }

  /** How setConfig reads a check box: checked for 'True' only, so the
      misspelled or lower-case forms ('true', 'TRUE', '1') uncheck it. */
  function DecodeChecked(s: string): (checked: bool)
    ensures checked <==> s == "True"
    ensures checked ==> |s| == 4 && s[0] == 'T'
    ensures s == "False" || s == "true" || s == "TRUE" || s == "1" || s == "" ==> !checked
  {
    s == "True"
  }

  /** The check-box codec: decoding an encoding gives the state back, and
      encoding a decoding gives the string back exactly when it is 'True' or
      'False', since every other string decodes as unchecked. */
  lemma CheckedCodec(checked: bool, s: string)
    ensures DecodeChecked(EncodeChecked(checked)) == checked
    ensures EncodeChecked(DecodeChecked(s)) == s <==> s == "True" || s == "False"
  {
  }

  /** The first group of widgets: the identifier line edit with
      _previousIdentifier, the mode combo box and the two spin boxes. */
  datatype Head = Head(
    previousIdentifier: string,
    identifierText: string,
    regModeIndex: int,
    pcsToFit: int,
    mWeightText: string)

  /** The texts of the seven landmark line edits. */
  datatype Landmarks = Landmarks(
    rasis: string, lasis: string, sacral: string,
    lec: string, mec: string,
    lm: string, mm: string)

  /** The three check boxes. */
  datatype CheckBoxes = CheckBoxes(kneeCorr: bool, kneeDof: bool, gui: bool)

  /** The widget values the dialog shows: the state getConfig encodes and
      setConfig writes. */
  datatype Widgets = Widgets(head: Head, landmarks: Landmarks, checkBoxes: CheckBoxes)

  /** The combo box always has one of the REG_MODES selected. */
  predicate ValidWidgets(w: Widgets)
  {
    0 <= w.head.regModeIndex < |RegModes|
  }

  /** getConfig's dictionary for the widget values w. */
  function Encode(w: Widgets): (config: map<string, string>)
    requires ValidWidgets(w)
    ensures config.Keys == ConfigKeys
  {
    var h, l, b := w.head, w.landmarks, w.checkBoxes;
    map[
      "identifier" := h.identifierText,
      "registration_mode" := RegModes[h.regModeIndex],
      "pcs_to_fit" := FormatInt(h.pcsToFit),
      "mweight" := h.mWeightText,
      "pelvis-RASIS" := l.rasis,
      "pelvis-LASIS" := l.lasis,
      "pelvis-Sacral" := l.sacral,
      "femur-LEC" := l.lec,
      "femur-MEC" := l.mec,
      "tibiafibula-LM" := l.lm,
      "tibiafibula-MM" := l.mm,
      "knee_corr" := EncodeChecked(b.kneeCorr),
      "knee_dof" := EncodeChecked(b.kneeDof),
      "GUI" := EncodeChecked(b.gui)
    ]
  }

  /** The value getConfig writes under each key. */
  lemma EncodeEntries(w: Widgets)
    requires ValidWidgets(w)
    ensures var config := Encode(w);
            config["identifier"] == w.head.identifierText &&
            config["registration_mode"] == RegModes[w.head.regModeIndex] &&
            config["pcs_to_fit"] == FormatInt(w.head.pcsToFit) &&
            config["mweight"] == w.head.mWeightText
    ensures var config := Encode(w);
            config["pelvis-RASIS"] == w.landmarks.rasis && config["pelvis-LASIS"] == w.landmarks.lasis &&
            config["pelvis-Sacral"] == w.landmarks.sacral &&
            config["femur-LEC"] == w.landmarks.lec && config["femur-MEC"] == w.landmarks.mec &&
            config["tibiafibula-LM"] == w.landmarks.lm && config["tibiafibula-MM"] == w.landmarks.mm
    ensures var config := Encode(w);
            config["knee_corr"] == EncodeChecked(w.checkBoxes.kneeCorr) &&
            config["knee_dof"] == EncodeChecked(w.checkBoxes.kneeDof) &&
            config["GUI"] == EncodeChecked(w.checkBoxes.gui)
  {
  }

  /** The first block of setConfig: the identifier (which also becomes the
      previous identifier), the mode (which REG_MODES.index must find), the
      number of shape modes (which int() must parse) and the weight. A
      missing key raises KeyError; what was written before the raising step
      stays written. */
  function ApplyHead(c: map<string, string>, h: Head): (r: (Outcome, Head))
    ensures r.0 == Pass <==>
              HeadKeys <= c.Keys && c["registration_mode"] in RegModes && ParseInt(c["pcs_to_fit"]).Some?
    ensures r.0 == Pass ==>
              r.1 == Head(c["identifier"], c["identifier"], IndexOf(RegModes, c["registration_mode"]).value,
                          ParseInt(c["pcs_to_fit"]).value, c["mweight"])
    ensures "identifier" !in c ==> r == (Fail(KeyError("identifier")), h)
    ensures "identifier" in c ==> r.1.previousIdentifier == r.1.identifierText == c["identifier"]
    ensures 0 <= h.regModeIndex < |RegModes| ==> 0 <= r.1.regModeIndex < |RegModes|
  {
    if "identifier" !in c then (Fail(KeyError("identifier")), h) else
    var h := h.(previousIdentifier := c["identifier"], identifierText := c["identifier"]);
    if "registration_mode" !in c then (Fail(KeyError("registration_mode")), h) else
    var index := IndexOf(RegModes, c["registration_mode"]);
    if index.None? then (Fail(ValueError), h) else
    var h := h.(regModeIndex := index.value);
    if "pcs_to_fit" !in c then (Fail(KeyError("pcs_to_fit")), h) else
    var pcs := ParseInt(c["pcs_to_fit"]);
    if pcs.None? then (Fail(ValueError), h) else
    var h := h.(pcsToFit := pcs.value);
    if "mweight" !in c then (Fail(KeyError("mweight")), h) else
    (Pass, h.(mWeightText := c["mweight"]))
  }

  /** The second block of setConfig: the seven landmark names, verbatim, in
      the order RASIS, LASIS, Sacral, LEC, MEC, MM, LM. */
  function ApplyLandmarks(c: map<string, string>, l: Landmarks): (r: (Outcome, Landmarks))
    ensures r.0 == Pass <==> LandmarkKeys <= c.Keys
    ensures r.0 == Pass ==>
              r.1 == Landmarks(c["pelvis-RASIS"], c["pelvis-LASIS"], c["pelvis-Sacral"],
                               c["femur-LEC"], c["femur-MEC"], c["tibiafibula-LM"], c["tibiafibula-MM"])
    ensures r.0.Fail? ==> r.0.error.KeyError? && r.0.error.key in LandmarkKeys && r.0.error.key !in c
  {
    if "pelvis-RASIS" !in c then (Fail(KeyError("pelvis-RASIS")), l) else
    var l := l.(rasis := c["pelvis-RASIS"]);
    if "pelvis-LASIS" !in c then (Fail(KeyError("pelvis-LASIS")), l) else
    var l := l.(lasis := c["pelvis-LASIS"]);
    if "pelvis-Sacral" !in c then (Fail(KeyError("pelvis-Sacral")), l) else
    var l := l.(sacral := c["pelvis-Sacral"]);
    if "femur-LEC" !in c then (Fail(KeyError("femur-LEC")), l) else
    var l := l.(lec := c["femur-LEC"]);
    if "femur-MEC" !in c then (Fail(KeyError("femur-MEC")), l) else
    var l := l.(mec := c["femur-MEC"]);
    if "tibiafibula-MM" !in c then (Fail(KeyError("tibiafibula-MM")), l) else
    var l := l.(mm := c["tibiafibula-MM"]);
    if "tibiafibula-LM" !in c then (Fail(KeyError("tibiafibula-LM")), l) else
    (Pass, l.(lm := c["tibiafibula-LM"]))
  }

  /** The third block of setConfig: each check box is checked exactly when
      its string is 'True'. */
  function ApplyCheckBoxes(c: map<string, string>, b: CheckBoxes): (r: (Outcome, CheckBoxes))
    ensures r.0 == Pass <==> CheckBoxKeys <= c.Keys
    ensures r.0 == Pass ==>
              r.1 == CheckBoxes(DecodeChecked(c["knee_corr"]), DecodeChecked(c["knee_dof"]), DecodeChecked(c["GUI"]))
    ensures r.0.Fail? ==> r.0.error.KeyError? && r.0.error.key in CheckBoxKeys && r.0.error.key !in c
  {
    if "knee_corr" !in c then (Fail(KeyError("knee_corr")), b) else
    var b := b.(kneeCorr := DecodeChecked(c["knee_corr"]));
    if "knee_dof" !in c then (Fail(KeyError("knee_dof")), b) else
    var b := b.(kneeDof := DecodeChecked(c["knee_dof"]));
    if "GUI" !in c then (Fail(KeyError("GUI")), b) else
    (Pass, b.(gui := DecodeChecked(c["GUI"])))
  }

  /** setConfig on the widget values w: the outcome, and the widget values
      it leaves, the three blocks run in turn until one raises. */
  function ApplyConfig(c: map<string, string>, w: Widgets): (r: (Outcome, Widgets))
    ensures r.0 == Pass <==>
              ConfigKeys <= c.Keys && c["registration_mode"] in RegModes && ParseInt(c["pcs_to_fit"]).Some?
    ensures ValidWidgets(w) ==> ValidWidgets(r.1)
    ensures "identifier" in c ==>
              r.1.head.previousIdentifier == r.1.head.identifierText == c["identifier"]
  {
    var (r1, h) := ApplyHead(c, w.head);
    if r1.Fail? then (r1, w.(head := h)) else
    var (r2, l) := ApplyLandmarks(c, w.landmarks);
    if r2.Fail? then (r2, w.(head := h, landmarks := l)) else
    var (r3, b) := ApplyCheckBoxes(c, w.checkBoxes);
    (r3, Widgets(h, l, b))
  }

  /** A mode outside REG_MODES makes setConfig raise ValueError once it has
      written the identifier, and before it writes anything else. */
  lemma UnknownModeFails(c: map<string, string>, w: Widgets)
    requires "identifier" in c && "registration_mode" in c
    requires c["registration_mode"] !in RegModes
    ensures ApplyConfig(c, w) ==
            (Fail(ValueError),
             w.(head := w.head.(previousIdentifier := c["identifier"], identifierText := c["identifier"])))
  {
  }

  /** getConfig after a successful setConfig(c) gives back c on the
      identifier, the mode, the seven landmark names and the three check
      boxes, provided each check-box string is 'True' or 'False'; the number
      of shape modes comes back as str(int(c['pcs_to_fit'])). */
  lemma SetConfigThenGetConfig(c: map<string, string>, w: Widgets)
    requires ValidWidgets(w)
    requires ApplyConfig(c, w).0 == Pass
    requires forall k :: k in CheckBoxKeys ==> c[k] == "True" || c[k] == "False"
    ensures ValidWidgets(ApplyConfig(c, w).1)
    ensures var e := Encode(ApplyConfig(c, w).1);
            e.Keys == ConfigKeys && ConfigKeys <= c.Keys &&
            e["identifier"] == c["identifier"] &&
            e["registration_mode"] == c["registration_mode"] &&
            e["pcs_to_fit"] == FormatInt(ParseInt(c["pcs_to_fit"]).value)
    ensures var e := Encode(ApplyConfig(c, w).1);
            e["pelvis-RASIS"] == c["pelvis-RASIS"] && e["pelvis-LASIS"] == c["pelvis-LASIS"] &&
            e["pelvis-Sacral"] == c["pelvis-Sacral"] &&
            e["femur-LEC"] == c["femur-LEC"] && e["femur-MEC"] == c["femur-MEC"] &&
            e["tibiafibula-LM"] == c["tibiafibula-LM"] && e["tibiafibula-MM"] == c["tibiafibula-MM"]
    ensures var e := Encode(ApplyConfig(c, w).1);
            e["knee_corr"] == c["knee_corr"] && e["knee_dof"] == c["knee_dof"] && e["GUI"] == c["GUI"]
  {
    var after := ApplyConfig(c, w).1;
    EncodeEntries(after);
    assert after.head == ApplyHead(c, w.head).1;
    assert after.landmarks == ApplyLandmarks(c, w.landmarks).1;
    assert after.checkBoxes == ApplyCheckBoxes(c, w.checkBoxes).1;
    CheckedCodec(false, c["knee_corr"]);
    CheckedCodec(false, c["knee_dof"]);
    CheckedCodec(false, c["GUI"]);
  }

  /** REG_MODES holds no mode twice, so index finds each at its own place. */
  lemma ModeIndex(i: int)
    requires 0 <= i < |RegModes|
    ensures IndexOf(RegModes, RegModes[i]) == Some(i)
  {
  }

  /** setConfig of what getConfig returned succeeds, whatever the dialog
      showed before, and leaves the widgets as getConfig saw them, with the
      identifier recorded as the previous one. */
  lemma GetConfigThenSetConfig(w: Widgets, before: Widgets)
    requires ValidWidgets(w)
    ensures ApplyConfig(Encode(w), before) ==
            (Pass, w.(head := w.head.(previousIdentifier := w.head.identifierText)))
  {
    var c := Encode(w);
    EncodeEntries(w);
    ModeIndex(w.head.regModeIndex);
    FormatThenParse(w.head.pcsToFit);
    CheckedCodec(w.checkBoxes.kneeCorr, c["knee_corr"]);
    CheckedCodec(w.checkBoxes.kneeDof, c["knee_dof"]);
    CheckedCodec(w.checkBoxes.gui, c["GUI"]);
  }

  class ConfigureDialog {
    /** _previousIdentifier. */
    var previousIdentifier: string
    /** The text of lineEdit_id. */
    var identifierText: string
    /** The current index of comboBox_regmode, which lists REG_MODES. */
    var regModeIndex: int
    /** The value of spinBox_pcsToFit. */
    var pcsToFit: int
    /** The value of doubleSpinBox_mWeight, as getConfig writes it. */
    var mWeightText: string
    /** The texts of the seven landmark line edits. */
    var rasisText: string
    var lasisText: string
    var sacralText: string
    var lecText: string
    var mecText: string
    var lmText: string
    var mmText: string
    /** The three check boxes. */
    var kneeCorr: bool
    var kneeDof: bool
    var gui: bool

    function HeadState(): Head
      reads this`previousIdentifier, this`identifierText, this`regModeIndex, this`pcsToFit, this`mWeightText
    {
      Head(previousIdentifier, identifierText, regModeIndex, pcsToFit, mWeightText)
    }

    function LandmarkState(): Landmarks
      reads this`rasisText, this`lasisText, this`sacralText, this`lecText, this`mecText, this`lmText, this`mmText
    {
      Landmarks(rasisText, lasisText, sacralText, lecText, mecText, lmText, mmText)
    }

    function CheckBoxState(): CheckBoxes
      reads this`kneeCorr, this`kneeDof, this`gui
    {
      CheckBoxes(kneeCorr, kneeDof, gui)
    }

    /** The widget values, as getConfig encodes them. */
    function State(): Widgets
      reads this
    {
      Widgets(HeadState(), LandmarkState(), CheckBoxState())
    }

    /** The combo box always has an item selected. */
    predicate Valid()
      reads this
    {
      ValidWidgets(State())
    }

    /** __init__: the previous identifier is empty and the combo box shows
        the first of REG_MODES. */
    constructor ()
      ensures Valid()
      ensures previousIdentifier == "" && identifierText == "" && regModeIndex == 0
    {
      previousIdentifier := "";
      identifierText := "";
      regModeIndex := 0;
      pcsToFit := 0;
      mWeightText := "";
      rasisText, lasisText, sacralText := "", "", "";
      lecText, mecText, lmText, mmText := "", "", "", "";
      kneeCorr, kneeDof, gui := false, false, false;
    }

    /** validate, given what identifierOccursCount answers for the current
        identifier: valid when the identifier occurs nowhere else in the
        workflow, or occurs once and is the one this dialog last loaded or
        saved. */
    method Validate(occurrences: int) returns (valid: bool)
      ensures valid <==> occurrences == 0 || (occurrences == 1 && previousIdentifier == identifierText)
    {
      valid := (occurrences == 0) || (occurrences == 1 && previousIdentifier == identifierText);
    }

    /** getConfig: records the identifier as the previous one and encodes
        every widget under its key. */
    method GetConfig() returns (config: map<string, string>)
      requires Valid()
      modifies this`previousIdentifier
      ensures State() == old(State()).(head := old(HeadState()).(previousIdentifier := identifierText))
      ensures config == Encode(State())
    {
      previousIdentifier := identifierText;
      config := map[];
      config := config["identifier" := identifierText];
      config := config["registration_mode" := RegModes[regModeIndex]];
      config := config["pcs_to_fit" := FormatInt(pcsToFit)];
      config := config["mweight" := mWeightText];
      config := config["pelvis-RASIS" := rasisText];
      config := config["pelvis-LASIS" := lasisText];
      config := config["pelvis-Sacral" := sacralText];
      config := config["femur-LEC" := lecText];
      config := config["femur-MEC" := mecText];
      config := config["tibiafibula-LM" := lmText];
      config := config["tibiafibula-MM" := mmText];
      config := config["knee_corr" := if kneeCorr then "True" else "False"];
      config := config["knee_dof" := if kneeDof then "True" else "False"];
      config := config["GUI" := if gui then "True" else "False"];
    }

    /** setConfig: writes the widgets key by key. When a step raises, the
        widgets written by the steps before it keep their new values and the
        rest keep their old ones. */
    method SetConfig(config: map<string, string>) returns (r: Outcome)
      requires Valid()
      modifies this
      ensures Valid()
      ensures (r, State()) == ApplyConfig(config, old(State()))
    {
      ghost var before := State();
      r := SetHead(config);
      assert State() == before.(head := HeadState());
      if r.Fail? { return; }
      r := SetLandmarkTexts(config);
      assert State() == before.(head := HeadState(), landmarks := LandmarkState());
      if r.Fail? { return; }
      r := SetCheckBoxes(config);
      assert State() == Widgets(HeadState(), LandmarkState(), CheckBoxState());
    }

    /** The first block of setConfig, on the fields it writes. */
    method SetHead(config: map<string, string>) returns (r: Outcome)
      modifies this`previousIdentifier, this`identifierText, this`regModeIndex, this`pcsToFit, this`mWeightText
      ensures (r, HeadState()) == ApplyHead(config, old(HeadState()))
    {
      if "identifier" !in config { return Fail(KeyError("identifier")); }
      previousIdentifier := config["identifier"];
      identifierText := config["identifier"];
      if "registration_mode" !in config { return Fail(KeyError("registration_mode")); }
      var index := IndexOf(RegModes, config["registration_mode"]);
      if index.None? { return Fail(ValueError); }
      regModeIndex := index.value;
      if "pcs_to_fit" !in config { return Fail(KeyError("pcs_to_fit")); }
      var pcs := ParseInt(config["pcs_to_fit"]);
      if pcs.None? { return Fail(ValueError); }
      pcsToFit := pcs.value;
      if "mweight" !in config { return Fail(KeyError("mweight")); }
      mWeightText := config["mweight"];
      r := Pass;
    }

    /** The second block of setConfig, on the fields it writes. */
    method SetLandmarkTexts(config: map<string, string>) returns (r: Outcome)
      modifies this`rasisText, this`lasisText, this`sacralText, this`lecText, this`mecText, this`lmText, this`mmText
      ensures (r, LandmarkState()) == ApplyLandmarks(config, old(LandmarkState()))
    {
      if "pelvis-RASIS" !in config { return Fail(KeyError("pelvis-RASIS")); }
      rasisText := config["pelvis-RASIS"];
      if "pelvis-LASIS" !in config { return Fail(KeyError("pelvis-LASIS")); }
      lasisText := config["pelvis-LASIS"];
      if "pelvis-Sacral" !in config { return Fail(KeyError("pelvis-Sacral")); }
      sacralText := config["pelvis-Sacral"];
      if "femur-LEC" !in config { return Fail(KeyError("femur-LEC")); }
      lecText := config["femur-LEC"];
      if "femur-MEC" !in config { return Fail(KeyError("femur-MEC")); }
      mecText := config["femur-MEC"];
      if "tibiafibula-MM" !in config { return Fail(KeyError("tibiafibula-MM")); }
      mmText := config["tibiafibula-MM"];
      if "tibiafibula-LM" !in config { return Fail(KeyError("tibiafibula-LM")); }
      lmText := config["tibiafibula-LM"];
      r := Pass;
    }

    /** The third block of setConfig, on the fields it writes. */
    method SetCheckBoxes(config: map<string, string>) returns (r: Outcome)
      modifies this`kneeCorr, this`kneeDof, this`gui
      ensures (r, CheckBoxState()) == ApplyCheckBoxes(config, old(CheckBoxState()))
    {
      if "knee_corr" !in config { return Fail(KeyError("knee_corr")); }
      kneeCorr := config["knee_corr"] == "True";
      if "knee_dof" !in config { return Fail(KeyError("knee_dof")); }
      kneeDof := config["knee_dof"] == "True";
      if "GUI" !in config { return Fail(KeyError("GUI")); }
      gui := config["GUI"] == "True";
      r := Pass;
    }
  }

  /** After setConfig has read the identifier, whatever happens later in it,
      the identifier counts as this dialog's own: validate with one occurrence
      accepts it. */
  method SetConfigThenValidate(d: ConfigureDialog, config: map<string, string>) returns (valid: bool)
    requires d.Valid() && "identifier" in config
    modifies d
    ensures valid
    ensures d.identifierText == config["identifier"]
  {
    var _ := d.SetConfig(config);
    valid := d.Validate(1);
  }

  /** After getConfig, validate with one occurrence accepts the identifier it
      returned. */
  method GetConfigThenValidate(d: ConfigureDialog) returns (config: map<string, string>, valid: bool)
    requires d.Valid()
    modifies d
    ensures valid
    ensures "identifier" in config && config["identifier"] == d.identifierText
  {
    config := d.GetConfig();
    EncodeEntries(d.State());
    assert "identifier" in ConfigKeys;
    valid := d.Validate(1);
  }

  /** getConfig then setConfig on one dialog: the save-and-reload of a
      configuration succeeds and leaves every widget as it was. */
  method SaveThenLoad(d: ConfigureDialog) returns (r: Outcome)
    requires d.Valid()
    modifies d
    ensures r == Pass
    ensures d.State() == old(d.State()).(head := old(d.HeadState()).(previousIdentifier := old(d.identifierText)))
  {
    var config := d.GetConfig();
    GetConfigThenSetConfig(d.State(), d.State());
    r := d.SetConfig(config);
  }
}
