/** The page controller: the recalculation triggered by the Calculate
    button and by the view toggles, and the bandwidth checkbox. Its three
    variables (the view mode, whether band markers are enabled, and the last
    Q and f0) are a state record; what it writes to the page and the chart
    is abstracted into a `Screen` record inside that state. */
module App {
  import opened Wrappers
  import opened Numbers
  import opened Analysis
  import opened MathCore
  import opened Utils
  import opened UI

  /** Which response the chart shows: impedance magnitude or current. */
  datatype Mode = ZMode | IMode

  /** The chart's data. */
  datatype Plot =
    | Blank
    | MagnitudePlot(f: seq<real>, mag: seq<real>)
    | CurrentPlot(f: seq<real>, cur: seq<real>, vin: real)

  /** The chart's band-marker setting: never set, switched off, or a band. */
  datatype BandMarker = Unset | Off | Marker(f1: real, f2: real, enabled: bool)

  /** The bandwidth note under the chart: empty or naming the band edges. */
  datatype BandNote = NoteEmpty | NoteBand(f1: real, f2: real)

  /** What the page currently shows. `active` is the highlighted toggle. */
  datatype Screen = Screen(
    results: Option<Resonance>,
    badge: Option<QBadge>,
    error: string,
    plot: Plot,
    marker: BandMarker,
    note: BandNote,
    active: Mode)

  /** The remembered quality factor and resonant frequency. */
  datatype LastRes = LastRes(q: real, f0: real)

  datatype State = State(mode: Mode, bwEnabled: bool, lastRes: Option<LastRes>, screen: Screen)

  /** The controller before the first recalculation: impedance view, band
      markers enabled, nothing remembered, nothing shown. */
  const Initial: State :=
    State(ZMode, true, None, Screen(None, None, "", Blank, Unset, NoteEmpty, ZMode))

  /** The number of sweep samples the controller always asks for. */
  const SweepPoints: int := 400

  /** The sweep window framing the resonance: from f0/20, but never below
      1 Hz, up to 20 f0. */
  function SweepWindow(f0: real): (w: SweepRange)
    ensures w.fMin >= 1.0 && w.fMin >= f0 / 20.0
    ensures w.fMin == 1.0 || w.fMin == f0 / 20.0
    ensures w.fMax == 20.0 * f0
  {
    SweepRange(if f0 / 20.0 > 1.0 then f0 / 20.0 else 1.0, f0 * 20.0)
  }

  /** The window is a proper range exactly when f0 exceeds 1/20 Hz; from
      20 Hz up it is centred on f0 in log scale, spanning a factor of 400. */
  lemma SweepWindowShape(f0: real)
    requires f0 > 0.0
    ensures var w := SweepWindow(f0);
      && (w.fMin < w.fMax <==> f0 > 1.0 / 20.0)
      && (f0 >= 20.0 ==> w.fMin * w.fMax == f0 * f0 && w.fMax == 400.0 * w.fMin)
      && (f0 >= 1.0 ==> w.fMin <= f0 <= w.fMax)
  {
  }

  /** The sweep the current mode calls for, over the window, as chart data. */
  function SweepForMode(m: Functions, mode: Mode, v: Params, w: SweepRange): (res: Result<Plot, CoreError>)
    requires Lawful(m)
    requires v.r > 0.0 && v.l > 0.0 && v.c > 0.0
    requires w.fMin > 0.0 && w.fMax > 0.0
    ensures res.Success? <==> w.fMin < w.fMax
    ensures res.Failure? ==> res.error == BadSweepRange
    ensures res.Success? ==> match mode
      case ZMode =>
        var s := SweepMag(m, Finite(v.r), Finite(v.l), Finite(v.c), Finite(w.fMin), Finite(w.fMax), SweepPoints);
        && s.Success?
        && res.value == MagnitudePlot(s.value.f, s.value.mag)
        && |res.value.f| == SweepPoints && |res.value.mag| == SweepPoints
      case IMode =>
        var s := SweepI(m, Finite(v.r), Finite(v.l), Finite(v.c), Finite(w.fMin), Finite(w.fMax), SweepPoints, v.vin);
        && s.Success?
        && res.value == CurrentPlot(s.value.f, s.value.cur, v.vin)
        && |res.value.f| == SweepPoints && |res.value.cur| == SweepPoints
  {
    var r, l, c, lo, hi := Finite(v.r), Finite(v.l), Finite(v.c), Finite(w.fMin), Finite(w.fMax);
    match mode
    case ZMode =>
      (match SweepMag(m, r, l, c, lo, hi, SweepPoints)
       case Failure(e) => Failure(e)
       case Success(s) => Success(MagnitudePlot(s.f, s.mag)))
    case IMode =>
      (match SweepI(m, r, l, c, lo, hi, SweepPoints, v.vin)
       case Failure(e) => Failure(e)
       case Success(s) => Success(CurrentPlot(s.f, s.cur, v.vin)))
  }

  /** The resonance figures a recalculation with these inputs computes,
      when validation and calculation both succeed. */
  function Calculated(m: Functions, raw: RawInputs): (res: Option<Resonance>)
    requires Lawful(m)
    ensures res.Some? <==> ParseAndValidate(raw).Success?
    ensures res.Some? ==> res.value.q > 0.0 && res.value.f0 > 0.0
  {
    match ParseAndValidate(raw)
    case Failure(_) => None
    case Success(v) =>
      match CalcCore(m, Finite(v.r), Finite(v.l), Finite(v.c), Finite(v.f))
      case Failure(_) => None
      case Success(res) => Some(res)
  }

  /** The part of a recalculation that follows a successful calculation:
      the figures and badge are shown, the error line is cleared and Q and
      f0 are remembered at once; the sweep over the window follows, and a
      sweep failure only shows its message, leaving the previous plot, band
      markers and note in place. A full success plots the sweep for the
      current mode and sets the half-power band markers, enabled as the
      checkbox says, with the note naming the same band only when enabled. */
  function ShowResults(m: Functions, st: State, v: Params, res: Resonance): (st': State)
    requires Lawful(m)
    requires v.r > 0.0 && v.l > 0.0 && v.c > 0.0
    requires res.q > 0.0 && res.f0 > 0.0
    ensures st'.mode == st.mode && st'.bwEnabled == st.bwEnabled && st'.screen.active == st.screen.active
    ensures st'.lastRes == Some(LastRes(res.q, res.f0))
    ensures st'.screen.results == Some(res) && st'.screen.badge == Some(RenderQBadge(Finite(res.q)))
    ensures st'.screen.error == "" <==> res.f0 > 1.0 / 20.0
    ensures res.f0 <= 1.0 / 20.0 ==>
      && st'.screen.error == CoreMessage(BadSweepRange)
      && st'.screen.plot == st.screen.plot
      && st'.screen.marker == st.screen.marker
      && st'.screen.note == st.screen.note
    ensures res.f0 > 1.0 / 20.0 ==>
      var sweep := SweepForMode(m, st.mode, v, SweepWindow(res.f0));
      var band := ComputeBand(m, Finite(res.q), Finite(res.f0));
      && sweep.Success? && st'.screen.plot == sweep.value
      && band.Success? && st'.screen.marker == Marker(band.value.f1, band.value.f2, st.bwEnabled)
      && st'.screen.note == (if st.bwEnabled then NoteBand(band.value.f1, band.value.f2) else NoteEmpty)
  {
    var shown := st.screen.(results := Some(res), badge := Some(RenderQBadge(Finite(res.q))), error := "");
    var computed := st.(lastRes := Some(LastRes(res.q, res.f0)), screen := shown);
    var w := SweepWindow(res.f0);
    SweepWindowShape(res.f0);
    match SweepForMode(m, st.mode, v, w)
    case Failure(e) => computed.(screen := shown.(error := CoreMessage(e)))
    case Success(p) =>
      match ComputeBand(m, Finite(res.q), Finite(res.f0))
      case Failure(e) => computed.(screen := shown.(plot := p, error := CoreMessage(e)))
      case Success(b) =>
        computed.(screen := shown.(
          plot := p,
          marker := Marker(b.f1, b.f2, st.bwEnabled),
          note := if st.bwEnabled then NoteBand(b.f1, b.f2) else NoteEmpty))
  }

  /** One recalculation. Validation failing shows its message and changes
      nothing else; the calculation itself cannot fail once validation has
      passed. Otherwise the figures are shown and remembered and the sweep
      and band follow as `ShowResults` describes. Mode and checkbox state
      never change here. */
  function RecalcAndRender(m: Functions, st: State, raw: RawInputs): (st': State)
    requires Lawful(m)
    ensures st'.mode == st.mode && st'.bwEnabled == st.bwEnabled && st'.screen.active == st.screen.active
    ensures ParseAndValidate(raw).Failure? ==>
      st' == st.(screen := st.screen.(error := ValidationMessage(ParseAndValidate(raw).error)))
    ensures Calculated(m, raw).Some? ==>
      && st'.lastRes == Some(LastRes(Calculated(m, raw).value.q, Calculated(m, raw).value.f0))
      && st'.screen.results == Calculated(m, raw)
      && st'.screen.badge == Some(RenderQBadge(Finite(Calculated(m, raw).value.q)))
    ensures Calculated(m, raw).None? ==> st'.lastRes == st.lastRes
    ensures st'.screen.error == "" <==> Calculated(m, raw).Some? && Calculated(m, raw).value.f0 > 1.0 / 20.0
    ensures Calculated(m, raw).Some? && Calculated(m, raw).value.f0 <= 1.0 / 20.0 ==>
      && st'.screen.error == CoreMessage(BadSweepRange)
      && st'.screen.plot == st.screen.plot
      && st'.screen.marker == st.screen.marker
      && st'.screen.note == st.screen.note
    ensures st'.screen.error == "" ==>
      var v := ParseAndValidate(raw).value;
      var res := Calculated(m, raw).value;
      var sweep := SweepForMode(m, st.mode, v, SweepWindow(res.f0));
      var band := ComputeBand(m, Finite(res.q), Finite(res.f0));
      && sweep.Success? && st'.screen.plot == sweep.value
      && band.Success? && st'.screen.marker == Marker(band.value.f1, band.value.f2, st.bwEnabled)
      && st'.screen.note == (if st.bwEnabled then NoteBand(band.value.f1, band.value.f2) else NoteEmpty)
  {
    match ParseAndValidate(raw)
    case Failure(e) => st.(screen := st.screen.(error := ValidationMessage(e)))
    case Success(v) =>
      match CalcCore(m, Finite(v.r), Finite(v.l), Finite(v.c), Finite(v.f))
      case Failure(e) => st.(screen := st.screen.(error := CoreMessage(e)))
      case Success(res) => ShowResults(m, st, v, res)
  }

  /** What a clean recalculation (one whose calculation succeeds with f0
      above 1/20 Hz) draws: the plot has the current mode's
      kind with one point per sweep sample, and the band markers bracket f0
      with width f0/Q and geometric mean f0. */
  lemma CleanRecalcShape(m: Functions, st: State, raw: RawInputs)
    requires Lawful(m)
    requires Calculated(m, raw).Some? && Calculated(m, raw).value.f0 > 1.0 / 20.0
    ensures var st' := RecalcAndRender(m, st, raw);
      var res := Calculated(m, raw).value;
      && (st.mode == ZMode ==> st'.screen.plot.MagnitudePlot? && |st'.screen.plot.f| == SweepPoints)
      && (st.mode == IMode ==> st'.screen.plot.CurrentPlot? && |st'.screen.plot.f| == SweepPoints)
      && st'.screen.marker.Marker? && st'.screen.marker.enabled == st.bwEnabled
      && 0.0 < st'.screen.marker.f1 < res.f0 < st'.screen.marker.f2
      && st'.screen.marker.f2 - st'.screen.marker.f1 == res.f0 / res.q
      && st'.screen.marker.f1 * st'.screen.marker.f2 == res.f0 * res.f0
  {
  }

  /** The impedance toggle: switch to the impedance view and recalculate. */
  function ToggleZ(m: Functions, st: State, raw: RawInputs): (st': State)
    requires Lawful(m)
    ensures st'.mode == ZMode && st'.screen.active == ZMode
    ensures st'.bwEnabled == st.bwEnabled
    ensures st'.screen.error == "" ==> st'.screen.plot.MagnitudePlot?
  {
    RecalcAndRender(m, st.(mode := ZMode, screen := st.screen.(active := ZMode)), raw)
  }

  /** The current toggle: switch to the current view and recalculate. */
  function ToggleI(m: Functions, st: State, raw: RawInputs): (st': State)
    requires Lawful(m)
    ensures st'.mode == IMode && st'.screen.active == IMode
    ensures st'.bwEnabled == st.bwEnabled
    ensures st'.screen.error == "" ==> st'.screen.plot.CurrentPlot?
  {
    RecalcAndRender(m, st.(mode := IMode, screen := st.screen.(active := IMode)), raw)
  }

  /** JavaScript truthiness of a number that is known to be finite. */
  predicate Truthy(x: real) {
    x != 0.0
  }

  /** The bandwidth checkbox. Unchecking switches the markers off and
      empties the note. Checking recomputes the band from the remembered
      Q and f0 when both are present and truthy, and otherwise only records
      the checkbox; a failing band computation is swallowed. */
  function ToggleBandwidth(m: Functions, st: State, checked: bool): (st': State)
    requires Lawful(m)
    ensures st'.bwEnabled == checked
    ensures st'.mode == st.mode && st'.lastRes == st.lastRes
    ensures st'.screen.error == st.screen.error && st'.screen.plot == st.screen.plot
    ensures st'.screen.results == st.screen.results && st'.screen.badge == st.screen.badge
    ensures st'.screen.active == st.screen.active
    ensures !checked ==> st'.screen.marker == Off && st'.screen.note == NoteEmpty
    ensures checked && st.lastRes.Some? && st.lastRes.value.q > 0.0 && st.lastRes.value.f0 > 0.0 ==>
      var q, f0 := st.lastRes.value.q, st.lastRes.value.f0;
      var band := ComputeBand(m, Finite(q), Finite(f0));
      && band.Success?
      && st'.screen.marker == Marker(band.value.f1, band.value.f2, true)
      && st'.screen.note == NoteBand(st'.screen.marker.f1, st'.screen.marker.f2)
      && 0.0 < st'.screen.marker.f1 < f0 < st'.screen.marker.f2
      && st'.screen.marker.f2 - st'.screen.marker.f1 == f0 / q
      && st'.screen.marker.f1 * st'.screen.marker.f2 == f0 * f0
    ensures checked && st.lastRes.None? ==> st' == st.(bwEnabled := true)
  {
    var st1 := st.(bwEnabled := checked);
    if !checked then
      st1.(screen := st1.screen.(marker := Off, note := NoteEmpty))
    else if st.lastRes.Some? && Truthy(st.lastRes.value.q) && Truthy(st.lastRes.value.f0) then
      match ComputeBand(m, Finite(st.lastRes.value.q), Finite(st.lastRes.value.f0))
      case Failure(_) => st1
      case Success(b) =>
        st1.(screen := st1.screen.(marker := Marker(b.f1, b.f2, true), note := NoteBand(b.f1, b.f2)))
    else st1
  }

  /** Every remembered Q and f0 comes from a successful calculation, so both
      are positive; this is what the controller's steps preserve. */
  ghost predicate Remembered(st: State) {
    st.lastRes.Some? ==> st.lastRes.value.q > 0.0 && st.lastRes.value.f0 > 0.0
  }

  /** The user actions the controller reacts to; the form's values travel
      with the actions that read them. */
  datatype Event =
    | Calculate(raw: RawInputs)
    | ShowImpedance(raw: RawInputs)
    | ShowCurrent(raw: RawInputs)
    | SetBandwidth(checked: bool)

  function Step(m: Functions, st: State, ev: Event): (st': State)
    requires Lawful(m)
    ensures Remembered(st) ==> Remembered(st')
  {
    match ev
    case Calculate(raw) => RecalcAndRender(m, st, raw)
    case ShowImpedance(raw) => ToggleZ(m, st, raw)
    case ShowCurrent(raw) => ToggleI(m, st, raw)
    case SetBandwidth(checked) => ToggleBandwidth(m, st, checked)
  }

  /** The state after a sequence of actions, first to last. */
  function Run(m: Functions, st: State, evs: seq<Event>): State
    requires Lawful(m)
    decreases |evs|
  {
    if |evs| == 0 then st else Run(m, Step(m, st, evs[0]), evs[1..])
  }

  /** Running one more action is one more step. */
  lemma {:induction false} RunSnoc(m: Functions, st: State, evs: seq<Event>, ev: Event)
    requires Lawful(m)
    ensures Run(m, st, evs + [ev]) == Step(m, Run(m, st, evs), ev)
    decreases |evs|
  {
    if |evs| == 0 {
      assert evs + [ev] == [ev];
    } else {
      assert (evs + [ev])[1..] == evs[1..] + [ev];
      RunSnoc(m, Step(m, st, evs[0]), evs[1..], ev);
    }
  }

  /** The mode chosen by the last view toggle in the sequence, or `mode`
      when there is none. */
  function LastToggle(evs: seq<Event>, mode: Mode): Mode {
    if |evs| == 0 then mode
    else match evs[|evs| - 1]
      case ShowImpedance(_) => ZMode
      case ShowCurrent(_) => IMode
      case _ => LastToggle(evs[..|evs| - 1], mode)
  }

  /** The checkbox state set by the last bandwidth action in the sequence,
      or `enabled` when there is none. */
  function LastCheckbox(evs: seq<Event>, enabled: bool): bool {
    if |evs| == 0 then enabled
    else match evs[|evs| - 1]
      case SetBandwidth(checked) => checked
      case _ => LastCheckbox(evs[..|evs| - 1], enabled)
  }

  /** Only the view toggles change the mode and only the checkbox changes
      whether band markers are enabled: after any sequence of actions each
      is what the last action of its kind set. */
  lemma {:induction false} ModeAndCheckboxFollowLastAction(m: Functions, st: State, evs: seq<Event>)
    requires Lawful(m)
    ensures Run(m, st, evs).mode == LastToggle(evs, st.mode)
    ensures Run(m, st, evs).bwEnabled == LastCheckbox(evs, st.bwEnabled)
    decreases |evs|
  {
    if |evs| > 0 {
      var init, ev := evs[..|evs| - 1], evs[|evs| - 1];
      assert evs == init + [ev];
      RunSnoc(m, st, init, ev);
      ModeAndCheckboxFollowLastAction(m, st, init);
    }
  }

  /** Whatever the actions, the remembered Q and f0 stay positive, so
      re-enabling the band markers always recomputes the band. */
  lemma {:induction false} RunRemembersPositive(m: Functions, st: State, evs: seq<Event>)
    requires Lawful(m)
    requires Remembered(st)
    ensures Remembered(Run(m, st, evs))
    decreases |evs|
  {
    if |evs| > 0 {
      RunRemembersPositive(m, Step(m, st, evs[0]), evs[1..]);
    }
  }

  /** The first recalculation with the form's starting values
      (R = 100 ohm, L = 0.01 H, C = 1 uF, f = 1 kHz, Vin = 1 V) succeeds,
      remembers Q = 1 and f0 between 1591.5 and 1591.6 Hz, and draws the
      impedance sweep. */
  lemma DefaultsRender(m: Functions)
    requires Lawful(m)
    ensures var st := RecalcAndRender(m, Initial,
              RawInputs(Finite(100.0), Finite(0.01), Finite(0.000001), Finite(1000.0), Finite(1.0)));
      && st.lastRes.Some? && st.lastRes.value.q == 1.0
      && 1591.5 < st.lastRes.value.f0 < 1591.6
      && st.screen.error == ""
      && st.screen.plot.MagnitudePlot?
  {
    var raw := RawInputs(Finite(100.0), Finite(0.01), Finite(0.000001), Finite(1000.0), Finite(1.0));
    var res := Calculated(m, raw).value;
    assert SeriesRlcFigures(100.0, 0.01, 0.000001, 1000.0, res);
    UnitQuality(res.q, res.f0);
  }

  /** With R = 100, L = 0.01 and C = 1e-6 the resonance identities force
      Q = 1 and 2 pi f0 = 10^4, so f0 = 5000/pi lies between 1591.5 and
      1591.6 Hz, well above 1/20 Hz. */
  lemma UnitQuality(q: real, f0: real)
    requires q > 0.0
    requires q * 100.0 == Omega(f0) * 0.01
    requires Omega(f0) * Omega(f0) * (0.01 * 0.000001) == 1.0
    ensures q == 1.0
    ensures 1591.5 < f0 < 1591.6
  {
    var w0 := Omega(f0);
    assert w0 == q * 10000.0;
    SquareOfProduct(q, 10000.0);
    assert (q * q) * 100000000.0 == 100000000.0;
    if q < 1.0 {
      SquareStrict(q, 1.0);
    } else if q > 1.0 {
      SquareStrict(1.0, q);
    }
    assert Omega(f0) == 10000.0;
  }
}
