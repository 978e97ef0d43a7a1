/**
 * The control state of the interactive spectrum viewer (the `main` record
 * that `run` threads through its loop) and the transitions of that loop,
 * written as functions on values. One function per phase of an iteration:
 * navigation to the current trace, selection of segments and synthetics,
 * window selection on recalculation, the quality gate, and the prompt.
 * Everything the loop obtains from other modules (default windows,
 * SNR and misfit of the spectrum, what remove_station and process_input
 * leave behind) is supplied per iteration in a `Pass` record. Line numbers
 * refer to frospy/spectrum/spectrum_commandline.py.
 */
module Commandline {
  import opened Python
  import opened Streams

  /** The data and synthetic streams, set up by read_data and search_stream. */
  datatype StreamState = StreamState(
    st: seq<Trace>,               // the full data stream
    stWork: seq<Trace>,           // the working stream (a search scope or all of st)
    syn: Option<seq<string>>,     // the synthetic file names, None when not given
    stSyn: seq<seq<Trace>>,       // the synthetic streams
    stSynWork: seq<seq<Trace>>,   // the working synthetic streams
    streamOrder: string)          // "same" when synthetics line up with data by position

  /** The time and frequency windows of the spectrum and where they come from. */
  datatype WindowState = WindowState(
    tw: Option<Window>,
    twOrg: Option<Window>,        // the reference time window
    fw: Option<Window>,
    qwindow: Option<Window>,      // a one-shot time window requested by the Q-cycle
    setSegTw: bool,               // a pick sets the time window
    setSegFw: bool)               // a pick sets the frequency window

  /** The last station reported, its misfits, and the rejection thresholds. */
  datatype Quality = Quality(
    currentStation: Option<Station>,
    mf: Option<seq<MisfitEntry>>,
    minSnr: Option<real>,
    maxMf: Option<real>)

  /** Keyword options and display defaults the loop does not change. */
  datatype Options = Options(
    segReference: bool,
    saveStream: Option<bool>,     // None while the keyword is absent
    mfac: int,                    // magnification of synthetics
    weighting: string,
    updateMaps: bool,
    zoomSl: real,
    fs: int,
    noisewin: bool,
    overlap: bool,
    rmf: Option<seq<MisfitEntry>>,
    cmf: Option<seq<MisfitEntry>>)

  /** The fields of `main` that the loop reads or writes, grouped by concern. */
  datatype Attribs = Attribs(
    streams: StreamState,
    segments: Option<seq<Pick>>,  // the picks, None without a segment file
    i: int,                       // station index into the working stream
    iOld: Option<int>,            // station index to return to when a search scope ends
    j: int,                       // segment index among the current station's picks
    tr: Option<Trace>,            // the current data trace
    synTrs: seq<Trace>,           // the synthetics for the current trace
    windows: WindowState,
    quality: Quality,
    recalc: bool,
    savefig: bool,
    options: Options)

  /** `if main.syn:` — synthetic files were given (a non-empty list). */
  predicate HasSynthetics(m: Attribs) {
    m.streams.syn.Some? && |m.streams.syn.value| > 0
  }

  // ===========================================================================
  // set_defaults_init_main
  // ===========================================================================

  /** The loop's starting values. */
  predicate LoopStart(m: Attribs) {
    && m.i == 0 && m.iOld.None? && m.j == 0
    && m.recalc && !m.savefig && m.segments.None?
    && m.windows.qwindow.None?
    && m.quality == Quality(None, None, None, None)
  }

  /** The display defaults; only seg_reference and a given save_stream survive. */
  function DefaultOptions(o: Options): (r: Options)
    ensures r.segReference == o.segReference
    ensures o.saveStream.Some? ==> r.saveStream == o.saveStream
    ensures o.saveStream.None? ==> r.saveStream == Some(false)
    ensures r == Options(o.segReference, r.saveStream, 1, "integrate", true, 5.0, 10, false, false, None, None)
  {
    o.(weighting := "integrate", updateMaps := true, zoomSl := 5.0,
       saveStream := if o.saveStream.None? then Some(false) else o.saveStream,
       fs := 10, noisewin := false, overlap := false, rmf := None, cmf := None, mfac := 1)
  }

  /**
   * The reference time window is a copy of tw, no Q-cycle window is pending,
   * a pick always sets the time window and sets the frequency window only
   * with seg_reference and no fw given.
   */
  function DefaultWindows(w: WindowState, segReference: bool): (r: WindowState)
    ensures r == w.(twOrg := w.tw, qwindow := None, setSegTw := true, setSegFw := r.setSegFw)
    ensures r.setSegFw <==> segReference && w.fw.None?
  {
    var segFw, segTw :=
      if segReference then (if w.fw.Some? then false else true) else false,
      true;
    w.(twOrg := if w.tw.Some? then w.tw else None, qwindow := None, setSegFw := segFw, setSegTw := segTw)
  }

  /**
   * The defaults: counters at zero, no picks loaded yet, no thresholds and
   * no misfits, with DefaultOptions and DefaultWindows; the streams and the
   * current trace are left alone.
   */
  function SetDefaults(m: Attribs): (r: Attribs)
    ensures LoopStart(r)
    ensures r.streams == m.streams && r.tr == m.tr && r.synTrs == m.synTrs
    ensures r.options == DefaultOptions(m.options)
    ensures r.windows == DefaultWindows(m.windows, m.options.segReference)
  {
    m.(recalc := true, segments := None, savefig := false, i := 0, iOld := None, j := 0,
       options := DefaultOptions(m.options), quality := m.quality.(currentStation := None, mf := None, minSnr := None, maxMf := None),
       windows := DefaultWindows(m.windows, m.options.segReference))
  }

  /** Applying the defaults a second time changes nothing. */
  lemma SetDefaultsIdempotent(m: Attribs)
    ensures SetDefaults(SetDefaults(m)) == SetDefaults(m)
  {
  }

  // ===========================================================================
  // Loop head: navigation (lines 109-133)
  // ===========================================================================

  datatype Nav = Empty | Landed(main: Attribs)

  /** Only the navigation fields differ between `m` and `n`. */
  predicate NavFrame(m: Attribs, n: Attribs) {
    n == m.(i := n.i, iOld := n.iOld,
            streams := m.streams.(stWork := n.streams.stWork, stSynWork := n.streams.stSynWork))
  }

  /**
   * Stop on an empty working stream; past its end, return to the saved
   * station (and the full streams) or else wrap to the first station.
   */
  function Navigate(m: Attribs): (r: Nav)
    ensures r.Empty? <==> m.streams.stWork == []
    ensures r.Landed? ==> NavFrame(m, r.main)
    ensures r.Landed? && m.i < |m.streams.stWork| ==> r.main == m
    ensures r.Landed? && m.i >= |m.streams.stWork| && m.iOld.Some? ==>
              && r.main.i == m.iOld.value && r.main.iOld.None?
              && r.main.streams.stWork == m.streams.st
              && r.main.streams.stSynWork == (if HasSynthetics(m) then m.streams.stSyn else m.streams.stSynWork)
    ensures r.Landed? && m.i >= |m.streams.stWork| && m.iOld.None? ==>
              r.main == m.(i := 0)
  {
    var s := m.streams;
    if |s.stWork| == 0 then Empty
    else if m.i >= |s.stWork| && m.iOld.Some? then
      Landed(m.(streams := s.(stWork := s.st,
                              stSynWork := if HasSynthetics(m) then s.stSyn else s.stSynWork),
                i := m.iOld.value, iOld := None))
    else if m.i >= |s.stWork| then
      Landed(m.(i := 0))
    else
      Landed(m)
  }

  /**
   * After navigation the station index is usable exactly when it was usable
   * already, or it was wrapped to 0, or the restored index fits the full
   * stream: nothing checks a restored index against st.
   */
  lemma NavigateLandsOnTrace(m: Attribs)
    requires Navigate(m).Landed?
    ensures var n := Navigate(m).main;
            var s := m.streams;
            IsIndex(n.streams.stWork, n.i) <==>
              || (m.i < |s.stWork| && IsIndex(s.stWork, m.i))
              || (m.i >= |s.stWork| && m.iOld.None?)
              || (m.i >= |s.stWork| && m.iOld.Some? && IsIndex(s.st, m.iOld.value))
  {
  }

  /** Once the index is usable, navigating again changes nothing. */
  lemma NavigateSettles(m: Attribs)
    requires Navigate(m).Landed? && IsIndex(Navigate(m).main.streams.stWork, Navigate(m).main.i)
    ensures Navigate(Navigate(m).main) == Navigate(m)
  {
  }

  // ===========================================================================
  // Current trace and segment index (lines 135-144)
  // ===========================================================================

  /** An uncaught IndexError, the three places the loop can raise one. */
  datatype Fault = TraceIndex | SyntheticIndex | MisfitIndex

  datatype Outcome<T> = Ok(value: T) | Crash(fault: Fault)

  datatype Focused = Focused(main: Attribs, trace: Trace)

  /** `len(main.segments.select(station=...))`, 0 without segments. */
  function PickCount(m: Attribs, station: Station): (r: nat)
    ensures m.segments.None? ==> r == 0
    ensures m.segments.Some? ==> r <= |m.segments.value|
    ensures r > 0 <==> m.segments.Some? && exists q :: q in m.segments.value && q.station == station
  {
    if m.segments.Some? then
      SelectPicksMembers(m.segments.value, station);
      var s := SelectPicks(m.segments.value, station);
      assert s != [] ==> s[0] in s;
      |s|
    else 0
  }

  /** `if main.j >= maxj and maxj != 0: main.j = 0` */
  function WrapIndex(j: int, maxj: nat): (r: int)
    ensures r != j <==> j >= maxj && maxj != 0
    ensures r == j || r == 0
  {
    if j >= maxj && maxj != 0 then 0 else j
  }

  /**
   * Sort the picks by fw2 and wrap the segment index to 0 when it has run
   * past the station's picks.
   */
  function WrapSegments(m: Attribs, station: Station): (r: Attribs)
    ensures r == m.(segments := r.segments, j := r.j)
    ensures m.segments.None? ==> r == m
    ensures m.segments.Some? ==> r.segments == Some(SortByFw2(m.segments.value))
    ensures r.j == WrapIndex(m.j, PickCount(m, station))
  {
    if m.segments.Some? then
      var segs := SortByFw2(m.segments.value);
      SortKeepsStationCount(m.segments.value, station);
      m.(segments := Some(segs), j := WrapIndex(m.j, |SelectPicks(segs, station)|))
    else m
  }

  /** After the sort the picks are in fw2 order and each station keeps its count. */
  lemma WrapSegmentsSorts(m: Attribs, station: Station, other: Station)
    requires m.segments.Some?
    ensures var r := WrapSegments(m, station);
            SortedByFw2(r.segments.value)
            && multiset(r.segments.value) == multiset(m.segments.value)
            && PickCount(r, other) == PickCount(m, other)
  {
    SortSorted(m.segments.value);
    SortKeepsStationCount(m.segments.value, other);
  }

  /** Take the current trace, clear the synthetics, then WrapSegments. */
  function Focus(m: Attribs): (r: Outcome<Focused>)
    ensures r.Crash? <==> !IsIndex(m.streams.stWork, m.i)
    ensures r.Crash? ==> r.fault == TraceIndex
    ensures r.Ok? ==> At(m.streams.stWork, m.i) == Some(r.value.trace)
    ensures r.Ok? ==> r.value.main == WrapSegments(m.(tr := Some(r.value.trace), synTrs := []), r.value.trace.station)
  {
    match At(m.streams.stWork, m.i)
    case None => Crash(TraceIndex)
    case Some(t) => Ok(Focused(WrapSegments(m.(tr := Some(t), synTrs := []), t.station), t))
  }

  // ===========================================================================
  // Synthetics for the current trace (lines 147-153)
  // ===========================================================================

  /** By position when stream_order is 'same', otherwise by station name. */
  function Synthetics(f: Focused): (r: Outcome<Attribs>)
    ensures var m := f.main;
            r.Crash? <==> HasSynthetics(m) && m.streams.streamOrder == "same"
                          && exists k :: 0 <= k < |m.streams.stSynWork| && !IsIndex(m.streams.stSynWork[k], m.i)
    ensures r.Crash? ==> r.fault == SyntheticIndex
    ensures r.Ok? ==> r.value == f.main.(synTrs := r.value.synTrs)
    ensures r.Ok? && !HasSynthetics(f.main) ==> r.value == f.main
    ensures var m := f.main;
            r.Ok? && HasSynthetics(m) && m.streams.streamOrder == "same" ==>
              |r.value.synTrs| == |m.streams.stSynWork|
              && forall k :: 0 <= k < |m.streams.stSynWork| ==> At(m.streams.stSynWork[k], m.i) == Some(r.value.synTrs[k])
    ensures var m := f.main;
            r.Ok? && HasSynthetics(m) && m.streams.streamOrder != "same" ==>
              r.value.synTrs == SelectStation(Concat(m.streams.stSynWork), f.trace.station)
    ensures var m := f.main;
            r.Ok? && HasSynthetics(m) && m.streams.streamOrder != "same" ==>
              forall t :: t in r.value.synTrs <==>
                t.station == f.trace.station && exists k :: 0 <= k < |m.streams.stSynWork| && t in m.streams.stSynWork[k]
  {
    SelectStationMembers(Concat(f.main.streams.stSynWork), f.trace.station);
    ConcatMembers(f.main.streams.stSynWork);
    var m := f.main;
    if !HasSynthetics(m) then Ok(m)
    else if m.streams.streamOrder == "same" then
      match SynByPosition(m.streams.stSynWork, m.i)
      case None => Crash(SyntheticIndex)
      case Some(s) => Ok(m.(synTrs := s))
    else
      Ok(m.(synTrs := SynByStation(m.streams.stSynWork, f.trace.station)))
  }

  // ===========================================================================
  // Windows on recalculation (lines 160-202)
  // ===========================================================================

  /** What the loop obtains from other modules before the prompt of one iteration. */
  datatype Env = Env(
    defaultTw: Window,            // timewindow(tr, [None]) ...
    defaultTwOrg: Option<Window>, // ... and the reference window it returns
    defaultFw: Window,            // freqwindow([None])
    snr: real,                    // spectrum.signal2noise(pick)
    misfit: seq<MisfitEntry>,     // spectrum.misfit(pick)
    removed: Attribs)             // main after remove_station

  /** One iteration's outside values and process_input's answer, None to quit. */
  datatype Pass = Pass(env: Env, reply: Option<Reply>)

  datatype Reply = Reply(pick: Option<Pick>, main: Attribs)

  /** `main.segments.select(station=...)[main.j]`, None for the IndexError. */
  function CurrentPick(m: Attribs, station: Station): (r: Option<Pick>)
    ensures r.Some? <==> m.segments.Some? && IsIndex(SelectPicks(m.segments.value, station), m.j)
    ensures r.Some? ==> r.value.station == station && r.value in m.segments.value
  {
    if m.segments.Some? then
      SelectPicksMembers(m.segments.value, station);
      At(SelectPicks(m.segments.value, station), m.j)
    else None
  }

  datatype Selection = Selection(main: Attribs, pick: Option<Pick>)

  /**
   * The time window starts from the reference window, a pick may override
   * both windows (the frequency window padded by 0.05 mHz on each side),
   * missing windows come from the defaults, and a pending Q-cycle window
   * overrides the time window once and is cleared.
   */
  function PickWindows(w: WindowState, pick: Option<Pick>, e: Env): (r: WindowState)
    ensures r == w.(tw := r.tw, twOrg := r.twOrg, fw := r.fw, qwindow := None)
    ensures r.tw.Some? && r.fw.Some?
    ensures w.qwindow.Some? ==> r.tw == w.qwindow
    ensures w.qwindow.None? && pick.Some? && w.setSegTw ==>
              r.tw == Some(Window(pick.value.tw1, pick.value.tw2))
    ensures w.qwindow.None? && !(pick.Some? && w.setSegTw) && w.twOrg.Some? ==> r.tw == w.twOrg
    ensures w.qwindow.None? && !(pick.Some? && w.setSegTw) && w.twOrg.None? && w.tw.Some? ==> r.tw == w.tw
    ensures (pick.Some? && w.setSegTw) || w.twOrg.Some? || w.tw.Some? ==> r.twOrg == w.twOrg
    ensures !((pick.Some? && w.setSegTw) || w.twOrg.Some? || w.tw.Some?) ==>
              r.twOrg == e.defaultTwOrg && (w.qwindow.None? ==> r.tw == Some(e.defaultTw))
    ensures pick.Some? && w.setSegFw ==>
              r.fw == Some(Window(pick.value.fw1 - 0.05, pick.value.fw2 + 0.05))
    ensures !(pick.Some? && w.setSegFw) ==> r.fw == (if w.fw.Some? then w.fw else Some(e.defaultFw))
  {
    var tw1 := if w.twOrg.Some? then w.twOrg else w.tw;
    var tw2 := if pick.Some? && w.setSegTw then Some(Window(pick.value.tw1, pick.value.tw2)) else tw1;
    var fw2 := if pick.Some? && w.setSegFw then Some(Window(pick.value.fw1 - 0.05, pick.value.fw2 + 0.05))
               else w.fw;
    var tw3, twOrg3 := if tw2.None? then Some(e.defaultTw) else tw2,
                       if tw2.None? then e.defaultTwOrg else w.twOrg;
    var fw3 := if fw2.None? then Some(e.defaultFw) else fw2;
    var tw4 := if w.qwindow.Some? then w.qwindow else tw3;
    w.(tw := tw4, twOrg := twOrg3, fw := fw3, qwindow := None)
  }

  /**
   * Lines 160-202: look up the station's pick at the segment index, choose
   * the windows with it, and record the station as the current one.
   */
  function Windows(m: Attribs, t: Trace, e: Env): (r: Selection)
    ensures r.pick == CurrentPick(m, t.station)
    ensures r.main == m.(windows := PickWindows(m.windows, r.pick, e),
                         quality := m.quality.(currentStation := Some(t.station)))
  {
    var pick := CurrentPick(m, t.station);
    var station := if Some(t.station) != m.quality.currentStation then Some(t.station) else m.quality.currentStation;
    Selection(m.(windows := PickWindows(m.windows, pick, e), quality := m.quality.(currentStation := station)), pick)
  }

  /**
   * A Q-cycle window is used by one recalculation only: recalculating again
   * gives the window the recalculation would have chosen without it, as
   * long as that choice does not fall back on the time window itself.
   */
  lemma QWindowAppliesOnce(m: Attribs, t: Trace, e: Env)
    requires m.windows.qwindow.Some?
    requires || (CurrentPick(m, t.station).Some? && m.windows.setSegTw)
             || m.windows.twOrg.Some?
             || (m.windows.tw.None? && e.defaultTwOrg == Some(e.defaultTw))
    ensures Windows(m, t, e).main.windows.tw == m.windows.qwindow
    ensures Windows(Windows(m, t, e).main, t, e).main.windows.tw == Windows(m.(windows := m.windows.(qwindow := None)), t, e).main.windows.tw
  {
  }

  /**
   * Without a reference window and a pick to override it, a Q-cycle window
   * outlives its recalculation: the time window is not reset, so the next
   * recalculation keeps it.
   */
  lemma QWindowKeptWithoutReference(m: Attribs, t: Trace, e: Env)
    requires m.windows.qwindow.Some? && m.windows.twOrg.None? && m.windows.tw.Some?
    requires !(CurrentPick(m, t.station).Some? && m.windows.setSegTw)
    ensures Windows(Windows(m, t, e).main, t, e).main.windows.tw == m.windows.qwindow
  {
  }

  /** With no picks for the station the index is left alone and the lookup fails. */
  lemma NoPicksForStation(m: Attribs)
    requires Focus(m).Ok? && m.segments.Some?
    requires PickCount(m, Focus(m).value.trace.station) == 0
    ensures Focus(m).value.main.j == m.j
    ensures CurrentPick(Focus(m).value.main, Focus(m).value.trace.station).None?
  {
    var t := Focus(m).value.trace;
    WrapSegmentsSorts(m.(tr := Some(t), synTrs := []), t.station, t.station);
  }

  /**
   * After the wrap-around a pick is found exactly when the station has
   * picks and the index does not reach below the first of them.
   */
  lemma PickFoundAfterWrap(m: Attribs)
    requires Focus(m).Ok?
    ensures var f := Focus(m).value;
            var maxj: int := PickCount(m, f.trace.station);
            CurrentPick(f.main, f.trace.station).Some? <==> m.segments.Some? && maxj > 0 && m.j >= -maxj
  {
    var t := Focus(m).value.trace;
    if m.segments.Some? {
      WrapSegmentsSorts(m.(tr := Some(t), synTrs := []), t.station, t.station);
    }
  }

  /**
   * The pick found is the station's j-th pick by increasing fw2, whatever
   * order the segment file listed them in.
   */
  lemma PickIsByFrequency(m: Attribs)
    requires Focus(m).Ok? && m.segments.Some?
    ensures var f := Focus(m).value;
            CurrentPick(f.main, f.trace.station)
            == At(SortByFw2(SelectPicks(m.segments.value, f.trace.station)), f.main.j)
  {
    var f := Focus(m).value;
    SelectCommutesWithSort(m.segments.value, f.trace.station);
  }

  // ===========================================================================
  // Quality gate (lines 214-246)
  // ===========================================================================

  datatype Verdict = Keep(main: Attribs) | Reject(main: Attribs) | GateCrash(main: Attribs)

  /** `if main.min_snr: if snr_t < main.min_snr:` */
  predicate SnrTooLow(m: Attribs, e: Env): (r: bool)
    ensures r ==> m.quality.minSnr.Some? && e.snr < m.quality.minSnr.value
    ensures m.quality.minSnr.None? || m.quality.minSnr == Some(0.0) ==> !r
    ensures m.quality.minSnr.Some? && m.quality.minSnr.value != 0.0 && e.snr < m.quality.minSnr.value ==> r
  {
    Truthy(m.quality.minSnr) && e.snr < m.quality.minSnr.value
  }

  /**
   * Only with a pick and synthetics: record the misfit, then reject the
   * station for a low SNR or a first misfit above the bound.
   */
  function Gate(m: Attribs, pick: Option<Pick>, e: Env): (r: Verdict)
    ensures !(pick.Some? && m.streams.syn.Some?) ==> r == Keep(m)
    ensures pick.Some? && m.streams.syn.Some? ==> r.main == m.(quality := m.quality.(mf := Some(e.misfit)))
    ensures r.Reject? <==>
              pick.Some? && m.streams.syn.Some?
              && (SnrTooLow(m, e)
                  || (Truthy(m.quality.maxMf) && |e.misfit| > 0 && e.misfit[0].value > m.quality.maxMf.value))
    ensures r.GateCrash? <==>
              pick.Some? && m.streams.syn.Some? && !SnrTooLow(m, e) && Truthy(m.quality.maxMf) && |e.misfit| == 0
  {
    if pick.Some? && m.streams.syn.Some? then
      var m1 := if Some(e.misfit) != m.quality.mf then m.(quality := m.quality.(mf := Some(e.misfit))) else m;
      if SnrTooLow(m1, e) then Reject(m1)
      else if Truthy(m1.quality.maxMf) then
        if |e.misfit| == 0 then GateCrash(m1)
        else if e.misfit[0].value > m1.quality.maxMf.value then Reject(m1)
        else Keep(m1)
      else Keep(m1)
    else Keep(m)
  }

  // ===========================================================================
  // One iteration and the loop (lines 108-263)
  // ===========================================================================

  datatype Stop = NoData | Quit | Crashed(fault: Fault)

  /** How an iteration ends before or at the keyboard prompt. */
  datatype Turn =
    | Halt(why: Stop, main: Attribs)
    | Removed(main: Attribs, pick: Option<Pick>)
    | Prompt(main: Attribs, pick: Option<Pick>)

  /** `main.recalc = True; main.savefig = False` before waiting for input. */
  function Ready(m: Attribs): (r: Attribs)
    ensures r.recalc && !r.savefig && r == m.(recalc := r.recalc, savefig := r.savefig)
  {
    m.(recalc := true, savefig := false)
  }

  /** An iteration up to the prompt; `pick` is the loop's pick variable. */
  function Advance(m: Attribs, pick: Option<Pick>, e: Env): (r: Turn)
    ensures r.Halt? && r.why == NoData <==> m.streams.stWork == []
  {
    match Navigate(m)
    case Empty => Halt(NoData, m)
    case Landed(m1) =>
      match Focus(m1)
      case Crash(f) => Halt(Crashed(f), m1)
      case Ok(fo) =>
        match Synthetics(fo)
        case Crash(f) => Halt(Crashed(f), fo.main)
        case Ok(m3) => Recalculate(m3, fo.trace, pick, e)
  }

  /** Lines 155-253 up to the prompt, for the current trace `t`. */
  function Recalculate(m: Attribs, t: Trace, pick: Option<Pick>, e: Env): (r: Turn)
    ensures !r.Halt? || r.why == Crashed(MisfitIndex)
    ensures r.Removed? <==>
              && m.recalc && CurrentPick(m, t.station).Some? && m.streams.syn.Some?
              && (|| SnrTooLow(m, e)
                  || (Truthy(m.quality.maxMf) && |e.misfit| > 0 && e.misfit[0].value > m.quality.maxMf.value))
    ensures r.Removed? ==> r.main == e.removed && r.pick == CurrentPick(m, t.station)
    ensures r.Halt? <==>
              && m.recalc && CurrentPick(m, t.station).Some? && m.streams.syn.Some?
              && !SnrTooLow(m, e) && Truthy(m.quality.maxMf) && |e.misfit| == 0
  {
    if m.recalc then
      var sel := Windows(m, t, e);
      match Gate(sel.main, sel.pick, e)
      case GateCrash(m1) => Halt(Crashed(MisfitIndex), m1)
      case Reject(_) => Removed(e.removed, sel.pick)
      case Keep(m1) => Prompt(Ready(m1), sel.pick)
    else
      Prompt(Ready(m), pick)
  }

  /** What Recalculate hands to the prompt. */
  lemma RecalculatePrompt(m: Attribs, t: Trace, pick: Option<Pick>, e: Env)
    requires Recalculate(m, t, pick, e).Prompt?
    ensures var n := Recalculate(m, t, pick, e).main;
            && n.recalc && !n.savefig
            && n.streams.stWork == m.streams.stWork && n.i == m.i && n.tr == m.tr && n.segments == m.segments
    ensures var n := Recalculate(m, t, pick, e).main;
            var pk := Recalculate(m, t, pick, e).pick;
            !m.recalc ==> pk == pick && n.windows.qwindow == m.windows.qwindow
    ensures var n := Recalculate(m, t, pick, e).main;
            var pk := Recalculate(m, t, pick, e).pick;
            m.recalc ==> && n.windows.tw.Some? && n.windows.fw.Some? && n.windows.qwindow.None?
                         && n.quality.currentStation == Some(t.station)
                         && pk == CurrentPick(n, t.station)
    ensures var r := Recalculate(m, t, pick, e);
            !m.recalc ==> r.main == Ready(m)
    ensures var r := Recalculate(m, t, pick, e);
            m.recalc ==>
              r.main == Ready(m.(windows := PickWindows(m.windows, r.pick, e),
                                 quality := m.quality.(currentStation := Some(t.station),
                                                       mf := if r.pick.Some? && m.streams.syn.Some? then Some(e.misfit)
                                                             else m.quality.mf)))
  {
    if m.recalc {
      var sel := Windows(m, t, e);
      assert sel.main.segments == m.segments && sel.main.j == m.j;
    }
  }

  datatype StepResult = Stopped(why: Stop, main: Attribs) | Next(main: Attribs, pick: Option<Pick>)

  /** One iteration of `while True`, including process_input's answer. */
  function Step(m: Attribs, pick: Option<Pick>, p: Pass): (r: StepResult)
    ensures r.Stopped? && r.why == Quit <==> Advance(m, pick, p.env).Prompt? && p.reply.None?
    ensures Advance(m, pick, p.env).Prompt? && p.reply.Some? ==> r == Next(p.reply.value.main, p.reply.value.pick)
    ensures Advance(m, pick, p.env).Prompt? && p.reply.None? ==> r.main == Advance(m, pick, p.env).main
  {
    match Advance(m, pick, p.env)
    case Halt(w, m1) => Stopped(w, m1)
    case Removed(m1, pk) => Next(m1, pk)
    case Prompt(m1, pk) =>
      match p.reply
      case None => Stopped(Quit, m1)
      case Some(rp) => Next(rp.main, rp.pick)
  }

  /** An empty working stream ends the loop before any trace is indexed. */
  lemma EmptyStreamStops(m: Attribs, pick: Option<Pick>, p: Pass)
    requires m.streams.stWork == []
    ensures Step(m, pick, p) == Stopped(NoData, m)
  {
  }

  /**
   * What process_input is handed: a trace that exists, the flags reset,
   * and after a recalculation both windows set, the Q-cycle window used up,
   * the current station recorded and the pick of this station and index.
   */
  lemma PromptState(m: Attribs, pick: Option<Pick>, e: Env)
    requires Advance(m, pick, e).Prompt?
    ensures var n := Advance(m, pick, e).main;
            && n.recalc && !n.savefig
            && IsIndex(n.streams.stWork, n.i) && n.tr.Some? && n.tr == At(n.streams.stWork, n.i)
            && (n.segments.Some? ==> SortedByFw2(n.segments.value))
    ensures var n := Advance(m, pick, e).main;
            var pk := Advance(m, pick, e).pick;
            !m.recalc ==> pk == pick && n.windows.qwindow == m.windows.qwindow
    ensures var n := Advance(m, pick, e).main;
            var pk := Advance(m, pick, e).pick;
            m.recalc ==> && n.windows.tw.Some? && n.windows.fw.Some? && n.windows.qwindow.None?
                         && n.quality.currentStation == Some(n.tr.value.station)
                         && pk == CurrentPick(n, n.tr.value.station)
    ensures Navigate(m).Landed? && Focus(Navigate(m).main).Ok? && Synthetics(Focus(Navigate(m).main).value).Ok?
    ensures var n := Advance(m, pick, e).main;
            n.synTrs == Synthetics(Focus(Navigate(m).main).value).value.synTrs
    ensures var n := Advance(m, pick, e).main;
            !m.recalc ==> n.windows == m.windows && n.quality == m.quality
    ensures var n := Advance(m, pick, e).main;
            var pk := Advance(m, pick, e).pick;
            m.recalc ==> && n.windows == PickWindows(m.windows, pk, e)
                         && n.quality == m.quality.(currentStation := n.quality.currentStation,
                                                   mf := if pk.Some? && m.streams.syn.Some? then Some(e.misfit)
                                                         else m.quality.mf)
  {
    var m1 := Navigate(m).main;
    var fo := Focus(m1).value;
    var m3 := Synthetics(fo).value;
    if m1.segments.Some? {
      WrapSegmentsSorts(m1.(tr := Some(fo.trace), synTrs := []), fo.trace.station, fo.trace.station);
    }
    assert m3.segments == fo.main.segments && m3.streams.stWork == m1.streams.stWork && m3.i == m1.i;
    assert m3.tr == Some(fo.trace) && m3.recalc == m.recalc && m3.windows.qwindow == m.windows.qwindow;
    RecalculatePrompt(m3, fo.trace, pick, e);
  }

  /** After a removal the loop restarts without asking for input. */
  lemma RemovalSkipsInput(m: Attribs, pick: Option<Pick>, p: Pass, other: Option<Reply>)
    requires Advance(m, pick, p.env).Removed?
    ensures Step(m, pick, p.(reply := other)) == Step(m, pick, p)
  {
  }

  /**
   * A station is rejected exactly when there are synthetics to gather, recalc
   * is on, a pick is found, `syn` is not None and the SNR is below a truthy
   * min_snr or the first misfit above a truthy max_mf; the loop then
   * continues from remove_station's state with that pick, without the
   * prompt's flag reset and without consulting process_input.
   */
  lemma RejectedStationRestarts(m: Attribs, pick: Option<Pick>, p: Pass)
    requires Navigate(m).Landed? && Focus(Navigate(m).main).Ok?
    ensures var f := Focus(Navigate(m).main).value;
            var e := p.env;
            Advance(m, pick, e).Removed? <==>
              && Synthetics(f).Ok? && m.recalc && m.streams.syn.Some?
              && CurrentPick(f.main, f.trace.station).Some?
              && (|| SnrTooLow(m, e)
                  || (Truthy(m.quality.maxMf) && |e.misfit| > 0 && e.misfit[0].value > m.quality.maxMf.value))
    ensures var f := Focus(Navigate(m).main).value;
            Advance(m, pick, p.env).Removed? ==>
              Step(m, pick, p) == Next(p.env.removed, CurrentPick(f.main, f.trace.station))
  {
    var m1 := Navigate(m).main;
    var f := Focus(m1).value;
    assert f.main.recalc == m.recalc && f.main.quality == m.quality && f.main.streams.syn == m.streams.syn by {
      assert NavFrame(m, m1);
    }
    match Synthetics(f)
    case Crash(_) =>
    case Ok(m3) =>
      assert m3 == f.main.(synTrs := m3.synTrs);
      assert CurrentPick(m3, f.trace.station) == CurrentPick(f.main, f.trace.station);
      var r := Recalculate(m3, f.trace, pick, p.env);
      assert Advance(m, pick, p.env) == r;
      if r.Removed? {
        assert Step(m, pick, p) == Next(r.main, r.pick);
      }
  }

  /** The state of an interactive session after a sequence of iterations. */
  datatype Progress = Ended(why: Stop, main: Attribs) | Waiting(main: Attribs, pick: Option<Pick>)

  /** The loop run over one `Pass` per iteration, until it breaks or they run out. */
  function RunSpec(m: Attribs, pick: Option<Pick>, passes: seq<Pass>): (r: Progress)
    ensures r.Ended? && r.why == Quit ==>
              && r.main.recalc && !r.main.savefig
              && exists k :: 0 <= k < |passes| && passes[k].reply.None?
    ensures r.Waiting? && passes != [] ==> Step(m, pick, passes[0]).Next?
    decreases |passes|
  {
    if passes == [] then Waiting(m, pick)
    else
      match Step(m, pick, passes[0])
      case Stopped(w, m1) =>
        if w == Quit then
          PromptState(m, pick, passes[0].env);
          Ended(w, m1)
        else Ended(w, m1)
      case Next(m1, pk) =>
        var r := RunSpec(m1, pk, passes[1..]);
        assert r.Ended? && r.why == Quit ==> exists k :: 0 <= k < |passes[1..]| && passes[1..][k].reply.None?;
        assert forall k :: 0 <= k < |passes[1..]| ==> passes[1..][k] == passes[k + 1];
        r
  }

  /** Continue a session with further iterations. */
  function Resume(s: Progress, passes: seq<Pass>): Progress {
    match s
    case Ended(_, _) => s
    case Waiting(m, pk) => RunSpec(m, pk, passes)
  }

  /** Running two sequences of iterations is running one, then the other. */
  lemma {:induction false} RunSplit(m: Attribs, pick: Option<Pick>, a: seq<Pass>, b: seq<Pass>)
    ensures RunSpec(m, pick, a + b) == Resume(RunSpec(m, pick, a), b)
    decreases |a|
  {
    if a == [] {
      assert a + b == b;
    } else {
      assert a + b != [];
      assert (a + b)[0] == a[0];
      assert (a + b)[1..] == a[1..] + b;
      match Step(m, pick, a[0])
      case Stopped(_, _) =>
      case Next(m1, pk) => RunSplit(m1, pk, a[1..], b);
    }
  }

  /** Once the loop has broken, further input changes nothing. */
  lemma EndedIsFinal(m: Attribs, pick: Option<Pick>, a: seq<Pass>, b: seq<Pass>)
    requires RunSpec(m, pick, a).Ended?
    ensures RunSpec(m, pick, a + b) == RunSpec(m, pick, a)
  {
    RunSplit(m, pick, a, b);
  }

  /**
   * The loop reports "No data" only with an empty working stream, and it
   * fails on the trace index only with an index the stream does not have.
   */
  lemma {:induction false} RunStopsForAReason(m: Attribs, pick: Option<Pick>, passes: seq<Pass>)
    ensures var r := RunSpec(m, pick, passes);
            r.Ended? && r.why == NoData ==> r.main.streams.stWork == []
    ensures var r := RunSpec(m, pick, passes);
            r.Ended? && r.why == Crashed(TraceIndex) ==> !IsIndex(r.main.streams.stWork, r.main.i)
    decreases |passes|
  {
    if passes != [] {
      match Step(m, pick, passes[0])
      case Stopped(_, _) =>
      case Next(m1, pk) => RunStopsForAReason(m1, pk, passes[1..]);
    }
  }
}
