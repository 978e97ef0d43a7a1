/**
 * The `main` record as the mutable object `run` updates field by field,
 * and the `while True` loop over it. Every method is tied to the function
 * of commandline.dfy that describes the same step: afterwards, View() is
 * that function of the state before. Line numbers refer to
 * frospy/spectrum/spectrum_commandline.py.
 */
module Session {
  import opened Python
  import opened Streams
  import C = Commandline

  class Main {
    var streams: C.StreamState
    var segments: Option<seq<Pick>>
    var i: int
    var iOld: Option<int>
    var j: int
    var tr: Option<Trace>
    var synTrs: seq<Trace>
    var windows: C.WindowState
    var quality: C.Quality
    var recalc: bool
    var savefig: bool
    var options: C.Options

    /** The record's current contents as a value. */
    function View(): C.Attribs
      reads this
    {
      C.Attribs(streams, segments, i, iOld, j, tr, synTrs, windows, quality, recalc, savefig, options)
    }

    /** `AttribDict(iargs)` */
    constructor (iargs: C.Attribs)
      ensures View() == iargs
    {
      new;
      Replace(iargs);
    }

    /** The record becomes `a`: what read_data, remove_station and process_input hand back. */
    method Replace(a: C.Attribs)
      modifies this
      ensures View() == a
    {
      CopyData(a);
      CopyCursor(a);
      CopySettings(a);
    }

    /** The streams, the picks and the current trace of `a`. */
    method CopyData(a: C.Attribs)
      modifies this
      ensures View() == old(View()).(streams := a.streams, segments := a.segments, tr := a.tr, synTrs := a.synTrs)
    {
      streams, segments, tr, synTrs := a.streams, a.segments, a.tr, a.synTrs;
    }

    /** The indices and flags of `a`. */
    method CopyCursor(a: C.Attribs)
      modifies this
      ensures View() == old(View()).(i := a.i, iOld := a.iOld, j := a.j, recalc := a.recalc, savefig := a.savefig)
    {
      i, iOld, j, recalc, savefig := a.i, a.iOld, a.j, a.recalc, a.savefig;
    }

    /** The windows, the quality state and the options of `a`. */
    method CopySettings(a: C.Attribs)
      modifies this
      ensures View() == old(View()).(windows := a.windows, quality := a.quality, options := a.options)
    {
      windows, quality, options := a.windows, a.quality, a.options;
    }

    /** set_defaults_init_main */
    method SetDefaults()
      modifies this
      ensures View() == C.SetDefaults(old(View()))
    {
      recalc := true;
      ResetOptions();
      quality := C.Quality(None, None, None, None);
      segments, savefig := None, false;
      ResetWindows();
      Rewind();
    }

    /** Lines 271-294 (the display options): the defaults, keeping a save_stream already given. */
    method ResetOptions()
      modifies this
      ensures View() == old(View()).(options := C.DefaultOptions(old(options)))
    {
      var o := options.(weighting := "integrate", updateMaps := true, zoomSl := 5.0);
      if o.saveStream.None? {
        o := o.(saveStream := Some(false));
      }
      o := o.(fs := 10, noisewin := false, overlap := false, rmf := None, cmf := None, mfac := 1);
      options := o;
    }

    /** Lines 302-316: the reference time window and the segment flags. */
    method ResetWindows()
      modifies this
      ensures View() == old(View()).(windows := C.DefaultWindows(old(windows), options.segReference))
    {
      var w := windows;
      if w.tw.Some? {
        w := w.(twOrg := w.tw);
      } else {
        w := w.(twOrg := None);
      }
      w := w.(qwindow := None);
      if options.segReference {
        w := w.(setSegFw := true, setSegTw := true);
        if w.fw.Some? {
          w := w.(setSegFw := false);
        }
      } else {
        w := w.(setSegFw := false, setSegTw := true);
      }
      windows := w;
    }

    /** Lines 318-321: back to the first station and its first segment. */
    method Rewind()
      modifies this
      ensures View() == old(View()).(i := 0, iOld := None, j := 0)
    {
      i, iOld, j := 0, None, 0;
    }

    /** Lines 109-133: returns true for the "No data" break. */
    method Navigate() returns (empty: bool)
      modifies this
      ensures empty <==> old(streams.stWork) == []
      ensures empty ==> View() == old(View())
      ensures !empty ==> C.Navigate(old(View())) == C.Landed(View())
    {
      if |streams.stWork| == 0 {
        return true;
      } else if i >= |streams.stWork| && iOld.Some? {
        streams := streams.(stWork := streams.st);
        if streams.syn.Some? && |streams.syn.value| > 0 {
          streams := streams.(stSynWork := streams.stSyn);
        }
        i := iOld.value;
        iOld := None;
      } else if i >= |streams.stWork| {
        i := 0;
      }
      return false;
    }

    /** Lines 135-144: the current trace, the sorted picks, the wrapped segment index. */
    method PickTrace() returns (r: C.Outcome<Trace>)
      modifies this
      ensures r.Crash? ==> C.Focus(old(View())) == C.Crash(r.fault) && View() == old(View())
      ensures r.Ok? ==> C.Focus(old(View())) == C.Ok(C.Focused(View(), r.value))
    {
      var t := At(streams.stWork, i);
      if t.None? {
        return C.Crash(C.TraceIndex);
      }
      tr, synTrs := t, [];
      WrapSegments(t.value.station);
      return C.Ok(t.value);
    }

    /** Lines 137-144: sort the picks by fw2 and wrap the segment index. */
    method WrapSegments(station: Station)
      modifies this
      ensures View() == C.WrapSegments(old(View()), station)
    {
      if segments.Some? {
        segments := Some(SortByFw2(segments.value));
        var maxj := |SelectPicks(segments.value, station)|;
        if j >= maxj && maxj != 0 {
          j := 0;
        }
      }
    }

    /**
     * Lines 147-153 for the current trace `t`, appending to the synthetics
     * PickTrace has just emptied.
     */
    method SelectSynthetics(t: Trace) returns (fault: Option<C.Fault>)
      requires synTrs == []
      modifies this
      ensures var r := C.Synthetics(C.Focused(old(View()), t));
              (fault.Some? <==> r.Crash?)
              && (r.Crash? ==> fault == Some(r.fault) && View() == old(View()))
              && (r.Ok? ==> View() == r.value)
    {
      fault := None;
      if streams.syn.Some? && |streams.syn.value| > 0 {
        var found := CollectSynthetics(streams.stSynWork, streams.streamOrder == "same", i, t.station);
        if found.None? {
          return Some(C.SyntheticIndex);
        }
        synTrs := synTrs + found.value;
      }
    }

    /** Lines 160-202 for the current trace `t`; returns the pick. */
    method SelectWindows(t: Trace, e: C.Env) returns (pick: Option<Pick>)
      modifies this
      ensures C.Windows(old(View()), t, e) == C.Selection(View(), pick)
    {
      pick := C.CurrentPick(View(), t.station);
      ApplyWindows(pick, e);
      if Some(t.station) != quality.currentStation {
        quality := quality.(currentStation := Some(t.station));
      }
    }

    /** Lines 160-199: the window choices, given the pick looked up at line 167. */
    method ApplyWindows(pick: Option<Pick>, e: C.Env)
      modifies this
      ensures View() == old(View()).(windows := C.PickWindows(old(windows), pick, e))
    {
      var w := windows;
      ghost var chosen := C.PickWindows(w, pick, e);
      if w.twOrg.Some? {
        w := w.(tw := w.twOrg);
      }
      if pick.Some? {
        if w.setSegTw {
          w := w.(tw := Some(Window(pick.value.tw1, pick.value.tw2)));
        }
        if w.setSegFw {
          w := w.(fw := Some(Window(pick.value.fw1 - 0.05, pick.value.fw2 + 0.05)));
        }
      }
      if w.tw.None? {
        w := w.(tw := Some(e.defaultTw), twOrg := e.defaultTwOrg);
      }
      if w.fw.None? {
        w := w.(fw := Some(e.defaultFw));
      }
      if w.qwindow.Some? {
        w := w.(tw := w.qwindow, qwindow := None);
      }
      assert w == chosen;
      windows := w;
    }

    /** Lines 214-246: returns the gate's verdict; the record holds its state. */
    method CheckQuality(pick: Option<Pick>, e: C.Env) returns (v: C.Verdict)
      modifies this
      ensures v == C.Gate(old(View()), pick, e) && View() == v.main
    {
      if pick.Some? && streams.syn.Some? {
        if Some(e.misfit) != quality.mf {
          quality := quality.(mf := Some(e.misfit));
        }
        if Truthy(quality.minSnr) && e.snr < quality.minSnr.value {
          return C.Reject(View());
        }
        if Truthy(quality.maxMf) {
          if |e.misfit| == 0 {
            return C.GateCrash(View());
          }
          if e.misfit[0].value > quality.maxMf.value {
            return C.Reject(View());
          }
        }
      }
      return C.Keep(View());
    }

    /** Lines 155-253 for the current trace `t`, up to the prompt. */
    method Recalculate(t: Trace, pick: Option<Pick>, e: C.Env) returns (r: C.Turn)
      modifies this
      ensures r == C.Recalculate(old(View()), t, pick, e) && View() == r.main
    {
      var pk := pick;
      if recalc {
        pk := SelectWindows(t, e);
        var v := CheckQuality(pk, e);
        if v.GateCrash? {
          return C.Halt(C.Crashed(C.MisfitIndex), View());
        }
        if v.Reject? {
          Replace(e.removed);
          return C.Removed(View(), pk);
        }
      }
      Ready();
      return C.Prompt(View(), pk);
    }

    /** Lines 252-253: `main.recalc = True; main.savefig = False` */
    method Ready()
      modifies this
      ensures View() == C.Ready(old(View()))
    {
      recalc := true;
      savefig := false;
    }

    /** One iteration of the loop body; `pick` is the loop's pick variable. */
    method Iterate(pick: Option<Pick>, p: C.Pass) returns (r: C.StepResult)
      modifies this
      ensures r == C.Step(old(View()), pick, p) && View() == r.main
    {
      var empty := Navigate();
      if empty {
        return C.Stopped(C.NoData, View());
      }
      var t := PickTrace();
      if t.Crash? {
        return C.Stopped(C.Crashed(t.fault), View());
      }
      var fault := SelectSynthetics(t.value);
      if fault.Some? {
        return C.Stopped(C.Crashed(fault.value), View());
      }
      var turn := Recalculate(t.value, pick, p.env);
      match turn
      case Halt(why, _) =>
        return C.Stopped(why, View());
      case Removed(_, pk) =>
        return C.Next(View(), pk);
      case Prompt(_, _) =>
        if p.reply.None? {
          return C.Stopped(C.Quit, View());
        }
        Replace(p.reply.value.main);
        return C.Next(View(), p.reply.value.pick);
    }

    /** The `while True` loop, one `Pass` per iteration. */
    method Run(passes: seq<C.Pass>) returns (s: C.Progress)
      modifies this
      ensures s == C.RunSpec(old(View()), None, passes) && View() == s.main
    {
      var pick: Option<Pick> := None;
      var k := 0;
      while k < |passes|
        invariant 0 <= k <= |passes|
        invariant C.RunSpec(old(View()), None, passes) == C.RunSpec(View(), pick, passes[k..])
      {
        assert passes[k..][0] == passes[k] && passes[k..][1..] == passes[k + 1..];
        var r := Iterate(pick, passes[k]);
        if r.Stopped? {
          return C.Ended(r.why, r.main);
        }
        pick := r.pick;
        k := k + 1;
      }
      return C.Waiting(View(), pick);
    }
  }
}
