# Control state of the frospy spectrum viewer

`frospy/spectrum/spectrum_commandline.py` runs an interactive viewer for the
free-oscillation spectra of seismograms. Its state lives in one record,
`main`. `set_defaults_init_main` fills in that record's defaults. `run` then
loops over it:

- it moves to the current station's trace (wrapping around the stream, or
  returning from a search scope to the saved station);
- it sorts the manual picks ("segments") by their upper frequency bound;
- it gathers the synthetic traces for the station;
- on recalculation it chooses the time and frequency windows;
- it rejects stations with a low signal-to-noise ratio or a high misfit;
- it waits for keyboard input, which may change anything, or quit.

This project models that control state. It has four modules:

- `Python` (python.dfy) holds the Python semantics the loop relies on:
  list indexing with negative indices, with the `IndexError` as `None`, and
  the truthiness of an optional number.
- `Streams` (streams.dfy) holds the stream and segment operations:
  - `select(station=...)` on traces and on picks;
  - `segments.sort(['fw2'])` as a stable ascending sort;
  - the loop that gathers synthetics, either by position or by station.
- `Commandline` (commandline.dfy) describes `main` as a value (`Attribs`,
  with its fields grouped into streams, windows, quality state and display
  options). It has one function per phase of an iteration, `Step` for a whole
  iteration and `RunSpec` for the loop, and the lemmas about them.
- `Session` (session.dfy) holds the class `Main`. Its fields are `main`'s
  fields, and its methods update them as the source does. The methods for
  the phases of an iteration (`SetDefaults`, `Navigate`, `PickTrace`,
  `WrapSegments`, `SelectSynthetics`, `SelectWindows`, `ApplyWindows`,
  `CheckQuality`,
  `Recalculate`, `Iterate`, `Run`) each `ensure` that the new `View()` is the
  matching `Commandline` function of the old one. The constructor and
  `Replace` state the record they install. `CopyData`, `CopyCursor`,
  `CopySettings`, `ResetOptions`, `ResetWindows`, `Rewind` and `Ready` state
  the fields they assign and that nothing else changes.

Everything `run` gets from other modules arrives once per iteration in a
`Pass` record. This covers `timewindow`, `freqwindow`, the spectrum's SNR and
misfit, the state `remove_station` leaves behind, and the answer of
`process_input` (`None` to quit).

Three uncaught `IndexError`s end the loop, and each is modelled as a `Fault`:

- `main.st_work[main.i]` (line 135) with no such trace. Either an `i_old`
  restored without a bounds check, or an index below `-len(st_work)`, which
  `process_input` may set, gets past the `>=` tests at lines 118 and 128;
- `s[main.i]` on a synthetic stream that is too short;
- `mf[0][1]` on an empty misfit list.

The model keeps two tests on the synthetic file names apart, because they
differ for an empty list:

- the truthiness test `if main.syn:` (lines 123 and 147);
- the test `main.syn is not None` (line 214).

## Model

| member | source | states |
|---|---|---|
| Python.At | frospy/spectrum/spectrum_commandline.py:135 | indexing `s[k]` yields a value exactly when -len(s) <= k < len(s); the value is an element of s, the one at k modulo len(s) |
| Streams.SelectStation | frospy/spectrum/spectrum_commandline.py:153 | `select(station=...)` never lengthens the stream |
| Streams.SelectStationMembers | frospy/spectrum/spectrum_commandline.py:153 | `select(station=...)` keeps exactly the traces of that station, each as often as it occurs in the stream |
| Streams.SelectStationAppend | frospy/spectrum/spectrum_commandline.py:153 | selecting from two streams put together is selecting from each in turn, so the selection keeps the stream's order |
| Streams.SelectPicks | frospy/spectrum/spectrum_commandline.py:139 | `segments.select(station=...)` never has more picks than the segments |
| Streams.SelectPicksMembers | frospy/spectrum/spectrum_commandline.py:139 | `segments.select(station=...)` keeps exactly the picks of that station, each as often as it occurs in the segments |
| Streams.SelectPicksAppend | frospy/spectrum/spectrum_commandline.py:139 | selecting picks from two segment lists put together is selecting from each in turn, so the selection keeps the segments' order |
| Streams.SortByFw2 | frospy/spectrum/spectrum_commandline.py:138 | the sorted segments are a permutation of the segments |
| Streams.InsertSorted | frospy/spectrum/spectrum_commandline.py:138 | inserting a pick into picks sorted by fw2 keeps them sorted |
| Streams.SortSorted | frospy/spectrum/spectrum_commandline.py:138 | after `sort(['fw2'])` the picks are in non-decreasing fw2 order |
| Streams.SortKeepsSorted | frospy/spectrum/spectrum_commandline.py:138 | sorting picks already in fw2 order changes nothing, so the sort at every iteration is idempotent |
| Streams.SelectInsert | frospy/spectrum/spectrum_commandline.py:138-139 | inserting a pick and then selecting a station equals selecting and then inserting (or ignoring the pick of another station) |
| Streams.SelectCommutesWithSort | frospy/spectrum/spectrum_commandline.py:138-139 | selecting a station from the sorted segments gives that station's picks sorted by fw2 |
| Streams.InsertKeepsTies | frospy/spectrum/spectrum_commandline.py:138 | inserting a pick into the picks puts it ahead of the picks with its fw2 and keeps their order |
| Streams.SortIsStable | frospy/spectrum/spectrum_commandline.py:138 | `sort(['fw2'])` is stable: the picks that share an fw2 come out in the order they went in |
| Streams.SortKeepsStationCount | frospy/spectrum/spectrum_commandline.py:138-139 | `maxj`, the station's number of picks, is the same before and after the sort |
| Streams.SynByStation | frospy/spectrum/spectrum_commandline.py:152-153 | the synthetics gathered by name are the station's selection from the synthetic streams put together in order, with each trace as often as it occurs |
| Streams.ConcatMembers | frospy/spectrum/spectrum_commandline.py:151-153 | a trace is in the synthetic streams put together exactly when it is in one of them |
| Streams.SynByPosition | frospy/spectrum/spectrum_commandline.py:149-150 | gathering by position succeeds exactly when every synthetic stream has a trace at index i; the k-th result is stream k's trace at i |
| Streams.CollectSynthetics | frospy/spectrum/spectrum_commandline.py:147-153 | the accumulating loop returns SynByPosition for order "same", SynByStation otherwise |
| Commandline.DefaultOptions | frospy/spectrum/spectrum_commandline.py:270-296 | weighting "integrate", update_maps, zoom_sl 5, fs 10, noisewin and overlap off, no rmf/cmf, mfac 1; save_stream keeps a given value and defaults to False |
| Commandline.DefaultWindows | frospy/spectrum/spectrum_commandline.py:301-316 | tw_org is a copy of tw (None without tw), qwindow is None, set_seg_tw is True, set_seg_fw holds exactly when seg_reference is on and no fw is given |
| Commandline.SetDefaults | frospy/spectrum/spectrum_commandline.py:269-323 | i = 0, i_old = None, j = 0, recalc on, savefig off, no segments, no current station, mf, min_snr or max_mf; the streams and trace are untouched; options and windows as DefaultOptions and DefaultWindows |
| Commandline.Navigate | frospy/spectrum/spectrum_commandline.py:109-132 | stops exactly on an empty working stream; an index in range leaves main unchanged; past the end with i_old saved, i becomes i_old, i_old None, st_work a copy of st and (with synthetics) st_syn_work a copy of st_syn; past the end otherwise i becomes 0; no other field changes |
| Commandline.NavigateLandsOnTrace | frospy/spectrum/spectrum_commandline.py:118-135 | after navigation `st_work[i]` exists exactly when i was in range, or was wrapped to 0, or the restored i_old is an index of st |
| Commandline.NavigateSettles | frospy/spectrum/spectrum_commandline.py:109-133 | navigating again from a usable index changes nothing |
| Commandline.WrapIndex | frospy/spectrum/spectrum_commandline.py:140-144 | j changes exactly when j >= maxj and maxj != 0, and then becomes 0 |
| Commandline.WrapSegments | frospy/spectrum/spectrum_commandline.py:137-144 | with segments, they are replaced by their fw2 sort and j is wrapped against the station's pick count; without segments nothing changes; no other field changes |
| Commandline.WrapSegmentsSorts | frospy/spectrum/spectrum_commandline.py:137-139 | after the wrap the segments are sorted, a permutation of the old ones, and every station keeps its pick count |
| Commandline.Focus | frospy/spectrum/spectrum_commandline.py:135-144 | fails with the trace IndexError exactly when i is not an index of st_work; otherwise tr is `st_work[i]`, syn_trs is emptied and the segments are wrapped for tr's station |
| Commandline.Synthetics | frospy/spectrum/spectrum_commandline.py:147-153 | fails exactly when there are synthetics, order is "same" and some synthetic stream lacks index i; only syn_trs changes; by position it holds each stream's i-th trace; by name it is the station's selection from all synthetic streams in order, so exactly the station's synthetic traces, each as often as it occurs |
| Commandline.CurrentPick | frospy/spectrum/spectrum_commandline.py:163-180 | a pick is found exactly when segments are loaded and j indexes the station's picks (None is the IndexError branch); the pick belongs to the station and to the segments |
| Commandline.PickWindows | frospy/spectrum/spectrum_commandline.py:160-199 | tw and fw are always set afterwards and qwindow cleared; a pending qwindow wins for tw; otherwise a pick with set_seg_tw gives [tw1, tw2], else tw_org, else the old tw, else the default; tw_org changes only when the default is taken; a pick with set_seg_fw gives [fw1 - 0.05, fw2 + 0.05], else the old fw or the default |
| Commandline.Windows | frospy/spectrum/spectrum_commandline.py:160-202 | the pick is CurrentPick for the trace's station, the windows are PickWindows with that pick, and current_station becomes the trace's station |
| Commandline.QWindowAppliesOnce | frospy/spectrum/spectrum_commandline.py:193-199 | a pending qwindow is the time window of one recalculation; the next recalculation picks the window it would have picked without it, unless its choice falls back on tw itself |
| Commandline.QWindowKeptWithoutReference | frospy/spectrum/spectrum_commandline.py:160-199 | with a tw set, no tw_org and no pick override, the qwindow stays the time window at the next recalculation |
| Commandline.NoPicksForStation | frospy/spectrum/spectrum_commandline.py:139-180 | when the station has no picks j is left alone and the pick lookup takes the IndexError branch |
| Commandline.PickFoundAfterWrap | frospy/spectrum/spectrum_commandline.py:139-167 | after the wrap a pick is found exactly when segments are loaded, the station has picks and j >= -maxj |
| Commandline.PickIsByFrequency | frospy/spectrum/spectrum_commandline.py:138-167 | the pick found is entry j of the station's picks sorted by fw2 |
| Commandline.Gate | frospy/spectrum/spectrum_commandline.py:214-246 | without a pick or with syn None nothing changes; otherwise mf becomes the new misfit, the station is rejected exactly when min_snr is truthy and snr < min_snr, or max_mf is truthy and the first misfit exceeds it; an empty misfit list under a truthy max_mf is the IndexError |
| Commandline.Advance | frospy/spectrum/spectrum_commandline.py:109-116 | an iteration ends with "No data" exactly when the working stream is empty |
| Commandline.PickCount | frospy/spectrum/spectrum_commandline.py:139 | `maxj` is 0 without segments and otherwise at most their number; it is positive exactly when the station has a pick |
| Commandline.SnrTooLow | frospy/spectrum/spectrum_commandline.py:238-239 | the SNR test fires only with a min_snr set and snr below it; a min_snr of None or 0 disables it; any other min_snr above snr fires it |
| Commandline.Recalculate | frospy/spectrum/spectrum_commandline.py:155-253 | the only failure after the synthetics is the misfit IndexError, raised exactly when recalc is on, a pick exists, syn is not None, the SNR test passes and max_mf is truthy with an empty misfit list; the station is removed exactly when recalc is on, a pick exists, syn is not None and the SNR test fires or the first misfit exceeds a truthy max_mf, and the loop then continues from remove_station's state with that pick |
| Commandline.RejectedStationRestarts | frospy/spectrum/spectrum_commandline.py:108-253 | in terms of the record at the top of the iteration: the station is removed exactly when the synthetics are gathered, recalc is on, syn is not None, a pick is found and the SNR or misfit test fires; the iteration then moves on to remove_station's state with that pick, skipping the flag reset and process_input |
| Commandline.Ready | frospy/spectrum/spectrum_commandline.py:252-253 | recalc on, savefig off, no other field changes |
| Commandline.RecalculatePrompt | frospy/spectrum/spectrum_commandline.py:155-253 | at the prompt recalc is on, savefig off, trace and segments unchanged; without recalc the pick is kept and only the two flags change; with recalc the pick is CurrentPick, the windows are PickWindows with that pick (so both set, qwindow used up), current_station is the trace's station, mf is the new misfit when there is a pick and syn is not None and is kept otherwise, and nothing else changes |
| Commandline.Step | frospy/spectrum/spectrum_commandline.py:257-263 | an iteration quits exactly when it reaches the prompt and process_input returns None, leaving main as handed to process_input; an answer `out` continues the loop with out's main and pick |
| Commandline.EmptyStreamStops | frospy/spectrum/spectrum_commandline.py:109-116 | with an empty working stream the iteration stops with "No data" and main unchanged |
| Commandline.PromptState | frospy/spectrum/spectrum_commandline.py:108-257 | process_input is handed a main whose tr is `st_work[i]`, whose segments are sorted, recalc on and savefig off, whose syn_trs are the synthetics gathered for tr; without recalc its windows and quality state are the old ones; with recalc both windows are set and are PickWindows of the old ones with the pick CurrentPick, qwindow is used up, current_station is tr's station and mf is the new misfit when there is a pick and syn is not None |
| Commandline.RemovalSkipsInput | frospy/spectrum/spectrum_commandline.py:238-246 | after remove_station the loop continues without consulting process_input |
| Commandline.RunSpec | frospy/spectrum/spectrum_commandline.py:108-263 | the loop quits only after some iteration's process_input returned None, and then main is the record handed to process_input, with recalc on and savefig off; it is still waiting after at least one iteration only if the first iteration went on |
| Commandline.RunSplit | frospy/spectrum/spectrum_commandline.py:108-263 | running the loop over two sequences of iterations is running it over the first, then resuming with the second |
| Commandline.EndedIsFinal | frospy/spectrum/spectrum_commandline.py:108-263 | after the loop breaks, further input changes nothing |
| Commandline.RunStopsForAReason | frospy/spectrum/spectrum_commandline.py:109-135 | the loop ends with "No data" only on an empty working stream and with the trace IndexError only on an index the working stream lacks |
| Commandline.SetDefaultsIdempotent | frospy/spectrum/spectrum_commandline.py:269-323 | applying the defaults twice is applying them once |
| Session.Main.constructor | frospy/spectrum/spectrum_commandline.py:81 | `AttribDict(iargs)` holds exactly iargs |
| Session.Main.Replace | frospy/spectrum/spectrum_commandline.py:257-263 | `pick, main = out`: the record becomes what process_input or remove_station hands back |
| Session.Main.SetDefaults | frospy/spectrum/spectrum_commandline.py:269-323 | the field-by-field assignments leave the record at SetDefaults of the old one |
| Session.Main.ResetOptions | frospy/spectrum/spectrum_commandline.py:271-294 | the display options become DefaultOptions of the old ones, nothing else changes |
| Session.Main.ResetWindows | frospy/spectrum/spectrum_commandline.py:301-316 | the windows become DefaultWindows of the old ones, nothing else changes |
| Session.Main.Rewind | frospy/spectrum/spectrum_commandline.py:318-321 | i = 0, i_old = None, j = 0, nothing else changes |
| Session.Main.Navigate | frospy/spectrum/spectrum_commandline.py:109-133 | reports "No data" exactly on an empty working stream, leaving the record alone; otherwise the record becomes Navigate of the old one |
| Session.Main.PickTrace | frospy/spectrum/spectrum_commandline.py:135-144 | the record and the returned trace or fault are Focus of the old record |
| Session.Main.WrapSegments | frospy/spectrum/spectrum_commandline.py:137-144 | the in-place sort and the j reset leave the record at WrapSegments of the old one |
| Session.Main.SelectSynthetics | frospy/spectrum/spectrum_commandline.py:147-153 | appending the gathered traces gives Synthetics of the old record, or its fault with the record unchanged |
| Session.Main.SelectWindows | frospy/spectrum/spectrum_commandline.py:160-202 | the record and the pick are Windows of the old record |
| Session.Main.ApplyWindows | frospy/spectrum/spectrum_commandline.py:160-199 | the sequence of window assignments leaves the windows at PickWindows of the old ones, nothing else changes |
| Session.Main.CheckQuality | frospy/spectrum/spectrum_commandline.py:214-246 | the verdict is Gate of the old record and the record is the verdict's |
| Session.Main.Recalculate | frospy/spectrum/spectrum_commandline.py:155-253 | the outcome is Recalculate of the old record and the record is the outcome's |
| Session.Main.Ready | frospy/spectrum/spectrum_commandline.py:252-253 | recalc on and savefig off, nothing else changes |
| Session.Main.Iterate | frospy/spectrum/spectrum_commandline.py:108-263 | one pass of the loop body gives Step of the old record |
| Session.Main.Run | frospy/spectrum/spectrum_commandline.py:94-263 | the `while True` loop, starting with pick None, ends in RunSpec of the initial record |

## Left out

- Loading: `AttribDict` holds only the fields above. `load_cmt`, `load_segments`, `read_data`, `inv4stream`, `report_input`, `search_stream` and `read_modes` are I/O in other modules. Their results are the initial record handed to `Session.Main.Run`.
- Spectrum numerics: `Spectrum`, `flabel`, `signal2noise`, `signal2fwhm` and `misfit` are Fourier and floating-point work in other modules. SNR and misfit are given reals in `Env`, and reals stand in for floats.
- `timewindow` and `freqwindow` are not part of this model (they live in other modules). The window each returns is given in `Env`.
- `Commandline.PickWindows`: assumes that `timewindow` and `freqwindow` always return a window, never None. Its guarantee that tw and fw are always set afterwards rests on that.
- `process_input` and `remove_station` are external. Each is modelled as the state it hands back, with `process_input` returning `None` to quit.
- `plot_spectrum` is assumed to leave the modelled fields unchanged. The remaining UI side effects are not modelled: `plt` calls, readline set-up, `quit_spectrum`, the verbose trace dump and every console message.
- Display fields are not modelled: `rfig`, `rax`, `seg_ax` and `modes_all`.
- `spec`, `startlabel` and `endlabel` are not modelled. The loop assigns them at lines 206-211 from `Spectrum` and `flabel` in other modules. It reads `spec` only to compute the SNR, FWHM ratio and misfit (lines 215-230), and those results are given in `Env`. The FWHM ratio is only printed, and its caught exception is not modelled.
- Windows are pairs, so an empty list for `tw` or `fw`, which Python would treat as falsy, is not represented.
- Streams: `select(station=...)` is an exact, case-sensitive match on the station code. ObsPy's `Stream.select` upper-cases both codes and matches them with `fnmatch` wildcards; neither the case-insensitive comparison nor the wildcards are modelled.
- Sorting: `Segment.sort(['fw2'])` is assumed to be a stable ascending sort, because the Segment class is not part of this model.
- Field updates made "only when changed" (`current_station`, `mf`) are modelled as plain assignments. The two agree on the resulting state; they differ only in whether a message is printed.
- `Commandline.RunSpec`: the loop runs over a finite sequence of passes, so a session that never quits is described by each finite prefix of its passes. `process_input` gets `main` by reference (line 257) and could change it before returning None; the model assumes it does not, so the record `run` ends with (line 266) is the one handed to `process_input`.
- frospy/tests/todo/Su/plot_SF_ulvz.py is not part of this model. It is a plotting script with hard-coded paths, and nothing in it bears on the viewer's state.
