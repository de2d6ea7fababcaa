/** The widget backend registry: a global default backend, a per-widget-class
    table from backend name to plotter class, the resolution of a requested
    backend against that table, and the merging of a plotter's default
    keyword arguments with the caller's. */
module Widgets {
  import opened Wrappers

  /** Keyword-argument and plot-data values. */
  datatype Value = VStr(s: string) | VInt(i: int) | VReal(r: real) | VBool(b: bool)

  type Kwargs = map<string, Value>

  const InitialBackend := "matplotlib"

  /** The module global `default_backend_`. */
  class BackendDefaults {
    var defaultBackend: string

    /** Module initialisation: the default backend is `'matplotlib'`. */
    constructor ()
      ensures defaultBackend == InitialBackend
    {
      defaultBackend := InitialBackend;
    }

    /** `get_default_plotter_backend()`. */
    method GetDefaultPlotterBackend() returns (backend: string)
      ensures backend == defaultBackend
    {
      backend := defaultBackend;
    }

    /** `set_default_plotter_backend(backend)`. */
    method SetDefaultPlotterBackend(backend: string)
      modifies this
      ensures defaultBackend == backend
    {
      defaultBackend := backend;
    }
  }

  /** After module initialisation and the given calls to
      `set_default_plotter_backend`, the getter returns `'matplotlib'` if there
      were none and the last value set otherwise. */
  method DefaultAfterCalls(sets: seq<string>) returns (seen: string)
    ensures seen == if sets == [] then InitialBackend else sets[|sets| - 1]
  {
    var g := new BackendDefaults();
    var k := 0;
    while k < |sets|
      invariant 0 <= k <= |sets|
      invariant g.defaultBackend == if k == 0 then InitialBackend else sets[k - 1]
    {
      g.SetDefaultPlotterBackend(sets[k]);
      k := k + 1;
    }
    seen := g.GetDefaultPlotterBackend();
  }

  /** `default_backend_kwargs.copy()` updated with `backend_kwargs`. */
  function Merged(defaults: Kwargs, given: Kwargs): (m: Kwargs)
    ensures m.Keys == defaults.Keys + given.Keys
    ensures forall k | k in given :: m[k] == given[k]
    ensures forall k | k in defaults && k !in given :: m[k] == defaults[k]
  {
    defaults + given
  }

  /** Merging the same keywords again changes nothing, and merging none
      gives the defaults. */
  lemma MergedIdempotent(defaults: Kwargs, given: Kwargs)
    ensures Merged(Merged(defaults, given), given) == Merged(defaults, given)
    ensures Merged(defaults, map[]) == defaults
  {
  }

  /** A `BackendPlotter` subclass: its `backend` name and its class-level
      `default_backend_kwargs` dictionary. */
  class PlotterClass {
    const backend: string
    var defaultBackendKwargs: Kwargs

    constructor (backend: string, defaultBackendKwargs: Kwargs)
      ensures this.backend == backend && this.defaultBackendKwargs == defaultBackendKwargs
    {
      this.backend := backend;
      this.defaultBackendKwargs := defaultBackendKwargs;
    }

    /** `BackendPlotter.register(widget_cls)`. */
    method Register(w: WidgetClass)
      modifies w
      ensures w.possibleBackends == old(w.possibleBackends)[backend := this]
    {
      w.RegisterBackend(this);
    }
  }

  /** An instance of a plotter class, as `do_plot` creates it. */
  class Plotter {
    const cls: PlotterClass

    constructor (cls: PlotterClass)
      ensures this.cls == cls
    {
      this.cls := cls;
    }

    /** `update_backend_kwargs(**backend_kwargs)`: the class defaults
        overridden by the given keywords; the defaults are copied, so the
        class dictionary is left as it was (the method modifies nothing). */
    method UpdateBackendKwargs(kwargs: Kwargs) returns (merged: Kwargs)
      ensures merged == Merged(cls.defaultBackendKwargs, kwargs)
      ensures merged.Keys == cls.defaultBackendKwargs.Keys + kwargs.Keys
    {
      var copy := cls.defaultBackendKwargs;
      copy := copy + kwargs;
      merged := copy;
    }
  }

  /** A `BaseWidget` subclass with its class-level `possible_backends`. */
  class WidgetClass {
    var possibleBackends: map<string, PlotterClass>

    constructor ()
      ensures possibleBackends == map[]
    {
      possibleBackends := map[];
    }

    /** `register_backend(backend_plotter)`: the plotter's backend name now
        maps to it, replacing an earlier registration; other names keep their
        entries. */
    method RegisterBackend(p: PlotterClass)
      modifies this
      ensures p.backend in possibleBackends && possibleBackends[p.backend] == p
      ensures possibleBackends == old(possibleBackends)[p.backend := p]
    {
      possibleBackends := possibleBackends[p.backend := p];
    }
  }

  datatype WidgetError = BackendNotAvailable(backend: string, available: set<string>)

  /** `None` stands for the current default backend. */
  function ResolveBackend(backend: Option<string>, defaultBackend: string): (name: string)
    ensures backend.Some? ==> name == backend.value
    ensures backend.None? ==> name == defaultBackend
  {
    match backend
    case None => defaultBackend
    case Some(b) => b
  }

  /** A `BaseWidget` instance. */
  class Widget {
    const widgetClass: WidgetClass
    var plotData: Kwargs
    var backend: Option<string>
    var backendKwargs: Kwargs
    var plotter: Plotter?

    constructor (widgetClass: WidgetClass, plotData: Kwargs, backend: Option<string>, backendKwargs: Kwargs)
      ensures this.widgetClass == widgetClass && this.plotData == plotData
      ensures this.backend == backend && this.backendKwargs == backendKwargs && plotter == null
    {
      this.widgetClass := widgetClass;
      this.plotData := plotData;
      this.backend := backend;
      this.backendKwargs := backendKwargs;
      plotter := null;
    }

    /** `check_backend(backend, **backend_kwargs)`: resolves `None` to the
        default, fails unless the result is registered for this widget class,
        and passes the keywords through unchanged. */
    function CheckBackend(defaults: BackendDefaults, backend: Option<string>, kwargs: Kwargs): (r: Result<(string, Kwargs), WidgetError>)
      reads defaults, widgetClass
      ensures r.Ok? <==> ResolveBackend(backend, defaults.defaultBackend) in widgetClass.possibleBackends
      ensures r.Ok? ==> r.value == (ResolveBackend(backend, defaults.defaultBackend), kwargs)
      ensures r.Err? ==> r.error.backend == ResolveBackend(backend, defaults.defaultBackend) &&
                         r.error.available == widgetClass.possibleBackends.Keys
    {
      var name := ResolveBackend(backend, defaults.defaultBackend);
      if name in widgetClass.possibleBackends then Ok((name, kwargs))
      else Err(BackendNotAvailable(name, widgetClass.possibleBackends.Keys))
    }

    /** `do_plot(backend, **backend_kwargs)`: on success `plotter` is a new
        instance of the plotter class registered under the resolved backend. */
    method DoPlot(defaults: BackendDefaults, backend: Option<string>, kwargs: Kwargs) returns (err: Option<WidgetError>)
      modifies this
      ensures var c := old(CheckBackend(defaults, backend, kwargs));
        if c.Ok? then
          err == None && plotter != null && fresh(plotter) &&
          plotter.cls == old(widgetClass.possibleBackends)[c.value.0]
        else
          err == Some(c.error) && plotter == old(plotter)
      ensures plotData == old(plotData) && this.backend == old(this.backend) && backendKwargs == old(backendKwargs)
    {
      var c := CheckBackend(defaults, backend, kwargs);
      if c.Err? {
        return Some(c.error);
      }
      var p := new Plotter(widgetClass.possibleBackends[c.value.0]);
      plotter := p;
      err := None;
    }
  }

  /** `to_attr(d)`: attribute `k` reads `d[k]`, raising `KeyError` when
      absent. */
  class ToAttr {
    const d: Kwargs

    constructor (d: Kwargs)
      ensures this.d == d
    {
      this.d := d;
    }

    function GetAttribute(k: string): (r: Result<Value, string>)
      ensures r.Ok? <==> k in d
      ensures r.Ok? ==> r.value == d[k]
      ensures r.Err? ==> r.error == k
    {
      if k in d then Ok(d[k]) else Err(k)
    }
  }
}
