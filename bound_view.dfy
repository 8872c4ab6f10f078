/**
  The re-render decision logic of the bound views: the state-gated
  `rerenderIfNeeded`, value normalization, and the two template selectors
  (`BoundView.render` for `{{bind}}`/`{{#with}}`/`{{#if}}`-style bindings with a
  predicate, `BoundIfView.render` for a boolean-like condition stream).

  Each class method is specified by a pure function over `Fields`, the part of
  the view this component writes; the behaviour the source promises is stated
  as the contracts of those functions and as the lemmas in BoundViewProperties.
 */
module BoundViews {

  import opened Wrappers
  import opened JsValues
  import opened ViewStates

  /** A value that can stand in the view's `template` property */
  datatype Template =
    | NoTemplate        // null: the slot is not configured
    | Compiled(id: nat) // a compiled template, by identity
    | EmptyOutput       // the `function() { return ''; }` placeholder
  {
    /** JavaScript truthiness of the slot: `if (displayTemplate)` */
    function Present(): (r: bool)
      ensures r <==> this != NoTemplate
    {
      !NoTemplate?
    }
  }

  /** One item written into the render buffer */
  datatype Chunk =
    | Pushed(value: Value)                              // `buffer.push(result)`
    | TemplateOutput(template: Template, context: Value) // the base view's render of `template` against `context`

  /**
    The view state this component writes: `template`, `_context`,
    `_lastNormalizedValue`, and the render buffer, kept as the log of every
    chunk written into it.
   */
  datatype Fields = Fields(template: Template, context: Value, lastNormalizedValue: Value, buffer: seq<Chunk>)

  /** The construction-time configuration of a `BoundView` */
  datatype BindConfig = BindConfig(
    shouldDisplay: Value -> bool,
    preserveContext: bool,
    previousContext: Value,
    displayTemplate: Template,
    inverseTemplate: Template,
    valueNormalizer: Option<Value -> Value>)

  /** The construction-time configuration of a `BoundIfView` */
  datatype IfConfig = IfConfig(truthyTemplate: Template, falsyTemplate: Template)

  /**
    The two views that mix in the normalized-rerender support; each supplies
    its own `normalizedValue` and `render`.
   */
  datatype Variant = General(bind: BindConfig) | Conditional(cond: IfConfig)

  /** `normalizedValue` of the mixin: the lazy value, through the normalizer when one is set */
  function Normalize(raw: Value, normalizer: Option<Value -> Value>): (r: Value)
    ensures normalizer.None? ==> r == raw
    ensures normalizer.Some? ==> r == normalizer.value(raw)
  {
    match normalizer
    case Some(normalize) => normalize(raw)
    case None => raw
  }

  /** The base view's render: output of the current template against the current context */
  function BaseRender(f: Fields): (g: Fields)
  {
    f.(buffer := f.buffer + [TemplateOutput(f.template, f.context)])
  }

  /** The bare-interpolation case: display, context not preserved, and no display template */
  predicate BarePath(cfg: BindConfig, result: Value)
  {
    cfg.shouldDisplay(result) && !cfg.preserveContext && !cfg.displayTemplate.Present()
  }

  /** The state `BoundView.render` leaves when the lazy value currently is `raw` */
  function Rendered(cfg: BindConfig, raw: Value, f: Fields): (g: Fields)
    // the normalized value is recorded on every path, the early return included
    ensures g.lastNormalizedValue == Normalize(raw, cfg.valueNormalizer)
    // exactly one chunk is appended and earlier output is kept
    ensures |g.buffer| == |f.buffer| + 1 && g.buffer[..|f.buffer|] == f.buffer
    // template selection
    ensures cfg.shouldDisplay(g.lastNormalizedValue) ==> g.template == cfg.displayTemplate
    ensures !cfg.shouldDisplay(g.lastNormalizedValue) && cfg.inverseTemplate.Present() ==>
              g.template == cfg.inverseTemplate
    ensures !cfg.shouldDisplay(g.lastNormalizedValue) && !cfg.inverseTemplate.Present() ==>
              g.template == EmptyOutput
    // context propagation
    ensures cfg.preserveContext && (cfg.shouldDisplay(g.lastNormalizedValue) || cfg.inverseTemplate.Present()) ==>
              g.context == cfg.previousContext
    ensures !cfg.preserveContext &&
            (if cfg.shouldDisplay(g.lastNormalizedValue) then cfg.displayTemplate.Present() else cfg.inverseTemplate.Present()) ==>
              g.context == g.lastNormalizedValue
    ensures !cfg.shouldDisplay(g.lastNormalizedValue) && !cfg.inverseTemplate.Present() ==> g.context == f.context
    // bare interpolation pushes the coerced value and skips the base render
    ensures BarePath(cfg, g.lastNormalizedValue) ==>
              g.context == f.context && g.buffer[|f.buffer|] == Pushed(Interpolated(g.lastNormalizedValue))
    ensures !BarePath(cfg, g.lastNormalizedValue) ==> g.buffer[|f.buffer|] == TemplateOutput(g.template, g.context)
  {
    var result := Normalize(raw, cfg.valueNormalizer);
    var recorded := f.(lastNormalizedValue := result);
    if cfg.shouldDisplay(result) then
      var shown := recorded.(template := cfg.displayTemplate);
      if cfg.preserveContext then
        BaseRender(shown.(context := cfg.previousContext))
      else if cfg.displayTemplate.Present() then
        BaseRender(shown.(context := result))
      else
        shown.(buffer := shown.buffer + [Pushed(Interpolated(result))])
    else if cfg.inverseTemplate.Present() then
      var inverse := recorded.(template := cfg.inverseTemplate);
      BaseRender(inverse.(context := if cfg.preserveContext then cfg.previousContext else result))
    else
      BaseRender(recorded.(template := EmptyOutput))
  }

  /** The state `BoundIfView.render` leaves when the condition stream currently is `value` */
  function IfRendered(cfg: IfConfig, value: Value, f: Fields): (g: Fields)
    ensures g.lastNormalizedValue == value
    ensures Truthy(value) ==> g.template == cfg.truthyTemplate
    ensures !Truthy(value) ==> g.template == cfg.falsyTemplate
    // the context is never rebound to the condition's value
    ensures g.context == f.context
    // the base render is invoked once, with the selected template
    ensures g.buffer == f.buffer + [TemplateOutput(g.template, f.context)]
  {
    var recorded := f.(lastNormalizedValue := value);
    if Truthy(value) then
      BaseRender(recorded.(template := cfg.truthyTemplate))
    else
      BaseRender(recorded.(template := cfg.falsyTemplate))
  }

  /** `normalizedValue()` of either view, given the current raw source value */
  function NormalizedValueOf(v: Variant, raw: Value): (r: Value)
    // the general view normalizes through its configured normalizer
    ensures v.General? ==> r == Normalize(raw, v.bind.valueNormalizer)
    // the conditional view overrides normalization with the stream value itself
    ensures v.Conditional? ==> r == raw
  {
    match v
    case General(cfg) => Normalize(raw, cfg.valueNormalizer)
    case Conditional(_) => raw
  }

  /** `render()` of either view */
  function RenderOf(v: Variant, raw: Value, f: Fields): (g: Fields)
    ensures g.lastNormalizedValue == NormalizedValueOf(v, raw)
    ensures |g.buffer| == |f.buffer| + 1 && g.buffer[..|f.buffer|] == f.buffer
  {
    match v
    case General(cfg) => Rendered(cfg, raw, f)
    case Conditional(cfg) =>
      var g := IfRendered(cfg, raw, f);
      assert g.buffer[..|f.buffer|] == f.buffer;
      g
  }

  /** The state `rerenderIfNeeded` leaves, dispatched through the lifecycle state table */
  function Checked(v: Variant, state: LifecycleState, raw: Value, f: Fields): (g: Fields)
    // in every state but inDOM the request is absorbed
    ensures state != InDom ==> g == f
    // the view changes exactly when it is in the DOM and the normalized value differs
    ensures g != f <==> state == InDom && NormalizedValueOf(v, raw) != f.lastNormalizedValue
    // and a change is a full render
    ensures g != f ==> g == RenderOf(v, raw, f)
  {
    match RerenderIfNeededEntry(state)
    case Absorb => f
    case CompareAndRerender =>
      if NormalizedValueOf(v, raw) != f.lastNormalizedValue then RenderOf(v, raw, f) else f
  }

  /** A `BoundIfView` together with its condition stream's value and its scheduled check */
  datatype IfViewState = IfViewState(fields: Fields, stream: Value, pending: bool)

  /**
    The stream takes `value` and notifies its subscriber, which asks the run
    loop to schedule `rerenderIfNeeded` once in the render queue; a request
    already pending is not duplicated.
   */
  function StreamNotified(s: IfViewState, value: Value): (t: IfViewState)
    // scheduling never touches the view's rendered state
    ensures t.fields == s.fields
    ensures t.stream == value && t.pending
  {
    s.(stream := value, pending := true)
  }

  /** The render queue runs: a pending `rerenderIfNeeded` is invoked once */
  function RenderQueueFlushed(cfg: IfConfig, state: LifecycleState, s: IfViewState): (t: IfViewState)
    ensures !t.pending && t.stream == s.stream
    ensures s.pending ==> t.fields == Checked(Conditional(cfg), state, s.stream, s.fields)
    ensures !s.pending ==> t == s
  {
    if s.pending then
      IfViewState(Checked(Conditional(cfg), state, s.stream, s.fields), s.stream, false)
    else
      s
  }

  /** `Ember._BoundView` */
  class BoundView {
    const config: BindConfig
    var source: Value    // what `lazyValue.value()` currently returns
    var currentState: LifecycleState
    var template: Template
    var context: Value   // `_context`
    var lastNormalizedValue: Value
    var buffer: seq<Chunk>

    function Snapshot(): Fields
      reads this
    {
      Fields(template, context, lastNormalizedValue, buffer)
    }

    constructor (config: BindConfig, source: Value, context: Value)
      ensures this.config == config && this.source == source && currentState == PreRender
      ensures Snapshot() == Fields(NoTemplate, context, Undefined, [])
    {
      this.config := config;
      this.source := source;
      currentState := PreRender;
      template := NoTemplate;
      this.context := context;
      lastNormalizedValue := Undefined;
      buffer := [];
    }

    function NormalizedValue(): (r: Value)
      reads this
      ensures config.valueNormalizer.None? ==> r == source
      ensures config.valueNormalizer.Some? ==> r == config.valueNormalizer.value(source)
    {
      Normalize(source, config.valueNormalizer)
    }

    method Render()
      modifies this`template, this`context, this`lastNormalizedValue, this`buffer
      ensures Snapshot() == Rendered(config, source, old(Snapshot()))
    {
      var shouldDisplay := config.shouldDisplay;
      var preserveContext := config.preserveContext;
      var previousContext := config.previousContext;
      var inverseTemplate := config.inverseTemplate;
      var displayTemplate := config.displayTemplate;

      var result := NormalizedValue();
      lastNormalizedValue := result;

      if shouldDisplay(result) {
        template := displayTemplate;
        if preserveContext {
          context := previousContext;
        } else if displayTemplate.Present() {
          context := result;
        } else {
          if IsNullish(result) {
            result := Str("");
          }
          buffer := buffer + [Pushed(result)];
          return;
        }
      } else if inverseTemplate.Present() {
        template := inverseTemplate;
        if preserveContext {
          context := previousContext;
        } else {
          context := result;
        }
      } else {
        template := EmptyOutput;
      }
      SuperRender();
    }

    /** The base view's render into the buffer */
    method SuperRender()
      modifies this`buffer
      ensures Snapshot() == BaseRender(old(Snapshot()))
    {
      buffer := buffer + [TemplateOutput(template, context)];
    }

    /** The base view's `rerender`: the view renders again */
    method Rerender()
      modifies this`template, this`context, this`lastNormalizedValue, this`buffer
      ensures Snapshot() == Rendered(config, source, old(Snapshot()))
    {
      Render();
    }

    method RerenderIfNeeded()
      modifies this`template, this`context, this`lastNormalizedValue, this`buffer
      ensures Snapshot() == Checked(General(config), currentState, source, old(Snapshot()))
    {
      match RerenderIfNeededEntry(currentState)
      case Absorb =>
      case CompareAndRerender =>
        if NormalizedValue() != lastNormalizedValue {
          Rerender();
        }
    }

    /** The bound source now yields `value` (the source is external to the view) */
    method SourceChanged(value: Value)
      modifies this`source
      ensures source == value
    {
      source := value;
    }

    /** The base view's lifecycle moves the view to `state` */
    method Transition(state: LifecycleState)
      modifies this`currentState
      ensures currentState == state
    {
      currentState := state;
    }
  }

  /** `BoundIfView`: a view selected by the truthiness of a condition stream */
  class BoundIfView {
    const config: IfConfig
    var stream: Value    // what `conditionStream.value()` currently returns
    var pending: bool    // a `rerenderIfNeeded` is scheduled in the render queue
    var currentState: LifecycleState
    var template: Template
    var context: Value   // `_context`, inherited from the enclosing view
    var lastNormalizedValue: Value
    var buffer: seq<Chunk>

    function Snapshot(): Fields
      reads this
    {
      Fields(template, context, lastNormalizedValue, buffer)
    }

    function ViewState(): IfViewState
      reads this
    {
      IfViewState(Snapshot(), stream, pending)
    }

    /** `init`: the view subscribes to the condition stream; nothing is scheduled yet */
    constructor (config: IfConfig, stream: Value, context: Value)
      ensures this.config == config && currentState == PreRender
      ensures ViewState() == IfViewState(Fields(NoTemplate, context, Undefined, []), stream, false)
    {
      this.config := config;
      this.stream := stream;
      pending := false;
      currentState := PreRender;
      template := NoTemplate;
      this.context := context;
      lastNormalizedValue := Undefined;
      buffer := [];
    }

    /** The condition stream's value itself: this view has no normalizer */
    function NormalizedValue(): (r: Value)
      reads this
      ensures r == Normalize(stream, None)
    {
      stream
    }

    method Render()
      modifies this`template, this`lastNormalizedValue, this`buffer
      ensures Snapshot() == IfRendered(config, stream, old(Snapshot()))
    {
      var result := stream;
      lastNormalizedValue := result;

      if Truthy(result) {
        template := config.truthyTemplate;
      } else {
        template := config.falsyTemplate;
      }
      SuperRender();
    }

    /** The base view's render into the buffer */
    method SuperRender()
      modifies this`buffer
      ensures Snapshot() == BaseRender(old(Snapshot()))
    {
      buffer := buffer + [TemplateOutput(template, context)];
    }

    /** The base view's `rerender`: the view renders again */
    method Rerender()
      modifies this`template, this`lastNormalizedValue, this`buffer
      ensures Snapshot() == IfRendered(config, stream, old(Snapshot()))
    {
      Render();
    }

    method RerenderIfNeeded()
      modifies this`template, this`lastNormalizedValue, this`buffer
      ensures Snapshot() == Checked(Conditional(config), currentState, stream, old(Snapshot()))
    {
      match RerenderIfNeededEntry(currentState)
      case Absorb =>
      case CompareAndRerender =>
        if NormalizedValue() != lastNormalizedValue {
          Rerender();
        }
    }

    /**
      The condition stream takes `value` and calls the subscription callback,
      which schedules `rerenderIfNeeded` once in the render queue.
     */
    method StreamChanged(value: Value)
      modifies this`stream, this`pending
      ensures ViewState() == StreamNotified(old(ViewState()), value)
    {
      stream := value;
      pending := true;
    }

    /** The run loop's render queue runs this view's scheduled check, if any */
    method FlushRenderQueue()
      modifies this`pending, this`template, this`lastNormalizedValue, this`buffer
      ensures ViewState() == RenderQueueFlushed(config, currentState, old(ViewState()))
    {
      if pending {
        pending := false;
        RerenderIfNeeded();
      }
    }

    /** The base view's lifecycle moves the view to `state` */
    method Transition(state: LifecycleState)
      modifies this`currentState
      ensures currentState == state
    {
      currentState := state;
    }
  }
}
