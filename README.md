# Bound view re-render decisions (Ember.js `ember-views`)

This project is a Dafny model of the logic that decides *whether* and *what*
Ember's bound views re-render. The source file is
`packages/ember-views/lib/views/bound_view.js`. It covers four pieces:

- **The lifecycle state table entry for `rerenderIfNeeded`.** The `_default`
  state absorbs the request. The `inDOM` state compares the freshly
  normalized value with `_lastNormalizedValue` and re-renders on a difference.
- **`normalizedValue`.** It reads the lazy value and applies
  `valueNormalizerFunc` when one is set.
- **`BoundView.render`.** It records the normalized value, then selects the
  display template, the inverse template or the empty-output template. It
  binds `_context` to either `previousContext` or the resolved value. In the
  bare-interpolation case it pushes the value (null and undefined become
  `""`) and returns before the base render.
- **`BoundIfView.render` and its subscription callback.** `render` picks
  `truthyTemplate` or `falsyTemplate` by JavaScript truthiness and never
  touches `_context`. The callback schedules one `rerenderIfNeeded` in the
  run loop's render queue.

Files:

- `js_values.dfy`: JavaScript values, truthiness, and the coercion that bare
  interpolation applies.
- `view_states.dfy`: the lifecycle states and the `rerenderIfNeeded` table.
- `bound_view.dfy` has two layers:
  - pure functions over `Fields`: `template`, `_context`,
    `_lastNormalizedValue` and the render buffer;
  - the classes `BoundView` and `BoundIfView`, whose methods update those
    fields in place and are specified by the pure functions.
- `bound_view_properties.dfy`: lemmas connecting several calls, and two
  scenarios that drive `BoundView` and `BoundIfView` objects through their
  methods.

The mixin `NormalizedRerenderIfNeededSupport` is shared by both views. It is
modelled once, as `Checked`, over a `Variant` that says which view's
`normalizedValue` and `render` apply.

The following are parameters or fields of the model rather than code:

- The lazy value and the condition stream are fields holding their current
  value. External changes to them are the methods `SourceChanged` and
  `StreamChanged`.
- `shouldDisplayFunc` and `valueNormalizerFunc` are total Dafny functions.
- The base view's render (`this._super(buffer)`) appends a
  `TemplateOutput(template, context)` chunk to the buffer.
- The buffer is an append-only log of every chunk written.
- The base view's `rerender` is a new call to `render`.
- Lifecycle transitions are made by the base view. Here they are the method
  `Transition`.

## Model

| member | source | states |
|---|---|---|
| `JsValues.Interpolated` | packages/ember-views/lib/views/bound_view.js:167-171 | null and undefined (the `=== null` / `=== undefined` test at 167, predicate `IsNullish`) are pushed as `""`, every other value unchanged; the pushed value is never null or undefined |
| `JsValues.Truthy` | packages/ember-views/lib/views/bound_view.js:211-215 | the `if (result)` test: false exactly for null, undefined, the empty string, 0 and false |
| `ViewStates.RerenderIfNeededEntry` | packages/ember-views/lib/views/bound_view.js:19-31 | only `inDOM` compares and re-renders; every other state takes the `_default` no-op |
| `BoundViews.Normalize` | packages/ember-views/lib/views/bound_view.js:36-40 | the raw lazy value when no normalizer is set, the normalizer applied to it otherwise |
| `BoundViews.Template.Present` | packages/ember-views/lib/views/bound_view.js:162-175 | the `if (displayTemplate)` / `else if (inverseTemplate)` test: true exactly when the slot holds a template, not null |
| `BoundViews.NormalizedValueOf` | packages/ember-views/lib/views/bound_view.js:36-40 | `normalizedValue()` of either view: the general view normalizes through its configured normalizer (the mixin, 36-40), the `BoundIfView` override returns the stream value itself (203-205) |
| `BoundViews.Rendered` | packages/ember-views/lib/views/bound_view.js:138-188 | the normalized value is recorded on every path; one chunk appended and earlier output kept; display / inverse / empty-template selection; context is `previousContext` when preserved, the result when not preserved and the chosen template exists, unchanged on the empty path; the bare path pushes the coerced value, leaves the context alone and skips the base render |
| `BoundViews.IfRendered` | packages/ember-views/lib/views/bound_view.js:207-218 | records the stream value, selects the truthy or falsy template by truthiness, leaves the context as it was, invokes the base render once |
| `BoundViews.RenderOf` | packages/ember-views/lib/views/bound_view.js:138-148 | the mixin's dispatch to either view's render (`BoundView.render` here, `BoundIfView.render` at 207-209): it records that view's normalized value and appends exactly one chunk to the kept output |
| `BoundViews.Checked` | packages/ember-views/lib/views/bound_view.js:19-31 | outside `inDOM` nothing changes; the view changes if and only if it is in the DOM and the normalized value differs from the recorded one, and then it is a full render |
| `BoundViews.StreamNotified` | packages/ember-views/lib/views/bound_view.js:198-200 | the subscription callback records the new stream value and leaves one check pending, without touching the rendered view state |
| `BoundViews.RenderQueueFlushed` | packages/ember-views/lib/views/bound_view.js:198-200 | running the render queue clears the scheduled request and runs one check when one was pending, nothing otherwise |
| `BoundViews.BoundView.constructor` | packages/ember-views/lib/views/bound_view.js:61-120 | a new view starts in `preRender` with no template, its enclosing context and an empty buffer, and carries the configuration it is given (the class defaults are not modelled) |
| `BoundViews.BoundView.NormalizedValue` | packages/ember-views/lib/views/bound_view.js:36-40 | the lazy value itself when no normalizer is set, the configured normalizer applied to it otherwise; a function, so no view state changes |
| `BoundViews.BoundView.Render` | packages/ember-views/lib/views/bound_view.js:138-188 | the in-place render leaves exactly the state `Rendered` describes for the current lazy value |
| `BoundViews.BoundView.SuperRender` | packages/ember-views/lib/views/bound_view.js:187 | the base render (`this._super(buffer)`, the pure `BaseRender`) appends the current template and context to the buffer |
| `BoundViews.BoundView.Rerender` | packages/ember-views/lib/views/bound_view.js:28 | `view.rerender()` renders the view again, leaving the state `Rendered` describes |
| `BoundViews.BoundView.RerenderIfNeeded` | packages/ember-views/lib/views/bound_view.js:42-44 | dispatching on `currentState` leaves exactly the state `Checked` describes |
| `BoundViews.BoundIfView.constructor` | packages/ember-views/lib/views/bound_view.js:193-201 | a new view starts in `preRender`, subscribed, with no check scheduled |
| `BoundViews.BoundIfView.NormalizedValue` | packages/ember-views/lib/views/bound_view.js:203-205 | the condition stream's value, as the mixin's normalization with no normalizer |
| `BoundViews.BoundIfView.Render` | packages/ember-views/lib/views/bound_view.js:207-218 | the in-place render leaves exactly the state `IfRendered` describes for the current stream value |
| `BoundViews.BoundIfView.SuperRender` | packages/ember-views/lib/views/bound_view.js:217 | the base render (`this._super(buffer)`, the pure `BaseRender`) appends the selected template and the unchanged context to the buffer |
| `BoundViews.BoundIfView.Rerender` | packages/ember-views/lib/views/bound_view.js:28 | `view.rerender()` renders the view again, leaving the state `IfRendered` describes |
| `BoundViews.BoundIfView.RerenderIfNeeded` | packages/ember-views/lib/views/bound_view.js:42-44 | dispatching on `currentState` leaves exactly the state `Checked` describes for this view |
| `BoundViews.BoundIfView.StreamChanged` | packages/ember-views/lib/views/bound_view.js:198-200 | the stream takes the new value and a `rerenderIfNeeded` is scheduled, once |
| `BoundViews.BoundIfView.FlushRenderQueue` | packages/ember-views/lib/views/bound_view.js:199 | the render queue runs the scheduled check, if any, as `RenderQueueFlushed` describes |
| `BoundViewProperties.CheckAfterRenderIsNoOp` | packages/ember-views/lib/views/bound_view.js:146-148 | an `inDOM` check right after a render with the source unchanged is a no-op |
| `BoundViewProperties.SecondCheckIsNoOp` | packages/ember-views/lib/views/bound_view.js:25-31 | two checks in a row with the same source equal one check, so they render at most once |
| `BoundViewProperties.RenderedTemplateIsNeverStale` | packages/ember-views/lib/views/bound_view.js:152-185 | the selected template depends only on configuration and value, never on the template left by an earlier render |
| `BoundViewProperties.ReplayOutsideDomChangesNothing` | packages/ember-views/lib/views/bound_view.js:21-23 | any number of checks outside `inDOM` leave the view unchanged |
| `BoundViewProperties.ReplayInDomRendersOncePerChange` | packages/ember-views/lib/views/bound_view.js:25-31 | over a run of source values, `inDOM` checks render exactly once per change of the normalized value, keep earlier output, and end having recorded the last value |
| `BoundViewProperties.UnchangedValuesNeverRerender` | packages/ember-views/lib/views/bound_view.js:27 | source values that all normalize to the recorded value never cause a render, in any state |
| `BoundViewProperties.NotificationsCoalesce` | packages/ember-views/lib/views/bound_view.js:198-200 | any non-empty burst of stream notifications leaves one pending check and the last value in the stream |
| `BoundViewProperties.OneCheckPerRenderQueue` | packages/ember-views/lib/views/bound_view.js:198-200 | a burst followed by the render queue is one check against the final value, with at most one render |
| `BoundViewProperties.PositiveScenario` | packages/ember-views/lib/views/bound_view.js:152-182 | predicate `v > 0`, values 1, -1, -1: display template, then inverse template with the preserved context, then no further render |
| `BoundViewProperties.MissingInverseRendersEmpty` | packages/ember-views/lib/views/bound_view.js:183-185 | with no inverse template, a false predicate after a true one installs the empty template, not the stale display template |
| `BoundViewProperties.BooleanStreamScenario` | packages/ember-views/lib/views/bound_view.js:198-218 | stream true selects template A; the stream pushes false, one queued check runs and selects B |

## Left out

- The base view (`_MetamorphView`) is not modelled: its render, its `rerender`, and the DOM and metamorph output. Rendering a template appears only as a `TemplateOutput(template, context)` chunk in the buffer. The DOM replacement a real `rerender` performs is not modelled.
- Ember's object machinery is not modelled: `Mixin.create`, `.extend`, `cloneStates`, `merge` and the observer notifications of `get`/`set`. Property reads and writes are plain field accesses.
- The lifecycle states module (`ember-views/views/states`) is not part of this model.
  - Its states appear only as labels: `preRender`, `inBuffer`, `hasElement`, `inDOM`, `destroying`.
  - Every state other than `inDOM` takes the `_default` entry.
- The run loop is not modelled: `run.scheduleOnce`, `_wrapAsScheduled` and queue ordering. Deduplication within one render queue is a single `pending` flag per view.
- The stream library is not modelled. The subscription in `init` is taken to be in place from construction on.
- Unsubscribing on destroy is not modelled, because nothing in this file unsubscribes.
- Floating-point values, NaN and the other strict-equality corner cases are not modelled. Values are a datatype with integers only, compared by Dafny equality.
- Exceptions thrown by `shouldDisplayFunc` or by the normalizer are not modelled. Both are total functions here.
- `BoundViews.Rendered`: every render installs the same `EmptyOutput` value in the empty-template branch. In the source, each render creates a new empty function. The model therefore does not distinguish two empty templates by identity.
- `shouldDisplayFunc` and `valueNormalizerFunc` see only the value: for an object, only its reference, not its properties. So the same source value always normalizes to a `===`-equal value. In the source both are arbitrary JavaScript functions called again on every render and check. A normalizer that reads an object's properties (an array's `length`, say) or builds a new object can make `!==` at line 27 true for an unchanged source, and the view then re-renders. The three lemmas below hold only under this assumption.
- BoundViewProperties.CheckAfterRenderIsNoOp: relies on the same source value normalizing to an equal value, as the previous line says.
- BoundViewProperties.SecondCheckIsNoOp: relies on the same source value normalizing to an equal value, as above.
- BoundViewProperties.UnchangedValuesNeverRerender: relies on the same source value normalizing to an equal value, as above.
- The class defaults of `BoundView` are not modelled (`shouldDisplayFunc: null`, `preserveContext: false`, and null for `previousContext`, `displayTemplate`, `inverseTemplate` and `lazyValue`). The constructor takes a complete configuration, because a null `shouldDisplayFunc` cannot be called and the model's predicate is a total function.
