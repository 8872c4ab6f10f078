/**
  Properties of the re-render decision logic over several calls: a second
  check after a render is a no-op, a run of checks renders once per change of
  the normalized value, stale templates never survive a render, and a burst of
  stream notifications leads to a single check against the final value.
 */
module BoundViewProperties {

  import opened Wrappers
  import opened JsValues
  import opened ViewStates
  import opened BoundViews

  /** `rerenderIfNeeded` called once per value the source takes, in order */
  function Replay(v: Variant, state: LifecycleState, f: Fields, raws: seq<Value>): (g: Fields)
    decreases |raws|
  {
    if raws == [] then f else Replay(v, state, Checked(v, state, raws[0], f), raws[1..])
  }

  /** How many times the normalized value differs from the one before it, starting from `last` */
  function Changes(v: Variant, last: Value, raws: seq<Value>): (n: nat)
    decreases |raws|
  {
    if raws == [] then 0
    else
      var n := NormalizedValueOf(v, raws[0]);
      (if n != last then 1 else 0) + Changes(v, n, raws[1..])
  }

  /** The stream takes each of `values` in turn, notifying its subscriber each time */
  function Notifications(s: IfViewState, values: seq<Value>): (t: IfViewState)
    decreases |values|
  {
    if values == [] then s else Notifications(StreamNotified(s, values[0]), values[1..])
  }

  /** Right after a render, a check in the DOM with the source unchanged does nothing */
  lemma CheckAfterRenderIsNoOp(v: Variant, raw: Value, f: Fields)
    ensures Checked(v, InDom, raw, RenderOf(v, raw, f)) == RenderOf(v, raw, f)
  {
  }

  /** Two checks in a row with no change in between render at most once */
  lemma SecondCheckIsNoOp(v: Variant, state: LifecycleState, raw: Value, f: Fields)
    ensures Checked(v, state, raw, Checked(v, state, raw, f)) == Checked(v, state, raw, f)
    ensures |Checked(v, state, raw, Checked(v, state, raw, f)).buffer| <= |f.buffer| + 1
  {
  }

  /** The template a render selects depends on the configuration and the value only, never on the previous one */
  lemma RenderedTemplateIsNeverStale(cfg: BindConfig, raw: Value, f1: Fields, f2: Fields)
    ensures Rendered(cfg, raw, f1).template == Rendered(cfg, raw, f2).template
  {
  }

  /** Outside the DOM, any number of checks leaves the view as it was */
  lemma {:induction false} ReplayOutsideDomChangesNothing(v: Variant, state: LifecycleState, f: Fields, raws: seq<Value>)
    requires state != InDom
    ensures Replay(v, state, f, raws) == f
    decreases |raws|
  {
    if raws != [] {
      ReplayOutsideDomChangesNothing(v, state, Checked(v, state, raws[0], f), raws[1..]);
    }
  }

  /**
    In the DOM, a run of checks renders exactly once per change of the
    normalized value, keeps all earlier output, and ends having recorded the
    normalized value of the last source value.
   */
  lemma {:induction false} ReplayInDomRendersOncePerChange(v: Variant, f: Fields, raws: seq<Value>)
    ensures |Replay(v, InDom, f, raws).buffer| == |f.buffer| + Changes(v, f.lastNormalizedValue, raws)
    ensures f.buffer <= Replay(v, InDom, f, raws).buffer
    ensures raws != [] ==>
              Replay(v, InDom, f, raws).lastNormalizedValue == NormalizedValueOf(v, raws[|raws| - 1])
    decreases |raws|
  {
    if raws != [] {
      var g := Checked(v, InDom, raws[0], f);
      assert g.lastNormalizedValue == NormalizedValueOf(v, raws[0]);
      assert f.buffer <= g.buffer;
      ReplayInDomRendersOncePerChange(v, g, raws[1..]);
      if |raws| > 1 {
        assert raws[1..][|raws[1..]| - 1] == raws[|raws| - 1];
      }
    }
  }

  /** Source values that all normalize to the recorded value never cause a render */
  lemma {:induction false} UnchangedValuesNeverRerender(v: Variant, state: LifecycleState, f: Fields, raws: seq<Value>)
    requires forall i :: 0 <= i < |raws| ==> NormalizedValueOf(v, raws[i]) == f.lastNormalizedValue
    ensures Replay(v, state, f, raws) == f
    decreases |raws|
  {
    if raws != [] {
      assert NormalizedValueOf(v, raws[0]) == f.lastNormalizedValue;
      assert Checked(v, state, raws[0], f) == f;
      UnchangedValuesNeverRerender(v, state, f, raws[1..]);
    }
  }

  /** However many notifications arrive, one check is pending and the stream holds the last value */
  lemma {:induction false} NotificationsCoalesce(s: IfViewState, values: seq<Value>)
    requires values != []
    ensures Notifications(s, values) == s.(stream := values[|values| - 1], pending := true)
    decreases |values|
  {
    if |values| > 1 {
      NotificationsCoalesce(StreamNotified(s, values[0]), values[1..]);
    }
  }

  /**
    A burst of stream updates followed by the render queue leads to exactly one
    check, made against the final value, and at most one render.
   */
  lemma OneCheckPerRenderQueue(cfg: IfConfig, state: LifecycleState, s: IfViewState, values: seq<Value>)
    requires values != []
    ensures RenderQueueFlushed(cfg, state, Notifications(s, values)).fields ==
            Checked(Conditional(cfg), state, values[|values| - 1], s.fields)
    ensures !RenderQueueFlushed(cfg, state, Notifications(s, values)).pending
    ensures |RenderQueueFlushed(cfg, state, Notifications(s, values)).fields.buffer| <= |s.fields.buffer| + 1
  {
    NotificationsCoalesce(s, values);
  }

  /** `v => v > 0` over integers */
  predicate Positive(v: Value)
  {
    v.Int? && v.i > 0
  }

  /** A `{{#if}}`-style binding: display template 1, inverse template 2, context preserved */
  function PositiveIf(): BindConfig
  {
    BindConfig(Positive, true, Obj(0), Compiled(1), Compiled(2), None)
  }

  /** The source yields 1, then -1, then -1 again: display, inverse, then nothing more */
  lemma PositiveScenario(f: Fields)
    ensures var first := Rendered(PositiveIf(), Int(1), f);
            var second := Checked(General(PositiveIf()), InDom, Int(-1), first);
            var third := Checked(General(PositiveIf()), InDom, Int(-1), second);
            && first.template == Compiled(1)
            && second.template == Compiled(2)
            && second.context == Obj(0)
            && |second.buffer| == |f.buffer| + 2
            && third == second
  {
  }

  /** No inverse template and a false predicate after a true one: the empty template replaces the old one */
  lemma MissingInverseRendersEmpty(f: Fields)
    ensures var cfg := PositiveIf().(inverseTemplate := NoTemplate);
            var shown := Rendered(cfg, Int(1), f);
            var hidden := Checked(General(cfg), InDom, Int(0), shown);
            && shown.template == Compiled(1)
            && hidden.template == EmptyOutput
            && hidden.buffer[|hidden.buffer| - 1] == TemplateOutput(EmptyOutput, shown.context)
  {
  }

  /**
    A boolean stream starts true with templates A (1) and B (2): the first
    render selects A; the stream then pushes false, the render queue runs one
    check, and it selects B.
   */
  lemma BooleanStreamScenario(s: IfViewState)
    requires s.stream == Bool(true)
    ensures var cfg := IfConfig(Compiled(1), Compiled(2));
            var initial := s.(fields := IfRendered(cfg, s.stream, s.fields));
            var flushed := RenderQueueFlushed(cfg, InDom, StreamNotified(initial, Bool(false)));
            && initial.fields.template == Compiled(1)
            && flushed.fields.template == Compiled(2)
            && |flushed.fields.buffer| == |s.fields.buffer| + 2
            && !flushed.pending
  {
  }

  /**
    The 1, -1, -1 scenario driven through a `BoundView` object: the view is
    put in the DOM, renders, and is then checked as its source changes.
   */
  method BoundViewObjectScenario()
  {
    var view := new BoundView(PositiveIf(), Int(1), Obj(7));
    ghost var start := view.Snapshot();
    view.Transition(InDom);
    view.Render();
    ghost var first := view.Snapshot();
    assert first == Rendered(PositiveIf(), Int(1), start);
    view.SourceChanged(Int(-1));
    view.RerenderIfNeeded();
    ghost var second := view.Snapshot();
    assert second == Checked(General(PositiveIf()), InDom, Int(-1), first);
    view.RerenderIfNeeded();
    assert view.Snapshot() == Checked(General(PositiveIf()), InDom, Int(-1), second);
    PositiveScenario(start);
    assert view.template == Compiled(2) && |view.buffer| == 2;
    view.Transition(Destroying);
    view.SourceChanged(Int(5));
    view.RerenderIfNeeded();
    assert view.template == Compiled(2) && |view.buffer| == 2;
  }

  /**
    The boolean-stream scenario driven through a `BoundIfView` object: two
    stream updates before the render queue runs lead to one check, which
    renders the falsy template for the last value.
   */
  method BoundIfViewObjectScenario()
  {
    var view := new BoundIfView(IfConfig(Compiled(1), Compiled(2)), Bool(true), Obj(3));
    view.Transition(InDom);
    view.Render();
    assert view.template == Compiled(1) && |view.buffer| == 1;
    view.StreamChanged(Bool(true));
    view.StreamChanged(Bool(false));
    view.FlushRenderQueue();
    assert view.template == Compiled(2) && view.context == Obj(3) && |view.buffer| == 2;
    assert !view.pending;
    view.FlushRenderQueue();
    assert |view.buffer| == 2;
  }
}
