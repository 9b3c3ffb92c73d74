/**
 * The render throttle of the message view (static/js/ui-manager.js). While a
 * reply streams, `updateLastMessage` records the newest content and arms a single
 * 80 ms timer; when the timer fires, the content pending at that moment is
 * rendered in streaming mode. `finalRenderLastMessage` cancels the timer and
 * renders once in final mode. The timer is an explicit fire event here.
 */
module Ui {
  import opened Wrappers
  import Markdown

  /** `_streamRenderTimer` (armed or not) and `_pendingContent`. */
  datatype Scheduler = Scheduler(timerArmed: bool, pending: Option<string>)

  /** One call of `markdownRenderer.render` on the last message. */
  datatype RenderCall = RenderCall(content: string, streaming: bool)

  const Idle := Scheduler(false, None)

  /** The renders `renderLastMessageContent(content, streaming)` performs: none without a last message element. */
  function RenderIfPresent(content: string, streaming: bool, hasLast: bool): (r: seq<RenderCall>)
    ensures hasLast <==> r == [RenderCall(content, streaming)]
    ensures !hasLast <==> r == []
  {
    if hasLast then [RenderCall(content, streaming)] else []
  }

  /**
   * `updateLastMessage(content)`: the content is always recorded as pending, and a
   * timer is armed only when none is; the flag says whether this call armed one.
   */
  function Update(s: Scheduler, content: string): (r: (Scheduler, bool))
    ensures r.0.pending == Some(content) && r.0.timerArmed
    ensures r.1 <==> !s.timerArmed
  {
    (Scheduler(true, Some(content)), !s.timerArmed)
  }

  /**
   * The timer callback: it clears itself and renders the content pending at fire
   * time in streaming mode, if any; the pending content itself is kept.
   */
  function Fire(s: Scheduler, hasLast: bool): (r: (Scheduler, seq<RenderCall>))
    requires s.timerArmed
    ensures !r.0.timerArmed && r.0.pending == s.pending
    ensures s.pending.None? ==> r.1 == []
    ensures s.pending.Some? ==> r.1 == RenderIfPresent(s.pending.value, true, hasLast)
  {
    (Scheduler(false, s.pending), if s.pending.Some? then RenderIfPresent(s.pending.value, true, hasLast) else [])
  }

  /**
   * `finalRenderLastMessage(content)`: cancels any timer, drops the pending
   * content and renders `content` once in final mode.
   */
  function Finalize(s: Scheduler, content: string, hasLast: bool): (r: (Scheduler, seq<RenderCall>))
    ensures r.0 == Idle
    ensures r.1 == RenderIfPresent(content, false, hasLast)
  {
    (Idle, RenderIfPresent(content, false, hasLast))
  }

  /** What happens to the last message: new streamed content, the timer firing, or the final render. */
  datatype Event = Updated(content: string) | TimerFired | Finalized(content: string)

  /** The outcome of a run of events: the final state, the renders in order and how many timers were armed. */
  datatype Trace = Trace(state: Scheduler, renders: seq<RenderCall>, armed: nat)

  /** One event: the new state, the renders it performs and whether it armed a timer. A fire event with no timer armed cannot happen and is ignored. */
  function Step(s: Scheduler, e: Event, hasLast: bool): (r: (Scheduler, seq<RenderCall>, nat))
    ensures r.2 <= 1 && |r.1| <= 1
    ensures |r.1| == 1 ==> e.TimerFired? || e.Finalized?
    ensures r.2 == 1 ==> e.Updated?
  {
    match e
    case Updated(c) => var (t, a) := Update(s, c); (t, [], if a then 1 else 0)
    case TimerFired => if s.timerArmed then var (t, out) := Fire(s, hasLast); (t, out, 0) else (s, [], 0)
    case Finalized(c) => var (t, out) := Finalize(s, c, hasLast); (t, out, 0)
  }

  /** Runs events from `s`. */
  function Run(s: Scheduler, events: seq<Event>, hasLast: bool): Trace
    decreases |events|
  {
    if events == [] then Trace(s, [], 0)
    else
      var (s1, out, armed) := Step(s, events[0], hasLast);
      var rest := Run(s1, events[1..], hasLast);
      Trace(rest.state, out + rest.renders, armed + rest.armed)
  }

  /** Only updates, in any number. */
  predicate AllUpdates(events: seq<Event>) {
    forall i :: 0 <= i < |events| ==> events[i].Updated?
  }

  /**
   * Coalescing: any non-empty burst of updates arms exactly one timer (none if one
   * is already armed), renders nothing, and leaves the last content pending.
   */
  lemma {:induction false} BurstArmsOneTimer(s: Scheduler, events: seq<Event>, hasLast: bool)
    requires events != [] && AllUpdates(events)
    ensures var t := Run(s, events, hasLast);
      && t.renders == []
      && t.armed == (if s.timerArmed then 0 else 1)
      && t.state == Scheduler(true, Some(events[|events| - 1].content))
    decreases |events|
  {
    var s1 := Step(s, events[0], hasLast).0;
    if |events| > 1 {
      assert AllUpdates(events[1..]) by {
        forall i | 0 <= i < |events[1..]| ensures events[1..][i].Updated? {
          assert events[1..][i] == events[i + 1];
        }
      }
      BurstArmsOneTimer(s1, events[1..], hasLast);
      assert events[1..][|events[1..]| - 1] == events[|events| - 1];
    }
  }

  /** A burst of updates followed by the timer renders exactly once, the newest content, in streaming mode. */
  lemma BurstThenFireRendersLatest(events: seq<Event>)
    requires events != [] && AllUpdates(events)
    ensures Run(Idle, events + [TimerFired], true).renders == [RenderCall(events[|events| - 1].content, true)]
    ensures Run(Idle, events + [TimerFired], true).armed == 1
  {
    BurstArmsOneTimer(Idle, events, true);
    RunAppend(Idle, events, [TimerFired], true);
  }

  /** Running two event lists one after the other. */
  lemma {:induction false} RunAppend(s: Scheduler, xs: seq<Event>, ys: seq<Event>, hasLast: bool)
    ensures var a := Run(s, xs, hasLast);
      var b := Run(a.state, ys, hasLast);
      Run(s, xs + ys, hasLast) == Trace(b.state, a.renders + b.renders, a.armed + b.armed)
    decreases |xs|
  {
    if xs == [] {
      assert xs + ys == ys;
    } else {
      assert (xs + ys)[0] == xs[0];
      assert (xs + ys)[1..] == xs[1..] + ys;
      var (s1, out, armed) := Step(s, xs[0], hasLast);
      RunAppend(s1, xs[1..], ys, hasLast);
      var a := Run(s1, xs[1..], hasLast);
      var b := Run(a.state, ys, hasLast);
      assert (out + a.renders) + b.renders == out + (a.renders + b.renders);
    }
  }

  /** After finalize, timer events render nothing until content is updated again. */
  lemma {:induction false} NoRenderAfterFinalize(s: Scheduler, c: string, fires: nat, hasLast: bool)
    ensures var t := Run(s, [Finalized(c)] + seq(fires, _ => TimerFired), hasLast);
      t.renders == RenderIfPresent(c, false, hasLast) && t.state == Idle
  {
    var events := [Finalized(c)] + seq(fires, _ => TimerFired);
    assert events[1..] == seq(fires, _ => TimerFired);
    IdleIgnoresFires(fires, hasLast);
  }

  lemma {:induction false} IdleIgnoresFires(fires: nat, hasLast: bool)
    ensures Run(Idle, seq(fires, _ => TimerFired), hasLast) == Trace(Idle, [], 0)
  {
    if fires > 0 {
      var events := seq(fires, _ => TimerFired);
      assert events[0] == TimerFired;
      assert events[1..] == seq(fires - 1, _ => TimerFired);
      IdleIgnoresFires(fires - 1, hasLast);
    }
  }

  /** Number of timer events in a run. */
  function CountFires(events: seq<Event>): nat {
    if events == [] then 0 else (if events[0].TimerFired? then 1 else 0) + CountFires(events[1..])
  }

  /** Number of final renders requested in a run. */
  function CountFinals(events: seq<Event>): nat {
    if events == [] then 0 else (if events[0].Finalized? then 1 else 0) + CountFinals(events[1..])
  }

  /**
   * Streaming renders happen only from timer events, at most one each; final
   * renders only from finalize. Timers coalesce: besides a first one when none is
   * armed, a new timer is armed only after a timer event or a finalize cleared one.
   */
  lemma {:induction false} RendersBounded(s: Scheduler, events: seq<Event>, hasLast: bool)
    ensures |Run(s, events, hasLast).renders| <= CountFires(events) + CountFinals(events)
    ensures Run(s, events, hasLast).armed <= (if s.timerArmed then 0 else 1) + CountFires(events) + CountFinals(events)
    decreases |events|
  {
    if events != [] {
      var (s1, out, a) := Step(s, events[0], hasLast);
      RendersBounded(s1, events[1..], hasLast);
      if events[0].Updated? {
        assert s1.timerArmed && a == (if s.timerArmed then 0 else 1);
      } else {
        assert a == 0;
      }
    }
  }

  class UiManager {
    const renderer: Markdown.MarkdownRenderer
    var isStreaming: bool
    /** Whether `_streamRenderTimer` holds a timer. */
    var timerArmed: bool
    /** `_pendingContent` */
    var pendingContent: Option<string>
    /** The renders of the last message performed so far, in order. */
    var renders: seq<RenderCall>
    /** The `data-theme` attribute of the document, if set. */
    var theme: Option<string>
    /** The theme persisted by `saveTheme`. */
    ghost var savedTheme: Option<string>
    /** The send/stop buttons and the input box, as `updateInputState` leaves them. */
    var sendShown: bool
    var stopShown: bool
    var inputDisabled: bool

    function State(): Scheduler
      reads this
    {
      Scheduler(timerArmed, pendingContent)
    }

    constructor(renderer: Markdown.MarkdownRenderer, theme: Option<string>)
      ensures this.renderer == renderer && this.theme == theme
      ensures !isStreaming && State() == Idle && renders == []
    {
      this.renderer := renderer;
      this.theme := theme;
      isStreaming := false;
      timerArmed := false;
      pendingContent := None;
      renders := [];
      savedTheme := None;
      sendShown := true;
      stopShown := false;
      inputDisabled := false;
    }

    /** `renderLastMessageContent(content, isStreaming)`: nothing happens without a last message element. */
    method RenderLastMessageContent(content: string, streaming: bool, hasLast: bool)
      modifies this
      ensures renders == old(renders) + RenderIfPresent(content, streaming, hasLast)
      ensures State() == old(State()) && isStreaming == old(isStreaming) && theme == old(theme)
    {
      if hasLast {
        renders := renders + [RenderCall(content, streaming)];
      }
    }

    /** `updateLastMessage(content)`; `armedTimer` says whether a new timer was set. */
    method UpdateLastMessage(content: string) returns (armedTimer: bool)
      modifies this
      ensures (State(), armedTimer) == Update(old(State()), content)
      ensures renders == old(renders) && isStreaming == old(isStreaming) && theme == old(theme)
    {
      pendingContent := Some(content);
      armedTimer := false;
      if !timerArmed {
        timerArmed := true;
        armedTimer := true;
      }
    }

    /** The 80 ms timer callback. */
    method FireTimer(hasLast: bool)
      requires timerArmed
      modifies this
      ensures var (s, out) := Fire(old(State()), hasLast); State() == s && renders == old(renders) + out
      ensures isStreaming == old(isStreaming) && theme == old(theme)
    {
      timerArmed := false;
      if pendingContent.Some? {
        RenderLastMessageContent(pendingContent.value, true, hasLast);
      }
    }

    /** `finalRenderLastMessage(content)`: also empties the diagram cache. */
    method FinalRenderLastMessage(content: string, hasLast: bool)
      modifies this, renderer
      ensures var (s, out) := Finalize(old(State()), content, hasLast); State() == s && renders == old(renders) + out
      ensures renderer.cache == map[]
      ensures isStreaming == old(isStreaming) && theme == old(theme)
    {
      if timerArmed {
        timerArmed := false;
      }
      pendingContent := None;
      renderer.ClearCache();
      RenderLastMessageContent(content, false, hasLast);
    }

    /** `updateInputState(isStreaming)`: while streaming only the stop button shows and the input is disabled. */
    method UpdateInputState(streaming: bool)
      modifies this
      ensures isStreaming == streaming
      ensures sendShown == !streaming && stopShown == streaming && inputDisabled == streaming
      ensures State() == old(State()) && renders == old(renders) && theme == old(theme)
    {
      isStreaming := streaming;
      sendShown := !streaming;
      stopShown := streaming;
      inputDisabled := streaming;
    }

    /** `toggleTheme()`: `light` becomes `dark`, anything else (including no theme) becomes `light`; it is persisted and the diagram theme follows. */
    method ToggleTheme(mermaidLoaded: bool)
      modifies this, renderer
      ensures theme == Some(NextTheme(old(theme)))
      ensures savedTheme == theme
      ensures mermaidLoaded ==> renderer.cache == map[]
      ensures !mermaidLoaded ==> renderer.cache == old(renderer.cache)
      ensures State() == old(State()) && renders == old(renders) && isStreaming == old(isStreaming)
    {
      var next := NextTheme(theme);
      theme := Some(next);
      savedTheme := Some(next);
      renderer.UpdateMermaidTheme(mermaidLoaded);
    }
  }

  /** The theme `toggleTheme` switches to from the current `data-theme`. */
  function NextTheme(current: Option<string>): (r: string)
    ensures r == "dark" <==> current == Some("light")
    ensures r == "light" <==> current != Some("light")
  {
    if current == Some("light") then "dark" else "light"
  }

  /** Toggling twice from `light` or `dark` returns to it; from no theme or any other value it lands on `dark`. */
  lemma ToggleTwice(current: Option<string>)
    ensures current == Some("light") || current == Some("dark") ==> Some(NextTheme(Some(NextTheme(current)))) == current
    ensures current != Some("light") && current != Some("dark") ==> NextTheme(Some(NextTheme(current))) == "dark"
  {
  }
}
