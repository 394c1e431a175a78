/**
 * The lifecycle side of NativeActivity: the mNativeStarted flag, the layout
 * listener, the handler's queue of posted runnables, the cached frame geometry
 * and the layout params written by updateVideoSurfaces. nativeStart,
 * nativeStop, attachViews, detachViews and finish are recorded as actions.
 */
module Activity {
  import opened Options
  import opened Geometry

  /** CURRENT_SIZE: never reassigned, so every update uses SURFACE_BEST_FIT. */
  const CurrentSize: SizeMode := BestFit

  /** The calls out of the activity that the lifecycle sequences. */
  datatype Action =
    | AttachViews
    | DetachViews
    | NativeStart(ok: bool)
    | NativeStop
    | Finish

  // ---------------------------------------------------------------------------
  // Properties of the action trace

  /** Once a nativeStart has succeeded, no further nativeStart is attempted. */
  ghost predicate StartOnlyOnce(t: seq<Action>) {
    forall i, j | 0 <= i < j < |t| && t[i] == NativeStart(true) :: !t[j].NativeStart?
  }

  /** Every nativeStop comes after a successful nativeStart. */
  ghost predicate StopOnlyAfterStart(t: seq<Action>) {
    forall j | 0 <= j < |t| && t[j] == NativeStop :: NativeStart(true) in t[..j]
  }

  /** The number of successful nativeStart calls in a trace. */
  function SuccessfulStarts(t: seq<Action>): nat {
    if t == [] then 0
    else SuccessfulStarts(t[..|t| - 1]) + (if t[|t| - 1] == NativeStart(true) then 1 else 0)
  }

  lemma {:induction false} NoSuccessNoCount(t: seq<Action>)
    requires NativeStart(true) !in t
    ensures SuccessfulStarts(t) == 0
  {
    if t != [] {
      assert t[..|t| - 1] <= t;
      NoSuccessNoCount(t[..|t| - 1]);
    }
  }

  /** The engine is started successfully at most once per activity instance. */
  lemma {:induction false} AtMostOneSuccessfulStart(t: seq<Action>)
    requires StartOnlyOnce(t)
    ensures SuccessfulStarts(t) <= 1
  {
    if t != [] {
      var p := t[..|t| - 1];
      assert StartOnlyOnce(p) by {
        forall i, j | 0 <= i < j < |p| && p[i] == NativeStart(true)
          ensures !p[j].NativeStart?
        {
          assert t[i] == p[i] && t[j] == p[j];
        }
      }
      if t[|t| - 1] == NativeStart(true) {
        assert NativeStart(true) !in p by {
          forall i | 0 <= i < |p| ensures p[i] != NativeStart(true) {
            assert t[i] == p[i];
          }
        }
        NoSuccessNoCount(p);
      } else {
        AtMostOneSuccessfulStart(p);
      }
    }
  }

  lemma AppendKeepsStartOnlyOnce(t: seq<Action>, a: Action)
    requires StartOnlyOnce(t)
    requires a.NativeStart? ==> NativeStart(true) !in t
    ensures StartOnlyOnce(t + [a])
  {
  }

  lemma AppendKeepsStopOnlyAfterStart(t: seq<Action>, a: Action)
    requires StopOnlyAfterStart(t)
    requires a == NativeStop ==> NativeStart(true) in t
    ensures StopOnlyAfterStart(t + [a])
  {
    var t' := t + [a];
    forall j | 0 <= j < |t'| && t'[j] == NativeStop
      ensures NativeStart(true) in t'[..j]
    {
      if j < |t| {
        assert t'[..j] == t[..j];
        assert t[j] == t'[j];
      } else {
        assert t'[..j] == t;
      }
    }
  }

  // ---------------------------------------------------------------------------
  // The handler's queue

  /** No runnable is posted twice. */
  ghost predicate Distinct<T>(q: seq<T>) {
    forall i, j | 0 <= i < j < |q| :: q[i] != q[j]
  }

  /** Handler.removeCallbacks: every posting of x taken out, the rest in order. */
  function Without<T(==)>(q: seq<T>, x: T): (r: seq<T>)
    ensures forall i | 0 <= i < |r| :: r[i] in q && r[i] != x
    ensures forall i | 0 <= i < |q| && q[i] != x :: q[i] in r
    ensures x !in r
    ensures |r| <= |q|
  {
    if q == [] then []
    else (if q[0] == x then [] else [q[0]]) + Without(q[1..], x)
  }

  /** removeCallbacks takes out every posting of x and keeps every other posting as often as it was made. */
  lemma {:induction false} WithoutCounts<T>(q: seq<T>, x: T)
    ensures multiset(Without(q, x)) == multiset(q)[x := 0]
  {
    if q != [] {
      var rest := Without(q[1..], x);
      WithoutCounts(q[1..], x);
      assert q == [q[0]] + q[1..];
      assert multiset(q) == multiset{q[0]} + multiset(q[1..]);
      if q[0] != x {
        assert multiset([q[0]] + rest) == multiset{q[0]} + multiset(rest);
      }
    }
  }

  /** removeCallbacks works posting by posting, so the kept postings stay in order. */
  lemma {:induction false} WithoutAppend<T>(a: seq<T>, b: seq<T>, x: T)
    ensures Without(a + b, x) == Without(a, x) + Without(b, x)
  {
    if a == [] {
      assert a + b == b;
    } else {
      assert (a + b)[1..] == a[1..] + b;
      WithoutAppend(a[1..], b, x);
    }
  }

  lemma {:induction false} WithoutKeepsDistinct<T>(q: seq<T>, x: T)
    requires Distinct(q)
    ensures Distinct(Without(q, x))
  {
    if q != [] {
      var rest := q[1..];
      assert Distinct(rest) by {
        forall i, j | 0 <= i < j < |rest| ensures rest[i] != rest[j] {
          assert rest[i] == q[i + 1] && rest[j] == q[j + 1];
        }
      }
      WithoutKeepsDistinct(rest, x);
      if q[0] != x {
        assert q[0] !in rest by {
          forall k | 0 <= k < |rest| ensures rest[k] != q[0] {
            assert rest[k] == q[k + 1];
          }
        }
        var w := Without(rest, x);
        assert q[0] !in w;
        var r := [q[0]] + w;
        forall i, j | 0 <= i < j < |r| ensures r[i] != r[j] {
          assert r[j] == w[j - 1];
          if i > 0 {
            assert r[i] == w[i - 1];
          }
        }
      }
    }
  }

  /** removeCallbacks(x) then post(x): x is pending exactly once, last, and nothing is posted twice. */
  lemma RepostKeepsOnePending<T>(q: seq<T>, x: T)
    requires Distinct(q)
    ensures var r := Without(q, x) + [x];
            Distinct(r) && r[|r| - 1] == x && multiset(r)[x] == 1
            && forall i | 0 <= i < |q| :: q[i] in r
  {
    var w := Without(q, x);
    var r := w + [x];
    WithoutKeepsDistinct(q, x);
    forall i, j | 0 <= i < j < |r| ensures r[i] != r[j] {
      assert r[i] == w[i];
      if j < |w| {
        assert r[j] == w[j];
      }
    }
    assert multiset(r) == multiset(w) + multiset{x};
    assert x !in multiset(w);
  }

  // ---------------------------------------------------------------------------
  // The activity

  /** A View.OnLayoutChangeListener; each one owns its own update runnable. */
  class LayoutListener {
    constructor () {}
  }

  class NativeActivity {
    var nativeStarted: bool
    var listener: LayoutListener?
    /** The listeners registered on mVideoSurfaceFrame. */
    var frameListeners: set<LayoutListener>
    /** The runnables posted on mHandler, each named by the listener that owns it. */
    var pending: seq<LayoutListener>
    /** mVideoWidth .. mVideoSarDen. */
    var video: VideoLayout
    /** Whether the subtitles surface was inflated (ENABLE_SUBTITLES). */
    const hasSubtitles: bool
    /** The last setWindowSize and the layout params last written; None until written. */
    var windowSize: Option<Rect>
    var videoParams: Option<Rect>
    var subtitlesParams: Option<Rect>
    var frameParams: Option<Rect>
    var actions: seq<Action>

    ghost predicate Valid()
      reads this
    {
      && Resolvable(video)
      && frameListeners == (if listener == null then {} else {listener})
      && Distinct(pending)
      && (nativeStarted <==> NativeStart(true) in actions)
      && StartOnlyOnce(actions)
      && StopOnlyAfterStart(actions)
      && (hasSubtitles ==> subtitlesParams == videoParams)
      && (!hasSubtitles ==> subtitlesParams == None)
    }

    /** The field initialisers, after onCreate has found (and maybe inflated) the views. */
    constructor (subtitles: bool)
      ensures Valid()
      ensures !nativeStarted && listener == null && pending == [] && actions == []
      ensures video == VideoLayout(0, 0, 0, 0, 0, 0) && hasSubtitles == subtitles
      ensures windowSize == None && videoParams == None && frameParams == None
    {
      nativeStarted := false;
      listener := null;
      frameListeners := {};
      pending := [];
      video := VideoLayout(0, 0, 0, 0, 0, 0);
      hasSubtitles := subtitles;
      windowSize, videoParams, subtitlesParams, frameParams := None, None, None, None;
      actions := [];
    }

    /** onStart: attach the views, create the listener if there is none, register it. */
    method OnStart()
      requires Valid()
      modifies this`listener, this`frameListeners, this`actions
      ensures Valid()
      ensures old(listener) != null ==> listener == old(listener)
      ensures old(listener) == null ==> fresh(listener)
      ensures listener != null && frameListeners == {listener}
      ensures actions == old(actions) + [AttachViews]
    {
      actions := actions + [AttachViews];
      AppendKeepsStartOnlyOnce(old(actions), AttachViews);
      AppendKeepsStopOnlyAfterStart(old(actions), AttachViews);
      if listener == null {
        listener := new LayoutListener();
      }
      frameListeners := frameListeners + {listener};
    }

    /** onStop: unregister and drop the listener, stop the engine if it was started, detach. */
    method OnStop()
      requires Valid()
      modifies this`listener, this`frameListeners, this`actions
      ensures Valid()
      ensures listener == null && frameListeners == {}
      ensures actions == old(actions) + (if nativeStarted then [NativeStop] else []) + [DetachViews]
    {
      if listener != null {
        frameListeners := frameListeners - {listener};
        listener := null;
      }
      if nativeStarted {
        AppendKeepsStartOnlyOnce(actions, NativeStop);
        AppendKeepsStopOnlyAfterStart(actions, NativeStop);
        actions := actions + [NativeStop];
      }
      AppendKeepsStartOnlyOnce(actions, DetachViews);
      AppendKeepsStopOnlyAfterStart(actions, DetachViews);
      actions := actions + [DetachViews];
    }

    /** onSurfacesCreated: start the engine unless it already was; finish on failure. */
    method OnSurfacesCreated(startOk: bool)
      requires Valid()
      modifies this`nativeStarted, this`actions
      ensures Valid()
      ensures old(nativeStarted) ==> nativeStarted && actions == old(actions)
      ensures !old(nativeStarted) && startOk ==>
                nativeStarted && actions == old(actions) + [NativeStart(true)]
      ensures !old(nativeStarted) && !startOk ==>
                !nativeStarted && actions == old(actions) + [NativeStart(false), Finish]
    {
      if !nativeStarted {
        AppendKeepsStartOnlyOnce(actions, NativeStart(startOk));
        AppendKeepsStopOnlyAfterStart(actions, NativeStart(startOk));
        actions := actions + [NativeStart(startOk)];
        if !startOk {
          AppendKeepsStartOnlyOnce(actions, Finish);
          AppendKeepsStopOnlyAfterStart(actions, Finish);
          actions := actions + [Finish];
          return;
        }
      }
      nativeStarted := true;
    }

    /** onSurfacesDestroyed: stop the engine if it was started. */
    method OnSurfacesDestroyed()
      requires Valid()
      modifies this`actions
      ensures Valid()
      ensures actions == old(actions) + (if nativeStarted then [NativeStop] else [])
    {
      if nativeStarted {
        AppendKeepsStartOnlyOnce(actions, NativeStop);
        AppendKeepsStopOnlyAfterStart(actions, NativeStop);
        actions := actions + [NativeStop];
      }
    }

    /**
     * The frame was laid out again; its registered listener reposts its
     * runnable when one of the four bounds moved.
     */
    method OnLayoutChange(left: int, top: int, right: int, bottom: int,
                          oldLeft: int, oldTop: int, oldRight: int, oldBottom: int)
      requires Valid()
      modifies this`pending
      ensures Valid()
      ensures var moved := left != oldLeft || top != oldTop || right != oldRight || bottom != oldBottom;
              if listener != null && moved then pending == Without(old(pending), listener) + [listener]
              else pending == old(pending)
      ensures listener != null ==> multiset(pending)[listener] <= 1
    {
      if listener != null {
        if left != oldLeft || top != oldTop || right != oldRight || bottom != oldBottom {
          RepostKeepsOnePending(pending, listener);
          pending := Without(pending, listener) + [listener];
        } else {
          DistinctCountsOnce(pending, listener);
        }
      }
    }

    /** The looper runs the oldest posted runnable, which calls updateVideoSurfaces. */
    method RunPending(sw: nat, sh: nat, portrait: bool)
      requires Valid()
      modifies this`pending, this`windowSize, this`videoParams, this`subtitlesParams, this`frameParams
      ensures Valid()
      ensures old(pending) == [] ==> pending == [] && Unchanged(old(windowSize), old(videoParams), old(frameParams))
      ensures old(pending) != [] ==>
                pending == old(pending)[1..]
                && Applied(SurfaceUpdateFor(video, sw, sh, portrait, CurrentSize),
                           old(windowSize), old(videoParams), old(frameParams))
    {
      if pending != [] {
        assert Distinct(pending[1..]) by {
          forall i, j | 0 <= i < j < |pending[1..]| ensures pending[1..][i] != pending[1..][j] {
            assert pending[1..][i] == pending[i + 1] && pending[1..][j] == pending[j + 1];
          }
        }
        pending := pending[1..];
        UpdateVideoSurfaces(sw, sh, portrait);
      }
    }

    /** onNewLayout: cache the frame geometry libvlc reports and update the surfaces. */
    method OnNewLayout(v: VideoLayout, sw: nat, sh: nat, portrait: bool)
      requires Valid() && Resolvable(v)
      modifies this`video, this`windowSize, this`videoParams, this`subtitlesParams, this`frameParams
      ensures Valid()
      ensures video == v
      ensures Applied(SurfaceUpdateFor(v, sw, sh, portrait, CurrentSize),
                      old(windowSize), old(videoParams), old(frameParams))
    {
      video := v;
      UpdateVideoSurfaces(sw, sh, portrait);
    }

    /** True when the window size and the layout params are the ones given. */
    ghost predicate Unchanged(w: Option<Rect>, vp: Option<Rect>, fp: Option<Rect>)
      reads this
    {
      windowSize == w && videoParams == vp && frameParams == fp
    }

    /** True when the window size and layout params are those an update u writes over the old ones. */
    ghost predicate Applied(u: SurfaceUpdate, w: Option<Rect>, vp: Option<Rect>, fp: Option<Rect>)
      reads this
    {
      match u
      case NoVideo => Unchanged(w, vp, fp)
      case InvalidSize(window) => Unchanged(Some(window), vp, fp)
      case Resized(window, vr, fr) => Unchanged(Some(window), Some(vr), Some(fr))
    }

    /** updateVideoSurfaces with the decor-view size and orientation it reads. */
    method UpdateVideoSurfaces(sw: nat, sh: nat, portrait: bool)
      requires Valid()
      modifies this`windowSize, this`videoParams, this`subtitlesParams, this`frameParams
      ensures Valid()
      ensures Applied(SurfaceUpdateFor(video, sw, sh, portrait, CurrentSize),
                      old(windowSize), old(videoParams), old(frameParams))
    {
      var u := SurfaceUpdateFor(video, sw, sh, portrait, CurrentSize);
      match u
      case NoVideo =>
      case InvalidSize(window) =>
        windowSize := Some(window);
      case Resized(window, vr, fr) =>
        windowSize := Some(window);
        videoParams := Some(vr);
        if hasSubtitles {
          subtitlesParams := Some(vr);
        }
        frameParams := Some(fr);
    }
  }

  lemma DistinctCountsOnce<T>(q: seq<T>, x: T)
    requires Distinct(q)
    ensures multiset(q)[x] <= 1
  {
    if q != [] {
      var rest := q[1..];
      assert q == [q[0]] + rest;
      assert Distinct(rest) by {
        forall i, j | 0 <= i < j < |rest| ensures rest[i] != rest[j] {
          assert rest[i] == q[i + 1] && rest[j] == q[j + 1];
        }
      }
      DistinctCountsOnce(rest, x);
      if q[0] == x {
        assert x !in rest by {
          forall k | 0 <= k < |rest| ensures rest[k] != x {
            assert rest[k] == q[k + 1];
          }
        }
      }
    }
  }

  // ---------------------------------------------------------------------------
  // Event sequences

  /** A second onSurfacesCreated after a successful one starts nothing. */
  method SurfacesCreatedTwice(a: NativeActivity, secondOk: bool)
    requires a.Valid() && !a.nativeStarted
    modifies a
    ensures a.Valid() && a.nativeStarted
    ensures a.actions == old(a.actions) + [NativeStart(true)]
  {
    a.OnSurfacesCreated(true);
    a.OnSurfacesCreated(secondOk);
  }

  /** After a stop, a new start and new surfaces do not start the engine again. */
  method StopThenRestart(a: NativeActivity, startOk: bool)
    requires a.Valid() && a.nativeStarted
    modifies a
    ensures a.Valid() && a.nativeStarted
    ensures a.actions == old(a.actions) + [NativeStop, DetachViews, AttachViews]
  {
    a.OnStop();
    a.OnStart();
    a.OnSurfacesCreated(startOk);
  }

  /** onStop does not cancel a posted update: it still runs after the stop. */
  method UpdateRunsAfterStop(a: NativeActivity, sw: nat, sh: nat, portrait: bool)
    requires a.Valid() && a.listener != null && a.pending == []
    modifies a
    ensures a.Valid() && a.listener == null && a.pending == []
    ensures a.Applied(SurfaceUpdateFor(a.video, sw, sh, portrait, CurrentSize),
                      old(a.windowSize), old(a.videoParams), old(a.frameParams))
  {
    a.OnLayoutChange(1, 0, 0, 0, 0, 0, 0, 0);
    a.OnStop();
    a.RunPending(sw, sh, portrait);
  }

  /**
   * onStop drops the listener but not its posting; the next onStart makes a
   * new listener with its own runnable, so two updates end up pending.
   */
  method TwoRunnablesAfterRestart(a: NativeActivity)
    requires a.Valid() && a.listener != null && a.pending == []
    modifies a
    ensures a.Valid() && a.listener != null
    ensures |a.pending| == 2 && a.pending[0] == old(a.listener) && a.pending[1] == a.listener
    ensures a.pending[0] != a.pending[1]
  {
    var first := a.listener;
    a.OnLayoutChange(1, 0, 0, 0, 0, 0, 0, 0);
    a.OnStop();
    a.OnStart();
    assert a.listener != first;
    a.OnLayoutChange(1, 0, 0, 0, 0, 0, 0, 0);
  }
}
