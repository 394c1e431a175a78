/**
 * The native half of the sample (jni/main.c): the `struct context` that owns
 * a libvlc instance, a media player and a global reference to the Java
 * window, and the JNI entry points that build, start, stop and release it.
 * Every libvlc, JNI and libc call is an opaque action recorded in a trace of
 * calls; what it returns is a parameter of the entry point that makes it.
 */
module Native {
  import opened Options

  /** An opaque non-null pointer or reference. */
  type Handle = nat

  const SampleUrl: string := "http://download.blender.org/peach/bigbuckbunny_movies/BigBuckBunny_640x360.m4v"
  const LibvlcArgs: seq<string> := ["-vvv", "--audio-resampler", "soxr"]
  const MediaOptions: seq<string> :=
    [":file-caching=1500", ":network-caching=1500", ":codec=mediacodec_ndk,mediacodec_jni,all"]

  /** enum surface_layout. */
  datatype SurfaceLayout = BestFit | Ratio16x9 | Ratio4x3 | Original

  /** The static surface_layout every PlayUrl applies. */
  const CurrentLayout: SurfaceLayout := BestFit

  /** The kinds of resource the native code acquires and must give back. */
  datatype Resource = ContextMemory | Libvlc | Player | Media | WindowRef

  /** One call out of the native code, with the result it got. */
  datatype Call =
    | Calloc(ok: bool)
    | Free
    | LibvlcNew(args: seq<string>, result: Option<Handle>)
    | LibvlcRelease(libvlc: Handle)
    | PlayerNew(libvlc: Handle, result: Option<Handle>)
    | PlayerRelease(player: Handle)
    | NewGlobalRef(window: Handle, result: Option<Handle>)
    | DeleteGlobalRef(ref: Option<Handle>)
    | SetAndroidContext(player: Handle, context: Option<Handle>)
    | MediaNewPath(libvlc: Handle, path: string, result: Option<Handle>)
    | MediaNewLocation(libvlc: Handle, location: string, result: Option<Handle>)
    | AddOption(media: Handle, option: string)
    | SetMedia(player: Handle, media: Handle)
    | SetAspectRatio(player: Handle, ratio: Option<string>)
    | SetScale(player: Handle, scale: real)
    | Play(player: Handle, status: int)
    | MediaRelease(media: Handle)
    | PlayerStop(player: Handle)

  // ---------------------------------------------------------------------------
  // Resource accounting over a trace of calls

  /** The resource a call acquires, if any (a failed allocation acquires nothing). */
  function Acquired(c: Call): Option<Resource> {
    match c
    case Calloc(ok) => if ok then Some(ContextMemory) else None
    case LibvlcNew(_, h) => if h.Some? then Some(Libvlc) else None
    case PlayerNew(_, h) => if h.Some? then Some(Player) else None
    case MediaNewPath(_, _, h) => if h.Some? then Some(Media) else None
    case MediaNewLocation(_, _, h) => if h.Some? then Some(Media) else None
    case NewGlobalRef(_, h) => if h.Some? then Some(WindowRef) else None
    case _ => None
  }

  /** The resource a call gives back, if any (DeleteGlobalRef(NULL) gives back nothing). */
  function Released(c: Call): Option<Resource> {
    match c
    case Free => Some(ContextMemory)
    case LibvlcRelease(_) => Some(Libvlc)
    case PlayerRelease(_) => Some(Player)
    case MediaRelease(_) => Some(Media)
    case DeleteGlobalRef(h) => if h.Some? then Some(WindowRef) else None
    case _ => None
  }

  /** What one call changes in the count of r held: +1 acquired, -1 given back. */
  function Delta(c: Call, r: Resource): int {
    (if Acquired(c) == Some(r) then 1 else 0) - (if Released(c) == Some(r) then 1 else 0)
  }

  /** How many of r a trace leaves held: acquisitions minus releases. */
  function Net(t: seq<Call>, r: Resource): int {
    if t == [] then 0 else Delta(t[0], r) + Net(t[1..], r)
  }

  lemma {:induction false} NetAppend(a: seq<Call>, b: seq<Call>, r: Resource)
    ensures Net(a + b, r) == Net(a, r) + Net(b, r)
  {
    if a == [] {
      assert a + b == b;
    } else {
      assert (a + b)[0] == a[0];
      assert (a + b)[1..] == a[1..] + b;
      NetAppend(a[1..], b, r);
    }
  }

  lemma Net2(a: Call, b: Call, r: Resource)
    ensures Net([a, b], r) == Delta(a, r) + Delta(b, r)
  {
    var t1, t2 := [b], [a, b];
    assert t1[1..] == [];
    assert Net(t1, r) == Delta(b, r);
    assert t2[1..] == t1;
  }

  /** Calls that touch no r leave the count of r unchanged. */
  lemma {:induction false} NetNeutral(t: seq<Call>, r: Resource)
    requires forall i | 0 <= i < |t| :: Delta(t[i], r) == 0
    ensures Net(t, r) == 0
  {
    if t != [] {
      NetNeutral(t[1..], r);
    }
  }

  lemma Net3(a: Call, b: Call, c: Call, r: Resource)
    ensures Net([a, b, c], r) == Delta(a, r) + Delta(b, r) + Delta(c, r)
  {
    var t1, t2, t3 := [c], [b, c], [a, b, c];
    assert t1[1..] == [];
    assert Net(t1, r) == Delta(c, r);
    assert t2[1..] == t1;
    assert Net(t2, r) == Delta(b, r) + Net(t1, r);
    assert t3[1..] == t2;
    assert Net(t3, r) == Delta(a, r) + Net(t2, r);
  }

  // ---------------------------------------------------------------------------
  // UpdateSurfaceLayout and PlayUrl's choice of media constructor

  /** The aspect ratio string and scale UpdateSurfaceLayout hands to the player. */
  function LayoutSettings(layout: SurfaceLayout): (s: (Option<string>, real))
    ensures s.1 == (if layout.Original? then 1.0 else 0.0)
    ensures s.0.None? <==> layout.BestFit? || layout.Original?
    ensures layout.Ratio16x9? ==> s.0 == Some("16:9")
    ensures layout.Ratio4x3? ==> s.0 == Some("4:3")
  {
    match layout
    case BestFit => (None, 0.0)
    case Ratio16x9 => (Some("16:9"), 0.0)
    case Ratio4x3 => (Some("4:3"), 0.0)
    case Original => (None, 1.0)
  }

  /** A URL names a local file exactly when its first character is '/'; "" has NUL there. */
  predicate IsPath(url: string) {
    |url| > 0 && url[0] == '/'
  }

  /** The media constructor PlayUrl calls for a URL. */
  function MediaNew(libvlc: Handle, url: string, media: Option<Handle>): (c: Call)
    ensures c.MediaNewPath? <==> IsPath(url)
    ensures c.MediaNewPath? || c.MediaNewLocation?
    ensures Acquired(c) == (if media.Some? then Some(Media) else None)
  {
    if IsPath(url) then MediaNewPath(libvlc, url, media) else MediaNewLocation(libvlc, url, media)
  }

  // ---------------------------------------------------------------------------
  // The call sequences of the entry points

  function CreateCalls(callocOk: bool, libvlc: Option<Handle>, player: Option<Handle>): seq<Call> {
    if !callocOk then [Calloc(false)]
    else if libvlc.None? then [Calloc(true), LibvlcNew(LibvlcArgs, None), Free]
    else if player.None? then
      [Calloc(true), LibvlcNew(LibvlcArgs, libvlc), PlayerNew(libvlc.value, None),
       LibvlcRelease(libvlc.value), Free]
    else [Calloc(true), LibvlcNew(LibvlcArgs, libvlc), PlayerNew(libvlc.value, player)]
  }

  function LayoutCalls(player: Handle, layout: SurfaceLayout): seq<Call> {
    [SetAspectRatio(player, LayoutSettings(layout).0), SetScale(player, LayoutSettings(layout).1)]
  }

  /** What PlayUrl does with a media it created: options, hand-over to the player, layout. */
  function ConfigureCalls(player: Handle, media: Handle): seq<Call> {
    [AddOption(media, MediaOptions[0]), AddOption(media, MediaOptions[1]),
     AddOption(media, MediaOptions[2]), SetMedia(player, media)]
    + LayoutCalls(player, CurrentLayout)
  }

  function PlayCalls(libvlc: Handle, player: Handle, url: string, media: Option<Handle>, status: int): seq<Call> {
    [MediaNew(libvlc, url, media)]
    + if media.None? then []
      else ConfigureCalls(player, media.value) + [Play(player, status), MediaRelease(media.value)]
  }

  function StartCalls(libvlc: Handle, player: Handle, window: Handle, ref: Option<Handle>,
                      media: Option<Handle>, status: int): seq<Call> {
    [NewGlobalRef(window, ref), SetAndroidContext(player, ref)]
    + PlayCalls(libvlc, player, SampleUrl, media, status)
  }

  function StopCalls(player: Handle, ref: Option<Handle>): seq<Call> {
    [PlayerStop(player), SetAndroidContext(player, None), DeleteGlobalRef(ref)]
  }

  function DestroyCalls(libvlc: Handle, player: Handle): seq<Call> {
    [PlayerRelease(player), LibvlcRelease(libvlc), Free]
  }

  // ---------------------------------------------------------------------------
  // What each sequence holds

  /** nativeCreate is all-or-nothing: a full context on success, nothing held on failure. */
  lemma CreateAllOrNothing(callocOk: bool, libvlc: Option<Handle>, player: Option<Handle>, r: Resource)
    ensures Net(CreateCalls(callocOk, libvlc, player), r)
            == if callocOk && libvlc.Some? && player.Some? && r in {ContextMemory, Libvlc, Player}
               then 1 else 0
  {
    var t := CreateCalls(callocOk, libvlc, player);
    if !callocOk {
      assert t[1..] == [];
    } else if libvlc.None? {
      Net3(Calloc(true), LibvlcNew(LibvlcArgs, None), Free, r);
    } else if player.None? {
      var a := [Calloc(true), LibvlcNew(LibvlcArgs, libvlc), PlayerNew(libvlc.value, None)];
      var b := [LibvlcRelease(libvlc.value), Free];
      assert t == a + b;
      NetAppend(a, b, r);
      Net3(a[0], a[1], a[2], r);
      Net2(b[0], b[1], r);
    } else {
      Net3(t[0], t[1], t[2], r);
    }
  }

  /** PlayUrl gives back the media it created, whatever play returns. */
  lemma PlayHoldsNothing(libvlc: Handle, player: Handle, url: string, media: Option<Handle>, status: int, r: Resource)
    ensures Net(PlayCalls(libvlc, player, url, media, status), r) == 0
  {
    var head := [MediaNew(libvlc, url, media)];
    assert head[1..] == [];
    if media.Some? {
      var m := media.value;
      var mid := ConfigureCalls(player, m);
      var tail := [Play(player, status), MediaRelease(m)];
      assert PlayCalls(libvlc, player, url, media, status) == head + (mid + tail);
      NetAppend(head, mid + tail, r);
      NetAppend(mid, tail, r);
      NetNeutral(mid, r);
      Net2(Play(player, status), MediaRelease(m), r);
    } else {
      assert PlayCalls(libvlc, player, url, media, status) == head + [];
    }
  }

  /** nativeStart leaves exactly the window reference held, whether or not playback started. */
  lemma StartHoldsWindowRef(libvlc: Handle, player: Handle, window: Handle, ref: Option<Handle>,
                            media: Option<Handle>, status: int, r: Resource)
    ensures Net(StartCalls(libvlc, player, window, ref, media, status), r)
            == if r == WindowRef && ref.Some? then 1 else 0
  {
    var head := [NewGlobalRef(window, ref), SetAndroidContext(player, ref)];
    NetAppend(head, PlayCalls(libvlc, player, SampleUrl, media, status), r);
    PlayHoldsNothing(libvlc, player, SampleUrl, media, status, r);
  }

  /** nativeStop gives back the window reference it finds, and nothing else. */
  lemma StopReleasesWindowRef(player: Handle, ref: Option<Handle>, r: Resource)
    ensures Net(StopCalls(player, ref), r) == if r == WindowRef && ref.Some? then -1 else 0
  {
    Net3(PlayerStop(player), SetAndroidContext(player, None), DeleteGlobalRef(ref), r);
  }

  /** nativeDestroy gives back the context, libvlc and the player, and not the window reference. */
  lemma DestroyReleasesContext(libvlc: Handle, player: Handle, r: Resource)
    ensures Net(DestroyCalls(libvlc, player), r) == if r in {ContextMemory, Libvlc, Player} then -1 else 0
  {
    Net3(PlayerRelease(player), LibvlcRelease(libvlc), Free, r);
  }

  /** create, start, stop, destroy: every resource acquired is given back. */
  lemma SessionBalanced(libvlc: Handle, player: Handle, window: Handle, ref: Option<Handle>,
                        media: Option<Handle>, status: int, r: Resource)
    ensures Net(CreateCalls(true, Some(libvlc), Some(player))
                + StartCalls(libvlc, player, window, ref, media, status)
                + StopCalls(player, ref)
                + DestroyCalls(libvlc, player), r) == 0
  {
    var c := CreateCalls(true, Some(libvlc), Some(player));
    var s := StartCalls(libvlc, player, window, ref, media, status);
    var p := StopCalls(player, ref);
    var d := DestroyCalls(libvlc, player);
    NetAppend(c + s + p, d, r);
    NetAppend(c + s, p, r);
    NetAppend(c, s, r);
    CreateAllOrNothing(true, Some(libvlc), Some(player), r);
    StartHoldsWindowRef(libvlc, player, window, ref, media, status, r);
    StopReleasesWindowRef(player, ref, r);
    DestroyReleasesContext(libvlc, player, r);
  }

  /**
   * A failed nativeStart is never followed by nativeStop (mNativeStarted stays
   * false), and nativeDestroy does not delete the reference: it stays held.
   */
  lemma FailedStartKeepsWindowRef(libvlc: Handle, player: Handle, window: Handle, ref: Handle,
                                  media: Option<Handle>, status: int)
    ensures Net(CreateCalls(true, Some(libvlc), Some(player))
                + StartCalls(libvlc, player, window, Some(ref), media, status)
                + DestroyCalls(libvlc, player), WindowRef) == 1
  {
    var c := CreateCalls(true, Some(libvlc), Some(player));
    var s := StartCalls(libvlc, player, window, Some(ref), media, status);
    var d := DestroyCalls(libvlc, player);
    NetAppend(c + s, d, WindowRef);
    NetAppend(c, s, WindowRef);
    CreateAllOrNothing(true, Some(libvlc), Some(player), WindowRef);
    StartHoldsWindowRef(libvlc, player, window, Some(ref), media, status, WindowRef);
    DestroyReleasesContext(libvlc, player, WindowRef);
  }

  /** A second nativeStop finds jaWindow NULL and gives back nothing more. */
  lemma StopTwiceReleasesOnce(player: Handle, ref: Handle)
    ensures Net(StopCalls(player, Some(ref)) + StopCalls(player, None), WindowRef) == -1
  {
    NetAppend(StopCalls(player, Some(ref)), StopCalls(player, None), WindowRef);
    StopReleasesWindowRef(player, Some(ref), WindowRef);
    StopReleasesWindowRef(player, None, WindowRef);
  }

  // ---------------------------------------------------------------------------
  // The context and the entry points

  /** struct context: the handles one activity's native side owns. */
  class Context {
    var libvlc: Option<Handle>
    var player: Option<Handle>
    var window: Option<Handle>
    /** False once the context has been freed. */
    ghost var live: bool

    /** calloc: every field NULL. */
    constructor ()
      ensures libvlc == None && player == None && window == None && live
    {
      libvlc, player, window := None, None, None;
      live := true;
    }

    /** A context installed by nativeCreate and not yet freed. */
    ghost predicate Ready()
      reads this
    {
      live && libvlc.Some? && player.Some?
    }
  }

  /** The Java object as the native code sees it: its mInstance field and the calls made for it. */
  class Host {
    var instance: Context?
    var calls: seq<Call>

    constructor ()
      ensures instance == null && calls == []
    {
      instance := null;
      calls := [];
    }

    /** nativeCreate: build the context step by step, undoing each step on failure. */
    method NativeCreate(callocOk: bool, libvlc: Option<Handle>, player: Option<Handle>) returns (ok: bool)
      modifies this
      ensures calls == old(calls) + CreateCalls(callocOk, libvlc, player)
      ensures ok <==> callocOk && libvlc.Some? && player.Some?
      ensures ok ==> fresh(instance) && instance.Ready()
                     && instance.libvlc == libvlc && instance.player == player && instance.window == None
      ensures !ok ==> instance == old(instance)
    {
      if !callocOk {
        calls := calls + [Calloc(false)];
        return false;
      }
      var ctx := new Context();
      calls := calls + [Calloc(true)];
      ctx.libvlc := libvlc;
      calls := calls + [LibvlcNew(LibvlcArgs, libvlc)];
      if libvlc.None? {
        calls := calls + [Free];
        ctx.live := false;
        return false;
      }
      ctx.player := player;
      calls := calls + [PlayerNew(libvlc.value, player)];
      if player.None? {
        calls := calls + [LibvlcRelease(libvlc.value), Free];
        ctx.live := false;
        return false;
      }
      instance := ctx;
      ok := true;
    }

    /** nativeDestroy: release the player, then libvlc, then the memory; mInstance is left as it was. */
    method NativeDestroy()
      requires instance != null ==> instance.Ready()
      modifies this`calls, instance
      ensures instance == old(instance)
      ensures old(instance) == null ==> calls == old(calls)
      ensures old(instance) != null ==>
                && calls == old(calls) + DestroyCalls(old(instance.libvlc).value, old(instance.player).value)
                && !instance.live
                && instance.libvlc == old(instance.libvlc) && instance.player == old(instance.player)
                && instance.window == old(instance.window)
    {
      var ctx := instance;
      if ctx == null {
        return;
      }
      calls := calls + DestroyCalls(ctx.libvlc.value, ctx.player.value);
      ctx.live := false;
    }

    /** UpdateSurfaceLayout: hand the layout's aspect ratio and scale to the player. */
    method UpdateSurfaceLayout(ctx: Context, layout: SurfaceLayout)
      requires ctx.Ready()
      modifies this`calls
      ensures calls == old(calls) + LayoutCalls(ctx.player.value, layout)
    {
      var settings := LayoutSettings(layout);
      calls := calls + [SetAspectRatio(ctx.player.value, settings.0)];
      calls := calls + [SetScale(ctx.player.value, settings.1)];
    }

    /** PlayUrl: create the media, give it to the player, play, and drop the local media reference. */
    method PlayUrl(ctx: Context, url: string, media: Option<Handle>, status: int) returns (ok: bool)
      requires ctx.Ready()
      modifies this`calls
      ensures calls == old(calls) + PlayCalls(ctx.libvlc.value, ctx.player.value, url, media, status)
      ensures ok <==> media.Some? && status == 0
    {
      calls := calls + [MediaNew(ctx.libvlc.value, url, media)];
      if media.None? {
        return false;
      }
      var m := media.value;
      calls := calls + [AddOption(m, MediaOptions[0])];
      calls := calls + [AddOption(m, MediaOptions[1])];
      calls := calls + [AddOption(m, MediaOptions[2])];
      calls := calls + [SetMedia(ctx.player.value, m)];
      UpdateSurfaceLayout(ctx, CurrentLayout);
      assert calls == old(calls) + [MediaNew(ctx.libvlc.value, url, media)] + ConfigureCalls(ctx.player.value, m);
      calls := calls + [Play(ctx.player.value, status)];
      calls := calls + [MediaRelease(m)];
      ok := status == 0;
    }

    /** Stop: stop the player. */
    method Stop(ctx: Context)
      requires ctx.Ready()
      modifies this`calls
      ensures calls == old(calls) + [PlayerStop(ctx.player.value)]
    {
      calls := calls + [PlayerStop(ctx.player.value)];
    }

    /** nativeStart: take a global reference to the window, install it, play the sample. */
    method NativeStart(window: Handle, ref: Option<Handle>, media: Option<Handle>, status: int)
      returns (ok: bool)
      requires instance != null ==> instance.Ready()
      modifies this`calls, instance
      ensures instance == old(instance)
      ensures old(instance) == null ==> !ok && calls == old(calls)
      ensures old(instance) != null ==>
                && instance.Ready()
                && instance.libvlc == old(instance.libvlc) && instance.player == old(instance.player)
                && instance.window == ref
                && calls == old(calls) + StartCalls(instance.libvlc.value, instance.player.value,
                                                    window, ref, media, status)
                && (ok <==> media.Some? && status == 0)
    {
      var ctx := instance;
      if ctx == null {
        return false;
      }
      ctx.window := ref;
      calls := calls + [NewGlobalRef(window, ref)];
      calls := calls + [SetAndroidContext(ctx.player.value, ctx.window)];
      ok := PlayUrl(ctx, SampleUrl, media, status);
    }

    /** nativeStop: stop, uninstall the window, delete its reference, forget it. */
    method NativeStop()
      requires instance != null ==> instance.Ready()
      modifies this`calls, instance
      ensures instance == old(instance)
      ensures old(instance) == null ==> calls == old(calls)
      ensures old(instance) != null ==>
                && instance.Ready()
                && instance.libvlc == old(instance.libvlc) && instance.player == old(instance.player)
                && instance.window == None
                && calls == old(calls) + StopCalls(instance.player.value, old(instance.window))
    {
      var ctx := instance;
      if ctx == null {
        return;
      }
      Stop(ctx);
      calls := calls + [SetAndroidContext(ctx.player.value, None)];
      calls := calls + [DeleteGlobalRef(ctx.window)];
      ctx.window := None;
    }
  }

  /** One full session on a fresh peer leaves nothing held. */
  method Session(window: Handle, libvlc: Handle, player: Handle, ref: Option<Handle>,
                 media: Option<Handle>, status: int) returns (h: Host)
    ensures fresh(h) && h.instance != null && !h.instance.live
    ensures forall r :: Net(h.calls, r) == 0
  {
    h := new Host();
    var created := h.NativeCreate(true, Some(libvlc), Some(player));
    assert h.calls == CreateCalls(true, Some(libvlc), Some(player));
    var started := h.NativeStart(window, ref, media, status);
    h.NativeStop();
    h.NativeDestroy();
    assert h.calls == CreateCalls(true, Some(libvlc), Some(player))
                      + StartCalls(libvlc, player, window, ref, media, status)
                      + StopCalls(player, ref)
                      + DestroyCalls(libvlc, player);
    forall r ensures Net(h.calls, r) == 0 {
      SessionBalanced(libvlc, player, window, ref, media, status, r);
    }
  }
}
