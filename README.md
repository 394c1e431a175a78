# libvlc native sample: surface geometry, lifecycle and native context

A Dafny model of the core of the libvlc Android "native sample": an activity
that plays one video through libvlc from native code. Three parts are modelled.

- **Surface geometry** (`geometry.dfy`, module `Geometry`): `updateVideoSurfaces`
  as a pure function. From the frame geometry libvlc reports (decoded size,
  visible size, sample aspect ratio), the decor-view size and the orientation,
  it computes the video/subtitles layout params (`ceil`) and the clipping
  frame's layout params (`floor`) under one of the seven size modes. Java
  doubles are exact reals here.
- **Activity lifecycle** (`activity.dfy`, module `Activity`): `NativeActivity`
  as a class. Its fields are `mNativeStarted`, the layout listener, the
  listeners registered on the frame, the runnables posted on `mHandler`, the
  cached `mVideo*` geometry and the layout params last written. The calls
  `nativeStart`, `nativeStop`, `attachViews`, `detachViews` and `finish` are
  recorded in an action trace. The class invariant says three things about
  that trace. After a successful `nativeStart` no other start is attempted.
  Every `nativeStop` follows a successful start. The subtitles surface always
  has the video surface's params.
- **Native context** (`native.dfy`, module `Native`): `jni/main.c`. The
  `struct context` is a class whose fields are handles. The Java object's
  `mInstance` field is the `instance` field of a `Host` class. Every libvlc,
  JNI and libc call is an action in a call trace. Each call's outcome is a
  parameter of the entry point that makes the call. A resource count over the
  trace (acquired minus released, per kind) states what each entry point
  leaves held.

Behaviour of the code that the model keeps, and one place where it departs
from it:

- `mNativeStarted` is set at `NativeActivity.java:291` and never cleared. So
  `nativeStart` succeeds at most once per activity. After `onStop`, new surfaces
  do not restart playback (`Activity.StopThenRestart`); there is no
  Stopped → Started transition.
- `onStop` unregisters the listener but does not cancel a posted update.
  That update still runs after the stop (`Activity.UpdateRunsAfterStop`).
  Each listener owns its own runnable. After a stop and a new start, the old
  listener's runnable and the new one's can both be pending
  (`Activity.TwoRunnablesAfterRestart`). What holds is "no runnable is
  pending twice".
- The "no video" guard tests the decoded `width * height`, not the visible size.
- The "no video" guard at `NativeActivity.java:181` multiplies two Java
  `int`s, which wraps. `Geometry.SurfaceUpdateFor` uses the intended guard
  (both decoded dimensions positive) instead; the wrapping guard is kept as
  `Geometry.HasVideoAsWritten` and its effect is shown under "## Findings".
- In BEST_FIT, 16:9 and 4:3 at least one display dimension is kept. Both are
  kept exactly when the display already has the target aspect
  (`Geometry.LetterboxKeepsBothIffAspectsAgree`).

## Model

| member | source | states |
|---|---|---|
| `Geometry.OverflowHidesVideo` | native_sample/src/main/java/org/videolan/nativesample/NativeActivity.java:181-182 | the 32-bit guard treats a 65536 x 65536 frame as having no video |
| `Geometry.HasVideoAgreesWithoutOverflow` | native_sample/src/main/java/org/videolan/nativesample/NativeActivity.java:181-182 | the 32-bit guard and "both dimensions non-zero" agree whenever the pixel count fits a Java int |
| `Geometry.Normalize` | native_sample/src/main/java/org/videolan/nativesample/NativeActivity.java:183-193 | the result is the measured size or its transpose; it is portrait-shaped when the flag says portrait and landscape-shaped otherwise |
| `Geometry.NormalizeIdempotent` | native_sample/src/main/java/org/videolan/nativesample/NativeActivity.java:187-193 | a size that already agrees with the orientation is not swapped again |
| `Geometry.SourceAspect` | native_sample/src/main/java/org/videolan/nativesample/NativeActivity.java:201-211 | vw and ar are positive, ar = vw / visibleHeight, square pixels when num == den, and otherwise vw = visibleWidth * num / den; the square-pixel shortcut agrees with the general formula |
| `Geometry.TargetAspect` | native_sample/src/main/java/org/videolan/nativesample/NativeActivity.java:216-244 | 16:9 and 4:3 force their ratio; every other mode keeps the source's ratio |
| `Geometry.LetterboxFit` | native_sample/src/main/java/org/videolan/nativesample/NativeActivity.java:217-221 | the result has the requested aspect, fits inside the display, and keeps at least one display dimension |
| `Geometry.LetterboxFitIsLargest` | native_sample/src/main/java/org/videolan/nativesample/NativeActivity.java:217-221 | no rectangle of the same aspect that fits the display is wider or taller than the fitted one |
| `Geometry.LetterboxKeepsBothIffAspectsAgree` | native_sample/src/main/java/org/videolan/nativesample/NativeActivity.java:217-221 | both display dimensions are kept exactly when the display already has the target aspect |
| `Geometry.Fit` | native_sample/src/main/java/org/videolan/nativesample/NativeActivity.java:216-249 | per mode: letterboxing keeps the aspect and fits inside the display; FIT_HORIZONTAL keeps the width; FIT_VERTICAL keeps the height; FILL keeps both; ORIGINAL gives (vw, visibleHeight) |
| `Geometry.Resolve` | native_sample/src/main/java/org/videolan/nativesample/NativeActivity.java:187-249 | the resolved size is positive, and in the letterboxing modes it fits inside the normalised display |
| `Geometry.Ceil` | native_sample/src/main/java/org/videolan/nativesample/NativeActivity.java:253-254 | Math.ceil: the least integer not below its argument |
| `Geometry.Floor` | native_sample/src/main/java/org/videolan/nativesample/NativeActivity.java:261-262 | Math.floor: the greatest integer not above its argument |
| `Geometry.SurfaceUpdateFor` | native_sample/src/main/java/org/videolan/nativesample/NativeActivity.java:180-263 | nothing is written exactly when a decoded dimension is 0; only the window size is written exactly when the display is empty, and it is the unswapped (sw, sh); otherwise the video params are the least integers covering the size scaled to the full plane, and the frame params are the greatest integers inside the resolved size |
| `Geometry.CropIfNecessary` | native_sample/src/main/java/org/videolan/nativesample/NativeActivity.java:252-263 | when the decoded plane is at least the visible area, the video surface is never smaller than its frame |
| `Geometry.FrameFitsDisplay` | native_sample/src/main/java/org/videolan/nativesample/NativeActivity.java:259-263 | in BEST_FIT, 16:9 and 4:3 the frame never exceeds the normalised display |
| `Geometry.BestFitExample` | native_sample/src/main/java/org/videolan/nativesample/NativeActivity.java:216-263 | 1920x1080 square pixels on a 1000x1000 display gives video 1000x563 and frame 1000x562 |
| `Geometry.FillExample` | native_sample/src/main/java/org/videolan/nativesample/NativeActivity.java:229-230 | FILL gives the whole 1000x1000 display whatever the video's aspect |
| `Activity.AtMostOneSuccessfulStart` | native_sample/src/main/java/org/videolan/nativesample/NativeActivity.java:283-291 | in any trace the class invariant admits, nativeStart succeeds at most once |
| `Activity.Without` | native_sample/src/main/java/org/videolan/nativesample/NativeActivity.java:157 | removeCallbacks leaves no posting of the runnable, keeps every posting of another runnable, and adds nothing that was not posted |
| `Activity.WithoutCounts` | native_sample/src/main/java/org/videolan/nativesample/NativeActivity.java:157 | removeCallbacks removes every posting of the runnable and keeps each other posting exactly as many times as it was made |
| `Activity.WithoutAppend` | native_sample/src/main/java/org/videolan/nativesample/NativeActivity.java:157 | removeCallbacks acts on each posting separately, so the postings it keeps stay in their posting order |
| `Activity.RepostKeepsOnePending` | native_sample/src/main/java/org/videolan/nativesample/NativeActivity.java:156-159 | after remove-then-post the runnable is pending exactly once, last; nothing is pending twice; nothing else is dropped |
| `Activity.NativeActivity.constructor` | native_sample/src/main/java/org/videolan/nativesample/NativeActivity.java:46-61 | the initial field values: not started, no listener, nothing posted, zero geometry, no params written |
| `Activity.NativeActivity.OnStart` | native_sample/src/main/java/org/videolan/nativesample/NativeActivity.java:137-164 | views attached; the listener is created only if there is none, and it is the one registered on the frame |
| `Activity.NativeActivity.OnStop` | native_sample/src/main/java/org/videolan/nativesample/NativeActivity.java:166-179 | listener unregistered and dropped; nativeStop exactly when started; then detachViews; posted runnables kept |
| `Activity.NativeActivity.OnSurfacesCreated` | native_sample/src/main/java/org/videolan/nativesample/NativeActivity.java:282-292 | starts only when not started; on failure it calls finish and leaves the flag false; on success it sets the flag |
| `Activity.NativeActivity.OnSurfacesDestroyed` | native_sample/src/main/java/org/videolan/nativesample/NativeActivity.java:294-298 | nativeStop exactly when started |
| `Activity.NativeActivity.OnLayoutChange` | native_sample/src/main/java/org/videolan/nativesample/NativeActivity.java:153-160 | the listener's runnable is reposted only when a bound moved, and is then pending exactly once |
| `Activity.NativeActivity.RunPending` | native_sample/src/main/java/org/videolan/nativesample/NativeActivity.java:147-152 | the oldest posted runnable runs updateVideoSurfaces on the current geometry |
| `Activity.NativeActivity.OnNewLayout` | native_sample/src/main/java/org/videolan/nativesample/NativeActivity.java:270-280 | the reported geometry replaces the cached one and the surfaces are updated from it |
| `Activity.NativeActivity.UpdateVideoSurfaces` | native_sample/src/main/java/org/videolan/nativesample/NativeActivity.java:180-268 | writes what SurfaceUpdateFor computes for CURRENT_SIZE; the subtitles surface gets the video surface's params |
| `Activity.SurfacesCreatedTwice` | native_sample/src/main/java/org/videolan/nativesample/NativeActivity.java:283-291 | two surfaces-created events start the engine once |
| `Activity.StopThenRestart` | native_sample/src/main/java/org/videolan/nativesample/NativeActivity.java:284-291 | stop, start and new surfaces after a successful start do not call nativeStart again |
| `Activity.UpdateRunsAfterStop` | native_sample/src/main/java/org/videolan/nativesample/NativeActivity.java:170-173 | an update posted before onStop still runs after it |
| `Activity.TwoRunnablesAfterRestart` | native_sample/src/main/java/org/videolan/nativesample/NativeActivity.java:153-173 | a posting made before onStop stays pending, and the listener made by the next onStart posts its own runnable beside it: two distinct updates are pending |
| `Native.LayoutSettings` | native_sample/jni/main.c:102-124 | the total layout table: scale 1 only for ORIGINAL, no aspect string for BEST_FIT and ORIGINAL, "16:9" and "4:3" for the forced modes |
| `Native.MediaNew` | native_sample/jni/main.c:131-134 | the path constructor exactly when the URL starts with '/', the location constructor otherwise; a media is acquired exactly when creation succeeds |
| `Native.CreateAllOrNothing` | native_sample/jni/main.c:58-87 | nativeCreate leaves the context, libvlc and the player held on success, and nothing held on any failure |
| `Native.PlayHoldsNothing` | native_sample/jni/main.c:126-149 | PlayUrl gives back the media it created, whether or not creation or play succeeded |
| `Native.StartHoldsWindowRef` | native_sample/jni/main.c:157-169 | nativeStart leaves exactly the window's global reference held |
| `Native.StopReleasesWindowRef` | native_sample/jni/main.c:171-184 | nativeStop gives back the reference it finds and nothing else |
| `Native.DestroyReleasesContext` | native_sample/jni/main.c:89-100 | nativeDestroy gives back the player, libvlc and the context, and not the window reference |
| `Native.SessionBalanced` | native_sample/jni/main.c:58-184 | create, start, stop, destroy leaves no resource of any kind held |
| `Native.FailedStartKeepsWindowRef` | native_sample/jni/main.c:157-169 | a start followed by destroy with no stop (what a failed start leads to) leaves the window reference held |
| `Native.StopTwiceReleasesOnce` | native_sample/jni/main.c:179-183 | a second nativeStop finds jaWindow NULL and gives back nothing more |
| `Native.Context.constructor` | native_sample/jni/main.c:62 | calloc: every handle NULL |
| `Native.Host.NativeCreate` | native_sample/jni/main.c:58-87 | calls exactly the create sequence; true exactly when all three allocations succeed; the instance is installed, fully built, only then |
| `Native.Host.NativeDestroy` | native_sample/jni/main.c:89-100 | no instance: nothing; otherwise player, libvlc, then free; the instance field is not cleared |
| `Native.Host.UpdateSurfaceLayout` | native_sample/jni/main.c:102-124 | sets the layout's aspect ratio, then its scale, on the player |
| `Native.Host.PlayUrl` | native_sample/jni/main.c:126-149 | no player change when media creation fails; otherwise options, set_media, layout, play, release; true exactly when play returns 0 |
| `Native.Host.Stop` | native_sample/jni/main.c:151-155 | stops the player |
| `Native.Host.NativeStart` | native_sample/jni/main.c:157-169 | no instance: false, no call; otherwise the window's global ref is stored and installed before playing |
| `Native.Host.NativeStop` | native_sample/jni/main.c:171-184 | no instance: nothing; otherwise stop, clear the android context, delete the ref, set jaWindow to NULL, in that order |
| `Native.Session` | native_sample/jni/main.c:58-184 | a full session on a fresh peer leaves nothing held |

## Left out

- `loadLibraries` and the library-loading part of `onCreate`: dynamic loading and Toasts.
- `onCreate`'s view lookup, ViewStub inflation, z-order and pixel format: UI calls. The constructor takes the one fact that matters, whether a subtitles surface exists.
- `onDestroy`: it only calls `nativeDestroy`, which `Native.Host.NativeDestroy` models.
- Toasts, logging, `invalidate` and `setContentView`: UI output with no effect on the modelled state.
- IEEE-754 doubles: NaN and infinities when a zero visible size or SAR denominator slips past the guard, and the saturating `(int)` casts of `ceil`/`floor`. The math is exact, and `Resolvable` requires what libvlc reports for a real frame.
- Negative Java ints for the geometry: sizes and the SAR are `nat`, as libvlc reports them unsigned.
- Handler and looper threading: the handler is a queue of runnables in the order posted. Nothing runs concurrently.
- The choice of `CURRENT_SIZE` and `surface_layout`: both are fixed to BEST_FIT in the source. The pure functions take any mode.
- `JNI_OnLoad`, `getInstance`/`setInstance` and the pointer-to-long casts: JNI plumbing. The instance is an object reference, and references and handles are opaque numbers.
- What libvlc does inside its calls: decoding, the network, and what the aspect ratio and scale mean to the player. These are recorded as calls with their arguments.
- The link between the two halves: `Activity` records `nativeStart`/`nativeStop` as actions and does not call into `Native`.
- `Native.Host.NativeStart`, `Native.Host.NativeStop`, `Native.Host.NativeDestroy`: they require a context not yet freed. Use after `nativeDestroy` is undefined in C, and the activity never does it.

## Findings

| source | as written | input that shows it | evidently intended | confidence | as-written member | corrected member |
|---|---|---|---|---|---|---|
| native_sample/src/main/java/org/videolan/nativesample/NativeActivity.java:181 | `mVideoWidth * mVideoHeight == 0` is computed in 32-bit int arithmetic | width = height = 65536: the product wraps to 0 and no layout is written | skip only when a decoded dimension is 0 | low; not executed (frames this large are rare) | `Geometry.OverflowHidesVideo` | `Geometry.SurfaceUpdateFor` |
