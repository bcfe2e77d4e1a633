# Durks landing page: the sequential logic behind the 3D views, the build and the offline worker

This project models, in Dafny, the parts of the Durks marketing site that hold real logic.
Each one is a small state machine, a table or a loop:

- **Orbit camera** (`useMouseControls`). Zoom and two rotation angles, kept inside their
  configured bounds by drag, zoom step, set, reset and the auto-rotation tick.
- **Adaptive quality** (`useOptimizedThreeScene`).
  - A window of the last 60 frame times and a rounded average frame rate.
  - A three-level quality machine with hysteresis.
  - The table from quality level to renderer settings.
  - The animation-loop flags.
- **Scene helpers** (`SceneUtils`).
  - The element-size fallback chain with its 300 by 200 floor.
  - The preset/custom configuration merge and the camera and renderer set-up.
  - The resize guard.
  - `applyRenderMode`, which writes every Phong material in a scene graph tree in place.
- **Scene life cycle** (`useThreeScene`).
  - The retry decision and its linear, capped delay.
  - The 60 fps throttle.
  - Initialise, cleanup and `isInitialized`.
- **Equipment switching** (`EquipmentIndicators`).
  - The guarded three-step transition and the cyclic next-index rule.
  - The click and label guards.
  - The auto-switch start/stop flags, where the code as written never schedules anything (see Findings).
- **Slideshow** (`ProductSlideshow`). Next, previous, go-to, the auto tick and the autoplay toggle over four slides.
- **Service worker** (`public/sw.js`).
  - Request routing.
  - The cache-first, network-first and stale-while-revalidate strategies, over Cache Storage
    given as a value, with the network outcome as an input.
  - Install pre-caching and activate-time pruning.
- **Textures** (`TextureFactory`).
  - `#rrggbb` parsing and `rgb(r, g, b)` formatting in the lighten and darken helpers.
  - The stripe loops and the gradient stops.
  - The clamped noise pass over the pixel buffer.
- **Build chunks** (`vite.config.ts`). The first-match `manualChunks` classifier, and which of its branches can never fire.
- **Equipment builders** (silo, tulha, elevador). Each builder turns its configuration, merged
  over the defaults, into an ordered list of part records: kind, shape, position, rotation and
  colour. The `add*` helpers append to a group.

Modules follow the source files one to one. `Common` holds the shared arithmetic and string
predicates. `GeometryParts` holds the part record, the spread merge and the group the
builders append to.

Browser facilities are inputs. The clock, `requestAnimationFrame` handles, timers, element
sizes, observer callbacks, `Math.random` noise and network results are explicit parameters.
Each timer or frame firing is its own method call.

## Model

Predicates and functions without a row (such as the URL tests, `ParseHex`, `ParseChannels`, `FormatRgb`, `WindowFps`, `ChunkName` and the loop counts) are helpers. Rows for the members that use them state their meaning. Methods with no contract (`ClampedSession`, `RetryThenBuild`, `SwitchSession`, `AutoSwitchDemo`, `BrowseSession`) are usage examples. They run the class contracts in sequence and state nothing of their own.

| member | source | states |
|---|---|---|
| MouseControls.DefaultConfigIsSane | src/hooks/useMouseControls.ts:38-51 | the default options have minZoom <= initialZoom <= maxZoom and a non-negative vertical limit |
| MouseControls.OrbitControls.constructor | src/hooks/useMouseControls.ts:53-66 | the pointer and both angles start at 0, the mouse is up, zoom is initialZoom and the two flags come from the options |
| MouseControls.OrbitControls.MouseDown | src/hooks/useMouseControls.ts:71-76 | the mouse is down and the pointer is remembered |
| MouseControls.OrbitControls.MouseUp | src/hooks/useMouseControls.ts:81-83 | the mouse is up; nothing else changes |
| MouseControls.OrbitControls.MouseMove | src/hooks/useMouseControls.ts:88-109 | a move with the mouse up or rotation off changes nothing; otherwise Y gains dx·sensitivity, X gains dy·sensitivity and is clamped to ±maxVerticalRotation, and the pointer is updated; the bounds invariant is kept |
| MouseControls.OrbitControls.AutoRotationStep | src/hooks/useMouseControls.ts:122-128 | Y advances by autoRotationSpeed exactly when auto-rotation is on and the mouse is up; X and zoom are untouched |
| MouseControls.OrbitControls.Reset | src/hooks/useMouseControls.ts:142-148 | both angles are 0, zoom is initialZoom and the mouse is up; the pointer is kept |
| MouseControls.OrbitControls.SetZoom | src/hooks/useMouseControls.ts:153-155 | zoom is the argument clamped to [minZoom, maxZoom], and equals the argument when it is in range |
| MouseControls.OrbitControls.SetRotation | src/hooks/useMouseControls.ts:160-167 | X is clamped to ±maxVerticalRotation and Y is stored as given |
| MouseControls.OrbitControls.ZoomIn | src/hooks/useMouseControls.ts:237-240 | zoom becomes max(minZoom, zoom − 5) and the bounds invariant is kept |
| MouseControls.OrbitControls.ZoomOut | src/hooks/useMouseControls.ts:245-248 | zoom becomes min(maxZoom, zoom + 5) and the bounds invariant is kept |
| MouseControls.OrbitControls.ToggleRotation | src/hooks/useMouseControls.ts:253-258 | the rotation flag takes the argument when given and is negated otherwise; only that flag changes |
| MouseControls.OrbitControls.ToggleAutoRotation | src/hooks/useMouseControls.ts:263-268 | the same rule for the auto-rotation flag alone |
| AdaptiveQuality.Round | src/hooks/useOptimizedThreeScene.ts:89 | Math.round lies within half a unit of its argument, halves going up |
| AdaptiveQuality.PushFrameTime | src/hooks/useOptimizedThreeScene.ts:82-85 | push then shift: the result is the newest entries of old window + [d], ends with d, and holds min(n + 1, 60) entries |
| AdaptiveQuality.SteadyFrameRate | src/hooks/useOptimizedThreeScene.ts:88-89 | a window of equal frame times d > 0 reports round(1000 / d) |
| AdaptiveQuality.NextQuality | src/hooks/useOptimizedThreeScene.ts:93-99 | below 70% of target and not low, the level drops to low below 50% and to medium otherwise; else above 90% and not high it goes high; else it is kept; low is left only upward and high only downward |
| AdaptiveQuality.SteadyFpsSettles | src/hooks/useOptimizedThreeScene.ts:93-99 | at a steady frame rate a second adjustment changes nothing: the level settles after one step |
| AdaptiveQuality.LowLeavesOnlyToHigh | src/hooks/useOptimizedThreeScene.ts:93-98 | from low the next level is low or high, and high exactly when fps is above 90% of a positive target |
| AdaptiveQuality.SettingsFor | src/hooks/useOptimizedThreeScene.ts:108-123 | the pixel ratio is min(device ratio, cap of the level) and the shadow map is the level's table entry |
| AdaptiveQuality.QualityTableMonotone | src/hooks/useOptimizedThreeScene.ts:108-123 | a higher level never has a lower pixel-ratio cap, and shadows are on exactly above low |
| AdaptiveQuality.PerformanceMonitor.constructor | src/hooks/useOptimizedThreeScene.ts:52-57 | fps 60, quality high, visible, an empty window, no frame requested and no scene |
| AdaptiveQuality.PerformanceMonitor.SetVisible | src/hooks/useOptimizedThreeScene.ts:63-68 | the visibility flag takes the observer's answer |
| AdaptiveQuality.PerformanceMonitor.ApplyQualitySettings | src/hooks/useOptimizedThreeScene.ts:103-124 | without a renderer nothing changes; with one the renderer gets the current level's settings |
| AdaptiveQuality.PerformanceMonitor.UpdatePerformanceMetrics | src/hooks/useOptimizedThreeScene.ts:75-129 | with monitoring off nothing changes; otherwise the window gets the new delta, fps is the window's rate, quality follows NextQuality only with adaptiveQuality, and the settings are re-applied only when the level changed |
| AdaptiveQuality.PerformanceMonitor.InitializeScene | src/hooks/useOptimizedThreeScene.ts:131-163 | it succeeds exactly with a container and a build that does not throw; success stores all three objects and applies the current settings; failure changes nothing |
| AdaptiveQuality.PerformanceMonitor.StartAnimation | src/hooks/useOptimizedThreeScene.ts:165-180 | does nothing while a frame is pending; otherwise requests the first frame |
| AdaptiveQuality.PerformanceMonitor.Frame | src/hooks/useOptimizedThreeScene.ts:168-177 | hidden with pauseWhenHidden: only the next frame is requested and nothing else changes; visible with monitoring off: window, time, fps, level and renderer settings are kept; visible with monitoring on: exactly the metrics update (new delta in the window, fps its rate, the level by NextQuality, settings re-applied on a change); the callback runs once and the scene, camera and renderer are kept |
| AdaptiveQuality.PerformanceMonitor.StopAnimation | src/hooks/useOptimizedThreeScene.ts:182-187 | no frame is pending afterwards |
| AdaptiveQuality.PerformanceMonitor.Cleanup | src/hooks/useOptimizedThreeScene.ts:189-202 | the loop is stopped and scene, camera and renderer are dropped |
| SceneUtils.ValidDimensions | src/lib/three/SceneUtils.ts:195-204 | each side is the first non-zero of rect, client and offset size (else 800 or 600), then floored at 300 and 200 |
| SceneUtils.SmallDimensionsAreTheFloor | src/lib/three/SceneUtils.ts:197-203 | width <= 300 and height <= 200 only for exactly 300 by 200 |
| SceneUtils.Override | src/lib/three/SceneUtils.ts:218 | a field present in the custom config wins, an absent one keeps the base value |
| SceneUtils.MergeLaws | src/lib/three/SceneUtils.ts:218 | the spread merge has the empty config as unit, is associative and idempotent in its right argument, and custom fields win |
| SceneUtils.Preset | src/lib/three/SceneUtils.ts:28-50 | industrial: background 0x253831, grids 0x314d43/0x253831, camera (40, 25, 40) looking at (0, 10, 0); dark: the same with background 0x1e2a26; neutral: background 0x62736c, grids 0x4a7365/0x314d43, camera (30, 20, 30) looking at (0, 5, 0); no other field is set |
| SceneUtils.CreateCamera | src/lib/three/SceneUtils.ts:73-93 | aspect · height = width; fov 45, position (40, 25, 40), look-at (0, 10, 0), near 0.1 and far 1000 when absent, and the given values when present |
| SceneUtils.CreateRenderer | src/lib/three/SceneUtils.ts:98-123 | size as given, pixel ratio the smaller of the device's and pixelRatioLimit (default 2), shadows on unless disabled |
| SceneUtils.SetupCompleteScene | src/lib/three/SceneUtils.ts:209-231 | the config is preset merged with custom; camera and renderer are createCamera and createRenderer of that config at the element's valid size, so the aspect matches; the background comes from custom or the preset |
| SceneUtils.HandleResize | src/lib/three/SceneUtils.ts:300-312 | the guard always passes: the renderer gets the valid size and the camera aspect matches it |
| SceneUtils.ModeFlags | src/lib/three/SceneUtils.ts:327-346 | wireframe exactly for Wireframe, transparent exactly for XRay, opacity 0.3 for XRay and 1 otherwise, needsUpdate always |
| SceneUtils.ApplyToMaterials | src/lib/three/SceneUtils.ts:323-348 | every Phong material of the list gets the mode's flags; others are not written |
| SceneUtils.ApplyRenderMode | src/lib/three/SceneUtils.ts:317-351 | every Phong material reachable in the tree gets the mode's flags, and only those materials are modified |
| SceneUtils.SwitchTwice | src/lib/three/SceneUtils.ts:317-351 | applying one mode and then another leaves exactly the second (idempotence of the assignments) |
| SceneLifecycle.RetryDelay | src/hooks/useThreeScene.ts:78 | the delay is retryDelay·(count + 1) until it reaches 500, and never more |
| SceneLifecycle.RetryDelayMonotone | src/hooks/useThreeScene.ts:78 | a later retry never waits less |
| SceneLifecycle.DefaultDelays | src/hooks/useThreeScene.ts:78 | with 50 ms the delays run 50, …, 450, then 500 |
| SceneLifecycle.RetryExactlyAtTheFloor | src/hooks/useThreeScene.ts:72-80 | given the size floors, a retry happens exactly at 300 by 200 with retries left, and never once the count reaches retryAttempts |
| SceneLifecycle.SceneLifecycle.constructor | src/hooks/useThreeScene.ts:41-61 | no scene, no frame, no callback, no retry timer and no observer |
| SceneLifecycle.SceneLifecycle.StopAnimation | src/hooks/useThreeScene.ts:147-153 | no frame pending and no callback |
| SceneLifecycle.SceneLifecycle.Cleanup | src/hooks/useThreeScene.ts:158-181 | animation, callback, retry timer, observer and the three objects are all cleared, so isInitialized is false |
| SceneLifecycle.SceneLifecycle.InitializeScene | src/hooks/useThreeScene.ts:66-111 | no container: false and no change; at the floor with retries left: false with a timer for count + 1 at RetryDelay; otherwise cleanup then build, true exactly when the build succeeds, which makes isInitialized true |
| SceneLifecycle.SceneLifecycle.FireRetry | src/hooks/useThreeScene.ts:76-78 | no timer: nothing; otherwise the timer is spent and initializeScene runs with its count; the last allowed retry always builds |
| SceneLifecycle.SceneLifecycle.StartAnimation | src/hooks/useThreeScene.ts:116-142 | the previous loop is cancelled, the callback stored, lastTime reset to 0 and one new frame requested |
| SceneLifecycle.SceneLifecycle.Frame | src/hooks/useThreeScene.ts:129-139 | a stale frame changes nothing; a current one runs the callback and moves lastTime only when at least 1000/60 ms have passed, and always requests the next frame |
| SceneLifecycle.SceneLifecycle.ObserveResize | src/hooks/useThreeScene.ts:202-216 | observation starts exactly when enabled and a container exists |
| SceneLifecycle.SceneLifecycle.Resize | src/hooks/useThreeScene.ts:186-190 | without container, camera or renderer nothing changes; otherwise the renderer gets the valid size, the camera its aspect, and background, pixel ratio, shadows and every other camera field are kept |
| SceneLifecycle.SceneLifecycle.AutoStart | src/hooks/useThreeScene.ts:232-241 | initializeScene(0) runs with its three outcomes: no container changes nothing; a floor-sized element schedules the first retry after RetryDelay(retryDelay, 0); otherwise the result is the build's and the scene is set exactly on success. The loop is never started, because the cleanup inside the build cleared the callback |
| EquipmentIndicators.DefaultEquipmentsDistinct | src/components/shared/EquipmentIndicators.tsx:49-65 | the default list has three entries with distinct ids |
| EquipmentIndicators.FindIndex | src/components/shared/EquipmentIndicators.tsx:304 | the first index holding the id, or −1 exactly when none does |
| EquipmentIndicators.FindIndexOfDistinct | src/components/shared/EquipmentIndicators.tsx:304 | with distinct ids, the entry at k is found at k |
| EquipmentIndicators.Find | src/components/shared/EquipmentIndicators.tsx:110 | an entry is found exactly when some entry has the id, and it is the first list entry with that id |
| EquipmentIndicators.NextIndex | src/components/shared/EquipmentIndicators.tsx:304-306 | (findIndex + 1) mod n, which is 0 for an absent id, and always a valid index |
| EquipmentIndicators.AdvanceFromEntry | src/components/shared/EquipmentIndicators.tsx:301-309 | s firings from entry k show entry (k + s) mod n |
| EquipmentIndicators.FullCycle | src/components/shared/EquipmentIndicators.tsx:301-309 | n firings come back to the start, and k firings from the first entry reach entry k |
| EquipmentIndicators.NextOfEntry | src/components/shared/EquipmentIndicators.tsx:304-306 | one firing from entry k goes to (k + 1) mod n |
| EquipmentIndicators.Click | src/components/shared/EquipmentIndicators.tsx:131 | a click is forwarded, with its id, exactly when no transition is running |
| EquipmentIndicators.Label | src/components/shared/EquipmentIndicators.tsx:145-149 | a label is shown exactly when showLabel is set and the current id is listed, and it is that entry's name |
| EquipmentIndicators.DefaultLabels | src/components/shared/EquipmentIndicators.tsx:145-155 | with the defaults, the tulha shows "Tulha Graneleira"; labels off or an empty list show none |
| EquipmentIndicators.EquipmentState.constructor | src/components/shared/EquipmentIndicators.tsx:244-246 | the initial equipment, no transition, no timer |
| EquipmentIndicators.EquipmentState.Switch | src/components/shared/EquipmentIndicators.tsx:248-251 | ignored during a transition or for the current equipment; otherwise transitioning with the 100 ms timer pending for the target |
| EquipmentIndicators.EquipmentState.CommitTimer | src/components/shared/EquipmentIndicators.tsx:254-256 | the 100 ms timer shows the target and leaves the 200 ms timer pending |
| EquipmentIndicators.EquipmentState.ReleaseTimer | src/components/shared/EquipmentIndicators.tsx:256-258 | the 200 ms timer ends the transition |
| EquipmentIndicators.AutoSwitch.constructor | src/components/shared/EquipmentIndicators.tsx:274-282 | no timeout and not active |
| EquipmentIndicators.AutoSwitch.Stop | src/components/shared/EquipmentIndicators.tsx:284-290 | no timeout and not active |
| EquipmentIndicators.AutoSwitch.ScheduleNext | src/components/shared/EquipmentIndicators.tsx:298-311 | a timeout is set only while active |
| EquipmentIndicators.AutoSwitch.StartAsWritten | src/components/shared/EquipmentIndicators.tsx:292-314 | past the guard it always ends inactive with no timeout |
| EquipmentIndicators.AutoSwitch.Start | src/components/shared/EquipmentIndicators.tsx:292-314 | past the guard it ends active with a timeout for the current equipment; before the guard nothing changes |
| EquipmentIndicators.AutoSwitch.EffectAsWritten | src/components/shared/EquipmentIndicators.tsx:316-324 | the mount effect leaves nothing scheduled, whatever the options |
| EquipmentIndicators.AutoSwitch.Effect | src/components/shared/EquipmentIndicators.tsx:316-324 | with the corrected start: scheduled and active exactly when enabled with more than one entry |
| EquipmentIndicators.AutoSwitch.Fire | src/components/shared/EquipmentIndicators.tsx:301-310 | with no pending timer, inactive or an empty list: the timer is cleared and the switch state is untouched; otherwise the timer is kept and a switch to the entry after the captured one begins, unless a transition is running or that entry is already current, in which case the state is untouched; validity is kept |
| Slideshow.NextSlide | src/components/ProductSlideshow.tsx:69 | from a valid index: the next index, or 0 after the last |
| Slideshow.PrevSlide | src/components/ProductSlideshow.tsx:74 | from a valid index: the previous index, or n − 1 before the first |
| Slideshow.NextPrevInverse | src/components/ProductSlideshow.tsx:68-76 | previous after next, and next after previous, give the start index back |
| Slideshow.AdvanceIsRotation | src/components/ProductSlideshow.tsx:58-66 | k auto ticks from i land on (i + k) mod n |
| Slideshow.FourTicksReturn | src/components/ProductSlideshow.tsx:61-63 | four ticks over the four products are the identity |
| Slideshow.Slideshow.constructor | src/components/ProductSlideshow.tsx:55-56 | slide 0 with autoplay on |
| Slideshow.Slideshow.Tick | src/components/ProductSlideshow.tsx:58-66 | advances like next only while autoplay is on, and keeps autoplay |
| Slideshow.Slideshow.Next | src/components/ProductSlideshow.tsx:68-71 | next index and autoplay off |
| Slideshow.Slideshow.Prev | src/components/ProductSlideshow.tsx:73-76 | previous index and autoplay off |
| Slideshow.Slideshow.GoTo | src/components/ProductSlideshow.tsx:78-81 | exactly the given index and autoplay off; the state stays valid exactly for an index in the list |
| Slideshow.Slideshow.ToggleAutoPlay | src/components/ProductSlideshow.tsx:203 | autoplay is negated; the index is kept |
| ServiceWorker.Protocol | public/sw.js:69 | the scheme with its colon, when the URL has one |
| ServiceWorker.ProtocolOfPrefix | public/sw.js:77-79 | a URL starting with "chrome-extension:" or "moz-extension:" has that protocol |
| ServiceWorker.AbsoluteUrlsSkipRootPattern | public/sw.js:13-21 | an absolute URL never matches the `^/` pattern |
| ServiceWorker.Route | public/sw.js:67-95 | non-GET and extension URLs are passed through; else a static match goes cache first, else an HTML accept goes network first, else stale-while-revalidate |
| ServiceWorker.AssetsAreCacheFirst | public/sw.js:82-85 | every GET of an http(s) URL with an /assets/ path is served cache first |
| ServiceWorker.Open | public/sw.js:122 | an existing cache is kept; a missing one is appended empty; unique names stay unique |
| ServiceWorker.Put | public/sw.js:123 | only the named cache gains the entry; names and other caches are unchanged |
| ServiceWorker.MatchIn | public/sw.js:179 | the first cache with that name decides: its entry for the URL when it holds one, otherwise nothing; with no such cache, nothing |
| ServiceWorker.MatchAll | public/sw.js:115 | a miss means no cache holds the URL; a hit is some cache's entry |
| ServiceWorker.PutThenMatchIn | public/sw.js:179-183 | after a put into an existing cache, a match there finds the new response |
| ServiceWorker.PutThenMatchAll | public/sw.js:115-123 | when no cache held the URL, a put makes it the first match |
| ServiceWorker.CacheFirstFetch | public/sw.js:113-131 | a hit returns the cached response with no write; a miss returns the network reply and, only if ok, the storage is exactly that reply put into durks-v1; a network error gives 503 "Offline" |
| ServiceWorker.OpenKeepsMatches | public/sw.js:122 | opening a cache never changes what a match finds |
| ServiceWorker.MatchAllAppendEmpty | public/sw.js:122 | appending an empty cache does not change the matches |
| ServiceWorker.CacheFirstCachesOk | public/sw.js:115-124 | after an ok miss, the next cache-first call is a hit for the same response |
| ServiceWorker.NetworkFirstFetch | public/sw.js:134-174 | a reply is returned even if not ok and stored only if ok; on error the cached copy, else the offline page with status 200 |
| ServiceWorker.NetworkFirstServesLastOnline | public/sw.js:136-147 | going offline after one ok visit serves that visit's response |
| ServiceWorker.NetworkFirstPrefersEarlierCache | public/sw.js:144-147 | offline, a copy in an earlier-created cache wins over a newer one in durks-v1 |
| ServiceWorker.StaleWhileRevalidateFetch | public/sw.js:177-189 | the cached copy if any, else the network result; an ok reply is always stored; an error falls back to the cached copy |
| ServiceWorker.StaleThenFresh | public/sw.js:179-188 | the stale copy is served now and the newer one on the next request |
| ServiceWorker.HandleFetch | public/sw.js:67-95 | non-GET and extension requests pass through with the caches untouched; static assets get exactly the cache-first answer and storage, HTML the network-first ones, the rest the stale-while-revalidate ones, a missing answer being a network error |
| ServiceWorker.NetworkErrorOnlyOnStaleMiss | public/sw.js:177-188 | the listener answers with a network error exactly when stale-while-revalidate finds no cached copy and the fetch fails |
| ServiceWorker.Install | public/sw.js:24-41 | the static cache is opened; when every fetch is ok its four assets are stored, otherwise nothing is added; cache names and order are those after the open, and every other cache is unchanged |
| ServiceWorker.PutAllFinds | public/sw.js:31 | with distinct URLs, every stored response is found afterwards |
| ServiceWorker.InstallStoresAssets | public/sw.js:27-31 | after a complete install every static asset matches its fetched response |
| ServiceWorker.InstallAddsOnlyAssets | public/sw.js:27-31 | a complete install changes no match in the static cache for any URL outside the four assets |
| ServiceWorker.Activate | public/sw.js:44-64 | the surviving caches are exactly those named durks-v1 or durks-static-v1, and there are no more of them than before (their order: ActivateKeepsOrder) |
| ServiceWorker.ActivateKeepsOrder | public/sw.js:48-56 | pruning is a filter: it distributes over concatenation and keeps a single cache exactly when it is current, so the survivors are the current caches as a subsequence in their order |
| ServiceWorker.ActivateKeepsMatches | public/sw.js:48-56 | when no pruned cache holds a URL, the storage-wide match for it is the same after activation |
| ServiceWorker.ActivateIdempotent | public/sw.js:50-56 | activating twice prunes nothing more |
| ServiceWorker.FailedInstallLeavesStaticCache | public/sw.js:27-39 | a failed addAll still leaves an empty static cache |
| TextureFactory.HexDigit | src/lib/three/TextureFactory.ts:234 | the value of a hexadecimal digit of either case, None for any other character |
| TextureFactory.LeadingHex | src/lib/three/TextureFactory.ts:234 | the digits of the longest hexadecimal prefix, which parseInt reads before stopping |
| TextureFactory.Substr | src/lib/three/TextureFactory.ts:234 | substr(start, len) is the characters from start, at most len of them, clipped to the string |
| TextureFactory.RemoveFirstHash | src/lib/three/TextureFactory.ts:233 | a text without '#' is kept and a leading '#' is dropped; a '#' further on is handled by RemoveFirstHashAt |
| TextureFactory.RemoveFirstHashAt | src/lib/three/TextureFactory.ts:233 | wherever the first '#' stands, exactly that character is removed and everything before and after it is kept |
| TextureFactory.ParseHexPair | src/lib/three/TextureFactory.ts:234 | the two hex digits of a byte parse back to the byte |
| TextureFactory.ParseHexColor | src/lib/three/TextureFactory.ts:233-236 | every channel of any `#rrggbb` colour is recovered by the three parses |
| TextureFactory.Lighten | src/lib/three/TextureFactory.ts:234-236 | min(255, v + floor(amount·255)), NaN staying NaN |
| TextureFactory.Darken | src/lib/three/TextureFactory.ts:245-247 | max(0, v − floor(amount·255)), NaN staying NaN |
| TextureFactory.ChannelOrder | src/lib/three/TextureFactory.ts:232-249 | for a byte and amount >= 0: 0 <= darken <= value <= lighten <= 255 |
| TextureFactory.ColorOrder | src/lib/three/TextureFactory.ts:232-249 | for a valid colour and amount >= 0 every channel obeys that order |
| TextureFactory.NatToString | src/lib/three/TextureFactory.ts:237 | a non-empty string of decimal digits |
| TextureFactory.DecimalRoundTrip | src/lib/three/TextureFactory.ts:237 | reading the printed digits back gives the number |
| TextureFactory.IntToString | src/lib/three/TextureFactory.ts:237 | a non-empty text that starts with a minus sign exactly for negatives, the digits of a non-negative number, and a minus sign then the digits of the magnitude otherwise |
| TextureFactory.IntRoundTrip | src/lib/three/TextureFactory.ts:237 | the printed text is an optional minus and digits, and reading it back with its sign gives the integer |
| TextureFactory.LightenColor | src/lib/three/TextureFactory.ts:232-238 | whatever the input, an `rgb(...)` text |
| TextureFactory.DarkenColor | src/lib/three/TextureFactory.ts:243-249 | whatever the input, an `rgb(...)` text |
| TextureFactory.LightenValidColor | src/lib/three/TextureFactory.ts:232-238 | for every `#rrggbb` colour and amount >= 0, the text prints three bytes min(255, v + floor(amount·255)), each at least its channel and at most 255 |
| TextureFactory.DarkenValidColor | src/lib/three/TextureFactory.ts:243-249 | for every `#rrggbb` colour and amount >= 0, the text prints three bytes max(0, v − floor(amount·255)), each at least 0 and at most its channel |
| TextureFactory.ByteText | src/lib/three/TextureFactory.ts:237 | the text of three channels is "rgb(" then the three decimals separated by ", " then ")" |
| TextureFactory.DefaultMetalColors | src/lib/three/TextureFactory.ts:195-216 | the metal defaults give highlight "rgb(212, 212, 212)" and shadow "rgb(60, 60, 60)" |
| TextureFactory.DefaultMetalParses | src/lib/three/TextureFactory.ts:195 | "#888888" parses to 136 in each channel |
| TextureFactory.LightMetalText | src/lib/three/TextureFactory.ts:237 | 212 in every channel prints as "rgb(212, 212, 212)" |
| TextureFactory.DarkMetalText | src/lib/three/TextureFactory.ts:248 | 60 in every channel prints as "rgb(60, 60, 60)" |
| TextureFactory.Stripes | src/lib/three/TextureFactory.ts:47 | the k-th line is at start + k·step, every line is below the limit, and the next one would not be |
| TextureFactory.StrokePositions | src/lib/three/TextureFactory.ts:47-52 | the loop draws exactly at the Stripes positions |
| TextureFactory.CreateCorrugatedTexture | src/lib/three/TextureFactory.ts:12-79 | corrugations from 0, reinforcements from their spacing, seams from 0 across the width, with the defaults, and repeat wrapping 8 by 4 |
| TextureFactory.CorrugatedDefaults | src/lib/three/TextureFactory.ts:21-29 | reinforcement lines never start at 0; the defaults draw 86 corrugations, 12 reinforcements and 8 seams |
| TextureFactory.GradientStopOffsets | src/lib/three/TextureFactory.ts:108-112 | one stop per loop iteration, at i / count, in [0, 1) and strictly rising |
| TextureFactory.OffsetBelowOne | src/lib/three/TextureFactory.ts:109 | an offset i / count with 0 <= i < count is in [0, 1) |
| TextureFactory.OffsetRises | src/lib/three/TextureFactory.ts:109 | offsets rise with i |
| TextureFactory.MetalGradient | src/lib/three/TextureFactory.ts:210-216 | three stops, at 0 and 1 and rising, the middle one the colour itself |
| TextureFactory.MetalGradientShades | src/lib/three/TextureFactory.ts:210-216 | for every `#rrggbb` colour the first stop is its channels lightened by floor(shininess·255) and the last darkened by the same, printed as bytes around the channel; the middle one is the colour itself |
| TextureFactory.BuilderRepeats | src/lib/three/TextureFactory.ts:117-120 | the simple corrugated, concrete and metal textures repeat-wrap on both axes with the given counts, defaulting to 8 by 1, 4 by 4 and 2 by 2 |
| TextureFactory.RoundHalfEven | src/lib/three/TextureFactory.ts:162 | the stored integer is within half a unit of the value |
| TextureFactory.ClampedByte | src/lib/three/TextureFactory.ts:162-164 | the stored byte is in [0, 255]: 0 at or below 0, 255 at or above 255, and the nearest integer in between |
| TextureFactory.ApplyNoise | src/lib/three/TextureFactory.ts:160-165 | every R, G and B byte becomes the clamped sum with its pixel's noise; every alpha byte is kept |
| TextureFactory.NoiseBounds | src/lib/three/TextureFactory.ts:160-165 | after the pass colour bytes are in [0, 255] and alpha bytes are untouched |
| ChunkClassifier.VendorChunk | vite.config.ts:15-33 | the node_modules branch always returns a vendor chunk |
| ChunkClassifier.ComponentChunk | vite.config.ts:37-45 | the application branch never returns a vendor chunk |
| ChunkClassifier.ManualChunks | vite.config.ts:12-46 | an id gets a vendor chunk exactly when it contains "node_modules" |
| ChunkClassifier.UnreachableChunks | vite.config.ts:15-26 | icons-vendor and router-vendor are never returned |
| ChunkClassifier.ReactDomRedundant | vite.config.ts:15 | every id containing "react-dom" also contains "react" |
| ChunkClassifier.VendorPrecedence | vite.config.ts:14-34 | react wins over three (so an id with both is react-vendor), three over the rest, and "vendor" exactly when no library test matches |
| ChunkClassifier.ComponentPrecedence | vite.config.ts:37-45 | for application ids: Hero3D or src/lib/three is three-components, else ui/ is ui-components, else pages/ is pages, else no chunk (all four as iff) |
| ChunkClassifier.LucideGoesToReact | vite.config.ts:15-23 | any node_modules lucide-react id goes to react-vendor |
| GeometryParts.Spread | src/lib/three/geometries/SiloGeometry.ts:62 | the merged keys are both sides' keys; an override wins and every other key keeps its base value |
| SiloGeometry.Final | src/lib/three/geometries/SiloGeometry.ts:32-62 | the object spread of the caller's config over the complete defaults: every field is set, the caller's value when given, the default otherwise |
| SiloGeometry.Rings | src/lib/three/geometries/SiloGeometry.ts:125-131 | one ring per iteration of `i < ringCount` |
| SiloGeometry.AddBody | src/lib/three/geometries/SiloGeometry.ts:82-106 | appends the body |
| SiloGeometry.AddReinforcementRings | src/lib/three/geometries/SiloGeometry.ts:111-132 | the loop appends exactly the rings |
| SiloGeometry.AddRoof | src/lib/three/geometries/SiloGeometry.ts:137-162 | appends the roof |
| SiloGeometry.AddRoofCap | src/lib/three/geometries/SiloGeometry.ts:167-186 | appends the cap |
| SiloGeometry.AddBase | src/lib/three/geometries/SiloGeometry.ts:191-211 | appends the base |
| SiloGeometry.AddAccessDoor | src/lib/three/geometries/SiloGeometry.ts:216-234 | appends the door |
| SiloGeometry.Create | src/lib/three/geometries/SiloGeometry.ts:61-77 | a new group holding body, rings, roof, cap, base and door of the merged config |
| SiloGeometry.SimplifiedConfig | src/lib/three/geometries/SiloGeometry.ts:240-245 | 32 body segments and 6 rings; every other field as merged |
| SiloGeometry.CreateSimplified | src/lib/three/geometries/SiloGeometry.ts:239-248 | create on the simplified config |
| SiloGeometry.CreateBodyOnly | src/lib/three/geometries/SiloGeometry.ts:253-261 | a new group holding the body alone |
| SiloGeometry.OverridesWin | src/lib/three/geometries/SiloGeometry.ts:62 | a given field is the caller's, any other the default |
| SiloGeometry.SiloLayout | src/lib/three/geometries/SiloGeometry.ts:69-74 | ringCount + 5 parts: body, the rings, then roof, cap, base and door |
| SiloGeometry.RingHeights | src/lib/three/geometries/SiloGeometry.ts:127 | ring i is at 1.2 + i·ringSpacing |
| SiloGeometry.SiloStacking | src/lib/three/geometries/SiloGeometry.ts:101-206 | the body stands on the ground, the roof starts at the body top, the cap is at the roof apex, the base is on the ground |
| SiloGeometry.SimplifiedIsFixed | src/lib/three/geometries/SiloGeometry.ts:239-248 | the simplified silo always has 32 segments and 6 rings (11 parts), its other fields as the caller's merge |
| SiloGeometry.BaseIgnoresBodyRadius | src/lib/three/geometries/SiloGeometry.ts:195-199 | the base radii are 9.15 and 9.65 by default and do not move with bodyRadius |
| SiloGeometry.BodyOnlyIsFirst | src/lib/three/geometries/SiloGeometry.ts:253-260 | the body-only group is the first part of the full silo |
| TulhaGeometry.Final | src/lib/three/geometries/TulhaGeometry.ts:37-82 | the object spread of the caller's config over the complete defaults: every field is set, the caller's value when given, the default otherwise |
| TulhaGeometry.Legs | src/lib/three/geometries/TulhaGeometry.ts:117-122 | four legs, one per LEG_POSITIONS entry |
| TulhaGeometry.Rungs | src/lib/three/geometries/TulhaGeometry.ts:301-311 | one rung per iteration of `i < rungCount` |
| TulhaGeometry.AddSupportLegs | src/lib/three/geometries/TulhaGeometry.ts:103-123 | the forEach appends exactly the legs |
| TulhaGeometry.AddCrossBracing | src/lib/three/geometries/TulhaGeometry.ts:128-166 | the nested loops append exactly the three levels of braces |
| TulhaGeometry.AddPlatform | src/lib/three/geometries/TulhaGeometry.ts:171-190 | appends the platform |
| TulhaGeometry.AddBody | src/lib/three/geometries/TulhaGeometry.ts:195-218 | appends the body |
| TulhaGeometry.AddRoof | src/lib/three/geometries/TulhaGeometry.ts:223-241 | appends the roof |
| TulhaGeometry.AddDischargeHopper | src/lib/three/geometries/TulhaGeometry.ts:246-265 | appends the hopper |
| TulhaGeometry.AddAccessLadder | src/lib/three/geometries/TulhaGeometry.ts:270-312 | appends both rails and then the rungs |
| TulhaGeometry.Create | src/lib/three/geometries/TulhaGeometry.ts:81-98 | a new group holding legs, bracing, platform, body, roof, hopper and ladder of the merged config |
| TulhaGeometry.SimplifiedConfig | src/lib/three/geometries/TulhaGeometry.ts:318-323 | 16 body segments and 8 rungs whatever the caller passes; every other field as merged |
| TulhaGeometry.CreateSimplified | src/lib/three/geometries/TulhaGeometry.ts:317-335 | a new group holding legs, platform, body and roof |
| TulhaGeometry.CreateSupportOnly | src/lib/three/geometries/TulhaGeometry.ts:340-349 | a new group holding legs, bracing and platform |
| TulhaGeometry.LevelPlacements | src/lib/three/geometries/TulhaGeometry.ts:146-163 | each level holds four braces but only two placements: two at (0, h, 3) and two at (3, h, 0) |
| TulhaGeometry.BracingLevels | src/lib/three/geometries/TulhaGeometry.ts:143-165 | twelve braces, four at each of the heights 2, 4 and 6 |
| TulhaGeometry.LegLayout | src/lib/three/geometries/TulhaGeometry.ts:67-72 | the legs stand at the four (±3, ±3), centred at legHeight / 2, at distinct positions |
| TulhaGeometry.LegSpacingUnused | src/lib/three/geometries/TulhaGeometry.ts:40 | changing legSpacing changes no part |
| TulhaGeometry.TulhaStacking | src/lib/three/geometries/TulhaGeometry.ts:185-237 | the legs stand on the ground, the platform bottom is at legHeight, the body on the platform, the roof on the body |
| TulhaGeometry.RungPositions | src/lib/three/geometries/TulhaGeometry.ts:301-307 | rung i is at (0.2, 0.5 + i·rungSpacing, bodyRadius + ladderOffset) |
| TulhaGeometry.TulhaCounts | src/lib/three/geometries/TulhaGeometry.ts:89-95 | create has 22 + rungCount parts, the simplified tulha 7 with 16 segments, the support-only one 17 |
| ElevadorGeometry.Final | src/lib/three/geometries/ElevadorGeometry.ts:54-107 | the object spread of the caller's config over the complete defaults: every field is set, the caller's value when given, the default otherwise |
| ElevadorGeometry.Buckets | src/lib/three/geometries/ElevadorGeometry.ts:277-283 | one bucket per iteration of `i < floor(towerHeight / bucketSpacing)` |
| ElevadorGeometry.Rungs | src/lib/three/geometries/ElevadorGeometry.ts:340-347 | one rung per iteration of `i < floor((towerHeight − 2) / 0.5)` |
| ElevadorGeometry.Braces | src/lib/three/geometries/ElevadorGeometry.ts:368-382 | two braces per level |
| ElevadorGeometry.AddTowerStructure | src/lib/three/geometries/ElevadorGeometry.ts:130-150 | appends the tower |
| ElevadorGeometry.AddBase | src/lib/three/geometries/ElevadorGeometry.ts:155-174 | appends the base |
| ElevadorGeometry.AddMotorHousing | src/lib/three/geometries/ElevadorGeometry.ts:179-197 | appends the motor |
| ElevadorGeometry.AddPulleys | src/lib/three/geometries/ElevadorGeometry.ts:202-229 | appends the top and bottom pulleys |
| ElevadorGeometry.AddBeltSystem | src/lib/three/geometries/ElevadorGeometry.ts:234-258 | appends the front and back belts |
| ElevadorGeometry.AddBuckets | src/lib/three/geometries/ElevadorGeometry.ts:263-284 | the loop appends exactly the buckets |
| ElevadorGeometry.AddPlatforms | src/lib/three/geometries/ElevadorGeometry.ts:289-313 | appends the middle and top platforms |
| ElevadorGeometry.AddAccessLadder | src/lib/three/geometries/ElevadorGeometry.ts:318-348 | appends the ladder and then exactly the rungs |
| ElevadorGeometry.AddSupportBraces | src/lib/three/geometries/ElevadorGeometry.ts:353-383 | the loop appends exactly the four pairs of braces |
| ElevadorGeometry.AddInspectionWindows | src/lib/three/geometries/ElevadorGeometry.ts:388-406 | appends the window |
| ElevadorGeometry.AddDischargeChute | src/lib/three/geometries/ElevadorGeometry.ts:411-429 | appends the chute |
| ElevadorGeometry.AddFeedHopper | src/lib/three/geometries/ElevadorGeometry.ts:434-453 | appends the hopper |
| ElevadorGeometry.Create | src/lib/three/geometries/ElevadorGeometry.ts:106-125 | a new group holding the twelve builders' parts in call order |
| ElevadorGeometry.Assemble | src/lib/three/geometries/ElevadorGeometry.ts:111-122 | the twelve calls on a new group give exactly the elevator's part list |
| ElevadorGeometry.AddDrive | src/lib/three/geometries/ElevadorGeometry.ts:111-115 | the first five calls append tower, base, motor, pulleys and belts |
| ElevadorGeometry.AddCarriage | src/lib/three/geometries/ElevadorGeometry.ts:116-119 | the next four append buckets, platforms, ladder and braces |
| ElevadorGeometry.AddFittings | src/lib/three/geometries/ElevadorGeometry.ts:120-122 | the last three append window, chute and hopper |
| ElevadorGeometry.CreateSimplified | src/lib/three/geometries/ElevadorGeometry.ts:458-469 | a new group holding tower, base, motor and both belts |
| ElevadorGeometry.ElevadorCounts | src/lib/three/geometries/ElevadorGeometry.ts:111-122 | create has 21 + buckets + rungs parts; the simplified elevator exactly 5, in order |
| ElevadorGeometry.DefaultCounts | src/lib/three/geometries/ElevadorGeometry.ts:57-70 | the default height 20 and spacing 0.8 give 25 buckets, 36 rungs and 82 parts |
| ElevadorGeometry.NoOverridesAreDefaults | src/lib/three/geometries/ElevadorGeometry.ts:107 | create() without a config uses the default height and spacing, and its bucket loop ends |
| ElevadorGeometry.LoopPositions | src/lib/three/geometries/ElevadorGeometry.ts:277-343 | bucket i is at (0.4, 2 + i·bucketSpacing, 0) and rung i at (2, 1.5 + 0.5·i, 0) |
| ElevadorGeometry.BucketCountIsFloor | src/lib/three/geometries/ElevadorGeometry.ts:277 | with a non-zero spacing the bucket count is max(0, floor(towerHeight / bucketSpacing)) |
| ElevadorGeometry.ElevadorStacking | src/lib/three/geometries/ElevadorGeometry.ts:145-218 | the tower spans [0, towerHeight], the motor sits on it, the top pulley is at towerHeight + motorHeight + pulleyHeight, the base is on the ground |
| ElevadorGeometry.BraceLayout | src/lib/three/geometries/ElevadorGeometry.ts:368-381 | eight braces, a pair at each height 3, 7, 11, 15, at z = 0.8 and z = −0.8 |

## Left out

- three.js and WebGL. Geometry and material constructors, lights, shadows, textures on
  materials, `lookAt`, rendering, disposal and context loss are library calls. Meshes are part
  records; the renderer is the set of values written into it.
- Material options. A part carries no material side, shadow flags, texture map or window transparency.
- The spherical camera placement in `updateCamera` and the easing of `animateToPosition`.
  Both are floating-point trigonometry driven by time.
- DOM, observers and timing. Element sizes, observer callbacks, frame handles, timer firings
  and clock readings are parameters; real time and concurrency are not modelled.
- React hook semantics: memoisation, stale closures and dependency lists. Each operation reads
  the current fields.
- `useOptimizedThreeScene`'s resize handler. It reads the canvas rectangle and falls back to
  800 by 600 only where a side is 0, with no client/offset fallback and no 300 by 200 floor, so
  it differs from `SceneUtils.HandleResize`; it is a plain aspect and setSize step on a library rectangle.
- `SceneUtils.createScene`, `setupLighting`, `addHelpers` and `cleanupScene`. Apart from the
  background colour, they only call three.js.
- Cache Storage, fetch and Response objects. Cache Storage is a value (a sequence of named
  caches in creation order) threaded through the strategies, not an object updated in place.
  The background fetch of stale-while-revalidate is sequentialised.
- The URL regexes, replaced by prefix and substring predicates; the URL parser, replaced by `Protocol`.
- Canvas drawing, `Math.random` and the sin-based brightness of the simple corrugated
  gradient. Only loop positions, stop offsets, colour text and the byte clamp are modelled;
  the noise values are an input.
- JavaScript's `undefined` inside an override object. A key present with value `undefined`
  overwrites the default under object spread; the configuration records model an absent key
  and a present value only, and a key set to `undefined` is treated as absent.
- IEEE rounding. Lengths, times and angles are reals, so stacking equalities hold exactly in
  the model and only approximately in doubles.
- `parseInt` leading whitespace, signs and `0x` prefixes. The inputs are colour strings from the
  code itself.
- The presentational files and the duplicated logic. The duplicates are the test page's size
  chain and retry, the inline silo of the product view, and the components that only compose the hooks.
- TextureFactory.StrokePositions: requires a positive step, because with a step of 0 or less
  the browser loop does not end.
- TextureFactory.CreateCorrugatedTexture: requires positive spacings, for the same reason.
- ElevadorGeometry.Create: requires a non-zero bucket spacing or a non-positive tower height
  (`BucketLoopEnds`). Otherwise `floor(towerHeight / 0)` is Infinity and the bucket loop never
  ends; the defaults meet it (`NoOverridesAreDefaults`).

## Findings

| source | as written | input that shows it | evidently intended | confidence | as-written member | corrected member |
|---|---|---|---|---|---|---|
| src/components/shared/EquipmentIndicators.tsx:292-314 | `startAutoSwitch` sets `isActiveRef` and then calls `stopAutoSwitch`, which clears it; `scheduleNext` then returns at once, so no timeout is ever set | the default equipment list, enabled, with the mount effect run once: the auto-switch stays inactive with no timer | clear the old timeout first, then raise the flag, so the first timeout is scheduled | not executed | EquipmentIndicators.AutoSwitch.StartAsWritten | EquipmentIndicators.AutoSwitch.Start |
