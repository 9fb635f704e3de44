# xCamera capability cache in Dafny

xCamera's `ConfigurationProvider` answers two questions about a camera device. It reports which media sizes the hardware supports for a purpose: picture, preview or video. It also reports which zoom ratios the hardware supports. It asks one of two back ends:

- the legacy `android.hardware.Camera` parameter bag;
- the structured `StreamConfigurationMap` of the camera2 API.

It memoises every answer under a composite `int` key. The key is the bitwise OR of the camera face, the size purpose (`CameraSizeFor`) and the camera type. A `useCacheValues` flag switches the memoisation on and off.

The project has four modules:

- `CameraKeys` (`keys.dfy`) holds the seven classification constants and the two key builders. Java `int` is modelled as `bv32`, so `|` is bitwise OR. The constants' numeric values are left open. The Java `switch` forces the three size purposes to be distinct, and that is encoded in the `Constants` subset type. The lemmas that need the three axes to occupy disjoint bits state this as `DisjointAxes`.
- `Backends` (`backends.dfy`) holds the two back-end adapters: the `switch (sizeFor)` of each `getSizes`, and the `IllegalArgumentException` of its `default` branch. It also has the loop that turns hardware zoom units into ratios.
- `Memo` (`memo.dfy`) holds the lookup-then-store pattern shared by the three queries.
- `Configuration` (`configuration.dfy`) has two parts:
  - A value-level specification of the provider's cache state (`Snapshot`), what each public call does to it (`Step`, `Run`), and lemmas about sequences of calls: memoisation, bypass, no invalidation, backend isolation, and the unsupported-purpose paths.
  - The class `ConfigurationProvider`, whose methods update its fields in place and are proved to do what `Step` and the lookups say. The ghost field `hardwareQueries` counts the calls into the hardware.

The provider does not check its `int` arguments before it uses them in a key:

- An unsupported `sizeFor` does not always raise. The key is built and the cache consulted before the `switch` (`ConfigurationProvider.java:131-138`, `:203-210`). So an unsupported value whose key equals a cached key gets the cached list. For example, `SIZE_FOR_PICTURE | TYPE_CAMERA1` on the legacy back end gets the cached picture list. `UnsupportedSizeForFails` states the exception only for the case where the back end is reached. `UnsupportedSizeForServedFromCache` exhibits the cache path.
- `cameraFace` is never checked either (`:131`, `:171`, `:203`). A value outside the two faces goes into the key unchanged and can collide with another query's key. `SwappedFaceAndSizeForShareKey` exhibits one such collision.

## Model

| member | source | states |
|---|---|---|
| CameraKeys.SizesKey | xcamera/src/main/java/me/shouheng/xcamera/config/ConfigurationProvider.java:131 | The size key, `cameraFace \| sizeFor \| cameraType`. What it means as a key is carried by `SizesKeyInjective`: under disjoint axes it is equal for two valid queries exactly when they agree on face, purpose and camera type. |
| CameraKeys.ZoomKey | xcamera/src/main/java/me/shouheng/xcamera/config/ConfigurationProvider.java:171 | The zoom key, `cameraFace \| TYPE_CAMERA1`; every bit of the face and of the camera1 type is set in it. Its injectivity is `ZoomKeyInjective`. |
| CameraKeys.SwappedFaceAndSizeForShareKey | xcamera/src/main/java/me/shouheng/xcamera/config/ConfigurationProvider.java:131 | Because the face is not checked, a preview value passed as the face with picture as the purpose gives the same key as a picture value passed as the face with preview as the purpose. |
| CameraKeys.SizesKeyInjective | xcamera/src/main/java/me/shouheng/xcamera/config/ConfigurationProvider.java:131 | When the three axes occupy disjoint bits, two size keys built from valid face, purpose and camera type values are equal exactly when all three components are equal. |
| CameraKeys.BackendsUseDifferentKeys | xcamera/src/main/java/me/shouheng/xcamera/config/ConfigurationProvider.java:203 | The same face and purpose get different keys on the legacy and the structured back end whenever the two camera-type constants differ. |
| CameraKeys.ZoomKeyInjective | xcamera/src/main/java/me/shouheng/xcamera/config/ConfigurationProvider.java:171 | The two faces never share a zoom-ratio key. |
| CameraKeys.PictureOrCamera1Unsupported | xcamera/src/main/java/me/shouheng/xcamera/config/ConfigurationProvider.java:142-154 | `SIZE_FOR_PICTURE \| TYPE_CAMERA1` matches no case label of the `switch`, given disjoint axes and a nonzero camera1 type. |
| CameraKeys.PictureOrCamera1SharesKey | xcamera/src/main/java/me/shouheng/xcamera/config/ConfigurationProvider.java:131 | The legacy key of purpose `SIZE_FOR_PICTURE \| TYPE_CAMERA1` is the legacy picture key of the same face. |
| Backends.Classify | xcamera/src/main/java/me/shouheng/xcamera/config/ConfigurationProvider.java:142-154 | The `switch` picks a case exactly when `sizeFor` is one of the three purposes, and the case it picks has `sizeFor` as its label. |
| Backends.LegacySizes | xcamera/src/main/java/me/shouheng/xcamera/config/ConfigurationProvider.java:142-154 | Picture, preview and video give the parameter bag's picture, preview and video listings; any other value raises `IllegalArgumentException` carrying that value. |
| Backends.StructuredSizes | xcamera/src/main/java/me/shouheng/xcamera/config/ConfigurationProvider.java:213-225 | Picture, preview and video give the output sizes for JPEG, `SurfaceTexture` and `MediaRecorder`; any other value raises `IllegalArgumentException` carrying that value. |
| Backends.ScaledZoomRatios | xcamera/src/main/java/me/shouheng/xcamera/config/ConfigurationProvider.java:180-184 | One ratio per hardware zoom unit, in order, each equal to the unit divided by 100. |
| Backends.ScaleZoomUnits | xcamera/src/main/java/me/shouheng/xcamera/config/ConfigurationProvider.java:181-184 | The loop that appends `ratio * 0.01` for each unit builds exactly `ScaledZoomRatios` of the units. |
| Backends.ScaledZoomRatiosExample | xcamera/src/main/java/me/shouheng/xcamera/config/ConfigurationProvider.java:183 | Units 0, 100 and 250 give the ratios 0, 1 and 5/2. |
| Memo.Memoized | xcamera/src/main/java/me/shouheng/xcamera/config/ConfigurationProvider.java:133-159 | The back end is asked exactly when caching is off or the key is absent. A hit returns the stored list unchanged. A miss returns the back end's answer or exception. No entry is removed or replaced, and no key other than the query's is added. With caching on, a successful answer is stored under the key. With caching off, or on an exception, the cache is left as it was. |
| Configuration.Initial | xcamera/src/main/java/me/shouheng/xcamera/config/ConfigurationProvider.java:94-100 | The state `initWithDefaultValues` leaves: caching on and no key in either cache. |
| Configuration.FirstQueriesAsk | xcamera/src/main/java/me/shouheng/xcamera/config/ConfigurationProvider.java:94-100 | From the initial state the first legacy size query, the first structured size query and the first zoom query each ask their back end. |
| Configuration.Camera1Lookup | xcamera/src/main/java/me/shouheng/xcamera/config/ConfigurationProvider.java:129-160 | The legacy size query on a state. It asks the back end exactly when caching is off or its key is absent. A miss answers what `LegacySizes` gives; a hit answers the stored list. |
| Configuration.Camera2Lookup | xcamera/src/main/java/me/shouheng/xcamera/config/ConfigurationProvider.java:200-231 | The same for the structured size query, with `StructuredSizes` and the camera2 key. |
| Configuration.ZoomLookup | xcamera/src/main/java/me/shouheng/xcamera/config/ConfigurationProvider.java:169-190 | The same for the zoom query, with the zoom key: a miss answers the scaled hardware units, a hit the stored ratios. |
| Configuration.Step | xcamera/src/main/java/me/shouheng/xcamera/config/ConfigurationProvider.java:129-265 | The state after one public call. Only `setUseCacheValues` changes the flag. A size query leaves the ratio cache alone, and the other calls leave the size cache alone. `StepExtends` shows that no call drops an entry. |
| Configuration.Run | xcamera/src/main/java/me/shouheng/xcamera/config/ConfigurationProvider.java:129-265 | The state after a sequence of calls. Without a `setUseCacheValues` call the flag keeps its value. `RunExtends` and `RunWithCachingOff` carry its other properties. |
| Configuration.StepExtends | xcamera/src/main/java/me/shouheng/xcamera/config/ConfigurationProvider.java:155-158 | No single call removes or changes a cached entry. |
| Configuration.RunExtends | xcamera/src/main/java/me/shouheng/xcamera/config/ConfigurationProvider.java:129-231 | After any sequence of calls every cached entry is still present with the same value; the caches are never invalidated. |
| Configuration.RunWithCachingOff | xcamera/src/main/java/me/shouheng/xcamera/config/ConfigurationProvider.java:155-158 | While caching is off and nobody turns it on, no call changes either cache. |
| Configuration.CachingOffAsksBackend | xcamera/src/main/java/me/shouheng/xcamera/config/ConfigurationProvider.java:133-138 | With caching off both size queries ask their back end, answer with its result and leave the state unchanged. |
| Configuration.Camera1QueryIsMemoised | xcamera/src/main/java/me/shouheng/xcamera/config/ConfigurationProvider.java:129-160 | After a successful legacy size query with caching on, the same face and purpose are answered from the cache with the same listing. This holds after any further calls, whatever the hardware reports then, as long as caching is on at that moment. |
| Configuration.Camera2QueryIsMemoised | xcamera/src/main/java/me/shouheng/xcamera/config/ConfigurationProvider.java:200-231 | The same for the structured back end. |
| Configuration.ZoomQueryIsMemoised | xcamera/src/main/java/me/shouheng/xcamera/config/ConfigurationProvider.java:169-190 | The same for zoom ratios, which cannot fail. |
| Configuration.UnsupportedSizeForFails | xcamera/src/main/java/me/shouheng/xcamera/config/ConfigurationProvider.java:152-154 | When an unsupported `sizeFor` reaches either back end, the query raises `IllegalArgumentException` and the state stays the same. |
| Configuration.UnsupportedSizeForServedFromCache | xcamera/src/main/java/me/shouheng/xcamera/config/ConfigurationProvider.java:131-138 | With the picture listing cached and caching on, the unsupported `SIZE_FOR_PICTURE \| TYPE_CAMERA1` is answered with that listing. With caching off it raises. |
| Configuration.Camera2QueryKeepsCamera1Entries | xcamera/src/main/java/me/shouheng/xcamera/config/ConfigurationProvider.java:203 | Backend isolation: a structured size query neither adds, removes nor changes the entry of any legacy size query for a valid face and purpose. |
| Configuration.Camera1QueryKeepsCamera2Entries | xcamera/src/main/java/me/shouheng/xcamera/config/ConfigurationProvider.java:131 | Backend isolation, the other way: a legacy size query neither adds, removes nor changes the entry of any structured size query for a valid face and purpose. |
| Configuration.RearPreviewScenario | xcamera/src/main/java/me/shouheng/xcamera/config/ConfigurationProvider.java:129-160 | Rear face, preview, legacy back end: the first call reports and stores [(1920,1080),(1280,720)]. A second call while the hardware reports an empty list still gets that listing, from the cache. |
| Configuration.ConfigurationProvider.constructor | xcamera/src/main/java/me/shouheng/xcamera/config/ConfigurationProvider.java:94-108 | A new provider has both caches empty, caching on and no hardware call made. |
| Configuration.ConfigurationProvider.IsUseCacheValues | xcamera/src/main/java/me/shouheng/xcamera/config/ConfigurationProvider.java:259-261 | Returns the caching flag of the provider's state, the one `SetUseCacheValues` sets and every query consults. |
| Configuration.ConfigurationProvider.SetUseCacheValues | xcamera/src/main/java/me/shouheng/xcamera/config/ConfigurationProvider.java:259-265 | After the call `IsUseCacheValues()` returns the new flag. The caches are unchanged and the hardware is not asked. |
| Configuration.ConfigurationProvider.GetSizes1 | xcamera/src/main/java/me/shouheng/xcamera/config/ConfigurationProvider.java:129-160 | Returns the memoised legacy lookup's answer (listing or exception) and leaves the state `Step` gives. It calls into the hardware once on every miss, before the `switch`, and never on a hit. |
| Configuration.ConfigurationProvider.GetZoomRatios | xcamera/src/main/java/me/shouheng/xcamera/config/ConfigurationProvider.java:169-190 | Returns the memoised zoom lookup's ratios and leaves the state `Step` gives. It calls into the hardware once on every miss. |
| Configuration.ConfigurationProvider.GetSizes2 | xcamera/src/main/java/me/shouheng/xcamera/config/ConfigurationProvider.java:200-231 | Returns the memoised structured lookup's answer and leaves the state `Step` gives. It asks the configuration map only on a miss with a supported `sizeFor`. |

## Left out

- The lazy, double-checked singleton `get()` and the `volatile` field: the model constructs providers explicitly, and concurrency is not modelled.
- `cameraManagerCreator`, `cameraPreviewCreator`, `cameraSizeCalculator` and their getters and setters: factories outside the cache.
- The other defaults of `initWithDefaultValues` and their getters and setters (default face, media type, media quality, aspect ratio, voice, auto focus, flash mode): plain fields that never touch the cache.
- `defaultVideoFileSize` and `defaultVideoDuration`, with their getters and setters: plain fields that never touch the cache.
- `setDebug`, `isDebug` and logging: no effect on the cache.
- The camera-close listener: an interface with no cache behaviour.
- Zoom ratios are exact hundredths, not `float` values: single-precision rounding of `ratio * 0.01f` is not modelled.
- `Size.fromList`: the native size lists are taken as lists of `Size`. `Size.fromList` is not part of this model.
- Null listings: Java decides a hit with `sizes != null` / `zoomRatios != null` on a `SparseArray` (`:135`, `:175`, `:207`), and the model decides it with `key in cache`. The two agree only while no null listing is stored. The model has no null listing, so it does not capture the Java case where a back end reports null (as `getSupportedVideoSizes()` may): if `Size.fromList` passes that null through, the null is stored and every later call for that key misses again.
- Unsynchronised caches: nothing synchronises `sizeMap` or `ratioMap`, and concurrent queries are not modelled.
- Failures of the hardware calls themselves (`getParameters`, `getOutputSizes`): they propagate to the caller before any store, so nothing is cached. The model has no such failure.
- The numeric values of the `CameraFace`, `CameraSizeFor` and `CameraType` constants: the annotation files are not part of this model. The model leaves them as parameters, and the lemmas that need disjoint bits require `DisjointAxes`.
- Sharing: a cached list is returned by reference in Java, so a caller that mutates it mutates the cache. The model returns values.
- `CameraKeys.ZoomKeyInjective`: stated in one direction only (equal keys imply equal faces); the other direction is immediate from the definition.
