/** `ConfigurationProvider`: the capability cache of the camera library.

    The object owns two caches, from composite keys to size listings and to
    zoom ratios, and the `useCacheValues` flag. `Snapshot` is the value of that
    state, `Step` says what each public call does to it, and the class's
    methods are proved to behave as `Step` and the lookups say. */
module Configuration {
  import opened CameraKeys
  import opened Backends
  import opened Memo

  /** The cache state of a `ConfigurationProvider`. */
  datatype Snapshot = Snapshot(
    sizeMap: map<Key, seq<Size>>,
    ratioMap: map<Key, seq<ZoomRatio>>,
    useCache: bool)

  /** The state `initWithDefaultValues` leaves: both caches empty, caching on. */
  function Initial(): (s: Snapshot)
    ensures s.useCache
    ensures forall k :: k !in s.sizeMap && k !in s.ratioMap
  {
    Snapshot(map[], map[], true)
  }

  /** The public calls that touch the cache state. */
  datatype Call =
    | Sizes1(camera: CameraParameters, face: JInt, sizeFor: JInt)
    | Sizes2(config: StreamConfigurationMap, face: JInt, sizeFor: JInt)
    | ZoomRatios(camera: CameraParameters, face: JInt)
    | SetCaching(enabled: bool)

  /** `getSizes(Camera, cameraFace, sizeFor)` on state `s`. */
  function Camera1Lookup(c: Constants, s: Snapshot, camera: CameraParameters, face: JInt, sizeFor: JInt): (m: Lookup<seq<Size>>)
    ensures m.queried <==> !s.useCache || SizesKey(face, sizeFor, c.typeCamera1) !in s.sizeMap
    ensures m.queried ==> m.answer == LegacySizes(c, camera, sizeFor)
    ensures !m.queried ==> m.answer == Success(s.sizeMap[SizesKey(face, sizeFor, c.typeCamera1)])
  {
    Memoized(s.sizeMap, s.useCache, SizesKey(face, sizeFor, c.typeCamera1), LegacySizes(c, camera, sizeFor))
  }

  /** `getSizes(StreamConfigurationMap, cameraFace, sizeFor)` on state `s`. */
  function Camera2Lookup(c: Constants, s: Snapshot, config: StreamConfigurationMap, face: JInt, sizeFor: JInt): (m: Lookup<seq<Size>>)
    ensures m.queried <==> !s.useCache || SizesKey(face, sizeFor, c.typeCamera2) !in s.sizeMap
    ensures m.queried ==> m.answer == StructuredSizes(c, config, sizeFor)
    ensures !m.queried ==> m.answer == Success(s.sizeMap[SizesKey(face, sizeFor, c.typeCamera2)])
  {
    Memoized(s.sizeMap, s.useCache, SizesKey(face, sizeFor, c.typeCamera2), StructuredSizes(c, config, sizeFor))
  }

  /** `getZoomRatios(Camera, cameraFace)` on state `s`. */
  function ZoomLookup(c: Constants, s: Snapshot, camera: CameraParameters, face: JInt): (m: Lookup<seq<ZoomRatio>>)
    ensures m.queried <==> !s.useCache || ZoomKey(c, face) !in s.ratioMap
    ensures m.queried ==> m.answer == Success(ScaledZoomRatios(camera.zoomRatios))
    ensures !m.queried ==> m.answer == Success(s.ratioMap[ZoomKey(c, face)])
  {
    Memoized(s.ratioMap, s.useCache, ZoomKey(c, face), Success(ScaledZoomRatios(camera.zoomRatios)))
  }

  /** The state after one call. */
  function Step(c: Constants, s: Snapshot, call: Call): (t: Snapshot)
    // only `setUseCacheValues` changes the flag
    ensures t.useCache == (if call.SetCaching? then call.enabled else s.useCache)
    // a size query leaves the ratio cache alone, and the other calls the size cache
    ensures !call.ZoomRatios? ==> t.ratioMap == s.ratioMap
    ensures !(call.Sizes1? || call.Sizes2?) ==> t.sizeMap == s.sizeMap
  {
    match call
    case Sizes1(camera, face, sizeFor) => s.(sizeMap := Camera1Lookup(c, s, camera, face, sizeFor).cache)
    case Sizes2(config, face, sizeFor) => s.(sizeMap := Camera2Lookup(c, s, config, face, sizeFor).cache)
    case ZoomRatios(camera, face) => s.(ratioMap := ZoomLookup(c, s, camera, face).cache)
    case SetCaching(enabled) => s.(useCache := enabled)
  }

  /** The state after a sequence of calls. */
  function Run(c: Constants, s: Snapshot, calls: seq<Call>): (t: Snapshot)
    // without a `setUseCacheValues` call the flag keeps its value
    ensures (forall i :: 0 <= i < |calls| ==> !calls[i].SetCaching?) ==> t.useCache == s.useCache
    decreases |calls|
  {
    if calls == [] then s else Run(c, Step(c, s, calls[0]), calls[1..])
  }

  /** Every entry of `s` is still in `t` with the same value. */
  ghost predicate Extends(s: Snapshot, t: Snapshot) {
    && (forall k :: k in s.sizeMap ==> k in t.sizeMap && t.sizeMap[k] == s.sizeMap[k])
    && (forall k :: k in s.ratioMap ==> k in t.ratioMap && t.ratioMap[k] == s.ratioMap[k])
  }

  lemma StepExtends(c: Constants, s: Snapshot, call: Call)
    ensures Extends(s, Step(c, s, call))
  {
  }

  /** The caches are never invalidated: whatever calls follow, every stored
      entry stays, with the same value. */
  lemma {:induction false} RunExtends(c: Constants, s: Snapshot, calls: seq<Call>)
    ensures Extends(s, Run(c, s, calls))
    decreases |calls|
  {
    if calls != [] {
      var t := Step(c, s, calls[0]);
      StepExtends(c, s, calls[0]);
      RunExtends(c, t, calls[1..]);
    }
  }

  /** While caching stays off, no call reads or writes either cache. */
  lemma {:induction false} RunWithCachingOff(c: Constants, s: Snapshot, calls: seq<Call>)
    requires !s.useCache
    requires forall i :: 0 <= i < |calls| ==> calls[i] != SetCaching(true)
    ensures Run(c, s, calls) == s
    decreases |calls|
  {
    if calls != [] {
      var t := Step(c, s, calls[0]);
      assert t == s;
      RunWithCachingOff(c, t, calls[1..]);
    }
  }

  /** With caching off, every size query asks its back end and answers with
      the listing `sizeFor` selects, and the caches are left alone. */
  lemma CachingOffAsksBackend(c: Constants, s: Snapshot, camera: CameraParameters,
                              config: StreamConfigurationMap, face: JInt, sizeFor: JInt)
    requires !s.useCache
    ensures var m := Camera1Lookup(c, s, camera, face, sizeFor);
      m.queried && m.answer == LegacySizes(c, camera, sizeFor) && Step(c, s, Sizes1(camera, face, sizeFor)) == s
    ensures var m := Camera2Lookup(c, s, config, face, sizeFor);
      m.queried && m.answer == StructuredSizes(c, config, sizeFor) && Step(c, s, Sizes2(config, face, sizeFor)) == s
  {
  }

  /** Memoisation of the legacy size query: once a query has succeeded with
      caching on, the same face and purpose are answered from the cache with
      the same listing, after any calls and whatever the hardware reports then,
      as long as caching is on at that moment. */
  lemma {:induction false} Camera1QueryIsMemoised(c: Constants, s: Snapshot, camera: CameraParameters,
                                                 face: JInt, sizeFor: JInt, calls: seq<Call>, later: CameraParameters)
    requires s.useCache
    requires Camera1Lookup(c, s, camera, face, sizeFor).answer.Success?
    requires Run(c, Step(c, s, Sizes1(camera, face, sizeFor)), calls).useCache
    ensures var again := Camera1Lookup(c, Run(c, Step(c, s, Sizes1(camera, face, sizeFor)), calls), later, face, sizeFor);
      !again.queried && again.answer == Camera1Lookup(c, s, camera, face, sizeFor).answer
  {
    RunExtends(c, Step(c, s, Sizes1(camera, face, sizeFor)), calls);
  }

  /** The same for the structured size query. */
  lemma {:induction false} Camera2QueryIsMemoised(c: Constants, s: Snapshot, config: StreamConfigurationMap,
                                                 face: JInt, sizeFor: JInt, calls: seq<Call>, later: StreamConfigurationMap)
    requires s.useCache
    requires Camera2Lookup(c, s, config, face, sizeFor).answer.Success?
    requires Run(c, Step(c, s, Sizes2(config, face, sizeFor)), calls).useCache
    ensures var again := Camera2Lookup(c, Run(c, Step(c, s, Sizes2(config, face, sizeFor)), calls), later, face, sizeFor);
      !again.queried && again.answer == Camera2Lookup(c, s, config, face, sizeFor).answer
  {
    RunExtends(c, Step(c, s, Sizes2(config, face, sizeFor)), calls);
  }

  /** The same for the zoom-ratio query, which cannot fail. */
  lemma {:induction false} ZoomQueryIsMemoised(c: Constants, s: Snapshot, camera: CameraParameters,
                                              face: JInt, calls: seq<Call>, later: CameraParameters)
    requires s.useCache
    requires Run(c, Step(c, s, ZoomRatios(camera, face)), calls).useCache
    ensures var again := ZoomLookup(c, Run(c, Step(c, s, ZoomRatios(camera, face)), calls), later, face);
      !again.queried && again.answer == ZoomLookup(c, s, camera, face).answer
  {
    RunExtends(c, Step(c, s, ZoomRatios(camera, face)), calls);
  }

  /** An unsupported `sizeFor` that reaches a back end raises
      `IllegalArgumentException` on both back ends and leaves the cache as it was. */
  lemma UnsupportedSizeForFails(c: Constants, s: Snapshot, camera: CameraParameters,
                                config: StreamConfigurationMap, face: JInt, sizeFor: JInt)
    requires !IsSizeFor(c, sizeFor)
    ensures Camera1Lookup(c, s, camera, face, sizeFor).queried ==>
      Camera1Lookup(c, s, camera, face, sizeFor).answer == Failure(IllegalArgument(sizeFor))
      && Step(c, s, Sizes1(camera, face, sizeFor)) == s
    ensures Camera2Lookup(c, s, config, face, sizeFor).queried ==>
      Camera2Lookup(c, s, config, face, sizeFor).answer == Failure(IllegalArgument(sizeFor))
      && Step(c, s, Sizes2(config, face, sizeFor)) == s
  {
  }

  /** Because the cache is consulted before `sizeFor` is checked, an
      unsupported `sizeFor` whose key collides with a cached entry is answered
      from the cache instead of raising: `SIZE_FOR_PICTURE | TYPE_CAMERA1` gets
      the cached picture listing. With caching off the same call raises. */
  lemma UnsupportedSizeForServedFromCache(c: Constants, s: Snapshot, camera: CameraParameters, face: JInt)
    requires DisjointAxes(c) && c.typeCamera1 != 0
    requires SizesKey(face, c.sizeForPicture, c.typeCamera1) in s.sizeMap
    ensures var bad := c.sizeForPicture | c.typeCamera1;
      && !IsSizeFor(c, bad)
      && (s.useCache ==> Camera1Lookup(c, s, camera, face, bad).answer
                         == Success(s.sizeMap[SizesKey(face, c.sizeForPicture, c.typeCamera1)]))
      && (!s.useCache ==> Camera1Lookup(c, s, camera, face, bad).answer == Failure(IllegalArgument(bad)))
  {
    PictureOrCamera1Unsupported(c);
    PictureOrCamera1SharesKey(c, face);
  }

  /** Backend isolation: a structured size query never changes the entry of a
      legacy size query (for the two faces and the three purposes). */
  lemma Camera2QueryKeepsCamera1Entries(c: Constants, s: Snapshot, config: StreamConfigurationMap,
                                        face: JInt, sizeFor: JInt, face': JInt, sizeFor': JInt)
    requires DisjointAxes(c) && c.typeCamera1 != c.typeCamera2
    requires IsFace(c, face) && IsFace(c, face') && IsSizeFor(c, sizeFor')
    ensures var k := SizesKey(face', sizeFor', c.typeCamera1);
      var t := Step(c, s, Sizes2(config, face, sizeFor));
      (k in t.sizeMap <==> k in s.sizeMap) && (k in s.sizeMap ==> t.sizeMap[k] == s.sizeMap[k])
  {
    if IsSizeFor(c, sizeFor) {
      SizesKeyInjective(c, face, sizeFor, c.typeCamera2, face', sizeFor', c.typeCamera1);
      MemoizedKeepsOther(s.sizeMap, s.useCache, SizesKey(face, sizeFor, c.typeCamera2),
                         StructuredSizes(c, config, sizeFor), SizesKey(face', sizeFor', c.typeCamera1));
    }
  }

  /** Backend isolation, the other way: a legacy size query never changes the
      entry of a structured size query. */
  lemma Camera1QueryKeepsCamera2Entries(c: Constants, s: Snapshot, camera: CameraParameters,
                                        face: JInt, sizeFor: JInt, face': JInt, sizeFor': JInt)
    requires DisjointAxes(c) && c.typeCamera1 != c.typeCamera2
    requires IsFace(c, face) && IsFace(c, face') && IsSizeFor(c, sizeFor')
    ensures var k := SizesKey(face', sizeFor', c.typeCamera2);
      var t := Step(c, s, Sizes1(camera, face, sizeFor));
      (k in t.sizeMap <==> k in s.sizeMap) && (k in s.sizeMap ==> t.sizeMap[k] == s.sizeMap[k])
  {
    if IsSizeFor(c, sizeFor) {
      SizesKeyInjective(c, face, sizeFor, c.typeCamera1, face', sizeFor', c.typeCamera2);
      MemoizedKeepsOther(s.sizeMap, s.useCache, SizesKey(face, sizeFor, c.typeCamera1),
                         LegacySizes(c, camera, sizeFor), SizesKey(face', sizeFor', c.typeCamera2));
    }
  }

  /** A new provider has nothing cached: the first query of each kind asks
      its back end. */
  lemma FirstQueriesAsk(c: Constants, camera: CameraParameters, config: StreamConfigurationMap,
                        face: JInt, sizeFor: JInt)
    ensures Camera1Lookup(c, Initial(), camera, face, sizeFor).queried
    ensures Camera2Lookup(c, Initial(), config, face, sizeFor).queried
    ensures ZoomLookup(c, Initial(), camera, face).queried
  {
  }

  /** Rear camera, preview sizes, legacy back end: the first call reports and
      stores the hardware's listing; a second call while the hardware reports
      nothing is still answered with that listing, from the cache. */
  lemma RearPreviewScenario(c: Constants, s: Snapshot, first: CameraParameters, second: CameraParameters)
    requires s.useCache
    requires SizesKey(c.faceRear, c.sizeForPreview, c.typeCamera1) !in s.sizeMap
    requires first.supportedPreviewSizes == [Size(1920, 1080), Size(1280, 720)]
    requires second.supportedPreviewSizes == []
    ensures var m1 := Camera1Lookup(c, s, first, c.faceRear, c.sizeForPreview);
      var t := Step(c, s, Sizes1(first, c.faceRear, c.sizeForPreview));
      var m2 := Camera1Lookup(c, t, second, c.faceRear, c.sizeForPreview);
      && m1.queried && m1.answer == Success([Size(1920, 1080), Size(1280, 720)])
      && !m2.queried && m2.answer == Success([Size(1920, 1080), Size(1280, 720)])
  {
  }

  /** The provider object. The Android collaborators are passed in as the
      values they report; `hardwareQueries` counts the calls into them. */
  class ConfigurationProvider {
    const keys: Constants
    var useCacheValues: bool
    var sizeMap: map<Key, seq<Size>>
    var ratioMap: map<Key, seq<ZoomRatio>>
    ghost var hardwareQueries: nat

    function State(): Snapshot
      reads this
    {
      Snapshot(sizeMap, ratioMap, useCacheValues)
    }

    /** `initWithDefaultValues`, as far as the cache is concerned. */
    constructor (keys: Constants)
      ensures this.keys == keys
      ensures State() == Initial() && hardwareQueries == 0
    {
      this.keys := keys;
      sizeMap := map[];
      ratioMap := map[];
      useCacheValues := true;
      hardwareQueries := 0;
    }

    function IsUseCacheValues(): (enabled: bool)
      reads this
      ensures enabled == State().useCache
    {
      useCacheValues
    }

    method SetUseCacheValues(enabled: bool)
      modifies this
      ensures IsUseCacheValues() == enabled
      ensures State() == Step(keys, old(State()), SetCaching(enabled))
      ensures hardwareQueries == old(hardwareQueries)
    {
      useCacheValues := enabled;
    }

    /** `getSizes(Camera, cameraFace, sizeFor)`: the legacy back end. */
    method GetSizes1(camera: CameraParameters, face: JInt, sizeFor: JInt) returns (sizes: Result<seq<Size>>)
      modifies this
      ensures sizes == Camera1Lookup(keys, old(State()), camera, face, sizeFor).answer
      ensures State() == Step(keys, old(State()), Sizes1(camera, face, sizeFor))
      // `camera.getParameters()` is called on every miss, before the switch
      ensures hardwareQueries == old(hardwareQueries)
        + (if Camera1Lookup(keys, old(State()), camera, face, sizeFor).queried then 1 else 0)
    {
      ghost var m := Camera1Lookup(keys, State(), camera, face, sizeFor);
      var hash := SizesKey(face, sizeFor, keys.typeCamera1);
      if useCacheValues && hash in sizeMap {
        assert m == Lookup(Success(sizeMap[hash]), sizeMap, false);
        return Success(sizeMap[hash]);
      }
      hardwareQueries := hardwareQueries + 1;
      var listing: seq<Size>;
      match Classify(keys, sizeFor) {
        case Some(Picture) => listing := camera.supportedPictureSizes;
        case Some(Preview) => listing := camera.supportedPreviewSizes;
        case Some(Video) => listing := camera.supportedVideoSizes;
        case None =>
          assert m == Lookup(Failure(IllegalArgument(sizeFor)), sizeMap, true);
          return Failure(IllegalArgument(sizeFor));
      }
      assert LegacySizes(keys, camera, sizeFor) == Success(listing);
      if useCacheValues {
        assert m == Lookup(Success(listing), sizeMap[hash := listing], true);
        sizeMap := sizeMap[hash := listing];
      } else {
        assert m == Lookup(Success(listing), sizeMap, true);
      }
      return Success(listing);
    }

    /** `getZoomRatios(Camera, cameraFace)`. */
    method GetZoomRatios(camera: CameraParameters, face: JInt) returns (ratios: seq<ZoomRatio>)
      modifies this
      ensures Success(ratios) == ZoomLookup(keys, old(State()), camera, face).answer
      ensures State() == Step(keys, old(State()), ZoomRatios(camera, face))
      ensures hardwareQueries == old(hardwareQueries)
        + (if ZoomLookup(keys, old(State()), camera, face).queried then 1 else 0)
    {
      var hash := ZoomKey(keys, face);
      if useCacheValues && hash in ratioMap {
        return ratioMap[hash];
      }
      hardwareQueries := hardwareQueries + 1;
      ratios := ScaleZoomUnits(camera.zoomRatios);
      if useCacheValues {
        ratioMap := ratioMap[hash := ratios];
      }
    }

    /** `getSizes(StreamConfigurationMap, cameraFace, sizeFor)`: the structured back end. */
    method GetSizes2(config: StreamConfigurationMap, face: JInt, sizeFor: JInt) returns (sizes: Result<seq<Size>>)
      modifies this
      ensures sizes == Camera2Lookup(keys, old(State()), config, face, sizeFor).answer
      ensures State() == Step(keys, old(State()), Sizes2(config, face, sizeFor))
      // `getOutputSizes` is only called for a supported `sizeFor`
      ensures hardwareQueries == old(hardwareQueries)
        + (if Camera2Lookup(keys, old(State()), config, face, sizeFor).queried && sizes.Success? then 1 else 0)
    {
      ghost var m := Camera2Lookup(keys, State(), config, face, sizeFor);
      var hash := SizesKey(face, sizeFor, keys.typeCamera2);
      if useCacheValues && hash in sizeMap {
        assert m == Lookup(Success(sizeMap[hash]), sizeMap, false);
        return Success(sizeMap[hash]);
      }
      var listing: seq<Size>;
      match Classify(keys, sizeFor) {
        case Some(Picture) => listing := OutputSizes(config, Jpeg);
        case Some(Preview) => listing := OutputSizes(config, SurfaceTexture);
        case Some(Video) => listing := OutputSizes(config, MediaRecorder);
        case None =>
          assert m == Lookup(Failure(IllegalArgument(sizeFor)), sizeMap, true);
          return Failure(IllegalArgument(sizeFor));
      }
      assert StructuredSizes(keys, config, sizeFor) == Success(listing);
      hardwareQueries := hardwareQueries + 1;
      if useCacheValues {
        assert m == Lookup(Success(listing), sizeMap[hash := listing], true);
        sizeMap := sizeMap[hash := listing];
      } else {
        assert m == Lookup(Success(listing), sizeMap, true);
      }
      return Success(listing);
    }
  }
}
