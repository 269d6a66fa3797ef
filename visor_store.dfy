/**
 * The viewer's state store: which specimen and image are loaded, which view
 * is active, the slice shown in each view (clamped to the image), channel
 * and resolution-level choices guarded by what the specimen offers, zoom and
 * atlas opacity clamps, the 3D cursor position that can drive all three
 * slices, UI toggles, and per-channel display settings.
 */
module VisorStore {
  import opened Common
  import opened Text
  import opened Volumes

  /** ChannelType: the channel indices 0 to 3. */
  type ChannelId = c: int | 0 <= c < 4

  datatype BlendMode = Normal | Multiply | Screen | Overlay

  /** The maximised panel: one of the 2D views or the 3D view. */
  datatype Panel = ViewPanel(view: View) | ThreeD

  /** The specimen record as the store uses it; channels maps channel keys to names. */
  datatype Specimen = Specimen(id: string, hasImage: bool, hasAtlas: bool, channels: map<string, string>)

  /** The image description: dimensions [z, y, x] and the number of resolution levels. */
  datatype ImageInfo = ImageInfo(dimensions: (int, int, int), resolutionLevels: int)

  /** One number per view (slice indices, or their maxima). */
  datatype Slices = Slices(sagittal: real, coronal: real, horizontal: real) {
    function Get(view: View): real {
      match view
      case Sagittal => sagittal
      case Coronal => coronal
      case Horizontal => horizontal
    }

    function Set(view: View, value: real): (r: Slices)
      ensures r.Get(view) == value
      ensures forall other :: other != view ==> r.Get(other) == Get(other)
    {
      match view
      case Sagittal => this.(sagittal := value)
      case Coronal => this.(coronal := value)
      case Horizontal => this.(horizontal := value)
    }
  }

  datatype ChannelSettings = ChannelSettings(
    activeChannels: seq<int>,
    visibility: map<ChannelId, bool>,
    brightness: map<ChannelId, real>,
    contrast: map<ChannelId, real>,
    gamma: map<ChannelId, real>,
    blendMode: BlendMode)

  /** A partial settings object: None where the field is undefined. */
  datatype ChannelPatch = ChannelPatch(
    visibility: Option<bool>,
    brightness: Option<real>,
    contrast: Option<real>,
    gamma: Option<real>)

  function ForAllChannels<T>(value: T): map<ChannelId, T> {
    map[0 := value, 1 := value, 2 := value, 3 := value]
  }

  /** The settings the store starts with and that a reset restores. */
  function InitialChannelSettings(): ChannelSettings {
    ChannelSettings([0], ForAllChannels(true), ForAllChannels(50.0), ForAllChannels(50.0),
                    ForAllChannels(1.0), Normal)
  }

  /** Every field of the store that the synchronous actions read or write. */
  datatype StoreState = StoreState(
    currentSpecimen: Option<Specimen>,
    imageInfo: Option<ImageInfo>,
    currentView: View,
    currentSlice: Slices,
    currentChannel: int,
    currentLevel: int,
    zoomLevel: real,
    position: (real, real, real),
    showAtlasOverlay: bool,
    atlasOpacity: real,
    sidebarVisible: bool,
    regionBrowserVisible: bool,
    maximizedView: Option<Panel>,
    synchronizeViews: bool,
    showCrosshair: bool,
    channelSettings: ChannelSettings)

  function InitialState(): StoreState {
    StoreState(None, None, Sagittal, Slices(0.0, 0.0, 0.0), 0, 0, 1.0, (0.0, 0.0, 0.0),
               true, 0.5, true, true, None, true, true, InitialChannelSettings())
  }

  // ---------------------------------------------------------------------------
  // Number helpers with JavaScript's meaning

  function RMax(a: real, b: real): real { if a >= b then a else b }
  function RMin(a: real, b: real): real { if a <= b then a else b }

  /** Math.round: the nearest integer, halves rounded up. */
  function JsRound(r: real): int {
    (r + 0.5).Floor
  }

  /** Math.round moves a number by at most one half. */
  lemma JsRoundNearest(r: real)
    ensures r - 0.5 < JsRound(r) as real <= r + 0.5
  {
  }

  /**
   * Number(key) for an object key, None where it is NaN; the empty string
   * is 0. Only optionally signed decimal integers are read.
   */
  function JsNumber(key: string): Option<int> {
    if key == "" then Some(0) else ParseInt(key)
  }

  // ---------------------------------------------------------------------------
  // Computed values

  /** maxSlices: the last index along X, Y and Z for sagittal, coronal and horizontal; all 0 without an image. */
  function MaxSlicesOf(info: Option<ImageInfo>): Slices {
    match info
    case None => Slices(0.0, 0.0, 0.0)
    case Some(ImageInfo((z, y, x), _)) => Slices((x - 1) as real, (y - 1) as real, (z - 1) as real)
  }

  /** Object.keys(availableChannels).map(Number): the channel numbers the specimen offers. */
  function AvailableChannelNumbers(specimen: Option<Specimen>): set<int> {
    if specimen.None? then {}
    else set key | key in specimen.value.channels && JsNumber(key).Some? :: JsNumber(key).value
  }

  function CurrentSliceForView(s: StoreState): real {
    s.currentSlice.Get(s.currentView)
  }

  // ---------------------------------------------------------------------------
  // Transitions

  /** Math.max(0, Math.min(slice, max)) */
  function ClampSlice(slice: real, max: real): real {
    RMax(0.0, RMin(slice, max))
  }

  function SliceForView(s: StoreState, view: View, slice: real): StoreState {
    s.(currentSlice := s.currentSlice.Set(view, ClampSlice(slice, MaxSlicesOf(s.imageInfo).Get(view))))
  }

  function SetChannel(s: StoreState, channel: int): StoreState {
    if channel in AvailableChannelNumbers(s.currentSpecimen) then s.(currentChannel := channel) else s
  }

  predicate LevelAllowed(info: Option<ImageInfo>, level: int) {
    info.Some? && 0 <= level < info.value.resolutionLevels
  }

  function SetLevel(s: StoreState, level: int): StoreState {
    if LevelAllowed(s.imageInfo, level) then s.(currentLevel := level) else s
  }

  function ClampZoom(zoom: real): real { RMax(0.1, RMin(100.0, zoom)) }

  function ClampOpacity(opacity: real): real { RMax(0.0, RMin(1.0, opacity)) }

  /** setPosition: position [z, y, x]; with synchronised views the slices follow it. */
  function SetPositionState(s: StoreState, p: (real, real, real)): StoreState {
    var t := s.(position := p);
    if s.synchronizeViews then
      t.(currentSlice := Slices(JsRound(p.2) as real, JsRound(p.1) as real, JsRound(p.0) as real))
    else t
  }

  function Patch<T>(m: map<ChannelId, T>, channel: ChannelId, value: Option<T>): map<ChannelId, T> {
    if value.Some? then m[channel := value.value] else m
  }

  function UpdateSettings(c: ChannelSettings, channel: ChannelId, patch: ChannelPatch): ChannelSettings {
    c.(visibility := Patch(c.visibility, channel, patch.visibility),
       brightness := Patch(c.brightness, channel, patch.brightness),
       contrast := Patch(c.contrast, channel, patch.contrast),
       gamma := Patch(c.gamma, channel, patch.gamma))
  }

  /** The centre slices set when a specimen's image is loaded: floor(x/2), floor(y/2), floor(z/2). */
  function CentreSlices(info: ImageInfo): Slices {
    var (z, y, x) := info.dimensions;
    Slices((x / 2) as real, (y / 2) as real, (z / 2) as real)
  }

  /**
   * The synchronous effect of setCurrentSpecimen once the specimen record
   * and, for a specimen with an image, its image info have been fetched.
   */
  function LoadSpecimen(s: StoreState, specimen: Specimen, info: Option<ImageInfo>): StoreState {
    var t := s.(currentSpecimen := Some(specimen));
    if !specimen.hasImage then t
    else
      var u := t.(imageInfo := info);
      if info.Some? then u.(currentSlice := CentreSlices(info.value)) else u
  }

  /** The five on/off switches of the store. */
  datatype Flag = ViewSync | Crosshair | AtlasOverlay | Sidebar | RegionBrowser

  function FlagValue(s: StoreState, flag: Flag): bool {
    match flag
    case ViewSync => s.synchronizeViews
    case Crosshair => s.showCrosshair
    case AtlasOverlay => s.showAtlasOverlay
    case Sidebar => s.sidebarVisible
    case RegionBrowser => s.regionBrowserVisible
  }

  function Toggle(s: StoreState, flag: Flag): StoreState {
    match flag
    case ViewSync => s.(synchronizeViews := !s.synchronizeViews)
    case Crosshair => s.(showCrosshair := !s.showCrosshair)
    case AtlasOverlay => s.(showAtlasOverlay := !s.showAtlasOverlay)
    case Sidebar => s.(sidebarVisible := !s.sidebarVisible)
    case RegionBrowser => s.(regionBrowserVisible := !s.regionBrowserVisible)
  }

  function ResetSettings(s: StoreState): StoreState {
    s.(channelSettings := InitialChannelSettings())
  }

  // ---------------------------------------------------------------------------
  // Properties

  /** A toggle flips its own flag and no other, and toggling twice restores the store. */
  lemma ToggleIsInvolution(s: StoreState, flag: Flag)
    ensures FlagValue(Toggle(s, flag), flag) == !FlagValue(s, flag)
    ensures forall other :: other != flag ==> FlagValue(Toggle(s, flag), other) == FlagValue(s, other)
    ensures Toggle(Toggle(s, flag), flag) == s
    ensures Toggle(s, flag).channelSettings == s.channelSettings && Toggle(s, flag).currentSlice == s.currentSlice
  {
  }

  /** A reset forgets every earlier settings update, and from the initial store it changes nothing. */
  lemma ResetForgetsUpdates(s: StoreState, channel: ChannelId, patch: ChannelPatch)
    ensures ResetSettings(s.(channelSettings := UpdateSettings(s.channelSettings, channel, patch))) == ResetSettings(s)
    ensures ResetSettings(InitialState()) == InitialState()
    ensures ResetSettings(s).channelSettings.visibility == ForAllChannels(true)
    ensures ResetSettings(s).channelSettings.gamma == ForAllChannels(1.0)
  {
  }

  /**
   * A slice set for a view lies in [0, maxSlices[view]] (0 when the image has
   * no samples along that axis), equals the request when that is in range,
   * and no other view's slice or other field changes.
   */
  lemma SliceForViewClamps(s: StoreState, view: View, slice: real)
    ensures var t := SliceForView(s, view, slice);
      var max := MaxSlicesOf(s.imageInfo).Get(view);
      && (max >= 0.0 ==> 0.0 <= t.currentSlice.Get(view) <= max)
      && (max < 0.0 ==> t.currentSlice.Get(view) == 0.0)
      && (0.0 <= slice <= max ==> t.currentSlice.Get(view) == slice)
      && (forall other :: other != view ==> t.currentSlice.Get(other) == s.currentSlice.Get(other))
      && t.(currentSlice := s.currentSlice) == s
  {
  }

  /** setCurrentSlice acts on the active view, and currentSliceForView then reads back the clamped value. */
  lemma CurrentSliceReadsBack(s: StoreState, slice: real)
    ensures CurrentSliceForView(SliceForView(s, s.currentView, slice)) ==
            ClampSlice(slice, MaxSlicesOf(s.imageInfo).Get(s.currentView))
  {
  }

  /** Without an image every view's maximum is 0, and so is every slice that is set. */
  lemma NoImageSlicesAreZero(s: StoreState, view: View, slice: real)
    requires s.imageInfo.None?
    ensures SliceForView(s, view, slice).currentSlice.Get(view) == 0.0
  {
  }

  /**
   * For an image with at least one sample along each axis, the centre slices
   * lie within the per-view maxima, so clamping leaves them where they are.
   */
  lemma CentreSlicesInRange(s: StoreState, specimen: Specimen, info: ImageInfo, view: View)
    requires specimen.hasImage
    requires info.dimensions.0 >= 1 && info.dimensions.1 >= 1 && info.dimensions.2 >= 1
    ensures var t := LoadSpecimen(s, specimen, Some(info));
      var c := t.currentSlice.Get(view);
      && 0.0 <= c <= MaxSlicesOf(t.imageInfo).Get(view)
      && SliceForView(t, view, c) == t
  {
    var t := LoadSpecimen(s, specimen, Some(info));
    var c := t.currentSlice.Get(view);
    assert t.currentSlice.Set(view, c) == t.currentSlice;
  }

  /** A specimen without an image leaves the image info and the slices as they were. */
  lemma LoadSpecimenWithoutImage(s: StoreState, specimen: Specimen, info: Option<ImageInfo>)
    requires !specimen.hasImage
    ensures LoadSpecimen(s, specimen, info).imageInfo == s.imageInfo
    ensures LoadSpecimen(s, specimen, info).currentSlice == s.currentSlice
    ensures LoadSpecimen(s, specimen, info).currentSpecimen == Some(specimen)
  {
  }

  /** The channel changes exactly to an offered channel number, and an offered current channel stays offered. */
  lemma SetChannelGuarded(s: StoreState, channel: int)
    ensures var t := SetChannel(s, channel);
      && (t.currentChannel == channel || t == s)
      && (t != s ==> channel in AvailableChannelNumbers(s.currentSpecimen))
      && (channel in AvailableChannelNumbers(s.currentSpecimen) ==> t.currentChannel == channel)
      && (s.currentChannel in AvailableChannelNumbers(s.currentSpecimen) ==>
            t.currentChannel in AvailableChannelNumbers(t.currentSpecimen))
  {
  }

  /** A channel key written as a number is offered: the specimen's "2" channel allows channel 2. */
  lemma ChannelKeyOffered(specimen: Specimen, n: int)
    requires IntToStr(n) in specimen.channels
    ensures n in AvailableChannelNumbers(Some(specimen))
  {
    ParseIntOfIntToStr(n);
    assert IntToStr(n) != "" by {
      NatToStrNonEmpty(if n < 0 then -n else n);
    }
  }

  lemma NatToStrNonEmpty(n: nat)
    ensures |IntToStr(n)| >= 1
  {
  }

  /** The level changes only to a level the image has, so a valid level stays valid. */
  lemma SetLevelGuarded(s: StoreState, level: int)
    ensures var t := SetLevel(s, level);
      && (t.currentLevel == level <==> LevelAllowed(s.imageInfo, level) || s.currentLevel == level)
      && (t != s ==> LevelAllowed(s.imageInfo, level))
      && (LevelAllowed(s.imageInfo, s.currentLevel) ==> LevelAllowed(t.imageInfo, t.currentLevel))
  {
  }

  /** The zoom stays in [0.1, 100]; an in-range zoom is kept as asked; clamping twice changes nothing. */
  lemma ClampZoomRange(zoom: real)
    ensures 0.1 <= ClampZoom(zoom) <= 100.0
    ensures 0.1 <= zoom <= 100.0 ==> ClampZoom(zoom) == zoom
    ensures ClampZoom(ClampZoom(zoom)) == ClampZoom(zoom)
  {
  }

  /** The atlas opacity stays in [0, 1]; an in-range opacity is kept; clamping twice changes nothing. */
  lemma ClampOpacityRange(opacity: real)
    ensures 0.0 <= ClampOpacity(opacity) <= 1.0
    ensures 0.0 <= opacity <= 1.0 ==> ClampOpacity(opacity) == opacity
    ensures ClampOpacity(ClampOpacity(opacity)) == ClampOpacity(opacity)
  {
  }

  /**
   * setPosition stores the position; with synchronised views each slice is
   * its coordinate rounded (within one half, and not clamped), otherwise the
   * slices are kept.
   */
  lemma SetPositionSlices(s: StoreState, p: (real, real, real))
    ensures var t := SetPositionState(s, p);
      && t.position == p
      && (s.synchronizeViews ==>
            && p.2 - 0.5 < t.currentSlice.Get(Sagittal) <= p.2 + 0.5
            && p.1 - 0.5 < t.currentSlice.Get(Coronal) <= p.1 + 0.5
            && p.0 - 0.5 < t.currentSlice.Get(Horizontal) <= p.0 + 0.5)
      && (!s.synchronizeViews ==> t.currentSlice == s.currentSlice)
      && t.(position := s.position, currentSlice := s.currentSlice) == s
  {
    JsRoundNearest(p.0);
    JsRoundNearest(p.1);
    JsRoundNearest(p.2);
  }

  /** A synchronised position at whole-number coordinates is shown exactly in the three slices. */
  lemma SetPositionWholeNumbers(s: StoreState, z: int, y: int, x: int)
    requires s.synchronizeViews
    ensures SetPositionState(s, (z as real, y as real, x as real)).currentSlice ==
            Slices(x as real, y as real, z as real)
  {
    JsRoundWhole(z);
    JsRoundWhole(y);
    JsRoundWhole(x);
  }

  lemma JsRoundWhole(n: int)
    ensures JsRound(n as real) == n
  {
    JsRoundNearest(n as real);
  }

  /** Each field of a patch that is present is written for that channel; absent fields and other channels keep their values. */
  lemma UpdateSettingsWrites(c: ChannelSettings, channel: ChannelId, patch: ChannelPatch, other: ChannelId)
    requires other != channel
    ensures var u := UpdateSettings(c, channel, patch);
      && (patch.visibility.Some? ==> u.visibility[channel] == patch.visibility.value)
      && (patch.visibility.None? ==> u.visibility == c.visibility)
      && (patch.brightness.Some? ==> u.brightness[channel] == patch.brightness.value)
      && (patch.brightness.None? ==> u.brightness == c.brightness)
      && (patch.contrast.Some? ==> u.contrast[channel] == patch.contrast.value)
      && (patch.contrast.None? ==> u.contrast == c.contrast)
      && (patch.gamma.Some? ==> u.gamma[channel] == patch.gamma.value)
      && (patch.gamma.None? ==> u.gamma == c.gamma)
      && (other in c.visibility ==> other in u.visibility && u.visibility[other] == c.visibility[other])
      && (other in c.brightness ==> other in u.brightness && u.brightness[other] == c.brightness[other])
      && (other in c.contrast ==> other in u.contrast && u.contrast[other] == c.contrast[other])
      && (other in c.gamma ==> other in u.gamma && u.gamma[other] == c.gamma[other])
      && u.activeChannels == c.activeChannels && u.blendMode == c.blendMode
  {
  }

  /** Applying the same patch twice is the same as applying it once. */
  lemma UpdateSettingsIdempotent(c: ChannelSettings, channel: ChannelId, patch: ChannelPatch)
    ensures UpdateSettings(UpdateSettings(c, channel, patch), channel, patch) == UpdateSettings(c, channel, patch)
  {
    var once := UpdateSettings(c, channel, patch);
    var twice := UpdateSettings(once, channel, patch);
    assert twice.visibility == once.visibility;
    assert twice.brightness == once.brightness;
    assert twice.contrast == once.contrast;
    assert twice.gamma == once.gamma;
  }

  // ---------------------------------------------------------------------------
  // The store

  class Store {
    var currentSpecimen: Option<Specimen>
    var imageInfo: Option<ImageInfo>
    var currentView: View
    var currentSlice: Slices
    var currentChannel: int
    var currentLevel: int
    var zoomLevel: real
    var position: (real, real, real)
    var showAtlasOverlay: bool
    var atlasOpacity: real
    var sidebarVisible: bool
    var regionBrowserVisible: bool
    var maximizedView: Option<Panel>
    var synchronizeViews: bool
    var showCrosshair: bool
    var channelSettings: ChannelSettings

    function State(): StoreState
      reads this
    {
      StoreState(currentSpecimen, imageInfo, currentView, currentSlice, currentChannel, currentLevel,
                 zoomLevel, position, showAtlasOverlay, atlasOpacity, sidebarVisible, regionBrowserVisible,
                 maximizedView, synchronizeViews, showCrosshair, channelSettings)
    }

    constructor ()
      ensures State() == InitialState()
    {
      currentSpecimen := None;
      imageInfo := None;
      currentView := Sagittal;
      currentSlice := Slices(0.0, 0.0, 0.0);
      currentChannel := 0;
      currentLevel := 0;
      zoomLevel := 1.0;
      position := (0.0, 0.0, 0.0);
      showAtlasOverlay := true;
      atlasOpacity := 0.5;
      sidebarVisible := true;
      regionBrowserVisible := true;
      maximizedView := None;
      synchronizeViews := true;
      showCrosshair := true;
      channelSettings := InitialChannelSettings();
    }

    method SetCurrentSpecimen(specimen: Specimen, fetchedInfo: Option<ImageInfo>)
      modifies this
      ensures State() == LoadSpecimen(old(State()), specimen, fetchedInfo)
    {
      currentSpecimen := Some(specimen);
      if specimen.hasImage {
        imageInfo := fetchedInfo;
        if imageInfo.Some? {
          var (z, y, x) := imageInfo.value.dimensions;
          currentSlice := Slices((x / 2) as real, (y / 2) as real, (z / 2) as real);
        }
      }
    }

    method SetCurrentView(view: View)
      modifies this
      ensures State() == old(State()).(currentView := view)
    {
      currentView := view;
    }

    method SetCurrentSlice(slice: real)
      modifies this
      ensures State() == SliceForView(old(State()), old(currentView), slice)
    {
      var view := currentView;
      currentSlice := currentSlice.Set(view, RMax(0.0, RMin(slice, MaxSlicesOf(imageInfo).Get(view))));
    }

    method SetSliceForView(view: View, slice: real)
      modifies this
      ensures State() == SliceForView(old(State()), view, slice)
    {
      currentSlice := currentSlice.Set(view, RMax(0.0, RMin(slice, MaxSlicesOf(imageInfo).Get(view))));
    }

    method SetCurrentChannel(channel: int)
      modifies this
      ensures State() == SetChannel(old(State()), channel)
    {
      var availableChannelKeys := AvailableChannelNumbers(currentSpecimen);
      if channel in availableChannelKeys {
        currentChannel := channel;
      }
    }

    method SetCurrentLevel(level: int)
      modifies this
      ensures State() == SetLevel(old(State()), level)
    {
      if imageInfo.Some? && level >= 0 && level < imageInfo.value.resolutionLevels {
        currentLevel := level;
      }
    }

    method SetZoomLevel(zoom: real)
      modifies this
      ensures State() == old(State()).(zoomLevel := ClampZoom(zoom))
    {
      zoomLevel := RMax(0.1, RMin(100.0, zoom));
    }

    method SetPosition(newPosition: (real, real, real))
      modifies this
      ensures State() == SetPositionState(old(State()), newPosition)
    {
      position := newPosition;
      if synchronizeViews {
        var (z, y, x) := newPosition;
        currentSlice := Slices(JsRound(x) as real, JsRound(y) as real, JsRound(z) as real);
      }
    }

    method MaximizeView(panel: Option<Panel>)
      modifies this
      ensures State() == old(State()).(maximizedView := panel)
    {
      maximizedView := panel;
    }

    method ToggleViewSync()
      modifies this
      ensures State() == Toggle(old(State()), ViewSync)
    {
      synchronizeViews := !synchronizeViews;
    }

    method ToggleCrosshair()
      modifies this
      ensures State() == Toggle(old(State()), Crosshair)
    {
      showCrosshair := !showCrosshair;
    }

    method UpdateChannelSettings(channel: ChannelId, settings: ChannelPatch)
      modifies this`channelSettings
      ensures State() == old(State()).(channelSettings := UpdateSettings(old(channelSettings), channel, settings))
    {
      var c := channelSettings;
      if settings.visibility.Some? {
        c := c.(visibility := c.visibility[channel := settings.visibility.value]);
      }
      if settings.brightness.Some? {
        c := c.(brightness := c.brightness[channel := settings.brightness.value]);
      }
      if settings.contrast.Some? {
        c := c.(contrast := c.contrast[channel := settings.contrast.value]);
      }
      if settings.gamma.Some? {
        c := c.(gamma := c.gamma[channel := settings.gamma.value]);
      }
      channelSettings := c;
    }

    method SetChannelBlendMode(mode: BlendMode)
      modifies this
      ensures State() == old(State()).(channelSettings := old(channelSettings).(blendMode := mode))
    {
      channelSettings := channelSettings.(blendMode := mode);
    }

    method ResetChannelSettings()
      modifies this
      ensures State() == ResetSettings(old(State()))
    {
      channelSettings := ChannelSettings([0], map[0 := true, 1 := true, 2 := true, 3 := true],
        map[0 := 50.0, 1 := 50.0, 2 := 50.0, 3 := 50.0], map[0 := 50.0, 1 := 50.0, 2 := 50.0, 3 := 50.0],
        map[0 := 1.0, 1 := 1.0, 2 := 1.0, 3 := 1.0], Normal);
    }

    method ToggleAtlasOverlay()
      modifies this
      ensures State() == Toggle(old(State()), AtlasOverlay)
    {
      showAtlasOverlay := !showAtlasOverlay;
    }

    method SetAtlasOpacity(opacity: real)
      modifies this
      ensures State() == old(State()).(atlasOpacity := ClampOpacity(opacity))
    {
      atlasOpacity := RMax(0.0, RMin(1.0, opacity));
    }

    method ToggleSidebar()
      modifies this
      ensures State() == Toggle(old(State()), Sidebar)
    {
      sidebarVisible := !sidebarVisible;
    }

    method ToggleRegionBrowser()
      modifies this
      ensures State() == Toggle(old(State()), RegionBrowser)
    {
      regionBrowserVisible := !regionBrowserVisible;
    }
  }

}
