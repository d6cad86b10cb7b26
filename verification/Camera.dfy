/** The parameter fixups of camera/CameraWrapper.cpp: what the app sets, and what it gets back. */
module Camera {
  import opened Common

  /** The parameter names the fixups use, and all others. */
  datatype Key =
    | Iso | IsoValues | ShutterSpeed | SceneMode | SceneModeValues | RecordingHint | VideoHdr | VideoHdrValues
    | SonyIsValues | SonyIs | SonyVs | SonyVsValues | SonyVideoHdr | SonyVideoHdrValues
    | SonyIsoValues | SonyIso | SonyAeValues | SonyAe | SonyShutterSpeed
    | OtherKey(name: string)

  type Params = map<Key, string>

  const AUTO := "auto"
  const ISO_PRIO := "iso-prio"
  const SHUTTER_PRIO := "shutter-prio"
  const MANUAL := "manual"
  const HDR := "hdr"
  const TRUE := "true"
  const ON := "on"
  const OFF := "off"
  const STILL_HDR := "on-still-hdr"
  const INTELLIGENT_ACTIVE := "on-intelligent-active"

  /** strstr. */
  predicate Contains(s: string, t: string) {
    t <= s || (s != "" && Contains(s[1..], t))
  }

  function Get(p: Params, k: Key): Option<string> {
    if k in p then Some(p[k]) else None
  }

  predicate Is(p: Params, k: Key, v: string) {
    k in p && p[k] == v
  }

  /** The AE modes the vendor supports include `mode`. */
  predicate Supports(p: Params, mode: string) {
    SonyAeValues in p && Contains(p[SonyAeValues], mode)
  }

  // ----- setparams

  /** The AE mode the shutter speed alone asks for. */
  function AeForShutter(p: Params): Option<string> {
    if ShutterSpeed !in p then Get(p, SonyAe)
    else if p[ShutterSpeed] != AUTO then Some(SHUTTER_PRIO)
    else if Supports(p, AUTO) then Some(AUTO)
    else Get(p, SonyAe)
  }

  /** The AE mode for shutter speed and ISO together. */
  function AeMode(p: Params): Option<string> {
    AeForIso(p, AeForShutter(p))
  }

  function AeForIso(p: Params, ae: Option<string>): Option<string> {
    if Iso !in p then ae
    else if p[Iso] == AUTO then
      if Supports(p, AUTO) && ae != Some(SHUTTER_PRIO) then Some(AUTO) else ae
    else if Supports(p, ISO_PRIO) then
      Some(if ae == Some(SHUTTER_PRIO) then MANUAL else ISO_PRIO)
    else ae
  }

  predicate Recording(p: Params) {
    Is(p, RecordingHint, TRUE)
  }

  function Stabiliser(p: Params): Option<string> {
    if Recording(p) then Some(OFF)
    else if SceneMode !in p then Get(p, SonyIs)
    else Some(if p[SceneMode] == HDR then STILL_HDR else ON)
  }

  /** The pointers the code dereferences are there, and `isoMode + 3` stays inside the string. */
  predicate Settable(p: Params) {
    && (Is(p, ShutterSpeed, AUTO) ==> SonyAeValues in p)
    && (Iso in p && p[Iso] != AUTO ==> |p[Iso]| >= 3)
    && (Iso in p && Supports(p, if p[Iso] == AUTO then AUTO else ISO_PRIO) ==> AeForShutter(p).Some?)
  }

  /** What parameter `k` is after setparams. */
  function SetAt(p: Params, k: Key): Option<string>
    requires Iso in p && p[Iso] != AUTO ==> |p[Iso]| >= 3
  {
    match k
    case SonyShutterSpeed => if ShutterSpeed in p && p[ShutterSpeed] != AUTO then Some(p[ShutterSpeed]) else Get(p, k)
    case SonyAe => AeMode(p)
    case SonyIso => if Iso in p && p[Iso] != AUTO then Some(p[Iso][3..]) else Get(p, k)
    case SonyIs => Stabiliser(p)
    case SceneMode => if Is(p, SceneMode, HDR) then Some(AUTO) else Get(p, k)
    case _ => SetVideo(p, k)
  }

  function SetVideo(p: Params, k: Key): Option<string> {
    if k == SonyVideoHdr && SonyVideoHdr in p && VideoHdr in p then Some(p[VideoHdr])
    else if k == SonyVs && Recording(p) then
      Some(if SonyVsValues in p && Contains(p[SonyVsValues], INTELLIGENT_ACTIVE) then INTELLIGENT_ACTIVE else ON)
    else Get(p, k)
  }

  function ShutterAt(p: Params, k: Key): Option<string> {
    if k == SonyAe then AeForShutter(p)
    else if k == SonyShutterSpeed && ShutterSpeed in p && p[ShutterSpeed] != AUTO then Some(p[ShutterSpeed])
    else Get(p, k)
  }

  function IsoAt(p: Params, k: Key): Option<string>
    requires Iso in p && p[Iso] != AUTO ==> |p[Iso]| >= 3
  {
    if k == SonyAe then AeForIso(p, Get(p, SonyAe))
    else if k == SonyIso && Iso in p && p[Iso] != AUTO then Some(p[Iso][3..])
    else Get(p, k)
  }

  function SceneAt(p: Params, k: Key): Option<string> {
    if k == SonyIs && SceneMode in p then Some(if p[SceneMode] == HDR then STILL_HDR else ON)
    else if k == SceneMode && Is(p, SceneMode, HDR) then Some(AUTO)
    else Get(p, k)
  }

  function VideoAt(p: Params, k: Key): Option<string> {
    if k == SonyIs && Recording(p) then Some(OFF) else SetVideo(p, k)
  }

  /** The first two parts of setparams, one after the other. */
  lemma IsoAfterShutter(p: Params, p1: Params, p2: Params)
    requires Settable(p)
    requires forall k :: Get(p1, k) == ShutterAt(p, k)
    requires Iso in p1 && p1[Iso] != AUTO ==> |p1[Iso]| >= 3
    requires forall k :: Get(p2, k) == IsoAt(p1, k)
    ensures forall k :: Get(p2, k) == if k == SonyAe || k == SonyShutterSpeed || k == SonyIso then SetAt(p, k) else Get(p, k)
  {
    assert Get(p1, Iso) == Get(p, Iso) && Get(p1, SonyAeValues) == Get(p, SonyAeValues);
    forall k ensures Get(p2, k) == if k == SonyAe || k == SonyShutterSpeed || k == SonyIso then SetAt(p, k) else Get(p, k) {
      assert Get(p2, k) == IsoAt(p1, k);
      assert Get(p1, k) == ShutterAt(p, k);
    }
  }

  /** What parameter `k` is before the video part of setparams. */
  function SceneDoneAt(p: Params, k: Key): Option<string>
    requires Settable(p)
  {
    match k
    case SonyIs => SceneAt(p, k)
    case SonyVideoHdr => Get(p, k)
    case SonyVs => Get(p, k)
    case _ => SetAt(p, k)
  }

  lemma SceneAfterIso(p: Params, p2: Params, p3: Params)
    requires Settable(p)
    requires forall k :: Get(p2, k) == if k == SonyAe || k == SonyShutterSpeed || k == SonyIso then SetAt(p, k) else Get(p, k)
    requires forall k :: Get(p3, k) == SceneAt(p2, k)
    ensures forall k :: Get(p3, k) == SceneDoneAt(p, k)
  {
    assert Get(p2, SceneMode) == Get(p, SceneMode);
    forall k ensures Get(p3, k) == SceneDoneAt(p, k) {
      assert Get(p3, k) == SceneAt(p2, k);
      assert Get(p2, k) == if k == SonyAe || k == SonyShutterSpeed || k == SonyIso then SetAt(p, k) else Get(p, k);
    }
  }

  lemma VideoAfterScene(p: Params, p3: Params, p4: Params)
    requires Settable(p)
    requires forall k :: Get(p3, k) == SceneDoneAt(p, k)
    requires forall k :: Get(p4, k) == VideoAt(p3, k)
    ensures forall k :: Get(p4, k) == SetAt(p, k)
  {
    hide Contains, AeMode, AeForShutter, AeForIso;
    assert Get(p3, SonyVideoHdr) == Get(p, SonyVideoHdr) && Get(p3, VideoHdr) == Get(p, VideoHdr);
    assert Get(p3, RecordingHint) == Get(p, RecordingHint) && Get(p3, SonyVsValues) == Get(p, SonyVsValues);
    forall k ensures Get(p4, k) == SetAt(p, k) {
      assert Get(p4, k) == VideoAt(p3, k);
      assert Get(p3, k) == SceneDoneAt(p, k);
    }
  }

  // ----- getparams

  /** Each mode of a comma-separated list gets the prefix ISO. */
  function Prefixed(s: string): string {
    if s == "" then ""
    else Prefixed(s[..|s| - 1]) + (if s[|s| - 1] != ',' then [s[|s| - 1]] else ",ISO")
  }

  predicate Gettable(p: Params) {
    ReadsAe(p) ==> SonyAe in p
  }

  predicate ReadsAe(p: Params) {
    SonyIso in p && SonyAeValues in p
  }

  function ValuesAt(p: Params, k: Key): Option<string> {
    if k == SceneModeValues && SonyIsValues in p && Contains(p[SonyIsValues], STILL_HDR) then
      Some((if SceneModeValues in p then p[SceneModeValues] else "(null)") + ",hdr")
    else if k == IsoValues && SonyIsoValues in p then Some("ISO" + Prefixed(p[SonyIsoValues]) + ",auto")
    else Get(p, k)
  }

  function HdrAt(p: Params, k: Key): Option<string> {
    if k == SceneMode && Is(p, SonyIs, STILL_HDR) then Some(HDR)
    else if k == VideoHdrValues && SonyVideoHdr in p && SonyVideoHdrValues in p then Some(p[SonyVideoHdrValues])
    else if k == VideoHdr && SonyVideoHdr in p && SonyVideoHdrValues in p then Some(p[SonyVideoHdr])
    else Get(p, k)
  }

  function AeAt(p: Params, k: Key): Option<string>
    requires Gettable(p)
  {
    if !ReadsAe(p) then Get(p, k)
    else if k == Iso then Some(if p[SonyAe] == ISO_PRIO || p[SonyAe] == MANUAL then "ISO" + p[SonyIso] else AUTO)
    else if k == ShutterSpeed then
      if p[SonyAe] != SHUTTER_PRIO && p[SonyAe] != MANUAL then Some(AUTO)
      else if SonyShutterSpeed in p then Some(p[SonyShutterSpeed])
      else Get(p, k)
    else Get(p, k)
  }

  /** What parameter `k` is after getparams. */
  function GetAt(p: Params, k: Key): Option<string>
    requires Gettable(p)
  {
    match k
    case Iso => AeAt(p, k)
    case ShutterSpeed => AeAt(p, k)
    case SceneModeValues => ValuesAt(p, k)
    case IsoValues => ValuesAt(p, k)
    case _ => HdrAt(p, k)
  }

  lemma HdrAfterValues(p: Params, p1: Params, p2: Params)
    requires forall k :: Get(p1, k) == ValuesAt(p, k)
    requires forall k :: Get(p2, k) == HdrAt(p1, k)
    ensures forall k :: Get(p2, k) == if k == SceneModeValues || k == IsoValues then ValuesAt(p, k) else HdrAt(p, k)
  {
    assert Get(p1, SonyIs) == Get(p, SonyIs);
    assert Get(p1, SonyVideoHdr) == Get(p, SonyVideoHdr) && Get(p1, SonyVideoHdrValues) == Get(p, SonyVideoHdrValues);
    forall k ensures Get(p2, k) == if k == SceneModeValues || k == IsoValues then ValuesAt(p, k) else HdrAt(p, k) {
      assert Get(p2, k) == HdrAt(p1, k);
      assert Get(p1, k) == ValuesAt(p, k);
    }
  }

  lemma AeAfterHdr(p: Params, p2: Params)
    requires Gettable(p)
    requires forall k :: Get(p2, k) == if k == SceneModeValues || k == IsoValues then ValuesAt(p, k) else HdrAt(p, k)
    ensures Gettable(p2) && forall k :: AeAt(p2, k) == GetAt(p, k)
  {
    assert Get(p2, SonyAe) == Get(p, SonyAe) && Get(p2, SonyIso) == Get(p, SonyIso);
    assert Get(p2, SonyAeValues) == Get(p, SonyAeValues) && Get(p2, SonyShutterSpeed) == Get(p, SonyShutterSpeed);
    forall k ensures AeAt(p2, k) == GetAt(p, k) {
      assert Get(p2, k) == if k == SceneModeValues || k == IsoValues then ValuesAt(p, k) else HdrAt(p, k);
    }
  }

  // ----- the round trip

  /** What the app may rely on: all its keys are set, and the vendor has both automatic and ISO priority modes. */
  predicate AppSets(p: Params) {
    && Iso in p && ShutterSpeed in p && SceneMode in p && SonyIso in p
    && Supports(p, AUTO) && Supports(p, ISO_PRIO)
    && (p[Iso] != AUTO ==> |p[Iso]| >= 3)
  }

  /**
   * The vendor gives back what setparams left it, except that it may do anything to the generic ISO and shutter
   * keys.
   */
  ghost predicate VendorKeeps(p: Params, back: Params)
    requires AppSets(p)
  {
    forall k :: k != Iso && k != ShutterSpeed ==> Get(back, k) == SetAt(p, k)
  }

  /** What getparams makes of `back` is what the app had in `p`. */
  predicate Returned(p: Params, back: Params)
    requires Gettable(back)
  {
    && GetAt(back, Iso) == Get(p, Iso)
    && GetAt(back, ShutterSpeed) == Get(p, ShutterSpeed)
    && GetAt(back, SceneMode) == Get(p, SceneMode)
  }

  /** The table of AE modes: which of the four stands for which pair of settings. */
  lemma AeTable(p: Params)
    requires AppSets(p)
    ensures AeMode(p) == Some(if p[Iso] == AUTO then (if p[ShutterSpeed] == AUTO then AUTO else SHUTTER_PRIO)
                              else (if p[ShutterSpeed] == AUTO then ISO_PRIO else MANUAL))
  {
  }

  /**
   * What the app set is what it gets back, for all strings and whatever the vendor does to the generic keys, if
   * and only if its ISO is "auto" or begins with "ISO", and it does not record with scene mode HDR.
   */
  lemma RoundTrip(p: Params, back: Params)
    requires AppSets(p) && VendorKeeps(p, back)
    ensures Gettable(back)
    ensures Returned(p, back) <==> (p[Iso] == AUTO || "ISO" <= p[Iso]) && !(Recording(p) && p[SceneMode] == HDR)
  {
    AeTable(p);
    assert Get(back, SonyAe) == SetAt(p, SonyAe) && Get(back, SonyAeValues) == SetAt(p, SonyAeValues);
    assert Get(back, SonyIso) == SetAt(p, SonyIso) && Get(back, SonyShutterSpeed) == SetAt(p, SonyShutterSpeed);
    assert Get(back, SonyIs) == SetAt(p, SonyIs) && Get(back, SceneMode) == SetAt(p, SceneMode);
    assert |AUTO| == 4 && |ISO_PRIO| == 8 && |SHUTTER_PRIO| == 12 && |MANUAL| == 6;
    assert |HDR| == 3 && |ON| == 2 && |OFF| == 3 && |STILL_HDR| == 12;
    if p[Iso] != AUTO {
      IsoPrefix(p[Iso]);
    }
  }

  /** An ISO of other three characters comes back as "ISO": they are cut off, and nothing of them is left. */
  lemma IsoWithoutPrefix(p: Params, back: Params)
    requires AppSets(p) && VendorKeeps(p, back) && p[Iso] == "100"
    ensures Gettable(back) && GetAt(back, Iso) == Some("ISO")
  {
    AeTable(p);
    RoundTrip(p, back);
    assert |p[Iso]| == 3 && |AUTO| == 4 && p[Iso][3..] == "";
    assert Get(back, SonyAe) == SetAt(p, SonyAe) && Get(back, SonyAeValues) == SetAt(p, SonyAeValues);
    assert Get(back, SonyIso) == SetAt(p, SonyIso) == Some("");
    assert "ISO" + "" == "ISO";
  }

  /** Recording with scene mode HDR: the stabiliser is off, so that the scene mode comes back as auto. */
  lemma RecordingLosesHdr(p: Params, back: Params)
    requires AppSets(p) && VendorKeeps(p, back) && Recording(p) && p[SceneMode] == HDR
    ensures Gettable(back) && GetAt(back, SceneMode) == Some(AUTO)
  {
    RoundTrip(p, back);
    assert Get(back, SonyIs) == SetAt(p, SonyIs) && Get(back, SceneMode) == SetAt(p, SceneMode);
    assert |OFF| == 3 && |STILL_HDR| == 12;
  }

  /** There are such parameters. */
  lemma LossyParams()
    ensures var p: Params := map[Iso := "100", ShutterSpeed := AUTO, SceneMode := HDR, RecordingHint := TRUE,
                                 SonyIso := "", SonyAeValues := AUTO + ISO_PRIO];
      AppSets(p) && Recording(p)
  {
    var modes := AUTO + ISO_PRIO;
    assert AUTO <= modes;
    ContainsLater(AUTO, ISO_PRIO, ISO_PRIO);
  }

  lemma {:induction false} ContainsLater(s: string, u: string, t: string)
    requires t <= u
    ensures Contains(s + u, t)
  {
    if s == "" {
      assert s + u == u;
    } else {
      assert (s + u)[1..] == s[1..] + u;
      ContainsLater(s[1..], u, t);
    }
  }

  lemma IsoPrefix(iso: string)
    requires |iso| >= 3
    ensures "ISO" + iso[3..] == iso <==> "ISO" <= iso
  {
  }

  // ----- the other parameters

  predicate StandsAt(s: string, t: string, i: int) {
    0 <= i <= |s| - |t| && s[i..i + |t|] == t
  }

  lemma StandsFirst(s: string, t: string)
    ensures StandsAt(s, t, 0) <==> t <= s
  {
    if |t| <= |s| {
      assert s[0..0 + |t|] == s[..|t|];
    }
  }

  /** strstr finds `t` wherever it stands in `s`. */
  lemma {:induction false} ContainsIff(s: string, t: string)
    ensures Contains(s, t) <==> exists i :: StandsAt(s, t, i)
  {
    if t <= s {
      assert StandsAt(s, t, 0);
    } else if s != "" {
      ContainsIff(s[1..], t);
      forall i | StandsAt(s[1..], t, i) ensures StandsAt(s, t, i + 1) {
        assert s[1..][i..i + |t|] == s[i + 1..i + 1 + |t|];
      }
      StandsFirst(s, t);
      forall i | StandsAt(s, t, i) ensures StandsAt(s[1..], t, i - 1) {
        assert s[1..][i - 1..i - 1 + |t|] == s[i..i + |t|];
      }
    }
  }

  /** The image stabiliser follows the scene mode, and is off while recording. */
  lemma ImageStabiliser(p: Params)
    requires Settable(p)
    ensures SetAt(p, SonyIs) ==
      if Is(p, RecordingHint, "true") then Some("off")
      else if Is(p, SceneMode, "hdr") then Some("on-still-hdr")
      else if SceneMode in p then Some("on") else Get(p, SonyIs)
    ensures SetAt(p, SceneMode) == if Is(p, SceneMode, "hdr") then Some("auto") else Get(p, SceneMode)
  {
  }

  /** The video stabiliser is set only while recording, to the best mode the vendor has. */
  lemma VideoStabiliser(p: Params)
    requires Settable(p)
    ensures SetAt(p, SonyVs) ==
      if !Is(p, RecordingHint, "true") then Get(p, SonyVs)
      else if SonyVsValues in p && Contains(p[SonyVsValues], "on-intelligent-active") then Some("on-intelligent-active")
      else Some("on")
  {
  }

  /**
   * Where the vendor knows video HDR and its values, the app gets back the video-hdr that it set, whatever has become
   * of the generic key; elsewhere it gets back what the generic key holds.
   */
  lemma VideoHdrRoundTrip(p: Params, back: Params)
    requires Settable(p) && Gettable(back) && VideoHdr in p
    requires forall k :: k == SonyVideoHdr || k == SonyVideoHdrValues ==> Get(back, k) == SetAt(p, k)
    ensures GetAt(back, VideoHdr) == if SonyVideoHdr in p && SonyVideoHdrValues in p then Get(p, VideoHdr) else Get(back, VideoHdr)
  {
    assert Get(back, SonyVideoHdr) == SetAt(p, SonyVideoHdr) && Get(back, SonyVideoHdrValues) == SetAt(p, SonyVideoHdrValues);
  }

  /** The app is offered scene mode hdr where the vendor has still HDR, the vendor's video-hdr values, and auto ISO. */
  lemma Offers(p: Params)
    requires Gettable(p)
    ensures SonyIsValues in p && Contains(p[SonyIsValues], "on-still-hdr") && SceneModeValues in p ==>
      GetAt(p, SceneModeValues) == Some(p[SceneModeValues] + ",hdr")
    ensures !(SonyIsValues in p && Contains(p[SonyIsValues], "on-still-hdr")) ==>
      GetAt(p, SceneModeValues) == Get(p, SceneModeValues)
    ensures SonyVideoHdr in p && SonyVideoHdrValues in p ==> GetAt(p, VideoHdrValues) == Some(p[SonyVideoHdrValues])
    ensures SonyIsoValues !in p ==> GetAt(p, IsoValues) == Get(p, IsoValues)
  {
  }

  /** What is offered for ISO are the vendor's modes with their prefix, and auto. */
  lemma IsoOffer(p: Params, ms: seq<string>)
    requires Gettable(p) && SonyIsoValues in p && ms != [] && p[SonyIsoValues] == Join(ms)
    requires forall i :: 0 <= i < |ms| ==> ',' !in ms[i]
    ensures GetAt(p, IsoValues) == Some(Join(WithIso(ms)) + ",auto")
  {
    hide Join, WithIso, Prefixed;
    IsoList(ms);
  }

  /** No other parameter is touched. */
  lemma OthersStay(p: Params, k: Key)
    requires k !in {SonyIs, SonyVs, SonyVideoHdr, SonyIso, SonyAe, SonyShutterSpeed, SceneMode}
    requires Settable(p)
    ensures SetAt(p, k) == Get(p, k)
  {
  }

  lemma OthersComeBack(p: Params, k: Key)
    requires k !in {Iso, IsoValues, ShutterSpeed, SceneMode, SceneModeValues, VideoHdr, VideoHdrValues}
    requires Gettable(p)
    ensures GetAt(p, k) == Get(p, k)
  {
  }

  /** What the vendor is given for the app's exposure, and what the app is given for each of the vendor's modes. */
  lemma ExposureModes(p: Params, back: Params)
    requires AppSets(p) && Gettable(back) && ReadsAe(back)
    ensures SetAt(p, SonyAe) == Some(
      if p[Iso] == "auto" then (if p[ShutterSpeed] == "auto" then "auto" else "shutter-prio")
      else (if p[ShutterSpeed] == "auto" then "iso-prio" else "manual"))
    ensures p[Iso] != "auto" ==> SetAt(p, SonyIso) == Some(p[Iso][3..])
    ensures p[ShutterSpeed] != "auto" ==> SetAt(p, SonyShutterSpeed) == Some(p[ShutterSpeed])
    ensures GetAt(back, Iso) == Some(
      if back[SonyAe] == "iso-prio" || back[SonyAe] == "manual" then "ISO" + back[SonyIso] else "auto")
    ensures back[SonyAe] != "shutter-prio" && back[SonyAe] != "manual" ==> GetAt(back, ShutterSpeed) == Some("auto")
  {
    AeTable(p);
  }

  // ----- lists of ISO modes

  function Join(ms: seq<string>): string {
    if ms == [] then "" else if |ms| == 1 then ms[0] else ms[0] + ("," + Join(ms[1..]))
  }

  function WithIso(ms: seq<string>): (r: seq<string>)
    ensures |r| == |ms|
  {
    seq(|ms|, i requires 0 <= i < |ms| => "ISO" + ms[i])
  }

  lemma {:induction false} PrefixedConcat(a: string, b: string)
    ensures Prefixed(a + b) == Prefixed(a) + Prefixed(b)
  {
    if b == "" {
      assert a + b == a;
    } else {
      assert (a + b)[..|a + b| - 1] == a + b[..|b| - 1];
      PrefixedConcat(a, b[..|b| - 1]);
    }
  }

  lemma {:induction false} PrefixedPlain(m: string)
    requires ',' !in m
    ensures Prefixed(m) == m
  {
    if m != "" {
      PrefixedPlain(m[..|m| - 1]);
      assert m == m[..|m| - 1] + [m[|m| - 1]];
    }
  }

  lemma Regroup(a: string, b: string)
    ensures "ISO" + (a + (",ISO" + b)) == ("ISO" + a) + ("," + ("ISO" + b))
  {
  }

  lemma PrefixedComma(t: string)
    ensures Prefixed("," + t) == ",ISO" + Prefixed(t)
  {
    PrefixedConcat(",", t);
    assert ","[..0] == "";
    assert Prefixed(",") == "" + ",ISO";
  }

  lemma PrefixedItem(m: string, t: string)
    requires ',' !in m
    ensures Prefixed(m + ("," + t)) == m + (",ISO" + Prefixed(t))
  {
    PrefixedPlain(m);
    PrefixedConcat(m, "," + t);
    PrefixedComma(t);
  }

  lemma WithIsoTail(ms: seq<string>)
    requires |ms| > 1
    ensures Join(WithIso(ms)) == ("ISO" + ms[0]) + ("," + Join(WithIso(ms[1..])))
  {
    assert WithIso(ms)[1..] == WithIso(ms[1..]);
  }

  /** The character loop turns a list of modes into the list of the same modes with the prefix ISO. */
  lemma {:induction false} IsoList(ms: seq<string>)
    requires ms != [] && forall i :: 0 <= i < |ms| ==> ',' !in ms[i]
    ensures "ISO" + Prefixed(Join(ms)) == Join(WithIso(ms))
  {
    if |ms| == 1 {
      PrefixedPlain(ms[0]);
    } else {
      var t := Join(ms[1..]);
      IsoList(ms[1..]);
      WithIsoTail(ms);
      PrefixedItem(ms[0], t);
      Regroup(ms[0], Prefixed(t));
    }
  }

  // ----- the fixups themselves

  class CameraParameters {
    var kv: Params

    constructor (kv: Params)
      ensures this.kv == kv
    {
      this.kv := kv;
    }

    method Put(k: Key, v: string)
      modifies this
      ensures kv == old(kv)[k := v]
    {
      kv := kv[k := v];
    }

    method FixupShutter()
      requires Is(kv, ShutterSpeed, AUTO) ==> SonyAeValues in kv
      modifies this
      ensures forall k :: Get(kv, k) == ShutterAt(old(kv), k)
    {
      if ShutterSpeed in kv {
        var shutterSpeed := kv[ShutterSpeed];
        if shutterSpeed != AUTO {
          Put(SonyShutterSpeed, shutterSpeed);
          Put(SonyAe, SHUTTER_PRIO);
        } else if Contains(kv[SonyAeValues], AUTO) {
          Put(SonyAe, AUTO);
        }
      }
    }

    method FixupIso()
      requires Iso in kv && kv[Iso] != AUTO ==> |kv[Iso]| >= 3
      requires Iso in kv && Supports(kv, if kv[Iso] == AUTO then AUTO else ISO_PRIO) ==> SonyAe in kv
      modifies this
      ensures forall k :: Get(kv, k) == IsoAt(old(kv), k)
    {
      if Iso in kv {
        var isoMode := kv[Iso];
        if isoMode != AUTO {
          Put(SonyIso, isoMode[3..]);
        }
        if SonyAeValues in kv {
          var aeModes := kv[SonyAeValues];
          if isoMode == AUTO {
            if Contains(aeModes, AUTO) && kv[SonyAe] != SHUTTER_PRIO {
              Put(SonyAe, AUTO);
            }
          } else if Contains(aeModes, ISO_PRIO) {
            if kv[SonyAe] == SHUTTER_PRIO {
              Put(SonyAe, MANUAL);
            } else {
              Put(SonyAe, ISO_PRIO);
            }
          }
        }
      }
    }

    method FixupScene()
      modifies this
      ensures forall k :: Get(kv, k) == SceneAt(old(kv), k)
    {
      if SceneMode in kv {
        if kv[SceneMode] == HDR {
          Put(SonyIs, STILL_HDR);
          Put(SceneMode, AUTO);
        } else {
          Put(SonyIs, ON);
        }
      }
    }

    method FixupVideo()
      modifies this
      ensures forall k :: Get(kv, k) == VideoAt(old(kv), k)
    {
      if SonyVideoHdr in kv && VideoHdr in kv {
        Put(SonyVideoHdr, kv[VideoHdr]);
      }
      if RecordingHint in kv {
        if kv[RecordingHint] == TRUE {
          if SonyVsValues in kv && Contains(kv[SonyVsValues], INTELLIGENT_ACTIVE) {
            Put(SonyVs, INTELLIGENT_ACTIVE);
          } else {
            Put(SonyVs, ON);
          }
          Put(SonyIs, OFF);
        }
      }
    }

    /** `camera_fixup_setparams`. */
    method FixupSetParams()
      requires Settable(kv)
      modifies this
      ensures forall k :: Get(kv, k) == SetAt(old(kv), k)
    {
      ghost var p := kv;
      FixupShutter();
      ghost var p1 := kv;
      assert Get(p1, Iso) == Get(p, Iso) && Get(p1, SonyAeValues) == Get(p, SonyAeValues);
      assert Get(p1, SonyAe) == AeForShutter(p);
      FixupIso();
      ghost var p2 := kv;
      FixupScene();
      ghost var p3 := kv;
      FixupVideo();
      IsoAfterShutter(p, p1, p2);
      SceneAfterIso(p, p2, p3);
      VideoAfterScene(p, p3, kv);
    }

    /** The loop over the characters of the vendor's ISO list. */
    method PrefixIso(isoModeList: string) returns (buffer: string)
      ensures buffer == "ISO" + Prefixed(isoModeList) + ",auto"
    {
      buffer := "ISO";
      for pos := 0 to |isoModeList|
        invariant buffer == "ISO" + Prefixed(isoModeList[..pos])
      {
        assert isoModeList[..pos + 1][..pos] == isoModeList[..pos];
        if isoModeList[pos] != ',' {
          buffer := buffer + [isoModeList[pos]];
        } else {
          buffer := buffer + ",ISO";
        }
      }
      assert isoModeList[..|isoModeList|] == isoModeList;
      buffer := buffer + ",auto";
    }

    method FixupAe()
      requires Gettable(kv)
      modifies this
      ensures forall k :: Get(kv, k) == AeAt(old(kv), k)
    {
      if SonyIso in kv && SonyAeValues in kv {
        var aeMode := kv[SonyAe];
        if aeMode == AUTO {
          Put(Iso, AUTO);
          Put(ShutterSpeed, AUTO);
        } else if aeMode == ISO_PRIO {
          Put(Iso, "ISO" + kv[SonyIso]);
          Put(ShutterSpeed, AUTO);
        } else if aeMode == SHUTTER_PRIO {
          Put(Iso, AUTO);
          if SonyShutterSpeed in kv {
            Put(ShutterSpeed, kv[SonyShutterSpeed]);
          }
        } else if aeMode == MANUAL {
          if SonyShutterSpeed in kv {
            Put(ShutterSpeed, kv[SonyShutterSpeed]);
          }
          Put(Iso, "ISO" + kv[SonyIso]);
        } else {
          Put(Iso, AUTO);
          Put(ShutterSpeed, AUTO);
        }
      }
    }

    /** `camera_fixup_capability` and the list of ISO modes. */
    method FixupValues()
      modifies this
      ensures forall k :: Get(kv, k) == ValuesAt(old(kv), k)
    {
      if SonyIsValues in kv && Contains(kv[SonyIsValues], STILL_HDR) {
        Put(SceneModeValues, (if SceneModeValues in kv then kv[SceneModeValues] else "(null)") + ",hdr");
      }
      if SonyIsoValues in kv {
        var buffer := PrefixIso(kv[SonyIsoValues]);
        Put(IsoValues, buffer);
      }
    }

    method FixupHdr()
      modifies this
      ensures forall k :: Get(kv, k) == HdrAt(old(kv), k)
    {
      if SonyIs in kv {
        if kv[SonyIs] == STILL_HDR {
          Put(SceneMode, HDR);
        }
      }
      if SonyVideoHdr in kv && SonyVideoHdrValues in kv {
        Put(VideoHdrValues, kv[SonyVideoHdrValues]);
        Put(VideoHdr, kv[SonyVideoHdr]);
      }
    }

    /** `camera_fixup_getparams`. */
    method FixupGetParams()
      requires Gettable(kv)
      modifies this
      ensures forall k :: Get(kv, k) == GetAt(old(kv), k)
    {
      ghost var p := kv;
      FixupValues();
      ghost var p1 := kv;
      FixupHdr();
      ghost var p2 := kv;
      HdrAfterValues(p, p1, p2);
      AeAfterHdr(p, p2);
      FixupAe();
    }
  }
}
