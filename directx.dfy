/** Platform/CDirectx.cpp: the OpenCL build-option string made from the
    graphics settings, and the video-recording state (the recording flag,
    the frame counter and the choice of the next free video file name).
    `shrRoundUp` has the same body as in CDirectx.cpp and is modelled
    once, in module RoundUp. */
module DirectX {
  import opened Wrappers

  /** the five `GfxSettings` flags the kernel build depends on */
  datatype GraphicsFlags = GraphicsFlags(
    interlaceMode: bool, normalMapping: bool, shadows: bool,
    highQualityLights: bool, redBlue3D: bool)
  {
    /** the flags in the order their defines are appended */
    function AsSeq(): (r: seq<bool>)
      ensures |r| == |DefineNames|
    {
      [interlaceMode, normalMapping, shadows, highQualityLights, redBlue3D]
    }
  }

  const BuildPrefix: string := "-cl-fast-relaxed-math -I ./KernelCode/ -D OPENCL=1"

  const DefineNames: seq<string> := [
    " -D SETTINGS_INTERLACED=", " -D SETTINGS_NORMALMAP=", " -D SETTINGS_SHADOWS=",
    " -D SETTINGS_HIQLIGHTS=", " -D SETTINGS_REDBLUE3D="]

  /** `flag ? "1" : "0"` */
  function FlagText(flag: bool): (r: string)
    ensures |r| == 1 && (r[0] == '1' <==> flag) && (r[0] == '0' <==> !flag)
  {
    if flag then "1" else "0"
  }

  /** the defines for `names` paired with `flags`, appended in order */
  function Defines(names: seq<string>, flags: seq<bool>): (r: string)
    requires |names| == |flags|
    ensures |r| >= |flags|
    ensures flags != [] ==> r[|r| - 1] == (if flags[|flags| - 1] then '1' else '0')
  {
    if names == [] then ""
    else Defines(names[..|names| - 1], flags[..|flags| - 1]) + names[|names| - 1] + FlagText(flags[|flags| - 1])
  }

  /** Reads the defines back from the end: the last name, then one '0' or
      '1', with the earlier defines before them and nothing else. */
  function ReadDefines(names: seq<string>, text: string): (r: Option<seq<bool>>)
    ensures r.Some? ==> |r.value| == |names|
  {
    if names == [] then
      if text == [] then Some([]) else None
    else
      var n := names[|names| - 1];
      var k := |text| - 1 - |n|;
      if k >= 0 && text[k..|text| - 1] == n && (text[|text| - 1] == '0' || text[|text| - 1] == '1') then
        match ReadDefines(names[..|names| - 1], text[..k])
        case None => None
        case Some(rest) => Some(rest + [text[|text| - 1] == '1'])
      else None
  }

  /** Reads the whole option string back into the flags it was built from. */
  function ReadBuildOptions(text: string): (r: Option<GraphicsFlags>)
    ensures r.Some? ==> |text| >= |BuildPrefix| && text[..|BuildPrefix|] == BuildPrefix
  {
    if |text| >= |BuildPrefix| && text[..|BuildPrefix|] == BuildPrefix then
      match ReadDefines(DefineNames, text[|BuildPrefix|..])
      case None => None
      case Some(f) => Some(GraphicsFlags(f[0], f[1], f[2], f[3], f[4]))
    else None
  }

  /** the defines read back as the flags they were made from */
  lemma {:induction false} DefinesRoundTrip(names: seq<string>, flags: seq<bool>)
    requires |names| == |flags|
    ensures ReadDefines(names, Defines(names, flags)) == Some(flags)
  {
    if names != [] {
      var m := |names| - 1;
      assert flags == flags[..m] + [flags[m]];
      assert names[..m] == names[..|names| - 1];
      DefinesRoundTrip(names[..m], flags[..m]);
      ReadLastDefine(names, Defines(names[..m], flags[..m]), flags[..m], flags[m]);
    }
  }

  /** reading back one more define: the last name and its digit after
      defines that read back as `rest` */
  lemma ReadLastDefine(names: seq<string>, head: string, rest: seq<bool>, flag: bool)
    requires names != [] && ReadDefines(names[..|names| - 1], head) == Some(rest)
    ensures ReadDefines(names, head + names[|names| - 1] + FlagText(flag)) == Some(rest + [flag])
  {
    var n := names[|names| - 1];
    var text := head + n + FlagText(flag);
    var k := |text| - 1 - |n|;
    assert k == |head|;
    assert text[k..|text| - 1] == n;
    assert text[..k] == head;
    assert text[|text| - 1] == FlagText(flag)[0];
  }

  /** the defines always take the same number of characters */
  lemma {:induction false} DefinesLength(names: seq<string>, flags: seq<bool>, other: seq<bool>)
    requires |names| == |flags| == |other|
    ensures |Defines(names, flags)| == |Defines(names, other)|
  {
    if names != [] {
      var m := |names| - 1;
      DefinesLength(names[..m], flags[..m], other[..m]);
    }
  }

  /** the option string for `settings`: the prefix, then the five defines */
  function BuildOptions(settings: GraphicsFlags): (r: string)
    ensures |r| >= |BuildPrefix| + |DefineNames| && r[..|BuildPrefix|] == BuildPrefix
  {
    BuildPrefix + Defines(DefineNames, settings.AsSeq())
  }

  /** The string `CreateKernelProgram` passes to `clBuildProgram`, made by
      the same successive appends: the fixed prefix, then each define name
      followed by "1" or "0". */
  method MakeBuildOptions(settings: GraphicsFlags) returns (options: string)
    ensures options == BuildOptions(settings)
  {
    options := BuildPrefix;
    options := options + DefineNames[0];
    options := options + FlagText(settings.interlaceMode);
    options := options + DefineNames[1];
    options := options + FlagText(settings.normalMapping);
    options := options + DefineNames[2];
    options := options + FlagText(settings.shadows);
    options := options + DefineNames[3];
    options := options + FlagText(settings.highQualityLights);
    options := options + DefineNames[4];
    options := options + FlagText(settings.redBlue3D);
    FiveAppends(BuildPrefix, DefineNames, settings.AsSeq());
  }

  /** five define appends after a prefix are the prefix followed by `Defines` */
  lemma {:induction false} FiveAppends(prefix: string, names: seq<string>, flags: seq<bool>)
    requires |names| == |flags| == 5
    ensures prefix + names[0] + FlagText(flags[0]) + names[1] + FlagText(flags[1]) + names[2] + FlagText(flags[2])
            + names[3] + FlagText(flags[3]) + names[4] + FlagText(flags[4])
         == prefix + Defines(names, flags)
  {
    var options := prefix;
    var defines := Defines(names[..0], flags[..0]);
    defines := AppendDefine(names, flags, 0, prefix, options, defines);
    options := options + names[0] + FlagText(flags[0]);
    defines := AppendDefine(names, flags, 1, prefix, options, defines);
    options := options + names[1] + FlagText(flags[1]);
    defines := AppendDefine(names, flags, 2, prefix, options, defines);
    options := options + names[2] + FlagText(flags[2]);
    defines := AppendDefine(names, flags, 3, prefix, options, defines);
    options := options + names[3] + FlagText(flags[3]);
    defines := AppendDefine(names, flags, 4, prefix, options, defines);
    TakeAll(names);
    TakeAll(flags);
  }

  lemma TakeAll<T>(s: seq<T>)
    ensures s[..|s|] == s
  {}

  /** one append step: with `options` the prefix and the first `k`
      defines, appending define `k` gives the prefix and the first `k + 1` */
  lemma AppendDefine(names: seq<string>, flags: seq<bool>, k: nat, prefix: string, options: string, before: string)
    returns (after: string)
    requires |names| == |flags| && k < |flags|
    requires before == Defines(names[..k], flags[..k])
    requires options == prefix + before
    ensures after == Defines(names[..k + 1], flags[..k + 1])
    ensures options + names[k] + FlagText(flags[k]) == prefix + after
  {
    assert names[..k + 1][..k] == names[..k];
    assert flags[..k + 1][..k] == flags[..k];
    after := before + names[k] + FlagText(flags[k]);
  }

  /** the option string reads back as the settings it was built from */
  lemma {:induction false} BuildOptionsRoundTrip(settings: GraphicsFlags)
    ensures BuildOptions(settings)[..|BuildPrefix|] == BuildPrefix
    ensures ReadBuildOptions(BuildOptions(settings)) == Some(settings)
  {
    var flags := settings.AsSeq();
    var options := BuildOptions(settings);
    DefinesRoundTrip(DefineNames, flags);
    assert options[|BuildPrefix|..] == Defines(DefineNames, flags);
  }

  /** the length of the option string does not depend on the settings */
  lemma {:induction false} BuildOptionsLength(a: GraphicsFlags, b: GraphicsFlags)
    ensures |BuildOptions(a)| == |BuildOptions(b)|
  {
    DefinesLength(DefineNames, a.AsSeq(), b.AsSeq());
  }

  /** the set {1, ..., n} */
  function UpTo(n: nat): (r: set<nat>)
    ensures forall j :: j in r <==> 1 <= j <= n
    ensures |r| == n
  {
    if n == 0 then {} else UpTo(n - 1) + {n}
  }

  /** a finite set holding 1..n has at least n members */
  lemma {:induction false} HoldsRange(n: nat, s: set<nat>)
    requires forall j :: 1 <= j <= n ==> j in s
    ensures n <= |s|
  {
    var r := UpTo(n);
    assert r <= s;
    assert |r| <= |s| by {
      var rest := s - r;
      assert s == r + rest;
    }
  }

  /** The recording state of `CDirectX`: whether frames are being captured
      and the number of the next frame. */
  class Recorder {
    var recording: bool
    var frameNumber: int

    constructor ()
      ensures !recording && frameNumber == 0
    {
      recording := false;
      frameNumber := 0;
    }

    /** `ToggleRecording`. Starting resets the frame number. Stopping picks
        the smallest index `i >= 1` whose `RecordedVideo/Video<i>.mp4` does
        not exist; the files that exist are given as the finite set
        `existingVideos` of their indices, and the chosen index is returned
        (0 when recording starts). */
    method ToggleRecording(existingVideos: set<nat>) returns (videoIndex: nat)
      modifies this
      ensures recording == !old(recording)
      ensures recording ==> frameNumber == 0 && videoIndex == 0
      ensures !recording ==> frameNumber == old(frameNumber)
      ensures !recording ==> videoIndex >= 1 && videoIndex !in existingVideos
      ensures !recording ==> forall j :: 1 <= j < videoIndex ==> j in existingVideos
    {
      recording := !recording;
      if recording {
        frameNumber := 0;
        videoIndex := 0;
        return;
      }
      videoIndex := 1;
      var done := false;
      while !done
        invariant videoIndex >= 1
        invariant forall j :: 1 <= j < videoIndex ==> j in existingVideos
        invariant done ==> videoIndex !in existingVideos
        invariant videoIndex - 1 <= |existingVideos|
        invariant !recording && frameNumber == old(frameNumber)
        decreases |existingVideos| - (videoIndex - 1), if done then 0 else 1
      {
        if videoIndex in existingVideos {
          HoldsRange(videoIndex, existingVideos);
          videoIndex := videoIndex + 1;
        } else {
          done := true;
        }
      }
    }

    /** `DrawScene`'s frame counter: one more frame while recording */
    method DrawScene()
      modifies this
      ensures recording == old(recording)
      ensures frameNumber == if recording then old(frameNumber) + 1 else old(frameNumber)
    {
      if recording {
        frameNumber := frameNumber + 1;
      }
    }
  }
}
