/**
 * The RTSP server's configuration: the camera table, the two launch
 * description builders (H.264 pass-through for the Arducam cameras, MJPEG
 * decode and NVENC re-encode for the 360 camera) and the mount table the
 * server object fills at start-up.
 */
module RtspServerLaunch {
  import opened Wrappers
  import opened Decimal
  import opened Text
  import opened LaunchSyntax

  /** One entry of the camera table. */
  datatype CameraProfile = CameraProfile(device: string, width: int, height: int, fps: int)

  const RearCam: CameraProfile :=
    CameraProfile("/dev/v4l/by-id/usb-Arducam_Technology_Co.__Ltd._Arducam_USB_Camera-video-index2", 1920, 1080, 30)
  const FrontCam: CameraProfile :=
    CameraProfile("/dev/v4l/by-id/usb-Arducam_Technology_Co.__Ltd._Arducam_USB_Camera-video-index0", 1920, 1080, 30)
  const Raw360Cam: CameraProfile :=
    CameraProfile("/dev/v4l/by-id/usb-Insta_Insta360_X4_0001-video-index0", 2880, 1440, 30)

  /** `CAMERAS`, keyed by camera name. */
  const Cameras: map<string, CameraProfile> :=
    map["rearcam" := RearCam, "frontcam" := FrontCam, "raw360" := Raw360Cam]

  const BitrateArducam: int := 4000000
  const Bitrate360: int := 8000000
  const BitratePlaceholder: int := 2000000

  // ---------------------------------------------------------------------
  // Launch descriptions as the f-strings write them, one f-string per line

  function ArducamLines(device: string, width: int, height: int, fps: int): seq<string> {
    [ Concat(["( v4l2src device=", device, " ! "]),
      Concat(["video/x-h264, width=", IntToStr(width), ", height=", IntToStr(height),
              ", framerate=", IntToStr(fps), "/1 ! "]),
      "h264parse ! ",
      "rtph264pay config-interval=1 name=pay0 pt=96 )" ]
  }

  /** `_make_arducam_pipeline(device, width, height, fps)`: it opens with the
      capture device and closes with the H.264 payloader, named pay0 with
      payload type 96. */
  function ArducamPipeline(device: string, width: int, height: int, fps: int): (r: string)
    ensures StartsWith(r, "( v4l2src device=" + device + " ! ")
    ensures EndsWith(r, "rtph264pay config-interval=1 name=pay0 pt=96 )")
  {
    var lines := ArducamLines(device, width, height, fps);
    ConcatPrefixSuffix(lines, 1);
    ConcatPrefixSuffix(lines, 3);
    assert lines[..1] == [lines[0]] && lines[3..] == [lines[3]];
    SourceLineText(device);
    Concat(lines)
  }

  function Raw360Lines(cam: CameraProfile): seq<string> {
    [ Concat(["( v4l2src device=", cam.device, " ! "]),
      Concat(["image/jpeg, width=", IntToStr(cam.width), ", height=", IntToStr(cam.height),
              ", framerate=", IntToStr(cam.fps), "/1 ! "]),
      "jpegdec ! ",
      "nvvidconv ! ",
      Concat(["video/x-raw(memory:NVMM), format=NV12, width=", IntToStr(cam.width), ", height=", IntToStr(cam.height),
              ", framerate=", IntToStr(cam.fps), "/1 ! "]),
      Concat(["nvv4l2h264enc insert-sps-pps=true maxperf-enable=true bitrate=", IntToStr(Bitrate360), " ! "]),
      "rtph264pay name=pay0 pt=96 )" ]
  }

  /** `_make_360_raw_pipeline(cam)`: it opens with the camera's device and
      closes with the H.264 payloader, named pay0 with payload type 96. */
  function Raw360Pipeline(cam: CameraProfile): (r: string)
    ensures StartsWith(r, "( v4l2src device=" + cam.device + " ! ")
    ensures EndsWith(r, "rtph264pay name=pay0 pt=96 )")
  {
    var lines := Raw360Lines(cam);
    ConcatPrefixSuffix(lines, 1);
    ConcatPrefixSuffix(lines, 6);
    assert lines[..1] == [lines[0]] && lines[6..] == [lines[6]];
    SourceLineText(cam.device);
    Concat(lines)
  }

  lemma SourceLineText(device: string)
    ensures Concat(["( v4l2src device=", device, " ! "]) == "( v4l2src device=" + device + " ! "
  {
    var first := ["( v4l2src device=", device, " ! "];
    assert first[1..][1..][1..] == [];
  }

  // ---------------------------------------------------------------------
  // The same descriptions as stage chains

  /** width, height and framerate fields of a caps filter. */
  function FrameFields(width: int, height: int, fps: int): seq<Prop> {
    [Prop("width", IntToStr(width)), Prop("height", IntToStr(height)), Prop("framerate", IntToStr(fps) + "/1")]
  }

  function ArducamStages(device: string, width: int, height: int, fps: int): seq<Stage> {
    [ Element("v4l2src", [Prop("device", device)]),
      Caps("video/x-h264", FrameFields(width, height, fps)),
      Element("h264parse", []),
      Element("rtph264pay", [Prop("config-interval", "1"), Prop("name", "pay0"), Prop("pt", "96")]) ]
  }

  function Raw360Stages(cam: CameraProfile): seq<Stage> {
    [ Element("v4l2src", [Prop("device", cam.device)]),
      Caps("image/jpeg", FrameFields(cam.width, cam.height, cam.fps)),
      Element("jpegdec", []),
      Element("nvvidconv", []),
      Caps("video/x-raw(memory:NVMM)", [Prop("format", "NV12")] + FrameFields(cam.width, cam.height, cam.fps)),
      Element("nvv4l2h264enc", [Prop("insert-sps-pps", "true"), Prop("maxperf-enable", "true"),
                                Prop("bitrate", IntToStr(Bitrate360))]),
      Element("rtph264pay", [Prop("name", "pay0"), Prop("pt", "96")]) ]
  }

  /** How a caps line of the f-strings is grouped, for any pieces. */
  lemma CapsLineShape(head: string, wk: string, w: string, hk: string, h: string, fk: string, f: string,
                      one: string, sep: string)
    ensures Concat([head + wk, w, hk, h, fk, f, one + sep]) == head + (wk + w + (hk + h + (fk + (f + one) + ""))) + sep
  {
    var line := [head + wk, w, hk, h, fk, f, one + sep];
    assert Concat(line[5..]) == f + (one + sep) by { assert line[5..][1..] == line[6..] == [one + sep]; }
    assert Concat(line[4..]) == fk + Concat(line[5..]) by { assert line[4..][1..] == line[5..]; }
    assert Concat(line[3..]) == h + Concat(line[4..]) by { assert line[3..][1..] == line[4..]; }
    assert Concat(line[2..]) == hk + Concat(line[3..]) by { assert line[2..][1..] == line[3..]; }
    assert Concat(line[1..]) == w + Concat(line[2..]) by { assert line[1..][1..] == line[2..]; }
  }

  /** A caps line of the f-strings is the text of a caps stage with frame fields. */
  lemma CapsLineText(head: string, width: int, height: int, fps: int)
    ensures Concat([head + ", width=", IntToStr(width), ", height=", IntToStr(height),
                    ", framerate=", IntToStr(fps), "/1 ! "])
         == head + RenderProps(FrameFields(width, height, fps), ", ") + " ! "
  {
    var w, h, f := IntToStr(width), IntToStr(height), IntToStr(fps);
    var ps := FrameFields(width, height, fps);
    assert RenderProps(ps[2..], ", ") == ", " + "framerate" + "=" + (f + "/1") + "" by {
      assert ps[2..][1..] == [];
    }
    assert RenderProps(ps[1..], ", ") == ", " + "height" + "=" + h + RenderProps(ps[2..], ", ") by {
      assert ps[1..][1..] == ps[2..];
    }
    assert RenderProps(ps, ", ") == ", " + "width" + "=" + w + RenderProps(ps[1..], ", ");
    assert ", width=" == ", " + "width" + "=";
    assert ", height=" == ", " + "height" + "=";
    assert ", framerate=" == ", " + "framerate" + "=";
    assert RenderProps(ps, ", ") == ", width=" + w + (", height=" + h + (", framerate=" + (f + "/1") + ""));
    assert "/1 ! " == "/1" + " ! ";
    CapsLineShape(head, ", width=", w, ", height=", h, ", framerate=", f, "/1", " ! ");
  }

  /** How the first line of the f-strings is grouped, for any pieces. */
  lemma SourceLineShape(open: string, name: string, sp: string, key: string, eq: string, device: string, sep: string)
    ensures Concat([open + name + sp + key + eq, device, sep]) == open + ((name + (sp + key + eq + device + "")) + sep)
  {
    var line := [open + name + sp + key + eq, device, sep];
    assert line[1..][1..] == [sep];
  }

  /** The first line of both f-strings is "( " and the capture source stage. */
  lemma SourceLineIsStage(device: string)
    ensures Concat(["( v4l2src device=", device, " ! "]) == "( " + (RenderStage(Element("v4l2src", [Prop("device", device)])) + " ! ")
  {
    var ps := [Prop("device", device)];
    assert RenderProps(ps, " ") == " " + "device" + "=" + device + "" by { assert ps[1..] == []; }
    assert "( v4l2src device=" == "( " + "v4l2src" + " " + "device" + "=";
    SourceLineShape("( ", "v4l2src", " ", "device", "=", device, " ! ");
  }

  /** A caps line of the f-strings is a caps stage with frame fields, then " ! ". */
  lemma CapsLineIsStage(head: string, width: int, height: int, fps: int)
    ensures Concat([head + ", width=", IntToStr(width), ", height=", IntToStr(height),
                    ", framerate=", IntToStr(fps), "/1 ! "])
         == RenderStage(Caps(head, FrameFields(width, height, fps))) + " ! "
  {
    CapsLineText(head, width, height, fps);
  }

  /** The property text of the Arducam payloader stage. */
  lemma ArducamPayloaderProps()
    ensures RenderProps([Prop("config-interval", "1"), Prop("name", "pay0"), Prop("pt", "96")], " ")
         == " config-interval=1 name=pay0 pt=96"
  {
    var ps := [Prop("config-interval", "1"), Prop("name", "pay0"), Prop("pt", "96")];
    assert RenderProps(ps[2..], " ") == " pt=96" by { assert ps[2..][1..] == []; }
    assert RenderProps(ps[1..], " ") == " name=pay0 pt=96" by { assert ps[1..][1..] == ps[2..]; }
  }

  /** An element line of the f-strings, given the text of its properties. */
  lemma ElementLineText(factory: string, props: seq<Prop>, text: string, close: string)
    requires RenderProps(props, " ") == text
    ensures RenderStage(Element(factory, props)) + close == factory + text + close
  {
  }

  /** The last line of the Arducam f-string is its payloader stage and ")". */
  lemma ArducamPayloaderLineIsStage()
    ensures "rtph264pay config-interval=1 name=pay0 pt=96 )"
         == RenderStage(Element("rtph264pay", [Prop("config-interval", "1"), Prop("name", "pay0"), Prop("pt", "96")])) + " )"
  {
    ArducamPayloaderProps();
    ElementLineText("rtph264pay", [Prop("config-interval", "1"), Prop("name", "pay0"), Prop("pt", "96")],
                    " config-interval=1 name=pay0 pt=96", " )");
    ArducamPayloaderLiteral();
  }

  /** The payloader literal split at the stage boundary; kept apart from
      the stage reasoning so the solver merges plain literals only. */
  lemma ArducamPayloaderLiteral()
    ensures "rtph264pay" + " config-interval=1 name=pay0 pt=96" + " )" == "rtph264pay config-interval=1 name=pay0 pt=96 )"
  {
    assert "rtph264pay" + " config-interval=1 name=pay0 pt=96" == "rtph264pay config-interval=1 name=pay0 pt=96";
  }

  /** The Arducam f-string is the launch text of its four-stage chain. */
  lemma ArducamIsStageChain(device: string, width: int, height: int, fps: int)
    ensures ArducamPipeline(device, width, height, fps) == RenderLaunch(ArducamStages(device, width, height, fps))
  {
    var st := ArducamStages(device, width, height, fps);
    var lines := ArducamLines(device, width, height, fps);
    SourceLineIsStage(device);
    assert "video/x-h264, width=" == "video/x-h264" + ", width=";
    CapsLineIsStage("video/x-h264", width, height, fps);
    assert "h264parse ! " == "h264parse" + "" + " ! ";
    ArducamPayloaderLineIsStage();
    LaunchOfLines(st, lines);
  }

  /** The NVMM caps line of the 360 f-string: the format field comes before the frame fields. */
  lemma NvmmCapsLineIsStage(width: int, height: int, fps: int)
    ensures Concat(["video/x-raw(memory:NVMM), format=NV12, width=", IntToStr(width), ", height=", IntToStr(height),
                    ", framerate=", IntToStr(fps), "/1 ! "])
         == RenderStage(Caps("video/x-raw(memory:NVMM)", [Prop("format", "NV12")] + FrameFields(width, height, fps))) + " ! "
  {
    var ff := FrameFields(width, height, fps);
    var ps := [Prop("format", "NV12")] + ff;
    assert RenderProps(ps, ", ") == ", " + "format" + "=" + "NV12" + RenderProps(ff, ", ") by { assert ps[1..] == ff; }
    assert ", format=NV12" == ", " + "format" + "=" + "NV12";
    var head := "video/x-raw(memory:NVMM), format=NV12";
    assert head == "video/x-raw(memory:NVMM)" + ", format=NV12";
    assert "video/x-raw(memory:NVMM), format=NV12, width=" == head + ", width=";
    CapsLineText(head, width, height, fps);
    Regroup("video/x-raw(memory:NVMM)", ", format=NV12", RenderProps(ff, ", "), " ! ");
  }

  /** A regrouping step the solver does not find unaided in the NVMM caps proof. */
  lemma Regroup(a: string, b: string, c: string, d: string)
    ensures a + b + c + d == a + (b + c) + d
  {
  }

  /** How the encoder line of the 360 f-string is grouped, for any pieces. */
  lemma EncoderLineShape(name: string, p1: string, p2: string, p3: string, bitrate: string, sep: string)
    ensures Concat([name + p1 + p2 + p3, bitrate, sep]) == name + (p1 + (p2 + (p3 + bitrate + ""))) + sep
  {
    var line := [name + p1 + p2 + p3, bitrate, sep];
    assert line[1..][1..] == [sep];
  }

  /** The property text of the NVENC stage. */
  lemma EncoderProps(bitrate: string)
    ensures RenderProps([Prop("insert-sps-pps", "true"), Prop("maxperf-enable", "true"), Prop("bitrate", bitrate)], " ")
         == " insert-sps-pps=true" + (" maxperf-enable=true" + (" bitrate=" + bitrate + ""))
  {
    var ps := [Prop("insert-sps-pps", "true"), Prop("maxperf-enable", "true"), Prop("bitrate", bitrate)];
    assert RenderProps(ps[2..], " ") == " " + "bitrate" + "=" + bitrate + "" by { assert ps[2..][1..] == []; }
    assert RenderProps(ps[1..], " ") == " " + "maxperf-enable" + "=" + "true" + RenderProps(ps[2..], " ") by {
      assert ps[1..][1..] == ps[2..];
    }
    assert " bitrate=" == " " + "bitrate" + "=";
    assert " maxperf-enable=true" == " " + "maxperf-enable" + "=" + "true";
    assert " insert-sps-pps=true" == " " + "insert-sps-pps" + "=" + "true";
  }

  /** The encoder literal split at each property, two pieces at a time. */
  lemma EncoderHead()
    ensures "nvv4l2h264enc insert-sps-pps=true maxperf-enable=true bitrate="
         == "nvv4l2h264enc" + " insert-sps-pps=true" + " maxperf-enable=true" + " bitrate="
  {
    assert "nvv4l2h264enc insert-sps-pps=true" == "nvv4l2h264enc" + " insert-sps-pps=true";
    assert "nvv4l2h264enc insert-sps-pps=true maxperf-enable=true"
        == "nvv4l2h264enc insert-sps-pps=true" + " maxperf-enable=true";
    assert "nvv4l2h264enc insert-sps-pps=true maxperf-enable=true bitrate="
        == "nvv4l2h264enc insert-sps-pps=true maxperf-enable=true" + " bitrate=";
  }

  /** The encoder line of the 360 f-string is the NVENC stage, then " ! ". */
  lemma EncoderLineIsStage(bitrate: string)
    ensures Concat(["nvv4l2h264enc insert-sps-pps=true maxperf-enable=true bitrate=", bitrate, " ! "])
         == RenderStage(Element("nvv4l2h264enc", [Prop("insert-sps-pps", "true"), Prop("maxperf-enable", "true"),
                                                  Prop("bitrate", bitrate)])) + " ! "
  {
    EncoderProps(bitrate);
    EncoderHead();
    EncoderLineShape("nvv4l2h264enc", " insert-sps-pps=true", " maxperf-enable=true", " bitrate=", bitrate, " ! ");
  }

  /** The last line of the 360 f-string is its payloader stage and ")". */
  lemma Raw360PayloaderLineIsStage()
    ensures "rtph264pay name=pay0 pt=96 )" == RenderStage(Element("rtph264pay", [Prop("name", "pay0"), Prop("pt", "96")])) + " )"
  {
    var ps := [Prop("name", "pay0"), Prop("pt", "96")];
    assert RenderProps(ps, " ") == " name=pay0 pt=96" by {
      assert RenderProps(ps[1..], " ") == " pt=96" by { assert ps[1..][1..] == []; }
    }
  }

  /** The 360 f-string is the launch text of its seven-stage chain. */
  lemma Raw360IsStageChain(cam: CameraProfile)
    ensures Raw360Pipeline(cam) == RenderLaunch(Raw360Stages(cam))
  {
    var st := Raw360Stages(cam);
    var lines := Raw360Lines(cam);
    SourceLineIsStage(cam.device);
    assert "image/jpeg, width=" == "image/jpeg" + ", width=";
    CapsLineIsStage("image/jpeg", cam.width, cam.height, cam.fps);
    assert "jpegdec ! " == "jpegdec" + "" + " ! ";
    assert "nvvidconv ! " == "nvvidconv" + "" + " ! ";
    NvmmCapsLineIsStage(cam.width, cam.height, cam.fps);
    EncoderLineIsStage(IntToStr(Bitrate360));
    Raw360PayloaderLineIsStage();
    LaunchOfLines(st, lines);
  }

  // ---------------------------------------------------------------------
  // What the chains say

  /** The Arducam chain captures, parses and packetises the camera's own
      H.264: no stage re-encodes, so no stage has a bitrate (the Arducam
      bitrate constant is never used). */
  lemma ArducamPassThrough(device: string, width: int, height: int, fps: int)
    ensures var st := ArducamStages(device, width, height, fps);
      && Heads(st) == ["v4l2src", "video/x-h264", "h264parse", "rtph264pay"]
      && (forall i :: 0 <= i < |st| ==> Lookup(Props(st[i]), "bitrate").None?)
      && Lookup(Props(st[0]), "device") == Some(device)
      && Lookup(Props(st[3]), "name") == Some("pay0") && Lookup(Props(st[3]), "pt") == Some("96")
  {
    var st := ArducamStages(device, width, height, fps);
    assert Heads(st) == ["v4l2src", "video/x-h264", "h264parse", "rtph264pay"];
    var pay := Props(st[3]);
    assert Lookup(pay, "name") == Some("pay0") by { assert pay[1..][0].key == "name"; }
    assert Lookup(pay, "pt") == Some("96") by { assert pay[1..][1..][0].key == "pt"; }
  }

  /** The 360 chain decodes the camera's MJPEG, moves it to NVMM memory as
      NV12 and re-encodes it at the 360 bitrate. */
  lemma Raw360ReEncodes(cam: CameraProfile)
    ensures var st := Raw360Stages(cam);
      && Heads(st) == ["v4l2src", "image/jpeg", "jpegdec", "nvvidconv", "video/x-raw(memory:NVMM)", "nvv4l2h264enc", "rtph264pay"]
      && Lookup(Props(st[0]), "device") == Some(cam.device)
      && Lookup(Props(st[4]), "format") == Some("NV12")
      && Lookup(Props(st[5]), "bitrate") == Some(IntToStr(Bitrate360))
      && Lookup(Props(st[6]), "name") == Some("pay0") && Lookup(Props(st[6]), "pt") == Some("96")
  {
    var st := Raw360Stages(cam);
    assert Heads(st) == ["v4l2src", "image/jpeg", "jpegdec", "nvvidconv", "video/x-raw(memory:NVMM)", "nvv4l2h264enc", "rtph264pay"];
    var enc := Props(st[5]);
    assert Lookup(enc, "bitrate") == Some(IntToStr(Bitrate360)) by {
      assert Lookup(enc[1..][1..], "bitrate") == Some(IntToStr(Bitrate360));
      assert Lookup(enc[1..], "bitrate") == Lookup(enc[1..][1..], "bitrate");
    }
    var pay := Props(st[6]);
    assert Lookup(pay, "pt") == Some("96") by { assert pay[1..][0].key == "pt"; }
  }

  /** Decoding and re-encoding keep the frame: the NVMM caps carry the same
      width, height and framerate as the camera's MJPEG caps. */
  lemma Raw360KeepsFrame(cam: CameraProfile, key: string)
    requires key != "format"
    ensures var st := Raw360Stages(cam);
      Lookup(Props(st[4]), key) == Lookup(Props(st[1]), key)
  {
    var st := Raw360Stages(cam);
    assert Props(st[4])[1..] == Props(st[1]);
  }

  /** The caps of an Arducam chain give back the profile it was built from. */
  lemma ArducamStagesDetermineProfile(d1: string, w1: int, h1: int, f1: int, d2: string, w2: int, h2: int, f2: int)
    requires ArducamStages(d1, w1, h1, f1) == ArducamStages(d2, w2, h2, f2)
    ensures d1 == d2 && w1 == w2 && h1 == h2 && f1 == f2
  {
    var ff1, ff2 := FrameFields(w1, h1, f1), FrameFields(w2, h2, f2);
    assert Props(ArducamStages(d1, w1, h1, f1)[1]) == ff1;
    assert ff1 == ff2;
    IntToStrInjective(w1, w2);
    IntToStrInjective(h1, h2);
    var r1, r2 := IntToStr(f1), IntToStr(f2);
    assert r1 + "/1" == r2 + "/1";
    assert |r1| == |r2|;
    assert r1 == (r1 + "/1")[..|r1|] == (r2 + "/1")[..|r2|] == r2;
    IntToStrInjective(f1, f2);
  }

  /** The configured numbers as the f-strings render them. */
  lemma ConfiguredNumbers()
    ensures IntToStr(1920) == "1920" && IntToStr(1080) == "1080" && IntToStr(30) == "30"
    ensures IntToStr(2880) == "2880" && IntToStr(1440) == "1440"
  {
    assert NatToStr(19) == "19";
    assert NatToStr(192) == "192";
    assert NatToStr(1920) == "1920";
    assert NatToStr(10) == "10";
    assert NatToStr(108) == "108";
    assert NatToStr(1080) == "1080";
    assert NatToStr(30) == "30";
    assert NatToStr(28) == "28";
    assert NatToStr(288) == "288";
    assert NatToStr(2880) == "2880";
    assert NatToStr(14) == "14";
    assert NatToStr(144) == "144";
    assert NatToStr(1440) == "1440";
  }

  /** BITRATE_360 as the f-string renders it. */
  lemma Bitrate360Text()
    ensures IntToStr(Bitrate360) == "8000000"
  {
    assert NatToStr(80) == "80";
    assert NatToStr(800) == "800";
    assert NatToStr(8000) == "8000";
    assert NatToStr(80000) == "80000";
    assert NatToStr(800000) == "800000";
  }

  /** Whatever the camera, the 360 encoder runs at BITRATE_360. */
  lemma Raw360Bitrate(cam: CameraProfile)
    ensures Lookup(Props(Raw360Stages(cam)[5]), "bitrate") == Some("8000000")
  {
    Raw360ReEncodes(cam);
    Bitrate360Text();
  }

  /** The configured cameras: both Arducams deliver 1920x1080 H.264 at 30
      frames per second, the 360 camera 2880x1440 MJPEG at 30. */
  lemma ConfiguredStreams()
    ensures ArducamStages(RearCam.device, RearCam.width, RearCam.height, RearCam.fps)[1]
         == Caps("video/x-h264", [Prop("width", "1920"), Prop("height", "1080"), Prop("framerate", "30/1")])
    ensures ArducamStages(FrontCam.device, FrontCam.width, FrontCam.height, FrontCam.fps)[1]
         == Caps("video/x-h264", [Prop("width", "1920"), Prop("height", "1080"), Prop("framerate", "30/1")])
    ensures Raw360Stages(Raw360Cam)[1]
         == Caps("image/jpeg", [Prop("width", "2880"), Prop("height", "1440"), Prop("framerate", "30/1")])
  {
    ConfiguredNumbers();
    assert "30" + "/1" == "30/1";
  }

  // ---------------------------------------------------------------------
  // The mount table

  /** A media factory as configured: its launch description and whether
      clients share one pipeline. */
  datatype MediaFactory = MediaFactory(launch: string, shared: bool)

  /** `_make_arducam_pipeline(**cam)`: the launch text of the camera's
      Arducam chain. */
  function ArducamLaunch(cam: CameraProfile): (r: string)
    ensures r == RenderLaunch(ArducamStages(cam.device, cam.width, cam.height, cam.fps))
  {
    ArducamIsStageChain(cam.device, cam.width, cam.height, cam.fps);
    ArducamPipeline(cam.device, cam.width, cam.height, cam.fps)
  }

  /** The camera names `__init__` looks up. */
  predicate HasCameras(cameras: map<string, CameraProfile>) {
    "rearcam" in cameras && "frontcam" in cameras && "raw360" in cameras
  }

  /** The mounts the server publishes once constructed from a camera table:
      exactly /rearcam, /frontcam and /raw360, all shared, and not the
      processed /dynamic360 view. */
  function MountTable(cameras: map<string, CameraProfile>): (r: map<string, MediaFactory>)
    requires HasCameras(cameras)
    ensures r.Keys == {"/rearcam", "/frontcam", "/raw360"}
    ensures forall m :: m in r ==> r[m].shared
    ensures "/dynamic360" !in r
  {
    map["/rearcam" := MediaFactory(ArducamLaunch(cameras["rearcam"]), true),
        "/frontcam" := MediaFactory(ArducamLaunch(cameras["frontcam"]), true),
        "/raw360" := MediaFactory(Raw360Pipeline(cameras["raw360"]), true)]
  }

  /** `MultiCamRTSPServer`: the mount points of its RTSP server. */
  class MultiCamRtspServer {
    var mounts: map<string, MediaFactory>

    /** Mounts the two Arducam streams and the 360 stream of `CAMERAS`; the
        processed 360 view is not mounted. */
    constructor ()
      ensures mounts == MountTable(Cameras)
    {
      mounts := map[];
      new;
      CamerasEntries();
      AddStream("/rearcam", ArducamLaunch(Cameras["rearcam"]));
      AddStream("/frontcam", ArducamLaunch(Cameras["frontcam"]));
      AddStream("/raw360", Raw360Pipeline(Cameras["raw360"]));
      MountTableSteps(Cameras);
    }

    /** `_add_stream`: a shared factory with this launch description, mounted
        at `mountPoint` in place of whatever was there. */
    method AddStream(mountPoint: string, launch: string)
      modifies this
      ensures mounts == old(mounts)[mountPoint := MediaFactory(launch, true)]
      ensures mountPoint in mounts && mounts[mountPoint].shared
      ensures forall m :: m != mountPoint && m in old(mounts) ==> m in mounts && mounts[m] == old(mounts)[m]
    {
      mounts := mounts[mountPoint := MediaFactory(launch, true)];
    }
  }

  /** Mounting the three streams in turn on an empty table gives the table. */
  lemma MountTableSteps(cameras: map<string, CameraProfile>)
    requires HasCameras(cameras)
    ensures map[]["/rearcam" := MediaFactory(ArducamLaunch(cameras["rearcam"]), true)]
                 ["/frontcam" := MediaFactory(ArducamLaunch(cameras["frontcam"]), true)]
                 ["/raw360" := MediaFactory(Raw360Pipeline(cameras["raw360"]), true)]
         == MountTable(cameras)
  {
  }

  lemma CamerasEntries()
    ensures HasCameras(Cameras)
    ensures Cameras["rearcam"] == RearCam && Cameras["frontcam"] == FrontCam && Cameras["raw360"] == Raw360Cam
  {
  }

  /** Each mount is built from its own camera entry with the builder for
      that kind of camera. */
  lemma MountTableEntries(cameras: map<string, CameraProfile>)
    requires HasCameras(cameras)
    ensures MountTable(cameras)["/rearcam"] == MediaFactory(ArducamLaunch(cameras["rearcam"]), true)
    ensures MountTable(cameras)["/frontcam"] == MediaFactory(ArducamLaunch(cameras["frontcam"]), true)
    ensures MountTable(cameras)["/raw360"] == MediaFactory(Raw360Pipeline(cameras["raw360"]), true)
  {
  }

  /** Each mount serves its own camera through its stage chain. */
  lemma MountTableChains(cameras: map<string, CameraProfile>)
    requires HasCameras(cameras)
    ensures var rear, front := cameras["rearcam"], cameras["frontcam"];
      && MountTable(cameras)["/rearcam"].launch == RenderLaunch(ArducamStages(rear.device, rear.width, rear.height, rear.fps))
      && MountTable(cameras)["/frontcam"].launch == RenderLaunch(ArducamStages(front.device, front.width, front.height, front.fps))
      && MountTable(cameras)["/raw360"].launch == RenderLaunch(Raw360Stages(cameras["raw360"]))
  {
    MountTableEntries(cameras);
    var rear, front := cameras["rearcam"], cameras["frontcam"];
    ArducamIsStageChain(rear.device, rear.width, rear.height, rear.fps);
    ArducamIsStageChain(front.device, front.width, front.height, front.fps);
    Raw360IsStageChain(cameras["raw360"]);
  }

  /** The text of an Arducam description tells which device it opens. */
  lemma ArducamDeviceDetermined(d1: string, d2: string, width: int, height: int, fps: int)
    requires ArducamPipeline(d1, width, height, fps) == ArducamPipeline(d2, width, height, fps)
    ensures d1 == d2
  {
    var l1, l2 := ArducamLines(d1, width, height, fps), ArducamLines(d2, width, height, fps);
    assert l1[1..] == l2[1..];
    assert l1 == [l1[0]] + l1[1..] && l2 == [l2[0]] + l2[1..];
    ConcatSplit([l1[0]], l1[1..]);
    ConcatSplit([l2[0]], l2[1..]);
    var rest := Concat(l1[1..]);
    assert l1[0] + rest == l2[0] + rest;
    assert |l1[0]| == |l2[0]|;
    assert l1[0] == (l1[0] + rest)[..|l1[0]|] == (l2[0] + rest)[..|l2[0]|] == l2[0];
    SourceLineText(d1);
    SourceLineText(d2);
    var open := "( v4l2src device=";
    assert d1 == l1[0][|open|..|open| + |d1|];
    assert d2 == l2[0][|open|..|open| + |d2|];
  }

  /** With the configured cameras, the rear and front streams open different
      devices, so their launch descriptions differ. */
  lemma RearFrontDistinct()
    ensures HasCameras(Cameras)
    ensures MountTable(Cameras)["/rearcam"].launch != MountTable(Cameras)["/frontcam"].launch
  {
    CamerasEntries();
    MountTableEntries(Cameras);
    if MountTable(Cameras)["/rearcam"].launch == MountTable(Cameras)["/frontcam"].launch {
      ArducamDeviceDetermined(RearCam.device, FrontCam.device, 1920, 1080, 30);
    }
  }
}
