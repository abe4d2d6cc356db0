# rove-vision-server: crop endpoint and RTSP mount table

This project models the two self-contained pieces of the rove vision server
that carry statable behaviour:

- **The crop endpoint** (`crop_server.py`). A POST to `/crop` whose body is
  a JSON value in which each of `left`, `top`, `right` and `bottom` is found
  with Python's `in` operator replaces `crop.json` with that value plus a
  newline. The reply is 200 `Crop written to crop.json\n`. Any other path
  gets 404 `Not found` before the body is read. A Content-Length below -1
  makes the read raise before the `try`, so the request ends with no reply
  and no effect. A body that does not decode,
  lacks a key, or is a value on which `in` raises gets
  400 `Invalid request: <exception text>`, and the file is left alone.
  `CropServer.CropEndpoint` is a class whose fields are the files of the
  working directory and the log of observable events (body read, file
  written, reply sent). `DoPost` updates both.
- **The RTSP server configuration** (`rtsp_server_launch.py`). This covers
  the camera table, the two gst-launch description builders (H.264
  pass-through for the two Arducam cameras; MJPEG decode, NVMM conversion
  and NVENC re-encode for the Insta360 camera), and the mount table that the
  server object fills at start-up. The builders are pure functions that
  assemble the f-string pieces line by line (`RtspServerLaunch.ArducamPipeline`,
  `RtspServerLaunch.Raw360Pipeline`). Each is proved equal to an independent
  structured description: a chain of element and caps stages
  (`LaunchSyntax.Stage`), rendered with " ! " between stages inside "( " and
  " )". Properties of the launch text (stage order, where each profile field
  goes, the bitrate, the payloader) are then stated on the chain. The mount
  table is a class whose `map` field `AddStream` updates. The constructor
  calls `AddStream` three times, as `__init__` calls `_add_stream`.

Python's `in` is modelled per JSON type (`JsonValues.In`):
- dict: key membership;
- list: element equality;
- str: substring search;
- int, float, bool and None: a TypeError with CPython's
  "argument of type 'X' is not iterable" message.

So the handler accepts a list holding the four names, or a string in which
they occur. It rejects a number, boolean or null inside its `try` with 400.
`json.loads` and `json.dump` are function-valued fields of the endpoint, so
the model holds for any decoder and encoder. `str(int)` inside the
f-strings is modelled concretely (`Decimal.IntToStr`), with an inverse that
shows it is injective.

The system's specification describes a crop document nested per stream and
calls the flat single-rectangle document a legacy shape to reject. The
handler as written checks only the flat shape (the four names at top level)
and persists whatever value passes. The model follows the code: a nested
per-stream document lacks the four top-level keys and gets 400.

## Model

| member | source | states |
|---|---|---|
| CropServer.CropEndpoint.DoPost | crop_server.py:8-34 | Wrong path: one 404 `Not found` reply, nothing read, files unchanged. On `/crop` with a Content-Length below -1 the read raises outside the `try`: no reply, no file change. Otherwise the body is read, then either crop.json becomes dump(value)+"\n" followed by reply 200, or the files stay unchanged and the reply is 400 with the exception text. The log only grows. A request that is not aborted ends with exactly one reply, and a non-200 leaves every file unchanged. No file other than crop.json ever changes. |
| CropServer.RequestBody | crop_server.py:15-16 | The body is a prefix of what the client sends. No Content-Length reads nothing. A length of -1 reads to the end. A length below -1 makes the read raise (no body). Otherwise it reads min(length, available) bytes. |
| CropServer.CheckCrop | crop_server.py:18-21 | A decode failure is a DecodeError. A decoded value passes iff `in` is defined on it and every crop key is in it, and it then passes unchanged. A non-container fails with the TypeError of `in`. A container lacking a key fails with ValueError "Missing crop keys". |
| CropServer.BadRequest | crop_server.py:31-34 | Status 400, body starting "Invalid request: ". |
| CropServer.ListOfKeyNamesAccepted | crop_server.py:20 | Any list holding the four names as strings, in any order and with anything else, passes the check and is kept as is. |
| CropServer.SubstringDocumentAccepted | crop_server.py:20 | Any string in which each of the four names occurs at some offset passes the check and is kept as is. |
| CropServer.PresenceOnly | crop_server.py:20-24 | Any object that has the four keys passes, with any values and any further members in any order, and is persisted unchanged. |
| CropServer.MissingKeyRejected | crop_server.py:20-21 | An object lacking any one of the four keys fails with ValueError "Missing crop keys", whatever else it holds. |
| JsonValues.Contains | crop_server.py:20 | `__contains__` of a container: a dict has a member with the key at some index, a list has the string at some index, a string has the key at some offset. |
| JsonValues.In | crop_server.py:20 | Python's `key in v`: TypeError "argument of type 'X' is not iterable" on int, float, bool and None. On a dict, list or string, the answer is membership at some index or offset. |
| JsonValues.AllIn | crop_server.py:20 | `all(k in v for k in keys)`: on a container it answers whether every key is contained. On a non-container it raises the first TypeError when there are keys to check, and answers True when there are none. |
| JsonValues.SubstringIffOccurs | crop_server.py:20 | The left-to-right substring scan that `in` on a str performs succeeds iff the needle occurs at some offset. |
| Decimal.IntToStr | rtsp_server_launch.py:66 | `str(n)` of an int is non-empty and starts with '-' iff n is negative. |
| Decimal.NatToStr | rtsp_server_launch.py:66 | The decimal digits of a natural number: non-empty, all digits, no leading zero unless the number is 0. |
| Decimal.NatRoundTrip | rtsp_server_launch.py:66 | Reading back the digits gives the number again. |
| Decimal.IntRoundTrip | rtsp_server_launch.py:66 | Reading back the rendering of any int (with its sign) gives the int again. |
| Decimal.IntToStrInjective | rtsp_server_launch.py:66 | Distinct ints render to distinct f-string fields. |
| LaunchSyntax.Heads | rtsp_server_launch.py:65-77 | The element or media type opening each stage, in chain order. |
| LaunchSyntax.Lookup | rtsp_server_launch.py:65-77 | A stage sets a property iff one of its `key=value` pairs has that key. |
| LaunchSyntax.LaunchOfLines | rtsp_server_launch.py:65-77 | Lines that each hold one stage followed by " ! " (the first opened by "( ", the last closed by " )") concatenate to the launch text of the chain. |
| RtspServerLaunch.ArducamPipeline | rtsp_server_launch.py:64-68 | The Arducam description starts with `( v4l2src device=<device> ! ` and ends with `rtph264pay config-interval=1 name=pay0 pt=96 )`. |
| RtspServerLaunch.Raw360Pipeline | rtsp_server_launch.py:70-77 | The 360 description starts with `( v4l2src device=<device> ! ` and ends with `rtph264pay name=pay0 pt=96 )`. |
| RtspServerLaunch.SourceLineIsStage | rtsp_server_launch.py:65 | The first f-string line is "( " followed by the v4l2src stage with the device and " ! ". |
| RtspServerLaunch.ArducamPayloaderLineIsStage | rtsp_server_launch.py:68 | The last Arducam line is the rtph264pay stage with config-interval=1, name=pay0, pt=96, closed by " )". |
| RtspServerLaunch.Raw360PayloaderLineIsStage | rtsp_server_launch.py:77 | The last 360 line is the rtph264pay stage with name=pay0, pt=96, closed by " )". |
| RtspServerLaunch.CapsLineIsStage | rtsp_server_launch.py:66 | A caps line `<type>, width=W, height=H, framerate=F/1 ! ` is the caps stage with the given width, height and framerate fields, in that order. |
| RtspServerLaunch.NvmmCapsLineIsStage | rtsp_server_launch.py:75 | The NVMM caps line is the NVMM caps stage with format NV12 followed by the frame fields. |
| RtspServerLaunch.EncoderLineIsStage | rtsp_server_launch.py:76 | The encoder line is the nvv4l2h264enc stage with insert-sps-pps, maxperf-enable and the bitrate. |
| RtspServerLaunch.ArducamIsStageChain | rtsp_server_launch.py:64-68 | For every profile, the Arducam f-string equals the launch text of the chain v4l2src(device) ! video/x-h264 caps(width, height, framerate F/1) ! h264parse ! rtph264pay(config-interval=1, name=pay0, pt=96). |
| RtspServerLaunch.Raw360IsStageChain | rtsp_server_launch.py:70-77 | For every camera, the 360 f-string equals the launch text of the seven-stage chain v4l2src ! image/jpeg caps ! jpegdec ! nvvidconv ! NVMM caps ! nvv4l2h264enc ! rtph264pay. |
| RtspServerLaunch.ArducamPassThrough | rtsp_server_launch.py:64-68 | The Arducam chain is v4l2src, video/x-h264, h264parse, rtph264pay in that order. No stage has a bitrate, so BITRATE_ARDUCAM is unused. The device is the argument. The payloader is pay0 with pt 96. |
| RtspServerLaunch.Raw360ReEncodes | rtsp_server_launch.py:70-77 | The 360 chain is v4l2src, image/jpeg, jpegdec, nvvidconv, video/x-raw(memory:NVMM), nvv4l2h264enc, rtph264pay in that order. It uses the camera's device, NV12 format and the BITRATE_360 rendering, and the payloader is pay0 with pt 96. |
| RtspServerLaunch.Raw360KeepsFrame | rtsp_server_launch.py:72-75 | Every field other than format has the same value in the NVMM caps as in the image/jpeg caps, so width, height and framerate agree. |
| RtspServerLaunch.Raw360Bitrate | rtsp_server_launch.py:76 | Whatever the camera, the encoder bitrate is BITRATE_360, "8000000". |
| RtspServerLaunch.Bitrate360Text | rtsp_server_launch.py:31 | BITRATE_360 renders as "8000000". |
| RtspServerLaunch.ConfiguredNumbers | rtsp_server_launch.py:13-27 | The configured widths, heights and rate render as "1920", "1080", "2880", "1440" and "30". |
| RtspServerLaunch.ConfiguredStreams | rtsp_server_launch.py:10-29 | Both Arducam mounts carry 1920x1080 at 30/1 H.264 caps. The 360 mount carries 2880x1440 at 30/1 MJPEG caps. |
| RtspServerLaunch.ArducamStagesDetermineProfile | rtsp_server_launch.py:64-68 | Two Arducam chains are equal only if they were built from the same device, width, height and fps. |
| RtspServerLaunch.ArducamDeviceDetermined | rtsp_server_launch.py:64-68 | Two Arducam descriptions with the same width, height and fps are equal only if they open the same device. |
| RtspServerLaunch.CamerasEntries | rtsp_server_launch.py:10-29 | CAMERAS maps rearcam, frontcam and raw360 to their configured profiles. |
| RtspServerLaunch.MultiCamRtspServer.AddStream | rtsp_server_launch.py:81-85 | Mounts a shared factory with the given launch text at the mount point, replacing any earlier one, and leaves every other mount unchanged. |
| RtspServerLaunch.MultiCamRtspServer.constructor | rtsp_server_launch.py:38-59 | After construction the mounts are exactly the mount table of CAMERAS. |
| RtspServerLaunch.ArducamLaunch | rtsp_server_launch.py:45 | The `**cam` call renders the camera's own Arducam chain. |
| RtspServerLaunch.MountTable | rtsp_server_launch.py:42-59 | For any camera table with rearcam, frontcam and raw360 entries, the mounts are exactly /rearcam, /frontcam and /raw360. All are shared, and /dynamic360 is not mounted. |
| RtspServerLaunch.MountTableEntries | rtsp_server_launch.py:42-56 | Each mount is built from its own camera entry: the Arducam builder for /rearcam and /frontcam, and the 360 builder for /raw360. |
| RtspServerLaunch.MountTableChains | rtsp_server_launch.py:42-56 | For any camera table, each mount's launch text is the stage chain of its own camera's profile. |
| RtspServerLaunch.RearFrontDistinct | rtsp_server_launch.py:43-51 | With the configured CAMERAS, the rear and front mounts have different launch descriptions, because they open different devices (index2 and index0). |

## Left out

- HTTP plumbing (`HTTPServer`, `serve_forever`, headers, `log_message`, the socket): a request is a path, an optional integer Content-Length and the bytes the client sends. A reply is a (status, body) event in the log.
- A malformed Content-Length: `int()` raises outside the `try`. That is an unhandled exception rather than a reply, so requests carry the header already as an int. (A well-formed length below -1 is modelled: the read raises and the request ends without a reply.)
- Short reads: `rfile.read(n)` is modelled as returning min(n, available) bytes of what the client sends before closing.
- The internals of `json.loads` and `json.dump`. They are function-valued fields of the endpoint, so no property depends on a particular decoder or encoder. Non-finite floats and duplicate-key handling are left to the decoder.
- I/O errors while opening or writing `crop.json`: the write always succeeds. If the write failed after truncation, the real handler would report 400 with a truncated file, and the model does not capture that.
- The UTF-8 encoding of reply bodies: bodies are strings.
- The exact TypeError wording differs between CPython versions. The model uses "argument of type 'X' is not iterable".
- The GStreamer, GObject and RTSP runtime (`Gst.init`, `RTSPServer`, `RTSPMediaFactory`, `get_mount_points`, `attach`, `MainLoop`): a factory is its launch text and shared flag, and mounting is a map update.
- `BITRATE_PLACEHOLDER` and the placeholder and dynamic 360 pipelines: their builders do not exist in the source, and the only mount that would use them is commented out (`MountTable` states that it is absent).
- The start-up banner printed by the server: output only.
- A crop-polling loop, an element-handle registry, a frame pump and nested per-stream crop documents are described in the system's specification but do not appear in these files, so they are not modelled.
