/**
 * The gst-launch description syntax the RTSP media factories are given, as a
 * structure: a chain of stages, each an element with `key=value` properties
 * or a caps filter with `, key=value` fields, written between "( " and " )"
 * and separated by " ! ".
 */
module LaunchSyntax {
  import opened Wrappers
  import opened Text

  datatype Prop = Prop(key: string, value: string)

  datatype Stage =
    | Element(factory: string, props: seq<Prop>)
    | Caps(mediaType: string, fields: seq<Prop>)

  /** The element factory or media type that opens a stage. */
  function Head(s: Stage): string {
    match s
    case Element(f, _) => f
    case Caps(m, _) => m
  }

  function Props(s: Stage): seq<Prop> {
    match s
    case Element(_, ps) => ps
    case Caps(_, fs) => fs
  }

  function Heads(stages: seq<Stage>): (r: seq<string>)
    ensures |r| == |stages|
    ensures forall i :: 0 <= i < |stages| ==> r[i] == Head(stages[i])
  {
    if stages == [] then [] else [Head(stages[0])] + Heads(stages[1..])
  }

  /** The value a stage gives `key`, if it sets it (the first pair with that
      key; no stage of this server repeats a key, so the first is also the
      last, the one gst-launch would apply). */
  function Lookup(props: seq<Prop>, key: string): (r: Option<string>)
    ensures r.Some? <==> exists i :: 0 <= i < |props| && props[i].key == key
  {
    if props == [] then None
    else if props[0].key == key then Some(props[0].value)
    else Lookup(props[1..], key)
  }

  function RenderProps(props: seq<Prop>, sep: string): string {
    if props == [] then ""
    else sep + props[0].key + "=" + props[0].value + RenderProps(props[1..], sep)
  }

  function RenderStage(s: Stage): string {
    match s
    case Element(f, ps) => f + RenderProps(ps, " ")
    case Caps(m, fs) => m + RenderProps(fs, ", ")
  }

  /** Each stage's text, followed by " ! " when another stage comes after it. */
  function Segments(stages: seq<Stage>): seq<string> {
    seq(|stages|, i requires 0 <= i < |stages| => RenderStage(stages[i]) + (if i < |stages| - 1 then " ! " else ""))
  }

  /** The text of a bracketed launch description. */
  function RenderLaunch(stages: seq<Stage>): string {
    "( " + Concat(Segments(stages)) + " )"
  }

  /** Each line is the stage's segment, with "( " before the first and " )" after the last. */
  lemma LinesAreWrappedSegments(stages: seq<Stage>, lines: seq<string>)
    requires 2 <= |stages| == |lines|
    requires lines[0] == "( " + (RenderStage(stages[0]) + " ! ")
    requires forall i :: 0 < i < |stages| - 1 ==> lines[i] == RenderStage(stages[i]) + " ! "
    requires lines[|lines| - 1] == RenderStage(stages[|stages| - 1]) + " )"
    ensures var segs := Segments(stages);
      lines == ["( " + segs[0]] + segs[1..|segs| - 1] + [segs[|segs| - 1] + " )"]
  {
    var segs := Segments(stages);
    var n := |stages|;
    assert segs[0] == RenderStage(stages[0]) + " ! ";
    assert segs[n - 1] == RenderStage(stages[n - 1]) + "";
    forall i | 0 < i < n - 1
      ensures lines[i] == segs[i]
    {
      assert segs[i] == RenderStage(stages[i]) + " ! ";
    }
    WrappedLines(segs, lines, "( ", " )");
  }

  /**
   * Launch text written line by line: the first line opens the bracket and
   * each line is one stage followed by " ! ", the last one by " )".
   */
  lemma LaunchOfLines(stages: seq<Stage>, lines: seq<string>)
    requires 2 <= |stages| == |lines|
    requires lines[0] == "( " + (RenderStage(stages[0]) + " ! ")
    requires forall i :: 0 < i < |stages| - 1 ==> lines[i] == RenderStage(stages[i]) + " ! "
    requires lines[|lines| - 1] == RenderStage(stages[|stages| - 1]) + " )"
    ensures Concat(lines) == RenderLaunch(stages)
  {
    var segs := Segments(stages);
    var n := |segs|;
    SplitEnds(segs);
    ConcatWrap("( ", segs[0], segs[1..n - 1], segs[n - 1], " )");
    LinesAreWrappedSegments(stages, lines);
  }
}
