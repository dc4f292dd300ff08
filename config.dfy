/**
 * cmd/config/config.go: the shared command configuration, the choice of renderer for
 * -o, and the trimming of the server's version answer.
 */
module Config {
  import opened Wrappers
  import opened Text
  import Auth

  /** The renderings an Outputable object offers; the text one takes the no-headers flag. */
  datatype Outputable = Outputable(json: string, gron: string, yaml: string, text: bool -> string)

  datatype Renderer = JsonOut | GronOut | YamlOut | TextOut(noHeaders: bool) | NoOutput

  /** The switch in outputData: the lower-cased format picks the renderer; anything else prints "". */
  function RendererFor(format: string, noHeaders: bool): Renderer {
    var f := ToLower(format);
    if f == "json" then JsonOut
    else if f == "gron" then GronOut
    else if f == "yaml" then YamlOut
    else if f == "text" || f == "table" then TextOut(noHeaders)
    else NoOutput
  }

  function Render(r: Renderer, data: Outputable): string {
    match r
    case JsonOut => data.json
    case GronOut => data.gron
    case YamlOut => data.yaml
    case TextOut(nh) => data.text(nh)
    case NoOutput => ""
  }

  /** The formats outputData has a renderer for. */
  predicate Renderable(lower: string) {
    lower == "json" || lower == "gron" || lower == "yaml" || lower == "text" || lower == "table"
  }

  lemma {:induction false} ToLowerIdempotent(s: string)
    ensures ToLower(ToLower(s)) == ToLower(s)
  {
    assert forall i :: 0 <= i < |s| ==> LowerChar(LowerChar(s[i])) == LowerChar(s[i]);
  }

  /** The choice ignores case, a renderer exists exactly for the five names, and text gets the flag. */
  lemma RendererChoice(format: string, noHeaders: bool)
    ensures RendererFor(format, noHeaders) == RendererFor(ToLower(format), noHeaders)
    ensures RendererFor(format, noHeaders).NoOutput? <==> !Renderable(ToLower(format))
    ensures RendererFor(format, noHeaders).TextOut? ==> RendererFor(format, noHeaders).noHeaders == noHeaders
  {
    ToLowerIdempotent(format);
  }

  /** "raw" is accepted on the command line but has no renderer here, so nothing is printed. */
  lemma RawPrintsNothing(noHeaders: bool, data: Outputable)
    ensures Render(RendererFor("raw", noHeaders), data) == ""
  {
    assert ToLower("raw") == "raw";
  }

  /** The version answer with at most one trailing newline removed. */
  function VersionInfo(response: Result<string, string>): (r: Result<string, string>)
  {
    match response
    case Err(e) => Err(e)
    case Ok(body) => Ok(TrimSuffix(body, "\n"))
  }

  /** Exactly one "\n" is removed when the body ends with one, and nothing otherwise. */
  lemma VersionInfoTrim(body: string)
    ensures |body| > 0 && body[|body| - 1] == '\n' ==> VersionInfo(Ok(body)).value + "\n" == body
    ensures (|body| == 0 || body[|body| - 1] != '\n') ==> VersionInfo(Ok(body)).value == body
    ensures VersionInfo(Ok(body + "\n\n")).value == body + "\n"
  {
    var b2 := body + "\n\n";
    assert b2[|b2| - 1..] == "\n";
    assert b2[..|b2| - 1] == body + "\n";
    if |body| > 0 && body[|body| - 1] == '\n' {
      assert body[|body| - 1..] == "\n";
      assert body[..|body| - 1] + "\n" == body;
    } else if |body| > 0 {
      assert body[|body| - 1..] != "\n" by {
        assert body[|body| - 1..][0] == body[|body| - 1];
      }
    }
  }

  /** config.Config: the fields the commands read and PersistentPreRun writes. */
  class Config {
    var apiServer: string
    var outputFormat: string
    var formatOverridden: bool
    var noHeaders: bool
    var authClient: Auth.Info?

    /** The flag values as cobra leaves them before PersistentPreRun. */
    constructor (outputFlag: string, noHeadersFlag: bool)
      ensures outputFormat == outputFlag && noHeaders == noHeadersFlag
      ensures !formatOverridden && apiServer == "" && authClient == null
    {
      apiServer := "";
      outputFormat := outputFlag;
      formatOverridden := false;
      noHeaders := noHeadersFlag;
      authClient := null;
    }

    /** outputData */
    function OutputText(data: Outputable): string
      reads this
    {
      Render(RendererFor(outputFormat, noHeaders), data)
    }

    /** OutputData: without an explicit -o the format becomes "text"; returns the printed text. */
    method OutputData(data: Outputable) returns (printed: string)
      modifies this
      ensures outputFormat == if old(formatOverridden) then old(outputFormat) else "text"
      ensures formatOverridden == old(formatOverridden) && noHeaders == old(noHeaders)
      ensures apiServer == old(apiServer) && authClient == old(authClient)
      ensures printed == Render(RendererFor(outputFormat, noHeaders), data)
    {
      if !formatOverridden {
        outputFormat := "text";
      }
      printed := OutputText(data);
    }

    /** Without -o the text rendering is printed, never the JSON default. */
    method OutputDataDefault(data: Outputable) returns (printed: string)
      requires !formatOverridden
      modifies this
      ensures printed == data.text(noHeaders)
    {
      printed := OutputData(data);
      assert ToLower("text") == "text";
    }
  }
}
