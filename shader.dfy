/**
 * Shader creation (we.gl.Shader): compile a shader from source text, or from
 * the text nodes of a <script> element whose `type` names the stage.
 * `debug` stands for goog.DEBUG, which only adds informational log entries.
 */
module Shaders {
  import opened Wrappers
  import opened Log
  import opened Gl
  import opened Dom

  /** The `type` strings of shader script elements. */
  const FRAGMENT_TYPE := "x-shader/x-fragment"
  const VERTEX_TYPE := "x-shader/x-vertex"

  function MimeType(stage: ShaderStage): string {
    match stage
    case Fragment => FRAGMENT_TYPE
    case Vertex => VERTEX_TYPE
  }

  /** The stage a script `type` names; any other string names none. */
  function StageOf(scriptType: string): (r: Option<ShaderStage>)
    ensures forall stage :: r == Some(stage) <==> MimeType(stage) == scriptType
    ensures r == None <==> scriptType != FRAGMENT_TYPE && scriptType != VERTEX_TYPE
  {
    if scriptType == FRAGMENT_TYPE then Some(Fragment)
    else if scriptType == VERTEX_TYPE then Some(Vertex)
    else None
  }

  /** The calls `Create` makes on the context, in order. */
  function CreateCalls(shader: Shader, code: string): seq<Call> {
    [CreateShaderCall(shader.stage, shader), ShaderSourceCall(shader, code), CompileShaderCall(shader)]
  }

  /** What `Create` writes to the log, given the compile status and info log. */
  function CompileLog(debug: bool, compiled: bool, infoLog: string): seq<Entry> {
    (if debug then [Entry(Info, "Compiling...")] else [])
    + (if !compiled then [Entry(Severe, infoLog)]
       else if debug then [Entry(Info, "Done")]
       else [])
  }

  /** A compile writes one severe entry, the info log, exactly when it fails. */
  lemma CompileLogSeveres(debug: bool, compiled: bool, infoLog: string)
    ensures Severes(CompileLog(debug, compiled, infoLog)) == if compiled then [] else [infoLog]
  {
  }

  /**
   * we.gl.Shader.create: allocate one shader of the given stage, set its
   * source, compile it and report a failed compile as a severe log entry.
   * The new shader is returned whatever the outcome.
   */
  method Create(context: Context, logger: Logger, debug: bool, shaderCode: string, shaderType: ShaderStage)
    returns (shader: Shader)
    requires context.Valid()
    modifies context, logger
    ensures context.Valid() && context.arrayBuffer == old(context.arrayBuffer)
    ensures fresh(shader) && shader.stage == shaderType && shader.source == shaderCode
    ensures shader.compiled == context.accepts(shaderType, shaderCode)
    ensures shader.infoLog == context.diagnose(shaderType, shaderCode)
    ensures context.calls == old(context.calls) + CreateCalls(shader, shaderCode)
    ensures logger.entries == old(logger.entries) + CompileLog(debug, shader.compiled, shader.infoLog)
    ensures Severes(logger.entries)
      == Severes(old(logger.entries)) + if shader.compiled then [] else [shader.infoLog]
  {
    ghost var logged, called := logger.entries, context.calls;
    shader := context.CreateShader(shaderType);
    if debug {
      logger.LogInfo("Compiling...");
    }
    context.ShaderSource(shader, shaderCode);
    context.CompileShader(shader);
    assert context.calls == called + CreateCalls(shader, shaderCode) by {
      assert context.calls
        == called + [CreateShaderCall(shaderType, shader)]
           + [ShaderSourceCall(shader, shaderCode)] + [CompileShaderCall(shader)];
    }
    ghost var compileLog := CompileLog(debug, shader.compiled, shader.infoLog);
    if !context.CompileStatus(shader) {
      logger.LogSevere(context.ShaderInfoLog(shader));
    } else if debug {
      logger.LogInfo("Done");
    }
    assert logger.entries == logged + compileLog;
    SeveresAppend(logged, compileLog);
    CompileLogSeveres(debug, shader.compiled, shader.infoLog);
  }

  /** The loop of createFromElement: concatenate the text of the text-node children. */
  method ConcatTextNodes(children: seq<Node>) returns (str: string)
    ensures str == TextContent(children)
  {
    str := "";
    var k := 0;
    while k < |children|
      invariant 0 <= k <= |children|
      invariant str == TextContent(children[..k])
    {
      assert children[..k + 1] == children[..k] + [children[k]];
      TextContentAppend(children[..k], [children[k]]);
      TextContentSingle(children[k]);
      if children[k].nodeType == TEXT_NODE {
        str := str + children[k].textContent;
      }
      k := k + 1;
    }
    assert children[..k] == children;
  }

  /** The three outcomes of loading a shader from an element. */
  datatype ElementPlan = Missing | NotAShader | Compile(stage: ShaderStage, source: string)

  /** What createFromElement does with a lookup result. */
  function Plan(element: Option<ScriptElement>): (p: ElementPlan)
    ensures p == Missing <==> element == None
    ensures p == NotAShader <==> element.Some? && StageOf(element.value.scriptType) == None
    ensures p.Compile? ==>
      element.Some? && MimeType(p.stage) == element.value.scriptType
      && p.source == TextContent(element.value.children)
  {
    match element
    case None => Missing
    case Some(e) =>
      match StageOf(e.scriptType)
      case None => NotAShader
      case Some(stage) => Compile(stage, TextContent(e.children))
  }

  function LoadingLog(debug: bool, name: string): seq<Entry> {
    if debug then [Entry(Info, "Loading shader from \"" + name + "\"..")] else []
  }

  function MissingMessage(name: string): string {
    "Could not create shader from element " + name
  }

  /**
   * we.gl.Shader.createFromElement. `element` is the result of resolving
   * `name` in the document; `name` only appears in log messages.
   */
  method CreateFromElement(context: Context, logger: Logger, debug: bool, name: string, element: Option<ScriptElement>)
    returns (shader: Shader?)
    requires context.Valid()
    modifies context, logger
    ensures context.Valid() && context.arrayBuffer == old(context.arrayBuffer)
    ensures shader == null <==> !Plan(element).Compile?
    ensures Plan(element) == Missing ==>
      context.calls == old(context.calls)
      && logger.entries == old(logger.entries) + LoadingLog(debug, name) + [Entry(Severe, MissingMessage(name))]
    ensures Plan(element) == NotAShader ==>
      context.calls == old(context.calls)
      && logger.entries == old(logger.entries) + LoadingLog(debug, name)
    ensures Plan(element).Compile? ==>
      shader != null && fresh(shader)
      && shader.stage == Plan(element).stage && shader.source == Plan(element).source
      && shader.compiled == context.accepts(shader.stage, shader.source)
      && shader.infoLog == context.diagnose(shader.stage, shader.source)
      && context.calls == old(context.calls) + CreateCalls(shader, shader.source)
      && logger.entries == old(logger.entries) + LoadingLog(debug, name) + CompileLog(debug, shader.compiled, shader.infoLog)
    ensures Severes(logger.entries) == Severes(old(logger.entries)) +
      if element == None then [MissingMessage(name)]
      else if shader != null && !shader.compiled then [shader.infoLog]
      else []
  {
    if debug {
      logger.LogInfo("Loading shader from \"" + name + "\"..");
    }
    ghost var loaded := logger.entries;
    assert loaded == old(logger.entries) + LoadingLog(debug, name);
    assert Severes(loaded) == Severes(old(logger.entries)) by {
      SeveresAppend(old(logger.entries), LoadingLog(debug, name));
      if debug { assert LoadingLog(debug, name)[1..] == []; }
    }
    if element == None {
      logger.LogSevere(MissingMessage(name));
      return null;
    }
    var shaderScript := element.value;
    var str := ConcatTextNodes(shaderScript.children);
    var shaderType;
    if shaderScript.scriptType == FRAGMENT_TYPE {
      shaderType := Fragment;
    } else if shaderScript.scriptType == VERTEX_TYPE {
      shaderType := Vertex;
    } else {
      return null;
    }
    assert Plan(element) == Compile(shaderType, str);
    shader := Create(context, logger, debug, str, shaderType);
  }
}
