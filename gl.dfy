/**
 * An abstract WebGL rendering context: only the entry points the shader and
 * plane helpers call. Compiling GLSL is not decided here: the verdict of the
 * compiler and its info log are oracles fixed when the context is created.
 * Every state-changing call is recorded, in order, in the ghost trace `calls`.
 */
module Gl {

  /** The two shader stages (gl.VERTEX_SHADER, gl.FRAGMENT_SHADER). */
  datatype ShaderStage = Vertex | Fragment

  /** Usage hints of bufferData (gl.STATIC_DRAW, gl.DYNAMIC_DRAW, gl.STREAM_DRAW). */
  datatype Usage = StaticDraw | DynamicDraw | StreamDraw

  /** A WebGLShader object. */
  class Shader {
    const stage: ShaderStage
    var source: string
    var compiled: bool
    var infoLog: string

    constructor (stage: ShaderStage)
      ensures this.stage == stage && source == "" && !compiled && infoLog == ""
    {
      this.stage := stage;
      source, compiled, infoLog := "", false, "";
    }
  }

  /**
   * A WebGLBuffer object. `itemSize` and `numItems` are the properties that
   * the mesh code attaches to it (0 until attached).
   */
  class Buffer {
    var data: seq<real>
    var usage: Usage
    var itemSize: nat
    var numItems: nat

    constructor ()
      ensures data == [] && usage == StaticDraw && itemSize == 0 && numItems == 0
    {
      data, usage, itemSize, numItems := [], StaticDraw, 0, 0;
    }
  }

  /** One call into the context, as recorded in its trace. */
  datatype Call =
    | CreateShaderCall(stage: ShaderStage, shader: Shader)
    | ShaderSourceCall(shader: Shader, source: string)
    | CompileShaderCall(shader: Shader)
    | CreateBufferCall(buffer: Buffer)
    | BindBufferCall(bound: Buffer?)
    | BufferDataCall(data: seq<real>, usage: Usage)

  /** The buffer bound to ARRAY_BUFFER after a trace of calls (null if none). */
  ghost function LastBound(calls: seq<Call>): (b: Buffer?)
    ensures b == null || BindBufferCall(b) in calls
  {
    if calls == [] then null
    else match calls[|calls| - 1]
      case BindBufferCall(b) => b
      case _ => LastBound(calls[..|calls| - 1])
  }

  /** One upload: the buffer it reached, the data and the usage hint. */
  datatype Upload = Upload(target: Buffer?, data: seq<real>, usage: Usage)

  /** Every bufferData call of a trace, with the buffer bound when it was made. */
  ghost function Uploads(calls: seq<Call>): (r: seq<Upload>)
    ensures |r| <= |calls|
  {
    if calls == [] then []
    else
      var init := calls[..|calls| - 1];
      match calls[|calls| - 1]
      case BufferDataCall(data, usage) => Uploads(init) + [Upload(LastBound(init), data, usage)]
      case _ => Uploads(init)
  }

  class Context {
    /** Oracle: whether the GLSL compiler accepts a source for a stage. */
    const accepts: (ShaderStage, string) -> bool
    /** Oracle: the info log the GLSL compiler produces for a source. */
    const diagnose: (ShaderStage, string) -> string

    ghost var calls: seq<Call>
    /** The buffer bound to the ARRAY_BUFFER target, null when none is. */
    var arrayBuffer: Buffer?

    /** The binding is always the one the latest bindBuffer call made. */
    ghost predicate Valid()
      reads this
    {
      arrayBuffer == LastBound(calls)
    }

    constructor (accepts: (ShaderStage, string) -> bool, diagnose: (ShaderStage, string) -> string)
      ensures Valid() && calls == [] && arrayBuffer == null
      ensures this.accepts == accepts && this.diagnose == diagnose
    {
      this.accepts, this.diagnose := accepts, diagnose;
      calls, arrayBuffer := [], null;
    }

    /** gl.createShader(stage): allocates a fresh, empty shader object. */
    method CreateShader(stage: ShaderStage) returns (shader: Shader)
      requires Valid()
      modifies this
      ensures Valid() && arrayBuffer == old(arrayBuffer)
      ensures fresh(shader) && shader.stage == stage && shader.source == "" && !shader.compiled
      ensures calls == old(calls) + [CreateShaderCall(stage, shader)]
    {
      shader := new Shader(stage);
      calls := calls + [CreateShaderCall(stage, shader)];
      assert calls[..|calls| - 1] == old(calls);
    }

    /** gl.shaderSource(shader, source): replaces the shader's source text. */
    method ShaderSource(shader: Shader, source: string)
      requires Valid()
      modifies this, shader
      ensures Valid() && arrayBuffer == old(arrayBuffer)
      ensures shader.source == source && shader.compiled == old(shader.compiled)
      ensures shader.infoLog == old(shader.infoLog)
      ensures calls == old(calls) + [ShaderSourceCall(shader, source)]
    {
      shader.source := source;
      calls := calls + [ShaderSourceCall(shader, source)];
      assert calls[..|calls| - 1] == old(calls);
    }

    /** gl.compileShader(shader): sets the compile status and the info log. */
    method CompileShader(shader: Shader)
      requires Valid()
      modifies this, shader
      ensures Valid() && arrayBuffer == old(arrayBuffer)
      ensures shader.source == old(shader.source)
      ensures shader.compiled == accepts(shader.stage, shader.source)
      ensures shader.infoLog == diagnose(shader.stage, shader.source)
      ensures calls == old(calls) + [CompileShaderCall(shader)]
    {
      shader.compiled := accepts(shader.stage, shader.source);
      shader.infoLog := diagnose(shader.stage, shader.source);
      calls := calls + [CompileShaderCall(shader)];
      assert calls[..|calls| - 1] == old(calls);
    }

    /** gl.getShaderParameter(shader, gl.COMPILE_STATUS). */
    function CompileStatus(shader: Shader): bool
      reads shader
    {
      shader.compiled
    }

    /** gl.getShaderInfoLog(shader). */
    function ShaderInfoLog(shader: Shader): string
      reads shader
    {
      shader.infoLog
    }

    /** gl.createBuffer(): allocates a fresh, empty buffer object. */
    method CreateBuffer() returns (buffer: Buffer)
      requires Valid()
      modifies this
      ensures Valid() && arrayBuffer == old(arrayBuffer)
      ensures fresh(buffer) && buffer.data == [] && buffer.itemSize == 0 && buffer.numItems == 0
      ensures calls == old(calls) + [CreateBufferCall(buffer)]
    {
      buffer := new Buffer();
      calls := calls + [CreateBufferCall(buffer)];
      assert calls[..|calls| - 1] == old(calls);
    }

    /** gl.bindBuffer(gl.ARRAY_BUFFER, buffer). */
    method BindBuffer(buffer: Buffer?)
      requires Valid()
      modifies this
      ensures Valid() && arrayBuffer == buffer
      ensures calls == old(calls) + [BindBufferCall(buffer)]
    {
      arrayBuffer := buffer;
      calls := calls + [BindBufferCall(buffer)];
    }

    /**
     * gl.bufferData(gl.ARRAY_BUFFER, data, usage): stores the data in the
     * buffer currently bound; with none bound, WebGL stores nothing.
     */
    method BufferData(data: seq<real>, usage: Usage)
      requires Valid()
      modifies this, arrayBuffer
      ensures Valid() && arrayBuffer == old(arrayBuffer)
      ensures arrayBuffer != null ==> arrayBuffer.data == data && arrayBuffer.usage == usage
      ensures arrayBuffer != null ==>
        arrayBuffer.itemSize == old(arrayBuffer.itemSize) && arrayBuffer.numItems == old(arrayBuffer.numItems)
      ensures calls == old(calls) + [BufferDataCall(data, usage)]
      ensures Uploads(calls) == old(Uploads(calls)) + [Upload(arrayBuffer, data, usage)]
    {
      if arrayBuffer != null {
        arrayBuffer.data, arrayBuffer.usage := data, usage;
      }
      calls := calls + [BufferDataCall(data, usage)];
      assert calls[..|calls| - 1] == old(calls);
    }
  }
}
