# WebGL shader and plane helpers, modelled in Dafny

This project models the two WebGL helpers of the WebGL Earth client:

- `we.gl.Shader.create` and `we.gl.Shader.createFromElement`. They allocate one shader object on a
  WebGL context, set its source and compile it, and log a failed compile at the severe level.
  The element-based entry point first concatenates the text-node children of a `<script>`
  element and picks the shader stage from the element's `type` string.
- The `we.gl.Plane` constructor. It creates two buffers, binds and fills each one (a four-vertex
  triangle strip of positions and its texture coordinates) and tags each buffer with
  `itemSize` and `numItems`.

The WebGL context is the class `Gl.Context`. It holds the `ARRAY_BUFFER` binding and a ghost
trace of every state-changing call made on it (`createShader`, `shaderSource`, `compileShader`,
`createBuffer`, `bindBuffer`, `bufferData`). The GLSL compiler cannot be decided in the model, so
its verdict and its info log are two oracle functions fixed when the context is built.
The Closure logger is `Log.Logger`, a list of leveled entries. `goog.DEBUG` is the `debug`
parameter. The DOM lookup result is an `Option<ScriptElement>`: a `type` string plus the children
in sibling order. Widths, heights and buffer data are reals, copied verbatim.

Files: `wrappers.dfy` (Option), `log.dfy` (logger), `gl.dfy` (context, shaders, buffers, trace),
`dom.dfy` (nodes and the text-content reference definition), `shader.dfy` (`we.gl.Shader`),
`plane.dfy` (`we.gl.Plane`).

The model follows the code:
- `create` returns the raw shader handle, not a result carrying a status. A failed compile only
  shows as one severe log entry.
- `createFromElement` returns null both for a missing element and for an unrecognised `type`.
  `Shaders.Plan` names the three outcomes, but the method returns null for both failures, as the
  code does.
- Empty shader source is not rejected.

## Model

| member | source | states |
|---|---|---|
| Shaders.Create | tags/r6-UnprojectedToMercator/we/gl/shader.js:22-38 | Allocates exactly one fresh shader of the requested stage and returns that handle whatever the compile outcome. The trace grows by exactly createShader, shaderSource(code), compileShader on that shader, in that order. The bound buffer is unchanged. The log grows by the debug entries plus one severe entry holding the info log exactly when the compile fails. |
| Shaders.CompileLogSeveres | tags/r6-UnprojectedToMercator/we/gl/shader.js:25-35 | Whatever the debug setting, what create logs contains no severe entry on success and exactly one, the info log, on failure. |
| Shaders.ConcatTextNodes | tags/r6-UnprojectedToMercator/we/gl/shader.js:57-64 | The sibling loop's result equals the reference definition: keep the children with nodeType 3, then concatenate their textContent in order. |
| Shaders.StageOf | tags/r6-UnprojectedToMercator/we/gl/shader.js:66-73 | 'x-shader/x-fragment' gives FRAGMENT and 'x-shader/x-vertex' gives VERTEX, both directions of the iff. Every other string gives no stage. |
| Shaders.Plan | tags/r6-UnprojectedToMercator/we/gl/shader.js:50-75 | Classifies a lookup. It is Missing exactly when there is no element and NotAShader exactly when the type names no stage. Otherwise it is a compile of the stage the type names, over the element's text content. |
| Shaders.CreateFromElement | tags/r6-UnprojectedToMercator/we/gl/shader.js:46-76 | A missing element returns null, makes no context call and logs one severe 'Could not create shader from element' entry. An unrecognised type returns null with no context call and no severe entry. A recognised type behaves as create on the concatenated text with that stage: a fresh shader with the compiler's verdict and diagnostic, the same three calls, and a severe entry holding the diagnostic exactly when the compile fails. |
| Dom.TextNodes | tags/r6-UnprojectedToMercator/we/gl/shader.js:59-63 | A child is kept iff it has nodeType 3, and no more children are kept than there are. Order is stated by Dom.TextNodesAppend. |
| Dom.TextNodesAppend | tags/r6-UnprojectedToMercator/we/gl/shader.js:59-63 | Filtering preserves sibling order: the kept children of a split list are those of the first part followed by those of the second. |
| Dom.JoinAppend | tags/r6-UnprojectedToMercator/we/gl/shader.js:61 | Joining the text of a split list gives the text of the first part followed by that of the second, in sibling order. |
| Dom.TextContentAppend | tags/r6-UnprojectedToMercator/we/gl/shader.js:57-64 | The text of a run of children is the text of its first part followed by that of its second part. |
| Dom.TextContentSingle | tags/r6-UnprojectedToMercator/we/gl/shader.js:60-62 | One child contributes its textContent if it is a text node and nothing otherwise. |
| Dom.TextContentIgnoresNonText | tags/r6-UnprojectedToMercator/we/gl/shader.js:60-62 | Inserting a non-text child anywhere leaves the concatenated source unchanged. |
| Dom.TextContentAllText | tags/r6-UnprojectedToMercator/we/gl/shader.js:57-64 | When every child is a text node, the source is the concatenation of all of them. |
| Log.Logger.LogInfo | tags/r6-UnprojectedToMercator/we/gl/shader.js:26 | A debug info call appends exactly one Info entry with the message and changes nothing else in the log. |
| Log.Logger.LogSevere | tags/r6-UnprojectedToMercator/we/gl/shader.js:32 | A severe call appends one entry, and the severe texts grow by exactly that message. |
| Gl.Context.CreateShader | tags/r6-UnprojectedToMercator/we/gl/shader.js:23 | Allocates a fresh, empty, uncompiled shader of the given stage. The trace grows by that one call and the binding is unchanged. |
| Gl.Context.ShaderSource | tags/r6-UnprojectedToMercator/we/gl/shader.js:28 | Sets the shader's source to the given code, leaving its compile status and info log as they were. The trace grows by that one call. |
| Gl.Context.CompileShader | tags/r6-UnprojectedToMercator/we/gl/shader.js:29 | The compile status becomes the compiler's verdict on the stage and the current source, and the info log becomes its diagnostic. The source is unchanged and the trace grows by that one call. |
| Gl.Context.CompileStatus | tags/r6-UnprojectedToMercator/we/gl/shader.js:31 | No contract: a side-effect-free query returning the compile status that the last compileShader set on the shader (false before any compile). |
| Gl.Context.ShaderInfoLog | tags/r6-UnprojectedToMercator/we/gl/shader.js:32 | No contract: a side-effect-free query returning the info log that the last compileShader set on the shader (empty before any compile). |
| Gl.Context.CreateBuffer | tags/r6-UnprojectedToMercator/we/gl/plane.js:31 | Allocates a fresh, empty buffer with no size tags. The trace grows by that one call and the binding is unchanged. |
| Gl.LastBound | tags/r6-UnprojectedToMercator/we/gl/plane.js:36 | The ARRAY_BUFFER binding after a trace was set by a bindBuffer call in that trace, or is null. |
| Gl.Context.BindBuffer | tags/r6-UnprojectedToMercator/we/gl/plane.js:36 | Binding makes the given buffer the ARRAY_BUFFER binding and keeps the binding equal to the latest bind in the trace. |
| Gl.Context.BufferData | tags/r6-UnprojectedToMercator/we/gl/plane.js:43-47 | The data and usage go to the buffer most recently bound, and to no other buffer. The upload list grows by exactly that upload. |
| Planes.PlaneVertices | tags/r6-UnprojectedToMercator/we/gl/plane.js:37-42 | Twelve values, four vertices of three components. Every z is 0, every x is 0 or width and every y is 0 or height. |
| Planes.PlaneTexCoords | tags/r6-UnprojectedToMercator/we/gl/plane.js:53-58 | Eight values, four vertices of two components, each 0 or 1. |
| Planes.CornerCorrespondence | tags/r6-UnprojectedToMercator/we/gl/plane.js:37-58 | For each i in [0,4), vertex i has x = (if u_i = 1 then width else 0), y = (if v_i = 1 then height else 0) and z = 0. |
| Planes.TexCoordsDistinct | tags/r6-UnprojectedToMercator/we/gl/plane.js:53-58 | The four texture coordinates are pairwise distinct, so each corner of the unit square is used once. |
| Planes.PlaneUploads | tags/r6-UnprojectedToMercator/we/gl/plane.js:36-63 | After any earlier calls, the constructor's calls make exactly two uploads. The positions go to the vertex buffer and the coordinates to the texture-coordinate buffer, both STATIC_DRAW. |
| Planes.Fill | tags/r6-UnprojectedToMercator/we/gl/plane.js:36-65 | One buffer's step, used for the vertex block (lines 36-49) and the texture-coordinate block (lines 52-65): bind it, upload the data with STATIC_DRAW, tag itemSize and numItems. Afterwards it is the bound buffer and the trace grows by bind then bufferData. |
| Planes.Plane.constructor | tags/r6-UnprojectedToMercator/we/gl/plane.js:23-67 | Two distinct fresh buffers. The vertex buffer holds the position data with itemSize 3 and numItems 4. The texture-coordinate buffer holds the coordinate data with itemSize 2 and numItems 4. For both, itemSize * numItems equals the data length. The trace is create, create, bind, upload, bind, upload, and the texture-coordinate buffer is left bound. |

## Left out

- GLSL compilation: whether a source compiles, and its info log, are oracle functions of the context.
- Float32Array conversion: positions and coordinates are reals, with no float32 rounding.
- `goog.dom.getElement`: resolving an id string or an Element is not modelled. The method receives the lookup result and the string used in its log messages.
- DOM traversal by `firstChild`/`nextSibling` is a loop over the sequence of children. Nodes are a `nodeType` and a `textContent`, nothing more.
- Shaders.Create: the stage is one of the two ShaderStage values. An arbitrary number passed as `shaderType`, and WebGL's INVALID_ENUM result for it, are not modelled.
- `getShaderParameter` and `getShaderInfoLog` are side-effect-free queries and are not recorded in the trace.
- Buffer targets other than ARRAY_BUFFER are not modelled.
- `itemSize` and `numItems` start at 0 on a new buffer, where JavaScript leaves them undefined.
- The `context.gl` indirection: `Gl.Context` stands for the `gl` object itself.
- The logger singleton, `goog.provide`/`goog.require`, and the `we.gl.Mesh` interface. The interface is not part of this model; `Planes.Plane.IsMesh` states the layout it requires.
- GPU resource release: the code has none.
