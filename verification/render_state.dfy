/**
  The slice of OpenGL's global state that the render passes switch: blending,
  the depth test, function and write mask, face culling, the viewport and the
  bound framebuffer. Every GL call the passes make on this state becomes a
  field update; all other GL calls are outside the model.
 */
module RenderState {

  datatype DepthFunc = Less | LessEqual | Equal

  datatype CullFace = Front | Back

  /** glBlendFunc factors: the GL default (ONE, ZERO) and the additive (ONE, ONE). */
  datatype BlendFunc = OneZero | OneOne

  datatype Viewport = Viewport(x: int, y: int, width: int, height: int)

  datatype GlState = GlState(
    blend: bool,
    blendFunc: BlendFunc,
    depthTest: bool,
    depthFunc: DepthFunc,
    depthMask: bool,
    cull: CullFace,
    viewport: Viewport,
    framebuffer: nat)

  /** A square viewport anchored at the origin, as the offscreen passes set it. */
  function SquareViewport(size: int): Viewport
  {
    Viewport(0, 0, size, size)
  }
}
