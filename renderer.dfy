/** The part of renderer_engine_t (include/renderer.h) that the modelled code
    reads or writes: sizes, the grid's index count and the window's close flag. */
module Renderer {

  /** renderer_engine_t; the GL object names are not modelled. */
  class Engine {
    var windowWidth: int
    var windowHeight: int
    var renderTextureWidth: int
    var renderTextureHeight: int
    var gridIndexCount: int
    /** glfwWindowShouldClose of the engine's window. */
    var closeRequested: bool

    /** The global renderer_engine, zero-initialised. */
    constructor ()
      ensures windowWidth == 0 && windowHeight == 0
      ensures renderTextureWidth == 0 && renderTextureHeight == 0
      ensures gridIndexCount == 0 && !closeRequested
    {
      windowWidth, windowHeight := 0, 0;
      renderTextureWidth, renderTextureHeight := 0, 0;
      gridIndexCount := 0;
      closeRequested := false;
    }
  }
}
