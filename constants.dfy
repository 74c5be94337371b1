/** Engine-wide constants (Constants.h). Floating-point constants are the
    real numbers their literals denote. */
module Constants {

  const DEFAULT_WINDOW_WIDTH: int := 1280
  const DEFAULT_WINDOW_HEIGHT: int := 720

  const DEFAULT_MOUSE_SENSITIVITY: real := 0.1

  /** Camera field of view, in degrees. */
  const FIELD_OF_VIEW: real := 60.0
  const NEAR_PLANE: real := 0.01
  const FAR_PLANE: real := 100.0

  /** The largest number of lights a scene may hold. */
  const MAX_LIGHTS: nat := 4

  const RESOURCE_PATH: string := "../res/"
  const MODEL_PATH: string := RESOURCE_PATH + "models/"
  const TEXTURE_PATH: string := RESOURCE_PATH + "textures/"
  const SHADER_PATH: string := "shaders/"

  const DEFAULT_SHADER_NAME_TEXTURE: string := "phong"
  const DEFAULT_SHADER_NAME_TEXTURELESS: string := "phong-notexture"
}
