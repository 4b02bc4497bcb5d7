/** `CameraUpdateSystem2D`: the camera's action loop driven by the event
    crate's `EffectEvent` context. */
module CameraUpdate {
  import Camera
  import EffectInput

  /** `CameraUpdateSystem2D::update`, action part. */
  method Update(camera: Camera.Camera2D, ctx: EffectInput.EffectEvent)
    modifies camera
    ensures camera.currentActions ==
            Camera.ActionsAfter(old(camera.currentActions), camera.keyCodes, ctx.keysPressed, ctx.keysReleased)
    ensures camera.keyCodes == old(camera.keyCodes)
  {
    camera.UpdateActions(ctx.keysPressed, ctx.keysReleased);
  }
}
