/**
 The plain-data state every node shares: animation time and angle, the RGB
 texture bytes, the update flag and the frame counter. Only the primary node
 writes it; the transport copies it whole to the secondaries.
 */
module SharedState {
  import opened Layout
  import opened Generator

  datatype TextureState = TextureState(
    time: real,
    angle: real,
    textureData: seq<byte>,
    textureNeedsUpdate: bool,
    frameCounter: int
  )

  /** The build-time configuration: texture dimensions and the colour formulas. */
  datatype Config = Config(dims: Dims, shader: Shader)

  /** The fields of the state that the generator reads. */
  function InputsOf(s: TextureState): Inputs {
    Inputs(s.time, s.angle, s.frameCounter)
  }

  /** The texture buffer has the configured size. */
  predicate WellSized(cfg: Config, s: TextureState) {
    |s.textureData| == Size(cfg.dims)
  }

  /**
   generateTextureData as a state change: the whole buffer is replaced by the
   texture of the current time, angle and counter, and the flag is raised.
   */
  function Regenerate(cfg: Config, s: TextureState): (r: TextureState)
    ensures r.time == s.time && r.angle == s.angle && r.frameCounter == s.frameCounter
    ensures r.textureNeedsUpdate
    ensures WellSized(cfg, r)
    ensures forall p :: InRange(cfg.dims, p) ==>
              Index(cfg.dims, p) < |r.textureData| &&
              r.textureData[Index(cfg.dims, p)] == ByteAt(cfg.shader, InputsOf(s), p)
  {
    var data := Texture(cfg.dims, cfg.shader, InputsOf(s));
    assert forall p :: InRange(cfg.dims, p) ==>
             Index(cfg.dims, p) < |data| && data[Index(cfg.dims, p)] == ByteAt(cfg.shader, InputsOf(s), p) by {
      forall p | InRange(cfg.dims, p)
        ensures Index(cfg.dims, p) < |data| && data[Index(cfg.dims, p)] == ByteAt(cfg.shader, InputsOf(s), p)
      {
        TexturePixel(cfg.dims, cfg.shader, InputsOf(s), p);
      }
    }
    s.(textureData := data, textureNeedsUpdate := true)
  }

  /** Regeneration reads only time, angle and counter: the old buffer and flag do not matter. */
  lemma RegenerateIgnoresOldTexture(cfg: Config, s: TextureState, s': TextureState)
    requires InputsOf(s) == InputsOf(s')
    ensures Regenerate(cfg, s) == Regenerate(cfg, s')
  {
  }

  /**
   The primary's state initialisation in onCreate: clock, angle and counter
   zeroed, flag lowered, then the first texture generated at once.
   */
  function PrimaryInit(cfg: Config, s: TextureState): (r: TextureState)
    ensures r.time == 0.0 && r.angle == 0.0 && r.frameCounter == 0
    ensures r.textureNeedsUpdate
    ensures WellSized(cfg, r)
    ensures r.textureData == Texture(cfg.dims, cfg.shader, Inputs(0.0, 0.0, 0))
  {
    Regenerate(cfg, s.(time := 0.0, angle := 0.0, textureNeedsUpdate := false, frameCounter := 0))
  }
}
