/**
 VideoIOComponent: owns the effect registry, runs the effect pipeline on each
 camera frame and forwards frames to the H.264 encoder, and relays the
 screen-capture source's frames and size changes to the same encoder.
 */
module VideoIO {
  import opened Media
  import opened EffectChain
  import opened EffectRegistry

  /** One call of encodeImageBuffer, as the encoder received it. */
  datatype EncodedFrame<I> = EncodedFrame(buffer: PixelBuffer<I>, presentationTimeStamp: Time, duration: Time)

  /**
   A CMSampleBuffer from the camera: its image buffer, which may be missing,
   and the frame's presentation timestamp and duration.
   */
  datatype SampleBuffer<I> = SampleBuffer(imageBuffer: Option<PixelBuffer<I>>, presentationTimeStamp: Time, duration: Time)

  /**
   The AVC encoder as this component uses it: output dimensions it can be
   told, and the frames handed to it, oldest first.
   */
  class AVCEncoder<I> {
    var width: int32
    var height: int32
    var frames: seq<EncodedFrame<I>>

    constructor (width: int32, height: int32)
      ensures this.width == width && this.height == height && frames == []
    {
      this.width := width;
      this.height := height;
      frames := [];
    }

    /** encodeImageBuffer: the frame is queued after every earlier one; the dimensions stay. */
    method EncodeImageBuffer(buffer: PixelBuffer<I>, presentationTimeStamp: Time, duration: Time)
      modifies this
      ensures frames == old(frames) + [EncodedFrame(buffer, presentationTimeStamp, duration)]
      ensures width == old(width) && height == old(height)
    {
      frames := frames + [EncodedFrame(buffer, presentationTimeStamp, duration)];
    }
  }

  /**
   The component. Effects are compared by identity (E's equality); `execute`
   is what each effect does to an image.
   */
  class VideoIOComponent<E(==), I> {
    const encoder: AVCEncoder<I>
    const execute: (E, I) -> I
    var effects: seq<E>

    /** Each effect is registered at most once. */
    ghost predicate Valid()
      reads this
    {
      NoDuplicates(effects)
    }

    constructor (encoder: AVCEncoder<I>, execute: (E, I) -> I)
      ensures Valid() && effects == []
      ensures this.encoder == encoder && this.execute == execute
    {
      this.encoder := encoder;
      this.execute := execute;
      effects := [];
    }

    /**
     effect(buffer): the registered effects run in list order over the image
     read from the buffer, and the result is rendered into a new buffer of the
     width and height the input had before any effect ran.
     */
    method Effect(buffer: PixelBuffer<I>) returns (out: PixelBuffer<I>)
      ensures out == EffectOutput(effects, execute, buffer)
      ensures out.content == ApplyChain(effects, execute, buffer.content)
      ensures out.width == buffer.width && out.height == buffer.height
    {
      var width, height := buffer.width, buffer.height;
      var image := buffer.content;
      var chain := effects;
      for k := 0 to |chain|
        invariant image == ApplyChain(chain[..k], execute, buffer.content)
      {
        ApplyChainSnoc(chain[..k], chain[k], execute, buffer.content);
        assert chain[..k + 1] == chain[..k] + [chain[k]];
        image := execute(chain[k], image);
      }
      assert chain[..|chain|] == chain;
      out := PixelBuffer(width, height, YpCbCr420BiPlanarVideoRange, image);
    }

    /** registerEffect: false and no change when the effect is present; otherwise appended, true. */
    method RegisterEffect(effect: E) returns (registered: bool)
      requires Valid()
      modifies this
      ensures Valid()
      ensures registered <==> effect !in old(effects)
      ensures registered ==> effects == old(effects) + [effect]
      ensures !registered ==> effects == old(effects)
      ensures effects == Registered(old(effects), effect)
    {
      if IndexOf(effects, effect).Some? {
        return false;
      }
      effects := effects + [effect];
      return true;
    }

    /**
     unregisterEffect: when the effect is present, the entry at its first index
     is removed and true returned; otherwise nothing changes and false is returned.
     */
    method UnregisterEffect(effect: E) returns (removed: bool)
      requires Valid()
      modifies this
      ensures Valid()
      ensures removed <==> effect in old(effects)
      ensures removed ==> effect !in effects && |effects| == |old(effects)| - 1
      ensures !removed ==> effects == old(effects)
      ensures effects == Unregistered(old(effects), effect)
    {
      match IndexOf(effects, effect)
      case Some(i) =>
        UnregisteredNoDuplicates(effects, effect);
        effects := RemoveAt(effects, i);
        return true;
      case None =>
        return false;
    }

    /**
     captureOutput: a camera sample without an image buffer is ignored;
     otherwise the processed buffer goes to the encoder with the sample's own
     timestamp and duration.
     */
    method CaptureOutput(sampleBuffer: SampleBuffer<I>)
      modifies encoder
      ensures encoder.width == old(encoder.width) && encoder.height == old(encoder.height)
      ensures sampleBuffer.imageBuffer.None? ==> encoder.frames == old(encoder.frames)
      ensures sampleBuffer.imageBuffer.Some? ==>
                encoder.frames == old(encoder.frames) + [EncodedFrame(
                  EffectOutput(effects, execute, sampleBuffer.imageBuffer.value),
                  sampleBuffer.presentationTimeStamp, sampleBuffer.duration)]
    {
      match sampleBuffer.imageBuffer
      case None =>
        return;
      case Some(image) =>
        var processed := Effect(image);
        encoder.EncodeImageBuffer(processed, sampleBuffer.presentationTimeStamp, sampleBuffer.duration);
    }

    /** didSetSize: the encoder's width and height become the size, each truncated to Int32. */
    method DidSetSize(size: Size)
      requires FitsInt32(size.width) && FitsInt32(size.height)
      modifies encoder`width, encoder`height
      ensures encoder.width == TruncateToInt32(size.width)
      ensures encoder.height == TruncateToInt32(size.height)
    {
      encoder.width := TruncateToInt32(size.width);
      encoder.height := TruncateToInt32(size.height);
    }

    /**
     pixelBufferOutput: a screen frame bypasses the effects and goes to the
     encoder as it is, its timestamp serving as both presentation time and duration.
     */
    method PixelBufferOutput(pixelBuffer: PixelBuffer<I>, timestamp: Time)
      modifies encoder
      ensures encoder.frames == old(encoder.frames) + [EncodedFrame(pixelBuffer, timestamp, timestamp)]
      ensures encoder.width == old(encoder.width) && encoder.height == old(encoder.height)
    {
      encoder.EncodeImageBuffer(pixelBuffer, timestamp, timestamp);
    }
  }

  /**
   A 1920x1080 camera frame through a component with effects [sharpen, grayscale]
   registered in that order: the encoder receives exactly one 1920x1080 frame
   whose content is grayscale(sharpen(input)), with the sample's timing.
   */
  method CameraFrameScenario<E(==), I>(execute: (E, I) -> I, sharpen: E, grayscale: E, source: PixelBuffer<I>)
    returns (frames: seq<EncodedFrame<I>>)
    requires sharpen != grayscale
    requires source.width == 1920 && source.height == 1080
    ensures |frames| == 1
    ensures frames[0].buffer.width == 1920 && frames[0].buffer.height == 1080
    ensures frames[0].buffer.content == execute(grayscale, execute(sharpen, source.content))
    ensures frames[0].presentationTimeStamp == Time(1000, 1000) && frames[0].duration == Time(33, 1000)
  {
    var encoder := new AVCEncoder<I>(1920, 1080);
    var component := new VideoIOComponent<E, I>(encoder, execute);
    var first := component.RegisterEffect(sharpen);
    var second := component.RegisterEffect(grayscale);
    assert component.effects == [sharpen, grayscale];
    component.CaptureOutput(SampleBuffer(Some(source), Time(1000, 1000), Time(33, 1000)));
    ApplyChainPair(sharpen, grayscale, execute, source.content);
    frames := encoder.frames;
  }
}
