/**
 What one pass of the effect pipeline computes: the registered effects run in
 list order, each on the previous result, and the output buffer is made at
 the input buffer's dimensions in the encoder's pixel format.
 */
module EffectChain {
  import opened Media

  /**
   Left fold of the effect chain over an image: the first effect sees the
   input image, each later one the result of the effect before it.
   */
  function ApplyChain<E, I>(chain: seq<E>, execute: (E, I) -> I, image: I): I
    decreases |chain|
  {
    if chain == [] then image else ApplyChain(chain[1..], execute, execute(chain[0], image))
  }

  /** Running two chains one after the other is running their concatenation. */
  lemma {:induction false} ApplyChainAppend<E, I>(s: seq<E>, t: seq<E>, execute: (E, I) -> I, image: I)
    ensures ApplyChain(s + t, execute, image) == ApplyChain(t, execute, ApplyChain(s, execute, image))
    decreases |s|
  {
    if s == [] {
      assert s + t == t;
    } else {
      assert (s + t)[1..] == s[1..] + t;
      ApplyChainAppend(s[1..], t, execute, execute(s[0], image));
    }
  }

  /** An effect appended to the chain runs last, on the result of all earlier ones. */
  lemma ApplyChainSnoc<E, I>(s: seq<E>, e: E, execute: (E, I) -> I, image: I)
    ensures ApplyChain(s + [e], execute, image) == execute(e, ApplyChain(s, execute, image))
  {
    ApplyChainAppend(s, [e], execute, image);
  }

  /** With effects [a, b] the pipeline computes b(a(image)), in registration order. */
  lemma ApplyChainPair<E, I>(a: E, b: E, execute: (E, I) -> I, image: I)
    ensures ApplyChain([a, b], execute, image) == execute(b, execute(a, image))
  {
    ApplyChainSnoc([a], b, execute, image);
    assert [a] + [b] == [a, b];
  }

  /**
   The buffer the pipeline returns for `buffer`: the post-effect image
   re-materialised at the width and height read from the input buffer, in the
   bi-planar 4:2:0 video-range format the encoder expects.
   */
  function EffectOutput<E, I>(chain: seq<E>, execute: (E, I) -> I, buffer: PixelBuffer<I>): (out: PixelBuffer<I>)
    ensures out.width == buffer.width && out.height == buffer.height
    ensures out.format == YpCbCr420BiPlanarVideoRange
    ensures chain == [] ==> out.content == buffer.content
  {
    PixelBuffer(buffer.width, buffer.height, YpCbCr420BiPlanarVideoRange, ApplyChain(chain, execute, buffer.content))
  }
}
