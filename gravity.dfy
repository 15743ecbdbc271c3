/**
 The mapping from an AVFoundation video gravity (how a preview layer fits the
 video into its bounds) to the Core Animation contents gravity used for the
 layer that shows the processed preview.
 */
module Gravity {

  // The string values of the AVFoundation video gravity constants.
  const VideoGravityResizeAspect: string := "AVLayerVideoGravityResizeAspect"
  const VideoGravityResizeAspectFill: string := "AVLayerVideoGravityResizeAspectFill"
  const VideoGravityResize: string := "AVLayerVideoGravityResize"

  // The string values of the Core Animation contents gravity constants
  // kCAGravityResizeAspect, kCAGravityResizeAspectFill and kCAGravityResize.
  const ContentsGravityResizeAspect: string := "resizeAspect"
  const ContentsGravityResizeAspectFill: string := "resizeAspectFill"
  const ContentsGravityResize: string := "resize"

  /** The video gravities that getContentsGravity names explicitly. */
  predicate IsNamedVideoGravity(g: string)
  {
    g == VideoGravityResizeAspect || g == VideoGravityResizeAspectFill || g == VideoGravityResize
  }

  /** The contents gravities that getContentsGravity can return. */
  predicate IsContentsGravity(c: string)
  {
    c == ContentsGravityResizeAspect || c == ContentsGravityResizeAspectFill || c == ContentsGravityResize
  }

  /**
   getContentsGravity: each named video gravity maps to its layer counterpart;
   every other string falls back to resize-aspect.
   */
  function ContentsGravity(videoGravity: string): (r: string)
    ensures IsContentsGravity(r)
    ensures r == ContentsGravityResizeAspectFill <==> videoGravity == VideoGravityResizeAspectFill
    ensures r == ContentsGravityResize <==> videoGravity == VideoGravityResize
    ensures r == ContentsGravityResizeAspect <==>
              videoGravity != VideoGravityResizeAspectFill && videoGravity != VideoGravityResize
  {
    if videoGravity == VideoGravityResizeAspect then ContentsGravityResizeAspect
    else if videoGravity == VideoGravityResizeAspectFill then ContentsGravityResizeAspectFill
    else if videoGravity == VideoGravityResize then ContentsGravityResize
    else ContentsGravityResizeAspect
  }

  /** The video gravity a contents gravity came from (reference inverse of ContentsGravity). */
  function VideoGravity(contentsGravity: string): (r: string)
    ensures IsNamedVideoGravity(r)
  {
    if contentsGravity == ContentsGravityResizeAspectFill then VideoGravityResizeAspectFill
    else if contentsGravity == ContentsGravityResize then VideoGravityResize
    else VideoGravityResizeAspect
  }

  /** On the named gravities the mapping is one-to-one: VideoGravity undoes it. */
  lemma ContentsGravityRoundTrip(g: string)
    requires IsNamedVideoGravity(g)
    ensures VideoGravity(ContentsGravity(g)) == g
  {
  }

  /** Every contents gravity is reached, from exactly the video gravity VideoGravity gives. */
  lemma ContentsGravityOnto(c: string)
    requires IsContentsGravity(c)
    ensures ContentsGravity(VideoGravity(c)) == c
  {
  }

  /** An unrecognised gravity is treated exactly like resize-aspect. */
  lemma ContentsGravityDefault(g: string)
    requires !IsNamedVideoGravity(g)
    ensures ContentsGravity(g) == ContentsGravity(VideoGravityResizeAspect)
  {
  }
}
