/**
 * The render rule the three players share: each renders its `<video>` element
 * only in the branch taken when `loading` is false, so `videoRef.current` is
 * unset while the spinner shows.
 */
module VideoElement {
  /** The video element is rendered only when the component is not loading. */
  predicate RenderedAsWritten(loading: bool) {
    !loading
  }
}
