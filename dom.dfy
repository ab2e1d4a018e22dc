/**
 * The slice of the browser host the navigation controller reads: the vertical scroll
 * offset of the window and, for every element id currently rendered, its layout box.
 * Geometry is taken as whole pixels.
 */
module Dom {

  /** Layout of one rendered element: `offsetTop` and `offsetHeight` in page coordinates,
      and `rectTop`, the top of its bounding rectangle relative to the viewport. */
  datatype Element = Element(offsetTop: int, offsetHeight: int, rectTop: int)

  /** `scrollY` is `window.scrollY` (also read as `window.pageYOffset`); `elements` holds
      the elements `document.getElementById` can find, keyed by id. */
  datatype Viewport = Viewport(scrollY: int, elements: map<string, Element>)
}
