/** The one piece of page-wide DOM state both scripts write: `document.body.style.overflow`. */
module Dom {

  /** The value the scripts write to lock page scrolling behind a modal or an open menu. */
  const SCROLL_LOCKED := "hidden"
  /** The value the scripts write to release the lock (the empty inline style). */
  const SCROLL_FREE := ""

  class Body {
    var overflow: string

    constructor (overflow: string)
      ensures this.overflow == overflow
    {
      this.overflow := overflow;
    }
  }
}
