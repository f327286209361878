/** The one piece of the page the filters change: an element's `style.display`. */
module Dom {

  /** A page element; `parent` is its `parentElement`. */
  class Div {
    var display: string
    const parent: Div?

    constructor (parent: Div?)
      ensures this.parent == parent && display == ""
    {
      this.parent := parent;
      display := "";
    }
  }

  const Hidden := "none"

  /** `div.style.display = "none"`. */
  method HideDiv(div: Div)
    modifies div
    ensures div.display == Hidden
  {
    div.display := Hidden;
  }
}
