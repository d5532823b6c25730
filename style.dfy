/** The two inline style properties the page's scripts write: `element.style.display`
    and `document.body.style.overflow`. `…Initial` is the empty string a style property
    holds before any script assigns it. */
module Style {

  datatype Display = DisplayInitial | DisplayBlock | DisplayNone

  datatype Overflow = OverflowInitial | OverflowHidden | OverflowAuto
}
