/** The text font mapping shared by the page and the canvas (`getFontFamily`). */
module Fonts {

  const Bubble: string := "Bagel Fat One, cursive"
  const Script: string := "Imperial Script, cursive"
  const Narrow: string := "Instrument Serif, serif"
  const Pixel: string := "Pixelify Sans, monospace"

  /** The CSS font family for a font id. The three named fonts get their own
      families; every other id, "pixel" included, falls back to the pixel font. */
  function FontFamily(font: string): (family: string)
    ensures family in {Bubble, Script, Narrow, Pixel}
    ensures family == Bubble <==> font == "bubble"
    ensures family == Script <==> font == "script"
    ensures family == Narrow <==> font == "narrow"
    ensures family == Pixel <==> font !in {"bubble", "script", "narrow"}
  {
    if font == "bubble" then Bubble
    else if font == "script" then Script
    else if font == "narrow" then Narrow
    else Pixel
  }
}
