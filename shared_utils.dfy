/** The client's shared helpers: the size rule of the image shrinker and the storage reader
    that falls back to a default. */
module SharedUtils {
  import opened Wrappers

  /** The canvas size an image of w×h pixels is drawn at: no wider than maxWidth, with the
      height scaled by the same factor as the width. */
  datatype Size = Size(width: real, height: real)

  function ResizedSize(w: nat, h: nat, maxWidth: nat): (s: Size)
    ensures s.width <= maxWidth as real && s.width <= w as real
    ensures w <= maxWidth ==> s == Size(w as real, h as real)
    ensures w > maxWidth ==> s.width == maxWidth as real && s.height * (w as real) == (h as real) * (maxWidth as real)
  {
    var scaleFactor := if w == 0 then 0.0 else maxWidth as real / w as real;
    var width := if w < maxWidth then w as real else maxWidth as real;
    Size(width, (h as real) * (if width < w as real then scaleFactor else 1.0))
  }

  /** The aspect ratio is kept in every case, and the output is never larger than the input. */
  lemma ResizeKeepsAspect(w: nat, h: nat, maxWidth: nat)
    ensures ResizedSize(w, h, maxWidth).height * (w as real) == (h as real) * ResizedSize(w, h, maxWidth).width
    ensures ResizedSize(w, h, maxWidth).height <= h as real
  {
    var s := ResizedSize(w, h, maxWidth);
    if w > maxWidth {
      var f := maxWidth as real / w as real;
      assert s.height == (h as real) * f;
      assert f * (w as real) == maxWidth as real;
      assert f <= 1.0;
      assert (h as real) * f <= (h as real) * 1.0;
    }
  }

  /** Reads a stored value: the fallback when nothing (or the empty string) is stored or the
      stored text does not parse, and the parsed value otherwise. `parse` stands for
      `JSON.parse`, None meaning that it throws. */
  function SafeJsonParse<T>(item: Option<string>, parse: string -> Option<T>, fallback: T): (r: T)
    ensures item.None? || item == Some("") ==> r == fallback
    ensures item.Some? && item.value != "" && parse(item.value).None? ==> r == fallback
    ensures item.Some? && item.value != "" && parse(item.value).Some? ==> r == parse(item.value).value
  {
    if item.None? || item.value == "" then fallback
    else
      match parse(item.value)
      case None => fallback
      case Some(v) => v
  }
}
