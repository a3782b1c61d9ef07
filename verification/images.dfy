/** The image helper (src/config/images.ts): a configured path, or a
    fallback when the path is missing or empty. */
module Images {

  /** An entry of the untyped image table: absent (`undefined`), `null`, or a
      path. */
  datatype Path = Missing | Null | Text(value: string)

  /** Truthiness of a table entry: only a non-empty path counts. */
  predicate Present(p: Path) {
    p.Text? && p.value != ""
  }

  /** `images.fallback.placeholder`. */
  const Placeholder := Text("/placeholder.png")

  /** `getImage(imagePath, fallback)`: `imagePath || fallback`. */
  function GetImage(path: Path, fallback: Path): (r: Path)
    ensures Present(path) ==> r == path
    ensures !Present(path) ==> r == fallback
  {
    if Present(path) then path else fallback
  }

  /** `getImage(imagePath)`: the fallback defaults to the placeholder. */
  function GetImageOrPlaceholder(path: Path): (r: Path)
    ensures Present(r)
    ensures Present(path) ==> r == path
    ensures !Present(path) ==> r.value == "/placeholder.png"
  {
    GetImage(path, Placeholder)
  }

  /** With a fixed fallback, a second lookup changes nothing, and a present
      fallback guarantees a present result. */
  lemma GetImageIdempotent(path: Path, fallback: Path)
    ensures GetImage(GetImage(path, fallback), fallback) == GetImage(path, fallback)
    ensures Present(fallback) ==> Present(GetImage(path, fallback))
  {
  }

  /** `undefined`, `null` and `""` all give the fallback. */
  lemma MissingPathsFallBack(fallback: Path)
    ensures GetImage(Missing, fallback) == fallback
    ensures GetImage(Null, fallback) == fallback
    ensures GetImage(Text(""), fallback) == fallback
  {
  }
}
