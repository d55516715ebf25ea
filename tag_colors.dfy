/** The colour of an article's tag badge. */
module TagColors {

  const ColorNoticia: string := "#2C7865"
  const ColorManualidad: string := "#007bff"
  const ColorPorDefecto: string := "#007bff"

  /** `tagColor`: a `switch` on the exact tag text. */
  function TagColor(tag: string): (r: string)
    ensures tag == "Noticia" ==> r == ColorNoticia
    ensures tag == "Manualidad" ==> r == ColorManualidad
    ensures tag != "Noticia" && tag != "Manualidad" ==> r == ColorPorDefecto
  {
    match tag
    case "Noticia" => ColorNoticia
    case "Manualidad" => ColorManualidad
    case _ => ColorPorDefecto
  }

  /** Only the exact tag "Noticia" takes the green; every other tag, a
      differently capitalised "noticia" included, is blue. */
  lemma DosColores(tag: string)
    ensures TagColor(tag) == ColorNoticia || TagColor(tag) == ColorPorDefecto
    ensures TagColor(tag) == ColorNoticia <==> tag == "Noticia"
  {
  }
}
