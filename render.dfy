/** The choices the view makes from its state when it renders. */
module Render {
  import opened Optional
  import opened Form
  import opened Generation

  /** The file name the download link offers. */
  const DownloadName: string := "posterly-poster.jpg"

  datatype TextAlign = AlignRight | AlignLeft
  datatype Font = Tajawal | Poppins

  /** The page's text alignment and font. */
  datatype Layout = Layout(align: TextAlign, font: Font)

  /** The view's `isArabic` flag: the language held is Arabic. */
  predicate IsArabic(language: Language) {
    language == Ar
  }

  /** Arabic pages are right-aligned in Tajawal, the others left-aligned in
      Poppins. */
  function PageLayout(language: Language): (r: Layout)
    ensures r.align == AlignRight <==> language == Ar
    ensures r.font == Tajawal <==> language == Ar
  {
    if IsArabic(language) then Layout(AlignRight, Tajawal) else Layout(AlignLeft, Poppins)
  }

  /** Whether the poster handle is truthy in JavaScript: `null` and the empty
      string are not. */
  predicate HasPoster(posterUrl: Option<string>) {
    posterUrl.Some? && posterUrl.value != ""
  }

  /** The preview area: the placeholder message, or the poster image. */
  datatype Preview = Placeholder | PosterImage(src: string)

  /** The download link: its target and the file name it offers. */
  datatype DownloadLink = DownloadLink(href: string, fileName: string)

  function PreviewArea(posterUrl: Option<string>): (r: Preview)
    ensures r.Placeholder? <==> !HasPoster(posterUrl)
    ensures r.PosterImage? ==> posterUrl == Some(r.src)
  {
    if HasPoster(posterUrl) then PosterImage(posterUrl.value) else Placeholder
  }

  function DownloadControl(posterUrl: Option<string>): (r: Option<DownloadLink>)
    ensures r.None? <==> !HasPoster(posterUrl)
    ensures r.Some? ==> posterUrl == Some(r.value.href) && r.value.fileName == "posterly-poster.jpg"
  {
    if HasPoster(posterUrl) then Some(DownloadLink(posterUrl.value, DownloadName)) else None
  }

  /** The image and the download link appear together, for the same handle;
      without a poster only the placeholder is shown. */
  lemma ImageAndLinkTogether(posterUrl: Option<string>)
    ensures PreviewArea(posterUrl).Placeholder? <==> DownloadControl(posterUrl).None?
    ensures PreviewArea(posterUrl).PosterImage? ==>
              DownloadControl(posterUrl) == Some(DownloadLink(PreviewArea(posterUrl).src, DownloadName))
  {
  }

  /** After a delivered generation the preview shows the new image and offers
      it for download; after a failed one the preview is what it was. */
  lemma GenerationUpdatesPreview(posterUrl: Option<string>, outcome: FetchOutcome)
    ensures var after := Generate(posterUrl, outcome).poster;
            if outcome.Delivered? && outcome.objectUrl != "" then
              PreviewArea(after) == PosterImage(outcome.objectUrl)
              && DownloadControl(after) == Some(DownloadLink(outcome.objectUrl, DownloadName))
            else if outcome.Delivered? then
              PreviewArea(after) == Placeholder && DownloadControl(after) == None
            else
              PreviewArea(after) == PreviewArea(posterUrl) && DownloadControl(after) == DownloadControl(posterUrl)
  {
  }
}
