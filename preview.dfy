/**
 * The live-preview document that `runCode` assigns to the preview frame's
 * `srcdoc`: a fixed template with the style buffer in the head and the markup
 * buffer followed by the script buffer in the body. Nothing is escaped.
 */
module Preview {

  /** The template text before the style block (leading newline and indentation included). */
  const DocOpen: string := "\n            <!DOCTYPE html>\n            <html><head>"
  const StyleOpen: string := "<style>"
  const StyleClose: string := "</style>"
  const HeadToBody: string := "</head><body>"
  const ScriptOpen: string := "<script>"
  const ScriptClose: string := "</script>"
  /** The template text after the script block (trailing newline and indentation included). */
  const DocClose: string := "</body></html>\n        "

  /** `<style>`css`</style>`, placed in the head. */
  function StyleBlock(css: string): string {
    StyleOpen + css + StyleClose
  }

  /** `<script>`js`</script>`, placed at the end of the body. */
  function ScriptBlock(js: string): string {
    ScriptOpen + js + ScriptClose
  }


  /** The characters the template adds around the three buffers. */
  function Overhead(): nat {
    |DocOpen| + |StyleOpen| + |StyleClose| + |HeadToBody| + |ScriptOpen| + |ScriptClose| + |DocClose|
  }

  /**
   * The document built from the three buffers: every character of every
   * buffer is kept, and the template adds the same amount whatever they hold.
   */
  function PreviewDocument(html: string, css: string, js: string): (doc: string)
    ensures |doc| == |html| + |css| + |js| + Overhead()
  {
    DocOpen + StyleBlock(css) + HeadToBody + html + ScriptBlock(js) + DocClose
  }

  /** Where the markup buffer starts: after the head, which holds the style block. */
  function HtmlAt(css: string): nat {
    |DocOpen| + |StyleBlock(css)| + |HeadToBody|
  }

  /** A wrapped block holds its content between its two tags. */
  lemma BlockLayout(open: string, content: string, close: string)
    ensures |open + content + close| == |open| + |content| + |close|
    ensures (open + content + close)[..|open|] == open
    ensures (open + content + close)[|open|..|open| + |content|] == content
    ensures (open + content + close)[|open| + |content|..] == close
  {
  }

  /**
   * The layout of the document, in order: the fixed opening, the style block
   * (so the css is in the head), the head/body boundary, the html, the script
   * block right after the html, and the fixed closing.
   */
  lemma PreviewLayout(html: string, css: string, js: string)
    ensures var doc := PreviewDocument(html, css, js);
      && doc[..|DocOpen|] == DocOpen
      && doc[|DocOpen|..HtmlAt(css) - |HeadToBody|] == StyleBlock(css)
      && doc[HtmlAt(css) - |HeadToBody|..HtmlAt(css)] == HeadToBody
      && doc[HtmlAt(css)..HtmlAt(css) + |html|] == html
      && doc[HtmlAt(css) + |html|..|doc| - |DocClose|] == ScriptBlock(js)
      && doc[|doc| - |DocClose|..] == DocClose
  {
  }

  /**
   * The document reflects every buffer: with the other two buffers fixed,
   * changing any one of them changes the document.
   */
  lemma PreviewReflectsEachBuffer(html: string, css: string, js: string, html': string, css': string, js': string)
    ensures PreviewDocument(html, css, js) == PreviewDocument(html', css, js) ==> html == html'
    ensures PreviewDocument(html, css, js) == PreviewDocument(html, css', js) ==> css == css'
    ensures PreviewDocument(html, css, js) == PreviewDocument(html, css, js') ==> js == js'
  {
    var doc := PreviewDocument(html, css, js);
    PreviewLayout(html, css, js);
    BlockLayout(StyleOpen, css, StyleClose);
    BlockLayout(ScriptOpen, js, ScriptClose);
    if doc == PreviewDocument(html', css, js) {
      PreviewLayout(html', css, js);
    }
    if doc == PreviewDocument(html, css', js) {
      PreviewLayout(html, css', js);
      BlockLayout(StyleOpen, css', StyleClose);
    }
    if doc == PreviewDocument(html, css, js') {
      PreviewLayout(html, css, js');
      BlockLayout(ScriptOpen, js', ScriptClose);
    }
  }

  /**
   * Without escaping the document cannot be split back into its buffers:
   * markup that ends in an opening script tag yields the same document as the
   * same tag moved to the front of the script buffer.
   */
  lemma ScriptTagNotEscaped(css: string)
    ensures PreviewDocument(ScriptOpen, css, "") == PreviewDocument("", css, ScriptOpen)
  {
  }

  /**
   * Likewise a style buffer can close the style block and the head itself:
   * the document is then the same as for markup that starts with those tags.
   */
  lemma StyleTagNotEscaped(css: string, js: string)
    ensures PreviewDocument("", css + StyleClose + HeadToBody, js)
         == PreviewDocument(StyleClose + HeadToBody, css, js)
  {
  }
}
