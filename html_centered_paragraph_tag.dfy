/** The HTML renderer of a centered paragraph: the content, unchanged,
    inside `<p class="center">` and `</p>`. */
module HtmlCenteredParagraphTag {
  import opened Strings

  const Open: string := "<p class=\"center\">"
  const Close: string := "</p>"

  /** `parse(string, options)`; the options are not read. */
  function Parse(content: string, options: string): (html: string)
    ensures Open <= html
    ensures |html| == |Open| + |content| + |Close|
    ensures html[|html| - |Close|..] == Close
    ensures html[|Open|..|html| - |Close|] == content
  {
    Open + content + Close
  }

  /** The reference inverse: the content of a centered paragraph, if `html`
      is one. */
  function Unwrap(html: string): (content: Option<string>)
    ensures content.Some? <==>
              |Open| + |Close| <= |html| && Open <= html && html[|html| - |Close|..] == Close
    ensures content.Some? ==> html == Open + content.value + Close
  {
    if |Open| + |Close| <= |html| && Open <= html && html[|html| - |Close|..] == Close then
      var inner := html[|Open|..|html| - |Close|];
      assert html == html[..|Open|] + inner + html[|html| - |Close|..];
      Some(inner)
    else None
  }

  /** Wrapping is undone by Unwrap: the content comes back verbatim, with no
      escaping. */
  lemma UnwrapParse(content: string, options: string)
    ensures Unwrap(Parse(content, options)) == Some(content)
  {
    var html := Parse(content, options);
    assert html[|Open|..|html| - |Close|] == content;
  }

  /** Any two option strings give the same output. */
  lemma OptionsIgnored(content: string, options1: string, options2: string)
    ensures Parse(content, options1) == Parse(content, options2)
  {
  }

  /** Different contents give different paragraphs. */
  lemma ParseInjective(c1: string, c2: string, options: string)
    requires Parse(c1, options) == Parse(c2, options)
    ensures c1 == c2
  {
    UnwrapParse(c1, options);
    UnwrapParse(c2, options);
  }
}
